/** A turn's immutable identity, and the reply tags that derive from it alone. */
module TurnContexts {
  import opened Tables

  datatype TurnInput = TurnInput(eventId: string, role: Role, pubkey: string, ordinal: nat, createdAt: int)

  datatype TurnContext = TurnContext(
    turnId: string, channelId: string, threadRootId: string,
    primaryId: string, primaryPubkey: string, startedAt: int,
    accepted: seq<string>, participants: seq<string>, inputs: seq<TurnInput>)

  /** A follow-up message offered to a running turn. */
  datatype Steering = Steering(eventId: string, pubkey: string, createdAt: int)

  function CreateTurnContext(
    turnId: string, channelId: string, threadRootId: string,
    primaryId: string, pubkey: string, startedAt: int, createdAt: int): TurnContext
  {
    TurnContext(turnId, channelId, threadRootId, primaryId, pubkey, startedAt,
      [primaryId], [pubkey], [TurnInput(primaryId, Primary, pubkey, 0, createdAt)])
  }

  function WithSteeringInput(c: TurnContext, s: Steering): TurnContext {
    if s.eventId in c.accepted then c else
    c.(accepted := c.accepted + [s.eventId],
       participants := if s.pubkey in c.participants then c.participants else c.participants + [s.pubkey],
       inputs := c.inputs + [TurnInput(s.eventId, Steer, s.pubkey, |c.inputs|, s.createdAt)])
  }

  function Steered(c: TurnContext, steers: seq<Steering>): TurnContext
    decreases |steers|
  {
    if steers == [] then c else Steered(WithSteeringInput(c, steers[0]), steers[1..])
  }

  /** Inputs mirror the accepted ids; the primary is input 0; nobody is listed twice. */
  ghost predicate WellFormed(c: TurnContext) {
    && |c.inputs| == |c.accepted| > 0
    && c.accepted[0] == c.primaryId
    && (forall i :: 0 <= i < |c.inputs| ==>
          && c.inputs[i].eventId == c.accepted[i]
          && c.inputs[i].ordinal == i
          && c.inputs[i].role == (if i == 0 then Primary else Steer))
    && (forall i, j :: 0 <= i < j < |c.accepted| ==> c.accepted[i] != c.accepted[j])
    && (forall i, j :: 0 <= i < j < |c.participants| ==> c.participants[i] != c.participants[j])
    && |c.participants| > 0 && c.participants[0] == c.primaryPubkey
  }

  datatype Marker = Root | Reply

  /** The `h`, `e` (with its NIP-10 marker) and `p` tags of an outgoing event. */
  datatype Tag = H(channelId: string) | E(eventId: string, marker: Marker) | P(pubkey: string)

  function ParticipantTags(pubkeys: seq<string>): seq<Tag> {
    if pubkeys == [] then [] else [P(pubkeys[0])] + ParticipantTags(pubkeys[1..])
  }

  /** First occurrences, in order: what building a JavaScript Set keeps. */
  function Dedupe(values: seq<string>): seq<string> {
    if values == [] then [] else
    var kept := Dedupe(values[..|values| - 1]);
    if values[|values| - 1] in kept then kept else kept + [values[|values| - 1]]
  }

  function Anchor(c: TurnContext): seq<Tag> {
    [H(c.channelId)] +
    if c.threadRootId != c.primaryId then [E(c.threadRootId, Root), E(c.primaryId, Reply)]
    else [E(c.primaryId, Root)]
  }

  function BuildReplyTags(c: TurnContext): seq<Tag> {
    Anchor(c) + ParticipantTags(Dedupe(c.participants))
  }

  lemma {:induction false} DedupeKeepsDistinct(values: seq<string>)
    requires forall i, j :: 0 <= i < j < |values| ==> values[i] != values[j]
    ensures Dedupe(values) == values
  {
    if values != [] {
      var front := values[..|values| - 1];
      DedupeKeepsDistinct(front);
      assert values == front + [values[|values| - 1]];
    }
  }

  lemma {:induction false} ParticipantTagsAppend(a: seq<string>, b: seq<string>)
    ensures ParticipantTags(a + b) == ParticipantTags(a) + ParticipantTags(b)
  {
    if a == [] {
      assert a + b == b;
    } else {
      ParticipantTagsAppend(a[1..], b);
      assert (a + b)[1..] == a[1..] + b;
    }
  }

  /** However a turn is steered, it stays well formed and its identity does not move. */
  lemma {:induction false} SteeringKeepsIdentity(c: TurnContext, steers: seq<Steering>)
    requires WellFormed(c)
    ensures var d := Steered(c, steers);
      && WellFormed(d)
      && d.turnId == c.turnId && d.channelId == c.channelId
      && d.threadRootId == c.threadRootId && d.primaryId == c.primaryId
      && c.accepted <= d.accepted && c.participants <= d.participants && c.inputs <= d.inputs
      && (forall s :: s in steers ==> s.eventId in d.accepted)
    decreases |steers|
  {
    if steers != [] {
      var next := WithSteeringInput(c, steers[0]);
      SteeringKeepsIdentity(next, steers[1..]);
      assert steers[0].eventId in next.accepted;
      forall s | s in steers ensures s.eventId in Steered(c, steers).accepted {
        assert s == steers[0] || s in steers[1..];
      }
    }
  }

  /** Steering only ever appends `p` tags: the reply anchor of every later output is the
      one the turn was created with. */
  lemma SteeringOnlyAddsParticipants(c: TurnContext, steers: seq<Steering>) returns (added: seq<string>)
    requires WellFormed(c)
    ensures Steered(c, steers).participants == c.participants + added
    ensures BuildReplyTags(Steered(c, steers)) == BuildReplyTags(c) + ParticipantTags(added)
  {
    SteeringKeepsIdentity(c, steers);
    var d := Steered(c, steers);
    added := d.participants[|c.participants|..];
    assert d.participants == c.participants + added;
    assert Dedupe(c.participants) == c.participants by { DedupeKeepsDistinct(c.participants); }
    assert Dedupe(d.participants) == d.participants by { DedupeKeepsDistinct(d.participants); }
    ParticipantTagsAppend(c.participants, added);
    AppendAssociates(Anchor(c), ParticipantTags(c.participants), ParticipantTags(added));
  }

  lemma AppendAssociates(a: seq<Tag>, b: seq<Tag>, c: seq<Tag>)
    ensures a + (b + c) == (a + b) + c
  {
  }
}
