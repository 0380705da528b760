# A verified model of the turn pipeline

The repository runs chat agents: events arrive from a relay, a per-channel actor turns them
into agent turns, the agent's output is signed and published through a durable outbox, and a
telemetry feed, usage metrics and a deploy command stand beside that path. This project models
the parts of it that keep promises over time, as state machines in Dafny, and proves those
promises for every input, every run and every moment a process may die.

`dafny verify dfyconfig.toml` checks everything.

## How it is laid out

Every component comes in the same three layers.

* A *model*: the state as a datatype and each operation as a function on it, with the
  environment (the agent session, the relay, the clock, the process table) as adversarial input.
  Of the agent session one thing is taken for granted, which the actor's own comments rely on:
  each prompted run emits `agent_settled` once, in the order the runs were prompted, and an
  aborted run no later than its abort resolves.
  `Tables` is the SQLite schema, with one function per statement.
* *Objects*: where the program is a class that updates its fields or a loop that updates its
  variables, a class or method of that form, proved equal to the model function
  (`Storage.Database`, `ChannelActors.ChannelActor`, `Scheduling.Semaphore`,
  `OutputRouters.OutputRouter`, `Publishers.OutboxPublisher`, `Recoveries.TurnLookup`,
  `TelemetryBuffers.TelemetryBuffer`, `Deploys.Host` and its loop,
  `RelaySubscriptions.SubscriptionRegistry`, `Usage.UsageTracker`).
* *Theorems* about the model: invariants that every step keeps, lifted to all runs, and what
  they mean to a caller.

| component | model and objects | theorems |
|---|---|---|
| channel actor | ActorModel, ChannelActors, TurnContexts | ActorProofs, ActorTheorems, ActorRuns |
| permits across channels | Scheduling, Fleet | Scheduling, Fleet |
| outbox and publisher | OutboxModel, OutputRouters, Publishers, PublishOrder, LogicalIds, MessageSplit | OutboxProofs, TurnOrder, MessageOrder, MessageRuns, Overtaking, and the same modules |
| crash recovery | Recovery, Recoveries | RecoveryProofs, RecoveryReruns, ActorDebts, CrashReplay, Restarts |
| telemetry | TelemetryModel, TelemetryBuffers, ByteSplit, FrameSplit | TelemetryProofs, TelemetryTheorems |
| deploy | ReconcileModel, Deploys | ReconcileProofs |
| replay dedup | Subscriptions, RelaySubscriptions | Subscriptions |
| usage series | Usage | UsageProofs |

`Basics`, `Ordering` and `Tables` are shared.

## Where the code does less than its comments say

Each of these is a theorem that states the exact condition, most with a run or an input that
meets it.

* A steer that Pi refuses leaves its row in turn_inputs behind, so the next steer of that turn
  hits the unique index and its event is lost from memory (`AnEventIsLostExactlyWhen`,
  `ARunLosesAnEventExactlyWhen`, `ASecondSteerCanBeLost`). The inbox repository's own release
  statement, which the actor does not use, would have prevented it
  (`ReleasingWouldFreeTheOrdinal`). Its row stays owed, so the next start replays it
  (`NoCrashLosesADebt`).
* Rotating with an event in the queue starts a turn that then loses its session and never ends
  (`RotateStrandsExactlyWhen`, `AStrandedTurnIsForever`, `ARotateCanStrand`).
* Closing with an event in the queue leaves a turn behind (`CloseEndsTheTurnExactlyWhen`,
  `ACloseCanBeOutlived`). Closing stops the posting, not the pump: what was posted behind the
  close is still handled and can get the actor out of `closed`, after which it takes events
  again but no turn of it ever hears its settle (`AClosedActorReopensExactlyWhen`,
  `ACloseCanBeUndone`, `AfterACloseNoSettleIsHeard`).
* A session that cannot be opened leaves the actor in `starting`, later `closed`, with a permit
  for good (`AFailedStartWedges`, `AFailedStartCanWedge`).
* An `agent_end` does not say whose run it ends, nor a `message_end` whose message it completes:
  the aborted run's, posted behind the cancel, puts the next turn into `settling`
  (`ALateAgentEndSettlesTheNextTurnExactlyWhen`), and its last message is recorded as the next
  turn's, or dropped (`ALateMessageGoesToTheNextTurnExactlyWhen`).
* Signing again, or dead-lettering, a row that is already closed puts outbox and intent states
  at odds (`SigningKeepsCoherenceExactlyWhen`, `DeadLetteringKeepsCoherenceExactlyWhen`).
* A turn's rows do not go out in `(turnId, ordinal)` order. A drain sorts them by the suffix of
  the logical id, which is the chunk number, and only then by ordinal: as soon as anything
  follows a message of two chunks in its turn, it goes out between them
  (`ADrainKeepsOrdinalOrderExactlyWhen`, `MessagesGoOutInOrderExactlyWhen`,
  `AMessageCanGoOutBetweenChunks`).
* Nor do they keep that order across drains: a row that backs off is left out while later rows of
  its turn are attempted (`ADrainOvertakesExactlyWhen`, `ADrainCanOvertakeExactlyWhen`,
  `ALaterRowCanBePublishedFirst`).
* Chat messages are cut between code units, not characters: splitting tears a surrogate pair
  exactly when, somewhere along the text, a piece over the limit has a pair starting three bytes
  before the limit and no boundary to end at instead (`SplittingTearsACharacterExactlyWhen`,
  `SplittingCanTearACharacter`); and with a limit below three bytes the loop may never end
  (`TheLoopEndsExactlyWhen`).
* A turn id with a colon, or an empty one, is not read back from a logical id
  (`SplitUndoesPrintExactlyWhen`).
* The 64 bytes reserved for a tool result's label do not pay for five-digit part counts, so the
  parts of a long result can exceed the budget (`PlainPartsFitExactlyWhen`,
  `AToolResultCanOverflow`, `ToolPartsFit`).
* An event whose handler threw falls inside the next request's window but is not delivered
  again while its id is remembered (`ADroppedEventComesBackExactlyWhen`).
* A turn that did not report a counter the session knows publishes a zero for it, not an
  unknown (`TheDeltaIsTheTurnExactlyWhen`), and an unreadable baseline marks the session's
  metrics unreliable only until the next restart (`AnUnreadableBaselineIsMarkedUntilARestart`).
* A startup deadline that falls inside the termination grace cuts the grace short
  (`AKillCanComeEarlyExactlyWhen`, `AShortTimeoutKillsEarly`), and whatever the timeout of a call,
  the world can be slow enough for that (`AnyTimeoutCanKillEarly`).
* A create whose last write fails leaves a process running without a record
  (`AFailedCreateOrphansExactlyWhen`).

## Model

The table holds the theorems and the methods with loops or the most branching. The remaining
methods of the classes are each proved equal to a model function, and have no row.

| member | source | states |
|---|---|---|
| ActorProofs.StepValid | src/runtime/channel-actor.ts:184-463 | every posted message and every handled one, in an open, closed or reopened actor, keeps the invariant: each event in one place, durable rows that agree with memory, at most one permit, settles accounted for |
| ActorProofs.RunsAreValid | src/runtime/channel-actor.ts:184-609 | the invariant holds at every point of every run from a valid actor, pumping after close included, whatever the callers do, with Pi settling each prompted run once, in order, and an aborted one no later than its abort resolves |
| ActorProofs.NewActorIsValid | src/runtime/channel-actor.ts:120-158 | a new actor satisfies it |
| ActorProofs.StartTurnRows | src/runtime/channel-actor.ts:255-398 | starting a turn writes rows that agree with memory, even when opening the session throws |
| ActorProofs.SteerKeeps | src/runtime/channel-actor.ts:405-463 | accepted, refused and colliding steers all keep the event in exactly one place and its row in agreement |
| ActorProofs.CloseTurnAgrees | src/runtime/channel-actor.ts:532-565 | settling completes exactly the turn's inputs and leaves every other row in agreement |
| ActorTheorems.AnAdmittedEventIsInOnePlace | src/runtime/channel-actor.ts:229-463 | an admitted event is once in mailbox, queue, active turn, one settled turn or the list of those given up; unless given up, its row has the disposition, turn and ordinal of that place |
| ActorTheorems.ASettleClosesOnlyItsOwnTurn | src/runtime/channel-actor.ts:519-586 | an `agent_settled` closes a turn if and only if it came from that turn's own run; a straggler of an aborted run only lowers the straggler count |
| ActorTheorems.NoRunLosesTrackOfAnEvent | src/runtime/channel-actor.ts:184-463 | over every run from a new actor, at every point, the same holds, row included, and an idle actor has no turn and an empty queue |
| ActorTheorems.ASmoothRunHoldsEveryEvent | src/runtime/channel-actor.ts:184-463 | over every run in which no handler throws and nothing is offered to a closed actor, nothing is given up: the event is in exactly one of the other four places, with the row that goes with it |
| ActorTheorems.NoRunClosesAnothersTurn | src/runtime/channel-actor.ts:519-586 | over every run from a new actor, an `agent_settled` closes no turn or the one whose run it ends |
| ActorTheorems.AnEventIsLostExactlyWhen | src/runtime/channel-actor.ts:409-440 | handling a message gives an event up if and only if it steers a turn that refused a steer before, or its turn's session cannot be opened |
| ActorTheorems.ARunLosesAnEventExactlyWhen | src/runtime/channel-actor.ts:184-463 | over every run from a new actor, a step gives an event up if and only if that happens, or a new event is stored for an actor already closed |
| ActorTheorems.ReleasingWouldFreeTheOrdinal | src/state/inbox-repository.ts:176-185 | the repository's release of a pending steer frees the ordinal for the next one; the actor's plain requeue never does |
| ActorTheorems.RotateStrandsExactlyWhen | src/runtime/channel-actor.ts:588-598 | rotating strands a turn if and only if a turn was active and an event was queued |
| ActorTheorems.AStrandedTurnIsForever | src/runtime/channel-actor.ts:577-609 | over every run, before and after a close, a stranded turn is never closed, cancelled, replaced or steered |
| ActorTheorems.AFailedStartWedges | src/runtime/channel-actor.ts:256-311 | after a failed session acquisition no run, before or after a close, starts or closes a turn, and the permit stays taken |
| ActorTheorems.CloseEndsTheTurnExactlyWhen | src/runtime/channel-actor.ts:600-609 | close leaves no turn behind if and only if there was none, or it could be cancelled and the queue was empty |
| ActorTheorems.AClosedActorReopensExactlyWhen | src/runtime/channel-actor.ts:190-208 | handling a message takes a closed actor out of `closed` if and only if a turn outlived the close and the message is a cancel or rotate that reaches its session, a final `agent_end`, or a second close whose cancel fails to start a queued event |
| ActorTheorems.AfterACloseNoSettleIsHeard | src/runtime/channel-actor.ts:519-530 | over every run from a new actor, once a close was handled no `agent_settled` closes a turn |
| ActorTheorems.ALateAgentEndSettlesTheNextTurnExactlyWhen | src/runtime/channel-actor.ts:510-517 | the `agent_end` posted behind a cancel puts the turn dispatched from the queue into settling, if and only if that turn started |
| ActorTheorems.ALateMessageGoesToTheNextTurnExactlyWhen | src/runtime/channel-actor.ts:487-507 | the `message_end` posted behind a cancel is recorded as the next turn's, in reply to the queued event, if and only if the cancel reached a session and that turn started; as its own turn's if and only if it reached none; otherwise not at all |
| ActorRuns.ASecondSteerCanBeLost | src/runtime/channel-actor.ts:409-440 | for any three events of one thread, a run of a new actor in which the third is given up and its row still says queued |
| ActorRuns.ARotateCanStrand | src/runtime/channel-actor.ts:588-598 | for any two events of different threads, a run of a new actor that ends with a stranded turn |
| ActorRuns.AFailedStartCanWedge | src/runtime/channel-actor.ts:256-311 | a run of a new actor that ends wedged in `starting`, its event given up |
| ActorRuns.ACloseCanBeOutlived | src/runtime/channel-actor.ts:600-609 | a run of a new actor that ends closed, with a turn running and a cancel still in the mailbox |
| ActorRuns.ACloseCanBeUndone | src/runtime/channel-actor.ts:190-208 | that run, with one more message handled, ends out of `closed` |
| ChannelActors.ChannelActor.StartTurn | src/runtime/channel-actor.ts:255-398 | the whole new state of a started turn, or of a start that threw |
| ChannelActors.ChannelActor.Steer | src/runtime/channel-actor.ts:405-463 | the whole new state when the steer is accepted, refused, or collides |
| ChannelActors.ChannelActor.Settle | src/runtime/channel-actor.ts:532-565 | the turn is closed, its inputs completed, its permit released, and the queue dispatched |
| ChannelActors.ChannelActor.Pump | src/runtime/channel-actor.ts:190-208 | the head of the mailbox is taken and handled to its end, throw or not |
| TurnContexts.SteeringKeepsIdentity | src/runtime/turn-context.ts:79-101 | steering changes no reply anchor: turn, channel, thread root, primary trigger and the tags derived from them stay |
| TurnContexts.SteeringOnlyAddsParticipants | src/runtime/output-router.ts:89-109 | after a steer the reply tags are the old ones plus at most one participant, at the end |
| TurnContexts.DedupeKeepsDistinct | src/runtime/output-router.ts:107-109 | deduplication keeps a list without repeats as it is |
| Scheduling.RunsAreFair | src/runtime/scheduler.ts:35-81 | over every sequence of acquire, release and resize: permits are conserved, requests are served in arrival order, no grant is revoked, nobody waits beside a free permit |
| Scheduling.StepKeepsFair | src/runtime/scheduler.ts:35-81 | each single operation keeps that |
| Scheduling.WakeServesInOrder | src/runtime/scheduler.ts:35-52 | raising the limit serves waiters first come first served, as many as fit |
| Scheduling.ReleasingTwiceIsReleasingOnce | src/runtime/scheduler.ts:63-81 | a release function run again changes nothing |
| Scheduling.StartingATurnRespectsTheCeiling | src/runtime/channel-actor.ts:287-289 | if every turn in flight holds an unreleased permit of its own, a step that grants a permit leaves at most the current limit in flight |
| Fleet.MoveKeepsLinked | src/runtime/channel-actor.ts:287-289 | for any number of channels on one semaphore: every actor step, request and resize keeps each running turn, and each start that hangs, on a granted, unreleased permit that no other channel holds |
| Fleet.NoGrantExceedsTheLimit | src/runtime/channel-actor.ts:287-289 | a step of the fleet that grants a permit leaves at most the current limit of turns in flight |
| Fleet.RunsRespectTheLimit | src/runtime/scheduler.ts:35-81 | over every run of new actors on a new semaphore both hold at every point |
| Scheduling.Semaphore.Release | src/runtime/scheduler.ts:63-81 | the first run returns the permit or hands it on, later runs do nothing |
| Scheduling.Semaphore.SetPermits | src/runtime/scheduler.ts:35-52 | refused below one; otherwise the limit moves and waiters are served |
| OutboxModel.DueIsEveryCandidateOnce | src/state/outbox-repository.ts:67-82 | the due query lists every unacknowledged row that is not backing off, once |
| OutboxProofs.SigningKeepsCoherenceExactlyWhen | src/state/outbox-repository.ts:187-205 | signing keeps row and intent states matched if and only if the row is absent or still owed |
| OutboxProofs.DeadLetteringKeepsCoherenceExactlyWhen | src/state/outbox-repository.ts:218-223 | dead-lettering keeps them matched if and only if an intent's row exists and is not published |
| OutboxProofs.StepKeeps | src/runtime/output-router.ts:128-181 | recording, signing, draining, answering, crashing at any point and recovering all keep the outbox invariant |
| OutboxProofs.EveryRunIsFaithful | src/nostr/publisher.ts:117-165 | over every interleaving: one stored event per logical id, every send carries it, nothing is sent after it was acknowledged, row and intent states stay matched |
| OutboxProofs.SendsAgree | src/state/outbox-repository.ts:187-205 | any two sends of one logical id carry the same bytes, whatever the signer would produce the second time |
| OutboxProofs.NoRunSendsTwoVersions | src/nostr/publisher.ts:117-165 | in every run the relay sees one version of an output, the stored one, and never again once it acknowledged it |
| OutboxProofs.RecoveryNeverDeadLetters | src/state/recovery.ts:86-99 | with the publisher's own limit at or below recovery's budget, recovery never gives a row up |
| OutboxProofs.RetryDelayGrows | src/nostr/publisher.ts:167-170 | retry delays never shrink and stay within the maximum |
| LogicalIds.SplitUndoesPrintExactlyWhen | src/nostr/publisher.ts:30-37 | turn and chunk are read back from the printed id if and only if the turn id is non-empty and has no colon |
| PublishOrder.GroupingIsSorting | src/nostr/publisher.ts:47-61 | the map of sorted groups, listed in insertion order, is the stable sort by first-seen turn, then suffix |
| PublishOrder.ATurnIsPublishedTogether | src/nostr/publisher.ts:47-61 | between two rows of a turn come only rows of that turn, by suffix and then by query position |
| PublishOrder.GroupByTurn | src/nostr/publisher.ts:48-55 | the groups are each turn's rows in order and the keys the turns as first seen |
| PublishOrder.OrderForPublish | src/nostr/publisher.ts:47-61 | the answer is a permutation of the rows, in publish order |
| Publishers.ATurnIsPublishedInOrder | src/nostr/publisher.ts:117-165 | a turn's attempts are a prefix of its rows as the drain lists them, only the last can have failed, and a drain that was not stopped tries them all unless one failed; TurnOrder says what order the list has |
| TurnOrder.ATurnGoesOutByChunkThenOrdinal | src/nostr/publisher.ts:30-61 | a drain lists a turn's rows by chunk number, within one by ordinal, each once |
| TurnOrder.ATurnGoesOutInOrdinalOrderExactlyWhen | src/nostr/publisher.ts:4-8 | for every store, time and turn: the drain's list has the turn's rows in ordinal order if and only if no two due rows of it have the chunk number fall while the ordinal rises |
| TurnOrder.ADrainKeepsOrdinalOrderExactlyWhen | src/nostr/publisher.ts:117-165 | under the same condition and no other are the turn's attempts in ordinal order whatever the relay answers |
| MessageOrder.MessagesGoOutInOrderExactlyWhen | src/runtime/output-router.ts:128-181 | for any messages a turn records, however they are cut: once all are due they go out in the order they were recorded if and only if nothing follows a message of two chunks or more |
| MessageRuns.AMessageCanGoOutBetweenChunks | src/nostr/publisher.ts:47-61 | for any turn and any two messages, the first of two chunks: a run from the empty store whose drain sends chunk, other message, chunk |
| Publishers.ADrainIsARun | src/nostr/publisher.ts:117-165 | the effect of a drain on the store is a run of the outbox system, so its invariant covers drains |
| Publishers.OutboxPublisher.DrainOnce | src/nostr/publisher.ts:117-165 | attempts, store and count of one drain, with failing turns skipped |
| Overtaking.ARowIsAttemptedExactlyWhen | src/nostr/publisher.ts:117-165 | a drain attempts a row if and only if the rows before it left a reply over and the relay refused no row of its turn among them |
| Overtaking.ADrainOvertakesExactlyWhen | src/nostr/publisher.ts:117-165 | a drain attempts a row of a turn and leaves out an owed one that is to go before it, if and only if one that backs off is to go before one that is due, a reply is left when the drain comes to the latter, and no row of the turn was refused before |
| Overtaking.ADrainCanOvertakeExactlyWhen | src/state/outbox-repository.ts:67-82 | some answers of the relay make that happen if and only if a backing-off row of the turn is to go before a due one |
| Overtaking.ALaterRowCanBePublishedFirst | src/nostr/publisher.ts:117-165 | for any turn and message, a run in which the second chunk is acknowledged while the first, refused once, is still owed |
| MessageSplit.ChunksFitAndTile | src/runtime/output-router.ts:46-75 | chunks are non-empty, fit the limit, and are disjoint in-order pieces of the text with nothing but white space between them |
| MessageSplit.NoProgressExactlyWhen | src/runtime/output-router.ts:49-66 | the loop stands still if and only if the next code unit does not fit; three bytes always suffice |
| MessageSplit.TheLoopEndsExactlyWhen | src/runtime/output-router.ts:46-75 | the loop ends if and only if the text fits, or its first unit and every unit that is not white space fit the limit |
| MessageSplit.ACutTearsAPairExactlyWhen | src/runtime/output-router.ts:53-59 | a hard cut falls inside a surrogate pair if and only if the pair starts three bytes before the limit |
| MessageSplit.AChunkEndTearsAPairExactlyWhen | src/runtime/output-router.ts:52-64 | the next chunk ends inside a pair if and only if, besides that, there is no boundary to end at |
| MessageSplit.SplittingTearsACharacterExactlyWhen | src/runtime/output-router.ts:46-75 | for every text and every limit with which the loop ends: some chunk boundary parts a pair if and only if some piece along the way meets that condition |
| MessageSplit.ABoundaryTearsNothing | src/runtime/output-router.ts:56-64 | a cut at a paragraph, line or word parts no pair |
| MessageSplit.SplittingCanTearACharacter | src/runtime/output-router.ts:46-75 | a text that is torn |
| MessageSplit.FindCut | src/runtime/output-router.ts:52-64 | the loop finds the longest prefix that fits, moved back to a boundary in its second half |
| MessageSplit.SplitMessage | src/runtime/output-router.ts:46-75 | whenever the loop ends at all, its chunks are the ones the theorems are about |
| MessageSplit.BodiesFit | src/runtime/output-router.ts:188-202 | every body fits, a truncated one up to its 13-byte marker |
| OutputRouters.RecordingAgainChangesNothing | src/runtime/output-router.ts:128-181 | recording a message again, after a crash or not, stores and signs nothing |
| OutputRouters.OutputRouter.RecordChunk | src/runtime/output-router.ts:135-174 | one chunk's intent, signature and state, nothing at all when it is known |
| OutputRouters.OutputRouter.Record | src/runtime/output-router.ts:128-181 | every body of the message is recorded under its own id, a blank message not at all, and the answer counts the new ones |
| RecoveryProofs.AnsweredExactlyWhen | src/state/recovery.ts:205-208 | an input counts as answered if and only if it was delivered and some output of its turn was recorded strictly later |
| RecoveryProofs.RequeueIsExact | src/state/recovery.ts:155-203 | the replay list names an input if and only if it is unsettled and not answered |
| RecoveryProofs.NoInputReplaysTwice | src/state/recovery.ts:155-168 | and names it once |
| RecoveryProofs.RowOrderDoesNotMatter | src/state/recovery.ts:210-218 | a channel's replay is the same for every order its rows come in |
| RecoveryProofs.ATurnReplaysTogether | src/state/recovery.ts:195-218 | inputs of a turn whose row exists are contiguous, ordinals ascending |
| RecoveryProofs.ATurnReplaysInStrictOrder | src/state/migrations.ts:80-91 | with the unique index, strictly ascending |
| RecoveryReruns.ApplyingAPlan | src/state/recovery.ts:118-134 | applying a plan interrupts every live turn, queues every input still owed an answer with its turn link in place, gives up every spent row, and touches nothing else |
| RecoveryReruns.PlanHolds | src/state/recovery.ts:86-99 | an owed row is resent or deferred by its attempts and its backoff alone |
| RecoveryReruns.SameAnswers | src/state/recovery.ts:179-208 | what recovery writes does not change which inputs count as answered |
| RecoveryReruns.RecoveryIsIdempotent | src/state/recovery.ts:76-134 | planning again after applying, at any time: no interrupts, no dead letters, the same replay and sign lists, the same rows owed, and at the same time each with the same fate |
| RecoveryReruns.RecoveringTwiceIsRecoveringOnce | src/state/recovery.ts:111-134 | a second recovery leaves the store as it is, so a crash in or after recovery is harmless |
| RecoveryReruns.NoRowIsEverSpent | src/state/recovery.ts:86-93 | on every store the outbox system can reach under its limits, the dead-letter list is empty |
| RecoveryReruns.NoDefaultRunSpendsARow | src/state/recovery.ts:86-93 | with the program's own limits, at every point of every run from an empty store |
| Recoveries.TurnLookup.ConsiderReplay | src/state/recovery.ts:179-203 | the candidate, or none, that the rows determine, through the memo |
| Recoveries.PlanRequeue | src/state/recovery.ts:155-168 | the loops build the replay list the theorems are about |
| Recoveries.PlanRecovery | src/state/recovery.ts:76-109 | the loops build the plan the theorems are about |
| Recoveries.ApplyRecovery | src/state/recovery.ts:118-134 | the three loops leave the store the theorems are about |
| CrashReplay.ACrashKeepsEveryDebt | src/state/recovery.ts:170-203 | for every state an actor can be in between two messages when the process dies: what waited or was given up is replayed, what the active turn took is replayed unless answered, what a settled turn took is not |
| CrashReplay.ACrashInsideAHandlerKeepsEveryDebt | src/runtime/channel-actor.ts:400-463 | the same for every store committed while a message is being handled, the event in hand included: after a turn's rows are written, while a steer is with Pi, after a turn is closed and before the next is launched |
| CrashReplay.NoCrashLosesADebt | src/state/recovery.ts:170-203 | over every run from a new actor and every store it commits: what waits, is in hand or was given up is replayed by the next start |
| ActorDebts.RunsKeepDebts | src/runtime/channel-actor.ts:255-463 | over every run the row of an event that was given up stays unsettled and undelivered, whatever happens later |
| CrashReplay.AnInterruptedTurnReplaysInOrder | src/state/recovery.ts:195-202 | the interrupted turn's inputs come back together, in the order the turn accepted them |
| Restarts.ARestartedRunIsAFreshRun | src/runtime/channel-actor.ts:120-158 | over any store an earlier process left, a run ends where some run over an empty store ends, with the old rows unchanged beside it |
| Restarts.ARestartKeepsEveryEvent | src/runtime/channel-actor.ts:184-463 | in such a run an event of the old store is in no part of the actor and its row does not change; every other admitted event is in exactly one place, with the row that goes with it |
| Restarts.ACrashLeavesAStoreToRestartFrom | src/state/recovery.ts:111-134 | the store such a run leaves when the process dies, between messages or inside a handler, and the one recovery makes of it, are again stores of that kind |
| ByteSplit.SplitIsExact | src/telemetry/buzz-desktop-compat.ts:391-411 | parts join up to the text, fit, are non-empty unless the text is, part no character, and no other such split is shorter |
| ByteSplit.GreedyIsFewest | src/telemetry/buzz-desktop-compat.ts:399-408 | the greedy loop's part count is the minimum |
| ByteSplit.JsonBounds | src/telemetry/buzz-desktop-compat.ts:423-425 | JSON escaping never shrinks text and at most sextuples it |
| ByteSplit.PieceEscapes | src/telemetry/buzz-desktop-compat.ts:429-430 | a part's escapes cost no more than the whole text's, which is why the overhead may be measured once |
| ByteSplit.SplitByUtf8Bytes | src/telemetry/buzz-desktop-compat.ts:391-411 | refused below four bytes; otherwise the accumulating loop produces the greedy split |
| FrameSplit.ChunkSplitsLosslessly | src/telemetry/buzz-desktop-compat.ts:427-433 | a text chunk splits into chunks of the same message whose texts join up to its own |
| FrameSplit.ChunkPartsFit | src/telemetry/buzz-desktop-compat.ts:427-433 | each encodes within the budget, or within 24 bytes of the empty frame |
| FrameSplit.ToolSplitsLosslessly | src/telemetry/buzz-desktop-compat.ts:435-448 | a tool result splits into labelled frames 1/n to n/n whose contents join up to its own |
| FrameSplit.ToolPartSize | src/telemetry/buzz-desktop-compat.ts:440-447 | the exact encoded size of a labelled part |
| FrameSplit.PlainPartsFitExactlyWhen | src/telemetry/buzz-desktop-compat.ts:435-448 | for results without escapes: every part encodes within the budget if and only if the content is no longer than ten thousand times the room left by the reserve, less two |
| FrameSplit.AToolResultCanOverflow | src/telemetry/buzz-desktop-compat.ts:435-448 | a result and a budget with a part that exceeds it |
| FrameSplit.ToolPartsFit | src/telemetry/buzz-desktop-compat.ts:435-448 | the size bound for any number of parts |
| FrameSplit.ToolPartsFitTheBudget | src/telemetry/buzz-desktop-compat.ts:435-448 | up to 9999 parts: the budget, or 88 bytes over the empty frame |
| TelemetryProofs.StepKeeps | src/telemetry/telemetry-buffer.ts:97-264 | every public call and timer keeps accounts, pace, order and liveness |
| TelemetryProofs.RunsAreValid | src/telemetry/telemetry-buffer.ts:97-264 | so they hold at every point of every run |
| TelemetryTheorems.NothingIsLostOrReordered | src/telemetry/telemetry-buffer.ts:97-203 | in a run that shed nothing, turn by turn, what is emitted, queued and open is what was pushed, unit by unit and in push order, with at most one open text per turn |
| TelemetryTheorems.EveryFrameIsAccountedFor | src/telemetry/telemetry-buffer.ts:193-264 | frames split off, and the overflow reports among the frames, are emitted, queued or shed; shed frames are told of in a report or still counted; the queue is bounded; a timer runs whenever something is queued, unreported or awaited |
| TelemetryTheorems.ThePaceIsBounded | src/telemetry/telemetry-buffer.ts:205-236 | no rate window carries more than the limit, no second more than twice that |
| TelemetryTheorems.ATerminalToolStaysTerminal | src/telemetry/telemetry-buffer.ts:174-191 | until its turn is forgotten, a tool call shown as ended is never shown as running again |
| TelemetryBuffers.TelemetryBuffer.FlushTurn | src/telemetry/telemetry-buffer.ts:168-172 | every open text of the turn is released |
| TelemetryBuffers.TelemetryBuffer.Enqueue | src/telemetry/telemetry-buffer.ts:193-203 | every split payload is queued or counted as shed, then the queue is pumped |
| TelemetryBuffers.TelemetryBuffer.Drain | src/telemetry/telemetry-buffer.ts:211-215 | the loop sends from the head until the window is full or the queue empty |
| TelemetryBuffers.TelemetryBuffer.Pump | src/telemetry/telemetry-buffer.ts:205-228 | window, drain, report, timer or waiters, and it terminates |
| ReconcileProofs.OneCallIsSafe | src/backend/reconcile.ts:324-408 | in every world: one spawn at most, termination only straight after reading the record and a log not online, kill only after the grace or at the deadline, hands off its own instance, success only when seen alive and online, noop only without any change; an unconfirmed startup is still recorded, untouched or as this call made it |
| ReconcileProofs.ASlowStartIsOnlyWatched | src/backend/reconcile.ts:396-407 | an instance with this intent that lives and logs nothing fatal is never changed, however slow |
| ReconcileProofs.KillingIsGood | src/backend/reconcile.ts:233-253 | the two signals come in the required order and distance |
| ReconcileProofs.AKillCanComeEarlyExactlyWhen | src/backend/reconcile.ts:233-253 | once the termination signal is out, some future of the world makes the kill signal come before the full grace if and only if the deadline falls inside the grace |
| ReconcileProofs.AShortTimeoutKillsEarly | src/backend/reconcile.ts:324-408 | a world in which a call with a startup timeout below the grace kills early and then refuses |
| ReconcileProofs.AnyTimeoutCanKillEarly | src/backend/reconcile.ts:324-408 | for every timeout, a world in which the kill signal follows the termination signal at once and the call refuses |
| ReconcileProofs.TerminateIsGood | src/backend/reconcile.ts:221-258 | terminating keeps the whole record of acts good, and declining changes nothing |
| ReconcileProofs.CreateIsGood | src/backend/reconcile.ts:267-316 | so does creating, failures included |
| ReconcileProofs.AFailedCreateOrphansExactlyWhen | src/backend/reconcile.ts:294-315 | a failed create leaves no record, and a process without one if and only if writing the pid failed |
| ReconcileModel.TerminateKeeps | src/backend/reconcile.ts:221-258 | terminate leaves the record alone, and declines a record it was given only once the log says online |
| Deploys.Poll | src/backend/reconcile.ts:239-253 | the polling loop, which ends because sleeping moves the clock |
| Deploys.Terminate | src/backend/reconcile.ts:221-258 | fence, signal, grace, kill, as the model has it |
| Deploys.Create | src/backend/reconcile.ts:267-316 | claim, provision, rotate, spawn, write, or clear its own half-made attempt |
| Deploys.Judge | src/backend/reconcile.ts:353-407 | one classification of a found record |
| Deploys.StartInstance | src/backend/reconcile.ts:324-408 | the loop, which ends in every world |
| Subscriptions.RememberedIsTheNewest | src/nostr/subscriptions.ts:33-57 | what is remembered is a suffix of the admitted ids, between one generation and less than two long |
| Subscriptions.NoHandlerSeesARememberedId | src/nostr/subscriptions.ts:153-165 | across all subscriptions, two handler calls with one id are more than a generation apart |
| Subscriptions.TheFloorIsExact | src/nostr/subscriptions.ts:84-100 | the next request reaches back to the newest delivery less the skew and to every open drop, and no further |
| Subscriptions.EveryDropIsAskedForAgain | src/nostr/subscriptions.ts:84-105 | at every point of a run the next request covers every event that failed since the last completed replay |
| Subscriptions.ADroppedEventComesBackExactlyWhen | src/nostr/subscriptions.ts:153-165 | a failed event is handed over again if and only if its id was forgotten, which takes more than a generation of others |
| RelaySubscriptions.SeenEventIds.Admit | src/nostr/subscriptions.ts:40-48 | admits an unknown id once and rotates the generations |
| RelaySubscriptions.SubscriptionRegistry.Deliver | src/nostr/subscriptions.ts:153-165 | no record or a known id changes nothing; otherwise the id is remembered before the handler runs and a throw is noted as a drop |
| Usage.ParseUndoesPrintExactlyWhen | src/telemetry/usage-tracker.ts:77-102 | a stored baseline reads back as itself if and only if no counter is negative, and otherwise not at all |
| Usage.ParseCounters | src/telemetry/usage-tracker.ts:77-102 | the loop over the six fields |
| Usage.UsageTracker.Settle | src/telemetry/usage-tracker.ts:157-187 | the metric of the turn and the advanced baseline, or nothing for a turn without samples |
| UsageProofs.TheDeltaIsReliableExactlyWhen | src/telemetry/usage-tracker.ts:68-74 | figures are published if and only if no known primary counter came out negative |
| UsageProofs.TheDeltaIsTheTurnExactlyWhen | src/telemetry/usage-types.ts:66-81 | the figures amount to the turn's samples, and are them if and only if the turn reported every counter the session knew |
| UsageProofs.TheSeriesAddsUp | src/telemetry/usage-tracker.ts:139-209 | over every run of non-negative usage with restarts: figures add up to the cumulative ones, which never fall, numbered without gaps, all reliable |
| UsageProofs.AnUnreadableBaselineIsMarkedUntilARestart | src/telemetry/usage-tracker.ts:189-209 | over every run of non-negative usage from a baseline that cannot be read: a metric of the session is marked reliable if and only if the process restarted between the session's first metric and it |
| UsageProofs.AnUnreadableBaselineIsForgottenByARestart | src/telemetry/usage-tracker.ts:189-209 | the instance: one metric, a restart, one more |

## Left out

* Relay sockets, authentication, HTTP, cryptography, the agent SDK, prompt formatting, history
  fetching, keyring, Kubernetes and configuration parsing: I/O or shallow logic. The relay's
  answer, the signed event, the session's behaviour and the clock are adversarial inputs.
* The application's wiring of the recovery plan: it does not hand the replay and sign lists
  back to the actors, so "every message is answered" is not a property of the program.
* In the actor: watermarks, history seeding, idle watching, and the telemetry, usage and output
  calls its handlers make; each handler is one atomic step, so what is posted while a handler waits
  comes before or after it; the stores a handler commits on the way are modelled for crashes.
* Timer lengths in the telemetry buffer: a running timer may fire at any time. The frame
  callback does not call back into the buffer, and the clock does not move within one call.
* Ids that contain the separators `|` or `:` where the program joins ids into one text key, and
  the empty turn id where it stands in for a missing one: keys are tuples here. Logical ids are
  printed and split as text.
* Text comparison is by Dafny characters where SQLite compares bytes and JavaScript code units;
  the three differ only outside the basic plane.
* `Number()` on a logical-id suffix that is not a run of digits is taken as no number.
* Encoded sizes of fields the splitter does not look at are given as byte counts.
* Two deploys at once, directory creation, a record of foreign ownership, a command that cannot
  be resolved, and pid signatures: one caller, whose process answers a probe or does not.
* Floating point: counters and costs are reals, so sums are exact.
- ReconcileProofs.OneCallIsSafe: says nothing about concurrent deploys, since a claim without a pid reads as terminated to a second one.
- TelemetryTheorems.NothingIsLostOrReordered: speaks of runs that shed nothing; when frames are shed the accounts theorem says how many, not which.
- MessageSplit.SplitMessage: promises chunks only where the source's loop ends, which `TheLoopEndsExactlyWhen` decides; elsewhere the source does not return. OutputRouter.Record likewise.
- Fleet.RunsRespectTheLimit: bounds the turns in flight when a permit is granted; lowering the limit does not stop turns already in flight.
- FrameSplit.PlainPartsFitExactlyWhen: is exact for content without JSON escapes that was not split before; with escapes `ToolPartsFit` gives the bound.
- Scheduling.StartingATurnRespectsTheCeiling: takes it that turns hold permits of their own, which `Fleet.MoveKeepsLinked` derives from the actors.
- Restarts.ARestartedRunIsAFreshRun: takes it that every turn named by an old row has its own row, which `ACrashLeavesAStoreToRestartFrom` carries from one process to the next.
- RecoveryProofs.ATurnReplaysTogether: needs the turn's row to exist and its id not to be an event id, since the inbox has no foreign key to turns.
- UsageProofs.TheSeriesAddsUp: needs non-negative usage, since a negative baseline does not read back.
