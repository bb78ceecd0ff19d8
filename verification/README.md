# Verified model of the loac actor runtime

loac is a local actor runtime: one task per actor polls handler futures, dispatches
mailbox messages, owns child actors, and moves through a lifecycle that ends in one
published exit status. This project models its three concurrent protocols in Dafny and
proves what they keep over every run.

* **The reply scheduler.** `WakeMachine` lists the atomic steps of the actor task and
  of the waker threads (swap a flag, push a key, wake the task) over the shared flags,
  ready queue, task registrations and lease slot. `WakeTheorems` holds the results over
  every interleaving. `ReplyQueue` is the queue as a class: each method takes one atomic
  step at a time, lets other threads run in between, and records its steps, so that each
  execution is a run of the machine. `MailboxRuntime` is the actor turn over its
  three lanes; `Fairness` bounds what its rotations may starve.
* **The lifecycle gate and the message protocol.** `Lifecycle` is the pure gate and
  what the history of its transactions determines; `Control` is the gate object; `Hint`
  is the private wake-up hint, step by step. `Ledger` is the step system of one actor:
  admission, dispatch, discard, completion, failure, child exits, cleanup hooks and
  publication, each with its transaction (`Enabled`) and with what the actor task
  promises about it (`Allowed`). `LedgerTheorems` proves the guarantees of every legal
  log. `ActorTask` is the code (the main loop, the guarded awaits, stop, drain, kill,
  failure, discard, task completion and task drop, and the senders), which is proved to
  extend legal logs only, with other threads running between its atomic steps (and, between
  the steps of a sender, the actor task as well).
* **Supervision.** `Children` is the child set of one actor over real child gates.
  `Supervision` is the forest of all actors, growing without bound, with the whole-tree
  results.

User code is an oracle: a poll may be pending, finish, panic, take or release the
lease, wake anything, spawn children, or request shutdowns. Calls of user code and its
panics are events of the log, so the theorems speak of them. Messages are numbered in the order of their admission.

## Where the code does less than its documentation

Each case is a lemma with a concrete run, next to the exact condition under which the
code does meet the property.

* A leased reply whose future finishes in the poll during which a shutdown commits stays
  in the slot map (`queue.rs:126-135`): `LeasedRepliesCanStrand`. Nothing but its own
  waker or clearing the queue reaches it again (`StrandedForever`), so a graceful
  shutdown that waits for an idle scheduler waits until Kill. The condition is exact: when
  a leased poll whose future finished returns, the reply is still in the map if and only if
  the mode read after the poll differs from the mode the poll was asked to serve
  (`LeasedPollKeepsExactlyUnderAnotherMode`), and no other finished reply ever stays
  (`FinishedStaysExactlyAfterAMismatch`); `PollLeased` proves it of the code. The drain
  without a lease has no such gap (`PollReady`).
* Kill is documented to skip `on_stop`, but the guarded select polls the hint and then the
  work without a lock between them (`task.rs:303-307`), so `on_stop` can still be entered
  after Kill committed: `StopHookCanEnterAfterKill`. It happens if and only if Kill or a
  failure commits between the last poll of the hint and the entry
  (`StopHookEntersHardExactlyByARace`); once the actor has read a hard mode it cannot
  (`HardModesSkipCleanup`).
* Kill is likewise documented never to call `on_shutdown` (`actor.rs:122`), but the loop
  reads the mode and then calls the hook (`actor_loop.rs:59-66`), so a Kill that commits in
  between is not seen: `ShutdownHookCanEnterAfterKill`. It happens if and only if Kill or a
  failure commits between that read and the entry (`ShutdownHookEntersHardExactlyByARace`).
* A notification is two steps, and the task waker of a reply is registered only when
  that reply is polled (`wake.rs:76-79`, `scheduling.rs:82-86`). A waker paused before
  its second step can spend a fresh registration, and the next wake finds none:
  `WakesCanBeLost`. `AttentionIsLostExactlyByHollowSteps` names the guilty steps,
  `HollowFreeRunsAreAttentive` and `AttentiveParkingLosesNoWake` show that nothing else
  loses a wake, and `CoarseRunsAreAttentive` that uninterrupted notifications never do.

## Model

Paths are relative to the repository root.

| member | source | states |
|---|---|---|
| Lifecycle.RequestedMeansMoved | crates/loac/src/mailbox/control.rs:165-179 | a shutdown request reports `Requested` exactly when it moved the gate, and `Exited` exactly when a status is published |
| Lifecycle.GateClimbs | crates/loac/src/mailbox/control.rs:161-224 | every lifecycle transaction keeps the mode or strictly raises its rank |
| Lifecycle.HistoryDeterminesMode | crates/loac/src/mailbox/control.rs:165-205 | the mode equals a closed form of the history: any abort, else the first hard operation, else the first graceful request |
| Lifecycle.PublicationIsDeterminedOnce | crates/loac/src/mailbox/control.rs:207-224 | the first publication fixes the status, which its history determines, and nothing later changes it |
| Lifecycle.PanicBeforeKillPublishesPanicked | crates/loac/src/mailbox/control.rs:212-224 | a kill-path teardown of an actor that panicked first publishes `Panicked` with the proposed subtree |
| Gatekeeping.Control.Transact | crates/loac/src/mailbox/control.rs:298-326 | one transaction commits the next mode and stores the hint exactly when the mode changed |
| Gatekeeping.Control.Request | crates/loac/src/mailbox/control.rs:165-179 | what each answer means: `Requested` iff the gate moved, the status iff exited, and otherwise the shutdown that had won |
| Gatekeeping.Control.Finish | crates/loac/src/mailbox/control.rs:212-224 | one terminal mode; the winning status is the one history determines |
| Hint.SleepersHaveReadTheMode | crates/loac/src/runtime/actor_loop.rs:288-294 | in every interleaving a sleeping actor has read the committed mode, unless the requester that changed it still holds the lock, and then its notification wakes the actor |
| Hint.ChangesStayNoticed | crates/loac/src/mailbox/control.rs:302-312 | an unread change stays stored, assigned or received until the actor reads the mode |
| Hint.NotificationsSurviveTheSelect | crates/loac/src/runtime/task.rs:295-308 | a notification assigned to a waiter that loses the select is received by the next wait |
| WakeTheorems.QueueCoversReadySet | crates/loac/src/scheduling/queue.rs:142-193 | refinement of the ready set: a ready live reply is queued, or its waker has not pushed yet |
| WakeTheorems.WakesAreConserved | crates/loac/src/scheduling/wake.rs:66-91 | per reply, ready episodes equal polls plus what is still pending, under every interleaving |
| WakeTheorems.KeysNeverReturn | crates/loac/src/scheduling/queue.rs:60-75 | no key is issued twice, however often a slot is reused |
| WakeTheorems.DeliveriesAreConserved | crates/loac/src/mailbox.rs:185-216 | in every run each message taken from the inbox got exactly one key, was declined, or is the one in hand |
| WakeTheorems.KeysNeedDeliveries | crates/loac/src/reply.rs:68-72 | between any two points of a run no more keys are issued than messages are taken |
| WakeTheorems.ForeignWakesAreInert | crates/loac/src/scheduling/wake.rs:75-87 | a waker of one key changes no flag, registration, membership or queue entry of any other key |
| WakeTheorems.LeaseIsExclusive | crates/loac/src/scheduling/queue.rs:97-140 | from acquiring the lease until a step frees it, no other reply is polled, no key drained, no envelope dispatched, no child event taken |
| WakeTheorems.LeaseNeedsAcquire | crates/loac/src/scheduling/wake.rs:132-145 | a free lease is held again only after a step that acquired it |
| WakeTheorems.AttentionIsLostExactlyByHollowSteps | crates/loac/src/scheduling/wake.rs:76-95 | the scheduler can miss the next wake after a step if and only if that step is hollow |
| WakeTheorems.HollowFreeRunsAreAttentive | crates/loac/src/scheduling/wake.rs:76-95 | runs without hollow steps never miss a wake |
| WakeTheorems.NotifyIsTheThreeSteps | crates/loac/src/scheduling/wake.rs:69-87 | one uninterrupted notification equals its atomic steps in a row |
| WakeTheorems.CoarseRunsAreAttentive | crates/loac/src/scheduling/wake.rs:75-79 | with whole notifications no step is hollow, in any run |
| WakeTheorems.AttentiveParkingLosesNoWake | crates/loac/src/scheduling.rs:81-86 | a parked attentive task is woken for every ready reply, under every interleaving of the wakers' atomic steps |
| WakeTheorems.ParkedHearsExactlyWhenAttentive | crates/loac/src/scheduling.rs:81-86 | a parked task hears every next wake if and only if it is attentive |
| WakeTheorems.WakesCanBeLost | crates/loac/src/scheduling/wake.rs:75-79 | a concrete run in which the task sleeps over a ready reply with no waker in flight |
| WakeTheorems.LeasedRepliesCanStrand | crates/loac/src/scheduling/queue.rs:126-135 | the concrete run: a holder polled under `Running` finishes while Stop commits, and stays in the map |
| WakeTheorems.LeasedPollKeepsExactlyUnderAnotherMode | crates/loac/src/scheduling/queue.rs:126-135 | a leased poll that finishes reads the mode once, and on its return the holder is still in the map if and only if that mode is not the one it was asked to serve |
| WakeTheorems.FinishedStaysExactlyAfterAMismatch | crates/loac/src/scheduling/queue.rs:126-135 | over whole runs: with nothing in hand, a live reply has finished if and only if a leased poll of it read another mode than the one it was asked to serve |
| WakeTheorems.ForgettingNeedsAModeChange | crates/loac/src/scheduling/queue.rs:129-131 | such a return happens only when the mode read after the poll is not the one the poll was asked to serve |
| WakeTheorems.CompletingNeedsTheMode | crates/loac/src/scheduling/queue.rs:129-135 | a leased poll completes its holder only in the mode it was asked to serve |
| WakeTheorems.StrandedForever | crates/loac/src/runtime/shutdown.rs:116-148 | a stranded reply keeps the scheduler from ever being idle, short of its own wake or a clear |
| ReplyQueue.Queue.NotifyOnce | crates/loac/src/scheduling/wake.rs:75-79 | the effect of one whole notification on flags, queue, registration and task |
| ReplyQueue.Queue.TakeReady | crates/loac/src/scheduling/wake.rs:89-91 | clears the flag and reports whether it was set |
| ReplyQueue.Queue.ForceReleaseMissing | crates/loac/src/scheduling/queue.rs:118-121 | a holder that left the map loses the lease |
| ReplyQueue.Queue.PollFuture | crates/loac/src/scheduling.rs:81-86 | registers the task, then exactly one poll, with any use of the lease by its own reply only |
| ReplyQueue.Queue.Complete | crates/loac/src/scheduling/queue.rs:195-206 | the finished reply leaves the map and never keeps the lease |
| ReplyQueue.Queue.DrainOnce | crates/loac/src/scheduling/queue.rs:155-178 | one iteration: what a stale key, a waiting, finished, leased or panicking reply does to map, lease and measure |
| ReplyQueue.Queue.PollReady | crates/loac/src/scheduling/queue.rs:142-193 | at most 16 polls, termination against pushing wakers, finished replies gone, `Pending` only over an empty ready set apart from pushes in flight; a drain that is not cut off makes 16 polls or handles every key it found queued; one whose mode had been left already polls nothing and reports progress; a panic is reported if and only if a poll unwound |
| ReplyQueue.Queue.PollLeased | crates/loac/src/scheduling/queue.rs:109-140 | only the holder is polled and no key is popped; a woken holder is polled once, and progress means that it finished, let go, or lost against a mode change; a finished holder is gone whenever the mode on return is the expected one, was removed only after that mode was read, and stays only after another was read |
| ReplyQueue.Queue.Poll | crates/loac/src/scheduling/queue.rs:97-107 | leased and free drains combined, each with its lower bound on polls: a reply that finished is out of the map, save when a leased poll read another mode; what each result guarantees |
| ReplyQueue.Queue.Schedule | crates/loac/src/scheduling/queue.rs:60-75 | the key is new, the stored reply is ready, a panicking builder stores nothing |
| ReplyQueue.Queue.Clear | crates/loac/src/scheduling/queue.rs:208-213 | every reply is gone and the lease is free, whoever held it |
| MailboxRuntime.Runtime.PollRecv | crates/loac/src/transport.rs:18-24 | FIFO receive into the hand of the actor, one delivery of the run; closure iff closed, empty and without reservations; pending registers the task |
| MailboxRuntime.Runtime.Dispatch | crates/loac/src/mailbox.rs:185-216 | the message in hand is refused only if abandoned or past the cutoff, and otherwise gets exactly one key; a stored reply is one more in the map, which never exceeds the in-flight limit (`Valid`) |
| MailboxRuntime.Runtime.VisitMailbox | crates/loac/src/scheduling/runtime.rs:238-269 | exactly `dispatched` messages were taken, within the budget, with at most as many keys issued; the batch goes on until its budget, its capacity or the inbox ends it; selecting nothing means no message, no free slot (the lease or the in-flight limit), or a wake; after a mode change at most one message is taken |
| MailboxRuntime.Runtime.Accounted | crates/loac/src/scheduling/runtime.rs:238-269 | the messages a run took are the oldest admitted ones, in order, as many as its visits dispatched, and no message got two keys |
| Fairness.TakenIsSum | crates/loac/src/scheduling/runtime.rs:243-248 | in every run the visits account for all messages taken |
| MailboxRuntime.Runtime.VisitReply | crates/loac/src/scheduling/runtime.rs:270-284 | selecting nothing leaves only replies the task has heard of; progress means that a reply left the map or the mode changed; a visit that is not cut off makes 16 polls or handles every queued key; a lease or an exhausted budget ends the turn |
| MailboxRuntime.Runtime.VisitChild | crates/loac/src/scheduling/runtime.rs:309-317 | takes the oldest event, or registers for the next |
| MailboxRuntime.Runtime.VisitLane | crates/loac/src/scheduling/runtime.rs:237-287 | the run shows this visit with exactly its messages, each with at most one key; a child visit takes the oldest event or finds none |
| MailboxRuntime.Runtime.Rotate | crates/loac/src/scheduling/runtime.rs:231-301 | the recorded visits are those of the run; a full cycle without selection leaves all three lanes quiet; when a turn is cut off, only a mailbox visit that has dispatched gives up its lane |
| MailboxRuntime.Runtime.PollTurn | crates/loac/src/scheduling/runtime.rs:209-302 | quiescence: Pending, no lease and not woken means no child event, an empty inbox whenever messages may be received and the in-flight limit has room, and no ready reply apart from wakes in flight in every run without hollow steps (none at all with whole notifications); an undisturbed turn takes the oldest admitted messages in order; a turn whose mode had been left already does nothing |
| MailboxRuntime.Runtime.PollHeld | crates/loac/src/scheduling/runtime.rs:218-229 | with a lease held the turn is one poll of the holder, made whenever the holder was woken, and pops no key |
| MailboxRuntime.Runtime.Park | crates/loac/src/scheduling/runtime.rs:300-301 | in every run without hollow steps a parked task with the lease free was woken, or has no ready live reply apart from wakes in flight |
| MailboxRuntime.Runtime.Drive | crates/loac/src/scheduling/runtime.rs:209-302 | the visits and messages of the run are those of a rotation, which is fair to the children; the messages are the oldest admitted ones, in order, each with at most one key; a turn is disturbed only by a lease, a mode change or a panic that the run shows |
| Fairness.ThreeTurnsVisitEveryLane | crates/loac/src/scheduling/runtime.rs:231-301 | any three consecutive turns visit every lane |
| Fairness.DispatchBetweenChildPolls | crates/loac/src/scheduling/runtime.rs:238-301 | in a rotation at most 2B-1 messages are dispatched between two child-exit visits |
| Fairness.DeliveredIsSince | crates/loac/src/scheduling/runtime.rs:238-301 | the visits of any run tell its deliveries since the last child-exit visit |
| Fairness.RotationsAreFair | crates/loac/src/scheduling/runtime.rs:238-301 | a run whose visits are those of a rotation makes at most 2B-1 deliveries between two child-exit visits |
| Fairness.BoundIsTight | crates/loac/src/scheduling/runtime.rs:238-301 | the bound is attained by two consecutive turn records, for every budget |
| Fairness.SomeRunIsTight | crates/loac/src/scheduling/runtime.rs:238-301 | a legal run with the visits of those turns makes 2B-1 deliveries; that some execution of the runtime takes it is not stated |
| Ledger.StepKeepsInv | crates/loac/src/mailbox.rs:107-145 | every allowed event keeps order, answers, hints, cleanup and child bookkeeping |
| Ledger.LegalInv | crates/loac/src/mailbox.rs:107-145 | that invariant over every legal log |
| LedgerTheorems.AdmissionIsConserved | crates/loac/src/transport.rs:16-20 | at every point settled messages in order, then the one in hand, then the inbox are exactly the admitted ones in order; settlements are never rewritten |
| LedgerTheorems.NothingIsAdmittedAfterRunning | crates/loac/src/mailbox/control.rs:355-395 | no admission and no child hook after the actor left `Running` |
| LedgerTheorems.NothingIsDispatchedAfterCutoff | crates/loac/src/mailbox/control.rs:335-353 | no dispatch after Stop or any hard mode committed |
| LedgerTheorems.DrainedServedEverything | crates/loac/src/runtime/shutdown.rs:40-114 | a run published `Drained` turned away only abandoned calls |
| LedgerTheorems.OnlyAbandonedCallsAreSkipped | crates/loac/src/mailbox.rs:191-195 | a skipped envelope is a call whose receiver was dropped |
| LedgerTheorems.EveryAnswerIsDecidedOnce | crates/loac/src/mailbox.rs:185-216 | exactly one event decides each answer; `Ok` iff completion committed before a hard mode, `BeforeDispatch` iff dispatch never committed, `DuringDispatch` iff it did and completion did not in time |
| LedgerTheorems.DecisionsNameTheWinner | crates/loac/src/mailbox/control.rs:245-263 | the reported reason is that of the mode that won, although failing commits and rereads in two steps |
| LedgerTheorems.DecisionsAreUnique | crates/loac/src/mailbox.rs:429-448 | no message is decided by two events |
| LedgerTheorems.DispatchedMeansCommitted | crates/loac/src/mailbox/control.rs:340-353 | a message counts as dispatched if and only if its dispatch transaction committed |
| LedgerTheorems.AnswersStick | crates/loac/src/mailbox.rs:423-448 | a given answer is never replaced |
| LedgerTheorems.ExitedActorAnsweredEveryCall | crates/loac/src/mailbox.rs:459-473 | when the actor has exited, every admitted call has its answer |
| LedgerTheorems.StopHookIsPostOrder | crates/loac/src/runtime/shutdown.rs:151-184 | `on_stop` enters once, with an empty inbox, an idle scheduler, no retained child, every child ever spawned exited, after `on_shutdown`, under the graceful mode the actor last read; the gate has at most hardened since, with the hint stored |
| LedgerTheorems.ShutdownHookRunsOnce | crates/loac/src/runtime/actor_loop.rs:59-113 | `on_shutdown` is entered at most once |
| LedgerTheorems.HardModesSkipCleanup | crates/loac/src/runtime/task.rs:295-301 | once the actor has read a hard mode, neither cleanup hook is entered |
| LedgerTheorems.StopHookEntersHardExactlyByARace | crates/loac/src/runtime/task.rs:303-308 | `on_stop` enters under a hard mode if and only if Kill or a failure committed between the last poll of the hint and the entry |
| LedgerTheorems.StopHookCanEnterAfterKill | crates/loac/src/runtime/task.rs:303-308 | a concrete run in which `on_stop` is entered after Kill committed |
| LedgerTheorems.ShutdownHookEntersHardExactlyByARace | crates/loac/src/runtime/actor_loop.rs:59-113 | `on_shutdown` enters under a hard mode if and only if Kill or a failure committed between the last read of the mode and the entry |
| LedgerTheorems.ShutdownHookCanEnterAfterKill | crates/loac/src/runtime/actor_loop.rs:59-113 | the concrete run in which `on_shutdown` is entered after Kill committed |
| LedgerTheorems.NothingFollowsTheStopHook | crates/loac/src/runtime/shutdown.rs:176-184 | after `on_stop` no message, spawn, child hook or dispatch happens |
| LedgerTheorems.PanicsAreContainedFirst | crates/loac/src/mailbox/control.rs:264-280 | between a panic and the commit of a hard mode the actor does nothing but commit it |
| LedgerTheorems.PanicsNeverEndGracefully | crates/loac/src/runtime/actor_loop.rs:59-136 | after a panic of any user code neither cleanup hook is entered, and the published reason is `Panicked`, `Killed` or `Aborted` |
| LedgerTheorems.OnlyDestructorsRunAfterAPanic | crates/loac/src/mailbox/control.rs:264-280 | after the first panic no handler, hook or initialization runs |
| LedgerTheorems.EscapedPanicsAbort | crates/loac/src/runtime/task.rs:181-194 | a panic that leaves the main future is published as `Aborted`, `Unconfirmed` |
| LedgerTheorems.EndsGracefullyExactlyWhenUndisturbed | crates/loac/src/mailbox/control.rs:207-224 | an actor publishes `Stopped` or `Drained` if and only if no panic, no abort, no Kill and no foreign failure occurred in its run |
| LedgerTheorems.InitComesFirst | crates/loac/src/mailbox/control.rs:153-159 | initialization is entered once, under a cooperative mode, before every dispatch, spawn, child hook and cleanup hook |
| LedgerTheorems.ChildrenAreReapedOnce | crates/loac/src/supervision/runtime.rs:171-179 | each child is reaped at most once and its hook enters at most once, after its exit and only while running |
| LedgerTheorems.HooksFollowReaping | crates/loac/src/runtime/actor_loop.rs:233-247 | every entered child hook was preceded by reaping that child |
| LedgerTheorems.NoLifecycleChangeIsMissed | crates/loac/src/runtime/actor_loop.rs:288-294 | whenever the task parks on the hint it has read the committed mode; an unread change leaves the hint stored or received |
| LedgerTheorems.ModeIsHistory | crates/loac/src/mailbox/control.rs:302-326 | the mode of a log is the fold of its transactions |
| LedgerTheorems.TerminalReasonIsHistory | crates/loac/src/mailbox/control.rs:207-224 | the published reason is a function of the transactions alone, whatever teardown proposed, and never comes from `Running` |
| LedgerTheorems.PublishedOnce | crates/loac/src/runtime/task.rs:109-123 | a status is published at most once |
| ActorTask.Actor.Enqueue | crates/loac/src/mailbox/control.rs:377-388 | admission appends exactly one message under the gate and uses one reserved slot |
| ActorTask.Actor.Admit | crates/loac/src/mailbox/control.rs:372-395 | accepted if and only if running; a rejected message leaves inbox and log unchanged and its slot is given back; the transport is never found closed while running |
| ActorTask.Actor.TrySubmit | crates/loac/src/address.rs:267-295 | in every state of the actor, with any steps of the actor task and of other threads in between: `Accepted` is one admission while running and the only message enqueued by this call, `Full` only with no free slot while running, `Closed` only after the cutoff, and a rejected message is never enqueued |
| ActorTask.Actor.Submit | crates/loac/src/address.rs:208-232 | the same for the waiting form, which never reports `Full` and enqueues at most once, only when it reports acceptance; it gives no answer only when it is never resumed |
| ActorTask.Actor.DispatchEnvelope | crates/loac/src/mailbox.rs:185-216 | the oldest envelope is settled: an abandoned call is skipped, another is dispatched (and its handler called) only before the cutoff and refused only after it; one that is not dispatched is destroyed |
| ActorTask.Actor.CompleteReply | crates/loac/src/mailbox.rs:429-448 | the reply is closed by one completion event |
| ActorTask.Actor.FailReply | crates/loac/src/mailbox/control.rs:447-451 | a dispatch reply dropped after a panic or under a hard mode commits failure, then answers under the mode it rereads |
| ActorTask.Actor.TryDiscard | crates/loac/src/mailbox.rs:86-93 | rejects and destroys exactly the oldest envelope, or finds the inbox empty |
| ActorTask.Actor.DiscardStep | crates/loac/src/runtime/shutdown.rs:306-323 | the mode is read before a selection and again after it; only other threads act between the read and the selection |
| ActorTask.Actor.CloseAndDiscard | crates/loac/src/runtime/shutdown.rs:299-324 | a prefix of the queue is settled in order, each envelope once; before every selection the last mode the actor read was the expected one; a pass over n envelopes that is not interrupted is resumed from exactly floor(n/16) yields; it gives no answer only when the task is never resumed |
| ActorTask.Actor.DiscardAll | crates/loac/src/runtime/shutdown.rs:197-203 | repeated passes terminate by remaining mode changes and empty the inbox in order |
| ActorTask.Actor.AwaitWork | crates/loac/src/runtime/task.rs:285-309 | guarded work ends done, cut off by a hard mode, or panicked (and then user code did panic and the mode is hard), and its future is destroyed; a hard mode committed before keeps it from being polled; work that is done or still pending has been polled; done means that the children are gone or that the cleanup hook was entered; no answer only when the task is never resumed |
| ActorTask.Actor.PollJob | crates/loac/src/runtime/task.rs:303-308 | one poll of the work, possibly under a mode that changed after the hint was polled; it calls the user's code, its first poll enters the hook, and a wait for children is pending only while one has not exited |
| ActorTask.Actor.ActorTurn | crates/loac/src/runtime/actor_loop.rs:266-295 | the stored hint comes first; then scheduler steps, each after reading the expected mode; what a turn may change; a closed inbox is reported only when closed and empty; a panicking handler ends the turn with the failure committed |
| ActorTask.Actor.HandleChildExit | crates/loac/src/runtime/actor_loop.rs:233-247 | an unknown child changes nothing; a retained one is reaped first, its status sticks, and its hook enters and runs unless the cutoff came first |
| ActorTask.Actor.FinishReplies | crates/loac/src/runtime/shutdown.rs:116-149 | done only when nothing is stored or running; otherwise a hard mode committed, and one that had committed before ends it at once; no answer only when the task is never resumed |
| ActorTask.Actor.GracefulFinish | crates/loac/src/runtime/shutdown.rs:151-184 | children first, then the cleanup hook, which runs; anything else means a hard mode; a hard mode committed before keeps the hook from entering |
| ActorTask.Actor.StopActor | crates/loac/src/runtime/shutdown.rs:3-38 | unless the task is never resumed a status is proposed; it matches the mode, nothing is left to settle, the inbox is closed, and the impossible-mode branch is unreachable |
| ActorTask.Actor.DrainActor | crates/loac/src/runtime/shutdown.rs:40-114 | the same for Drain, with the queue fixed when it committed |
| ActorTask.Actor.KillActor | crates/loac/src/runtime/shutdown.rs:186-209 | inbox, replies and children are gone and the proposal is `Killed`; no proposal only when the task is never resumed |
| ActorTask.Actor.FailActor | crates/loac/src/runtime/shutdown.rs:211-236 | failure is committed and the proposal names the hard mode that won; no proposal only when the task is never resumed |
| ActorTask.Actor.Initialize | crates/loac/src/runtime/actor_loop.rs:23-52 | a hard mode before entry keeps initialization from being entered; otherwise it is entered and runs, and every end other than completion leaves a hard mode |
| ActorTask.Actor.LoopRound | crates/loac/src/runtime/actor_loop.rs:59-136 | which mode leads to which hook or teardown; a hard mode ends the loop at once; no hook follows a panic |
| ActorTask.Actor.RunActor | crates/loac/src/runtime/actor_loop.rs:14-201 | the main future returns only a status that may be published, and returns one unless it is never resumed; a panic of `on_shutdown` or of any other user code never ends in a graceful status (`Contained` with `LedgerTheorems.PanicsNeverEndGracefully`) |
| ActorTask.Actor.FinishTask | crates/loac/src/runtime/task.rs:155-179 | after frame destruction one status is published, every call is answered, and the reason is the one history determines |
| ActorTask.Actor.DropTask | crates/loac/src/runtime/task.rs:181-194 | dropping an unfinished task at any await answers every call and publishes `Aborted`, `Unconfirmed` |
| ActorTask.Actor.DropInbox | crates/loac/src/mailbox.rs:96-105 | inbox destruction settles all remaining envelopes in order |
| ActorTask.Actor.RunTask | crates/loac/src/runtime/task.rs:138-194 | the whole life of a task: finished, dropped at an await, or unwound by a destructor of its last frame, it publishes one status with the reason its history determines, every call answered; it is aborted only if it was never resumed or that destructor panicked; it ends `Stopped` or `Drained` if and only if no user code panicked, the task was not dropped, and nobody submitted Kill or a failure; the published subtree is that of its children |
| Children.ChildSet.Register | crates/loac/src/supervision/runtime.rs:146-154 | a fresh key; retained registrations stay within the limit |
| Children.ChildSet.Spawn | crates/loac/src/runtime/scope.rs:161-173 | a full set, and only a full set, refuses a child and stays as it was; otherwise the child is registered under a fresh key within the limit |
| Children.ChildSet.Reap | crates/loac/src/supervision/runtime.rs:171-179 | removes exactly that registration, its status sticks, and dropping the owner moves no child |
| Children.ChildSet.ReapNext | crates/loac/src/runtime/actor_loop.rs:233-240 | the oldest child event is taken and its registration reaped if it is still retained |
| Children.ChildSet.NoExitIsForgotten | crates/loac/src/runtime/task.rs:109-123 | a retained child that has exited has its event queued or in the parent's hand, as soon as it has sent it |
| Children.ChildSet.RequestAll | crates/loac/src/supervision/runtime.rs:181-185 | exactly the retained children took the request |
| Children.ChildSet.WaitAll | crates/loac/src/supervision/runtime.rs:187-198 | the status kept is exactly that of the children seen to exit, all of them when done; a cancelled wait forgets none and stopped at a child still running |
| Children.ChildSet.TerminalStatus | crates/loac/src/supervision/runtime.rs:200-202 | with the set empty, confirmed if and only if every child ever registered published a confirmed exit |
| Children.ChildSet.DropAll | crates/loac/src/supervision/runtime.rs:114-118 | destroying the set leaves no registered child in a cooperative mode |
| Supervision.ConfirmationIsExact | crates/loac/src/supervision/runtime.rs:171-202 | over the unbounded tree: a status is `Terminated` if and only if no actor at or below it was aborted, and then every descendant ever registered published a confirmed exit |
| Supervision.TraceTaint | crates/loac/src/supervision/runtime.rs:187-202 | every unconfirmed exit is traced down to an abort that caused it |
| Supervision.NoLiveOrphan | crates/loac/src/runtime/task.rs:155-193 | once a parent has exited by any path, each child it ever registered has exited or is in a hard mode |
| Supervision.ReapingLeavesTheChildAlone | crates/loac/src/supervision/runtime.rs:171-179 | in every reachable forest reaping changes no other actor |
| Supervision.ExitsAreFinal | crates/loac/src/mailbox/control.rs:212-224 | no later step of any actor changes a published exit |

## Left out

- Tokio, crossbeam and slotmap internals: the watch cell is one lock, `Notify` a stored or assigned permit, the ready queue a FIFO sequence, the arena a source of fresh keys, and the inbox the transport laws.
- Generation wrap-around: slot versions are unbounded, so the wrap after 2^31 reuses of one slot is not modelled.
- WakeTheorems.KeysNeverReturn: a version is raised when its key is handed to the builder, while the slot map leaves the slot as it was when the builder panics; that panic fails the actor, so nothing is scheduled afterwards.
- Panic payloads and waker panics: a panic is an oracle outcome; catching and forgetting payloads is not modelled.
- Stream items and final-value channels, `Recipient`, options, macros and the disabled profiles: delegation and typing with few obligations of their own.
- Two levels of a turn: `ActorTask` takes a turn as any sequence of dispatches and reply polls; `MailboxRuntime` models which ones a turn takes, and leaves answers and fates to `ActorTask`.
- ActorTask.Actor.ActorTurn: does not repeat the lane order, budgets and lease rules, because `MailboxRuntime.Runtime.PollTurn` states them.
- ActorTask.Actor.WaitAll: takes the joined subtree status as an oracle value, because `Children.ChildSet.WaitAll` computes it.
- ActorTask.Actor.Submit: does not model the FIFO order of waiting reservations; a waiting sender tries again when it is resumed.
- Fuel: a task is resumed finitely often; `fuel` is arbitrary and running out of it stands for a task (or sender) that is never polled again, so liveness of the executor is not stated.
- Child requests inside `ActorTask`: `request_all` has no effect on the actor's own log; its effect on children is in `Children` and `Supervision`.
- MailboxRuntime.Runtime.PollTurn: messages and child events that arrive while a message is being dispatched or a reply polled are modelled as arriving right after it.
- MailboxRuntime.Runtime.Park: states the absence of lost wakes for runs without hollow steps, because `WakeTheorems.WakesCanBeLost` refutes it for the others.
- Fairness.BoundIsTight: is about turn records; that the runtime's own choices produce them is not stated.
- Fairness.SomeRunIsTight: is about runs of the machine; that the runtime's own choices produce such a run is not stated.
- ActorTask.Actor.RunningRound: proves that nobody closes the inbox of a running actor, so the branch that fails on a closed inbox (`actor_loop.rs:189-198`) is unreachable in the model.
- A closed inbox with an unadmitted reservation may answer pending; that a drain then waits for the next turn is a liveness matter and not stated.
