/**
  The task of one actor: dispatch, discard, completion, child exits, and the shutdown
  orchestration that ends in one published status.

  Every method takes one atomic step at a time and lets other threads run in between
  (`Interfere`); `log` records the steps.  An `await` that is not resumed (`Suspend`
  ran out of fuel) ends a method with `None`, after which `DropTask` destroys the task.
  Validity says that the log is legal, so every execution inherits `LedgerTheorems`.
 */
module ActorTask {
  import opened Lifecycle
  import opened Gatekeeping
  import opened Ledger
  import opened LedgerTheorems

  const TEARDOWN_DROP_BUDGET: nat := 16

  datatype DiscardOutcome = Emptied | ModeChanged

  /** The settlements of envelopes discarded in mailbox order. */
  function Thrown(ids: seq<nat>): seq<Settlement> {
    seq(|ids|, i requires 0 <= i < |ids| => Settlement(ids[i], Discarded))
  }

  /** Of the queue `was`, exactly the part before `left` was discarded since `from`, in order. */
  ghost predicate DiscardedUpTo(was: seq<nat>, from: seq<Settlement>, left: seq<nat>, now: seq<Settlement>) {
    |left| <= |was| && left == was[|was| - |left|..] && now == from + Thrown(was[..|was| - |left|])
  }

  /** No envelope was taken from the inbox. */
  ghost predicate Untaken(before: seq<Event>, after: seq<Event>) {
    before <= after && forall i :: |before| <= i < |after| ==> after[i] != Receive
  }

  lemma RunningTakesNothing(log: seq<Event>, e: Event)
    requires e == Panics || e.Runs?
    ensures Untaken(log, log + [e])
  {
  }

  /** This user code was called between the two logs. */
  ghost predicate Ran(before: seq<Event>, after: seq<Event>, code: Code) {
    before <= after && exists i :: |before| <= i < |after| && after[i] == Runs(code)
  }

  lemma RanWithin(a: seq<Event>, b: seq<Event>, c: seq<Event>, d: seq<Event>, code: Code)
    requires a <= b && Ran(b, c, code) && c <= d
    ensures Ran(a, d, code)
  {
    var i :| |b| <= i < |c| && c[i] == Runs(code);
    assert d[i] == Runs(code);
  }

  lemma DiscardTakesNothing(log: seq<Event>)
    ensures Untaken(log, log + [Discard])
  {
  }

  lemma UntakenOn(a: seq<Event>, b: seq<Event>, c: seq<Event>)
    requires Untaken(a, b) && Untaken(b, c)
    ensures Untaken(a, c)
  {
    forall i | |a| <= i < |c| ensures c[i] != Receive {
      if i < |b| { assert c[i] == b[i]; }
    }
  }

  /** The last thing the actor did before event `i` was to read the expected mode; only other threads acted since. */
  ghost predicate ReadBefore(after: seq<Event>, i: nat, lo: nat, expected: Mode)
    requires i <= |after|
  {
    exists r :: lo <= r < i && after[r] == Observe && ModeAt(after, r) == expected
                && forall k :: r < k < i ==> External(after[k])
  }

  /** Every envelope was taken when the actor's last act was to read the expected mode. */
  ghost predicate SelectedUnder(before: seq<Event>, after: seq<Event>, expected: Mode) {
    && before <= after
    && forall i :: |before| <= i < |after| && after[i] == Receive ==> ReadBefore(after, i, |before|, expected)
  }

  lemma ReadBeforeStays(b: seq<Event>, c: seq<Event>, i: nat, lo: nat, low: nat, expected: Mode)
    requires b <= c && i <= |b| && low <= lo && ReadBefore(b, i, lo, expected)
    ensures ReadBefore(c, i, low, expected)
  {
    hide Ledger.Replay;
    var r :| lo <= r < i && b[r] == Observe && ModeAt(b, r) == expected && forall k :: r < k < i ==> External(b[k]);
    assert c[r] == b[r] && c[..r] == b[..r];
  }

  lemma SelectedOn(a: seq<Event>, b: seq<Event>, c: seq<Event>, expected: Mode)
    requires SelectedUnder(a, b, expected) && SelectedUnder(b, c, expected)
    ensures SelectedUnder(a, c, expected)
  {
    hide Ledger.Replay, ReadBefore;
    forall i | |a| <= i < |c| && c[i] == Receive ensures ReadBefore(c, i, |a|, expected) {
      if i < |b| {
        assert b[i] == Receive;
        ReadBeforeStays(b, c, i, |a|, |a|, expected);
      } else {
        ReadBeforeStays(c, c, i, |b|, |a|, expected);
      }
    }
  }

  /** A read of the expected mode, then other threads, one selection, and whatever runs after it. */
  lemma SelectedOnce(a: seq<Event>, read: seq<Event>, gap: seq<Event>, after: seq<Event>, expected: Mode)
    requires Untaken(a, read) && a < read && read[|read| - 1] == Observe && ModeAt(read, |read| - 1) == expected
    requires Untaken(read, gap) && forall k :: |read| <= k < |gap| ==> External(gap[k])
    requires Untaken(gap + [Receive], after)
    ensures SelectedUnder(a, after, expected)
  {
    hide Ledger.Replay;
    assert gap <= gap + [Receive] <= after;
    forall i | |a| <= i < |after| && after[i] == Receive ensures ReadBefore(after, i, |a|, expected) {
      UntakenOn(a, read, gap);
      assert i == |gap|;
      assert after[|read| - 1] == gap[|read| - 1] && after[..|read| - 1] == read[..|read| - 1];
      forall k | |read| - 1 < k < i ensures External(after[k]) { assert after[k] == gap[k]; }
    }
  }

  lemma CloseSelectsNothing(log: seq<Event>, expected: Mode)
    ensures SelectedUnder(log, log + [Close], expected)
  {
  }

  lemma UntakenIsSelected(a: seq<Event>, b: seq<Event>, expected: Mode)
    requires Untaken(a, b)
    ensures SelectedUnder(a, b, expected)
  {
  }

  lemma NothingDiscardedYet(was: seq<nat>, from: seq<Settlement>)
    ensures DiscardedUpTo(was, from, was, from)
  {
  }

  lemma DiscardedOne(left: seq<nat>, now: seq<Settlement>, rest: seq<nat>, later: seq<Settlement>)
    requires left != [] && rest == left[1..] && later == now + [Settlement(left[0], Discarded)]
    ensures DiscardedUpTo(left, now, rest, later)
  {
    assert left[..1] == [left[0]];
  }

  lemma DiscardMore(was: seq<nat>, from: seq<Settlement>, left: seq<nat>, now: seq<Settlement>,
                    rest: seq<nat>, later: seq<Settlement>)
    requires DiscardedUpTo(was, from, left, now) && DiscardedUpTo(left, now, rest, later)
    ensures DiscardedUpTo(was, from, rest, later)
  {
    var n, k := |was| - |left|, |left| - |rest|;
    assert was[..n + k] == was[..n] + left[..k];
    assert Thrown(was[..n + k]) == Thrown(was[..n]) + Thrown(left[..k]);
  }

  /** How a guarded piece of lifecycle work ended. */
  datatype Work = Done | Killed | Panicked | DropPanicked

  /** The futures the actor task awaits under its lifecycle guard. */
  datatype Job =
    | InitJob
    | ChildHookJob
    | ChildrenJob(shutdown: Shutdown)
    | StopJob(reason: ExitReason)

  /** The user code a job calls. */
  function JobCode(job: Job): Code
    requires !job.ChildrenJob?
  {
    match job
    case InitJob => InitCode
    case ChildHookJob => ChildHook
    case StopJob(_) => StopHook
  }

  /** What the guard found before polling its work. */
  datatype Attention = Cut | Fired | Free

  /** The mode under which an actor stops for this reason. */
  function GracefulMode(reason: ExitReason): Mode {
    if reason == Stopped then Stopping else Draining
  }

  datatype JobPoll = JobPending | JobDone | JobPanics

  /** How one scheduler turn ended. */
  datatype Turn =
    | LifecycleHint
    | Progress
    | ChildEvent(child: nat, subtree: SubtreeStatus)
    | InboxClosed
    | Unwound

  /** What the actor loop does next. */
  datatype Loop = Again | Hooked(shutdown: Shutdown) | Ended(work: Work) | Parked

  /** What an immediate submission reports; the message of a rejected one goes back to its sender. */
  datatype Submission = Accepted(id: nat) | Full | Closed

  class Actor {
    const control: Control
    const capacity: nat
    // the transport
    var inbox: seq<nat>
    var reserved: nat
    var held: nat             // of the reserved slots, the one of the sender that runs below
    var closed: bool
    var arrived: nat
    var calls: set<nat>
    var abandoned: set<nat>
    // dispatch and replies
    var hand: Option<nat>
    var running: set<nat>
    var failing: set<nat>
    var slots: set<nat>
    var answers: map<nat, Outcome>
    // children
    var kids: set<nat>
    var spawned: set<nat>
    var gone: set<nat>
    var subtree: SubtreeStatus
    // whether initialization and the cleanup hooks were entered
    var initEntered: bool
    var shutdownSeen: bool
    var stopEntered: bool
    // whether user code has panicked, and whether a panic left the main future
    var crashed: bool
    var escaped: bool
    // executor turns left before the task is suspended for good
    var fuel: nat
    var hooked: set<nat>
    // the mode the actor last read, and what it did about its hint since
    var observed: Mode
    var stance: Stance
    ghost var settled: seq<Settlement>
    ghost var sent: seq<nat>  // messages enqueued by the sender that runs below
    ghost var log: seq<Event>

    ghost function View(): World
      reads this, control
    {
      World(
        Watch(control.mode, control.permit, observed, stance, initEntered, shutdownSeen, stopEntered, crashed, escaped),
        Mail(arrived, calls, abandoned, inbox, closed, hand, settled, running, failing, slots, answers),
        Family(kids, spawned, gone, hooked))
    }

    ghost predicate Valid()
      reads this, control
    {
      && control.Valid()
      && Legal(log) && View() == Replay(log)
      && |inbox| + reserved <= capacity && held <= reserved
    }

    /** Between the synchronous steps of a poll no envelope is in hand and no failure is half done. */
    ghost predicate Rested()
      reads this
    {
      hand == None && failing == {}
    }

    /** No panic is on its way to the gate: one that happened has taken the actor out of its cooperative modes. */
    predicate Contained()
      reads this`crashed, control
    {
      crashed ==> !Soft(control.mode)
    }

    /** Handlers and hooks may run: initialization was entered, the final cleanup was not. */
    predicate Live()
      reads this`initEntered, this`stopEntered
    {
      initEntered && !stopEntered
    }

    /** The task has not run yet, whatever other threads have done. */
    ghost predicate Unstarted()
      reads this, control
    {
      Rank(control.mode) <= 2 && !initEntered && !shutdownSeen && !stopEntered && !crashed && !escaped && !closed
    }

    constructor (capacity: nat, fuel: nat)
      ensures Valid() && Rested() && Unstarted() && held == 0 && log == [] && fresh(control) && sent == []
    {
      control := new Control();
      this.capacity, this.fuel := capacity, fuel;
      inbox, reserved, held, closed, arrived, calls, abandoned := [], 0, 0, false, 0, {}, {};
      hand, running, failing, slots, answers := None, {}, {}, {}, map[];
      kids, spawned, gone, subtree := {}, {}, {}, Terminated;
      settled, hooked, observed, stance := [], {}, Running, Fresh;
      initEntered, shutdownSeen, stopEntered, crashed, escaped := false, false, false, false, false;
      sent, log := [], [];
    }

    ghost method Record(before: World, e: Event)
      requires control.Valid() && |inbox| + reserved <= capacity && held <= reserved
      requires Legal(log) && before == Replay(log)
      requires Enabled(before, e) && Allowed(before, e) && View() == Apply(before, e)
      modifies this`log
      ensures Valid() && log == old(log) + [e]
    {
      Extend(log, e);
      log := log + [e];
    }

    lemma Reachable()
      requires Valid()
      ensures Inv(View())
    {
      LegalInv(log);
    }

    // ------------------------------------------------- steps of the actor task

    /** A lifecycle transaction of another thread. */
    method Transact(op: GateOp)
      requires Valid() && Foreign(op)
      modifies control, this`log
      ensures Valid() && log == old(log) + [Op(op)]
      ensures control.mode == Gate(old(control.mode), op)
      ensures control.permit == (old(control.permit) || control.mode != old(control.mode))
    {
      hide Ledger.Replay, Ledger.Legal, Lifecycle.After;
      ghost var before := View();
      control.Transact(op);
      Record(before, Op(op));
    }

    /** The actor commits its failure: a panic is contained, or a hard mode has committed already. */
    method CommitFailure()
      requires Valid() && (crashed || !Soft(control.mode))
      modifies control, this`log
      ensures Valid() && Contained() && log == old(log) + [Fail]
      ensures control.mode == Gate(old(control.mode), BeginFailure) && !Soft(control.mode)
      ensures Rank(old(control.mode)) <= 2 ==> Rank(control.mode) == 2
      ensures control.mode == old(control.mode) || Rank(old(control.mode)) < Rank(control.mode)
    {
      hide Ledger.Replay, Ledger.Legal, Lifecycle.After;
      ghost var before := View();
      GateClimbs(control.mode, BeginFailure);
      control.Transact(BeginFailure);
      Record(before, Fail);
    }

    /** The task is dropped before its future finished. */
    method CommitAbort()
      requires Valid() && Rank(control.mode) <= 2
      modifies control, this`log
      ensures Valid() && Contained() && log == old(log) + [Abort] && control.mode == Aborting
    {
      hide Ledger.Replay, Ledger.Legal, Lifecycle.After;
      ghost var before := View();
      control.Transact(BeginAbort);
      Record(before, Abort);
    }

    /** Initialization enters unless a hard mode came first; both are decided in one transaction. */
    method EnterInitialization() returns (entered: bool)
      requires Valid() && Contained() && !initEntered
      modifies this`initEntered, this`log
      ensures Valid() && Contained() && (entered <==> Soft(control.mode)) && initEntered == entered
      ensures log == if entered then old(log) + [EnterInit] else old(log)
    {
      hide Ledger.Replay, Ledger.Legal, Lifecycle.After;
      ghost var before := View();
      entered := control.BeginInitialization();
      if entered {
        initEntered := true;
        Record(before, EnterInit);
      }
    }

    /** Handlers run between initialization and the final cleanup, hooks after their entry, and none after a panic. */
    predicate MayRun(code: Code)
      reads this`initEntered, this`shutdownSeen, this`stopEntered, this`crashed
    {
      Destroys(code) ||
      (!crashed &&
       match code
       case ShutdownHook => shutdownSeen && !stopEntered
       case StopHook => stopEntered
       case _ => Live())
    }

    method CallUser(code: Code)
      requires Valid() && Contained() && MayRun(code)
      modifies this`log
      ensures Valid() && log == old(log) + [Runs(code)]
    {
      hide Ledger.Replay, Ledger.Legal, Lifecycle.After;
      ghost var before := View();
      Record(before, Runs(code));
    }

    /** User code unwinds; the panic is caught at the next boundary. */
    method Unwind()
      requires Valid() && Contained()
      modifies this`crashed, this`log
      ensures Valid() && crashed && log == old(log) + [Panics]
    {
      hide Ledger.Replay, Ledger.Legal, Lifecycle.After;
      ghost var before := View();
      crashed := true;
      Record(before, Panics);
    }

    /** A panic leaves the main future. */
    method Escape()
      requires Valid() && crashed
      modifies this`escaped, this`log
      ensures Valid() && escaped && log == old(log) + [Escapes]
    {
      hide Ledger.Replay, Ledger.Legal, Lifecycle.After;
      ghost var before := View();
      escaped := true;
      Record(before, Escapes);
    }

    method ReadMode() returns (mode: Mode)
      requires Valid() && Contained()
      modifies this`observed, this`stance, this`log
      ensures Valid() && Contained() && log == old(log) + [Observe]
      ensures mode == control.mode && observed == mode && stance == Fresh && ModeAt(log, |log| - 1) == mode
    {
      hide Ledger.Replay, Ledger.Legal, Lifecycle.After, Gate;
      ghost var before := View();
      mode := control.mode;
      observed, stance := mode, Fresh;
      Record(before, Observe);
      assert log[..|log| - 1] == old(log);
    }

    /** The lifecycle hint fired; the mode must be reread. */
    method ConsumeHint()
      requires Valid() && Contained() && control.permit
      modifies control`permit, this`stance, this`log
      ensures Valid() && Contained() && log == old(log) + [Consume]
      ensures !control.permit && stance == Notified
    {
      hide Ledger.Replay, Ledger.Legal, Lifecycle.After;
      ghost var before := View();
      control.permit, stance := false, Notified;
      Record(before, Consume);
    }

    /** The hint was polled without effect: the actor has read the committed mode. */
    method PassHint()
      requires Valid() && Contained() && !control.permit && stance != Notified
      modifies this`stance, this`log
      ensures Valid() && Contained() && log == old(log) + [Wait]
      ensures observed == control.mode && stance == Passed
    {
      hide Ledger.Replay, Ledger.Legal, Lifecycle.After;
      ghost var before := View();
      Reachable();
      stance := Passed;
      Record(before, Wait);
    }

    method CloseInbox()
      requires Valid() && Contained() && control.mode != Running
      modifies this`closed, this`log
      ensures Valid() && Contained() && log == old(log) + [Close]
      ensures closed
    {
      hide Ledger.Replay, Ledger.Legal, Lifecycle.After;
      ghost var before := View();
      closed := true;
      Record(before, Close);
    }

    method PopInbox()
      requires hand == None && inbox != []
      modifies this`hand, this`inbox
      ensures View() == old(View()).(mail := MailStep(old(View()).mail, control.mode, Receive))
      ensures hand == Some(old(inbox)[0]) && inbox == old(inbox)[1..]
    {
      hand, inbox := Some(inbox[0]), inbox[1..];
    }

    method TakeEnvelope()
      requires Valid() && Contained() && hand == None && inbox != []
      modifies this`hand, this`inbox, this`log
      ensures Valid() && Contained() && log == old(log) + [Receive]
      ensures hand == Some(old(inbox)[0]) && inbox == old(inbox)[1..]
    {
      hide Ledger.Replay, Ledger.Legal, Ledger.Enabled, Ledger.Allowed, Ledger.Apply, Lifecycle.After;
      ghost var before := View();
      MailEventApplies(before, Receive);
      PopInbox();
      Record(before, Receive);
    }

    /** The envelope in hand leaves the mailbox without a handler, under the mode of this moment. */
    method RejectHand(fate: Fate)
      requires hand.Some?
      modifies this`hand, this`answers, this`settled
      ensures View() == old(View()).(mail := Reject(old(View()).mail, control.mode, fate))
      ensures hand == None && settled == old(settled) + [Settlement(old(hand.value), fate)]
    {
      var id, reason := hand.value, QueuedReason(control.mode);
      if id in calls { answers := answers[id := BeforeDispatch(reason)]; }
      hand, settled := None, settled + [Settlement(id, fate)];
    }

    /** The caller is gone: the envelope is rejected before it can commit dispatch. */
    method SkipEnvelope()
      requires Valid() && Contained() && hand.Some? && hand.value in calls && hand.value in abandoned
      modifies this`hand, this`answers, this`settled, this`log
      ensures Valid() && Contained() && log == old(log) + [Skip]
      ensures hand == None && settled == old(settled) + [Settlement(old(hand.value), Skipped)]
    {
      hide Ledger.Replay, Ledger.Legal, Ledger.Enabled, Ledger.Allowed, Ledger.Apply, Lifecycle.After;
      ghost var before := View();
      MailEventApplies(before, Skip);
      RejectHand(Skipped);
      Record(before, Skip);
    }

    /** Dispatch lost against the cutoff. */
    method RefuseEnvelope()
      requires Valid() && Contained() && hand.Some? && !Dispatching(control.mode)
      modifies this`hand, this`answers, this`settled, this`log
      ensures Valid() && Contained() && log == old(log) + [Refuse]
      ensures hand == None && settled == old(settled) + [Settlement(old(hand.value), Refused)]
    {
      hide Ledger.Replay, Ledger.Legal, Ledger.Enabled, Ledger.Allowed, Ledger.Apply, Lifecycle.After;
      ghost var before := View();
      MailEventApplies(before, Refuse);
      RejectHand(Refused);
      Record(before, Refuse);
    }

    method DiscardEnvelope()
      requires Valid() && Contained() && hand.Some? && !Dispatching(control.mode)
      modifies this`hand, this`answers, this`settled, this`log
      ensures Valid() && Contained() && log == old(log) + [Discard]
      ensures hand == None && settled == old(settled) + [Settlement(old(hand.value), Discarded)]
    {
      hide Ledger.Replay, Ledger.Legal, Ledger.Enabled, Ledger.Allowed, Ledger.Apply, Lifecycle.After;
      ghost var before := View();
      MailEventApplies(before, Discard);
      RejectHand(Discarded);
      Record(before, Discard);
    }

    method StartReply()
      requires hand.Some? && Dispatching(control.mode)
      modifies this`hand, this`running, this`slots, this`settled
      ensures View() == old(View()).(mail := MailStep(old(View()).mail, control.mode, Commit))
      ensures hand == None && settled == old(settled) + [Settlement(old(hand.value), Dispatched)]
      ensures running == old(running) + {old(hand.value)} && slots == old(slots) + {old(hand.value)}
    {
      var id := hand.value;
      hand, running, slots := None, running + {id}, slots + {id};
      settled := settled + [Settlement(id, Dispatched)];
    }

    method CommitDispatch()
      requires Valid() && Contained() && hand.Some? && Dispatching(control.mode) && initEntered
      modifies this`hand, this`running, this`slots, this`settled, this`log
      ensures Valid() && Contained() && log == old(log) + [Commit]
      ensures hand == None && settled == old(settled) + [Settlement(old(hand.value), Dispatched)]
      ensures running == old(running) + {old(hand.value)} && slots == old(slots) + {old(hand.value)}
    {
      hide Ledger.Replay, Ledger.Legal, Ledger.Enabled, Ledger.Allowed, Ledger.Apply, Lifecycle.After;
      ghost var before := View();
      MailEventApplies(before, Commit);
      StartReply();
      Record(before, Commit);
    }

    /** A reply that runs no longer is answered, if somebody waits for it. */
    method AnswerCall(id: nat, outcome: Outcome)
      modifies this`answers
      ensures View() == old(View()).(mail := Answer(old(View()).mail, id, outcome))
    {
      if id in calls { answers := answers[id := outcome]; }
    }

    method CloseReply(id: nat)
      requires id in running
      modifies this`running, this`answers
      ensures View() == old(View()).(mail := MailStep(old(View()).mail, control.mode, Complete(id)))
      ensures running == old(running) - {id}
    {
      running := running - {id};
      AnswerCall(id, CompletionOutcome(control.mode));
    }

    method CloseFailure(id: nat)
      requires id in failing
      modifies this`failing, this`answers
      ensures View() == old(View()).(mail := MailStep(old(View()).mail, control.mode, EndFail(id)))
      ensures failing == old(failing) - {id}
    {
      failing := failing - {id};
      AnswerCall(id, DuringDispatch(DispatchReason(control.mode)));
    }

    /** The handler's reply is ready: completion commits against every hard mode. */
    method CompleteReply(id: nat)
      requires Valid() && Contained() && id in running
      modifies this`running, this`answers, this`log
      ensures Valid() && Contained() && log == old(log) + [Complete(id)]
      ensures running == old(running) - {id}
    {
      hide Ledger.Replay, Ledger.Legal, Ledger.Enabled, Ledger.Allowed, Ledger.Apply, Lifecycle.After;
      ghost var before := View();
      MailEventApplies(before, Complete(id));
      CloseReply(id);
      Record(before, Complete(id));
    }

    method BeginReplyFailure(id: nat)
      requires Valid() && id in running && (crashed || !Soft(control.mode))
      modifies control, this`running, this`failing, this`log
      ensures Valid() && Contained() && log == old(log) + [BeginFail(id)]
      ensures running == old(running) - {id} && failing == old(failing) + {id}
      ensures control.mode == Gate(old(control.mode), BeginFailure) && !Soft(control.mode)
      ensures control.mode == old(control.mode) || Rank(old(control.mode)) < Rank(control.mode)
      ensures Rank(old(control.mode)) <= 2 ==> Rank(control.mode) == 2
    {
      hide Ledger.Replay, Ledger.Legal, Lifecycle.After;
      ghost var before := View();
      GateClimbs(control.mode, BeginFailure);
      control.Transact(BeginFailure);
      running, failing := running - {id}, failing + {id};
      Record(before, BeginFail(id));
    }

    method EndReplyFailure(id: nat)
      requires Valid() && Contained() && id in failing
      modifies this`failing, this`answers, this`log
      ensures Valid() && Contained() && log == old(log) + [EndFail(id)]
      ensures failing == old(failing) - {id}
    {
      hide Ledger.Replay, Ledger.Legal, Ledger.Enabled, Ledger.Allowed, Ledger.Apply, Lifecycle.After;
      ghost var before := View();
      MailEventApplies(before, EndFail(id));
      CloseFailure(id);
      Record(before, EndFail(id));
    }

    /** The scheduler lets go of a reply it stored. */
    method RetireReply(id: nat)
      requires Valid() && Contained() && id in slots && id !in running && id !in failing
      modifies this`slots, this`log
      ensures Valid() && Contained() && log == old(log) + [Retire(id)]
      ensures slots == old(slots) - {id}
    {
      hide Ledger.Replay, Ledger.Legal, Lifecycle.After, Gate;
      ghost var before := View();
      slots := slots - {id};
      Record(before, Retire(id));
    }

    method SpawnChild(c: nat)
      requires Valid() && Contained() && c !in spawned && Live()
      modifies this`kids, this`spawned, this`log
      ensures Valid() && Contained() && log == old(log) + [Spawn(c)]
      ensures kids == old(kids) + {c} && spawned == old(spawned) + {c}
    {
      hide Ledger.Replay, Ledger.Legal, Lifecycle.After;
      ghost var before := View();
      kids, spawned := kids + {c}, spawned + {c};
      Record(before, Spawn(c));
    }

    /** The children in `kept` remain; the status of those that left sticks. */
    method KeepChildren(kept: set<nat>, status: SubtreeStatus)
      modifies this`kids, this`subtree
      ensures View() == old(View()).(family := old(View()).family.(kids := kept))
      ensures kids == kept && subtree == Join(old(subtree), status)
    {
      kids := kept;
      if status == Unconfirmed { subtree := Unconfirmed; }
    }

    method ReapChild(c: nat, status: SubtreeStatus)
      requires Valid() && Contained() && c in kids && c in gone
      modifies this`kids, this`subtree, this`log
      ensures Valid() && Contained() && log == old(log) + [Reap(c)]
      ensures kids == old(kids) - {c}
      ensures subtree == Join(old(subtree), status)
    {
      hide Ledger.Replay, Ledger.Legal, Ledger.Enabled, Ledger.Allowed, Ledger.Apply, Lifecycle.After;
      ghost var before := View();
      FamilyEventApplies(before, Reap(c));
      KeepChildren(kids - {c}, status);
      Record(before, Reap(c));
    }

    /** `wait_all` saw every retained child exit; `worst` joins their subtree statuses. */
    method ClearChildren(worst: SubtreeStatus)
      requires Valid() && Contained() && kids <= gone && control.mode != Running
      modifies this`kids, this`subtree, this`log
      ensures Valid() && Contained() && log == old(log) + [ClearKids]
      ensures kids == {}
      ensures subtree == if worst == Unconfirmed && old(kids) != {} then Unconfirmed else old(subtree)
    {
      hide Ledger.Replay, Ledger.Legal, Ledger.Enabled, Ledger.Allowed, Ledger.Apply, Lifecycle.After;
      ghost var before := View();
      FamilyEventApplies(before, ClearKids);
      KeepChildren({}, if kids != {} then worst else Terminated);
      Record(before, ClearKids);
    }

    method EnterChildHook(c: nat)
      requires Valid() && Contained() && control.mode == Running && initEntered
      requires c in gone && c in spawned && c !in kids && c !in hooked
      modifies this`hooked, this`log
      ensures Valid() && Contained() && log == old(log) + [EnterHook(c)]
      ensures hooked == old(hooked) + {c}
    {
      hide Ledger.Replay, Ledger.Legal, Lifecycle.After;
      ghost var before := View();
      hooked := hooked + {c};
      Record(before, EnterHook(c));
    }

    method EnterShutdownHook(shutdown: Shutdown)
      requires Valid() && Contained() && Live() && !shutdownSeen && !crashed
      requires (observed == Draining && shutdown == Drain) || (observed == Stopping && shutdown == Stop)
      requires stance == Fresh && (control.mode == observed || (Rank(control.mode) == 2 && control.permit))
      modifies this`shutdownSeen, this`log
      ensures Valid() && Contained() && log == old(log) + [OnShutdown(shutdown)]
      ensures shutdownSeen
    {
      hide Ledger.Replay, Ledger.Legal, Lifecycle.After;
      ghost var before := View();
      shutdownSeen := true;
      Record(before, OnShutdown(shutdown));
    }

    method EnterStopHook(reason: ExitReason)
      requires Valid() && Contained() && shutdownSeen && !stopEntered && !crashed && Quiet(View().mail) && kids == {}
      requires stance == Passed && observed == GracefulMode(reason) && (reason == Stopped || reason == Drained)
      requires control.mode == observed || (Rank(control.mode) == 2 && control.permit)
      modifies this`stopEntered, this`log
      ensures Valid() && Contained() && log == old(log) + [EnterStop(reason)]
      ensures stopEntered
    {
      hide Ledger.Replay, Ledger.Legal, Lifecycle.After;
      ghost var before := View();
      stopEntered := true;
      Record(before, EnterStop(reason));
    }

    /** Frame destruction is over: the gate publishes one terminal status. */
    method Publish(proposed: ExitStatus)
      requires Valid() && Contained() && Allowed(View(), Event.Publish(proposed)) && !control.mode.Exited?
      modifies control, this`log
      ensures Valid() && Contained() && log == old(log) + [Event.Publish(proposed)]
      ensures control.mode == Gate(old(control.mode), Finish(proposed))
    {
      hide Ledger.Replay, Ledger.Legal, Lifecycle.After;
      ghost var before := View();
      control.Transact(Finish(proposed));
      Record(before, Event.Publish(proposed));
    }

    // ------------------------------------------------------------ other threads

    method PushInbox(isCall: bool) returns (id: nat)
      requires control.mode == Running && reserved > held
      modifies this`arrived, this`calls, this`inbox, this`reserved
      ensures View() == old(View()).(mail := MailStep(old(View()).mail, control.mode, Event.Admit(isCall)))
      ensures id == old(arrived) && inbox == old(inbox) + [id] && reserved == old(reserved) - 1
      ensures calls == if isCall then old(calls) + {id} else old(calls)
    {
      id := arrived;
      if isCall { calls := calls + {id}; }
      arrived, inbox, reserved := id + 1, inbox + [id], reserved - 1;
    }

    /** Admission: the capacity and the lifecycle gate are held in one transaction. */
    method Enqueue(isCall: bool) returns (id: nat)
      requires Valid() && control.mode == Running && reserved > held
      modifies this`arrived, this`calls, this`inbox, this`reserved, this`log
      ensures Valid() && log == old(log) + [Event.Admit(isCall)]
      ensures id == old(arrived) && inbox == old(inbox) + [id] && reserved == old(reserved) - 1
      ensures calls == if isCall then old(calls) + {id} else old(calls)
    {
      hide Ledger.Replay, Ledger.Legal, Ledger.Enabled, Ledger.Allowed, Ledger.Apply, Lifecycle.After;
      ghost var before := View();
      MailEventApplies(before, Event.Admit(isCall));
      id := PushInbox(isCall);
      Record(before, Event.Admit(isCall));
    }

    /** The caller drops its response. */
    method AbandonCall(id: nat)
      requires Valid() && id in calls
      modifies this`abandoned, this`log
      ensures Valid() && log == old(log) + [Abandon(id)]
      ensures abandoned == old(abandoned) + {id}
    {
      hide Ledger.Replay, Ledger.Legal, Lifecycle.After;
      ghost var before := View();
      abandoned := abandoned + {id};
      Record(before, Abandon(id));
    }

    method ExitChild(c: nat)
      requires Valid() && c in spawned
      modifies this`gone, this`log
      ensures Valid() && log == old(log) + [ChildExits(c)]
      ensures gone == old(gone) + {c}
    {
      hide Ledger.Replay, Ledger.Legal, Lifecycle.After;
      ghost var before := View();
      gone := gone + {c};
      Record(before, ChildExits(c));
    }

    twostate predicate OthersRan()
      reads this, control
    {
      && old(log) <= log && (forall i :: |old(log)| <= i < |log| ==> External(log[i]))
      && (control.mode == old(control.mode) || Rank(old(control.mode)) < Rank(control.mode) <= 2)
      && (old(control.permit) ==> control.permit)
      && (control.mode == old(control.mode) ==> control.permit == old(control.permit))
      && old(inbox) <= inbox && (old(control.mode) != Running ==> inbox == old(inbox))
      && old(calls) <= calls && old(abandoned) <= abandoned && old(gone) <= gone
    }

    /** One step of another thread. */
    method OtherStep()
      requires Valid()
      modifies control, this`arrived, this`calls, this`abandoned, this`inbox, this`reserved, this`gone, this`log
      ensures Valid() && OthersRan()
    {
      hide Ledger.Replay, Ledger.Legal, Lifecycle.After;
      var choice: nat, op: GateOp, isCall: bool, target: nat := *, *, *, *;
      if choice == 0 && Foreign(op) {
        GateClimbs(control.mode, op);
        Transact(op);
      } else if choice == 1 && !closed && |inbox| + reserved < capacity {
        reserved := reserved + 1;
      } else if choice == 2 && reserved > held {
        reserved := reserved - 1;
      } else if choice == 3 && reserved > held && control.mode == Running {
        var id := Enqueue(isCall);
      } else if choice == 4 && target in calls {
        AbandonCall(target);
      } else if choice == 5 && target in spawned {
        ExitChild(target);
      }
    }

    /** Other threads take any finite number of steps. */
    method Interfere()
      requires Valid()
      modifies control, this`arrived, this`calls, this`abandoned, this`inbox, this`reserved, this`gone, this`log
      ensures Valid() && OthersRan()
      ensures Untaken(old(log), log)
    {
      hide Ledger.Replay, Ledger.Legal, Lifecycle.After;
      var n: nat := *;
      while n > 0
        invariant Valid() && OthersRan()
      {
        OtherStep();
        n := n - 1;
      }
    }

    /** An await point: other threads run; without fuel the task is never resumed. */
    method Suspend() returns (resumed: bool)
      requires Valid()
      modifies control, this`arrived, this`calls, this`abandoned, this`inbox, this`reserved, this`gone, this`fuel,
        this`log
      ensures Valid() && OthersRan()
      ensures resumed <==> old(fuel) > 0
      ensures fuel == if resumed then old(fuel) - 1 else old(fuel)
      ensures Untaken(old(log), log)
    {
      hide Ledger.Replay, Ledger.Legal, Lifecycle.After, Ledger.Apply;
      Interfere();
      resumed := fuel > 0;
      if resumed { fuel := fuel - 1; }
    }

    /**
      User code of the actor runs: handlers and all hooks but the last may spawn children,
      destructors may not.  A panic is on record before anyone else sees it.
     */
    method UserCode(code: Code) returns (panicked: bool)
      requires Valid() && Contained() && MayRun(code)
      modifies control, this`arrived, this`calls, this`abandoned, this`inbox, this`reserved, this`gone, this`kids,
        this`spawned, this`crashed, this`log
      ensures Valid() && UserRan() && Untaken(old(log), log) && Ran(old(log), log, code)
      ensures if panicked then crashed else crashed == old(crashed) && Contained()
      ensures code == StopHook || code == ShutdownHook || Destroys(code) ==> kids == old(kids)
    {
      hide Actor.Valid, Actor.View, Untaken;
      CallUser(code);
      RunningTakesNothing(old(log), Runs(code));
      ghost var called := log;
      assert called[|old(log)|] == Runs(code);
      var maySpawn := code == InitCode || code == Handler || code == ChildHook;
      var n: nat := *;
      while n > 0
        invariant Valid() && Contained() && UserRan() && Untaken(old(log), log) && crashed == old(crashed)
        invariant called <= log
        invariant !maySpawn ==> kids == old(kids)
      {
        ghost var before := log;
        UserStep(maySpawn);
        UntakenOn(old(log), before, log);
        n := n - 1;
      }
      assert log[|old(log)|] == Runs(code);
      panicked := *;
      if panicked {
        ghost var before := log;
        Unwind();
        assert log[|old(log)|] == Runs(code);
        RunningTakesNothing(before, Panics);
        UntakenOn(old(log), before, log);
      }
    }

    method UserStep(maySpawn: bool)
      requires Valid() && Contained() && (maySpawn ==> Live())
      modifies control, this`arrived, this`calls, this`abandoned, this`inbox, this`reserved, this`gone, this`kids,
        this`spawned, this`log
      ensures Valid() && Contained() && UserRan() && Untaken(old(log), log)
      ensures !maySpawn ==> kids == old(kids)
    {
      hide Actor.Valid, Actor.View;
      Interfere();
      var c: nat := *;
      if maySpawn && c !in spawned { SpawnChild(c); }
    }

    twostate predicate UserRan()
      reads this, control
    {
      && old(log) <= log
      && (control.mode == old(control.mode) || Rank(old(control.mode)) < Rank(control.mode) <= 2)
      && old(inbox) <= inbox && (old(control.mode) != Running ==> inbox == old(inbox))
      && old(calls) <= calls && old(abandoned) <= abandoned && old(gone) <= gone
      && old(kids) <= kids
    }

    /** Destroys a user value; a panicking destructor fails the actor. */
    method DropUserValue() returns (panicked: bool)
      requires Valid() && Contained()
      modifies control, this`arrived, this`calls, this`abandoned, this`inbox, this`reserved, this`gone, this`kids,
        this`spawned, this`crashed, this`log
      ensures Valid() && Contained() && UserRan() && kids == old(kids)
      ensures if panicked then crashed && !Soft(control.mode) else crashed == old(crashed)
      ensures Untaken(old(log), log) && Ran(old(log), log, Destructor)
    {
      hide Actor.Valid, Actor.View;
      panicked := UserCode(Destructor);
      ghost var ran := log;
      if panicked {
        CommitFailure();
        RanWithin(old(log), old(log), ran, log, Destructor);
      }
    }

    // --------------------------------------------------------------- replies

    /** Dropping an unfinished dispatch reply: the failure commits, then the mode is read again. */
    method FailReply(id: nat)
      requires Valid() && Rested() && id in running && (crashed || !Soft(control.mode))
      modifies control, this`arrived, this`calls, this`abandoned, this`inbox, this`reserved, this`gone,
        this`running, this`failing, this`answers, this`log
      ensures Valid() && Contained() && Rested() && Onward() && running == old(running) - {id}
      ensures old(control.mode) != Running ==> inbox == old(inbox)
      ensures !Soft(control.mode) && crashed == old(crashed)
    {
      hide Actor.Valid, Actor.View;
      BeginReplyFailure(id);
      Interfere();
      EndReplyFailure(id);
    }

    /** The run went on: nothing was taken back, and no message came in after `Running`. */
    twostate predicate Onward()
      reads this, control
    {
      && old(log) <= log
      && (control.mode == old(control.mode) || Rank(old(control.mode)) < Rank(control.mode) <= 2)
      && (old(control.mode) != Running ==> |inbox| <= |old(inbox)|)
      && old(gone) <= gone && (old(closed) ==> closed) && fuel <= old(fuel)
    }

    /** Destroys one stored reply; an unanswered one fails first. */
    method DropReply(id: nat)
      requires Valid() && Contained() && Rested() && id in slots && !Soft(control.mode)
      modifies control, this`arrived, this`calls, this`abandoned, this`inbox, this`reserved, this`gone, this`kids,
        this`spawned, this`crashed, this`running, this`failing, this`answers, this`slots, this`log
      ensures Valid() && Contained() && Rested() && Onward() && slots == old(slots) - {id} && kids == old(kids)
      ensures old(control.mode) != Running ==> inbox == old(inbox)
      ensures Ran(old(log), log, Destructor)
    {
      hide Actor.Valid, Actor.View, Ran;
      if id in running { FailReply(id); }
      ghost var failed := log;
      var panicked := DropUserValue();
      RanWithin(old(log), failed, log, log, Destructor);
      ghost var dropped := log;
      RetireReply(id);
      RanWithin(old(log), old(log), dropped, log, Destructor);
    }

    /** Destroys every stored reply. */
    method ClearReplies()
      requires Valid() && Contained() && Rested() && !Soft(control.mode)
      modifies control, this`arrived, this`calls, this`abandoned, this`inbox, this`reserved, this`gone, this`kids,
        this`spawned, this`crashed, this`running, this`failing, this`answers, this`slots, this`log
      ensures Valid() && Contained() && Rested() && Onward() && running == {} && slots == {} && kids == old(kids)
      ensures old(control.mode) != Running ==> inbox == old(inbox)
      ensures old(slots) != {} ==> Ran(old(log), log, Destructor)
    {
      hide Actor.Valid, Actor.View;
      while slots != {}
        invariant !Soft(control.mode)
        invariant Valid() && Contained() && Rested() && Onward() && kids == old(kids)
        invariant old(control.mode) != Running ==> inbox == old(inbox)
        invariant slots <= old(slots) && (slots != old(slots) ==> Ran(old(log), log, Destructor))
        decreases slots
      {
        var id :| id in slots;
        ghost var before := log;
        DropReply(id);
        RanWithin(old(log), before, log, log, Destructor);
      }
      OpenIsStored();
    }

    lemma OpenIsStored()
      requires Valid() && slots == {}
      ensures running == {} && failing == {}
    {
      Reachable();
      assert forall id :: id in running ==> Open(View().mail, id);
      assert forall id :: id in failing ==> Open(View().mail, id);
    }

    // --------------------------------------------------------------- discard

    /** Rejects the next accepted envelope, if there is one. */
    method TryDiscard() returns (more: bool)
      requires Valid() && Contained() && Rested() && !Dispatching(control.mode)
      modifies control, this`arrived, this`calls, this`abandoned, this`inbox, this`reserved, this`gone, this`kids,
        this`spawned, this`crashed, this`hand, this`answers, this`settled, this`log
      ensures Valid() && Contained() && Rested() && Onward() && kids == old(kids)
      ensures more <==> old(inbox) != []
      ensures more ==> inbox == old(inbox)[1..] && settled == old(settled) + [Settlement(old(inbox)[0], Discarded)]
      ensures more ==> Ran(old(log), log, Destructor)
      ensures !more ==> inbox == [] && settled == old(settled)
      ensures if more then Untaken(old(log) + [Receive], log) else log == old(log)
    {
      hide Actor.Valid, Actor.View, Ran;
      if inbox == [] { return false; }
      TakeEnvelope();
      ghost var taken := log;
      RejectTaken();
      RanWithin(old(log), taken, log, log, Destructor);
      more := true;
    }

    /** The envelope in hand is rejected under the mode of that moment, and destroyed. */
    method RejectTaken()
      requires Valid() && Contained() && hand.Some? && failing == {} && !Dispatching(control.mode)
      modifies control, this`arrived, this`calls, this`abandoned, this`inbox, this`reserved, this`gone, this`kids,
        this`spawned, this`crashed, this`hand, this`answers, this`settled, this`log
      ensures Valid() && Contained() && Rested() && Onward() && kids == old(kids) && inbox == old(inbox)
      ensures settled == old(settled) + [Settlement(old(hand.value), Discarded)]
      ensures Untaken(old(log), log) && Ran(old(log), log, Destructor)
    {
      hide Actor.Valid, Actor.View, Untaken, Ran;
      Interfere();
      ghost var before := log;
      DiscardEnvelope();
      DiscardTakesNothing(before);
      UntakenOn(old(log), before, log);
      ghost var rejected := log;
      var panicked := DropUserValue();
      UntakenOn(old(log), rejected, log);
      RanWithin(old(log), rejected, log, log, Destructor);
    }

    /** Other threads may run; then the actor reads the mode. */
    method Reread() returns (mode: Mode)
      requires Valid() && Contained()
      modifies control, this`arrived, this`calls, this`abandoned, this`inbox, this`reserved, this`gone,
        this`observed, this`stance, this`log
      ensures Valid() && Contained() && Onward() && (old(control.mode) != Running ==> inbox == old(inbox))
      ensures old(log) < log && log[|log| - 1] == Observe
      ensures control.mode == old(control.mode) ==> control.permit == old(control.permit)
      ensures mode == control.mode && observed == mode && stance == Fresh
      ensures Untaken(old(log), log) && ModeAt(log, |log| - 1) == mode
      ensures old(control.permit) ==> control.permit
    {
      hide Actor.Valid, Actor.View;
      Interfere();
      mode := ReadMode();
    }

    /** Rejects one envelope if the expected mode is read first: `None` means one was rejected. */
    method SelectOne(expected: Mode) returns (r: Option<DiscardOutcome>)
      requires Valid() && Contained() && Rested() && !Dispatching(control.mode)
      modifies control, this`arrived, this`calls, this`abandoned, this`inbox, this`reserved, this`gone, this`kids,
        this`spawned, this`crashed, this`hand, this`answers, this`settled, this`log, this`observed, this`stance
      ensures Valid() && Contained() && Rested() && Onward() && kids == old(kids)
      ensures |old(inbox)| <= |inbox| + 1 && DiscardedUpTo(old(inbox), old(settled), inbox, settled)
      ensures SelectedUnder(old(log), log, expected)
      ensures r == None ==> |inbox| < |old(inbox)|
      ensures r == Some(Emptied) ==> inbox == [] && old(inbox) == []
      ensures r == Some(ModeChanged)
              ==> control.mode != expected && log[|log| - 1] == Observe && observed == control.mode
    {
      hide Actor.Valid, Actor.View, Untaken, SelectedUnder, DiscardedUpTo, Thrown, Ran;
      NothingDiscardedYet(inbox, settled);
      var mode := Reread();
      UntakenIsSelected(old(log), log, expected);
      if mode != expected { return Some(ModeChanged); }
      var more := RejectNext(old(log), expected);
      r := if more then None else Some(Emptied);
    }

    /** The mode read since `from` was the expected one: other threads run, then one envelope is rejected. */
    method RejectNext(ghost from: seq<Event>, expected: Mode) returns (more: bool)
      requires Valid() && Contained() && Rested() && !Dispatching(control.mode)
      requires Untaken(from, log) && from < log && log[|log| - 1] == Observe && ModeAt(log, |log| - 1) == expected
      modifies control, this`arrived, this`calls, this`abandoned, this`inbox, this`reserved, this`gone, this`kids,
        this`spawned, this`crashed, this`hand, this`answers, this`settled, this`log
      ensures Valid() && Contained() && Rested() && Onward() && kids == old(kids)
      ensures DiscardedUpTo(old(inbox), old(settled), inbox, settled) && SelectedUnder(from, log, expected)
      ensures if more then |inbox| + 1 == |old(inbox)| else inbox == [] && old(inbox) == []
    {
      hide Actor.Valid, Actor.View, Untaken, SelectedUnder, DiscardedUpTo, Thrown, Ran;
      NothingDiscardedYet(inbox, settled);
      ghost var read := log;
      Interfere();
      ghost var gap := log;
      UntakenOn(from, read, gap);
      more := TryDiscard();
      if more {
        DiscardedOne(old(inbox), old(settled), inbox, settled);
        SelectedOnce(from, read, gap, log, expected);
      } else {
        UntakenIsSelected(from, log, expected);
      }
    }

    /** One round of a discard pass: the mode is read before the selection and again after it. */
    method DiscardStep(expected: Mode) returns (r: Option<DiscardOutcome>)
      requires Valid() && Contained() && Rested() && !Dispatching(control.mode)
      modifies control, this`arrived, this`calls, this`abandoned, this`inbox, this`reserved, this`gone, this`kids,
        this`spawned, this`crashed, this`hand, this`answers, this`settled, this`log, this`observed, this`stance
      ensures Valid() && Contained() && Rested() && Onward() && kids == old(kids)
      ensures |old(inbox)| <= |inbox| + 1 && DiscardedUpTo(old(inbox), old(settled), inbox, settled)
      ensures SelectedUnder(old(log), log, expected)
      ensures r == None ==> |inbox| < |old(inbox)| && observed == expected
      ensures r == Some(Emptied) ==> inbox == [] && old(inbox) == []
      // A changed mode ends the pass at once: reading it is the last event.
      ensures r == Some(ModeChanged)
              ==> control.mode != expected && log[|log| - 1] == Observe && observed == control.mode
    {
      hide Actor.Valid, Actor.View, Untaken, SelectedUnder, DiscardedUpTo, Thrown;
      r := SelectOne(expected);
      if r == None {
        ghost var selected := log;
        var mode := Reread();
        UntakenIsSelected(selected, log, expected);
        SelectedOn(old(log), selected, log, expected);
        r := if mode != expected then Some(ModeChanged) else None;
      }
    }

    /** One round and, every `TEARDOWN_DROP_BUDGET` rejections, one yield to the executor. */
    method DiscardRound(expected: Mode, dropped: nat)
      returns (r: Option<DiscardOutcome>, next: nat, paused: nat, alive: bool)
      requires Valid() && Contained() && Rested() && !Dispatching(control.mode) && dropped < TEARDOWN_DROP_BUDGET
      modifies control, this`arrived, this`calls, this`abandoned, this`inbox, this`reserved, this`gone, this`kids,
        this`spawned, this`crashed, this`hand, this`answers, this`settled, this`log, this`observed, this`stance,
        this`fuel
      ensures Valid() && Contained() && Rested() && Onward() && kids == old(kids)
      ensures !alive ==> fuel == 0
      ensures DiscardedUpTo(old(inbox), old(settled), inbox, settled) && SelectedUnder(old(log), log, expected)
      ensures r == None && alive ==> |inbox| < |old(inbox)| && next < TEARDOWN_DROP_BUDGET
      ensures r == None ==> next + TEARDOWN_DROP_BUDGET * paused == dropped + |old(inbox)| - |inbox|
      ensures r == Some(Emptied) ==> inbox == [] && old(inbox) == []
      ensures r == Some(ModeChanged)
              ==> control.mode != expected && log[|log| - 1] == Observe && observed == control.mode
      ensures r.Some? ==> next == dropped && paused == 0
      // Every pause but a last one is a yield from which the task was resumed.
      ensures r.Some? || alive ==> old(fuel) - fuel == paused
    {
      hide Actor.Valid, Actor.View, DiscardedUpTo, Thrown, SelectedUnder, Untaken;
      next, paused, alive := dropped, 0, true;
      r := DiscardStep(expected);
      if r.Some? { return; }
      assert |inbox| == |old(inbox)| - 1;
      next := next + 1;
      if next == TEARDOWN_DROP_BUDGET {
        next, paused := 0, 1;
        ghost var before := log;
        alive := Suspend();
        UntakenIsSelected(before, log, expected);
        SelectedOn(old(log), before, log, expected);
      }
    }

    /**
      Closes the inbox and rejects its envelopes, giving up as soon as the mode is not
      the expected one.  `None` means the task was dropped at one of its yields.
     */
    method CloseAndDiscard(expected: Mode) returns (r: Option<DiscardOutcome>, pauses: nat)
      requires Valid() && Contained() && Rested() && !Dispatching(control.mode)
      modifies control, this`arrived, this`calls, this`abandoned, this`inbox, this`reserved, this`gone, this`kids,
        this`spawned, this`crashed, this`hand, this`answers, this`settled, this`log, this`observed, this`stance,
        this`fuel, this`closed
      ensures Valid() && Contained() && Rested() && Onward() && kids == old(kids) && closed
      ensures r == None ==> fuel == 0
      // Exactly a prefix of the queue was settled, in order, each envelope once.
      ensures DiscardedUpTo(old(inbox), old(settled), inbox, settled)
      // No envelope is selected after a changed mode was read.
      ensures SelectedUnder(old(log), log, expected)
      ensures r == Some(Emptied) ==> inbox == [] && pauses == |old(inbox)| / TEARDOWN_DROP_BUDGET
      ensures r.Some? ==> old(fuel) - fuel == pauses
      ensures r == Some(ModeChanged)
              ==> control.mode != expected && log[|log| - 1] == Observe && observed == control.mode
    {
      hide Actor.Valid, Actor.View, DiscardedUpTo, Thrown, SelectedUnder, Untaken;
      CloseInbox();
      var dropped: nat := 0;
      pauses := 0;
      NothingDiscardedYet(inbox, settled);
      CloseSelectsNothing(old(log), expected);
      while true
        invariant Valid() && Contained() && Rested() && Onward() && kids == old(kids) && closed
        invariant DiscardedUpTo(old(inbox), old(settled), inbox, settled) && SelectedUnder(old(log), log, expected)
        invariant old(fuel) - fuel == pauses
        invariant dropped < TEARDOWN_DROP_BUDGET && dropped + TEARDOWN_DROP_BUDGET * pauses == |old(inbox)| - |inbox|
        decreases |inbox|
      {
        ghost var left, now, before := inbox, settled, log;
        var paused, alive;
        r, dropped, paused, alive := DiscardRound(expected, dropped);
        pauses := pauses + paused;
        DiscardMore(old(inbox), old(settled), left, now, inbox, settled);
        SelectedOn(old(log), before, log, expected);
        if r.Some? || !alive { return; }
      }
    }

    // ----------------------------------------------------- guarded lifecycle work

    /** The lifecycle arm of a biased select: it fires, or the actor goes on under the mode it has read. */
    method PollHint() returns (fired: bool)
      requires Valid() && Contained() && stance != Notified
      modifies control, this`arrived, this`calls, this`abandoned, this`inbox, this`reserved, this`gone, this`stance,
        this`log
      ensures Valid() && Contained() && Onward() && (old(control.mode) != Running ==> inbox == old(inbox))
      ensures fired ==> stance == Notified && !control.permit
      ensures fired && control.mode == old(control.mode) ==> old(control.permit)
      ensures !fired ==> stance == Passed && observed == control.mode
      ensures old(control.permit) ==> fired
    {
      hide Actor.Valid, Actor.View;
      Interfere();
      fired := control.permit;
      if fired { ConsumeHint(); } else { PassHint(); }
    }

    /** The mode has left the cooperative part of `graceful`, or is still in it. */
    ghost predicate Under(graceful: Mode)
      reads control
    {
      control.mode == graceful || Rank(control.mode) == 2
    }

    /** The children were told to stop, and cleanup may begin as soon as they have exited. */
    ghost predicate ReadyFor(job: Job)
      reads this, control
    {
      match job
      case StopJob(reason) =>
        && inbox == [] && running == {} && slots == {} && shutdownSeen
        && (!stopEntered ==> kids == {})
        && (reason == Stopped || reason == Drained)
        && Under(GracefulMode(reason))
      case ChildrenJob(_) => control.mode != Running && !stopEntered
      case _ => Live()
    }

    /** One poll of the work; its first poll enters the hook. */
    method PollJob(job: Job) returns (poll: JobPoll)
      requires Valid() && Contained() && Rested() && Rank(control.mode) <= 2 && stance == Passed && Soft(observed)
      requires ReadyFor(job)
      requires job.StopJob? ==> observed == GracefulMode(job.reason)
      requires !crashed
      modifies control, this`arrived, this`calls, this`abandoned, this`inbox, this`reserved, this`gone, this`kids,
        this`spawned, this`crashed, this`subtree, this`stopEntered, this`log
      ensures Valid() && Onward() && ReadyFor(job)
      ensures if poll == JobPanics then crashed else Contained() && crashed == old(crashed)
      ensures if job.ChildrenJob? then poll == JobPending ==> !(kids <= gone) else Ran(old(log), log, JobCode(job))
      ensures job.StopJob? ==> stopEntered && kids == old(kids)
      ensures !job.StopJob? ==> stopEntered == old(stopEntered)
      ensures job.ChildrenJob? && poll == JobDone ==> kids == {}
      ensures subtree == old(subtree) || (job.ChildrenJob? && subtree == Unconfirmed)
    {
      hide Actor.Valid, Actor.View, Ran;
      match job
      case StopJob(reason) =>
        if !stopEntered { BeginStop(reason); }
        ghost var entered := log;
        var panics := UserCode(StopHook);
        RanWithin(old(log), entered, log, log, StopHook);
        var done: bool := *;
        poll := if panics then JobPanics else if done then JobDone else JobPending;
      case ChildrenJob(_) =>
        Interfere();
        assert control.mode != Running;
        if kids <= gone {
          var worst: SubtreeStatus := *;
          ClearChildren(worst);
          poll := JobDone;
        } else {
          poll := JobPending;
        }
      case _ =>
        var panics := UserCode(JobCode(job));
        var done: bool := *;
        poll := if panics then JobPanics else if done then JobDone else JobPending;
    }

    /** The first poll of the cleanup work enters its hook. */
    method BeginStop(reason: ExitReason)
      requires Valid() && Contained() && Rested() && Rank(control.mode) <= 2 && stance == Passed && !stopEntered
      requires ReadyFor(StopJob(reason)) && !crashed && observed == GracefulMode(reason)
      modifies this`stopEntered, this`log
      ensures Valid() && Contained() && stopEntered && log == old(log) + [EnterStop(reason)]
    {
      hide Actor.Valid, Actor.View;
      QuietNow();
      UnreadIsHinted();
      EnterStopHook(reason);
    }

    lemma QuietNow()
      requires inbox == [] && running == {} && slots == {} && Rested()
      ensures Quiet(View().mail)
    {
    }

    /** A mode the actor has not read has left its hint. */
    lemma UnreadIsHinted()
      requires Valid() && stance != Notified
      ensures control.mode == observed || control.permit
    {
      Reachable();
    }

    /** Reads the mode if it is due, then offers the lifecycle arm of the select. */
    method Attend(job: Job, reread: bool) returns (turn: Attention)
      requires Valid() && Contained() && Rank(control.mode) <= 2 && ReadyFor(job)
      requires !reread ==> Soft(observed) && stance != Notified
      modifies control, this`arrived, this`calls, this`abandoned, this`inbox, this`reserved, this`gone,
        this`observed, this`stance, this`log
      ensures Valid() && Contained() && Onward() && ReadyFor(job)
      ensures turn == Cut ==> !Soft(control.mode)
      ensures turn != Fired ==> stance != Notified
      ensures turn == Fired && control.mode == old(control.mode) ==> old(control.permit) && !control.permit
      ensures turn == Free ==> Soft(observed) && observed == control.mode && stance == Passed
      ensures turn == Free && job.StopJob? ==> observed == GracefulMode(job.reason)
      ensures reread && !Soft(old(control.mode)) ==> turn == Cut
      ensures turn == Free ==> !crashed
    {
      hide Actor.Valid, Actor.View;
      if reread {
        var mode := Reread();
        if !Soft(mode) { return Cut; }
      }
      var fired := PollHint();
      turn := if fired then Fired else Free;
    }

    /** Other threads run between the two arms of the select. */
    method BetweenArms(job: Job)
      requires Valid() && Contained() && Rank(control.mode) <= 2 && ReadyFor(job)
      modifies control, this`arrived, this`calls, this`abandoned, this`inbox, this`reserved, this`gone, this`log
      ensures Valid() && Contained() && Onward() && ReadyFor(job)
    {
      hide Actor.Valid, Actor.View;
      Interfere();
    }

    /**
      One round of the guard: attend to the lifecycle, then poll the work.  A mode that
      changes between the two arms does not keep the work from this one poll.
     */
    method AwaitRound(job: Job, reread: bool) returns (r: Option<Work>, fired: bool)
      requires Valid() && Contained() && Rested() && Rank(control.mode) <= 2 && ReadyFor(job)
      requires !reread ==> Soft(observed) && stance != Notified
      modifies control, this`arrived, this`calls, this`abandoned, this`inbox, this`reserved, this`gone, this`kids,
        this`spawned, this`crashed, this`subtree, this`observed, this`stance, this`stopEntered, this`log
      ensures Valid() && Contained() && Onward() && ReadyFor(job)
      ensures r.Some? && r != Some(Done) ==> !Soft(control.mode)
      ensures r.Some? ==> !fired
      ensures !job.StopJob? ==> stopEntered == old(stopEntered)
      ensures job.StopJob? && r == Some(Done) ==> stopEntered
      ensures job.StopJob? ==> kids == old(kids)
      ensures job.ChildrenJob? && r == Some(Done) ==> kids == {}
      // Unless the hint fired or the mode was hard, the work was polled.
      ensures !fired && (r == None || r == Some(Done)) && !job.ChildrenJob? ==> Ran(old(log), log, JobCode(job))
      ensures !fired && r == None && job.ChildrenJob? ==> !(kids <= gone)
      ensures r.Some? || !fired ==> stance != Notified
      ensures r == None && !fired ==> Soft(observed)
      ensures r == None && fired && control.mode == old(control.mode) ==> old(control.permit) && !control.permit
      ensures subtree == old(subtree) || (job.ChildrenJob? && subtree == Unconfirmed)
      ensures r.Some? ==> Ran(old(log), log, Destructor)
      ensures r == Some(Work.Panicked) || r == Some(DropPanicked) ==> crashed
      ensures reread && !Soft(old(control.mode)) ==> r == Some(Work.Killed) && stopEntered == old(stopEntered)
    {
      hide Actor.Valid, Actor.View, Actor.ReadyFor, Ran;
      var turn := Attend(job, reread);
      if turn == Cut {
        ghost var cut := log;
        var dropped := DropJob(job);
        RanWithin(old(log), cut, log, log, Destructor);
        return Some(Work.Killed), false;
      }
      if turn == Fired { return None, true; }
      fired := false;
      BetweenArms(job);
      ghost var attended := log;
      r := ServeJob(job);
      if !job.ChildrenJob? { RanWithin(old(log), attended, log, log, JobCode(job)); }
      if r.Some? { RanWithin(old(log), attended, log, log, Destructor); }
    }

    /** The second arm of the select: the work is polled, and dropped when it has ended. */
    method ServeJob(job: Job) returns (r: Option<Work>)
      requires Valid() && Contained() && Rested() && Rank(control.mode) <= 2 && stance == Passed && Soft(observed)
      requires ReadyFor(job)
      requires job.StopJob? ==> observed == GracefulMode(job.reason)
      requires !crashed
      modifies control, this`arrived, this`calls, this`abandoned, this`inbox, this`reserved, this`gone, this`kids,
        this`spawned, this`crashed, this`subtree, this`stopEntered, this`log
      ensures Valid() && Contained() && Onward() && ReadyFor(job)
      ensures r.Some? && r != Some(Done) ==> !Soft(control.mode)
      ensures if job.StopJob? then stopEntered && kids == old(kids) else stopEntered == old(stopEntered)
      ensures if job.ChildrenJob? then r == None ==> !(kids <= gone) else Ran(old(log), log, JobCode(job))
      ensures job.ChildrenJob? && r == Some(Done) ==> kids == {}
      ensures subtree == old(subtree) || (job.ChildrenJob? && subtree == Unconfirmed)
      ensures r.Some? ==> Ran(old(log), log, Destructor)
      ensures r == Some(Work.Panicked) || r == Some(DropPanicked) ==> crashed
      ensures r != Some(Work.Killed)
    {
      hide Actor.Valid, Actor.View, Actor.ReadyFor, Ran;
      var poll := PollJob(job);
      ghost var polled := log;
      if poll == JobPending { return None; }
      r := EndJob(job, poll);
      RanWithin(old(log), polled, log, log, Destructor);
      if !job.ChildrenJob? { RanWithin(old(log), old(log), polled, log, JobCode(job)); }
    }

    /** The pending work is suspended; nothing it relies on changes meanwhile. */
    method SuspendJob(job: Job) returns (resumed: bool)
      requires Valid() && Contained() && Rank(control.mode) <= 2 && ReadyFor(job)
      modifies control, this`arrived, this`calls, this`abandoned, this`inbox, this`reserved, this`gone, this`fuel,
        this`log
      ensures Valid() && Contained() && Onward() && ReadyFor(job)
      ensures if resumed then fuel < old(fuel) else fuel == 0
    {
      hide Actor.Valid, Actor.View;
      resumed := Suspend();
    }

    /**
      Polls the work until it ends, rereading the mode after every hint; a hard mode
      ends it first.  `None` means the task was dropped while the work was pending.
     */
    method AwaitWork(job: Job) returns (r: Option<Work>)
      requires Valid() && Contained() && Rested() && Rank(control.mode) <= 2 && ReadyFor(job) && !stopEntered
      modifies control, this`arrived, this`calls, this`abandoned, this`inbox, this`reserved, this`gone, this`kids,
        this`spawned, this`crashed, this`subtree, this`observed, this`stance, this`stopEntered, this`log, this`fuel
      ensures Valid() && Contained() && Onward() && ReadyFor(job)
      ensures r == None ==> fuel == 0
      ensures r.Some? && r != Some(Done) ==> !Soft(control.mode)
      ensures !job.StopJob? ==> !stopEntered
      ensures job.StopJob? && r == Some(Done) ==> stopEntered
      ensures job.StopJob? ==> kids == old(kids)
      ensures job.ChildrenJob? && r == Some(Done) ==> kids == {}
      ensures (r == None || r == Some(Done)) && !job.ChildrenJob? ==> Ran(old(log), log, JobCode(job))
      ensures r.Some? ==> stance != Notified
      ensures subtree == old(subtree) || (job.ChildrenJob? && subtree == Unconfirmed)
      ensures r.Some? ==> Ran(old(log), log, Destructor)
      ensures r == Some(Work.Panicked) || r == Some(DropPanicked) ==> crashed
      ensures !Soft(old(control.mode)) ==> r == Some(Work.Killed) && stopEntered == old(stopEntered)
    {
      hide Actor.Valid, Actor.View, Actor.ReadyFor, Ran;
      var reread := true;
      while true
        invariant Valid() && Contained() && Onward() && ReadyFor(job)
        invariant !reread ==> Soft(observed) && stance != Notified
        invariant !job.StopJob? ==> stopEntered == old(stopEntered)
        invariant subtree == old(subtree) || (job.ChildrenJob? && subtree == Unconfirmed)
        invariant job.StopJob? ==> kids == old(kids)
        invariant !Soft(old(control.mode)) ==> reread && stopEntered == old(stopEntered)
        decreases fuel, 2 - Rank(control.mode), if control.permit then 1 else 0
      {
        ghost var before := log;
        r, reread := AwaitRound(job, reread);
        ghost var after := log;
        if !reread && (r == None || r == Some(Done)) && !job.ChildrenJob? {
          RanWithin(old(log), before, after, log, JobCode(job));
        }
        if r.Some? {
          RanWithin(old(log), before, log, log, Destructor);
          return;
        }
        if !reread {
          var resumed := SuspendJob(job);
          if !job.ChildrenJob? { RanWithin(old(log), before, after, log, JobCode(job)); }
          if !resumed { return; }
        }
      }
    }

    /** The future of the work is destroyed; nothing it relied on changes. */
    method DropJob(job: Job) returns (panicked: bool)
      requires Valid() && Contained() && Rank(control.mode) <= 2 && ReadyFor(job)
      modifies control, this`arrived, this`calls, this`abandoned, this`inbox, this`reserved, this`gone, this`kids,
        this`spawned, this`crashed, this`log
      ensures Valid() && Contained() && Onward() && ReadyFor(job) && kids == old(kids)
      ensures panicked ==> !Soft(control.mode)
      ensures Ran(old(log), log, Destructor)
      ensures panicked ==> crashed
      ensures old(crashed) ==> crashed
    {
      hide Actor.Valid, Actor.View, Ran;
      panicked := DropUserValue();
    }

    /** The work ended: a panic while polling or while dropping its future fails the actor. */
    method EndJob(job: Job, poll: JobPoll) returns (r: Option<Work>)
      requires Valid() && Rank(control.mode) <= 2 && ReadyFor(job) && poll != JobPending
      requires if poll == JobPanics then crashed else Contained()
      modifies control, this`arrived, this`calls, this`abandoned, this`inbox, this`reserved, this`gone, this`kids,
        this`spawned, this`crashed, this`log
      ensures Valid() && Contained() && Onward() && ReadyFor(job) && kids == old(kids)
      ensures poll == JobPanics ==> r == Some(Work.Panicked)
      ensures poll == JobDone ==> r == Some(Done) || r == Some(DropPanicked)
      ensures r.Some? && r != Some(Done) ==> !Soft(control.mode)
      ensures Ran(old(log), log, Destructor)
      ensures r != Some(Done) ==> crashed
    {
      hide Actor.Valid, Actor.View, Ran;
      if poll == JobPanics {
        CommitFailure();
      }
      ghost var contained := log;
      var panicked := DropJob(job);
      RanWithin(old(log), contained, log, log, Destructor);
      r := Some(if poll == JobPanics then Work.Panicked else if panicked then DropPanicked else Done);
    }

    // ---------------------------------------------------------------- turns

    /** The reply's future is ready: completion commits, the future is destroyed, and its slot goes. */
    method FinishReply(id: nat, stranded: bool)
      requires Valid() && Contained() && Rested() && id in running && id in slots
      modifies control, this`arrived, this`calls, this`abandoned, this`inbox, this`reserved, this`gone, this`kids,
        this`spawned, this`crashed, this`running, this`answers, this`slots, this`log
      ensures Valid() && Contained() && Rested() && Onward() && Ran(old(log), log, Destructor)
      ensures running == old(running) - {id} && slots == if stranded then old(slots) else old(slots) - {id}
      ensures old(control.mode) != Running ==> inbox == old(inbox)
    {
      hide Actor.Valid, Actor.View, Ran;
      CompleteReply(id);
      ghost var completed := log;
      var panicked := DropUserValue();
      ghost var dropped := log;
      if !stranded { RetireReply(id); }
      RanWithin(old(log), completed, dropped, log, Destructor);
    }

    /** One poll of a stored reply; a finished one normally leaves the scheduler. */
    method PollReply(id: nat) returns (unwound: bool)
      requires Valid() && Contained() && Rested() && id in running && id in slots && Live()
      requires !crashed
      modifies control, this`arrived, this`calls, this`abandoned, this`inbox, this`reserved, this`gone, this`kids,
        this`spawned, this`crashed, this`running, this`failing, this`answers, this`slots, this`log
      ensures Valid() && Contained() && Rested() && Onward() && running <= old(running) && slots <= old(slots)
      ensures old(control.mode) != Running ==> inbox == old(inbox)
      ensures unwound ==> !Soft(control.mode)
      ensures Ran(old(log), log, Handler)
      ensures id !in slots ==> Ran(old(log), log, Destructor)
      ensures unwound ==> crashed && id !in running
    {
      hide Actor.Valid, Actor.View, Ran;
      unwound := UserCode(Handler);
      ghost var ran := log;
      if unwound {
        FailReply(id);
        RanWithin(old(log), old(log), ran, log, Handler);
        return;
      }
      var finished: bool, stranded: bool := *, *;
      if finished {
        FinishReply(id, stranded);
        RanWithin(old(log), ran, log, log, Destructor);
      }
      RanWithin(old(log), old(log), ran, log, Handler);
    }

    /** Moves the oldest accepted envelope out of the mailbox: skipped, dispatched or refused. */
    method DispatchEnvelope() returns (unwound: bool, fate: Fate)
      requires Valid() && Contained() && Rested() && inbox != [] && Live()
      modifies control, this`arrived, this`calls, this`abandoned, this`inbox, this`reserved, this`gone, this`kids,
        this`spawned, this`crashed, this`hand, this`settled, this`running, this`failing, this`answers, this`slots,
        this`log
      ensures Valid() && Contained() && Rested() && Onward() && (unwound ==> !Soft(control.mode))
      ensures settled == old(settled) + [Settlement(old(inbox)[0], fate)] && fate != Discarded
      ensures fate == Skipped ==> old(inbox)[0] in calls && old(inbox)[0] in abandoned
      ensures old(inbox)[0] in old(calls) && old(inbox)[0] in old(abandoned) ==> fate == Skipped
      ensures fate == Dispatched ==> Dispatching(old(control.mode))
      ensures fate == Refused ==> !Dispatching(control.mode)
      ensures fate == Dispatched ==> Ran(old(log), log, Handler)
      ensures old(control.mode) != Running ==> inbox == old(inbox)[1..]
      ensures fate != Dispatched ==> Ran(old(log), log, Destructor)
      ensures unwound ==> crashed
    {
      hide Actor.Valid, Actor.View, Ran;
      TakeEnvelope();
      var id := hand.value;
      Interfere();
      if id in calls && id in abandoned {
        fate := Skipped;
        ghost var taken := log;
        SkipAbandoned(id);
        RanWithin(old(log), taken, log, log, Destructor);
        unwound := false;
      } else {
        ghost var taken := log;
        unwound, fate := BeginDispatch(id);
        RanWithin(old(log), taken, log, log, if fate == Dispatched then Handler else Destructor);
      }
    }

    /** An abandoned call is rejected under the mode of that moment. */
    method SkipAbandoned(id: nat)
      requires Valid() && Contained() && hand == Some(id) && failing == {} && id in calls && id in abandoned
      modifies control, this`arrived, this`calls, this`abandoned, this`inbox, this`reserved, this`gone, this`kids,
        this`spawned, this`crashed, this`hand, this`settled, this`answers, this`log
      ensures Valid() && Contained() && Rested() && Onward() && settled == old(settled) + [Settlement(id, Skipped)]
      ensures id in calls && id in abandoned
      ensures old(control.mode) != Running ==> inbox == old(inbox)
      ensures Ran(old(log), log, Destructor)
    {
      hide Actor.Valid, Actor.View, Ran;
      Interfere();
      SkipEnvelope();
      ghost var skipped := log;
      var panicked := DropUserValue();
      RanWithin(old(log), skipped, log, log, Destructor);
    }

    /** Dispatch commits, or loses against the cutoff. */
    method BeginDispatch(id: nat) returns (unwound: bool, fate: Fate)
      requires Valid() && Contained() && hand == Some(id) && failing == {} && Live()
      modifies control, this`arrived, this`calls, this`abandoned, this`inbox, this`reserved, this`gone, this`kids,
        this`spawned, this`crashed, this`hand, this`settled, this`running, this`failing, this`answers, this`slots,
        this`log
      ensures Valid() && Contained() && Rested() && Onward() && (unwound ==> !Soft(control.mode))
      ensures settled == old(settled) + [Settlement(id, fate)] && (fate == Dispatched || fate == Refused)
      ensures fate == Dispatched ==> Dispatching(old(control.mode))
      ensures fate == Refused ==> !Dispatching(control.mode)
      ensures fate == Dispatched ==> Ran(old(log), log, Handler)
      ensures old(control.mode) != Running ==> inbox == old(inbox)
      ensures fate != Dispatched ==> Ran(old(log), log, Destructor)
      ensures unwound ==> crashed
    {
      hide Actor.Valid, Actor.View, Ran;
      Interfere();
      if Dispatching(control.mode) {
        fate := Dispatched;
        CommitDispatch();
        ghost var committed := log;
        unwound := RunHandler(id);
        RanWithin(old(log), committed, log, log, Handler);
      } else {
        unwound, fate := false, Refused;
        ghost var lost := log;
        RefuseTaken(id);
        RanWithin(old(log), lost, log, log, Destructor);
      }
    }

    /** The envelope lost against the cutoff: it is answered and destroyed. */
    method RefuseTaken(id: nat)
      requires Valid() && Contained() && hand == Some(id) && failing == {} && !Dispatching(control.mode)
      modifies control, this`arrived, this`calls, this`abandoned, this`inbox, this`reserved, this`gone, this`kids,
        this`spawned, this`crashed, this`hand, this`settled, this`answers, this`log
      ensures Valid() && Contained() && Rested() && Onward() && settled == old(settled) + [Settlement(id, Refused)]
      ensures inbox == old(inbox) && !Dispatching(control.mode) && Ran(old(log), log, Destructor)
    {
      hide Actor.Valid, Actor.View, Ran;
      RefuseEnvelope();
      ghost var refused := log;
      var panicked := DropUserValue();
      RanWithin(old(log), refused, log, log, Destructor);
    }

    /** The handler is constructed; it may finish at once, be scheduled, or panic. */
    method RunHandler(id: nat) returns (unwound: bool)
      requires Valid() && Contained() && Rested() && id in running && id in slots && Live()
      requires !crashed
      modifies control, this`arrived, this`calls, this`abandoned, this`inbox, this`reserved, this`gone, this`kids,
        this`spawned, this`crashed, this`running, this`failing, this`answers, this`slots, this`log
      ensures Valid() && Contained() && Rested() && Onward() && (unwound ==> !Soft(control.mode))
      ensures old(control.mode) != Running ==> inbox == old(inbox)
      ensures Ran(old(log), log, Handler)
      ensures unwound ==> crashed && id !in slots
      ensures id !in running ==> id !in slots
    {
      hide Actor.Valid, Actor.View, Ran;
      unwound := UserCode(Handler);
      ghost var ran := log;
      var finished: bool := *;
      if unwound {
        FailReply(id);
        RetireReply(id);
      } else if finished {
        FinishReply(id, false);
      }
      RanWithin(old(log), old(log), ran, log, Handler);
    }

    /** One step of the scheduler within a turn: a message is dispatched or a reply is polled. */
    method TurnStep(receive: bool) returns (unwound: bool)
      requires Valid() && Contained() && Rested() && Live()
      requires !crashed
      modifies control, this`arrived, this`calls, this`abandoned, this`inbox, this`reserved, this`gone, this`kids,
        this`spawned, this`crashed, this`hand, this`settled, this`running, this`failing, this`answers, this`slots,
        this`log
      ensures Valid() && Contained() && Rested() && Onward() && (unwound ==> !Soft(control.mode))
      ensures !receive ==> settled == old(settled) && slots <= old(slots)
      ensures !receive && old(control.mode) != Running ==> inbox == old(inbox)
      ensures settled == old(settled) && running != {} ==> Ran(old(log), log, Handler)
      ensures unwound ==> crashed
    {
      hide Actor.Valid, Actor.View, Ran;
      Interfere();
      var dispatch: bool := *;
      unwound := false;
      if dispatch && receive && inbox != [] {
        var fate;
        unwound, fate := DispatchEnvelope();
      } else if running != {} {
        var id :| id in running;
        RunningIsStored(id);
        ghost var before := log;
        unwound := PollReply(id);
        RanWithin(old(log), before, log, log, Handler);
      }
    }

    lemma RunningIsStored(id: nat)
      requires Valid() && id in running
      ensures id in slots
    {
      Reachable();
      assert Open(View().mail, id);
    }

    /**
      One turn of the actor loop.  The biased select offers the lifecycle hint first;
      the scheduler then takes any number of steps, each after reading the expected mode, and
      reports how the turn ended.
      `None` means the task was suspended during the turn and dropped.
     */
    method ActorTurn(receive: bool, expected: Mode) returns (r: Option<Turn>)
      requires Valid() && Contained() && Rested() && Live() && stance != Notified && Soft(expected)
      modifies control, this`arrived, this`calls, this`abandoned, this`inbox, this`reserved, this`gone, this`kids,
        this`spawned, this`crashed, this`hand, this`settled, this`running, this`failing, this`answers, this`slots,
        this`stance, this`fuel, this`log
      ensures Valid() && Contained() && Rested() && Onward()
      ensures if r.Some? then fuel < old(fuel) else fuel == 0
      ensures r == Some(Unwound) ==> !Soft(control.mode)
      ensures !receive ==> settled == old(settled) && slots <= old(slots)
      ensures !receive && old(control.mode) != Running ==> inbox == old(inbox)
      ensures r == Some(InboxClosed) ==> closed && inbox == []
      ensures r.Some? && r.value.ChildEvent? ==> r.value.child in gone
      ensures r == Some(LifecycleHint) ==> stance == Notified || control.mode != expected
      ensures old(control.permit) ==> r == None || r == Some(LifecycleHint)
      ensures r == Some(Unwound) ==> crashed
    {
      hide Actor.Valid, Actor.View, Ran;
      var resumed := Suspend();
      if !resumed { return None; }
      var fired := PollHint();
      if fired { return Some(LifecycleHint); }
      var ended := TurnSteps(receive, expected);
      if ended.Some? { return ended; }
      var child: nat, status: SubtreeStatus := *, *;
      if child in gone { return Some(ChildEvent(child, status)); }
      if receive && closed && inbox == [] { return Some(InboxClosed); }
      return Some(Progress);
    }

    /** Any number of scheduler steps, each after reading the expected mode; a panic ends them. */
    method TurnSteps(receive: bool, expected: Mode) returns (ended: Option<Turn>)
      requires Valid() && Contained() && Rested() && Live() && Soft(expected)
      modifies control, this`arrived, this`calls, this`abandoned, this`inbox, this`reserved, this`gone, this`kids,
        this`spawned, this`crashed, this`hand, this`settled, this`running, this`failing, this`answers, this`slots,
        this`log
      ensures Valid() && Contained() && Rested() && Onward()
      ensures ended == None || ended == Some(LifecycleHint) || ended == Some(Unwound)
      ensures ended == Some(Unwound) ==> !Soft(control.mode) && crashed
      ensures ended == Some(LifecycleHint) ==> control.mode != expected
      ensures !receive ==> settled == old(settled) && slots <= old(slots)
      ensures !receive && old(control.mode) != Running ==> inbox == old(inbox)
    {
      hide Actor.Valid, Actor.View, Ran;
      var n: nat := *;
      while n > 0
        invariant Valid() && Contained() && Rested() && Onward()
        invariant !receive ==> settled == old(settled) && slots <= old(slots)
        invariant !receive && old(control.mode) != Running ==> inbox == old(inbox)
      {
        Interfere();
        if control.mode != expected { return Some(LifecycleHint); }
        var unwound := TurnStep(receive);
        if unwound { return Some(Unwound); }
        n := n - 1;
      }
      ended := None;
    }

    /** The hook's first entry is decided against the lifecycle cutoff. */
    method BeginChildHook(child: nat) returns (entered: bool)
      requires Valid() && Contained() && initEntered
      requires child in gone && child in spawned && child !in kids && child !in hooked
      modifies control, this`arrived, this`calls, this`abandoned, this`inbox, this`reserved, this`gone, this`hooked,
        this`log
      ensures Valid() && Contained() && Onward() && (old(control.mode) != Running ==> inbox == old(inbox) && !entered)
      ensures entered <==> control.mode == Running
      ensures hooked == if entered then old(hooked) + {child} else old(hooked)
    {
      hide Actor.Valid, Actor.View;
      Interfere();
      entered := control.BeginChildHook();
      if entered { EnterChildHook(child); }
    }

    /** A child-exit event is taken: the registration is reaped, and its hook enters before any cutoff. */
    method HandleChildExit(child: nat, status: SubtreeStatus) returns (r: Option<Work>)
      requires Valid() && Contained() && Rested() && Rank(control.mode) <= 2 && Live() && child in gone
      modifies control, this`arrived, this`calls, this`abandoned, this`inbox, this`reserved, this`gone, this`kids,
        this`spawned, this`crashed, this`subtree, this`hooked, this`fuel, this`observed, this`stance,
        this`stopEntered, this`log
      ensures Valid() && Contained() && Onward() && !stopEntered
      ensures r == None ==> fuel == 0
      ensures r.Some? && r != Some(Done) ==> !Soft(control.mode)
      ensures child !in old(kids) ==> r == Some(Done) && log == old(log)
      ensures child in old(kids) ==> old(log) + [Reap(child)] <= log
      ensures old(control.mode) != Running ==> inbox == old(inbox) && r == Some(Done)
      ensures hooked == old(hooked) || (old(control.mode) == Running && child in old(kids)
              && hooked == old(hooked) + {child})
      ensures child in old(kids) && hooked == old(hooked) ==> control.mode != Running
      ensures subtree == if child in old(kids) then Join(old(subtree), status) else old(subtree)
      ensures hooked != old(hooked) && (r == None || r == Some(Done)) ==> Ran(old(log), log, ChildHook)
      ensures r == Some(Work.Panicked) || r == Some(DropPanicked) ==> crashed
    {
      hide Actor.Valid, Actor.View, Ran;
      if child !in kids { return Some(Done); }
      HookIsNew(child);
      ReapChild(child, status);
      var entered := BeginChildHook(child);
      if !entered { return Some(Done); }
      ghost var begun := log;
      r := AwaitWork(ChildHookJob);
      if r == None || r == Some(Done) { RanWithin(old(log), begun, log, log, ChildHook); }
    }

    lemma HookIsNew(child: nat)
      requires Valid() && child in kids
      ensures child in spawned && child !in hooked
    {
      Reachable();
    }

    // -------------------------------------------------------------- shutdown

    /** The task may return this status: nothing is left to settle, and cleanup matches the mode. */
    ghost predicate Concluded(status: ExitStatus)
      reads this, control
    {
      && Rested() && inbox == [] && running == {} && slots == {} && kids == {}
      && 1 <= Rank(control.mode) <= 2 && status.reason != Aborted
      && (control.mode == Stopping ==> status.reason == Stopped && stopEntered)
      && (control.mode == Draining ==> status.reason == Drained && stopEntered)
      && status.subtree == subtree
    }

    /** Discards until the inbox is empty, following the mode once it turned hard. */
    method DiscardAll(first: Mode) returns (done: bool)
      requires Valid() && Contained() && Rested() && Rank(control.mode) == 2
      modifies control, this`arrived, this`calls, this`abandoned, this`inbox, this`reserved, this`gone, this`kids,
        this`spawned, this`crashed, this`hand, this`answers, this`settled, this`closed, this`observed, this`stance,
        this`fuel, this`log
      ensures Valid() && Contained() && Rested() && Onward() && kids == old(kids)
      ensures !done ==> fuel == 0
      ensures DiscardedUpTo(old(inbox), old(settled), inbox, settled)
      ensures done ==> inbox == []
    {
      hide Actor.Valid, Actor.View, DiscardedUpTo;
      var expected := first;
      NothingDiscardedYet(inbox, settled);
      while true
        invariant Valid() && Contained() && Rested() && Onward() && kids == old(kids)
        invariant DiscardedUpTo(old(inbox), old(settled), inbox, settled)
        decreases if expected != control.mode then 1 else 0
      {
        ghost var left, now := inbox, settled;
        var r, pauses := CloseAndDiscard(expected);
        DiscardMore(old(inbox), old(settled), left, now, inbox, settled);
        match r
        case None => return false;
        case Some(Emptied) => return true;
        case Some(ModeChanged) => expected := Reread();
      }
    }

    /** Waits for every retained child, outside any lifecycle guard. */
    method WaitAll() returns (done: bool)
      requires Valid() && Contained() && control.mode != Running
      modifies control, this`arrived, this`calls, this`abandoned, this`inbox, this`reserved, this`gone, this`kids,
        this`subtree, this`fuel, this`log
      ensures Valid() && Contained() && Onward() && inbox == old(inbox)
      ensures !done ==> fuel == 0
      ensures done ==> kids == {}
      ensures old(subtree) == Unconfirmed ==> subtree == Unconfirmed
      ensures old(kids <= gone) ==> done
    {
      hide Actor.Valid, Actor.View;
      while !(kids <= gone)
        invariant Valid() && Contained() && Onward() && inbox == old(inbox) && subtree == old(subtree)
        invariant old(kids <= gone) ==> kids <= gone
        decreases fuel
      {
        var resumed := Suspend();
        if !resumed { return false; }
      }
      var worst: SubtreeStatus := *;
      ClearChildren(worst);
      done := true;
    }

    /** The common end of both hard teardowns. */
    method TearDown(first: Mode) returns (done: bool)
      requires Valid() && Contained() && Rested() && Rank(control.mode) == 2
      modifies control, this`arrived, this`calls, this`abandoned, this`inbox, this`reserved, this`gone, this`kids,
        this`spawned, this`crashed, this`subtree, this`closed, this`hand, this`answers, this`settled, this`running,
        this`failing, this`slots, this`observed, this`stance, this`fuel, this`log
      ensures Valid() && Contained() && Rested() && Onward()
      ensures !done ==> fuel == 0
      ensures done ==> inbox == [] && running == {} && slots == {} && kids == {} && closed
      ensures closed
    {
      hide Actor.Valid, Actor.View, DiscardedUpTo;
      CloseInbox();
      ClearReplies();
      done := DiscardAll(first);
      if done { done := WaitAll(); }
    }

    method KillActor() returns (r: Option<ExitStatus>)
      requires Valid() && Contained() && Rested() && Rank(control.mode) == 2
      modifies control, this`arrived, this`calls, this`abandoned, this`inbox, this`reserved, this`gone, this`kids,
        this`spawned, this`crashed, this`subtree, this`closed, this`hand, this`answers, this`settled, this`running,
        this`failing, this`slots, this`observed, this`stance, this`fuel, this`log
      ensures Valid() && Contained() && Rested() && Onward()
      ensures r == None ==> fuel == 0
      ensures r.Some? ==> Concluded(r.value) && r.value.reason == ExitReason.Killed
      ensures closed
    {
      hide Actor.Valid, Actor.View;
      var done := TearDown(Killing);
      r := if done then Some(NewStatus(ExitReason.Killed, subtree)) else None;
    }

    method FailActor() returns (r: Option<ExitStatus>)
      requires Valid() && Contained() && Rested() && Rank(control.mode) == 2
      modifies control, this`arrived, this`calls, this`abandoned, this`inbox, this`reserved, this`gone, this`kids,
        this`spawned, this`crashed, this`subtree, this`closed, this`hand, this`answers, this`settled, this`running,
        this`failing, this`slots, this`observed, this`stance, this`fuel, this`log
      ensures Valid() && Contained() && Rested() && Onward() && Rank(control.mode) == 2
      ensures r == None ==> fuel == 0
      ensures r.Some? ==> Concluded(r.value)
      ensures r.Some? ==> r.value.reason == (if control.mode == Killing then ExitReason.Killed else ExitReason.Panicked)
      ensures closed
    {
      hide Actor.Valid, Actor.View;
      CommitFailure();
      var mode := Reread();
      // Aborting and Exited belong to the task's own drop and publication.
      assert mode == Killing || mode == Failing;
      var reason := if mode == Killing then ExitReason.Killed else ExitReason.Panicked;
      var first := Reread();
      var done := TearDown(first);
      r := if done then Some(NewStatus(reason, subtree)) else None;
    }

    /** Polls the stored replies until the scheduler is idle or a hard mode is read. */
    method FinishReplies() returns (r: Option<Work>)
      requires Valid() && Contained() && Rested() && 1 <= Rank(control.mode) <= 2 && Live()
      modifies control, this`arrived, this`calls, this`abandoned, this`inbox, this`reserved, this`gone, this`kids,
        this`spawned, this`crashed, this`running, this`failing, this`answers, this`slots, this`observed,
        this`stance, this`fuel, this`log
      ensures Valid() && Contained() && Rested() && Onward() && inbox == old(inbox)
      ensures r == None ==> fuel == 0
      ensures r == Some(Done) ==> slots == {} && running == {}
      ensures r.Some? && r != Some(Done) ==> Rank(control.mode) == 2
      ensures !Soft(old(control.mode)) && old(slots) != {} ==> r.Some? && r != Some(Done)
      ensures r == Some(Work.Killed) ==> control.mode == Killing
    {
      hide Actor.Valid, Actor.View, Ran;
      while slots != {}
        invariant Valid() && Contained() && Rested() && Onward() && inbox == old(inbox)
        invariant !Soft(old(control.mode)) ==> slots == old(slots)
        decreases fuel
      {
        r := RepliesRound();
        if r.Some? { return; }
        var resumed := Suspend();
        if !resumed { return None; }
      }
      OpenIsStored();
      r := Some(Done);
    }

    /** One round of `FinishReplies`: read the mode, offer the hint, then poll a reply. */
    method RepliesRound() returns (r: Option<Work>)
      requires Valid() && Contained() && Rested() && 1 <= Rank(control.mode) <= 2 && Live()
      modifies control, this`arrived, this`calls, this`abandoned, this`inbox, this`reserved, this`gone, this`kids,
        this`spawned, this`crashed, this`running, this`failing, this`answers, this`slots, this`observed,
        this`stance, this`log
      ensures Valid() && Contained() && Rested() && Onward() && inbox == old(inbox)
      // A round that ends without an answer polled a running reply, unless a hint came first.
      ensures r == None && running != {} ==> Ran(old(log), log, Handler) || stance == Notified
      ensures r.Some? ==> r != Some(Done) && Rank(control.mode) == 2
      ensures !Soft(old(control.mode)) ==> r.Some?
      ensures r == Some(Work.Killed) ==> control.mode == Killing
      ensures r == Some(Work.Panicked) ==> control.mode == Failing || crashed
      ensures r == None && old(control.permit) ==> stance == Notified
    {
      hide Actor.Valid, Actor.View, Ran;
      var mode := Reread();
      if mode == Killing { return Some(Work.Killed); }
      if mode == Failing { return Some(Work.Panicked); }
      r := None;
      var fired := PollHint();
      Interfere();
      if !fired && running != {} {
        var id :| id in running;
        RunningIsStored(id);
        ghost var before := log;
        var unwound := PollReply(id);
        RanWithin(old(log), before, log, log, Handler);
        if unwound { r := Some(Work.Panicked); }
      }
    }

    /** Children first, then the cleanup hook, each under the lifecycle guard. */
    method GracefulFinish(shutdown: Shutdown, reason: ExitReason) returns (r: Option<Work>)
      requires Valid() && Contained() && Rested() && shutdownSeen && Live()
      requires inbox == [] && running == {} && slots == {}
      requires (shutdown == Stop && reason == Stopped && Under(Stopping)) || (shutdown == Drain
              && reason == Drained && Under(Draining))
      modifies control, this`arrived, this`calls, this`abandoned, this`inbox, this`reserved, this`gone, this`kids,
        this`spawned, this`crashed, this`subtree, this`fuel, this`observed, this`stance, this`stopEntered, this`log
      ensures Valid() && Contained() && Onward() && inbox == []
      ensures r == None ==> fuel == 0
      ensures r == Some(Done) ==> stopEntered && kids == {} && Ran(old(log), log, StopHook)
      ensures r.Some? && r != Some(Done) ==> Rank(control.mode) == 2
      ensures !Soft(old(control.mode)) ==> r == Some(Work.Killed) && !stopEntered
    {
      hide Actor.Valid, Actor.View, Ran;
      r := AwaitWork(ChildrenJob(shutdown));
      if r == Some(Done) {
        ghost var waited := log;
        r := AwaitWork(StopJob(reason));
        if r == Some(Done) { RanWithin(old(log), waited, log, log, StopHook); }
      }
    }

    /** The hard teardown a cut-off piece of work leads to. */
    method CutShort(work: Work) returns (r: Option<ExitStatus>)
      requires Valid() && Contained() && Rested() && Rank(control.mode) == 2 && work != Done
      modifies control, this`arrived, this`calls, this`abandoned, this`inbox, this`reserved, this`gone, this`kids,
        this`spawned, this`crashed, this`subtree, this`closed, this`hand, this`answers, this`settled, this`running,
        this`failing, this`slots, this`observed, this`stance, this`fuel, this`log
      ensures Valid() && Contained() && Rested() && Onward() && (r.Some? ==> Concluded(r.value))
      ensures r == None ==> fuel == 0
      ensures r.Some? && (work == Work.Killed || control.mode == Killing) ==> r.value.reason == ExitReason.Killed
      ensures r.Some? && work != Work.Killed && control.mode == Failing ==> r.value.reason == ExitReason.Panicked
    {
      hide Actor.Valid, Actor.View, Actor.Concluded;
      if work == Work.Killed { r := KillActor(); } else { r := FailActor(); }
    }

    method StopActor() returns (r: Option<ExitStatus>)
      requires Valid() && Contained() && Rested() && Under(Stopping) && shutdownSeen && Live()
      modifies control, this`arrived, this`calls, this`abandoned, this`inbox, this`reserved, this`gone, this`kids,
        this`spawned, this`crashed, this`subtree, this`closed, this`hand, this`answers, this`settled, this`running,
        this`failing, this`slots, this`observed, this`stance, this`fuel, this`log, this`stopEntered
      ensures Valid() && Contained() && Rested() && Onward() && (r.Some? ==> Concluded(r.value))
      ensures r == None ==> fuel == 0
      ensures closed
      ensures !Soft(old(control.mode)) ==> !stopEntered
    {
      hide Actor.Valid, Actor.View, DiscardedUpTo, Actor.Concluded;
      var outcome, pauses := CloseAndDiscard(Stopping);
      match outcome
      case None => r := None;
      case Some(ModeChanged) =>
        var mode := Reread();
        // No graceful mode can be read here, and an aborted task is never polled again.
        assert mode == Killing || mode == Failing;
        r := CutShort(if mode == Killing then Work.Killed else Work.Panicked);
      case Some(Emptied) => r := StopEmptied();
    }

    /** The inbox is empty: finish what was dispatched, then clean up. */
    method StopEmptied() returns (r: Option<ExitStatus>)
      requires Valid() && Contained() && Rested() && Under(Stopping) && shutdownSeen && Live() && inbox == []
      modifies control, this`arrived, this`calls, this`abandoned, this`inbox, this`reserved, this`gone, this`kids,
        this`spawned, this`crashed, this`subtree, this`closed, this`hand, this`answers, this`settled, this`running,
        this`failing, this`slots, this`observed, this`stance, this`fuel, this`log, this`stopEntered
      ensures Valid() && Contained() && Rested() && Onward() && (r.Some? ==> Concluded(r.value))
      ensures r == None ==> fuel == 0
      ensures !Soft(old(control.mode)) ==> !stopEntered
    {
      hide Actor.Valid, Actor.View;
      var work := FinishReplies();
      if work == Some(Done) {
        work := GracefulFinish(Stop, Stopped);
      }
      r := Conclude(work, Stopped);
    }

    /** A graceful cleanup that went through is proposed as such; a cut one is torn down. */
    method Conclude(work: Option<Work>, reason: ExitReason) returns (r: Option<ExitStatus>)
      requires Valid() && Contained() && Rested()
      requires (reason == Stopped && Under(Stopping)) || (reason == Drained && Under(Draining))
      requires work == Some(Done) ==> stopEntered && kids == {} && inbox == [] && running == {} && slots == {}
      requires work.Some? && work != Some(Done) ==> Rank(control.mode) == 2
      requires work == None ==> fuel == 0
      modifies control, this`arrived, this`calls, this`abandoned, this`inbox, this`reserved, this`gone, this`kids,
        this`spawned, this`crashed, this`subtree, this`closed, this`hand, this`answers, this`settled, this`running,
        this`failing, this`slots, this`observed, this`stance, this`fuel, this`log
      ensures Valid() && Contained() && Rested() && Onward() && (r.Some? ==> Concluded(r.value))
      ensures r == None ==> fuel == 0
    {
      hide Actor.Valid, Actor.View;
      match work
      case None => r := None;
      case Some(Done) => r := Some(NewStatus(reason, subtree));
      case Some(cut) => r := CutShort(cut);
    }

    method DrainActor() returns (r: Option<ExitStatus>)
      requires Valid() && Contained() && Rested() && Under(Draining) && shutdownSeen && Live()
      modifies control, this`arrived, this`calls, this`abandoned, this`inbox, this`reserved, this`gone, this`kids,
        this`spawned, this`crashed, this`subtree, this`closed, this`hand, this`answers, this`settled, this`running,
        this`failing, this`slots, this`observed, this`stance, this`fuel, this`log, this`hooked, this`stopEntered
      ensures Valid() && Contained() && Rested() && Onward() && (r.Some? ==> Concluded(r.value))
      ensures r == None ==> fuel == 0
      ensures closed
      ensures !Soft(old(control.mode)) ==> !stopEntered
    {
      hide Actor.Valid, Actor.View, Actor.Concluded;
      CloseInbox();
      var work := DrainRounds();
      if work == Some(Done) {
        work := GracefulFinish(Drain, Drained);
      }
      r := Conclude(work, Drained);
    }

    /** Turns are taken until the drain is over; `None` means that the task was dropped during one. */
    method DrainRounds() returns (work: Option<Work>)
      requires Valid() && Contained() && Rested() && Under(Draining) && Live()
      modifies control, this`arrived, this`calls, this`abandoned, this`inbox, this`reserved, this`gone, this`kids,
        this`spawned, this`crashed, this`subtree, this`hand, this`answers, this`settled, this`running, this`failing,
        this`slots, this`observed, this`stance, this`fuel, this`log, this`hooked, this`stopEntered
      ensures Valid() && Contained() && Rested() && Onward() && Under(Draining) && !stopEntered
      ensures work == None ==> fuel == 0
      ensures work == Some(Done) ==> inbox == [] && slots == {} && running == {}
      ensures work.Some? && work != Some(Done) ==> Rank(control.mode) == 2
      ensures !Soft(old(control.mode)) ==> work.Some? && work != Some(Done)
    {
      hide Actor.Valid, Actor.View, Actor.Concluded;
      var drained := inbox == [];
      work := None;
      while true
        invariant Valid() && Contained() && Rested() && Onward() && Under(Draining) && !stopEntered
        invariant drained ==> inbox == []
        decreases fuel
      {
        var turn;
        work, turn := DrainRound(drained || inbox == []);
        drained := drained || inbox == [];
        if work != None || !turn { return; }
      }
    }

    /**
      One round of the drain.  `Done` means every reply has finished after the inbox ran
      dry; any other result means the drain was cut off.
     */
    method DrainRound(drained: bool) returns (r: Option<Work>, alive: bool)
      requires Valid() && Contained() && Rested() && Under(Draining) && Live() && (drained <==> inbox == [])
      modifies control, this`arrived, this`calls, this`abandoned, this`inbox, this`reserved, this`gone, this`kids,
        this`spawned, this`crashed, this`subtree, this`hand, this`answers, this`settled, this`running, this`failing,
        this`slots, this`observed, this`stance, this`fuel, this`log, this`hooked, this`stopEntered
      ensures Valid() && Contained() && Rested() && Onward() && Under(Draining) && !stopEntered
      ensures !alive ==> fuel == 0
      ensures |inbox| <= |old(inbox)|
      ensures r == Some(Done) ==> inbox == [] && slots == {} && running == {}
      ensures r.Some? && r != Some(Done) ==> Rank(control.mode) == 2
      ensures r == None && alive ==> fuel < old(fuel)
      ensures !Soft(old(control.mode)) ==> r.Some? && r != Some(Done)
      ensures old(drained && slots == {}) ==> r.Some?
      ensures r == Some(Work.Killed) ==> control.mode == Killing
      ensures r == Some(Work.Panicked) ==> control.mode == Failing || crashed
    {
      hide Actor.Valid, Actor.View;
      alive := true;
      var mode := Reread();
      if mode == Killing { return Some(Work.Killed), true; }
      if mode == Failing { return Some(Work.Panicked), true; }
      if drained && slots == {} {
        OpenIsStored();
        return Some(Done), true;
      }
      r, alive := DrainTurn(drained);
    }

    /** A turn taken while `Draining` was read. */
    method DrainTurn(drained: bool) returns (r: Option<Work>, alive: bool)
      requires Valid() && Contained() && Rested() && Under(Draining) && Live() && stance != Notified
      requires drained <==> inbox == []
      modifies control, this`arrived, this`calls, this`abandoned, this`inbox, this`reserved, this`gone, this`kids,
        this`spawned, this`crashed, this`subtree, this`hand, this`answers, this`settled, this`running, this`failing,
        this`slots, this`observed, this`stance, this`fuel, this`log, this`hooked, this`stopEntered
      ensures Valid() && Contained() && Rested() && Onward() && Under(Draining) && !stopEntered
      ensures !alive ==> fuel == 0
      ensures |inbox| <= |old(inbox)| && r != Some(Done)
      ensures r.Some? ==> Rank(control.mode) == 2
      ensures r == None && alive ==> fuel < old(fuel)
      ensures r.Some? ==> r == Some(Work.Panicked) && crashed
    {
      hide Actor.Valid, Actor.View;
      alive := true;
      var turn := ActorTurn(!drained, Draining);
      match turn
      case None => r, alive := None, false;
      case Some(Unwound) =>
        CommitFailure();
        r := Some(Work.Panicked);
      case Some(ChildEvent(child, status)) =>
        r := HandleChildExit(child, status);
        r, alive := None, r.Some?;
      case _ => r := None;
    }

    // ------------------------------------------------------------- actor loop

    /** Before initialization there is no dispatched work, only an inbox and spawned children. */
    method Initialize() returns (r: Option<Work>)
      requires Valid() && Contained() && Rested() && Rank(control.mode) <= 2 && !stopEntered && !initEntered
      modifies control, this`arrived, this`calls, this`abandoned, this`inbox, this`reserved, this`gone, this`kids,
        this`spawned, this`crashed, this`subtree, this`fuel, this`observed, this`stance, this`initEntered,
        this`stopEntered, this`log
      ensures Valid() && Contained() && Onward() && !stopEntered
      ensures r == None ==> fuel == 0
      ensures r.Some? && r != Some(Done) ==> Rank(control.mode) == 2
      ensures r == Some(Done) || r == None ==> initEntered && Ran(old(log), log, InitCode)
      ensures !Soft(old(control.mode)) ==> !initEntered && r == Some(Work.Killed)
      ensures !initEntered ==> Ran(old(log), log, Destructor)
    {
      hide Actor.Valid, Actor.View, Ran;
      Interfere();
      var entered := EnterInitialization();
      if !entered {
        ghost var refused := log;
        var panicked := DropUserValue();
        RanWithin(old(log), refused, log, log, Destructor);
        return Some(Work.Killed);
      }
      ghost var entry := log;
      r := RunInit();
      if r == Some(Done) || r == None { RanWithin(old(log), entry, log, log, InitCode); }
    }

    /** The initialization function builds its future, which is then awaited under the guard. */
    method RunInit() returns (r: Option<Work>)
      requires Valid() && Contained() && Rested() && Rank(control.mode) <= 2 && Live()
      requires !crashed
      modifies control, this`arrived, this`calls, this`abandoned, this`inbox, this`reserved, this`gone, this`kids,
        this`spawned, this`crashed, this`subtree, this`fuel, this`observed, this`stance, this`stopEntered, this`log
      ensures Valid() && Contained() && Onward() && !stopEntered && Ran(old(log), log, InitCode)
      ensures r == None ==> fuel == 0
      ensures r.Some? && r != Some(Done) ==> Rank(control.mode) == 2
      ensures r == Some(Work.Panicked) || r == Some(DropPanicked) ==> crashed
    {
      hide Actor.Valid, Actor.View, Ran;
      var panicked := UserCode(InitCode);
      ghost var ran := log;
      if panicked {
        CommitFailure();
        r := Some(Work.Panicked);
      } else {
        r := AwaitWork(InitJob);
      }
      RanWithin(old(log), old(log), ran, log, InitCode);
    }

    /** One iteration of the actor loop under whatever mode it reads. */
    method LoopRound() returns (next: Loop)
      requires Valid() && Contained() && Rested() && Rank(control.mode) <= 2 && !shutdownSeen && Live() && !closed
      modifies control, this`arrived, this`calls, this`abandoned, this`inbox, this`reserved, this`gone, this`kids,
        this`spawned, this`crashed, this`subtree, this`hand, this`answers, this`settled, this`running, this`failing,
        this`slots, this`observed, this`stance, this`fuel, this`log, this`hooked, this`shutdownSeen,
        this`stopEntered
      ensures Valid() && Contained() && Rested() && Onward() && !stopEntered
      ensures next == Parked ==> fuel == 0
      ensures next == Again ==> fuel < old(fuel)
      ensures next.Hooked? <==> shutdownSeen
      ensures next.Hooked? ==> (next.shutdown == Drain && Under(Draining)) || (next.shutdown == Stop && Under(Stopping))
      ensures next.Ended? ==> next.work != Done && Rank(control.mode) == 2
      ensures !Soft(old(control.mode)) ==> next.Ended?
      ensures next.Ended? && next.work == Work.Killed ==> !Soft(control.mode)
      ensures next.Hooked? ==> !crashed
    {
      hide Actor.Valid, Actor.View, Ran;
      var mode := Reread();
      Interfere();
      UnreadIsHinted();
      match mode
      case Draining =>
        EnterShutdownHook(Drain);
        next := Hooked(Drain);
      case Stopping =>
        EnterShutdownHook(Stop);
        next := Hooked(Stop);
      case Running => next := RunningRound();
      case Killing => next := Ended(Work.Killed);
      case Failing => next := Ended(Work.Panicked);
      // An aborted or exited task is never polled again.
      case _ => assert false;
    }

    /** A turn taken while `Running` was read. */
    method RunningRound() returns (next: Loop)
      requires Valid() && Contained() && Rested() && Rank(control.mode) <= 2 && Live() && stance != Notified && !closed
      modifies control, this`arrived, this`calls, this`abandoned, this`inbox, this`reserved, this`gone, this`kids,
        this`spawned, this`crashed, this`subtree, this`hand, this`answers, this`settled, this`running, this`failing,
        this`slots, this`observed, this`stance, this`fuel, this`log, this`hooked, this`stopEntered
      ensures Valid() && Contained() && Rested() && Onward() && !stopEntered
      ensures next == Parked ==> fuel == 0
      ensures next == Again ==> fuel < old(fuel)
      ensures !next.Hooked?
      ensures next.Ended? ==> next.work != Done && Rank(control.mode) == 2
    {
      hide Actor.Valid, Actor.View;
      var turn := ActorTurn(true, Running);
      match turn
      case None => next := Parked;
      case Some(ChildEvent(child, status)) =>
        var work := HandleChildExit(child, status);
        next := if work == None then Parked else if work == Some(Done) then Again else Ended(work.value);
      case Some(Unwound) =>
        CommitFailure();
        next := Ended(Work.Panicked);
      // Nobody closes the inbox of a running actor.
      case Some(InboxClosed) => assert false;
      case _ => next := Again;
    }

    /** `on_shutdown` runs to its end; a panic in it fails the actor instead of stopping it. */
    method ShutdownFrom(shutdown: Shutdown) returns (r: Option<ExitStatus>)
      requires Valid() && Contained() && Rested() && shutdownSeen && Live()
      requires (shutdown == Drain && Under(Draining)) || (shutdown == Stop && Under(Stopping))
      requires !crashed
      modifies control, this`arrived, this`calls, this`abandoned, this`inbox, this`reserved, this`gone, this`kids,
        this`spawned, this`crashed, this`subtree, this`closed, this`hand, this`answers, this`settled, this`running,
        this`failing, this`slots, this`observed, this`stance, this`fuel, this`log, this`hooked, this`stopEntered
      ensures Valid() && Contained() && Rested() && Onward() && (r.Some? ==> Concluded(r.value))
      ensures r == None ==> fuel == 0
      ensures Ran(old(log), log, ShutdownHook)
    {
      hide Actor.Valid, Actor.View, Actor.Concluded, Ran;
      var panicked := UserCode(ShutdownHook);
      ghost var ran := log;
      if panicked {
        CommitFailure();
        r := FailActor();
      } else if shutdown == Drain {
        r := DrainActor();
      } else {
        r := StopActor();
      }
      RanWithin(old(log), old(log), ran, log, ShutdownHook);
    }

    /** The actor's main future: the status it proposes, or `None` if it is dropped first. */
    method RunActor() returns (r: Option<ExitStatus>)
      requires Valid() && Contained() && Rested() && Unstarted()
      modifies control, this`arrived, this`calls, this`abandoned, this`inbox, this`reserved, this`gone, this`kids,
        this`spawned, this`crashed, this`subtree, this`closed, this`hand, this`answers, this`settled, this`running,
        this`failing, this`slots, this`observed, this`stance, this`fuel, this`log, this`hooked, this`initEntered,
        this`shutdownSeen, this`stopEntered
      ensures Valid() && Contained() && Rested() && Onward() && (r.Some? ==> Concluded(r.value))
      ensures r == None ==> fuel == 0
    {
      hide Actor.Valid, Actor.View, Actor.Concluded, Ran;
      var init := Initialize();
      if init == None { return None; }
      if init != Some(Done) {
        r := CutShort(init.value);
        return;
      }
      var next := Again;
      while next == Again
        invariant Valid() && Contained() && Rested() && Onward() && Live() && !closed
        invariant next.Hooked? <==> shutdownSeen
        invariant next.Hooked? ==> !crashed
        invariant next.Hooked?
                ==> (next.shutdown == Drain && Under(Draining)) || (next.shutdown == Stop && Under(Stopping))
        invariant next == Parked ==> fuel == 0
        invariant next.Ended? ==> next.work != Done && Rank(control.mode) == 2
        decreases next == Again, fuel
      {
        next := LoopRound();
      }
      match next
      case Parked => r := None;
      case Ended(work) => r := CutShort(work);
      case Hooked(shutdown) => r := ShutdownFrom(shutdown);
    }

    // ------------------------------------------------------------------ task

    /**
      The task's future is ready: its final frame is destroyed, then the status is
      published.  Every admitted call has been answered by then, and the reason is the
      one the history of lifecycle transactions determines.
     */
    method FinishTask(proposed: ExitStatus)
      requires Valid() && Contained() && Concluded(proposed) && !escaped
      modifies control, this`arrived, this`calls, this`abandoned, this`inbox, this`reserved, this`gone, this`kids,
        this`spawned, this`crashed, this`log
      ensures Valid() && Contained() && control.mode.Exited? && answers.Keys == calls
      ensures log != [] && control.mode.status.reason == ReasonByHistory(Ops(log[..|log| - 1]))
      ensures control.mode.status.subtree == proposed.subtree
      ensures BeginAbort !in Ops(log) && Ran(old(log), log, Destructor)
      ensures control.mode.status.reason in {Stopped, Drained}
              <==> forall i :: 0 <= i < |log| - 1 ==> !Disturbs(log[i])
      ensures old(log) <= log
    {
      hide Actor.Valid, Actor.View, Ops, Disturbs, ReasonByHistory;
      var panicked := DropUserValue();
      ghost var dropped := log;
      Interfere();
      MayPublish(proposed);
      PublishFinal(proposed);
      RanWithin(old(log), old(log), dropped, log, Destructor);
    }

    method PublishFinal(proposed: ExitStatus)
      requires Valid() && Contained() && Rank(control.mode) <= 3 && Allowed(View(), Event.Publish(proposed))
      modifies control, this`log
      ensures Valid() && Contained() && control.mode.Exited? && answers.Keys == calls
      ensures log == old(log) + [Event.Publish(proposed)] && control.mode == Gate(old(control.mode), Finish(proposed))
      ensures BeginAbort in Ops(log) <==> old(control.mode) == Aborting
      ensures control.mode.status.reason in {Stopped, Drained}
              <==> forall i :: 0 <= i < |log| - 1 ==> !Disturbs(log[i])
      ensures control.mode.status.reason == ReasonByHistory(Ops(log[..|log| - 1]))
    {
      hide Ledger.Replay, Ledger.Legal, Lifecycle.After;
      Publish(proposed);
      ExitedActorAnsweredEveryCall(log);
      TerminalReasonIsHistory(log);
      AbortsShow(log);
      EndsGracefullyExactlyWhenUndisturbed(log);
    }

    /** The executor drops a task that has not finished: cleanup is synchronous and the reason is an abort. */
    method DropTask()
      requires Valid() && Rested() && Rank(control.mode) <= 2
      modifies control, this`arrived, this`calls, this`abandoned, this`inbox, this`reserved, this`gone, this`kids,
        this`spawned, this`crashed, this`closed, this`hand, this`answers, this`settled, this`running, this`failing,
        this`slots, this`observed, this`stance, this`log
      ensures Valid() && Contained() && control.mode == Exited(ExitStatus(Aborted, Unconfirmed))
      ensures answers.Keys == calls
      ensures inbox == [] && running == {} && slots == {}
      ensures log != [] && ReasonByHistory(Ops(log[..|log| - 1])) == Aborted && BeginAbort in Ops(log)
      ensures exists i :: 0 <= i < |log| - 1 && Disturbs(log[i])
      ensures old(log) <= log
    {
      hide Actor.Valid, Actor.View, Ops, Disturbs, ReasonByHistory;
      CommitAbort();
      Interfere();
      DropFrame();
      MayPublish(ExitStatus(Aborted, Unconfirmed));
      PublishFinal(ExitStatus(Aborted, Unconfirmed));
    }

    /** What the gate needs to publish a status. */
    lemma MayPublish(proposed: ExitStatus)
      requires Rested() && inbox == [] && running == {} && slots == {} && control.mode != Running
      requires Contained() && (escaped ==> control.mode == Aborting)
      requires proposed.reason == Aborted ==> control.mode == Aborting
      requires control.mode == Stopping ==> proposed.reason == Stopped && stopEntered
      requires control.mode == Draining ==> proposed.reason == Drained && stopEntered
      ensures Allowed(View(), Event.Publish(proposed))
    {
    }

    /** The frame's fields drop in order: the scheduler's replies, then the inbox with its envelopes. */
    method DropFrame()
      requires Valid() && Contained() && Rested() && control.mode == Aborting
      modifies control, this`arrived, this`calls, this`abandoned, this`inbox, this`reserved, this`gone, this`kids,
        this`spawned, this`crashed, this`closed, this`hand, this`answers, this`settled, this`running, this`failing,
        this`slots, this`observed, this`stance, this`log
      ensures Valid() && Contained() && Rested() && control.mode == Aborting
      ensures inbox == [] && running == {} && slots == {}
      ensures DiscardedUpTo(old(inbox), old(settled), [], settled)
      ensures closed
      ensures old(log) <= log
    {
      hide Actor.Valid, Actor.View, DiscardedUpTo;
      ClearReplies();
      DropInbox();
    }

    method DropInbox()
      requires Valid() && Contained() && Rested() && control.mode == Aborting
      modifies control, this`arrived, this`calls, this`abandoned, this`inbox, this`reserved, this`gone, this`kids,
        this`spawned, this`crashed, this`closed, this`hand, this`answers, this`settled, this`log
      ensures Valid() && Contained() && Rested() && control.mode == Aborting
      ensures inbox == [] && DiscardedUpTo(old(inbox), old(settled), inbox, settled)
      ensures closed
      ensures old(log) <= log
    {
      hide Actor.Valid, Actor.View, DiscardedUpTo, Thrown, Ran;
      CloseInbox();
      NothingDiscardedYet(inbox, settled);
      while inbox != []
        invariant Valid() && Contained() && Rested() && control.mode == Aborting
        invariant DiscardedUpTo(old(inbox), old(settled), inbox, settled)
        invariant closed && old(log) <= log
        decreases |inbox|
      {
        ghost var left, now := inbox, settled;
        var more := TryDiscard();
        DiscardedOne(left, now, inbox, settled);
        DiscardMore(old(inbox), old(settled), left, now, inbox, settled);
      }
    }

    /**
      The whole life of a task that was just started: however it ends, one status is
      published.  The main future's own locals, the actor value among them, are destroyed
      as it returns; a panic there leaves the poll (`escaped`), and the executor drops the
      task.  A task that is resumed until it ends, and whose last frame does not panic, is
      never aborted: it ends as it was asked to unless its user code panicked or somebody
      submitted Kill or a failure.
     */
    method RunTask()
      requires Valid() && Rested() && Unstarted()
      modifies control, this`arrived, this`calls, this`abandoned, this`inbox, this`reserved, this`gone, this`kids,
        this`spawned, this`crashed, this`subtree, this`closed, this`hand, this`answers, this`settled, this`running,
        this`failing, this`slots, this`observed, this`stance, this`fuel, this`log, this`hooked, this`initEntered,
        this`shutdownSeen, this`stopEntered, this`escaped
      ensures Valid() && control.mode.Exited? && answers.Keys == calls
      ensures log != [] && control.mode.status.reason == ReasonByHistory(Ops(log[..|log| - 1]))
      ensures fuel > 0 && !escaped ==> BeginAbort !in Ops(log)
      ensures control.mode.status.reason in {Stopped, Drained}
              <==> forall i :: 0 <= i < |log| - 1 ==> !Disturbs(log[i])
      ensures escaped ==> control.mode.status.reason == Aborted
      ensures control.mode.status.subtree == if BeginAbort in Ops(log) then Unconfirmed else subtree
      ensures fuel > 0 ==> Ran(old(log), log, LocalsDrop)
    {
      hide Actor.Valid, Actor.View, Actor.Concluded, Ops, Disturbs, ReasonByHistory;
      var r := RunActor();
      ghost var returned := log;
      if r == None {
        DropTask();
      } else {
        EndTask(r.value);
        RanWithin(old(log), returned, log, log, LocalsDrop);
      }
    }

    /** The main future returned a status: its locals go first. */
    method EndTask(status: ExitStatus)
      requires Valid() && Contained() && Concluded(status) && !escaped
      modifies control, this`arrived, this`calls, this`abandoned, this`inbox, this`reserved, this`gone, this`kids,
        this`spawned, this`crashed, this`closed, this`hand, this`answers, this`settled, this`running, this`failing,
        this`slots, this`observed, this`stance, this`log, this`escaped
      ensures Valid() && control.mode.Exited? && answers.Keys == calls
      ensures log != [] && control.mode.status.reason == ReasonByHistory(Ops(log[..|log| - 1]))
      ensures !escaped ==> BeginAbort !in Ops(log)
      ensures control.mode.status.reason in {Stopped, Drained}
              <==> forall i :: 0 <= i < |log| - 1 ==> !Disturbs(log[i])
      ensures escaped ==> control.mode.status.reason == Aborted
      ensures control.mode.status.subtree == if BeginAbort in Ops(log) then Unconfirmed else subtree
      ensures Ran(old(log), log, LocalsDrop)
    {
      hide Actor.Valid, Actor.View, Actor.Concluded, Ops, Disturbs, ReasonByHistory;
      var unwound := DropLocals(status);
      ConcludedIsDroppable(status);
      ghost var dropped := log;
      if unwound { DropTask(); } else { FinishTask(status); }
      RanWithin(old(log), old(log), dropped, log, LocalsDrop);
    }

    method DropLocals(status: ExitStatus) returns (unwound: bool)
      requires Valid() && Contained() && Concluded(status) && !escaped
      modifies control, this`arrived, this`calls, this`abandoned, this`inbox, this`reserved, this`gone, this`kids,
        this`spawned, this`crashed, this`escaped, this`log
      ensures Valid() && Concluded(status) && escaped == unwound && (!unwound ==> Contained())
      ensures Ran(old(log), log, LocalsDrop)
    {
      hide Actor.Valid, Actor.View;
      unwound := UserCode(LocalsDrop);
      ghost var ran := log;
      if unwound { Escape(); }
      RanWithin(old(log), old(log), ran, log, LocalsDrop);
    }

    lemma ConcludedIsDroppable(status: ExitStatus)
      requires Concluded(status)
      ensures Rested() && Rank(control.mode) <= 2 && subtree == status.subtree
    {
    }

    // --------------------------------------------------------------- senders

    lemma ClosedMeansCutOff()
      requires Valid()
      ensures closed ==> control.mode != Running
    {
      Reachable();
    }

    /** A slot of the mailbox for this sender, if one is free at once. */
    method TryReserve() returns (ok: bool)
      requires Valid() && held == 0
      modifies this`reserved, this`held
      ensures Valid() && ok == (!closed && |inbox| + old(reserved) < capacity)
      ensures held == (if ok then 1 else 0) && reserved == old(reserved) + held
    {
      hide Ledger.Replay, Ledger.Legal, Lifecycle.After;
      ok := !closed && |inbox| + reserved < capacity;
      if ok { reserved, held := reserved + 1, 1; }
    }

    /** Between two steps of a sender, anybody else acted, the actor task included. */
    twostate predicate WorldRan()
      reads this, control
    {
      && old(log) <= log && held == old(held) && sent == old(sent)
      && (control.mode == old(control.mode) || Rank(old(control.mode)) < Rank(control.mode))
    }

    /** One step of the actor task on its mailbox. */
    method MailboxActs(choice: nat, id: nat)
      requires Valid() && Contained()
      modifies control, this`closed, this`hand, this`inbox, this`answers, this`settled, this`running, this`failing,
        this`slots, this`log
      ensures Valid() && WorldRan()
    {
      hide Ledger.Replay, Ledger.Legal, Lifecycle.After, Ledger.Enabled, Ledger.Allowed, Ledger.Apply;
      hide Actor.View, Actor.Valid;
      if choice == 0 {
        if control.mode != Running { CloseInbox(); }
      } else if choice == 1 {
        if hand == None && inbox != [] { TakeEnvelope(); }
      } else if choice == 2 {
        if hand.Some? && hand.value in calls && hand.value in abandoned { SkipEnvelope(); }
      } else if choice == 3 {
        if hand.Some? && !Dispatching(control.mode) { RefuseEnvelope(); }
      } else if choice == 4 {
        if hand.Some? && !Dispatching(control.mode) { DiscardEnvelope(); }
      } else if choice == 5 {
        if hand.Some? && Dispatching(control.mode) && initEntered { CommitDispatch(); }
      } else if choice == 6 {
        if id in running { CompleteReply(id); }
      } else if choice == 7 {
        if id in running && !Soft(control.mode) { BeginReplyFailure(id); }
      } else if choice == 8 {
        if id in failing { EndReplyFailure(id); }
      } else if id in slots && id !in running && id !in failing {
        RetireReply(id);
      }
    }

    /** One step of the actor task on its children. */
    method FamilyActs(choice: nat, c: nat, status: SubtreeStatus)
      requires Valid() && Contained()
      modifies this`kids, this`spawned, this`subtree, this`hooked, this`log
      ensures Valid() && WorldRan()
    {
      hide Ledger.Replay, Ledger.Legal, Lifecycle.After, Ledger.Enabled, Ledger.Allowed, Ledger.Apply;
      hide Actor.View, Actor.Valid;
      if choice == 0 {
        if c !in spawned && Live() { SpawnChild(c); }
      } else if choice == 1 {
        if c in kids && c in gone { ReapChild(c, status); }
      } else if choice == 2 {
        if kids <= gone && control.mode != Running { ClearChildren(status); }
      } else if control.mode == Running && c in gone && c in spawned && c !in kids && c !in hooked && initEntered {
        EnterChildHook(c);
      }
    }

    predicate IsQuiet()
      reads this
    {
      inbox == [] && hand == None && running == {} && failing == {} && slots == {}
    }

    /** One step of the actor task on its lifecycle. */
    method LifecycleActs(choice: nat, code: Code)
      requires Valid() && Contained()
      modifies control, this`observed, this`stance, this`initEntered, this`shutdownSeen, this`crashed, this`log
      ensures Valid() && WorldRan()
    {
      hide Ledger.Replay, Ledger.Legal, Lifecycle.After, Ledger.Enabled, Ledger.Allowed, Ledger.Apply;
      hide Actor.View, Actor.Valid;
      if choice == 0 {
        if !initEntered { var entered := EnterInitialization(); }
      } else if choice == 1 {
        var mode := ReadMode();
      } else if choice == 2 {
        if control.permit { ConsumeHint(); }
      } else if choice == 3 {
        if !control.permit && stance != Notified { PassHint(); }
      } else if choice == 4 {
        Unwind();
      } else if choice == 5 {
        if MayRun(code) { CallUser(code); }
      } else if Live() && !shutdownSeen && !crashed && stance == Fresh
                && (control.mode == observed || (Rank(control.mode) == 2 && control.permit)) {
        if observed == Draining {
          EnterShutdownHook(Drain);
        } else if observed == Stopping {
          EnterShutdownHook(Stop);
        }
      }
    }

    /** The actor task ends: it enters its cleanup hook, or publishes its status. */
    method EndActs(reason: ExitReason, proposed: ExitStatus, publishes: bool)
      requires Valid() && Contained()
      modifies control, this`stopEntered, this`log
      ensures Valid() && WorldRan()
    {
      hide Ledger.Replay, Ledger.Legal, Lifecycle.After;
      if !IsQuiet() { return; }
      if !publishes {
        if shutdownSeen && !stopEntered && !crashed && kids == {} && stance == Passed
          && observed == GracefulMode(reason) && (reason == Stopped || reason == Drained)
          && (control.mode == observed || (Rank(control.mode) == 2 && control.permit)) {
          EnterStopHook(reason);
        }
      } else if control.mode != Running && !control.mode.Exited?
                && (escaped ==> control.mode == Aborting) && (proposed.reason == Aborted ==> control.mode == Aborting)
                && (control.mode == Stopping ==> proposed.reason == Stopped && stopEntered)
                && (control.mode == Draining ==> proposed.reason == Drained && stopEntered) {
        GateClimbs(control.mode, Finish(proposed));
        Publish(proposed);
      }
    }

    /** The actor task deals with a panic, or is dropped. */
    method PanicActs(choice: nat, id: nat)
      requires Valid()
      modifies control, this`running, this`failing, this`escaped, this`log
      ensures Valid() && WorldRan()
    {
      hide Ledger.Replay, Ledger.Legal, Lifecycle.After, Ledger.Enabled, Ledger.Allowed, Ledger.Apply;
      hide Actor.View, Actor.Valid;
      if choice == 0 {
        if Rank(control.mode) <= 2 { CommitAbort(); }
      } else if crashed {
        if choice == 1 {
          Escape();
        } else if choice == 2 && id in running {
          BeginReplyFailure(id);
        } else {
          CommitFailure();
        }
      }
    }

    /** Anybody but the sender takes any finite number of steps, the actor task included. */
    method Elsewhere()
      requires Valid()
      modifies control, this`arrived, this`calls, this`abandoned, this`inbox, this`reserved, this`gone, this`kids,
        this`spawned, this`crashed, this`subtree, this`closed, this`hand, this`answers, this`settled, this`running,
        this`failing, this`slots, this`observed, this`stance, this`log, this`hooked, this`initEntered,
        this`shutdownSeen, this`stopEntered, this`escaped
      ensures Valid() && WorldRan()
    {
      hide Actor.Valid, Actor.View;
      var n: nat := *;
      while n > 0
        invariant Valid() && WorldRan()
      {
        var who: nat, choice: nat, id: nat, status: ExitStatus, code: Code, publishes: bool := *, *, *, *, *, *;
        if who == 0 {
          OtherStep();
        } else if who == 1 || !Contained() {
          PanicActs(choice, id);
        } else if who == 2 {
          MailboxActs(choice, id);
        } else if who == 3 {
          FamilyActs(choice, id, status.subtree);
        } else if who == 4 {
          LifecycleActs(choice, code);
        } else {
          EndActs(status.reason, status, publishes);
        }
        n := n - 1;
      }
    }

    /** Commits a reserved slot while admission remains open, or gives the slot back. */
    method Admit(isCall: bool) returns (r: Submission)
      requires Valid() && held == 1
      modifies this`arrived, this`calls, this`inbox, this`reserved, this`held, this`sent, this`log
      ensures Valid() && held == 0 && reserved == old(reserved) - 1
      ensures r.Accepted? <==> control.mode == Running
      ensures r.Accepted? ==> log == old(log) + [Event.Admit(isCall)] && r.id == old(arrived)
      ensures r.Accepted? ==> inbox == old(inbox) + [r.id] && sent == old(sent) + [r.id] && (isCall ==> r.id in calls)
      ensures !r.Accepted? ==> r == Submission.Closed && log == old(log) && sent == old(sent)
      ensures !r.Accepted? ==> inbox == old(inbox) && arrived == old(arrived)
    {
      hide Ledger.Replay, Ledger.Legal, Lifecycle.After;
      // A transport that is still open while running accepts every reserved enqueue.
      ClosedMeansCutOff();
      assert control.mode == Running ==> !closed;
      held := 0;
      if control.mode == Running {
        var id := Enqueue(isCall);
        sent := sent + [id];
        r := Accepted(id);
      } else {
        reserved := reserved - 1;
        r := Submission.Closed;
      }
    }

    /**
      `try_call` and `try_send`, run by another thread, with any steps of anybody else in
      between.  An accepted message is the last one admitted and the only one this call
      enqueued; a rejected one is never enqueued.
     */
    method TrySubmit(isCall: bool) returns (r: Submission)
      requires Valid() && held == 0
      modifies control, this`arrived, this`calls, this`abandoned, this`inbox, this`reserved, this`gone, this`kids,
        this`spawned, this`crashed, this`subtree, this`closed, this`hand, this`answers, this`settled, this`running,
        this`failing, this`slots, this`observed, this`stance, this`log, this`hooked, this`initEntered,
        this`shutdownSeen, this`stopEntered, this`escaped, this`held, this`sent
      ensures Valid() && held == 0 && old(log) <= log
      ensures control.mode == old(control.mode) || Rank(old(control.mode)) < Rank(control.mode)
      ensures sent == if r.Accepted? then old(sent) + [r.id] else old(sent)
      ensures r.Accepted? ==> control.mode == Running && |old(log)| < |log| && log[|log| - 1] == Event.Admit(isCall)
      ensures r.Accepted? ==> inbox != [] && inbox[|inbox| - 1] == r.id && (isCall ==> r.id in calls)
      ensures r == Submission.Closed ==> control.mode != Running
      ensures r == Full ==> control.mode == Running && old(|inbox| + reserved) >= capacity
    {
      hide Actor.Valid, Actor.View;
      var ok := TryReserve();
      ClosedMeansCutOff();
      Elsewhere();
      if ok {
        r := Admit(isCall);
      } else {
        // A closed transport means a closed gate, so no sender ever sees it while running.
        r := if control.mode == Running then Full else Submission.Closed;
      }
    }

    /** `call` and `send`: a full mailbox is waited for; `None` means the sender gave up waiting. */
    method Submit(isCall: bool) returns (r: Option<Submission>)
      requires Valid() && held == 0
      modifies control, this`arrived, this`calls, this`abandoned, this`inbox, this`reserved, this`gone, this`kids,
        this`spawned, this`crashed, this`subtree, this`closed, this`hand, this`answers, this`settled, this`running,
        this`failing, this`slots, this`observed, this`stance, this`log, this`hooked, this`initEntered,
        this`shutdownSeen, this`stopEntered, this`escaped, this`held, this`sent, this`fuel
      ensures Valid() && held == 0 && old(log) <= log && r != Some(Full)
      ensures sent == if r.Some? && r.value.Accepted? then old(sent) + [r.value.id] else old(sent)
      ensures r.Some? && r.value.Accepted? ==> control.mode == Running && inbox != []
                                               && inbox[|inbox| - 1] == r.value.id && (isCall ==> r.value.id in calls)
      ensures r == Some(Submission.Closed) ==> control.mode != Running
      ensures r == None ==> fuel == 0
    {
      hide Actor.Valid, Actor.View;
      while true
        invariant Valid() && held == 0 && old(log) <= log && sent == old(sent)
        decreases fuel
      {
        var s := TrySubmit(isCall);
        if s != Full { return Some(s); }
        Elsewhere();
        var resumed := Suspend();
        if !resumed { return None; }
      }
    }
  }
}
