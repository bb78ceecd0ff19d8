/**
  What every legal log of one actor guarantees to its callers, its children and its
  own cleanup hooks.
 */
module LedgerTheorems {
  import opened Lifecycle
  import opened Ledger

  function At(log: seq<Event>, i: nat): World
    requires i <= |log|
  {
    Replay(log[..i])
  }

  function ModeAt(log: seq<Event>, i: nat): Mode
    requires i <= |log|
  {
    At(log, i).watch.mode
  }

  /** What a legal log guarantees about its event `i`. */
  lemma StepOf(log: seq<Event>, i: nat)
    requires Legal(log) && i < |log|
    ensures Inv(At(log, i)) && Enabled(At(log, i), log[i]) && Allowed(At(log, i), log[i])
    ensures At(log, i + 1) == Apply(At(log, i), log[i])
  {
    hide Ledger.Replay, Ledger.Legal;
    LegalPrefix(log, i);
    LegalInv(log[..i]);
  }

  lemma AtEnd(log: seq<Event>)
    ensures At(log, |log|) == Replay(log)
  {
    assert log[..|log|] == log;
  }

  // ---------------------------------------------------------- what persists

  ghost predicate WatchGrew(a: Watch, b: Watch) {
    && (b.mode == a.mode || Rank(a.mode) < Rank(b.mode))
    && (b.observed == a.observed || Rank(a.observed) < Rank(b.observed))
    && (a.initEntered ==> b.initEntered) && (a.shutdownSeen ==> b.shutdownSeen) && (a.stopEntered ==> b.stopEntered)
    && (a.crashed ==> b.crashed) && (a.escaped ==> b.escaped)
  }

  /** Open work may be decided, and decided work stays decided. */
  ghost predicate Decided(m: Mail, id: nat) { id < |m.settled| && !Open(m, id) }

  ghost predicate MailGrew(a: Mail, b: Mail) {
    && a.arrived <= b.arrived
    && a.settled <= b.settled
    && (forall id :: id in a.answers ==> id in b.answers && b.answers[id] == a.answers[id])
    && (forall id: nat :: id < a.arrived ==> (id in b.calls <==> id in a.calls))
    && (forall id: nat :: Decided(a, id) ==> Decided(b, id))
  }

  ghost predicate FamilyGrew(a: Family, b: Family) {
    a.spawned <= b.spawned && a.gone <= b.gone && a.hooked <= b.hooked && a.spawned - a.kids <= b.spawned - b.kids
  }

  ghost predicate Grew(a: World, b: World) {
    WatchGrew(a.watch, b.watch) && MailGrew(a.mail, b.mail) && FamilyGrew(a.family, b.family)
  }

  lemma RejectGrows(m: Mail, mode: Mode, fate: Fate)
    requires OrderOk(m) && AnswersOk(m) && m.hand.Some? && fate != Dispatched
    ensures MailGrew(m, Reject(m, mode, fate))
  {
  }

  lemma AnswerGrows(m: Mail, mode: Mode, e: Event)
    requires OrderOk(m) && AnswersOk(m) && MailEnabled(m, mode, e) && (e.Complete? || e.EndFail?)
    ensures MailGrew(m, MailStep(m, mode, e))
  {
  }

  lemma MailGrows(m: Mail, mode: Mode, e: Event)
    requires OrderOk(m) && AnswersOk(m) && MailEnabled(m, mode, e)
    ensures MailGrew(m, MailStep(m, mode, e))
  {
    match e
    case Skip => RejectGrows(m, mode, Skipped);
    case Refuse => RejectGrows(m, mode, Refused);
    case Discard => RejectGrows(m, mode, Discarded);
    case Complete(_) => AnswerGrows(m, mode, e);
    case EndFail(_) => AnswerGrows(m, mode, e);
    case _ =>
  }

  lemma StepGrows(w: World, e: Event)
    requires Inv(w) && Enabled(w, e)
    ensures Grew(w, Apply(w, e))
  {
    MailGrows(w.mail, w.watch.mode, e);
    match e
    case Op(op) => GateClimbs(w.watch.mode, op);
    case Fail => GateClimbs(w.watch.mode, BeginFailure);
    case Abort => GateClimbs(w.watch.mode, BeginAbort);
    case BeginFail(_) => GateClimbs(w.watch.mode, BeginFailure);
    case Publish(p) => GateClimbs(w.watch.mode, Finish(p));
    case _ =>
  }

  lemma NothingGrew(w: World)
    ensures Grew(w, w)
  {
  }

  lemma GrewTwice(a: World, b: World, c: World)
    requires Grew(a, b) && Grew(b, c)
    ensures Grew(a, c)
  {
  }

  lemma {:induction false} LogGrows(log: seq<Event>, i: nat, j: nat)
    requires Legal(log) && i <= j <= |log|
    ensures Grew(At(log, i), At(log, j))
  {
    hide Ledger.Replay, Ledger.Legal, Grew;
    if i < j {
      LogGrows(log, i, j - 1);
      StepOf(log, j - 1);
      StepGrows(At(log, j - 1), log[j - 1]);
      GrewTwice(At(log, i), At(log, j - 1), At(log, j));
    } else {
      NothingGrew(At(log, i));
    }
  }

  // ------------------------------------------------------------ admission

  function Upto(n: nat): seq<nat> { seq(n, i => i) }

  function Ids(settled: seq<Settlement>): seq<nat> {
    seq(|settled|, i requires 0 <= i < |settled| => settled[i].id)
  }

  function HandIds(m: Mail): seq<nat> {
    match m.hand
    case Some(id) => [id]
    case None => []
  }

  lemma OrderIsFifo(m: Mail)
    requires OrderOk(m)
    ensures Ids(m.settled) + HandIds(m) + m.inbox == Upto(m.arrived)
  {
  }

  /**
    Conservation and FIFO: at every point of every run the admitted messages are the
    settled ones, in order, then the one being dispatched, then the inbox; and a
    settled message keeps its place and its fate for good.
   */
  lemma AdmissionIsConserved(log: seq<Event>, i: nat)
    requires Legal(log) && i <= |log|
    ensures Ids(At(log, i).mail.settled) + HandIds(At(log, i).mail) + At(log, i).mail.inbox
            == Upto(At(log, i).mail.arrived)
    ensures At(log, i).mail.settled <= Replay(log).mail.settled
  {
    hide Ledger.Replay, Ledger.Legal;
    LegalPrefix(log, i);
    LegalInv(log[..i]);
    OrderIsFifo(At(log, i).mail);
    AtEnd(log);
    LogGrows(log, i, |log|);
  }

  /** Once the actor leaves `Running` nothing more is admitted. */
  lemma NothingIsAdmittedAfterRunning(log: seq<Event>, i: nat, j: nat)
    requires Legal(log) && i <= j < |log| && ModeAt(log, i) != Running
    ensures !log[j].Admit? && !log[j].EnterHook?
  {
    hide Ledger.Replay, Ledger.Legal;
    LogGrows(log, i, j);
    StepOf(log, j);
  }

  /** Once Stop or any hard mode commits, no envelope is dispatched. */
  lemma NothingIsDispatchedAfterCutoff(log: seq<Event>, i: nat, j: nat)
    requires Legal(log) && i <= j < |log| && !Dispatching(ModeAt(log, i))
    ensures log[j] != Commit
  {
    hide Ledger.Replay, Ledger.Legal;
    LogGrows(log, i, j);
    StepOf(log, j);
  }

  /** A run published `Drained` turned away only calls whose receiver was gone. */
  lemma DrainedServedEverything(log: seq<Event>, id: nat)
    requires Legal(log) && id < Replay(log).mail.arrived
    requires Replay(log).watch.mode.Exited? && Replay(log).watch.mode.status.reason == Drained
    ensures id < |Replay(log).mail.settled| && Replay(log).mail.settled[id].id == id
    ensures Replay(log).mail.settled[id].fate in {Dispatched, Skipped}
  {
    hide Ledger.Replay, Ledger.Legal;
    LegalInv(log);
  }

  /** An envelope is skipped only for an abandoned call, and only one in hand. */
  lemma OnlyAbandonedCallsAreSkipped(log: seq<Event>, i: nat)
    requires Legal(log) && i < |log| && log[i] == Skip
    ensures At(log, i).mail.hand.Some?
            && At(log, i).mail.hand.value in At(log, i).mail.calls * At(log, i).mail.abandoned
  {
    hide Ledger.Replay, Ledger.Legal;
    LegalPrefix(log, i);
  }

  // -------------------------------------------------------------- outcomes

  ghost predicate Committed(log: seq<Event>, i: nat, id: nat) {
    i < |log| && log[i] == Commit && At(log, i).mail.hand == Some(id)
  }

  /** Completion committed before any hard mode. */
  ghost predicate CompletedInTime(log: seq<Event>, i: nat, id: nat) {
    i < |log| && log[i] == Complete(id) && Soft(ModeAt(log, i))
  }

  /** The outcome event `i` decides for message `id`, if it is the event that decides it. */
  function DecisionAt(log: seq<Event>, i: nat, id: nat): Option<Outcome>
    requires i < |log|
  {
    Decision(At(log, i), log[i], id)
  }

  function Decision(w: World, e: Event, id: nat): Option<Outcome> {
    match e
    case Complete(c) => if c == id then Some(CompletionOutcome(w.watch.mode)) else None
    case EndFail(c) => if c == id then Some(DuringDispatch(DispatchReason(w.watch.mode))) else None
    case _ =>
      if (e == Skip || e == Refuse || e == Discard) && w.mail.hand == Some(id)
      then Some(BeforeDispatch(QueuedReason(w.watch.mode))) else None
  }

  lemma DecidingStep(w: World, e: Event, id: nat)
    requires Inv(w) && Enabled(w, e) && Decision(w, e, id).Some?
    ensures !Decided(w.mail, id) && Decided(Apply(w, e).mail, id)
    ensures id in w.mail.calls ==>
              id in Apply(w, e).mail.answers && Some(Apply(w, e).mail.answers[id]) == Decision(w, e, id)
  {
  }

  lemma UndecidingStep(w: World, e: Event, id: nat)
    requires Enabled(w, e) && Decision(w, e, id) == None && id !in w.mail.answers
    ensures id !in Apply(w, e).mail.answers
  {
  }

  lemma AnsweringStep(w: World, e: Event, id: nat)
    requires Enabled(w, e) && id !in w.mail.answers && id in Apply(w, e).mail.answers
    ensures Decision(w, e, id) == Some(Apply(w, e).mail.answers[id])
  {
    if Decision(w, e, id) == None { UndecidingStep(w, e, id); }
  }

  lemma FatefulStep(w: World, e: Event, id: nat)
    requires Inv(w) && Enabled(w, e)
    ensures FateIs(Apply(w, e).mail, id, Dispatched) <==>
              FateIs(w.mail, id, Dispatched) || (e == Commit && w.mail.hand == Some(id))
  {
  }

  /** The event that decides a message finds it undecided and leaves it decided. */
  lemma DecisionsDecide(log: seq<Event>, i: nat, id: nat)
    requires Legal(log) && i < |log| && DecisionAt(log, i, id).Some?
    ensures !Decided(At(log, i).mail, id) && Decided(At(log, i + 1).mail, id)
    ensures id in At(log, i).mail.calls ==>
              id in At(log, i + 1).mail.answers && Some(At(log, i + 1).mail.answers[id]) == DecisionAt(log, i, id)
  {
    hide Ledger.Replay, Ledger.Legal;
    StepOf(log, i);
    DecidingStep(At(log, i), log[i], id);
  }

  /** A message is decided by one event only. */
  lemma DecisionsAreUnique(log: seq<Event>, i: nat, j: nat, id: nat)
    requires Legal(log) && i < |log| && j < |log|
    requires DecisionAt(log, i, id).Some? && DecisionAt(log, j, id).Some?
    ensures i == j
  {
    hide Ledger.Replay, Ledger.Legal, Decision;
    var early, late := if i < j then i else j, if i < j then j else i;
    if early < late {
      DecisionsDecide(log, early, id);
      DecisionsDecide(log, late, id);
      LogGrows(log, early + 1, late);
    }
  }

  /** A step answers a call only by deciding it. */
  lemma AnswersComeFromDecisions(log: seq<Event>, i: nat, id: nat)
    requires Legal(log) && i < |log|
    requires id !in At(log, i).mail.answers && id in At(log, i + 1).mail.answers
    ensures DecisionAt(log, i, id) == Some(At(log, i + 1).mail.answers[id])
  {
    hide Ledger.Replay, Ledger.Legal;
    StepOf(log, i);
    AnsweringStep(At(log, i), log[i], id);
  }

  lemma {:induction false} AnsweredCallWasDecided(log: seq<Event>, n: nat, id: nat) returns (i: nat)
    requires Legal(log) && n <= |log| && id in At(log, n).mail.answers
    ensures i < n && DecisionAt(log, i, id) == Some(At(log, n).mail.answers[id])
  {
    assert n > 0 by { assert log[..0] == []; }
    if id in At(log, n - 1).mail.answers {
      i := AnsweredCallWasDecided(log, n - 1, id);
      LogGrows(log, n - 1, n);
    } else {
      i := n - 1;
      AnswersComeFromDecisions(log, i, id);
    }
  }

  /** A message was dispatched if and only if its dispatch committed. */
  lemma {:induction false} DispatchedMeansCommitted(log: seq<Event>, n: nat, id: nat)
    requires Legal(log) && n <= |log|
    ensures FateIs(At(log, n).mail, id, Dispatched) <==> exists i :: 0 <= i < n && Committed(log, i, id)
  {
    hide Ledger.Legal;
    if n == 0 {
      assert log[..0] == [];
    } else {
      DispatchedMeansCommitted(log, n - 1, id);
      FateChangesByCommit(log, n - 1, id);
    }
  }

  lemma FateChangesByCommit(log: seq<Event>, i: nat, id: nat)
    requires Legal(log) && i < |log|
    ensures FateIs(At(log, i + 1).mail, id, Dispatched)
            <==> FateIs(At(log, i).mail, id, Dispatched) || Committed(log, i, id)
  {
    hide Ledger.Replay, Ledger.Legal;
    StepOf(log, i);
    FatefulStep(At(log, i), log[i], id);
  }

  /** The mode that cut a message off, and the reason its caller is given. */
  predicate CutOffBy(mode: Mode, reason: ExitReason) {
    || (mode == Killing && reason == Killed)
    || (mode == Failing && reason == Panicked)
    || (mode == Aborting && reason == Aborted)
  }

  /** Every decision names the mode that won. */
  lemma DecisionsNameTheWinner(log: seq<Event>, i: nat, id: nat)
    requires Legal(log) && i < |log| && DecisionAt(log, i, id).Some?
    ensures var mode, outcome := ModeAt(log, i), DecisionAt(log, i, id).value;
      match outcome
      case Replied => Soft(mode) && log[i] == Complete(id)
      case DuringDispatch(reason) => CutOffBy(mode, reason)
      case BeforeDispatch(reason) => log[i] == Skip || (mode == Stopping && reason == Stopped) || CutOffBy(mode, reason)
  {
    hide Ledger.Replay, Ledger.Legal;
    StepOf(log, i);
  }

  /**
    Exactly one outcome per call: an answered call was decided by exactly one event of
    the log, its answer is what that event decided under the mode of that moment, and
    - `Replied` if and only if completion committed before any hard mode,
    - `BeforeDispatch` if and only if dispatch never committed,
    - `DuringDispatch` if and only if dispatch committed and completion did not in time.
   */
  lemma EveryAnswerIsDecidedOnce(log: seq<Event>, id: nat) returns (i: nat)
    requires Legal(log) && id in Replay(log).mail.answers
    ensures i < |log| && DecisionAt(log, i, id) == Some(Replay(log).mail.answers[id])
    ensures forall j :: 0 <= j < |log| && j != i ==> DecisionAt(log, j, id) == None
    ensures Replay(log).mail.answers[id] == Replied <==> exists j :: 0 <= j < |log| && CompletedInTime(log, j, id)
    ensures Replay(log).mail.answers[id].BeforeDispatch? <==> !exists j :: 0 <= j < |log| && Committed(log, j, id)
    ensures Replay(log).mail.answers[id].DuringDispatch? <==>
              && (exists j :: 0 <= j < |log| && Committed(log, j, id))
              && !exists j :: 0 <= j < |log| && CompletedInTime(log, j, id)
  {
    hide Ledger.Replay, Ledger.Legal;
    AtEnd(log);
    i := AnsweredCallWasDecided(log, |log|, id);
    forall j | 0 <= j < |log| && j != i ensures DecisionAt(log, j, id) == None {
      if DecisionAt(log, j, id).Some? { DecisionsAreUnique(log, i, j, id); }
    }
    LegalInv(log);
    DispatchedMeansCommitted(log, |log|, id);
    DecisionsNameTheWinner(log, i, id);
    assert forall j :: 0 <= j < |log| && CompletedInTime(log, j, id) ==> DecisionAt(log, j, id) == Some(Replied);
    if Replay(log).mail.answers[id] == Replied { assert CompletedInTime(log, i, id); }
  }

  /** An answer, once given, is never replaced. */
  lemma AnswersStick(log: seq<Event>, i: nat, id: nat)
    requires Legal(log) && i <= |log| && id in At(log, i).mail.answers
    ensures id in Replay(log).mail.answers && Replay(log).mail.answers[id] == At(log, i).mail.answers[id]
  {
    hide Ledger.Replay, Ledger.Legal;
    AtEnd(log);
    LogGrows(log, i, |log|);
  }

  /** No channel is dropped unanswered: when the actor has exited, every admitted call has its outcome. */
  lemma ExitedActorAnsweredEveryCall(log: seq<Event>)
    requires Legal(log) && Replay(log).watch.mode.Exited?
    ensures Replay(log).mail.answers.Keys == Replay(log).mail.calls
  {
    hide Ledger.Replay, Ledger.Legal;
    LegalInv(log);
    var m := Replay(log).mail;
    forall id | id in m.calls ensures id in m.answers {
      assert !Open(m, id);
    }
  }

  // --------------------------------------------------------------- cleanup

  /**
    Post-order graceful cleanup: `on_stop` is entered once, only with an empty inbox, an
    idle scheduler and no retained child, after every child ever spawned has exited,
    under the graceful mode the actor has last read, and only after `on_shutdown`.  The
    gate may by then have been moved, but only to a hard mode whose hint is stored.
   */
  lemma StopHookIsPostOrder(log: seq<Event>, i: nat)
    requires Legal(log) && i < |log| && log[i].EnterStop?
    ensures var w := At(log, i);
      && Quiet(w.mail) && w.family.kids == {} && w.family.spawned <= w.family.gone
      && (w.watch.observed == Stopping <==> log[i].reason == Stopped)
      && (w.watch.observed == Draining <==> log[i].reason == Drained)
      && (w.watch.observed == Stopping || w.watch.observed == Draining)
      && (w.watch.mode == w.watch.observed || (Rank(w.watch.mode) == 2 && w.watch.permit))
    ensures exists k :: 0 <= k < i && log[k].OnShutdown?
    ensures forall j :: 0 <= j < |log| && log[j].EnterStop? ==> j == i
  {
    hide Ledger.Replay, Ledger.Legal;
    StepOf(log, i);
    var k := ShutdownWasSeen(log, i);
    forall j | 0 <= j < |log| && log[j].EnterStop? ensures j == i {
      StopHookRunsOnce(log, i, j);
    }
  }

  lemma StopHookRunsOnce(log: seq<Event>, i: nat, j: nat)
    requires Legal(log) && i < |log| && j < |log| && log[i].EnterStop? && log[j].EnterStop?
    ensures i == j
  {
    hide Ledger.Replay, Ledger.Legal;
    StepOf(log, i);
    StepOf(log, j);
    if i < j { LogGrows(log, i + 1, j); }
    if j < i { LogGrows(log, j + 1, i); }
  }

  lemma ShutdownHookRunsOnce(log: seq<Event>, i: nat, j: nat)
    requires Legal(log) && i < |log| && j < |log| && log[i].OnShutdown? && log[j].OnShutdown?
    ensures i == j
  {
    hide Ledger.Replay, Ledger.Legal;
    StepOf(log, i);
    StepOf(log, j);
    if i < j { LogGrows(log, i + 1, j); }
    if j < i { LogGrows(log, j + 1, i); }
  }

  lemma {:induction false} ShutdownWasSeen(log: seq<Event>, n: nat) returns (k: nat)
    requires Legal(log) && n <= |log| && At(log, n).watch.shutdownSeen
    ensures k < n && log[k].OnShutdown?
  {
    hide Ledger.Legal, Enabled, Allowed, MailStep, FamilyStep, Inv;
    assert n > 0 by { assert log[..0] == []; }
    if At(log, n - 1).watch.shutdownSeen {
      k := ShutdownWasSeen(log, n - 1);
    } else {
      hide Ledger.Replay, Ledger.Legal, Allowed;
      StepOf(log, n - 1);
      k := n - 1;
    }
  }

  /** Kill, panic and abort skip cleanup: once the actor has read a hard mode, no cleanup hook is entered. */
  lemma HardModesSkipCleanup(log: seq<Event>, i: nat, j: nat)
    requires Legal(log) && i <= j < |log| && !Soft(At(log, i).watch.observed)
    ensures !log[j].EnterStop? && !log[j].OnShutdown?
  {
    hide Ledger.Replay, Ledger.Legal;
    StepOf(log, j);
    LogGrows(log, i, j);
  }

  /** The poll of the hint that let the actor pass, and the mode it had read. */
  lemma {:induction false} LastWait(log: seq<Event>, n: nat) returns (i: nat)
    requires Legal(log) && n <= |log| && At(log, n).watch.stance == Passed
    ensures i < n && log[i] == Wait
    ensures forall k :: i < k < n ==> log[k] != Wait && log[k] != Observe && log[k] != Consume
    ensures At(log, n).watch.observed == At(log, i).watch.observed == ModeAt(log, i)
  {
    hide Ledger.Replay, Ledger.Legal, Enabled, Allowed, Apply, Inv;
    NoWaitYet(log);
    StepOf(log, n - 1);
    PassingStep(At(log, n - 1), log[n - 1]);
    if log[n - 1] == Wait {
      i := n - 1;
    } else {
      i := LastWait(log, n - 1);
    }
  }

  lemma NoWaitYet(log: seq<Event>)
    ensures At(log, 0).watch.stance != Passed
  {
    assert log[..0] == [];
  }

  lemma PassingStep(w: World, e: Event)
    requires Inv(w) && Enabled(w, e) && Allowed(w, e) && Apply(w, e).watch.stance == Passed
    ensures e != Observe && e != Consume && Apply(w, e).watch.observed == w.watch.observed
    ensures e == Wait ==> w.watch.observed == w.watch.mode
    ensures e != Wait ==> w.watch.stance == Passed
  {
  }

  /** The event commits Kill or actor failure. */
  predicate HardCommit(e: Event) { GateOps(e) != [] && Hard(GateOps(e)[0]) }

  lemma HardeningStep(w: World, e: Event)
    requires Enabled(w, e) && Rank(Apply(w, e).watch.mode) <= 2
    ensures Rank(w.watch.mode) <= 2
    ensures !Soft(Apply(w, e).watch.mode) <==> !Soft(w.watch.mode) || HardCommit(e)
  {
    HardeningWatch(w.watch, e);
  }

  lemma HardeningWatch(g: Watch, e: Event)
    requires WatchEnabled(g, e) && Rank(WatchStep(g, e).mode) <= 2
    ensures Rank(g.mode) <= 2
    ensures !Soft(WatchStep(g, e).mode) <==> !Soft(g.mode) || HardCommit(e)
  {
    hide Gate;
    GateEvents(g, e);
    if GateOps(e) != [] { GateHardens(g.mode, GateOps(e)[0]); }
  }

  /** Only gate events move the mode. */
  lemma GateEvents(g: Watch, e: Event)
    requires WatchEnabled(g, e)
    ensures |GateOps(e)| <= 1
    ensures WatchStep(g, e).mode == if GateOps(e) == [] then g.mode else Gate(g.mode, GateOps(e)[0])
    ensures WatchStep(g, e).crashed == (g.crashed || e == Panics)
  {
    hide Gate;
  }

  /** What takes a gate out of its cooperative modes. */
  lemma GateHardens(mode: Mode, op: GateOp)
    requires !Gate(mode, op).Exited?
    ensures !mode.Exited? && (!Soft(Gate(mode, op)) <==> !Soft(mode) || Hard(op) || op == BeginAbort)
    ensures Rank(Gate(mode, op)) <= 2 ==> Rank(mode) <= 2 && op != BeginAbort
  {
  }

  /** Between two points of a run a soft mode hardened if and only if a hard operation committed. */
  lemma {:induction false} HardenedBetween(log: seq<Event>, i: nat, j: nat)
    requires Legal(log) && i <= j <= |log| && Soft(ModeAt(log, i)) && Rank(ModeAt(log, j)) <= 2
    ensures !Soft(ModeAt(log, j)) <==> exists k :: i <= k < j && HardCommit(log[k])
  {
    hide Ledger.Replay, Ledger.Legal, HardCommit;
    if i < j {
      StepOf(log, j - 1);
      HardeningStep(At(log, j - 1), log[j - 1]);
      HardenedBetween(log, i, j - 1);
    }
  }

  /**
    Exactly when `on_stop` is entered although a hard mode has committed: the two arms of
    the guarded select are polled one after the other, so it happens if and only if Kill
    or a failure committed between the last poll of the hint and the entry.
   */
  lemma StopHookEntersHardExactlyByARace(log: seq<Event>, j: nat) returns (i: nat)
    requires Legal(log) && j < |log| && log[j].EnterStop?
    ensures i < j && log[i] == Wait
    ensures forall k :: i < k < j ==> log[k] != Wait && log[k] != Observe && log[k] != Consume
    ensures ModeAt(log, i) == At(log, j).watch.observed && Soft(ModeAt(log, i))
    ensures !Soft(ModeAt(log, j)) <==> exists k :: i < k < j && HardCommit(log[k])
  {
    StepOf(log, j);
    hide Ledger.Replay, Ledger.Legal;
    i := LastWait(log, j);
    HardenedBetween(log, i, j);
  }

  /** The last read of the mode, after which the actor has neither consumed nor passed a hint. */
  lemma {:induction false} LastRead(log: seq<Event>, n: nat) returns (i: nat)
    requires Legal(log) && n <= |log| && At(log, n).watch.stance == Fresh && At(log, n).watch.observed != Running
    ensures i < n && log[i] == Observe
    ensures forall k :: i < k < n ==> log[k] != Wait && log[k] != Observe && log[k] != Consume
    ensures At(log, n).watch.observed == ModeAt(log, i)
  {
    hide Ledger.Replay, Ledger.Legal, Enabled, Allowed, Apply, Inv;
    NothingReadYet(log);
    StepOf(log, n - 1);
    FreshStep(At(log, n - 1), log[n - 1]);
    if log[n - 1] == Observe {
      i := n - 1;
    } else {
      i := LastRead(log, n - 1);
    }
  }

  lemma NothingReadYet(log: seq<Event>)
    ensures At(log, 0).watch.observed == Running
  {
    assert log[..0] == [];
  }

  lemma FreshStep(w: World, e: Event)
    requires Enabled(w, e) && Apply(w, e).watch.stance == Fresh
    ensures e == Observe ==> Apply(w, e).watch.observed == w.watch.mode
    ensures e != Observe ==> Apply(w, e).watch.observed == w.watch.observed && w.watch.stance == Fresh
    ensures e != Wait && e != Consume
  {
  }

  /**
    Exactly when `on_shutdown` is entered although a hard mode has committed: the loop
    reads the mode and then calls the hook, so it happens if and only if Kill or a failure
    committed between that read and the entry.
   */
  lemma ShutdownHookEntersHardExactlyByARace(log: seq<Event>, j: nat) returns (i: nat)
    requires Legal(log) && j < |log| && log[j].OnShutdown?
    ensures i < j && log[i] == Observe
    ensures forall k :: i < k < j ==> log[k] != Wait && log[k] != Observe && log[k] != Consume
    ensures ModeAt(log, i) == (if log[j].shutdown == Drain then Draining else Stopping)
    ensures !Soft(ModeAt(log, j)) <==> exists k :: i < k < j && HardCommit(log[k])
  {
    StepOf(log, j);
    hide Ledger.Replay, Ledger.Legal;
    i := LastRead(log, j);
    HardenedBetween(log, i, j);
  }

  lemma Append(log: seq<Event>, w: World, e: Event) returns (log': seq<Event>, w': World)
    requires Legal(log) && Replay(log) == w && Enabled(w, e) && Allowed(w, e)
    ensures log' == log + [e] && w' == Apply(w, e) && Legal(log') && Replay(log') == w'
  {
    Extend(log, e);
    log', w' := log + [e], Apply(w, e);
  }

  /** A stopping actor that has read its mode. */
  lemma ReadStopping() returns (log: seq<Event>, w: World)
    ensures log == [EnterInit, Op(Request(Stop)), Consume, Observe] && Legal(log) && Replay(log) == w
    ensures w == Init().(watch := Watch(Stopping, false, Stopping, Fresh, true, false, false, false, false))
  {
    hide Ledger.Replay, Ledger.Legal;
    NothingLogged();
    log, w := Append([], Init(), EnterInit);
    log, w := Append(log, w, Op(Request(Stop)));
    log, w := Append(log, w, Consume);
    log, w := Append(log, w, Observe);
  }

  lemma NothingLogged()
    ensures Legal([]) && Replay([]) == Init()
  {
  }

  /** A stopping actor that has read its mode and passed the hint. */
  lemma PassedHint() returns (log: seq<Event>, w: World)
    ensures Legal(log) && Replay(log) == w && w.mail == Init().mail && w.family == Init().family
    ensures w.watch == Watch(Stopping, false, Stopping, Passed, true, true, false, false, false)
  {
    hide Ledger.Replay, Ledger.Legal;
    log, w := ReadStopping();
    log, w := Append(log, w, OnShutdown(Stop));
    log, w := Append(log, w, Wait);
  }

  /** The run in which `on_stop` is entered after Kill has committed. */
  lemma StopHookCanEnterAfterKill() returns (log: seq<Event>)
    ensures Legal(log) && |log| > 0 && log[|log| - 1].EnterStop?
    ensures ModeAt(log, |log| - 1) == Killing
  {
    var w;
    log, w := PassedHint();
    log, w := Append(log, w, Op(Request(Kill)));
    var before := log;
    log, w := Append(log, w, EnterStop(Stopped));
    assert log[..|log| - 1] == before;
  }

  /** The run in which `on_shutdown` is entered after Kill has committed. */
  lemma ShutdownHookCanEnterAfterKill() returns (log: seq<Event>)
    ensures log == [EnterInit, Op(Request(Stop)), Consume, Observe, Op(Request(Kill)), OnShutdown(Stop)]
    ensures Legal(log) && ModeAt(log, 5) == Killing
  {
    hide Ledger.Replay, Ledger.Legal;
    var w;
    log, w := ReadStopping();
    log, w := Append(log, w, Op(Request(Kill)));
    var before := log;
    log, w := Append(log, w, OnShutdown(Stop));
    assert log[..5] == before;
  }

  /** No cleanup hook, spawn or message follows `on_stop`, and no message is left to follow it. */
  lemma NothingFollowsTheStopHook(log: seq<Event>, i: nat, j: nat)
    requires Legal(log) && i < j < |log| && log[i].EnterStop?
    ensures !log[j].OnShutdown? && !log[j].Spawn? && !log[j].EnterHook? && !log[j].Admit?
    ensures log[j] != Commit && log[j] != Receive && log[j] != Discard
  {
    hide Ledger.Replay, Ledger.Legal;
    StepOf(log, i);
    StepOf(log, j);
    LogGrows(log, i + 1, j);
  }

  // ---------------------------------------------------------------- panics

  /** Between a panic and the commit of a hard mode only other threads act, and that commit. */
  lemma PanicsAreContainedFirst(log: seq<Event>, i: nat, j: nat)
    requires Legal(log) && i < j < |log| && log[i] == Panics && Soft(ModeAt(log, j))
    ensures Containing(log[j])
  {
    hide Ledger.Replay, Ledger.Legal;
    StepOf(log, i);
    StepOf(log, j);
    LogGrows(log, i + 1, j);
  }

  /**
    A panic of user code, wherever it happens, rules out a graceful end: no cleanup hook is
    entered after it, and what is published is `Panicked`, `Killed` or `Aborted`.
   */
  lemma PanicsNeverEndGracefully(log: seq<Event>, i: nat, j: nat)
    requires Legal(log) && i < j < |log| && log[i] == Panics
    ensures !log[j].OnShutdown? && !log[j].EnterStop?
    ensures log[j].Publish? ==>
              && !Soft(ModeAt(log, j)) && At(log, j + 1).watch.mode.Exited?
              && At(log, j + 1).watch.mode.status.reason in {Panicked, Killed, Aborted}
  {
    hide Ledger.Replay, Ledger.Legal;
    StepOf(log, i);
    StepOf(log, j);
    LogGrows(log, i + 1, j);
  }

  /** After the first panic nothing of the user's runs but destructors. */
  lemma OnlyDestructorsRunAfterAPanic(log: seq<Event>, i: nat, j: nat)
    requires Legal(log) && i < j < |log| && log[i] == Panics && log[j].Runs?
    ensures Destroys(log[j].code)
  {
    hide Ledger.Replay, Ledger.Legal;
    StepOf(log, i);
    StepOf(log, j);
    LogGrows(log, i + 1, j);
  }

  /** A panic that leaves the main future is published as an abort. */
  lemma EscapedPanicsAbort(log: seq<Event>, i: nat, j: nat)
    requires Legal(log) && i < j < |log| && log[i] == Escapes && log[j].Publish?
    ensures ModeAt(log, j) == Aborting && At(log, j + 1).watch.mode == Exited(ExitStatus(Aborted, Unconfirmed))
  {
    hide Ledger.Replay, Ledger.Legal;
    StepOf(log, i);
    StepOf(log, j);
    LogGrows(log, i + 1, j);
  }

  /** What takes an actor out of its cooperative modes for good. */
  predicate Disturbs(e: Event) {
    e == Panics || e == Abort || e == Op(BeginFailure) || e == Op(Request(Kill))
  }

  ghost predicate Disturbed(w: World) { w.watch.crashed || !Soft(w.watch.mode) }

  lemma DisturbingStep(w: World, e: Event)
    requires Enabled(w, e) && Allowed(w, e) && !Apply(w, e).watch.mode.Exited?
    ensures !w.watch.mode.Exited?
    ensures Disturbed(Apply(w, e)) <==> Disturbed(w) || Disturbs(e)
  {
    DisturbingWatch(w.watch, e);
  }

  lemma DisturbingWatch(g: Watch, e: Event)
    requires WatchEnabled(g, e) && !WatchStep(g, e).mode.Exited?
    requires e == Fail || e.BeginFail? ==> g.crashed || !Soft(g.mode)
    ensures !g.mode.Exited?
    ensures WatchStep(g, e).crashed || !Soft(WatchStep(g, e).mode) <==> g.crashed || !Soft(g.mode) || Disturbs(e)
  {
    hide Gate;
    GateEvents(g, e);
    if GateOps(e) != [] { GateHardens(g.mode, GateOps(e)[0]); }
  }

  /** Before its publication an actor is disturbed if and only if something disturbing happened. */
  lemma {:induction false} DisturbedExactlyBySomething(log: seq<Event>, n: nat)
    requires Legal(log) && n <= |log| && !ModeAt(log, n).Exited?
    ensures Disturbed(At(log, n)) <==> exists i :: 0 <= i < n && Disturbs(log[i])
  {
    hide Ledger.Legal, Disturbed, Disturbs;
    if n == 0 {
      UndisturbedAtFirst(log);
    } else {
      hide Ledger.Replay;
      StepOf(log, n - 1);
      DisturbingStep(At(log, n - 1), log[n - 1]);
      DisturbedExactlyBySomething(log, n - 1);
    }
  }

  lemma UndisturbedAtFirst(log: seq<Event>)
    ensures !Disturbed(At(log, 0))
  {
    assert log[..0] == [];
  }

  /**
    How an actor ends: it publishes `Stopped` or `Drained` if and only if none of its user
    code panicked, its task was not dropped, and nobody submitted Kill or a failure.
   */
  lemma EndsGracefullyExactlyWhenUndisturbed(log: seq<Event>)
    requires Legal(log) && log != [] && log[|log| - 1].Publish?
    ensures Replay(log).watch.mode.Exited?
    ensures Replay(log).watch.mode.status.reason in {Stopped, Drained}
            <==> forall i :: 0 <= i < |log| - 1 ==> !Disturbs(log[i])
  {
    hide Ledger.Replay, Ledger.Legal, Disturbs, Disturbed, Apply, Enabled, Allowed, Inv;
    AtEnd(log);
    StepOf(log, |log| - 1);
    GracefulPublication(At(log, |log| - 1), log[|log| - 1].proposed);
    DisturbedExactlyBySomething(log, |log| - 1);
  }

  lemma GracefulPublication(w: World, proposed: ExitStatus)
    requires Enabled(w, Publish(proposed)) && Allowed(w, Publish(proposed))
    ensures !w.watch.mode.Exited? && Apply(w, Publish(proposed)).watch.mode.Exited?
    ensures Apply(w, Publish(proposed)).watch.mode.status.reason in {Stopped, Drained} <==> !Disturbed(w)
  {
    PublishedReason(w, proposed);
  }

  /** Initialization is entered once, under a cooperative mode, before all other work of the actor. */
  lemma InitComesFirst(log: seq<Event>, j: nat) returns (i: nat)
    requires Legal(log) && j < |log|
    requires log[j] == Commit || log[j].Spawn? || log[j].EnterHook? || log[j].OnShutdown? || log[j].EnterStop?
    ensures i < j && log[i] == EnterInit && Soft(ModeAt(log, i))
    ensures forall k :: 0 <= k < |log| && log[k] == EnterInit ==> k == i
  {
    hide Ledger.Replay, Ledger.Legal;
    StepOf(log, j);
    i := InitWasEntered(log, j);
    StepOf(log, i);
    forall k | 0 <= k < |log| && log[k] == EnterInit ensures k == i {
      StepOf(log, k);
      if i < k { LogGrows(log, i + 1, k); }
      if k < i { LogGrows(log, k + 1, i); }
    }
  }

  lemma {:induction false} InitWasEntered(log: seq<Event>, n: nat) returns (i: nat)
    requires Legal(log) && n <= |log| && At(log, n).watch.initEntered
    ensures i < n && log[i] == EnterInit
  {
    hide Ledger.Legal, Enabled, Allowed, MailStep, FamilyStep, Inv;
    assert n > 0 by { assert log[..0] == []; }
    if At(log, n - 1).watch.initEntered {
      i := InitWasEntered(log, n - 1);
    } else {
      hide Ledger.Replay, Ledger.Legal, Allowed;
      StepOf(log, n - 1);
      i := n - 1;
    }
  }

  // -------------------------------------------------------------- children

  /** Each child is reaped at most once, and its exit hook is entered at most once, after its exit. */
  lemma ChildrenAreReapedOnce(log: seq<Event>, i: nat, j: nat, c: nat)
    requires Legal(log) && i < |log| && j < |log|
    requires (log[i] == Reap(c) && log[j] == Reap(c)) || (log[i] == EnterHook(c) && log[j] == EnterHook(c))
    ensures i == j && c in At(log, i).family.gone && (log[i] == EnterHook(c) ==> ModeAt(log, i) == Running)
  {
    hide Ledger.Replay, Ledger.Legal;
    StepOf(log, i);
    StepOf(log, j);
    if i < j { LogGrows(log, i + 1, j); }
    if j < i { LogGrows(log, j + 1, i); }
  }

  /** While the actor runs, a child leaves the set only by being reaped. */
  lemma {:induction false} LettingGoMeansReaping(log: seq<Event>, n: nat, c: nat) returns (k: nat)
    requires Legal(log) && n <= |log| && ModeAt(log, n) == Running
    requires c in At(log, n).family.spawned - At(log, n).family.kids
    ensures k < n && log[k] == Reap(c)
  {
    assert n > 0 by { assert log[..0] == []; }
    hide Ledger.Replay, Ledger.Legal, WatchStep, MailStep;
    StepOf(log, n - 1);
    LogGrows(log, n - 1, n);
    if c in At(log, n - 1).family.spawned - At(log, n - 1).family.kids {
      k := LettingGoMeansReaping(log, n - 1, c);
    } else {
      k := n - 1;
    }
  }

  /** An exit hook enters only for a child that was reaped before, whose registration had ended in an exit. */
  lemma HooksFollowReaping(log: seq<Event>, i: nat)
    requires Legal(log) && i < |log| && log[i].EnterHook?
    ensures exists k :: 0 <= k < i && log[k] == Reap(log[i].child)
  {
    hide Ledger.Replay, Ledger.Legal;
    StepOf(log, i);
    var k := LettingGoMeansReaping(log, i, log[i].child);
  }

  // ------------------------------------------------------- lifecycle hints

  /**
    No lifecycle change is missed: whenever the actor task parks on the hint it has
    read the committed mode, and until it reads again any change leaves the hint
    stored or already consumed for a reread.
   */
  lemma NoLifecycleChangeIsMissed(log: seq<Event>, i: nat)
    requires Legal(log) && i < |log|
    ensures log[i] == Wait ==> At(log, i).watch.observed == ModeAt(log, i)
    ensures At(log, i).watch.observed != ModeAt(log, i) ==>
              At(log, i).watch.permit || At(log, i).watch.stance == Notified
  {
    hide Ledger.Replay, Ledger.Legal;
    StepOf(log, i);
  }

  // ------------------------------------------------------- terminal reason

  /** The lifecycle transaction an event commits, if any. */
  function GateOps(e: Event): seq<GateOp> {
    match e
    case Op(op) => [op]
    case Fail => [BeginFailure]
    case Abort => [BeginAbort]
    case BeginFail(_) => [BeginFailure]
    case Publish(p) => [Finish(p)]
    case _ => []
  }

  /** The lifecycle transactions of a log. */
  function Ops(log: seq<Event>): seq<GateOp> {
    if log == [] then [] else Ops(log[..|log| - 1]) + GateOps(log[|log| - 1])
  }

  lemma GateStep(w: World, e: Event)
    requires Enabled(w, e)
    ensures Apply(w, e).watch.mode == After(w.watch.mode, GateOps(e))
    ensures w.watch.mode.Exited? || Publishes(GateOps(e)) ==> Apply(w, e).watch.mode.Exited?
  {
    if GateOps(e) != [] { assert GateOps(e)[..|GateOps(e)| - 1] == []; }
  }

  lemma PublishesConcat(a: seq<GateOp>, b: seq<GateOp>)
    ensures Publishes(a + b) ==> Publishes(a) || Publishes(b)
  {
    if Publishes(a + b) {
      var k :| 0 <= k < |a + b| && (a + b)[k].Finish?;
      assert if k < |a| then a[k].Finish? else b[k - |a|].Finish?;
    }
  }

  lemma {:induction false} ModeIsHistory(log: seq<Event>)
    requires Legal(log)
    ensures Replay(log).watch.mode == After(Running, Ops(log))
    ensures Publishes(Ops(log)) ==> Replay(log).watch.mode.Exited?
  {
    hide Apply, Enabled, Allowed, GateOps, After, Publishes;
    if log == [] {
      NoHistory();
    } else {
      var front, e := log[..|log| - 1], log[|log| - 1];
      ModeIsHistory(front);
      GateStep(Replay(front), e);
      AfterConcat(Running, Ops(front), GateOps(e));
      PublishesConcat(Ops(front), GateOps(e));
    }
  }

  lemma NoHistory()
    ensures After(Running, []) == Running && !Publishes([])
  {
  }

  /** The transactions of a published log hold an abort if and only if the task was aborting when it published. */
  lemma AbortsShow(log: seq<Event>)
    requires Legal(log) && log != [] && log[|log| - 1].Publish?
    ensures BeginAbort in Ops(log) <==> ModeAt(log, |log| - 1) == Aborting
  {
    hide Apply, Allowed, First, Ops, After, Ledger.Replay, Ledger.Legal, Inv;
    var earlier := log[..|log| - 1];
    LegalPrefix(log, |log| - 1);
    ModeIsHistory(earlier);
    HistoryDeterminesMode(Ops(earlier));
    AbortingByHistory(Ops(earlier));
    OpsSnoc(log);
  }

  lemma AbortingByHistory(ops: seq<GateOp>)
    ensures ModeByHistory(ops) == Aborting <==> BeginAbort in ops
  {
    hide First;
  }

  lemma OpsSnoc(log: seq<Event>)
    requires log != [] && log[|log| - 1].Publish?
    ensures BeginAbort in Ops(log) <==> BeginAbort in Ops(log[..|log| - 1])
  {
    hide Ops;
    OpsLast(log);
  }

  lemma OpsLast(log: seq<Event>)
    requires log != []
    ensures Ops(log) == Ops(log[..|log| - 1]) + GateOps(log[|log| - 1])
  {
    hide GateOps;
  }

  /** The reason an actor must publish after these transactions. */
  function ReasonByHistory(ops: seq<GateOp>): ExitReason {
    if BeginAbort in ops then Aborted
    else match First(ops, Hard)
      case Some(op) => if op == BeginFailure then Panicked else Killed
      case None => if First(ops, Graceful) == Some(Request(Stop)) then Stopped else Drained
  }

  /** The reason each mode is published under; publication never starts from `Running`. */
  lemma PublishedReason(w: World, proposed: ExitStatus)
    requires Enabled(w, Publish(proposed)) && Allowed(w, Publish(proposed))
    ensures !w.watch.mode.Exited? && w.watch.mode != Running && Apply(w, Publish(proposed)).watch.mode.Exited?
    ensures Apply(w, Publish(proposed)).watch.mode.status.reason ==
            match w.watch.mode
            case Stopping => Stopped
            case Draining => Drained
            case Killing => Killed
            case Failing => Panicked
            case _ => Aborted
  {
  }

  /**
    The terminal reason is a function of history alone, whatever the teardown path
    proposed: an abort wins, else the first hard operation, else the first graceful
    request; and something was requested, for an actor never exits from `Running`.
   */
  lemma TerminalReasonIsHistory(log: seq<Event>)
    requires Legal(log) && log != [] && log[|log| - 1].Publish?
    ensures var before := Ops(log[..|log| - 1]);
      && Replay(log).watch.mode.Exited?
      && Replay(log).watch.mode.status.reason == ReasonByHistory(before)
      && (BeginAbort in before || First(before, Hard).Some? || First(before, Graceful).Some?)
  {
    hide Apply, Enabled, Allowed, First, Ops, After;
    var earlier := log[..|log| - 1];
    LegalInv(earlier);
    PublishedReason(Replay(earlier), log[|log| - 1].proposed);
    ModeIsHistory(earlier);
    HistoryDeterminesMode(Ops(earlier));
  }

  /** Publication happens once. */
  lemma PublishedOnce(log: seq<Event>, i: nat, j: nat)
    requires Legal(log) && i < |log| && j < |log| && log[i].Publish? && log[j].Publish?
    ensures i == j
  {
    hide Ledger.Replay, Ledger.Legal;
    StepOf(log, i);
    StepOf(log, j);
    RankIsBounded(ModeAt(log, i));
    RankIsBounded(ModeAt(log, j));
    if i < j { LogGrows(log, i + 1, j); }
    if j < i { LogGrows(log, j + 1, i); }
  }
}
