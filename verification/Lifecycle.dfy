/**
  The lifecycle vocabulary of one actor, and the pure half of its gate.

  Every lifecycle decision is one transaction on a single `Mode`.  `Gate` gives
  that transaction for each kind of operation; the lemmas below determine the mode
  and the published status of an actor from the history of its operations alone.
 */
module Lifecycle {

  datatype Option<T> = None | Some(value: T)

  datatype Shutdown = Stop | Drain | Kill

  datatype ExitReason = Stopped | Drained | Killed | Panicked | Aborted

  datatype SubtreeStatus = Terminated | Unconfirmed

  datatype ExitStatus = ExitStatus(reason: ExitReason, subtree: SubtreeStatus)

  datatype ShutdownStatus =
    | Requested
    | InProgress(shutdown: Shutdown)
    | AlreadyExited(status: ExitStatus)

  datatype Mode =
    | Running
    | Draining
    | Stopping
    | Killing
    | Failing
    | Aborting
    | Exited(status: ExitStatus)

  /** A local abort can never claim a confirmed subtree. */
  function NewStatus(reason: ExitReason, subtree: SubtreeStatus): ExitStatus {
    ExitStatus(reason, if reason == Aborted then Unconfirmed else subtree)
  }

  /** The gate operations; `Finish` is the terminal publication. */
  datatype GateOp =
    | Request(shutdown: Shutdown)
    | BeginFailure
    | BeginAbort
    | Finish(proposed: ExitStatus)

  predicate Soft(mode: Mode) {
    mode == Running || mode == Draining || mode == Stopping
  }

  /** The modes under which an envelope may commit dispatch. */
  /** Operations that threads other than the actor's own task can submit. */
  predicate Foreign(op: GateOp) { op.Request? || op == BeginFailure }

  predicate Dispatching(mode: Mode) { mode == Running || mode == Draining }

  /** A child's unconfirmed exit sticks to its parent. */
  function Join(sticky: SubtreeStatus, child: SubtreeStatus): SubtreeStatus {
    if child == Unconfirmed then Unconfirmed else sticky
  }

  function Rank(mode: Mode): nat {
    match mode
    case Running => 0
    case Draining => 1
    case Stopping => 1
    case Killing => 2
    case Failing => 2
    case Aborting => 3
    case Exited(_) => 4
  }

  /** The reason under which `Finish(proposed)` closes an actor that has not exited. */
  function FinalReason(mode: Mode, proposed: ExitReason): ExitReason {
    if proposed == Aborted || mode == Aborting then Aborted
    else match mode
      case Killing => Killed
      case Failing => Panicked
      case _ => proposed
  }

  /** One lifecycle transaction. */
  function Gate(mode: Mode, op: GateOp): Mode {
    match op
    case Request(shutdown) =>
      (match shutdown
       case Stop => if mode == Running then Stopping else mode
       case Drain => if mode == Running then Draining else mode
       case Kill => if Soft(mode) then Killing else mode)
    case BeginFailure => if Soft(mode) then Failing else mode
    case BeginAbort => if mode.Exited? then mode else Aborting
    case Finish(proposed) =>
      if mode.Exited? then mode
      else Exited(NewStatus(FinalReason(mode, proposed.reason), proposed.subtree))
  }

  /** What a shutdown request reports to its submitter. */
  function RequestStatus(mode: Mode, shutdown: Shutdown): ShutdownStatus {
    match mode
    case Exited(status) => AlreadyExited(status)
    case Running => Requested
    case Draining => if shutdown == Kill then Requested else InProgress(Drain)
    case Stopping => if shutdown == Kill then Requested else InProgress(Stop)
    case _ => InProgress(Kill)
  }

  /** A request says `Requested` exactly when it moved the gate. */
  lemma RequestedMeansMoved(mode: Mode, shutdown: Shutdown)
    ensures RequestStatus(mode, shutdown) == Requested <==> Gate(mode, Request(shutdown)) != mode
    ensures RequestStatus(mode, shutdown).AlreadyExited? <==> mode.Exited?
    ensures RequestStatus(mode, shutdown) == InProgress(Kill) ==> !Soft(mode)
  {
  }

  /** Modes only climb: every transaction keeps the mode or strictly raises its rank. */
  lemma GateClimbs(mode: Mode, op: GateOp)
    ensures Gate(mode, op) == mode || Rank(mode) < Rank(Gate(mode, op))
  {
  }

  // ---------------------------------------------------------------- runs

  /** The mode after a history of operations. */
  function After(mode: Mode, ops: seq<GateOp>): Mode {
    if ops == [] then mode else Gate(After(mode, ops[..|ops| - 1]), ops[|ops| - 1])
  }

  lemma {:induction false} AfterConcat(mode: Mode, a: seq<GateOp>, b: seq<GateOp>)
    ensures After(mode, a + b) == After(After(mode, a), b)
  {
    if b == [] {
      assert a + b == a;
    } else {
      var last := |b| - 1;
      assert (a + b)[..|a + b| - 1] == a + b[..last];
      AfterConcat(mode, a, b[..last]);
    }
  }

  lemma {:induction false} AfterClimbs(mode: Mode, ops: seq<GateOp>)
    ensures After(mode, ops) == mode || Rank(mode) < Rank(After(mode, ops))
  {
    if ops != [] {
      var before := ops[..|ops| - 1];
      AfterClimbs(mode, before);
      GateClimbs(After(mode, before), ops[|ops| - 1]);
    }
  }

  /** A history that goes on keeps the mode or raises its rank. */
  lemma HistoryClimbs(ops: seq<GateOp>, more: seq<GateOp>)
    requires ops <= more
    ensures After(Running, more) == After(Running, ops) || Rank(After(Running, ops)) < Rank(After(Running, more))
  {
    AfterConcat(Running, ops, more[|ops|..]);
    AfterClimbs(After(Running, ops), more[|ops|..]);
    assert ops + more[|ops|..] == more;
  }

  /** A mode once left never comes back. */
  lemma NeverBack(a: seq<GateOp>, b: seq<GateOp>, c: seq<GateOp>)
    requires a <= b <= c && After(Running, a) == After(Running, c)
    ensures After(Running, b) == After(Running, a)
  {
    HistoryClimbs(a, b);
    HistoryClimbs(b, c);
  }

  /** The gate has left this mode for good. */
  predicate Past(left: Mode, mode: Mode) { mode != left && Rank(left) <= Rank(mode) }

  lemma PastStays(left: Mode, ops: seq<GateOp>, more: seq<GateOp>)
    requires ops <= more && Past(left, After(Running, ops))
    ensures Past(left, After(Running, more))
  {
    HistoryClimbs(ops, more);
  }

  // ------------------------------------------------- history determines all

  /** Hard operations cut off all cooperative work. */
  predicate Hard(op: GateOp) { op == Request(Kill) || op == BeginFailure }

  predicate Graceful(op: GateOp) { op == Request(Stop) || op == Request(Drain) }

  predicate Publishes(ops: seq<GateOp>) { exists i :: 0 <= i < |ops| && ops[i].Finish? }

  /** The first operation of a history that satisfies `choose`, if any. */
  function First(ops: seq<GateOp>, choose: GateOp -> bool): (r: Option<GateOp>)
    ensures r == None <==> forall i :: 0 <= i < |ops| ==> !choose(ops[i])
    ensures r.Some? ==> choose(r.value) && r.value in ops
  {
    if ops == [] then None
    else if choose(ops[0]) then Some(ops[0])
    else First(ops[1..], choose)
  }

  /** Appending an operation matters only when nothing earlier was chosen. */
  lemma {:induction false} FirstSnoc(ops: seq<GateOp>, op: GateOp, choose: GateOp -> bool)
    ensures First(ops + [op], choose) ==
            if First(ops, choose).Some? then First(ops, choose)
            else if choose(op) then Some(op) else None
  {
    if ops == [] {
      assert (ops + [op])[1..] == [];
    } else {
      assert (ops + [op])[1..] == ops[1..] + [op];
      FirstSnoc(ops[1..], op, choose);
    }
  }

  /**
    The mode of an unpublished actor, read off its history without replaying it:
    any abort wins; otherwise the first hard operation; otherwise the first
    graceful request.
   */
  function ModeByHistory(ops: seq<GateOp>): Mode {
    if BeginAbort in ops then Aborting
    else match First(ops, Hard)
      case Some(op) => if op == BeginFailure then Failing else Killing
      case None =>
        match First(ops, Graceful)
        case Some(op) => if op == Request(Stop) then Stopping else Draining
        case None => Running
  }

  /** The status published by `Finish(proposed)` after an unpublished history. */
  function StatusByHistory(ops: seq<GateOp>, proposed: ExitStatus): ExitStatus {
    if BeginAbort in ops || proposed.reason == Aborted then ExitStatus(Aborted, Unconfirmed)
    else match First(ops, Hard)
      case Some(op) => ExitStatus(if op == BeginFailure then Panicked else Killed, proposed.subtree)
      case None => proposed
  }

  lemma {:induction false} HistoryDeterminesMode(ops: seq<GateOp>)
    requires !Publishes(ops)
    ensures After(Running, ops) == ModeByHistory(ops)
  {
    if ops != [] {
      var before, op := ops[..|ops| - 1], ops[|ops| - 1];
      assert ops == before + [op];
      forall i | 0 <= i < |before| ensures !before[i].Finish? {
        assert before[i] == ops[i];
      }
      HistoryDeterminesMode(before);
      FirstSnoc(before, op, Hard);
      FirstSnoc(before, op, Graceful);
    }
  }

  /**
    Publication happens once and its reason is fixed by history: whatever is
    submitted after the first `Finish`, the actor keeps the status that the
    operations before it and the proposal determine.
   */
  lemma PublicationIsDeterminedOnce(ops: seq<GateOp>, proposed: ExitStatus, later: seq<GateOp>)
    requires !Publishes(ops)
    ensures After(Running, ops + [Finish(proposed)] + later) == Exited(StatusByHistory(ops, proposed))
  {
    var upto := ops + [Finish(proposed)];
    HistoryDeterminesMode(ops);
    assert upto[..|upto| - 1] == ops;
    AfterConcat(Running, upto, later);
    AfterClimbs(After(Running, upto), later);
    RankIsBounded(After(After(Running, upto), later));
  }

  lemma RankIsBounded(mode: Mode)
    ensures Rank(mode) <= 4
  {
  }

  /** A kill-path teardown of an actor whose panic was committed first publishes the panic. */
  lemma PanicBeforeKillPublishesPanicked(ops: seq<GateOp>, kills: seq<GateOp>, subtree: SubtreeStatus)
    requires After(Running, ops) == Failing
    requires forall i :: 0 <= i < |kills| ==> kills[i].Request? || kills[i] == BeginFailure
    ensures After(Running, ops + kills + [Finish(ExitStatus(Killed, subtree))]) == Exited(ExitStatus(Panicked, subtree))
  {
    FailingAbsorbs(kills);
    AfterConcat(Running, ops, kills);
    var all := ops + kills + [Finish(ExitStatus(Killed, subtree))];
    assert all[..|all| - 1] == ops + kills;
  }

  lemma {:induction false} FailingAbsorbs(kills: seq<GateOp>)
    requires forall i :: 0 <= i < |kills| ==> kills[i].Request? || kills[i] == BeginFailure
    ensures After(Failing, kills) == Failing
  {
    if kills != [] {
      FailingAbsorbs(kills[..|kills| - 1]);
    }
  }

  // ------------------------------------------------------ failure reporting

  /** The reason given to a call that a queued envelope can no longer serve. */
  function QueuedReason(mode: Mode): ExitReason {
    match mode
    case Stopping => Stopped
    case _ => DispatchReason(mode)
  }

  /** The reason given to a call whose dispatch was cut off. */
  function DispatchReason(mode: Mode): ExitReason {
    match mode
    case Killing => Killed
    case Failing => Panicked
    case Aborting => Aborted
    case Exited(status) => status.reason
    case _ => Panicked
  }
}
