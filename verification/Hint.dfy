/**
  The private lifecycle hint, step by step.

  A requester changes the mode under the watch lock and then notifies, still inside it.
  The actor waits with a notified future that it may poll again, or drop when another
  arm of the select wins.  A notification is stored, or assigned to the registered
  waiter; dropping an assigned waiter passes the notification on.
 */
module Hint {
  import opened Lifecycle

  datatype Waiter = NoWaiter | Registered | Assigned

  datatype State = State(
    mode: Mode,
    locked: bool,      // a requester is between its mode change and its notification
    stored: bool,
    waiter: Waiter,    // the actor's notified future
    observed: Mode,    // the mode the actor last read
    rereading: bool)   // a notification was received, the mode not yet reread

  datatype Step =
    | Change(op: GateOp)
    | Notify
    | Read
    | PollFresh
    | PollAgain
    | DropWaiter

  function Init(): State {
    State(Running, false, false, NoWaiter, Running, false)
  }

  /** The lock admits one requester at a time and keeps readers out; waits start after a read. */
  predicate Enabled(s: State, step: Step) {
    match step
    case Change(_) => !s.locked
    case Notify => s.locked
    case Read => !s.locked
    case PollFresh => s.waiter == NoWaiter && !s.rereading
    case PollAgain => s.waiter != NoWaiter
    case DropWaiter => s.waiter != NoWaiter
  }

  function Apply(s: State, step: Step): State
    requires Enabled(s, step)
  {
    match step
    case Change(op) => s.(mode := Gate(s.mode, op), locked := Gate(s.mode, op) != s.mode)
    case Notify =>
      if s.waiter == Registered then s.(locked := false, waiter := Assigned) else s.(locked := false, stored := true)
    case Read => s.(observed := s.mode, rereading := false)
    case PollFresh =>
      if s.stored then s.(stored := false, rereading := true) else s.(waiter := Registered)
    case PollAgain =>
      if s.waiter == Assigned then s.(waiter := NoWaiter, rereading := true) else s
    case DropWaiter => s.(waiter := NoWaiter, stored := s.stored || s.waiter == Assigned)
  }

  function Next(s: State, step: Step): State {
    if Enabled(s, step) then Apply(s, step) else s
  }

  function Run(steps: seq<Step>): State {
    if steps == [] then Init() else Next(Run(steps[..|steps| - 1]), steps[|steps| - 1])
  }

  /** The actor task is suspended with nothing to make it runnable. */
  predicate Asleep(s: State) { s.waiter == Registered }

  /** A change the actor has not read is on its way to it. */
  predicate Noticed(s: State) { s.locked || s.stored || s.waiter == Assigned || s.rereading }

  predicate Inv(s: State) {
    && (s.mode != s.observed ==> Noticed(s))
    && (s.waiter == Registered ==> !s.stored && !s.rereading)
    && Rank(s.observed) <= Rank(s.mode)
  }

  lemma StepKeepsInv(s: State, step: Step)
    requires Inv(s)
    ensures Inv(Next(s, step))
  {
    if step.Change? { GateClimbs(s.mode, step.op); }
  }

  lemma {:induction false} RunKeepsInv(steps: seq<Step>)
    ensures Inv(Run(steps))
  {
    if steps != [] {
      RunKeepsInv(steps[..|steps| - 1]);
      StepKeepsInv(Run(steps[..|steps| - 1]), steps[|steps| - 1]);
    }
  }

  /**
    No lifecycle change is missed, in any interleaving: a sleeping actor has read the
    committed mode, unless the requester that just changed it still holds the lock, and
    then that requester's notification wakes the actor.
   */
  lemma SleepersHaveReadTheMode(steps: seq<Step>)
    requires Asleep(Run(steps)) && Run(steps).observed != Run(steps).mode
    ensures Run(steps).locked
    ensures Run(steps + [Notify]).waiter == Assigned
  {
    RunKeepsInv(steps);
    assert (steps + [Notify])[..|steps + [Notify]| - 1] == steps;
  }

  /** A change that was not yet reread stays noticed until the actor reads the mode. */
  lemma {:induction false} ChangesStayNoticed(steps: seq<Step>, later: seq<Step>)
    requires Run(steps).observed != Run(steps).mode && Read !in later
    ensures Run(steps + later).observed != Run(steps + later).mode && Noticed(Run(steps + later))
  {
    if later == [] {
      assert steps + later == steps;
      RunKeepsInv(steps);
    } else {
      var front, last := later[..|later| - 1], later[|later| - 1];
      assert (steps + later)[..|steps + later| - 1] == steps + front;
      assert last in later;
      ChangesStayNoticed(steps, front);
      RunKeepsInv(steps + front);
      StepKeepsInv(Run(steps + front), last);
      if last.Change? { GateClimbs(Run(steps + front).mode, last.op); }
    }
  }

  /**
    A stored or assigned notification survives losing the select: polling again at once
    is ready, however the earlier future ended.
   */
  lemma NotificationsSurviveTheSelect(steps: seq<Step>)
    requires Run(steps).waiter == Assigned
    ensures Run(steps + [DropWaiter, PollFresh]).rereading == true
  {
    var dropped := steps + [DropWaiter];
    assert dropped[..|dropped| - 1] == steps;
    var polled := steps + [DropWaiter, PollFresh];
    assert polled[..|polled| - 1] == dropped;
    RunKeepsInv(steps);
  }
}
