/**
  Whole-tree guarantees of supervision.

  A forest of actors grows as parents register children.  Each node carries the
  actor's mode, the place of its task in teardown, the children it retains, every
  child it ever registered, and its sticky subtree status.  A run is any sequence
  of steps; a step that is not enabled leaves the forest alone.  Actor ids are
  positions, so a child is always younger than its parent.
 */
module Supervision {
  import opened Lifecycle

  datatype ChildExit = ChildExit(child: nat, status: ExitStatus)

  /** Where the actor's task stands with respect to its child set. */
  datatype Stage =
    | Active                        // cooperative work; may spawn and reap
    | Waiting(seen: set<nat>)       // inside wait_all; `seen` exits were awaited
    | Settled                       // wait_all finished and cleared the set
    | Unwinding                     // executor abort: futures drop before the set
    | Dropping(proposed: ExitStatus)// the final frame (and its child set) is dropped
    | Gone                          // the terminal status is published

  datatype Node = Node(
    parent: Option<nat>,
    mode: Mode,
    stage: Stage,
    ever: set<nat>,
    retained: set<nat>,
    sticky: SubtreeStatus,
    events: seq<ChildExit>,
    announced: bool)

  type Forest = seq<Node>

  datatype Step =
    | SpawnRoot
    | Spawn(actor: nat)
    | Submit(actor: nat, op: GateOp)      // a request, or a contained panic
    | Reap(actor: nat)
    | StartWait(actor: nat)
    | SeeExit(actor: nat, child: nat)
    | CancelWait(actor: nat)
    | EndWait(actor: nat)
    | Return(actor: nat, reason: ExitReason)
    | Abort(actor: nat)
    | DropFrame(actor: nat)
    | DropOwner(actor: nat, child: nat)
    | Publish(actor: nat)
    | Announce(actor: nat)

  function Fresh(parent: Option<nat>): Node {
    Node(parent, Running, Active, {}, {}, Terminated, [], false)
  }

  /** Dropping an owner requests Kill from the actor it owns. */
  function KillRequested(node: Node): Node {
    node.(mode := Gate(node.mode, Request(Kill)))
  }

  function KillAll(forest: Forest, actors: set<nat>): (r: Forest)
    ensures |r| == |forest|
    ensures forall i :: 0 <= i < |r| ==> r[i] == if i in actors then KillRequested(forest[i]) else forest[i]
  {
    seq(|forest|, i requires 0 <= i < |forest| => if i in actors then KillRequested(forest[i]) else forest[i])
  }

  predicate SpawnsAllowed(stage: Stage) { stage == Active || stage == Unwinding }

  /** `wait_all` awaits an exit only through the child's published status. */
  predicate Enabled(forest: Forest, step: Step) {
    match step
    case SpawnRoot => true
    case Spawn(a) => a < |forest| && SpawnsAllowed(forest[a].stage)
    case Submit(a, op) => a < |forest| && (op.Request? || op == BeginFailure)
    case Reap(a) => a < |forest| && forest[a].stage == Active && forest[a].events != []
    case StartWait(a) => a < |forest| && (forest[a].stage == Active || forest[a].stage == Settled)
    case SeeExit(a, c) =>
      a < |forest| && forest[a].stage.Waiting? && c < |forest| && c in forest[a].retained && forest[c].mode.Exited?
    case CancelWait(a) => a < |forest| && forest[a].stage.Waiting?
    case EndWait(a) => a < |forest| && forest[a].stage.Waiting? && forest[a].stage.seen == forest[a].retained
    case Return(a, reason) => a < |forest| && (forest[a].stage == Settled || (reason == Aborted
            && !forest[a].stage.Gone? && !forest[a].stage.Dropping?))
    case Abort(a) => a < |forest|
            && (forest[a].stage == Active || forest[a].stage.Waiting? || forest[a].stage == Settled)
    case DropFrame(a) => a < |forest| && forest[a].stage == Unwinding
    case DropOwner(a, c) => a < |forest| && forest[a].stage.Dropping? && c in forest[a].retained
    case Publish(a) => a < |forest| && forest[a].stage.Dropping? && forest[a].retained == {}
    case Announce(a) =>
      a < |forest| && forest[a].mode.Exited? && !forest[a].announced && forest[a].parent.Some?
              && forest[a].parent.value < a
  }

  function Apply(forest: Forest, step: Step): Forest
    requires Enabled(forest, step)
  {
    match step
    case SpawnRoot => forest + [Fresh(None)]
    case Spawn(a) =>
      var child := |forest|;
      var n := forest[a];
      forest[a := n.(ever := n.ever + {child}, retained := n.retained + {child})] + [Fresh(Some(a))]
    case Submit(a, op) => forest[a := forest[a].(mode := Gate(forest[a].mode, op))]
    case Reap(a) =>
      var n, event := forest[a], forest[a].events[0];
      var rest := n.(events := n.events[1..]);
      if event.child !in n.retained then forest[a := rest]
      else
        var reaped := rest.(retained := n.retained - {event.child}, sticky := Join(n.sticky, event.status.subtree));
        KillAll(forest[a := reaped], {event.child})
    case StartWait(a) => forest[a := forest[a].(stage := Waiting({}))]
    case SeeExit(a, c) =>
      var n := forest[a];
      forest[a := n.(stage := Waiting(n.stage.seen + {c}), sticky := Join(n.sticky, forest[c].mode.status.subtree))]
    case CancelWait(a) => forest[a := forest[a].(stage := Active)]
    case EndWait(a) => KillAll(forest[a := forest[a].(stage := Settled, retained := {})], forest[a].retained)
    case Return(a, reason) =>
      forest[a := forest[a].(stage := Dropping(NewStatus(reason, forest[a].sticky)))]
    case Abort(a) => forest[a := forest[a].(mode := Gate(forest[a].mode, BeginAbort), stage := Unwinding)]
    case DropFrame(a) => forest[a := forest[a].(stage := Dropping(NewStatus(Aborted, Unconfirmed)))]
    case DropOwner(a, c) => KillAll(forest[a := forest[a].(retained := forest[a].retained - {c})], {c})
    case Publish(a) =>
      forest[a := forest[a].(mode := Gate(forest[a].mode, Finish(forest[a].stage.proposed)), stage := Gone)]
    case Announce(a) =>
      var n := forest[a];
      var p := n.parent.value;
      var parent := forest[p];
      forest[a := n.(announced := true)][p := parent.(events := parent.events + [ChildExit(a, n.mode.status)])]
  }

  function Next(forest: Forest, step: Step): Forest {
    if Enabled(forest, step) then Apply(forest, step) else forest
  }

  function Run(steps: seq<Step>): Forest {
    if steps == [] then [] else Next(Run(steps[..|steps| - 1]), steps[|steps| - 1])
  }

  // -------------------------------------------------------------- invariant

  /** The child exited and its own subtree was confirmed. */
  predicate Clean(forest: Forest, c: nat) {
    c < |forest| && forest[c].mode.Exited? && forest[c].mode.status.subtree == Terminated
  }

  predicate Tainted(forest: Forest, c: nat) {
    c < |forest| && forest[c].mode.Exited? && forest[c].mode.status.subtree == Unconfirmed
  }

  /** The node still vouches for the children it let go of. */
  predicate Vouches(n: Node) {
    || n.stage == Active || n.stage.Waiting? || n.stage == Settled
    || (n.stage.Dropping? && n.stage.proposed.subtree == Terminated)
    || (n.mode.Exited? && n.mode.status.subtree == Terminated)
  }

  ghost predicate LinksOk(forest: Forest, a: nat)
    requires a < |forest|
  {
    var n := forest[a];
    && (forall c :: c in n.ever ==> a < c < |forest|)
    && n.retained <= n.ever
    && (n.parent.Some? ==> n.parent.value < a && a in forest[n.parent.value].ever)
  }

  predicate StageOk(n: Node) {
    && (n.stage == Gone <==> n.mode.Exited?)
    && (n.stage == Unwinding ==> n.mode == Aborting)
    && (n.stage == Settled || n.stage == Gone ==> n.retained == {})
    && (n.stage.Dropping? ==> n.stage.proposed.reason == Aborted ==> n.stage.proposed.subtree == Unconfirmed)
    && (n.stage.Dropping? && n.mode == Aborting ==> n.stage.proposed.reason == Aborted)
    && (n.stage.Dropping? && n.stage.proposed.subtree == Terminated ==> n.sticky == Terminated && n.retained == {})
    && (n.stage.Dropping? && n.stage.proposed.subtree == Unconfirmed ==>
          n.stage.proposed.reason == Aborted || n.sticky == Unconfirmed)
    && (n.mode == Aborting ==> n.stage == Unwinding || n.stage.Dropping?)
    && (n.mode.Exited? ==>
          && (n.mode.status.subtree == Terminated ==> n.sticky == Terminated && n.mode.status.reason != Aborted)
          && (n.mode.status.subtree == Unconfirmed ==> n.mode.status.reason == Aborted || n.sticky == Unconfirmed))
  }

  ghost predicate LetGoOk(forest: Forest, a: nat)
    requires a < |forest|
  {
    var n := forest[a];
    && (forall c :: c in n.ever && c !in n.retained ==> c < |forest| && Rank(forest[c].mode) >= 2)
    && (Vouches(n) && n.sticky == Terminated ==> forall c :: c in n.ever && c !in n.retained ==> Clean(forest, c))
    && (n.stage.Waiting? ==> n.stage.seen <= n.retained)
    && (n.stage.Waiting? ==> forall c :: c in n.stage.seen ==> c < |forest| && forest[c].mode.Exited?)
    && (n.stage.Waiting? && n.sticky == Terminated ==> forall c :: c in n.stage.seen ==> Clean(forest, c))
    && (n.sticky == Unconfirmed ==> exists c :: c in n.ever && Tainted(forest, c))
  }

  ghost predicate EventsOk(forest: Forest, a: nat)
    requires a < |forest|
  {
    forall e :: e in forest[a].events
            ==> e.child < |forest| && forest[e.child].mode == Exited(e.status) && e.child in forest[a].ever
  }

  ghost predicate NodeOk(forest: Forest, a: nat)
    requires a < |forest|
  {
    LinksOk(forest, a) && StageOk(forest[a]) && LetGoOk(forest, a) && EventsOk(forest, a)
  }

  ghost predicate Inv(forest: Forest) {
    forall a :: 0 <= a < |forest| ==> NodeOk(forest, a)
  }

  /** No mode goes back, no parent changes, no registration is forgotten. */
  ghost predicate Grows(before: Forest, after: Forest) {
    && |before| <= |after|
    && forall i :: 0 <= i < |before| ==>
         && (after[i].mode == before[i].mode || Rank(before[i].mode) < Rank(after[i].mode))
         && after[i].parent == before[i].parent
         && before[i].ever <= after[i].ever
  }

  /** Steps of one actor on its own node. */
  predicate OwnStep(step: Step) {
    step.Submit? || step.StartWait? || step.CancelWait? || step.Return? || step.Abort? || step.DropFrame?
            || step.Publish?
  }

  lemma OwnStepGrows(forest: Forest, step: Step)
    requires Enabled(forest, step) && OwnStep(step)
    ensures Grows(forest, Apply(forest, step))
  {
  }

  lemma ReapGrows(forest: Forest, a: nat)
    requires Enabled(forest, Reap(a))
    ensures Grows(forest, Apply(forest, Reap(a)))
  {
  }

  /** Steps that drop owners, and the arrival of new actors. */
  lemma DropOrSpawnGrows(forest: Forest, step: Step)
    requires Enabled(forest, step) && (step.EndWait? || step.DropOwner? || step.Spawn? || step.SpawnRoot?)
    ensures Grows(forest, Apply(forest, step))
  {
  }

  lemma ReportGrows(forest: Forest, step: Step)
    requires Enabled(forest, step) && (step.SeeExit? || step.Announce?)
    ensures Grows(forest, Apply(forest, step))
  {
  }

  lemma ApplyGrows(forest: Forest, step: Step)
    requires Enabled(forest, step)
    ensures Grows(forest, Apply(forest, step))
  {
    hide Apply, Grows;
    if OwnStep(step) {
      OwnStepGrows(forest, step);
    } else if step.Reap? {
      ReapGrows(forest, step.actor);
    } else if step.SeeExit? || step.Announce? {
      ReportGrows(forest, step);
    } else {
      DropOrSpawnGrows(forest, step);
    }
  }

  /** A node the step does not rewrite keeps its invariant while others grow. */
  lemma KeepsNode(before: Forest, after: Forest, a: nat)
    requires Grows(before, after) && a < |before| && NodeOk(before, a)
    requires after[a] == before[a] || after[a] == KillRequested(before[a])
    ensures NodeOk(after, a)
  {
    FactsStay(before, after);
  }

  lemma ExitedStays(before: Forest, after: Forest, c: nat)
    requires Grows(before, after) && c < |before|
    ensures before[c].mode.Exited? ==> after[c].mode == before[c].mode
    ensures Rank(before[c].mode) <= Rank(after[c].mode)
  {
    RankIsBounded(after[c].mode);
  }

  /** Every fact about a child that an invariant relies on survives growth. */
  lemma FactsStay(before: Forest, after: Forest)
    requires Grows(before, after)
    ensures forall c: nat :: Clean(before, c) ==> Clean(after, c)
    ensures forall c: nat :: Tainted(before, c) ==> Tainted(after, c)
    ensures forall c: nat :: c < |before| && before[c].mode.Exited? ==> after[c].mode == before[c].mode
    ensures forall c: nat :: c < |before| ==> Rank(before[c].mode) <= Rank(after[c].mode)
  {
    forall c: nat | c < |before|
      ensures before[c].mode.Exited? ==> after[c].mode == before[c].mode
      ensures Rank(before[c].mode) <= Rank(after[c].mode)
    {
      ExitedStays(before, after, c);
    }
  }

  lemma SubmitKeepsNode(forest: Forest, a: nat, op: GateOp)
    requires Inv(forest) && Enabled(forest, Submit(a, op))
    ensures NodeOk(Apply(forest, Submit(a, op)), a)
  {
    ApplyGrows(forest, Submit(a, op));
    FactsStay(forest, Apply(forest, Submit(a, op)));
    assert NodeOk(forest, a);
  }

  lemma PublishKeepsNode(forest: Forest, a: nat)
    requires Inv(forest) && Enabled(forest, Publish(a))
    ensures NodeOk(Apply(forest, Publish(a)), a)
  {
    ApplyGrows(forest, Publish(a));
    FactsStay(forest, Apply(forest, Publish(a)));
    assert NodeOk(forest, a);
  }

  lemma StageKeepsNode(forest: Forest, step: Step)
    requires Inv(forest) && Enabled(forest, step)
    requires (OwnStep(step) || step.Announce?) && !step.Submit? && !step.Publish?
    ensures NodeOk(Apply(forest, step), step.actor)
  {
    ApplyGrows(forest, step);
    FactsStay(forest, Apply(forest, step));
    assert NodeOk(forest, step.actor);
  }

  /** Steps that move only the actor's own mode or stage keep its links, children and events. */
  lemma OwnStepKeepsNode(forest: Forest, step: Step)
    requires Inv(forest) && Enabled(forest, step)
    requires OwnStep(step) || step.Announce?
    ensures NodeOk(Apply(forest, step), step.actor)
  {
    if step.Submit? {
      SubmitKeepsNode(forest, step.actor, step.op);
    } else if step.Publish? {
      PublishKeepsNode(forest, step.actor);
    } else {
      StageKeepsNode(forest, step);
    }
  }

  lemma SpawnKeepsNode(forest: Forest, a: nat)
    requires Inv(forest) && Enabled(forest, Spawn(a))
    ensures NodeOk(Apply(forest, Spawn(a)), a) && NodeOk(Apply(forest, Spawn(a)), |forest|)
  {
    ApplyGrows(forest, Spawn(a));
    FactsStay(forest, Apply(forest, Spawn(a)));
    assert NodeOk(forest, a);
  }

  lemma ReapKeepsNode(forest: Forest, a: nat)
    requires Inv(forest) && Enabled(forest, Reap(a))
    ensures NodeOk(Apply(forest, Reap(a)), a)
  {
    var after := Apply(forest, Reap(a));
    ApplyGrows(forest, Reap(a));
    FactsStay(forest, after);
    assert NodeOk(forest, a);
    var event := forest[a].events[0];
    assert event in forest[a].events;
    assert forall e :: e in after[a].events ==> e in forest[a].events;
    if event.status.subtree == Unconfirmed {
      assert Tainted(after, event.child);
    } else {
      assert Clean(after, event.child);
    }
  }

  lemma SeeExitKeepsNode(forest: Forest, a: nat, c: nat)
    requires Inv(forest) && Enabled(forest, SeeExit(a, c))
    ensures NodeOk(Apply(forest, SeeExit(a, c)), a)
  {
    var after := Apply(forest, SeeExit(a, c));
    ApplyGrows(forest, SeeExit(a, c));
    FactsStay(forest, after);
    assert NodeOk(forest, a);
    if Tainted(forest, c) {
      assert Tainted(after, c);
    } else {
      assert Clean(after, c);
    }
  }

  lemma EndWaitKeepsNode(forest: Forest, a: nat)
    requires Inv(forest) && Enabled(forest, EndWait(a))
    ensures NodeOk(Apply(forest, EndWait(a)), a)
  {
    ApplyGrows(forest, EndWait(a));
    FactsStay(forest, Apply(forest, EndWait(a)));
    assert NodeOk(forest, a);
  }

  lemma DropOwnerKeepsNode(forest: Forest, a: nat, c: nat)
    requires Inv(forest) && Enabled(forest, DropOwner(a, c))
    ensures NodeOk(Apply(forest, DropOwner(a, c)), a)
  {
    ApplyGrows(forest, DropOwner(a, c));
    FactsStay(forest, Apply(forest, DropOwner(a, c)));
    assert NodeOk(forest, a);
  }

  /** One step keeps the invariant of the node whose actor takes it. */
  lemma ActorKeepsNode(forest: Forest, step: Step)
    requires Inv(forest) && Enabled(forest, step) && !step.SpawnRoot?
    ensures NodeOk(Apply(forest, step), step.actor)
  {
    match step
    case Spawn(a) => SpawnKeepsNode(forest, a);
    case Reap(a) => ReapKeepsNode(forest, a);
    case SeeExit(a, c) => SeeExitKeepsNode(forest, a, c);
    case EndWait(a) => EndWaitKeepsNode(forest, a);
    case DropOwner(a, c) => DropOwnerKeepsNode(forest, a, c);
    case _ => OwnStepKeepsNode(forest, step);
  }

  lemma StepKeepsInv(forest: Forest, step: Step)
    requires Inv(forest)
    ensures Inv(Next(forest, step))
  {
    if Enabled(forest, step) {
      var after := Apply(forest, step);
      ApplyGrows(forest, step);
      if !step.SpawnRoot? { ActorKeepsNode(forest, step); }
      forall i | 0 <= i < |after| && (step.SpawnRoot? || i != step.actor) ensures NodeOk(after, i) {
        if i < |forest| {
          assert NodeOk(forest, i);
          if step.Announce? && i == forest[step.actor].parent.value {
            AnnounceKeepsParent(forest, step.actor);
          } else {
            KeepsNode(forest, after, i);
          }
        }
      }
    }
  }

  lemma AnnounceKeepsParent(forest: Forest, a: nat)
    requires Inv(forest) && Enabled(forest, Announce(a))
    ensures NodeOk(Apply(forest, Announce(a)), forest[a].parent.value)
  {
    var after, p := Apply(forest, Announce(a)), forest[a].parent.value;
    ApplyGrows(forest, Announce(a));
    assert NodeOk(forest, a) && NodeOk(forest, p);
    var quiet := after[p := forest[p]];
    KeepsNode(forest, quiet, p);
    KeepsNode(quiet, quiet, p);
    forall e | e in after[p].events
      ensures e.child < |after| && after[e.child].mode == Exited(e.status) && e.child in after[p].ever
    {
      if e !in forest[p].events { assert e == ChildExit(a, forest[a].mode.status); }
    }
    assert forall c: nat :: Clean(quiet, c) <==> Clean(after, c);
    assert forall c: nat :: Tainted(quiet, c) <==> Tainted(after, c);
  }

  lemma {:induction false} RunKeepsInv(steps: seq<Step>)
    ensures Inv(Run(steps))
  {
    if steps != [] {
      RunKeepsInv(steps[..|steps| - 1]);
      StepKeepsInv(Run(steps[..|steps| - 1]), steps[|steps| - 1]);
    }
  }

  // --------------------------------------------------------------- theorems

  /** `path` walks from an actor to one of its descendants, one registration at a time. */
  ghost predicate Path(forest: Forest, path: seq<nat>) {
    && path != []
    && (forall i :: 0 <= i < |path| ==> path[i] < |forest|)
    && (forall i :: 0 <= i < |path| - 1 ==> path[i + 1] in forest[path[i]].ever)
  }

  predicate ExitedWith(forest: Forest, a: nat, subtree: SubtreeStatus) {
    a < |forest| && forest[a].mode.Exited? && forest[a].mode.status.subtree == subtree
  }

  predicate AbortedExit(forest: Forest, a: nat) {
    a < |forest| && forest[a].mode.Exited? && forest[a].mode.status.reason == Aborted
  }

  lemma {:induction false} ConfirmationReaches(forest: Forest, path: seq<nat>)
    requires Inv(forest) && Path(forest, path) && ExitedWith(forest, path[0], Terminated)
    ensures ExitedWith(forest, path[|path| - 1], Terminated) && !AbortedExit(forest, path[|path| - 1])
  {
    assert NodeOk(forest, path[0]);
    if |path| > 1 {
      assert path[1] in forest[path[0]].ever;
      assert Clean(forest, path[1]);
      assert Path(forest, path[1..]);
      ConfirmationReaches(forest, path[1..]);
    }
  }

  /** Every unconfirmed exit can be traced down to the abort that caused it. */
  lemma {:induction false} TraceTaint(forest: Forest, a: nat) returns (path: seq<nat>)
    requires Inv(forest) && ExitedWith(forest, a, Unconfirmed)
    ensures Path(forest, path) && path[0] == a && AbortedExit(forest, path[|path| - 1])
    decreases |forest| - a
  {
    assert NodeOk(forest, a);
    if AbortedExit(forest, a) {
      path := [a];
    } else {
      var c: nat :| c in forest[a].ever && Tainted(forest, c);
      var rest := TraceTaint(forest, c);
      path := [a] + rest;
    }
  }

  /**
    Subtree confirmation is exact over the unbounded tree, in every reachable
    forest: a published status is `Terminated` if and only if no actor at or below
    it was aborted, and then every descendant ever registered, reaped or not, has
    itself published a confirmed exit.
   */
  lemma ConfirmationIsExact(steps: seq<Step>, a: nat)
    requires a < |Run(steps)| && Run(steps)[a].mode.Exited?
    ensures var forest := Run(steps);
      && (forest[a].mode.status.subtree == Terminated <==>
            forall path :: Path(forest, path) && path[0] == a ==> !AbortedExit(forest, path[|path| - 1]))
      && (forest[a].mode.status.subtree == Terminated ==>
            forall path :: Path(forest, path) && path[0] == a ==> ExitedWith(forest, path[|path| - 1], Terminated))
  {
    var forest := Run(steps);
    RunKeepsInv(steps);
    if forest[a].mode.status.subtree == Terminated {
      forall path | Path(forest, path) && path[0] == a
        ensures ExitedWith(forest, path[|path| - 1], Terminated) && !AbortedExit(forest, path[|path| - 1])
      {
        ConfirmationReaches(forest, path);
      }
    } else {
      var path := TraceTaint(forest, a);
    }
  }

  /**
    No live orphan: once a parent exits, by any path, every child it ever
    registered has exited or is already killing, failing or aborting.
   */
  lemma NoLiveOrphan(steps: seq<Step>, a: nat, c: nat)
    requires a < |Run(steps)| && Run(steps)[a].mode.Exited? && c in Run(steps)[a].ever
    ensures c < |Run(steps)| && !Soft(Run(steps)[c].mode)
  {
    RunKeepsInv(steps);
    assert NodeOk(Run(steps), a);
  }

  /** Reaping never changes the child: its exit was published before its event was sent. */
  lemma ReapingLeavesTheChildAlone(steps: seq<Step>, a: nat, i: nat)
    requires Enabled(Run(steps), Reap(a)) && i < |Run(steps)| && i != a
    ensures Next(Run(steps), Reap(a))[i] == Run(steps)[i]
  {
    RunKeepsInv(steps);
    assert NodeOk(Run(steps), a);
    assert Run(steps)[a].events[0] in Run(steps)[a].events;
  }

  /** Statuses stick: no later step of any actor changes a published exit. */
  lemma {:induction false} ExitsAreFinal(steps: seq<Step>, later: seq<Step>, a: nat)
    requires a < |Run(steps)| && Run(steps)[a].mode.Exited?
    ensures a < |Run(steps + later)| && Run(steps + later)[a].mode == Run(steps)[a].mode
  {
    if later == [] {
      assert steps + later == steps;
    } else {
      var last := |later| - 1;
      assert (steps + later)[..|steps + later| - 1] == steps + later[..last];
      ExitsAreFinal(steps, later[..last], a);
      var before := Run(steps + later[..last]);
      if Enabled(before, later[last]) {
        ApplyGrows(before, later[last]);
        ExitedStays(before, Apply(before, later[last]), a);
      }
    }
  }
}
