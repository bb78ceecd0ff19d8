/**
  The children one actor owns: registration, reaping, shutdown of all, the resumable
  wait for all, and the sticky subtree status they add up to.
 */
module Children {
  import opened Lifecycle
  import opened Gatekeeping

  datatype Exit = Exit(child: nat, status: ExitStatus)

  /** The modes of every child ever registered. */
  type Modes = map<nat, Mode>

  /** The child has exited, and its exit confirms its own subtree. */
  predicate Confirmed(mode: Mode) { mode.Exited? && mode.status.subtree == Terminated }

  predicate Unsure(mode: Mode) { mode.Exited? && mode.status.subtree == Unconfirmed }

  /** Children let go of have exited, and `subtree` is exactly what they and the seen ones add up to. */
  ghost predicate StatusOk(modes: Modes, kept: set<nat>, subtree: SubtreeStatus) {
    && (forall k :: k in modes && k !in kept ==> modes[k].Exited?)
    && (subtree == Terminated ==> forall k :: k in modes && k !in kept ==> Confirmed(modes[k]))
    && (subtree == Unconfirmed ==> exists k :: k in modes && Unsure(modes[k]))
  }

  ghost predicate EventsOk(modes: Modes, events: seq<Exit>) {
    forall e :: e in events ==> e.child in modes && modes[e.child] == Exited(e.status)
  }

  /** Exactly the children in `asked` took the operation. */
  ghost predicate Asked(before: Modes, after: Modes, asked: set<nat>, op: GateOp) {
    && after.Keys == before.Keys
    && forall k :: k in before ==> after[k] == if k in asked then Gate(before[k], op) else before[k]
  }

  /** Children ran: none was forgotten and no mode went back. */
  ghost predicate Climbed(before: Modes, after: Modes) {
    && after.Keys == before.Keys
    && forall k :: k in before ==> after[k] == before[k] || Rank(before[k]) < Rank(after[k])
  }

  lemma GateClimbed(modes: Modes, k: nat, op: GateOp)
    requires k in modes
    ensures Climbed(modes, modes[k := Gate(modes[k], op)])
  {
    GateClimbs(modes[k], op);
  }

  lemma StatusStays(before: Modes, after: Modes, kept: set<nat>, subtree: SubtreeStatus, events: seq<Exit>)
    requires Climbed(before, after) && StatusOk(before, kept, subtree) && EventsOk(before, events)
    ensures StatusOk(after, kept, subtree) && EventsOk(after, events)
  {
    forall k | k in before ensures before[k].Exited? ==> after[k] == before[k] {
      RankIsBounded(after[k]);
    }
    if subtree == Unconfirmed {
      var k :| k in before && Unsure(before[k]);
      assert Unsure(after[k]);
    }
  }

  /** Retained owners are registered, keys are fresh, children are distinct, the limit holds. */
  ghost predicate Linked(actors: map<nat, Control>, ever: map<nat, Control>, next: nat, limit: Option<nat>) {
    && (forall k :: k in actors ==> k in ever && actors[k] == ever[k])
    && (forall k :: k in ever ==> k < next)
    && (forall j, k :: j in ever && k in ever && j != k ==> ever[j] != ever[k])
    && (limit.Some? ==> |actors| <= limit.value)
  }

  lemma LinkOneMore(actors: map<nat, Control>, ever: map<nat, Control>, next: nat, limit: Option<nat>, child: Control)
    requires Linked(actors, ever, next, limit) && child !in ever.Values
    requires limit.Some? ==> |actors| < limit.value
    ensures next !in ever && Linked(actors[next := child], ever[next := child], next + 1, limit)
  {
    assert next !in actors;
    assert forall k :: k in ever ==> ever[k] in ever.Values;
  }

  lemma LinkOneLess(actors: map<nat, Control>, ever: map<nat, Control>, next: nat, limit: Option<nat>, k: nat)
    requires Linked(actors, ever, next, limit) && k in actors
    ensures Linked(actors - {k}, ever, next, limit)
  {
    assert actors == (actors - {k})[k := actors[k]];
  }

  lemma StatusOneMore(modes: Modes, kept: set<nat>, subtree: SubtreeStatus, events: seq<Exit>, key: nat, mode: Mode)
    requires StatusOk(modes, kept, subtree) && EventsOk(modes, events) && key !in modes
    ensures StatusOk(modes[key := mode], kept + {key}, subtree) && EventsOk(modes[key := mode], events)
  {
    if subtree == Unconfirmed {
      var k :| k in modes && Unsure(modes[k]);
      assert Unsure(modes[key := mode][k]);
    }
  }

  lemma StatusOneLess(modes: Modes, kept: set<nat>, subtree: SubtreeStatus, k: nat)
    requires StatusOk(modes, kept, subtree) && k in modes && modes[k].Exited?
    ensures StatusOk(modes, kept - {k}, Join(subtree, modes[k].status.subtree))
  {
  }

  ghost predicate AllExited(modes: Modes, keys: set<nat>) {
    forall k :: k in keys ==> k in modes && modes[k].Exited?
  }

  ghost predicate AllConfirmed(modes: Modes, keys: set<nat>) {
    forall k :: k in keys ==> k in modes && Confirmed(modes[k])
  }

  lemma ClimbedOn(a: Modes, b: Modes, c: Modes)
    requires Climbed(a, b) && Climbed(b, c)
    ensures Climbed(a, c)
  {
  }

  lemma ExitsStay(before: Modes, after: Modes, keys: set<nat>)
    requires Climbed(before, after) && AllExited(before, keys)
    ensures AllExited(after, keys) && (AllConfirmed(after, keys) <==> AllConfirmed(before, keys))
  {
    forall k | k in keys ensures after[k] == before[k] {
      RankIsBounded(after[k]);
    }
  }

  /** The event of this exit has been sent, is about to be, or has been taken and not yet dealt with. */
  ghost predicate Announced(k: nat, status: ExitStatus, events: seq<Exit>, owed: set<nat>, taken: Option<Exit>) {
    Exit(k, status) in events || k in owed || taken == Some(Exit(k, status))
  }

  /** No retained child's exit is lost on its way to its parent. */
  ghost predicate Covered(modes: Modes, kept: set<nat>, events: seq<Exit>, owed: set<nat>, taken: Option<Exit>) {
    && (forall k :: k in kept && k in modes && modes[k].Exited? ==> Announced(k, modes[k].status, events, owed, taken))
    && (forall k :: k in owed ==> k in modes && modes[k].Exited?)
    && (taken.Some? ==> taken.value.child in modes && modes[taken.value.child] == Exited(taken.value.status))
  }

  /** A child that publishes owes its parent the event. */
  function Owing(modes: Modes, k: nat, mode: Mode, owed: set<nat>): set<nat>
    requires k in modes
  {
    if mode.Exited? && !modes[k].Exited? then owed + {k} else owed
  }

  lemma OneChildMoves(modes: Modes, k: nat, op: GateOp, kept: set<nat>, events: seq<Exit>, owed: set<nat>,
                      taken: Option<Exit>)
    requires Covered(modes, kept, events, owed, taken) && k in modes
    ensures Covered(modes[k := Gate(modes[k], op)], kept, events, Owing(modes, k, Gate(modes[k], op), owed), taken)
  {
  }

  lemma OneMoreChild(modes: Modes, key: nat, mode: Mode, kept: set<nat>, events: seq<Exit>, owed: set<nat>,
                     taken: Option<Exit>)
    requires Covered(modes, kept, events, owed, taken) && key !in modes
    ensures var now := if mode.Exited? then owed + {key} else owed;
      Covered(modes[key := mode], kept + {key}, events, now, taken)
  {
  }

  lemma EventTaken(modes: Modes, kept: set<nat>, events: seq<Exit>, owed: set<nat>)
    requires Covered(modes, kept, events, owed, None) && EventsOk(modes, events) && events != []
    ensures Covered(modes, kept, events[1..], owed, Some(events[0]))
  {
    assert events == [events[0]] + events[1..];
    assert events[0] in events;
  }

  lemma EventDealtWith(modes: Modes, kept: set<nat>, events: seq<Exit>, owed: set<nat>, taken: Option<Exit>)
    requires Covered(modes, kept, events, owed, taken) && taken.Some?
    ensures Covered(modes, kept - {taken.value.child}, events, owed, None)
  {
  }

  lemma EventSent(modes: Modes, kept: set<nat>, events: seq<Exit>, owed: set<nat>, taken: Option<Exit>, k: nat)
    requires Covered(modes, kept, events, owed, taken) && k in owed
    ensures Covered(modes, kept, events + [Exit(k, modes[k].status)], owed - {k}, taken)
  {
  }

  lemma OneMoreExit(modes: Modes, keys: set<nat>, k: nat)
    requires AllExited(modes, keys) && k in modes && modes[k].Exited?
    ensures AllExited(modes, keys + {k})
    ensures AllConfirmed(modes, keys + {k}) <==> AllConfirmed(modes, keys) && Confirmed(modes[k])
  {
  }

  /** A request leaves an exited child alone. */
  lemma AskingExitedIsIdle(before: Modes, after: Modes, keys: set<nat>)
    requires Asked(before, after, keys, GateOp.Request(Kill)) && AllExited(before, keys)
    ensures after == before
  {
  }

  class ChildSet {
    /** Registered owners; keys are generational, so a key is never used twice. */
    var actors: map<nat, Control>
    var nextKey: nat
    var subtree: SubtreeStatus
    var events: seq<Exit>
    /** The event the parent has taken and not yet dealt with. */
    var taken: Option<Exit>
    /** Children that have published their exit and not yet sent its event. */
    var owed: set<nat>
    const limit: Option<nat>
    var fuel: nat
    /** Every child ever registered; their tasks run on their own. */
    var ever: map<nat, Control>

    ghost predicate LinksOk()
      reads this
    {
      Linked(actors, ever, nextKey, limit)
    }

    ghost predicate ControlsOk()
      reads this`ever, ever.Values
    {
      forall k :: k in ever ==> ever[k].Valid()
    }

    ghost function AllModes(): Modes
      reads this`ever, ever.Values
    {
      map k | k in ever :: ever[k].mode
    }

    ghost predicate Valid()
      reads this, ever.Values
    {
      && LinksOk() && ControlsOk() && StatusOk(AllModes(), actors.Keys, subtree) && EventsOk(AllModes(), events)
      && Covered(AllModes(), actors.Keys, events, owed, taken)
    }

    constructor (limit: Option<nat>, fuel: nat)
      ensures Valid() && ever == map[] && actors == map[] && subtree == Terminated && this.limit == limit
      ensures taken == None
    {
      this.limit, this.fuel := limit, fuel;
      actors, nextKey, subtree, events, ever := map[], 0, Terminated, [], map[];
      taken, owed := None, {};
    }

    lemma RetainedIsRegistered(k: nat)
      requires Valid()
      ensures k in actors ==> k in ever && actors[k] == ever[k]
    {
    }

    lemma Distinct(j: nat, k: nat)
      requires Valid() && j in ever && k in ever
      ensures ever[j] == ever[k] <==> j == k
    {
    }

    /** One lifecycle transaction of one child. */
    method Ask(k: nat, owner: Control, op: GateOp)
      requires Valid() && k in ever && owner == ever[k]
      modifies owner, this`owed
      ensures Valid() && AllModes() == old(AllModes())[k := Gate(old(AllModes())[k], op)]
      ensures owed == Owing(old(AllModes()), k, AllModes()[k], old(owed))
    {
      hide Control.Valid, StatusOk, EventsOk, Linked, Covered;
      ghost var before := AllModes();
      forall j | j in ever ensures j != k ==> ever[j] != owner {
        Distinct(j, k);
      }
      OneChildMoves(before, k, op, actors.Keys, events, owed, taken);
      if Gate(owner.mode, op).Exited? && !owner.mode.Exited? { owed := owed + {k}; }
      owner.Transact(op);
      assert ControlsOk();
      assert AllModes() == before[k := Gate(before[k], op)];
      GateClimbed(before, k, op);
      StatusStays(before, AllModes(), actors.Keys, subtree, events);
    }

    /** Admission of one more child; the spawner gets its argument back when this fails. */
    method Admit() returns (ok: bool)
      requires Valid()
      ensures ok <==> (limit == None || |actors| < limit.value)
    {
      ok := limit == None || |actors| < limit.value;
    }

    /** Registers ownership before the child's task can start. */
    method Register(child: Control) returns (key: nat)
      requires Valid() && child.Valid() && child !in ever.Values
      requires limit.Some? ==> |actors| < limit.value
      modifies this`actors, this`nextKey, this`ever, this`owed
      ensures Valid() && key !in old(ever) && actors == old(actors)[key := child] && ever == old(ever)[key := child]
      ensures AllModes() == old(AllModes())[key := child.mode]
    {
      hide Control.Valid, StatusOk, EventsOk, Linked, Covered;
      key := nextKey;
      LinkOneMore(actors, ever, key, limit, child);
      StatusOneMore(AllModes(), actors.Keys, subtree, events, key, child.mode);
      OneMoreChild(AllModes(), key, child.mode, actors.Keys, events, owed, taken);
      nextKey := nextKey + 1;
      if child.mode.Exited? { owed := owed + {key}; }
      Enroll(key, child);
      assert actors[key := child].Keys == actors.Keys + {key};
      actors := actors[key := child];
    }

    /**
      Spawning one child: a full set refuses it and stays as it was; otherwise it is
      registered, and the set stays within its limit.
     */
    method Spawn(child: Control) returns (key: Option<nat>)
      requires Valid() && child.Valid() && child !in ever.Values
      modifies this`actors, this`nextKey, this`ever, this`owed
      ensures Valid() && (key == None <==> limit.Some? && |old(actors)| >= limit.value)
      ensures key == None ==> actors == old(actors) && ever == old(ever) && nextKey == old(nextKey) && owed == old(owed)
      ensures key.Some? ==> key.value !in old(ever) && actors == old(actors)[key.value := child]
      ensures key.Some? ==> ever == old(ever)[key.value := child] && (limit.Some? ==> |actors| <= limit.value)
      ensures key.Some? ==> AllModes() == old(AllModes())[key.value := child.mode]
    {
      hide Control.Valid, StatusOk, EventsOk, Covered;
      var ok := Admit();
      if !ok { return None; }
      var issued := Register(child);
      key := Some(issued);
    }

    method Enroll(key: nat, child: Control)
      requires ControlsOk() && child.Valid() && key !in ever
      modifies this`ever
      ensures ControlsOk() && ever == old(ever)[key := child] && AllModes() == old(AllModes())[key := child.mode]
    {
      ever := ever[key := child];
    }

    /** The oldest child event, if there is one, is taken. */
    method PollExit() returns (r: Option<Exit>)
      requires Valid() && taken == None
      modifies this`events, this`taken
      ensures Valid() && AllModes() == old(AllModes()) && taken == r
      ensures r == if old(events) == [] then None else Some(old(events)[0])
      ensures events == if old(events) == [] then [] else old(events)[1..]
      ensures r.Some? ==> r.value.child in ever && AllModes()[r.value.child] == Exited(r.value.status)
    {
      hide Control.Valid, StatusOk, Linked, Covered;
      if events == [] { return None; }
      EventTaken(AllModes(), actors.Keys, events, owed);
      r := Some(events[0]);
      events, taken := events[1..], r;
    }

    /**
      Takes an exited child out of the set.  Dropping its owner requests Kill, which
      cannot move a child whose exit was published before its event was sent.
     */
    method Reap(event: Exit) returns (reaped: bool)
      requires Valid() && taken == Some(event)
      modifies this`actors, this`subtree, this`taken, this`owed, ever.Values
      ensures Valid() && taken == None && reaped == (event.child in old(actors))
      ensures actors == old(actors) - {event.child} && AllModes() == old(AllModes())
      ensures subtree == if reaped then Join(old(subtree), event.status.subtree) else old(subtree)
    {
      hide Control.Valid, StatusOk, EventsOk, Linked, Covered;
      ghost var modes := AllModes();
      TakenHasExited(event);
      RetainedIsRegistered(event.child);
      reaped := event.child in actors;
      if !reaped {
        assert actors - {event.child} == actors;
        Settle(event);
        return;
      }
      var owner := actors[event.child];
      Release(event.child, event.status.subtree);
      Ask(event.child, owner, GateOp.Request(Kill));
      assert AllModes() == modes;
      Settle(event);
    }

    lemma TakenHasExited(event: Exit)
      requires Valid() && taken == Some(event)
      ensures event.child in ever && AllModes()[event.child] == Exited(event.status)
    {
    }

    /** The event in hand has been dealt with: its child is no longer retained. */
    method Settle(event: Exit)
      requires Valid() && taken == Some(event) && event.child !in actors
      modifies this`taken
      ensures Valid() && taken == None && AllModes() == old(AllModes())
    {
      hide Control.Valid, StatusOk, EventsOk, Linked, Covered;
      EventDealtWith(AllModes(), actors.Keys, events, owed, taken);
      assert actors.Keys - {event.child} == actors.Keys;
      taken := None;
    }

    /**
      No exit is forgotten: once every published exit has been sent, a retained child that
      has exited is told of by a queued event or by the one in hand.
     */
    lemma NoExitIsForgotten(k: nat)
      requires Valid() && k in actors && AllModes()[k].Exited? && owed == {}
      ensures events != [] || taken.Some?
      ensures Exit(k, AllModes()[k].status) in events || taken == Some(Exit(k, AllModes()[k].status))
    {
      assert Announced(k, AllModes()[k].status, events, owed, taken);
    }

    /** The oldest child event is taken and its registration reaped, if it is still there. */
    method ReapNext() returns (event: Option<Exit>, reaped: bool)
      requires Valid() && taken == None
      modifies this`events, this`actors, this`subtree, this`taken, this`owed, ever.Values
      ensures Valid() && taken == None && AllModes() == old(AllModes())
      ensures event == if old(events) == [] then None else Some(old(events)[0])
      ensures reaped <==> event.Some? && event.value.child in old(actors)
      ensures actors == if reaped then old(actors) - {event.value.child} else old(actors)
      ensures subtree == if reaped then Join(old(subtree), event.value.status.subtree) else old(subtree)
    {
      hide Control.Valid, StatusOk, EventsOk, Linked, Covered;
      event := PollExit();
      reaped := false;
      if event.Some? {
        reaped := Reap(event.value);
        assert !reaped ==> actors == old(actors);
      }
    }

    /** The registration goes, and its status sticks. */
    method Release(k: nat, status: SubtreeStatus)
      requires Valid() && k in actors && AllModes()[k].Exited? && AllModes()[k].status.subtree == status
      modifies this`actors, this`subtree
      ensures Valid() && actors == old(actors) - {k} && subtree == Join(old(subtree), status)
      ensures AllModes() == old(AllModes())
    {
      hide Control.Valid, StatusOk, EventsOk, Linked;
      RetainedIsRegistered(k);
      LinkOneLess(actors, ever, nextKey, limit, k);
      StatusOneLess(AllModes(), actors.Keys, subtree, k);
      actors := actors - {k};
      assert actors.Keys == old(actors).Keys - {k};
      if status == Unconfirmed { subtree := Unconfirmed; }
    }

    /** Submits one request to every retained child. */
    method RequestAll(shutdown: Shutdown)
      requires Valid()
      modifies ever.Values, this`owed
      ensures Valid() && Asked(old(AllModes()), AllModes(), actors.Keys, GateOp.Request(shutdown))
    {
      hide Control.Valid, StatusOk, EventsOk, Linked, Covered;
      var todo := actors.Keys;
      while todo != {}
        invariant Valid() && todo <= actors.Keys
        invariant Asked(old(AllModes()), AllModes(), actors.Keys - todo, GateOp.Request(shutdown))
      {
        var k :| k in todo;
        RetainedIsRegistered(k);
        Ask(k, actors[k], GateOp.Request(shutdown));
        todo := todo - {k};
      }
      assert actors.Keys - todo == actors.Keys;
    }

    /** A child's own task takes a step, or a published child sends its event. */
    method ChildStep()
      requires Valid()
      modifies this`events, this`owed, ever.Values
      ensures Valid() && Climbed(old(AllModes()), AllModes())
    {
      hide Control.Valid, StatusOk, EventsOk, Linked, Covered;
      if ever.Keys == {} { return; }
      var sends: bool := *;
      if sends && owed != {} {
        var k :| k in owed;
        Announce(k);
        return;
      }
      var k :| k in ever.Keys;
      var op: GateOp := *;
      ghost var before := AllModes();
      GateClimbed(before, k, op);
      Ask(k, ever[k], op);
    }

    /** A child that has published its exit sends the event. */
    method Announce(k: nat)
      requires Valid() && k in owed
      modifies this`events, this`owed
      ensures Valid() && AllModes() == old(AllModes()) && k in ever && AllModes()[k].Exited?
      ensures events == old(events) + [Exit(k, AllModes()[k].status)] && owed == old(owed) - {k}
    {
      hide Control.Valid, StatusOk, Linked;
      EventSent(AllModes(), actors.Keys, events, owed, taken, k);
      events, owed := events + [Exit(k, ever[k].mode.status)], owed - {k};
    }

    /** Children run for any finite time. */
    method ChildrenRun()
      requires Valid()
      modifies this`events, this`owed, ever.Values
      ensures Valid() && Climbed(old(AllModes()), AllModes())
    {
      hide Control.Valid, StatusOk, EventsOk, Linked, Covered;
      var n: nat := *;
      while n > 0
        invariant Valid() && Climbed(old(AllModes()), AllModes())
      {
        ghost var before := AllModes();
        ChildStep();
        ClimbedOn(old(AllModes()), before, AllModes());
        n := n - 1;
      }
    }

    /** Waits for one child; `None` means the wait was cancelled. */
    method WaitForExit(k: nat) returns (status: Option<ExitStatus>)
      requires Valid() && k in ever
      modifies this`events, this`owed, this`fuel, ever.Values
      ensures Valid() && Climbed(old(AllModes()), AllModes())
      ensures status.Some? ==> AllModes()[k] == Exited(status.value)
      ensures status == None ==> !AllModes()[k].Exited? && fuel == 0
    {
      hide Control.Valid, StatusOk, EventsOk, Linked, Covered;
      ChildrenRun();
      while !ever[k].mode.Exited?
        invariant Valid() && Climbed(old(AllModes()), AllModes())
        decreases fuel
      {
        if fuel == 0 { return None; }
        fuel := fuel - 1;
        ghost var before := AllModes();
        ChildrenRun();
        ClimbedOn(old(AllModes()), before, AllModes());
      }
      status := Some(ever[k].mode.status);
    }

    /**
      Waits for every retained child in turn and keeps each result before the next wait,
      so a cancelled wait forgets nothing; at the end the set is cleared.
     */
    method WaitAll() returns (done: bool, ghost seen: set<nat>)
      requires Valid()
      modifies this`actors, this`subtree, this`events, this`owed, this`fuel, ever.Values
      ensures Valid() && Climbed(old(AllModes()), AllModes())
      ensures old(subtree) == Unconfirmed ==> subtree == Unconfirmed
      ensures !done ==> actors == old(actors) && fuel == 0
      // The results kept are exactly those of the children seen to exit, all of them in the end.
      ensures seen <= old(actors).Keys && AllExited(AllModes(), seen) && (done ==> seen == old(actors).Keys)
      ensures subtree == Terminated <==> old(subtree) == Terminated && AllConfirmed(AllModes(), seen)
      // A wait is cut off only at a child that has not exited.
      ensures !done ==> exists k :: k in actors && k !in seen && k in AllModes() && !AllModes()[k].Exited?
      ensures done ==> actors == map[] && AllExited(AllModes(), old(actors).Keys)
      ensures done ==> (subtree == Terminated
              <==> old(subtree) == Terminated && AllConfirmed(AllModes(), old(actors).Keys))
    {
      hide Control.Valid, StatusOk, EventsOk, Linked, Covered;
      var todo := actors.Keys;
      seen := {};
      while todo != {}
        invariant Valid() && todo <= actors.Keys && actors == old(actors) && seen == actors.Keys - todo
        invariant Climbed(old(AllModes()), AllModes())
        invariant AllExited(AllModes(), actors.Keys - todo)
        invariant subtree == Terminated <==> old(subtree) == Terminated && AllConfirmed(AllModes(), actors.Keys - todo)
        decreases todo
      {
        var k :| k in todo;
        ghost var before := AllModes();
        var exited := WaitForOne(k);
        ClimbedOn(old(AllModes()), before, AllModes());
        ExitsStay(before, AllModes(), actors.Keys - todo);
        if !exited { return false, seen; }
        OneMoreExit(AllModes(), actors.Keys - todo, k);
        assert actors.Keys - (todo - {k}) == (actors.Keys - todo) + {k};
        todo := todo - {k};
        seen := seen + {k};
      }
      assert actors.Keys - todo == actors.Keys;
      Clear();
      done := true;
    }

    /** One child of the wait: its exit is awaited and its status kept. */
    method WaitForOne(k: nat) returns (exited: bool)
      requires Valid() && k in actors
      modifies this`subtree, this`events, this`owed, this`fuel, ever.Values
      ensures Valid() && Climbed(old(AllModes()), AllModes())
      ensures !exited ==> subtree == old(subtree) && k in AllModes() && !AllModes()[k].Exited? && fuel == 0
      ensures exited ==> k in AllModes() && AllModes()[k].Exited?
      ensures exited ==> (subtree == Terminated <==> old(subtree) == Terminated && Confirmed(AllModes()[k]))
    {
      hide Control.Valid, StatusOk, EventsOk, Linked, Covered;
      RetainedIsRegistered(k);
      var status := WaitForExit(k);
      if status == None { return false; }
      Note(k, status.value.subtree);
      exited := true;
    }

    /** An awaited status sticks. */
    method Note(k: nat, status: SubtreeStatus)
      requires Valid() && k in ever && AllModes()[k].Exited? && AllModes()[k].status.subtree == status
      modifies this`subtree
      ensures Valid() && AllModes() == old(AllModes()) && subtree == Join(old(subtree), status)
    {
      hide Control.Valid, EventsOk, Linked, Covered;
      if status == Unconfirmed {
        assert Unsure(AllModes()[k]);
        subtree := Unconfirmed;
      }
    }

    /** Drops every owner; the Kill each one requests finds an exited child. */
    method Clear()
      requires Valid() && AllExited(AllModes(), actors.Keys)
      requires subtree == Terminated ==> AllConfirmed(AllModes(), actors.Keys)
      modifies this`actors, this`owed, ever.Values
      ensures Valid() && actors == map[] && AllModes() == old(AllModes())
    {
      hide Control.Valid, StatusOk, EventsOk, Linked, Covered;
      RequestAll(Kill);
      AskingExitedIsIdle(old(AllModes()), AllModes(), actors.Keys);
      EmptyTheSet();
    }

    method EmptyTheSet()
      requires Valid() && AllExited(AllModes(), actors.Keys)
      requires subtree == Terminated ==> AllConfirmed(AllModes(), actors.Keys)
      modifies this`actors
      ensures Valid() && actors == map[] && AllModes() == old(AllModes())
    {
      hide Control.Valid, EventsOk;
      actors := map[];
    }

    /**
      The terminal status of an actor whose set is empty: it is confirmed exactly when every
      child it ever registered published a confirmed exit.
     */
    method TerminalStatus(reason: ExitReason) returns (status: ExitStatus)
      requires Valid()
      ensures status == NewStatus(reason, subtree)
      ensures actors == map[] && reason != Aborted ==>
                (status.subtree == Terminated <==> AllConfirmed(AllModes(), ever.Keys))
    {
      hide Control.Valid, EventsOk, Linked, Covered;
      status := NewStatus(reason, subtree);
    }

    /** The frame is destroyed with children still retained: each owner requests Kill as it drops. */
    method DropAll()
      requires Valid()
      modifies ever.Values, this`owed
      ensures Valid() && Asked(old(AllModes()), AllModes(), actors.Keys, GateOp.Request(Kill))
      ensures forall k :: k in ever ==> !Soft(AllModes()[k])
    {
      hide Control.Valid, EventsOk, Linked, Covered;
      RequestAll(Kill);
    }
  }
}
