/**
  The ready-key queue of one actor scheduler.

  Every method changes the shared cells one atomic step at a time and lets the waker
  threads and lifecycle requesters run in between (`Interfere`).  `trace` records the
  steps, so every execution is a run of the wake machine and inherits its theorems.
 */
module ReplyQueue {
  import opened Lifecycle
  import opened Gatekeeping
  import opened WakeMachine
  import opened WakeTheorems

  const ACTIVE_POLL_BUDGET: nat := 16

  /** `Unwound` stands for a panic that leaves the poll; the actor loop contains it. */
  datatype ReplyPoll = Pending | Progress | Leased | BudgetExhausted | Unwound

  /** What one poll of a user future did. */
  datatype Outcome = Waits | Finished | Panics

  /** User code of the reply in hand, and any wakers, ran. */
  ghost predicate UserRan(s: State, t: State) {
    && WakersRan(s, t.(lease := s.lease))
    && (t.lease == s.lease || t.lease == None || Holds(t.hand, t.lease.value))
  }

  lemma NobodyRan(s: State, t: seq<Action>)
    ensures UserRan(s, s) && WakersRan(s, s) && Extends(t, t)
  {
  }

  lemma UserRanTwice(s: State, t: State, u: State)
    requires UserRan(s, t) && UserRan(t, u)
    ensures UserRan(s, u)
  {
  }

  lemma ExtendsTwice(a: seq<Action>, b: seq<Action>, c: seq<Action>)
    requires Extends(a, b) && Extends(b, c)
    ensures Extends(a, c)
  {
  }

  /** What the drain found at the head of the ready queue. */
  datatype KeyFound = NoKey | StaleKey | ReadyKey

  /** What one iteration of a drain did. */
  datatype Drained = QueueEnd | Skipped | Waited | Completed | Holding | Burst

  /** Of the keys queued before, those not among the `popped` oldest are still at the head. */
  ghost predicate StillQueued(was: seq<Key>, popped: nat, now: seq<Key>) {
    popped >= |was| || was[popped..] <= now
  }

  lemma StillQueuedOn(was: seq<Key>, popped: nat, mid: seq<Key>, now: seq<Key>)
    requires StillQueued(was, popped, mid) && StillQueued(mid, 1, now)
    ensures StillQueued(was, popped + 1, now)
  {
    if popped + 1 < |was| {
      assert mid[0] == was[popped];
      assert was[popped + 1..] == was[popped..][1..] <= mid[1..];
    }
  }

  function Polls(drained: Drained): nat {
    if drained == QueueEnd || drained == Skipped then 0 else 1
  }

  class Queue {
    // the slot map
    var versions: seq<nat>
    var issued: set<Key>
    var items: set<Key>
    // the wakes and the shared queue
    var flags: set<Key>
    var ready: seq<Key>
    var armed: set<Key>
    var swapped: multiset<Key>
    var pushed: multiset<Key>
    var lease: Option<Key>
    var finished: set<Key>
    var woken: bool
    ghost var hand: Hand
    ghost var expects: Option<Mode>
    ghost var trace: seq<Action>
    /** The gate of the actor whose replies these are. */
    const control: Control
    /** When set, every notification is one uninterrupted step. */
    const coarse: bool

    ghost function View(): State
      reads this, control
    {
      State(versions, issued, items, flags, ready, armed, swapped, pushed, lease, hand, finished, woken,
            control.mode, expects)
    }

    ghost predicate Valid()
      reads this, control
    {
      && control.Valid()
      && Legal(Init(), trace) && View() == Run(Init(), trace) && (coarse ==> Coarse(trace))
    }

    /** What the run has polled, popped, visited and dispatched. */
    ghost function Log(): Tally
      reads this`trace
    {
      Tallied(trace)
    }

    /** No step of the run has spent a registration in vain. */
    ghost predicate Listening()
      reads this`trace
    {
      HollowFree(Init(), trace)
    }

    constructor (coarse: bool)
      ensures Valid() && View() == Init() && this.coarse == coarse && trace == [] && fresh(control)
    {
      control := new Control();
      versions, issued, items, flags, ready, armed := [], {}, {}, {}, [], {};
      swapped, pushed, lease, finished, woken := multiset{}, multiset{}, None, {}, false;
      hand, expects, trace := Empty, None, [];
      this.coarse := coarse;
    }

    /** Validity carries the machine's invariant; a listening queue is attentive, and a coarse one listens. */
    lemma Reachable()
      requires Valid()
      ensures Inv(View())
      ensures Listening() ==> Attentive(View())
      ensures coarse ==> NobodyInFlight(View()) && Listening()
    {
      ReachableInv(trace);
      if Listening() { HollowFreeRunsAreAttentive(trace); }
      if coarse { CoarseRunsAreAttentive(trace); }
    }

    lemma EmptyQueueIsQuiet()
      requires Valid() && hand == Empty && ready == []
      ensures forall k :: k in ReadySet(View()) ==> swapped[k] > 0
      ensures Listening() ==> Heard(View())
      ensures coarse ==> ReadySet(View()) == {}
    {
      Reachable();
      if Listening() { DrainedIsHeard(View()); }
      forall k | k in ReadySet(View()) ensures swapped[k] > 0 {
        assert Backed(View(), k);
      }
    }

    ghost predicate Steps(before: State, beforeTrace: seq<Action>, a: Action)
      reads this, control
    {
      Enabled(before, a) && View() == Apply(before, a) && trace == beforeTrace + [a]
    }

    /** Extends the run by the step the fields have just taken. */
    ghost method Record(before: State, a: Action)
      requires control.Valid()
      requires Legal(Init(), trace) && before == Run(Init(), trace) && (coarse ==> Coarse(trace) && !PartialWake(a))
      requires Enabled(before, a) && View() == Apply(before, a)
      modifies this`trace
      ensures Valid() && trace == old(trace) + [a] && View() == Apply(before, a)
      ensures Log() == WakeMachine.Count(old(Log()), a)
    {
      Extend(Init(), trace, a);
      TallySnoc(trace, a);
      trace := trace + [a];
    }

    // -------------------------------------------------------- waker threads

    method SwapFlag(k: Key)
      requires Valid() && !coarse && k in issued
      modifies this
      ensures Valid() && Steps(old(View()), old(trace), Swap(k))
    {
      hide WakeMachine.Run, WakeMachine.Legal, WakeMachine.Tallied, HollowFree, WakeMachine.Enabled, WakeMachine.Apply;
      ghost var before := View();
      WakeMachine.SwapApplies(before, k);
      if k in flags {
        pushed := Inc(pushed, k);
      } else {
        flags := flags + {k};
        swapped := Inc(swapped, k);
      }
      Record(before, Swap(k));
    }

    method PushKey(k: Key)
      requires Valid() && !coarse && swapped[k] > 0
      modifies this
      ensures Valid() && Steps(old(View()), old(trace), Push(k))
    {
      hide WakeMachine.Run, WakeMachine.Legal, WakeMachine.Tallied, HollowFree, WakeMachine.Enabled, WakeMachine.Apply;
      ghost var before := View();
      WakeMachine.PushApplies(before, k);
      ready := ready + [k];
      swapped := Dec(swapped, k);
      pushed := Inc(pushed, k);
      assert View() == AfterPush(before, k);
      Record(before, Push(k));
    }

    method WakeActor(k: Key)
      requires Valid() && !coarse && pushed[k] > 0
      modifies this
      ensures Valid() && Steps(old(View()), old(trace), WakeTask(k))
    {
      hide WakeMachine.Run, WakeMachine.Legal, WakeMachine.Tallied, HollowFree, WakeMachine.Enabled, WakeMachine.Apply;
      ghost var before := View();
      WakeMachine.WakeApplies(before, k);
      pushed := Dec(pushed, k);
      woken := woken || k in armed;
      armed := armed - {k};
      assert View() == AfterWake(before, k);
      Record(before, WakeTask(k));
    }

    method NotifyOnce(k: Key)
      requires Valid() && k in issued
      modifies this
      ensures Valid() && Steps(old(View()), old(trace), Notify(k))
    {
      hide WakeMachine.Run, WakeMachine.Legal, WakeMachine.Tallied, HollowFree, WakeMachine.Enabled, WakeMachine.Apply;
      ghost var before := View();
      WakeMachine.NotifyApplies(before, k);
      Announce(k);
      Record(before, Notify(k));
    }

    /** Marks the reply ready, queues its key if that is new, and wakes the task it registered. */
    method Announce(k: Key)
      modifies this`flags, this`ready, this`woken, this`armed
      ensures View() == AfterNotify(old(View()), k)
    {
      if k !in flags {
        ready := ready + [k];
      }
      flags := flags + {k};
      woken := woken || k in armed;
      armed := armed - {k};
    }

    /** One step of some waker thread, if it can take one. */
    method WakerActs()
      requires Valid()
      modifies this
      ensures Valid() && WakersRan(old(View()), View()) && Extends(old(trace), trace)
      ensures old(Heard(View())) ==> Heard(View())
    {
      hide WakeMachine.Run, WakeMachine.Legal, WakeMachine.Tallied, HollowFree;
      var k: Key := *;
      var choice: nat := *;
      ghost var before, beforeTrace := View(), trace;
      ghost var a := Notify(k);
      if coarse || choice == 0 {
        if k !in issued { return; }
        NotifyOnce(k);
      } else if choice == 1 {
        if k !in issued { return; }
        a := Swap(k);
        SwapFlag(k);
      } else if choice == 2 {
        if swapped[k] == 0 { return; }
        a := Push(k);
        PushKey(k);
      } else {
        if pushed[k] == 0 { return; }
        a := WakeTask(k);
        WakeActor(k);
      }
      WakerStepRan(before, a);
      if Heard(before) { WakersKeepHeard(before, a); }
      TallySnoc(beforeTrace, a);
    }

    /** Some thread submits a lifecycle operation. */
    method GateActs(op: GateOp)
      requires Valid() && Foreign(op)
      modifies this, control
      ensures Valid() && WakersRan(old(View()), View()) && Extends(old(trace), trace)
      ensures old(Heard(View())) ==> Heard(View())
      ensures old(control.ops) <= control.ops
    {
      hide WakeMachine.Run, WakeMachine.Legal, WakeMachine.Tallied, HollowFree;
      ghost var before := View();
      GateStepRan(before, op);
      control.Transact(op);
      Record(before, Action.Op(op));
    }

    /** Between two steps of the actor task anything foreign may happen, any finite number of times. */
    method Interfere()
      requires Valid()
      modifies this, control
      ensures Valid() && WakersRan(old(View()), View()) && Extends(old(trace), trace)
      ensures old(Heard(View())) ==> Heard(View())
      ensures old(control.ops) <= control.ops
    {
      hide WakeMachine.Run, WakeMachine.Legal, WakeMachine.Tallied, HollowFree, WakersRan, Extends, Heard;
      NobodyRan(View(), trace);
      var n: nat := *;
      while n > 0
        invariant Valid() && WakersRan(old(View()), View()) && Extends(old(trace), trace)
        invariant old(Heard(View())) ==> Heard(View())
        invariant old(control.ops) <= control.ops
      {
        ghost var mid, past := View(), trace;
        var op: GateOp := *;
        var gate: bool := *;
        if gate && Foreign(op) { GateActs(op); } else { WakerActs(); }
        WakersRanTwice(old(View()), mid, View());
        ExtendsTwice(old(trace), past, trace);
        n := n - 1;
      }
    }

    // ----------------------------------------- atomic steps of the actor task

    /** Steps that leave the shared cells alone: marks in the run only. */
    ghost method Mark(a: Action)
      requires Valid() && Enabled(View(), a) && (a == TakeChild || a.Enter?)
      modifies this`trace
      ensures Valid() && trace == old(trace) + [a] && View() == old(View())
      ensures Log() == WakeMachine.Count(old(Log()), a)
    {
      hide WakeMachine.Run, WakeMachine.Legal, WakeMachine.Tallied, HollowFree;
      Record(View(), a);
    }

    /** A message has left the inbox; its dispatch begins. */
    ghost method TakeEnvelope(id: nat)
      requires Valid() && hand == Empty && lease == None
      modifies this`hand, this`trace
      ensures Valid() && old(trace) <= trace && View() == old(View()).(hand := Envelope(id))
      ensures Log() == WakeMachine.Count(old(Log()), Deliver(id))
    {
      hide WakeMachine.Run, WakeMachine.Legal, WakeMachine.Tallied, HollowFree;
      ghost var before := View();
      hand := Envelope(id);
      Record(before, Deliver(id));
    }

    /** The message in hand gets no reply slot. */
    ghost method DeclineEnvelope()
      requires Valid() && hand.Envelope?
      modifies this`hand, this`trace
      ensures Valid() && View() == old(View()).(hand := Empty) && Extends(old(trace), trace)
    {
      hide WakeMachine.Run, WakeMachine.Legal, WakeMachine.Tallied, HollowFree;
      ghost var before := View();
      hand := Empty;
      Record(before, Decline);
    }

    method StartPoll()
      requires Valid() && hand == Empty
      modifies this
      ensures Valid() && View() == old(View()).(woken := false) && Extends(old(trace), trace)
    {
      hide WakeMachine.Run, WakeMachine.Legal, WakeMachine.Tallied, HollowFree;
      ghost var before := View();
      woken := false;
      Record(before, StartTurn);
    }

    method WakeSelf()
      requires Valid() && hand == Empty
      modifies this
      ensures Valid() && View() == old(View()).(woken := true) && Extends(old(trace), trace)
    {
      hide WakeMachine.Run, WakeMachine.Legal, WakeMachine.Tallied, HollowFree;
      ghost var before := View();
      woken := true;
      Record(before, SelfWake);
    }

    /** The arena may reuse any vacant slot or open a new one. */
    method ChooseSlot() returns (slot: nat)
      requires Valid() && hand.Envelope? && lease == None
      ensures Enabled(View(), Allocate(slot)) && WakeMachine.NextKey(View(), slot) !in issued + items
    {
      hide WakeMachine.Run, WakeMachine.Legal, WakeMachine.Tallied, HollowFree;
      Reachable();
      slot := *;
      if slot >= |versions| || exists k :: k in items && k.slot == slot {
        slot := |versions|;
      }
      NextKeyIsFresh(View(), slot);
    }

    /** Reserves a slot and issues its next key. */
    method AllocateKey() returns (key: Key)
      requires Valid() && hand.Envelope? && lease == None
      modifies this
      ensures Valid() && Extends(old(trace), trace)
      ensures key !in old(issued) && key !in items
      ensures View() == old(View()).(versions := versions, issued := old(issued) + {key}, hand := Building(key))
    {
      hide WakeMachine.Run, WakeMachine.Legal, WakeMachine.Tallied, HollowFree;
      ghost var before := View();
      var slot := ChooseSlot();
      ghost var a := Allocate(slot);
      key := Key(slot, if slot < |versions| then versions[slot] else 0);
      versions := if slot < |versions| then versions[slot := key.version + 1] else versions + [1];
      issued := issued + {key};
      hand := Building(key);
      Record(before, a);
    }

    /** Marks the implicit first poll ready and stores the reply. */
    method InsertReply(key: Key)
      requires Valid() && hand == Building(key)
      modifies this
      ensures Valid() && hand == Empty && Extends(old(trace), trace)
      ensures items == old(items) + {key} && key in flags && lease == old(lease) && finished == old(finished)
      ensures issued == old(issued) && woken == old(woken)
    {
      hide WakeMachine.Run, WakeMachine.Legal, WakeMachine.Tallied, HollowFree;
      ghost var before := View();
      if key !in flags {
        flags := flags + {key};
        ready := ready + [key];
      }
      items := items + {key};
      hand := Empty;
      Record(before, Insert);
    }

    method PopReady() returns (key: Option<Key>)
      requires Valid() && hand == Empty && lease == None
      modifies this
      ensures Valid()
      ensures key == None <==> old(ready) == []
      ensures key == None ==> View() == old(View()) && trace == old(trace)
      ensures key.Some? ==>
                && View() == old(View()).(ready := old(ready)[1..], hand := Popped(key.value))
                && old(trace) <= trace && Log() == WakeMachine.Count(old(Log()), Pop)
                && Pressure(View()) == old(Pressure(View())) - 1
    {
      hide WakeMachine.Run, WakeMachine.Legal, WakeMachine.Tallied, HollowFree;
      if ready == [] {
        return None;
      }
      ghost var before := View();
      key := Some(ready[0]);
      ready := ready[1..];
      hand := Popped(key.value);
      Record(before, Pop);
    }

    /** A popped key without a live item, or without a set flag, is dropped. */
    ghost method SkipKey(key: Key)
      requires Valid() && hand == Popped(key) && (key !in items || key !in flags)
      modifies this`hand, this`trace
      ensures Valid() && View() == old(View()).(hand := Empty) && Extends(old(trace), trace)
    {
      hide WakeMachine.Run, WakeMachine.Legal, WakeMachine.Tallied, HollowFree;
      ghost var before := View();
      hand := Empty;
      Record(before, Skip);
    }

    /** Clears the ready flag of the reply about to be polled; a leased poll notes the mode it serves. */
    method TakeReady(key: Key, ghost asked: Option<Mode>) returns (taken: bool)
      requires Valid() && key in items
      requires (hand == Popped(key) && asked == None) || (hand == Empty && lease == Some(key) && asked.Some?)
      modifies this
      ensures Valid() && Extends(old(trace), trace)
      ensures taken <==> key in old(flags)
      ensures taken ==> View() == old(View()).(flags := old(flags) - {key}, hand := Hand.Taken(key), expects := asked)
      ensures !taken ==> View() == old(View()) && trace == old(trace)
      ensures Pressure(View()) <= old(Pressure(View())) + (if taken then 1 else 0)
    {
      hide WakeMachine.Run, WakeMachine.Legal, WakeMachine.Tallied, HollowFree;
      if key !in flags {
        return false;
      }
      ghost var before := View();
      ghost var a := if asked.Some? then TakeLeased(asked.value) else Take;
      TakingCosts(before, key);
      flags := flags - {key};
      hand := Hand.Taken(key);
      expects := asked;
      Record(before, a);
      taken := true;
    }

    method RegisterTask(key: Key)
      requires Valid() && hand == Hand.Taken(key)
      modifies this
      ensures Valid() && View() == old(View()).(armed := old(armed) + {key}, hand := Polling(key))
      ensures old(trace) <= trace && Log() == WakeMachine.Count(old(Log()), Register)
    {
      hide WakeMachine.Run, WakeMachine.Legal, WakeMachine.Tallied, HollowFree;
      ghost var before := View();
      armed := armed + {key};
      hand := Polling(key);
      Record(before, Register);
    }

    method AcquireLease(key: Key)
      requires Valid() && (hand == Polling(key) || hand == Building(key)) && lease == None
      modifies this
      ensures Valid() && View() == old(View()).(lease := Some(key)) && Extends(old(trace), trace)
    {
      hide WakeMachine.Run, WakeMachine.Legal, WakeMachine.Tallied, HollowFree;
      ghost var before := View();
      lease := Some(key);
      Record(before, Acquire);
    }

    method ReleaseLease()
      requires Valid() && lease.Some?
      requires hand == Clearing || hand == Polling(lease.value) || hand == Building(lease.value)
              || hand == Done(lease.value)
      modifies this
      ensures Valid() && View() == old(View()).(lease := None) && Extends(old(trace), trace)
    {
      hide WakeMachine.Run, WakeMachine.Legal, WakeMachine.Tallied, HollowFree;
      ghost var before := View();
      lease := None;
      Record(before, Release);
    }

    /** The future's poll returns, or unwinds. */
    method SettlePoll(key: Key, outcome: Outcome)
      requires Valid() && hand == Polling(key)
      modifies this
      ensures Valid() && old(trace) <= trace
      ensures Log() == old(Log()).(unwinds := old(Log()).unwinds + if outcome == Panics then 1 else 0)
      ensures View() == old(View()).(hand := if outcome == Finished then Done(key) else Empty,
                                     finished := if outcome == Finished then old(finished) + {key} else old(finished))
    {
      hide WakeMachine.Run, WakeMachine.Legal, WakeMachine.Tallied, HollowFree;
      ghost var before := View();
      ghost var a := if outcome == Panics then Unwind else Settle(outcome == Finished);
      if outcome == Finished {
        finished := finished + {key};
        hand := Done(key);
      } else {
        hand := Empty;
      }
      Record(before, a);
    }

    /** A panic while the future is built: nothing is stored, a lease it took stays. */
    ghost method UnwindBuild(key: Key)
      requires Valid() && hand == Building(key)
      modifies this`hand, this`trace
      ensures Valid() && View() == old(View()).(hand := Empty) && old(trace) <= trace
      ensures Log() == old(Log()).(unwinds := old(Log()).unwinds + 1)
    {
      hide WakeMachine.Run, WakeMachine.Legal, WakeMachine.Tallied, HollowFree;
      ghost var before := View();
      hand := Empty;
      Record(before, Unwind);
    }

    /** The leased poll reads the mode it was asked to serve. */
    ghost method ConfirmItem(key: Key)
      requires Valid() && hand == Done(key) && expects == Some(control.mode)
      modifies this`expects, this`trace
      ensures Valid() && View() == old(View()).(expects := None) && Extends(old(trace), trace)
      ensures Saw(old(trace), trace, Confirm)
    {
      hide WakeMachine.Run, WakeMachine.Legal, WakeMachine.Tallied, HollowFree;
      ghost var before := View();
      expects := None;
      Record(before, Confirm);
      assert trace[|old(trace)|] == Confirm;
    }

    method RemoveItem(key: Key)
      requires Valid() && hand == Done(key) && expects == None
      modifies this
      ensures Valid() && View() == old(View()).(live := old(items) - {key}) && Extends(old(trace), trace)
    {
      hide WakeMachine.Run, WakeMachine.Legal, WakeMachine.Tallied, HollowFree;
      ghost var before := View();
      items := items - {key};
      Record(before, Remove);
    }

    /** Completion releases a lease whose guard was forgotten. */
    method ConcludeItem(key: Key)
      requires Valid() && hand == Done(key) && key !in items
      modifies this
      ensures Valid() && Extends(old(trace), trace)
      ensures View() == old(View()).(hand := Empty, lease := if old(lease) == Some(key) then None else old(lease))
    {
      hide WakeMachine.Run, WakeMachine.Legal, WakeMachine.Tallied, HollowFree;
      ghost var before := View();
      if lease == Some(key) {
        lease := None;
      }
      hand := Empty;
      Record(before, Conclude);
    }

    /** The leased poll reads another mode and returns. */
    ghost method ForgetItem(key: Key)
      requires Valid() && hand == Done(key) && expects.Some? && expects.value != control.mode
      modifies this`hand, this`trace
      ensures Valid() && View() == old(View()).(hand := Empty) && Extends(old(trace), trace)
      ensures Saw(old(trace), trace, Forget)
    {
      hide WakeMachine.Run, WakeMachine.Legal, WakeMachine.Tallied, HollowFree;
      ghost var before := View();
      hand := Empty;
      Record(before, Forget);
      assert trace[|old(trace)|] == Forget;
    }

    method ForceReleaseMissing(key: Key)
      requires Valid() && hand == Empty && lease == Some(key) && key !in items
      modifies this
      ensures Valid() && View() == old(View()).(lease := None) && Extends(old(trace), trace)
    {
      hide WakeMachine.Run, WakeMachine.Legal, WakeMachine.Tallied, HollowFree;
      ghost var before := View();
      lease := None;
      Record(before, ReleaseMissing);
    }

    // ------------------------------------------------------------- user code

    /**
      The handler in hand runs: it may acquire and release the lease, wake anything,
      and submit requests, while other threads do the same.  A destructor
      (`!holdsCx`) can drop a guard but not take one.
     */
    method UserCode(key: Key, holdsCx: bool)
      requires Valid()
      requires hand == Polling(key) || hand == Building(key) || (hand == Done(key) && !holdsCx)
      modifies this, control
      ensures Valid() && UserRan(old(View()), View()) && Extends(old(trace), trace)
      ensures old(control.ops) <= control.ops
    {
      hide WakeMachine.Run, WakeMachine.Legal, WakeMachine.Tallied, HollowFree, WakersRan, Extends;
      NobodyRan(View(), trace);
      var n: nat := *;
      while n > 0
        invariant Valid() && UserRan(old(View()), View()) && Extends(old(trace), trace)
        invariant hand == old(hand)
        invariant old(control.ops) <= control.ops
      {
        ghost var before, past := View(), trace;
        UserStep(key, holdsCx);
        UserRanTwice(old(View()), before, View());
        ExtendsTwice(old(trace), past, trace);
        n := n - 1;
      }
    }

    method UserStep(key: Key, holdsCx: bool)
      requires Valid()
      requires hand == Polling(key) || hand == Building(key) || (hand == Done(key) && !holdsCx)
      modifies this, control
      ensures Valid() && UserRan(old(View()), View()) && Extends(old(trace), trace) && hand == old(hand)
      ensures old(control.ops) <= control.ops
    {
      hide WakeMachine.Run, WakeMachine.Legal, WakeMachine.Tallied, HollowFree;
      var choice: nat := *;
      if choice == 0 {
        if lease == None && holdsCx { AcquireLease(key); }
      } else if choice == 1 {
        if lease == Some(key) { ReleaseLease(); }
      } else {
        Interfere();
      }
    }

    /** Other threads run, then the task waker of the reply is registered. */
    method AttendTo(key: Key)
      requires Valid() && hand == Hand.Taken(key)
      modifies this, control
      ensures Valid() && hand == Polling(key)
      ensures items == old(items) && issued == old(issued) && finished == old(finished)
      ensures lease == old(lease) && expects == old(expects)
      ensures Pressure(View()) <= old(Pressure(View())) && old(trace) <= trace && old(ready) <= ready
      ensures Log() == old(Log()).(polls := old(Log()).polls + 1)
      ensures old(woken) ==> woken
      ensures old(control.ops) <= control.ops
    {
      hide WakeMachine.Run, WakeMachine.Legal, WakeMachine.Tallied, HollowFree;
      Interfere();
      RegisterTask(key);
    }

    /**
      Registers the actor task, then polls the future: at most one poll, with any
      outcome, any wakes, and any use of the lease by its own reply.
     */
    method PollFuture(key: Key) returns (outcome: Outcome)
      requires Valid() && hand == Hand.Taken(key)
      modifies this, control
      ensures Valid()
      ensures hand == (if outcome == Finished then Done(key) else Empty)
      ensures finished == old(finished) + (if outcome == Finished then {key} else {})
      ensures items == old(items) && issued == old(issued) && expects == old(expects)
      ensures lease == old(lease) || lease == None || lease == Some(key)
      ensures Pressure(View()) <= old(Pressure(View())) && old(trace) <= trace && old(ready) <= ready
      ensures Log() == old(Log()).(polls := old(Log()).polls + 1,
                                   unwinds := old(Log()).unwinds + if outcome == Panics then 1 else 0)
      ensures old(woken) ==> woken
      ensures old(control.ops) <= control.ops
    {
      hide WakeMachine.Run, WakeMachine.Legal, WakeMachine.Tallied, HollowFree;
      AttendTo(key);
      UserCode(key, true);
      var choice: nat := *;
      outcome := if choice == 0 then Waits else if choice == 1 then Finished else Panics;
      SettlePoll(key, outcome);
    }

    /** Removes one finished reply, runs its destructor, and frees a forgotten lease. */
    method Complete(key: Key)
      requires Valid() && hand == Done(key) && expects == None
      modifies this, control
      ensures Valid() && hand == Empty && Extends(old(trace), trace)
      ensures items == old(items) - {key} && issued == old(issued) && finished == old(finished)
      ensures lease != Some(key) && (lease == old(lease) || lease == None)
      ensures Pressure(View()) <= old(Pressure(View())) && old(ready) <= ready
      ensures old(woken) ==> woken
      ensures old(control.ops) <= control.ops
    {
      hide WakeMachine.Run, WakeMachine.Legal, WakeMachine.Tallied, HollowFree;
      RemoveItem(key);
      UserCode(key, false);
      ConcludeItem(key);
    }

    // --------------------------------------------------------------- polling

    /** Pops one key; a key without a live, ready reply is dropped, a ready one is taken. */
    method DrainKey() returns (step: KeyFound, key: Key)
      requires Valid() && hand == Empty && lease == None
      modifies this, control
      ensures Valid() && old(trace) <= trace && items == old(items) && issued == old(issued)
              && finished == old(finished) && lease == None
      ensures Log() == old(Log()).(pops := old(Log()).pops + if step == NoKey then 0 else 1)
      ensures Pressure(View()) <= old(Pressure(View())) - if step == StaleKey then 1 else 0
      ensures step == ReadyKey ==> hand == Hand.Taken(key) && key in items && expects == None
      ensures step != ReadyKey ==> hand == Empty
      ensures if step == NoKey then old(ready) == [] else StillQueued(old(ready), 1, ready)
      ensures old(woken) ==> woken
      ensures old(control.ops) <= control.ops
    {
      hide WakeMachine.Run, WakeMachine.Legal, WakeMachine.Tallied, HollowFree;
      key := Key(0, 0);
      var popped := PopReady();
      if popped == None {
        return NoKey, key;
      }
      key := popped.value;
      var found := LookUp(key);
      step := if found then ReadyKey else StaleKey;
    }

    /** The popped key is looked up and its flag cleared; a stale one is dropped. */
    method LookUp(key: Key) returns (found: bool)
      requires Valid() && hand == Popped(key) && lease == None
      modifies this, control
      ensures Valid() && Extends(old(trace), trace) && items == old(items) && issued == old(issued)
              && finished == old(finished) && lease == None
      ensures Pressure(View()) <= old(Pressure(View())) + if found then 1 else 0
      ensures if found then hand == Hand.Taken(key) && key in items && expects == None else hand == Empty
      ensures old(ready) <= ready
      ensures old(woken) ==> woken
      ensures old(control.ops) <= control.ops
    {
      hide WakeMachine.Run, WakeMachine.Legal, WakeMachine.Tallied, HollowFree;
      Interfere();
      found := false;
      if key in items {
        found := TakeReady(key, None);
      }
      if !found {
        SkipKey(key);
      }
    }

    /** The mode is read before each key is popped; other threads run before and after. */
    method StillExpected(expected: Mode) returns (yes: bool)
      requires Valid() && hand == Empty && lease == None
      modifies this, control
      ensures Valid() && Extends(old(trace), trace) && hand == Empty && lease == None
      ensures items == old(items) && issued == old(issued) && finished == old(finished) && old(ready) <= ready
      ensures Pressure(View()) <= old(Pressure(View()))
      ensures !yes ==> control.mode != expected
      ensures Past(expected, old(control.mode)) ==> !yes && Past(expected, control.mode)
      ensures old(woken) ==> woken
      ensures old(control.ops) <= control.ops
    {
      hide WakeMachine.Run, WakeMachine.Legal, WakeMachine.Tallied, HollowFree;
      Interfere();
      yes := control.mode == expected;
      if yes { Interfere(); }
    }

    /** The drain continues only in the expected mode. */
    method NextKey(expected: Mode) returns (step: KeyFound, key: Key)
      requires Valid() && hand == Empty && lease == None
      modifies this, control
      ensures Valid() && old(trace) <= trace && items == old(items) && issued == old(issued)
              && finished == old(finished) && lease == None
      ensures Log() == old(Log()).(pops := old(Log()).pops + if step == NoKey then 0 else 1)
      ensures Pressure(View()) <= old(Pressure(View())) - if step == StaleKey then 1 else 0
      ensures step == ReadyKey ==> hand == Hand.Taken(key) && key in items && expects == None
      ensures step != ReadyKey ==> hand == Empty
      ensures step == NoKey ==> control.mode != expected || old(ready) == []
      ensures Past(expected, old(control.mode)) ==> step == NoKey && Past(expected, control.mode)
      ensures step != NoKey ==> StillQueued(old(ready), 1, ready)
      ensures old(woken) ==> woken
      ensures old(control.ops) <= control.ops
    {
      hide WakeMachine.Run, WakeMachine.Legal, WakeMachine.Tallied, HollowFree;
      var yes := StillExpected(expected);
      if !yes {
        return NoKey, Key(0, 0);
      }
      step, key := DrainKey();
    }

    /** Polls the reply taken from the queue and completes it if it finished. */
    method ServeReply(key: Key) returns (drained: Drained)
      requires Valid() && hand == Hand.Taken(key) && key in items && lease == None && expects == None
      modifies this, control
      ensures Valid() && hand == Empty && old(trace) <= trace && issued == old(issued)
      ensures items <= old(items) && finished * items <= old(finished * items)
      ensures drained == Completed <==> items != old(items)
      ensures Log() == old(Log()).(polls := old(Log()).polls + 1,
                                   unwinds := old(Log()).unwinds + if drained == Burst then 1 else 0)
      ensures Pressure(View()) <= old(Pressure(View())) && old(ready) <= ready
      ensures drained == Waited || drained == Completed || drained == Holding || drained == Burst
      ensures drained == Holding ==> lease.Some?
      ensures drained == Waited || drained == Completed ==> lease == None
      ensures old(woken) ==> woken
      ensures old(control.ops) <= control.ops
    {
      hide WakeMachine.Run, WakeMachine.Legal, WakeMachine.Tallied, HollowFree;
      var outcome := PollFuture(key);
      if outcome == Panics {
        return Burst;
      }
      if outcome == Finished {
        Complete(key);
        return Completed;
      }
      drained := if lease.Some? then Holding else Waited;
    }

    /** One iteration of a drain. */
    method DrainOnce(expected: Mode) returns (drained: Drained)
      requires Valid() && hand == Empty && lease == None
      modifies this, control
      ensures Valid() && hand == Empty && old(trace) <= trace && issued == old(issued)
      ensures items <= old(items) && finished * items <= old(finished * items)
      ensures drained == Completed <==> items != old(items)
      ensures Log().polls == old(Log()).polls + Polls(drained)
      ensures Log().pops == old(Log()).pops + if drained == QueueEnd then 0 else 1
      ensures drained == QueueEnd ==> control.mode != expected || old(ready) == []
      ensures drained != QueueEnd ==> StillQueued(old(ready), 1, ready)
      ensures Log().visits == old(Log()).visits && Log().taken == old(Log()).taken
      ensures Pressure(View()) <= old(Pressure(View())) - if drained == Skipped then 1 else 0
      ensures drained == Holding ==> lease.Some?
      ensures Log().unwinds == old(Log()).unwinds + if drained == Burst then 1 else 0
      ensures Past(expected, old(control.mode)) ==> drained == QueueEnd && Past(expected, control.mode)
      ensures drained == QueueEnd ==> items == old(items)
      ensures drained != Holding && drained != Burst ==> lease == None
      ensures old(woken) ==> woken
      ensures old(control.ops) <= control.ops
    {
      hide WakeMachine.Run, WakeMachine.Legal, WakeMachine.Tallied, HollowFree, Saw, WakersRan;
      var step, key := NextKey(expected);
      if step == NoKey {
        return QueueEnd;
      }
      if step == StaleKey {
        return Skipped;
      }
      drained := ServeReply(key);
    }

    /**
      One drain.  It polls at most the budget, and it terminates although wakers keep
      pushing: a key is skipped only by using up pressure that wakers cannot renew.
      Every reply that finished has left the map, and `Pending` means that no reply
      is ready apart from pushes in flight.
     */
    method PollReady(expected: Mode) returns (result: ReplyPoll)
      requires Valid() && hand == Empty && lease == None
      modifies this, control
      ensures Valid() && hand == Empty && old(trace) <= trace && issued == old(issued)
      ensures items <= old(items) && finished * items <= old(finished * items)
      ensures Log().polls <= old(Log()).polls + ACTIVE_POLL_BUDGET
      ensures Log().pops <= old(Log()).pops + old(Pressure(View())) + ACTIVE_POLL_BUDGET
      ensures Log().visits == old(Log()).visits && Log().taken == old(Log()).taken
      // Unless the drain is cut off it polls sixteen times, or handles every key it found queued.
      ensures old(control.mode) == expected == control.mode && result != Leased && result != Unwound
              ==> Log().polls == old(Log()).polls + 16 || Log().pops >= old(Log()).pops + |old(ready)|
      ensures items != old(items) ==> Log().polls > old(Log()).polls
      ensures Log().unwinds == old(Log()).unwinds + if result == Unwound then 1 else 0
      // A mode that was left before the drain began stops it at once.
      ensures Past(expected, old(control.mode)) ==> result == Progress && Log() == old(Log()) && items == old(items)
      ensures result == Leased ==> lease.Some?
      ensures result == Pending || result == Progress || result == BudgetExhausted ==> lease == None
      ensures result == Pending ==> items == old(items) && ready == []
      ensures result == Pending ==> forall k :: k in ReadySet(View()) ==> swapped[k] > 0
      ensures result == Pending && Listening() ==> Heard(View())
      ensures result == Pending && coarse ==> ReadySet(View()) == {}
      ensures result == BudgetExhausted ==> woken && ready != []
      ensures result == Progress ==> items < old(items) || control.mode != expected
      ensures old(woken) ==> woken
      ensures old(control.ops) <= control.ops
    {
      hide WakeMachine.Run, WakeMachine.Legal, WakeMachine.Tallied, HollowFree;
      var ended, completed;
      ended, completed, result := DrainMany(expected);
      if ended { return; }
      ghost var ops := control.ops;
      result := CloseDrain(completed, expected);
      if control.mode == old(control.mode) { NeverBack(old(control.ops), ops, control.ops); }
    }

    /** Polls replies until the budget is used, the queue is empty, or the drain is cut off. */
    method DrainMany(expected: Mode) returns (ended: bool, completed: bool, result: ReplyPoll)
      requires Valid() && hand == Empty && lease == None
      modifies this, control
      ensures Valid() && hand == Empty && old(trace) <= trace && issued == old(issued)
      ensures items <= old(items) && finished * items <= old(finished * items)
      ensures old(Log()).polls <= Log().polls <= old(Log()).polls + ACTIVE_POLL_BUDGET
      ensures Log().pops <= old(Log()).pops + old(Pressure(View())) + ACTIVE_POLL_BUDGET
      ensures Log().visits == old(Log()).visits && Log().taken == old(Log()).taken
      ensures !ended && control.mode == expected
              ==> Log().polls == old(Log()).polls + 16 || Log().pops >= old(Log()).pops + |old(ready)|
      ensures completed ==> items != old(items)
      ensures items != old(items) ==> Log().polls > old(Log()).polls
      ensures ended ==> result == Leased || result == Unwound
      ensures !ended ==> lease == None && (completed <==> items != old(items))
      ensures ended && result == Leased ==> lease.Some?
      ensures Log().unwinds == old(Log()).unwinds + if ended && result == Unwound then 1 else 0
      ensures Past(expected, old(control.mode)) ==> !ended && Past(expected, control.mode)
      ensures Past(expected, old(control.mode)) ==> Log() == old(Log()) && items == old(items)
      ensures old(woken) ==> woken
      ensures old(control.ops) <= control.ops
    {
      hide WakeMachine.Run, WakeMachine.Legal, WakeMachine.Tallied, HollowFree;
      var polled := 0;
      ended, completed, result := false, false, Pending;
      while polled < ACTIVE_POLL_BUDGET
        invariant 0 <= polled <= ACTIVE_POLL_BUDGET
        invariant Valid() && hand == Empty && lease == None && old(trace) <= trace && issued == old(issued)
        invariant items <= old(items) && finished * items <= old(finished * items)
        invariant completed <==> items != old(items)
        invariant old(woken) ==> woken
        invariant Log().polls == old(Log()).polls + polled && Log().visits == old(Log()).visits
        invariant Log().taken == old(Log()).taken
        invariant Log().pops + Pressure(View()) <= old(Log()).pops + old(Pressure(View())) + polled
        invariant Log().pops >= old(Log()).pops
        invariant StillQueued(old(ready), Log().pops - old(Log()).pops, ready)
        invariant items != old(items) ==> polled > 0
        invariant Log().unwinds == old(Log()).unwinds
        invariant Past(expected, old(control.mode)) ==> Log() == old(Log()) && items == old(items)
        invariant Past(expected, old(control.mode)) ==> Past(expected, control.mode)
        invariant old(control.ops) <= control.ops
        decreases ACTIVE_POLL_BUDGET - polled, Pressure(View())
      {
        ghost var queued, popped := ready, Log().pops - old(Log()).pops;
        var drained := DrainOnce(expected);
        if drained == QueueEnd {
          break;
        }
        StillQueuedOn(old(ready), popped, queued, ready);
        if drained == Skipped {
          continue;
        }
        if drained == Burst {
          return true, completed, Unwound;
        }
        if drained == Completed {
          completed := true;
        } else if drained == Holding {
          return true, completed, Leased;
        }
        polled := polled + 1;
      }
    }

    /** The end of a drain: a mode change is progress, leftover keys wake the task again. */
    method CloseDrain(completed: bool, expected: Mode) returns (result: ReplyPoll)
      requires Valid() && hand == Empty && lease == None
      modifies this, control
      ensures Valid() && Extends(old(trace), trace) && hand == Empty && lease == None
      ensures issued == old(issued) && items == old(items) && finished == old(finished)
      ensures result == Pending || result == Progress || result == BudgetExhausted
      ensures result == Pending ==> !completed && ready == [] && forall k :: k in ReadySet(View()) ==> swapped[k] > 0
      ensures result == Pending && Listening() ==> Heard(View())
      ensures result == Pending && coarse ==> ReadySet(View()) == {}
      ensures result == BudgetExhausted ==> woken && ready != []
      ensures result == Progress ==> completed || control.mode != expected
      ensures Past(expected, old(control.mode)) ==> result == Progress
      ensures old(woken) ==> woken
      ensures old(control.ops) <= control.ops
    {
      hide WakeMachine.Run, WakeMachine.Legal, WakeMachine.Tallied, HollowFree;
      Interfere();
      if control.mode != expected {
        return Progress;
      }
      Interfere();
      if ready != [] {
        WakeSelf();
        return BudgetExhausted;
      }
      EmptyQueueIsQuiet();
      result := if completed then Progress else Pending;
    }

    /**
      While one reply holds the lease, only it may run; unrelated keys stay queued.
      A holder whose future finishes (`done`) leaves the map exactly when the mode read
      after its poll is still the expected one: it is removed only after that read was
      confirmed, and it stays only after the read found another mode, which is still the
      mode on return.
     */
    method PollLeased(key: Key, expected: Mode) returns (result: ReplyPoll, ghost done: bool)
      requires Valid() && hand == Empty && lease == Some(key)
      modifies this, control
      ensures Valid() && hand == Empty && old(trace) <= trace && issued == old(issued)
      ensures finished == old(finished) + if done then {key} else {}
      ensures items == old(items) || items == old(items) - {key}
      ensures done && key in items ==> control.mode != expected && Saw(old(trace), trace, Forget)
      ensures items != old(items) ==> done && Saw(old(trace), trace, Confirm)
      ensures Log() == old(Log()).(polls := Log().polls,
                                   unwinds := old(Log()).unwinds + if result == Unwound then 1 else 0)
      ensures Log().polls <= old(Log()).polls + 1
      ensures done ==> Log().polls == old(Log()).polls + 1
      // A woken holder is polled; progress means that it finished, let go, or lost against a mode change.
      ensures key in old(items) && key in old(flags) ==> result != Pending && Log().polls == old(Log()).polls + 1
      ensures result == Progress ==> done || lease == None || control.mode != expected || key !in old(items)
      ensures lease == None || lease == Some(key)
      ensures result == Pending ==> lease == Some(key) && Log() == old(Log())
      ensures result == Leased ==> lease == Some(key)
      ensures key !in old(items) ==> result == Progress && lease == None
      ensures result != BudgetExhausted && (done ==> result == Progress)
      ensures old(woken) ==> woken
      ensures old(control.ops) <= control.ops
    {
      hide WakeMachine.Run, WakeMachine.Legal, WakeMachine.Tallied, HollowFree;
      done := false;
      if key !in items {
        ForceReleaseMissing(key);
        return Progress, done;
      }
      var taken := TakeHeld(key, expected);
      if !taken {
        return Pending, done;
      }
      ghost var before := trace;
      result, done := ServeHolder(key, expected);
      WhatWasSeen(old(trace), before, trace);
    }

    /** Clears the holder's flag, if it is set, without touching the queue. */
    method TakeHeld(key: Key, ghost expected: Mode) returns (taken: bool)
      requires Valid() && hand == Empty && lease == Some(key) && key in items
      modifies this, control
      ensures Valid() && Extends(old(trace), trace) && hand == (if taken then Hand.Taken(key) else Empty)
      ensures items == old(items) && issued == old(issued) && finished == old(finished) && lease == Some(key)
      ensures taken ==> expects == Some(expected)
      ensures key in old(flags) ==> taken
      ensures old(woken) ==> woken
      ensures old(control.ops) <= control.ops
    {
      hide WakeMachine.Run, WakeMachine.Legal, WakeMachine.Tallied, HollowFree;
      Interfere();
      taken := TakeReady(key, Some(expected));
    }

    method ServeHolder(key: Key, expected: Mode) returns (result: ReplyPoll, ghost done: bool)
      requires Valid() && hand == Hand.Taken(key) && lease == Some(key) && key in items && expects == Some(expected)
      modifies this, control
      ensures Valid() && hand == Empty && old(trace) <= trace && issued == old(issued)
      ensures finished == old(finished) + if done then {key} else {}
      ensures items == old(items) || items == old(items) - {key}
      ensures done && key in items ==> control.mode != expected && Saw(old(trace), trace, Forget)
      ensures items != old(items) ==> done && Saw(old(trace), trace, Confirm)
      ensures Log() == old(Log()).(polls := old(Log()).polls + 1,
                                   unwinds := old(Log()).unwinds + if result == Unwound then 1 else 0)
      ensures lease == None || lease == Some(key)
      ensures result == Progress || (result == Leased && lease == Some(key) && !done) || (result == Unwound && !done)
      ensures result == Progress ==> done || lease == None || control.mode != expected
      ensures old(woken) ==> woken
      ensures old(control.ops) <= control.ops
    {
      hide WakeMachine.Run, WakeMachine.Legal, WakeMachine.Tallied, HollowFree;
      var outcome := PollFuture(key);
      if outcome == Panics {
        return Unwound, false;
      }
      done := outcome == Finished;
      ghost var before := trace;
      result := SettleLeased(key, outcome == Finished, expected);
      WhatWasSeen(old(trace), before, trace);
    }

    /** After the holder's poll the mode is read first, completion second. */
    method SettleLeased(key: Key, done: bool, expected: Mode) returns (result: ReplyPoll)
      requires Valid() && hand == (if done then Done(key) else Empty) && (done ==> expects == Some(expected))
      requires key in items && (lease == None || lease == Some(key))
      modifies this, control
      ensures Valid() && hand == Empty && Extends(old(trace), trace) && issued == old(issued)
              && finished == old(finished)
      ensures items == old(items) || items == old(items) - {key}
      ensures done && key in items ==> control.mode != expected && Saw(old(trace), trace, Forget)
      ensures items != old(items) ==> done && Saw(old(trace), trace, Confirm)
      ensures lease == None || lease == Some(key)
      ensures result == Progress || (result == Leased && lease == Some(key) && !done)
      ensures result == Progress ==> done || lease == None || control.mode != expected
      ensures old(woken) ==> woken
      ensures old(control.ops) <= control.ops
    {
      hide WakeMachine.Run, WakeMachine.Legal, WakeMachine.Tallied, HollowFree;
      var held := lease == Some(key);
      Interfere();
      if control.mode != expected {
        if done {
          ghost var before := trace;
          ForgetItem(key);
          SawWithin(old(trace), before, trace, trace, Forget);
        }
        return Progress;
      }
      if done {
        CompleteHeld(key);
        return Progress;
      }
      result := if held then Leased else Progress;
    }

    /** The mode read after the poll was the expected one: the finished holder is completed. */
    method CompleteHeld(key: Key)
      requires Valid() && hand == Done(key) && key in items && expects == Some(control.mode)
      modifies this, control
      ensures Valid() && hand == Empty && Extends(old(trace), trace)
      ensures items == old(items) - {key} && issued == old(issued) && finished == old(finished)
      ensures lease != Some(key) && (lease == old(lease) || lease == None)
      ensures Saw(old(trace), trace, Confirm)
      ensures old(woken) ==> woken
      ensures old(control.ops) <= control.ops
    {
      hide WakeMachine.Run, WakeMachine.Legal, WakeMachine.Tallied, HollowFree;
      ConfirmItem(key);
      ghost var confirmed := trace;
      Complete(key);
      SawWithin(old(trace), old(trace), confirmed, trace, Confirm);
    }

    /** What a later part of a run saw, the whole of it saw. */
    lemma WhatWasSeen(t: seq<Action>, lo: seq<Action>, u: seq<Action>)
      requires t <= lo <= u
      ensures Saw(lo, u, Forget) ==> Saw(t, u, Forget)
      ensures Saw(lo, u, Confirm) ==> Saw(t, u, Confirm)
    {
      if Saw(lo, u, Forget) { SawWithin(t, lo, u, u, Forget); }
      if Saw(lo, u, Confirm) { SawWithin(t, lo, u, u, Confirm); }
    }

    /**
      One reply collection poll.  A reply that finished is out of the map on return, except
      that a leased poll leaves it there when it reads another mode than the expected one.
     */
    method Poll(expected: Mode) returns (result: ReplyPoll)
      requires Valid() && hand == Empty
      modifies this, control
      ensures Valid() && hand == Empty && old(trace) <= trace && issued == old(issued)
      ensures items <= old(items)
      ensures Log().polls <= old(Log()).polls + ACTIVE_POLL_BUDGET
      ensures Log().visits == old(Log()).visits && Log().taken == old(Log()).taken
      ensures old(lease).Some? ==> (lease == None || lease == old(lease)) && Log().pops == old(Log()).pops
      ensures old(lease) == None || control.mode == expected ==> finished * items <= old(finished * items)
      ensures !(finished * items <= old(finished * items)) ==> Saw(old(trace), trace, Forget)
      ensures old(lease) == None && (result == Pending || result == Progress || result == BudgetExhausted)
              ==> lease == None
      ensures old(lease) == None && result == Pending ==> items == old(items)
      ensures old(lease) == None && old(control.mode) == expected == control.mode
              && result != Leased && result != Unwound
              ==> Log().polls == old(Log()).polls + 16 || Log().pops >= old(Log()).pops + |old(ready)|
      ensures old(lease) == None && result == Progress ==> items < old(items) || control.mode != expected
      ensures old(lease) == None && items != old(items) ==> Log().polls > old(Log()).polls
      ensures old(lease.Some? && lease.value in items && lease.value in flags)
              ==> result != Pending && Log().polls == old(Log()).polls + 1
      ensures old(lease).Some? ==> result != BudgetExhausted
      ensures old(lease).Some? && result == Progress
              ==> || old(lease).value in finished || lease == None || control.mode != expected
                  || old(lease).value !in old(items)
      ensures old(lease) == None && result == Pending ==> forall k :: k in ReadySet(View()) ==> swapped[k] > 0
      ensures old(lease) == None && result == Pending && Listening() ==> Heard(View())
      ensures old(lease) == None && result == Pending && coarse ==> ReadySet(View()) == {}
      ensures old(lease).Some? && result == Pending ==> lease.Some?
      ensures result == Leased ==> lease.Some?
      ensures result == BudgetExhausted ==> woken
      ensures Log().unwinds == old(Log()).unwinds + if result == Unwound then 1 else 0
      ensures old(lease) == None && Past(expected, old(control.mode)) ==> result == Progress && Log() == old(Log())
      ensures old(woken) ==> woken
      ensures old(control.ops) <= control.ops
    {
      hide WakeMachine.Run, WakeMachine.Legal, WakeMachine.Tallied, HollowFree;
      if lease.Some? {
        ghost var done;
        result, done := PollLeased(lease.value, expected);
      } else {
        result := PollReady(expected);
      }
    }

    /**
      Builds the reply of the message in hand and stores it ready.  The key exists before the future, so the
      handler's own construction may already wake it, lease, or panic.
     */
    method Schedule() returns (stored: bool, key: Key)
      requires Valid() && hand.Envelope? && lease == None
      modifies this, control
      ensures Valid() && hand == Empty && old(trace) <= trace
      ensures Log() == old(Log()).(unwinds := old(Log()).unwinds + if stored then 0 else 1)
      ensures key !in old(issued) && issued == old(issued) + {key} && finished == old(finished)
      ensures items == old(items) + if stored then {key} else {}
      ensures stored ==> key in ReadySet(View()) && key !in old(items)
      ensures lease == None || lease == Some(key)
      ensures old(woken) ==> woken
      ensures old(control.ops) <= control.ops
    {
      hide WakeMachine.Run, WakeMachine.Legal, WakeMachine.Tallied, HollowFree;
      key := AllocateKey();
      UserCode(key, true);
      var panics: bool := *;
      if panics {
        UnwindBuild(key);
        return false, key;
      }
      InsertReply(key);
      stored := true;
    }

    ghost method BeginClearing()
      requires Valid() && hand == Empty
      modifies this`hand, this`trace
      ensures Valid() && View() == old(View()).(hand := Clearing) && Extends(old(trace), trace)
    {
      hide WakeMachine.Run, WakeMachine.Legal, WakeMachine.Tallied, HollowFree;
      ghost var before := View();
      hand := Clearing;
      Record(before, BeginClear);
    }

    method DiscardItem(key: Key)
      requires Valid() && hand == Clearing && key in items
      modifies this
      ensures Valid() && View() == old(View()).(live := old(items) - {key}) && Extends(old(trace), trace)
    {
      hide WakeMachine.Run, WakeMachine.Legal, WakeMachine.Tallied, HollowFree;
      ghost var before, a := View(), Discard(key);
      items := items - {key};
      Record(before, a);
    }

    method EndClearing()
      requires Valid() && hand == Clearing && items == {}
      modifies this
      ensures Valid() && View() == old(View()).(hand := Empty, lease := None) && Extends(old(trace), trace)
    {
      hide WakeMachine.Run, WakeMachine.Legal, WakeMachine.Tallied, HollowFree;
      ghost var before := View();
      hand := Empty;
      lease := None;
      Record(before, EndClear);
    }

    /** Cancels one reply; its destructor may drop the guard that holds the lease. */
    method DropItem(key: Key)
      requires Valid() && hand == Clearing && key in items
      modifies this, control
      ensures Valid() && hand == Clearing && Extends(old(trace), trace)
      ensures items == old(items) - {key} && finished == old(finished) && issued == old(issued)
      ensures old(control.ops) <= control.ops
    {
      hide WakeMachine.Run, WakeMachine.Legal, WakeMachine.Tallied, HollowFree;
      DiscardItem(key);
      Interfere();
      var dropsGuard: bool := *;
      if dropsGuard && lease.Some? {
        ReleaseLease();
      }
    }

    /** Cancels every reply and frees the lease, whoever holds it. */
    method Clear()
      requires Valid() && hand == Empty
      modifies this, control
      ensures Valid() && hand == Empty && Extends(old(trace), trace)
      ensures items == {} && lease == None && finished == old(finished) && issued == old(issued)
      ensures old(control.ops) <= control.ops
    {
      hide WakeMachine.Run, WakeMachine.Legal, WakeMachine.Tallied, HollowFree;
      BeginClearing();
      while items != {}
        invariant Valid() && hand == Clearing && Extends(old(trace), trace)
        invariant finished == old(finished) && issued == old(issued)
        invariant old(control.ops) <= control.ops
        decreases items
      {
        var key :| key in items;
        DropItem(key);
      }
      EndClearing();
    }
  }
}
