/**
  What every run of the reply scheduler guarantees, whatever the interleaving, and
  the one guarantee that depends on it.
 */
module WakeTheorems {
  import opened Lifecycle
  import opened WakeMachine

  /** Every reachable state satisfies the scheduler invariant. */
  lemma ReachableInv(t: seq<Action>)
    requires Legal(Init(), t)
    ensures Inv(Run(Init(), t))
  {
    RunKeepsInv(Init(), t);
  }

  // ------------------------------------------- the queue refines a ready set

  /** The simple scheduler: the set of live replies that are ready. */
  function ReadySet(s: State): set<Key> { s.live * s.flags }

  /**
    The ready-key queue loses no ready reply: in every reachable state where the
    actor task has nothing in hand, each member of the ready set has its key queued,
    or the waker that raised it has not pushed yet.  An empty queue therefore means
    an empty ready set, apart from pushes still in flight.
   */
  lemma QueueCoversReadySet(t: seq<Action>, k: Key)
    requires Legal(Init(), t)
    requires var s := Run(Init(), t); s.hand == Empty && k in ReadySet(s)
    ensures var s := Run(Init(), t); k in s.ready || s.swapped[k] > 0
  {
    ReachableInv(t);
  }

  // ------------------------------------------------- one poll per ready episode

  /** Does this action start a ready episode of `k`? */
  predicate Raises(s: State, a: Action, k: Key) {
    k !in s.flags && (a == Swap(k) || a == Notify(k) || (a == Insert && Holds(s.hand, k)))
  }

  predicate Takes(s: State, a: Action, k: Key) {
    (a == Take && Holds(s.hand, k)) || (a.TakeLeased? && s.lease == Some(k))
  }

  function Raised(s: State, t: seq<Action>, k: Key): nat {
    if t == [] then 0
    else Raised(s, t[..|t| - 1], k) + if Raises(Run(s, t[..|t| - 1]), t[|t| - 1], k) then 1 else 0
  }

  function Taken(s: State, t: seq<Action>, k: Key): nat {
    if t == [] then 0
    else Taken(s, t[..|t| - 1], k) + if Takes(Run(s, t[..|t| - 1]), t[|t| - 1], k) then 1 else 0
  }

  /** The number of times the future behind `k` is polled. */
  function Polled(s: State, t: seq<Action>, k: Key): nat {
    if t == [] then 0
    else Polled(s, t[..|t| - 1], k) + if t[|t| - 1] == Register && Holds(Run(s, t[..|t| - 1]).hand, k) then 1 else 0
  }

  lemma WakersConserveTakes(s: State, a: Action, k: Key)
    requires Enabled(s, a) && WakerStep(a)
    ensures k in Apply(s, a).flags <==> k in s.flags || Raises(s, a, k)
  {
  }

  lemma ActorConservesTakes(s: State, a: Action, k: Key)
    requires Enabled(s, a) && !WakerStep(a)
    ensures Takes(s, a, k) ==> k in s.flags
    ensures k in Apply(s, a).flags <==> (k in s.flags && !Takes(s, a, k)) || Raises(s, a, k)
  {
  }

  lemma StepConservesTakes(s: State, a: Action, k: Key)
    requires Inv(s) && Enabled(s, a)
    ensures (if Takes(s, a, k) then 1 else 0) + (if k in Apply(s, a).flags then 1 else 0)
         == (if k in s.flags then 1 else 0) + (if Raises(s, a, k) then 1 else 0)
  {
    if WakerStep(a) {
      WakersConserveTakes(s, a, k);
    } else {
      ActorConservesTakes(s, a, k);
    }
  }

  lemma WakersPollNothing(s: State, a: Action)
    requires Enabled(s, a) && (WakerStep(a) || a.Op?)
    ensures Apply(s, a).hand == s.hand
  {
  }

  lemma OnlyTakesReachTaken(s: State, a: Action, k: Key)
    requires SlotsOk(s) && LeaseOk(s) && Enabled(s, a) && !WakerStep(a) && !a.Op?
    ensures Apply(s, a).hand == Hand.Taken(k) <==> Takes(s, a, k)
    ensures s.hand == Hand.Taken(k) ==> a == Register
  {
  }

  lemma StepConservesPolls(s: State, a: Action, k: Key)
    requires Inv(s) && Enabled(s, a)
    ensures (if a == Register && Holds(s.hand, k) then 1 else 0) + (if Apply(s, a).hand == Hand.Taken(k) then 1 else 0)
         == (if s.hand == Hand.Taken(k) then 1 else 0) + (if Takes(s, a, k) then 1 else 0)
  {
    if WakerStep(a) || a.Op? { WakersPollNothing(s, a); } else { OnlyTakesReachTaken(s, a, k); }
  }

  /**
    Wakes are conserved, key by key: every ready episode of `k` is spent on exactly
    one poll of `k`, is still pending in its flag, or sits between take and poll.
    Only the first wake of an episode and the insertion of `k` itself count, so a
    waker of any other key, such as an earlier occupant of the same slot, adds
    nothing to the polls of `k`.
   */
  lemma {:induction false} WakesAreConserved(t: seq<Action>, k: Key)
    requires Legal(Init(), t)
    ensures var s := Run(Init(), t);
      && Taken(Init(), t, k) + (if k in s.flags then 1 else 0) == Raised(Init(), t, k)
      && Polled(Init(), t, k) + (if s.hand == Hand.Taken(k) then 1 else 0) == Taken(Init(), t, k)
  {
    if t != [] {
      var before, a := Run(Init(), t[..|t| - 1]), t[|t| - 1];
      WakesAreConserved(t[..|t| - 1], k);
      ReachableInv(t[..|t| - 1]);
      StepConservesTakes(before, a, k);
      StepConservesPolls(before, a, k);
    }
  }

  /** The arena never issues the same key again, however often a slot is reused. */
  lemma {:induction false} IssuedStays(s: State, t: seq<Action>, k: Key)
    requires k in s.issued
    ensures k in Run(s, t).issued
  {
    if t != [] {
      hide Apply, Enabled;
      IssuedStays(s, t[..|t| - 1], k);
      IssuedStep(Run(s, t[..|t| - 1]), t[|t| - 1]);
    }
  }

  lemma IssuedStep(s: State, a: Action)
    ensures s.issued <= Next(s, a).issued
  {
    if Enabled(s, a) && WakerStep(a) { WakersTouchOnlyWakes(s, a); }
  }

  lemma KeysNeverReturn(t: seq<Action>, i: nat, j: nat)
    requires Legal(Init(), t) && i < j < |t| && t[i].Allocate? && t[j].Allocate?
    ensures NextKey(Run(Init(), t[..i]), t[i].slot) != NextKey(Run(Init(), t[..j]), t[j].slot)
  {
    hide Run, Legal, Apply, Inv, NextKey;
    var k, mid := NextKey(Run(Init(), t[..i]), t[i].slot), Run(Init(), t[..i + 1]);
    LegalPrefix(Init(), t, i);
    AllocateIssues(Run(Init(), t[..i]), t[i].slot);
    assert t[..i + 1] + t[i + 1..j] == t[..j];
    RunSplit(Init(), t[..i + 1], t[i + 1..j]);
    IssuedStays(mid, t[i + 1..j], k);
    LegalPrefix(Init(), t, j);
    ReachableInv(t[..j]);
    NextKeyIsFresh(Run(Init(), t[..j]), t[j].slot);
  }

  lemma AllocateIssues(s: State, slot: nat)
    requires Enabled(s, Allocate(slot))
    ensures NextKey(s, slot) in Apply(s, Allocate(slot)).issued
  {
  }

  lemma {:induction false} RunSplit(s: State, a: seq<Action>, b: seq<Action>)
    ensures Run(s, a + b) == Run(Run(s, a), b)
  {
    if b == [] {
      assert a + b == a;
    } else {
      assert (a + b)[..|a + b| - 1] == a + b[..|b| - 1];
      RunSplit(s, a, b[..|b| - 1]);
    }
  }

  // ---------------------------------------------- one key per dispatched message

  /** Messages taken from the inbox that got no key: abandoned ones, or ones the gate refused. */
  function Declined(t: seq<Action>): nat {
    if t == [] then 0 else Declined(t[..|t| - 1]) + if t[|t| - 1] == Decline then 1 else 0
  }

  function InDispatch(s: State): nat { if s.hand.Envelope? then 1 else 0 }

  lemma StepConservesDeliveries(s: State, a: Action)
    requires KeysOk(s) && Enabled(s, a)
    ensures |Apply(s, a).issued| + (if a == Decline then 1 else 0) + InDispatch(Apply(s, a))
         == |s.issued| + InDispatch(s) + if a.Deliver? then 1 else 0
  {
    if WakerStep(a) {
      WakersTouchOnlyWakes(s, a);
    } else if a.Allocate? {
      NextKeyIsFresh(s, a.slot);
    }
  }

  /**
    Messages are conserved by dispatch: every message taken from the inbox got exactly
    one key, was declined, or is the one whose dispatch is under way.
   */
  lemma {:induction false} DeliveriesAreConserved(t: seq<Action>)
    requires Legal(Init(), t)
    ensures |Tallied(t).taken| == |Run(Init(), t).issued| + Declined(t) + InDispatch(Run(Init(), t))
  {
    if t != [] {
      hide Apply, Enabled, InDispatch;
      var front, a := t[..|t| - 1], t[|t| - 1];
      DeliveriesAreConserved(front);
      ReachableInv(front);
      StepConservesDeliveries(Run(Init(), front), a);
    }
  }

  lemma {:induction false} TalliesGrow(t: seq<Action>, u: seq<Action>)
    requires t <= u
    ensures Declined(t) <= Declined(u) && Tallied(t).taken <= Tallied(u).taken
  {
    if t != u { TalliesGrow(t, u[..|u| - 1]); }
  }

  /** Between two points of a run no more keys are issued than messages are taken. */
  lemma KeysNeedDeliveries(t: seq<Action>, u: seq<Action>)
    requires Legal(Init(), u) && t <= u
    requires !Run(Init(), t).hand.Envelope? && !Run(Init(), u).hand.Envelope?
    ensures |Run(Init(), u).issued| - |Run(Init(), t).issued| <= |Tallied(u).taken| - |Tallied(t).taken|
  {
    LegalPrefix(Init(), u, |t|);
    assert u[..|t|] == t;
    DeliveriesAreConserved(t);
    DeliveriesAreConserved(u);
    TalliesGrow(t, u);
  }

  /**
    A waker of a departed reply is inert: whatever a waker of `k` does, readiness,
    registration, membership and queue position of every other key are unchanged.
   */
  lemma ForeignWakesAreInert(s: State, a: Action, j: Key)
    requires WakerStep(a) && Enabled(s, a) && a.key != j
    ensures var after := Apply(s, a);
      && (j in after.flags <==> j in s.flags)
      && (j in after.armed <==> j in s.armed)
      && (j in after.live <==> j in s.live)
      && after.swapped[j] == s.swapped[j] && after.pushed[j] == s.pushed[j]
      && s.ready <= after.ready && (forall i :: |s.ready| <= i < |after.ready| ==> after.ready[i] != j)
      && after.hand == s.hand && after.lease == s.lease
  {
  }

  // ------------------------------------------------------- lease exclusivity

  predicate FreesLease(a: Action) {
    a == Release || a == ReleaseMissing || a == Conclude || a == EndClear
  }

  /** Work that must not run beside a lease holder: dispatch, child events, other replies. */
  predicate RunsBeside(s: State, a: Action, holder: Key) {
    || a.Deliver? || a == TakeChild || a.Allocate? || a == Pop
    || (a == Register && !Holds(s.hand, holder))
  }

  lemma OnlyFreesLoseTheLease(s: State, a: Action, k: Key)
    requires Enabled(s, a) && !FreesLease(a)
    requires s.lease == Some(k) || (a == Acquire && Holds(s.hand, k))
    ensures Apply(s, a).lease == Some(k)
  {
  }

  lemma {:induction false} LeaseStaysHeld(t: seq<Action>, i: nat, k: Key)
    requires Legal(Init(), t) && i < |t| && t[i] == Acquire && Holds(Run(Init(), t[..i]).hand, k)
    requires forall m :: i <= m < |t| ==> !FreesLease(t[m])
    ensures Run(Init(), t).lease == Some(k)
  {
    var front, a := t[..|t| - 1], t[|t| - 1];
    if i < |front| {
      assert front[..i] == t[..i];
      LeaseStaysHeld(front, i, k);
    } else {
      assert front == t[..i];
    }
    OnlyFreesLoseTheLease(Run(Init(), front), a, k);
  }

  lemma OnlyAcquireTakesTheLease(s: State, a: Action)
    requires Enabled(s, a) && s.lease == None && Apply(s, a).lease.Some?
    ensures a == Acquire
  {
    if WakerStep(a) { WakersTouchOnlyWakes(s, a); }
  }

  /** A lease that was free is held again only after a step that acquired it. */
  lemma {:induction false} LeaseNeedsAcquire(t: seq<Action>, u: seq<Action>)
    requires Legal(Init(), u) && t <= u && Run(Init(), t).lease == None && Run(Init(), u).lease.Some?
    ensures Saw(t, u, Acquire)
  {
    hide Apply, Enabled;
    assert t != u;
    var front, a := u[..|u| - 1], u[|u| - 1];
    if Run(Init(), front).lease == None {
      OnlyAcquireTakesTheLease(Run(Init(), front), a);
      assert u[|front|] == Acquire;
    } else {
      LeaseNeedsAcquire(t, front);
      SawWithin(t, t, front, u, Acquire);
    }
  }

  lemma NothingRunsBesideAHolder(s: State, a: Action, k: Key)
    requires Inv(s) && Enabled(s, a) && s.lease == Some(k)
    ensures !RunsBeside(s, a, k)
  {
  }

  /**
    Exclusivity over whole runs: from the moment `k` acquires the lease until a step
    frees it, no other reply is polled, no key is drained, no envelope is dispatched
    or stored, and no child event is taken.
   */
  lemma LeaseIsExclusive(t: seq<Action>, i: nat, j: nat, k: Key)
    requires Legal(Init(), t) && i < j < |t| && t[i] == Acquire && Holds(Run(Init(), t[..i]).hand, k)
    requires forall m :: i <= m < j ==> !FreesLease(t[m])
    ensures !RunsBeside(Run(Init(), t[..j]), t[j], k)
  {
    LegalPrefix(Init(), t, j);
    assert t[..j][..i] == t[..i];
    LeaseStaysHeld(t[..j], i, k);
    ReachableInv(t[..j]);
    NothingRunsBesideAHolder(Run(Init(), t[..j]), t[j], k);
  }

  // ------------------------------------------------------------- lost wakes

  /** The next wake of this live reply will be noticed: it can still wake the task, or its key is queued. */
  predicate Attended(s: State, k: Key) {
    || k in s.armed
    || (k in s.flags && (k in s.ready || s.hand == Popped(k)))
    || s.hand == Hand.Taken(k)
  }

  predicate Attentive(s: State) { forall k :: k in s.live ==> Attended(s, k) }

  /** Is the key of a set flag already in the actor task's reach? */
  predicate InReach(s: State, k: Key) {
    (k in s.flags && (k in s.ready || s.hand == Popped(k))) || s.hand == Hand.Taken(k)
  }

  /**
    A hollow wake spends the task waker of a live reply on an episode that was
    already drained (or not yet queued); a hollow insert stores a reply whose first
    episode belongs to a waker that has not pushed yet.
   */
  predicate Hollow(s: State, a: Action) {
    match a
    case WakeTask(k) => k in s.live && !InReach(s, k)
    case Notify(k) => k in s.live && k in s.flags && !InReach(s, k)
    case Insert => s.hand.Building? && s.hand.key in s.flags && s.hand.key !in s.ready && s.hand.key !in s.armed
    case _ => false
  }

  lemma HollowStepsLoseAttention(s: State, a: Action)
    requires Inv(s) && Enabled(s, a) && Hollow(s, a)
    ensures !Attentive(Apply(s, a))
  {
    var k := if a == Insert then s.hand.key else a.key;
    assert k in Apply(s, a).live && !Attended(Apply(s, a), k);
  }

  lemma WakersKeepAttention(s: State, a: Action, k: Key)
    requires Inv(s) && Enabled(s, a) && WakerStep(a) && !Hollow(s, a) && k in s.live && Attended(s, k)
    ensures Attended(Apply(s, a), k)
  {
  }

  lemma DrainKeepsAttention(s: State, a: Action, k: Key)
    requires Inv(s) && Enabled(s, a)
            && (a == Pop || a == Insert || a == Skip || a == Take || a.TakeLeased? || a == Register)
    requires !Hollow(s, a) && k in Apply(s, a).live && (k in s.live ==> Attended(s, k))
    ensures Attended(Apply(s, a), k)
  {
    if a == Pop { assert s.ready == [s.ready[0]] + s.ready[1..]; }
  }

  lemma OtherStepsKeepAttention(s: State, a: Action, k: Key)
    requires Inv(s) && Enabled(s, a) && !WakerStep(a)
    requires a != Pop && a != Insert && a != Skip && a != Take && !a.TakeLeased? && a != Register
    requires k in s.live && Attended(s, k)
    ensures Attended(Apply(s, a), k)
  {
  }

  lemma NothingElseJoins(s: State, a: Action)
    requires Enabled(s, a) && a != Insert
    ensures Apply(s, a).live <= s.live
  {
  }

  /** Exactly the hollow steps make the scheduler inattentive. */
  lemma AttentionIsLostExactlyByHollowSteps(s: State, a: Action)
    requires Inv(s) && Attentive(s) && Enabled(s, a)
    ensures Attentive(Apply(s, a)) <==> !Hollow(s, a)
  {
    if Hollow(s, a) {
      HollowStepsLoseAttention(s, a);
    } else {
      if a != Insert { NothingElseJoins(s, a); }
      forall k | k in Apply(s, a).live ensures Attended(Apply(s, a), k) {
        if WakerStep(a) {
          WakersKeepAttention(s, a, k);
        } else if a == Pop || a == Insert || a == Skip || a == Take || a.TakeLeased? || a == Register {
          DrainKeepsAttention(s, a, k);
        } else {
          OtherStepsKeepAttention(s, a, k);
        }
      }
    }
  }

  predicate HollowFree(s: State, t: seq<Action>) {
    t != [] ==> HollowFree(s, t[..|t| - 1]) && !Hollow(Run(s, t[..|t| - 1]), t[|t| - 1])
  }

  lemma {:induction false} HollowFreeRunsAreAttentive(t: seq<Action>)
    requires Legal(Init(), t) && HollowFree(Init(), t)
    ensures Attentive(Run(Init(), t))
  {
    if t != [] {
      HollowFreeRunsAreAttentive(t[..|t| - 1]);
      ReachableInv(t[..|t| - 1]);
      AttentionIsLostExactlyByHollowSteps(Run(Init(), t[..|t| - 1]), t[|t| - 1]);
    }
  }

  /** One uninterrupted notification is the three waker steps in a row. */
  lemma NotifyIsTheThreeSteps(s: State, k: Key)
    requires k in s.issued
    ensures AfterNotify(s, k) ==
            if k in s.flags then AfterWake(AfterSwap(s, k), k)
            else AfterWake(AfterPush(AfterSwap(s, k), k), k)
  {
    assert Dec(Inc(s.pushed, k), k) == s.pushed;
    assert Dec(Inc(s.swapped, k), k) == s.swapped;
    assert s.flags + {k} == s.flags || k !in s.flags;
  }

  predicate Coarse(t: seq<Action>) { forall i :: 0 <= i < |t| ==> !PartialWake(t[i]) }

  /** No waker is ever between two steps when every wake is one step. */
  predicate NobodyInFlight(s: State) { s.swapped == multiset{} && s.pushed == multiset{} }

  lemma CoarseStep(s: State, a: Action)
    requires Inv(s) && NobodyInFlight(s) && Enabled(s, a) && !PartialWake(a)
    ensures NobodyInFlight(Apply(s, a)) && !Hollow(s, a)
  {
    if a.Notify? && a.key in s.live && a.key in s.flags { assert Backed(s, a.key); }
  }

  /** When each wake is one uninterrupted step, no step is hollow. */
  lemma {:induction false} CoarseRunsAreAttentive(t: seq<Action>)
    requires Legal(Init(), t) && Coarse(t)
    ensures NobodyInFlight(Run(Init(), t)) && HollowFree(Init(), t) && Attentive(Run(Init(), t))
  {
    if t != [] {
      CoarseRunsAreAttentive(t[..|t| - 1]);
      ReachableInv(t[..|t| - 1]);
      CoarseStep(Run(Init(), t[..|t| - 1]), t[|t| - 1]);
    }
    HollowFreeRunsAreAttentive(t);
  }

  /** The drain found the queue empty, no reply holds the lease, and nothing woke the task since. */
  predicate Parked(s: State) {
    s.hand == Empty && s.lease == None && s.ready == [] && !s.woken
  }

  lemma {:induction false} HollowFreePrefix(t: seq<Action>, u: seq<Action>)
    requires t <= u && HollowFree(Init(), u)
    ensures HollowFree(Init(), t)
  {
    if t == u {
    } else {
      HollowFreePrefix(t, u[..|u| - 1]);
    }
  }

  /** Every ready reply has been announced, or its waker is still on its way to an armed registration. */
  predicate Heard(s: State) {
    || s.woken
    || forall k :: k in s.live ==> k in s.armed && (k in s.flags ==> s.swapped[k] > 0 || s.pushed[k] > 0)
  }

  lemma WakersKeepHeard(s: State, a: Action)
    requires Heard(s) && Enabled(s, a) && WakerStep(a)
    ensures Heard(Apply(s, a))
  {
  }

  /** A drained attentive queue has heard everything. */
  lemma DrainedIsHeard(s: State)
    requires Inv(s) && Attentive(s) && s.hand == Empty && s.ready == []
    ensures Heard(s)
  {
    forall k | k in s.live ensures k in s.armed && (k in s.flags ==> s.swapped[k] > 0) {
      assert Attended(s, k) && Backed(s, k);
    }
  }

  lemma {:induction false} SleepKeepsHeard(s: State, wakes: seq<Action>)
    requires Heard(s) && Legal(s, wakes) && forall i :: 0 <= i < |wakes| ==> WakerStep(wakes[i])
    ensures Heard(Run(s, wakes))
  {
    if wakes != [] {
      var front := wakes[..|wakes| - 1];
      SleepKeepsHeard(s, front);
      WakersKeepHeard(Run(s, front), wakes[|wakes| - 1]);
    }
  }

  /**
    An attentive parked task sleeps through nothing, under every interleaving of the
    waker threads' atomic steps: once no waker is in flight, either the task has been
    woken or no live reply is ready.
   */
  lemma AttentiveParkingLosesNoWake(t: seq<Action>, wakes: seq<Action>)
    requires Legal(Init(), t) && Parked(Run(Init(), t)) && Attentive(Run(Init(), t))
    requires Legal(Run(Init(), t), wakes) && forall i :: 0 <= i < |wakes| ==> WakerStep(wakes[i])
    ensures var s := Run(Run(Init(), t), wakes);
      s.woken || forall k :: k in ReadySet(s) ==> s.swapped[k] > 0 || s.pushed[k] > 0
  {
    var s := Run(Init(), t);
    ReachableInv(t);
    DrainedIsHeard(s);
    SleepKeepsHeard(s, wakes);
  }

  /** Attention is also necessary: a parked scheduler hears every next wake if and only if it is attentive. */
  lemma ParkedHearsExactlyWhenAttentive(t: seq<Action>)
    requires Legal(Init(), t) && Parked(Run(Init(), t)) && NobodyInFlight(Run(Init(), t))
    ensures var s := Run(Init(), t);
      Attentive(s) <==> forall k :: k in s.live ==> Enabled(s, Notify(k)) && Apply(s, Notify(k)).woken
  {
    var s := Run(Init(), t);
    ReachableInv(t);
    forall k | k in s.live ensures Enabled(s, Notify(k)) && (Apply(s, Notify(k)).woken <==> Attended(s, k)) {
      assert Backed(s, k);
    }
  }

  lemma Go(t: seq<Action>, s: State, a: Action) returns (t': seq<Action>, s': State)
    requires Legal(Init(), t) && Run(Init(), t) == s && Enabled(s, a)
    ensures t' == t + [a] && s' == Apply(s, a)
    ensures Legal(Init(), t') && Run(Init(), t') == s'
  {
    Extend(Init(), t, a);
    t', s' := t + [a], Apply(s, a);
  }

  lemma FirstReply() returns (t: seq<Action>, s: State, k: Key)
    ensures t == [Deliver(0), Allocate(0), Insert] && k == Key(0, 0) && Legal(Init(), t) && Run(Init(), t) == s
    ensures s == State([1], {k}, {k}, {k}, [k], {}, multiset{}, multiset{}, None, Empty, {}, false, Running, None)
  {
    k := Key(0, 0);
    t, s := Go([], Init(), Deliver(0));
    t, s := Go(t, s, Allocate(0));
    t, s := Go(t, s, Insert);
  }

  /** The task runs for some other reason and drains a queued reply up to its poll, with a fresh registration. */
  lemma PollOne(t: seq<Action>, s: State, k: Key) returns (t': seq<Action>, s': State)
    requires Legal(Init(), t) && Run(Init(), t) == s
    requires s.hand == Empty && s.lease == None && s.ready == [k] && k in s.live && k in s.flags
    ensures t' == t + [SelfWake, StartTurn, Pop, Take, Register] && Legal(Init(), t') && Run(Init(), t') == s'
    ensures s' == s.(woken := false, flags := s.flags - {k}, ready := [], armed := s.armed + {k}, hand := Polling(k),
                  expects := None)
  {
    hide Run, Legal;
    t', s' := Go(t, s, SelfWake);
    t', s' := Go(t', s', StartTurn);
    t', s' := Go(t', s', Pop);
    t', s' := Go(t', s', Take);
    t', s' := Go(t', s', Register);
  }

  /** A reply was polled once and waits. */
  lemma WaitingReply() returns (t: seq<Action>, s: State, k: Key)
    ensures Legal(Init(), t) && Run(Init(), t) == s
    ensures s == State([1], {k}, {k}, {}, [], {k}, multiset{}, multiset{}, None, Empty, {}, false, Running, None)
  {
    t, s, k := FirstReply();
    t, s := PollOne(t, s, k);
    t, s := Go(t, s, Settle(false));
  }

  /** A waker then raises and queues it. */
  lemma QueuedAgain() returns (t: seq<Action>, s: State, k: Key)
    ensures Legal(Init(), t) && Run(Init(), t) == s
    ensures s == State([1], {k}, {k}, {k}, [k], {k}, multiset{}, multiset{k}, None, Empty, {}, false, Running, None)
    ensures k in s.issued
  {
    hide Run, Legal;
    t, s, k := WaitingReply();
    t, s := Go(t, s, Swap(k));
    t, s := Go(t, s, Push(k));
    assert s.pushed == multiset{k} && s.swapped == multiset{};
  }

  /** A waker of `k` pauses between its push and its wake while the drain serves its episode. */
  lemma PausedWaker() returns (t: seq<Action>, s: State, k: Key)
    ensures Legal(Init(), t) && Run(Init(), t) == s
    ensures s == State([1], {k}, {k}, {}, [], {k}, multiset{}, multiset{k}, None, Empty, {}, false, Running, None)
    ensures k in s.issued
  {
    t, s, k := QueuedAgain();
    t, s := PollOne(t, s, k);
    t, s := Go(t, s, Settle(false));
  }

  /** The paused waker spends the fresh registration, and the task parks. */
  lemma SpentRegistration() returns (t: seq<Action>, s: State, k: Key)
    ensures Legal(Init(), t) && Run(Init(), t) == s
    ensures s == State([1], {k}, {k}, {}, [], {}, multiset{}, multiset{}, None, Empty, {}, false, Running, None)
    ensures k in s.issued
  {
    t, s, k := PausedWaker();
    t, s := Go(t, s, WakeTask(k));
    t, s := Go(t, s, StartTurn);
    assert s.armed == {} && s.pushed == multiset{} && Parked(s);
  }

  /**
    The run in which the runtime loses a wake.  A reply is polled and parks; a waker
    raises and queues it but pauses before waking the task; the task runs for another
    reason and polls the reply again, registering afresh; the paused waker then spends
    that registration; the task finds nothing to do and parks; the next wake finds no
    registration.
   */
  lemma WakesCanBeLost() returns (t: seq<Action>)
    ensures Legal(Init(), t)
    ensures var s := Run(Init(), t);
      NobodyInFlight(s) && s.hand == Empty && s.lease == None && !s.woken && ReadySet(s) != {}
  {
    hide Run, Legal;
    var s: State, k;
    t, s, k := SpentRegistration();
    t, s := Go(t, s, Swap(k));
    t, s := Go(t, s, Push(k));
    t, s := Go(t, s, WakeTask(k));
    assert s.swapped == multiset{} && s.pushed == multiset{};
    assert k in ReadySet(s);
  }

  // ------------------------------------------------------- stranded replies

  /** A reply whose future has finished sits in the slot map, not ready. */
  predicate Stranded(s: State, k: Key) {
    && k in s.live && k in s.finished && k !in s.flags
    && s.hand != Clearing && (Holds(s.hand, k) ==> s.hand == Popped(k))
  }

  /** Steps that could still reach the reply: a wake of its own, or discarding the whole queue. */
  predicate Rescues(a: Action, k: Key) {
    a == BeginClear || a == Swap(k) || a == Notify(k)
  }

  lemma WakersLeaveItStranded(s: State, a: Action, k: Key)
    requires Enabled(s, a) && WakerStep(a) && Stranded(s, k) && !Rescues(a, k)
    ensures Stranded(Apply(s, a), k)
  {
  }

  lemma ActorLeavesItStranded(s: State, a: Action, k: Key)
    requires SlotsOk(s) && Enabled(s, a) && !WakerStep(a) && Stranded(s, k) && !Rescues(a, k)
    ensures Stranded(Apply(s, a), k)
  {
  }

  /** Without a rescue the scheduler is never idle again: a graceful shutdown that waits for it waits forever. */
  lemma {:induction false} StrandedForever(s: State, t: seq<Action>, k: Key)
    requires Inv(s) && Stranded(s, k) && Legal(s, t)
    requires forall i :: 0 <= i < |t| ==> !Rescues(t[i], k)
    ensures k in Run(s, t).live && Stranded(Run(s, t), k)
  {
    if t != [] {
      var front := t[..|t| - 1];
      StrandedForever(s, front, k);
      RunKeepsInv(s, front);
      if WakerStep(t[|t| - 1]) {
        WakersLeaveItStranded(Run(s, front), t[|t| - 1], k);
      } else {
        ActorLeavesItStranded(Run(s, front), t[|t| - 1], k);
      }
    }
  }

  const FIRST_KEY := Key(0, 0)

  /** A reply's first poll takes the lease and waits. */
  const LEASING_RUN := [Deliver(0), Allocate(0), Insert, SelfWake, StartTurn, Pop, Take, Register, Acquire,
                        Settle(false)]

  /** The holder is polled under `Running`; Stop commits; it drops its guard and finishes. */
  const STRANDING_POLL := [Notify(FIRST_KEY), StartTurn, TakeLeased(Running), Register, Action.Op(Request(Stop)),
                           Release, Settle(true), Forget]

  lemma FirstPoll() returns (t: seq<Action>, s: State)
    ensures t == LEASING_RUN[..8] && Legal(Init(), t) && Run(Init(), t) == s
    ensures s == State([1], {FIRST_KEY}, {FIRST_KEY}, {}, [], {FIRST_KEY}, multiset{}, multiset{},
                       None, Polling(FIRST_KEY), {}, false, Running, None)
  {
    var k;
    t, s, k := FirstReply();
    t, s := PollOne(t, s, k);
  }

  lemma Leased() returns (s: State)
    ensures Legal(Init(), LEASING_RUN) && Run(Init(), LEASING_RUN) == s
    ensures s == State([1], {FIRST_KEY}, {FIRST_KEY}, {}, [], {FIRST_KEY}, multiset{}, multiset{},
                       Some(FIRST_KEY), Empty, {}, false, Running, None)
  {
    var t;
    t, s := FirstPoll();
    t, s := Go(t, s, Acquire);
    t, s := Go(t, s, Settle(false));
    assert t == LEASING_RUN;
  }

  /** The holder is woken, and the task is about to poll it. */
  lemma WokenHolder() returns (t: seq<Action>, s: State)
    ensures t == LEASING_RUN + STRANDING_POLL[..2] && Legal(Init(), t) && Run(Init(), t) == s
    ensures s == State([1], {FIRST_KEY}, {FIRST_KEY}, {FIRST_KEY}, [FIRST_KEY], {}, multiset{}, multiset{},
                       Some(FIRST_KEY), Empty, {}, false, Running, None)
  {
    s := Leased();
    t, s := Go(LEASING_RUN, s, Notify(FIRST_KEY));
    t, s := Go(t, s, StartTurn);
  }

  /** The holder's poll has begun under `Running`, and Stop has committed. */
  lemma StoppedPoll() returns (t: seq<Action>, s: State)
    ensures t == LEASING_RUN + STRANDING_POLL[..5] && Legal(Init(), t) && Run(Init(), t) == s
    ensures s == State([1], {FIRST_KEY}, {FIRST_KEY}, {}, [FIRST_KEY], {FIRST_KEY}, multiset{}, multiset{},
                       Some(FIRST_KEY), Polling(FIRST_KEY), {}, false, Stopping, Some(Running))
  {
    hide Run, Legal;
    t, s := WokenHolder();
    t, s := Go(t, s, TakeLeased(Running));
    t, s := Go(t, s, Register);
    t, s := Go(t, s, Action.Op(Request(Stop)));
  }

  /**
    A reply strands when it holds the lease, its future returns Ready, and a shutdown
    commits during that very poll: the leased poll then leaves the map untouched.
   */
  lemma LeasedRepliesCanStrand()
    ensures Legal(Init(), LEASING_RUN + STRANDING_POLL)
    ensures Stranded(Run(Init(), LEASING_RUN + STRANDING_POLL), FIRST_KEY)
    ensures Run(Init(), LEASING_RUN + STRANDING_POLL).hand == Empty
  {
    hide Run, Legal;
    var t, s := StoppedPoll();
    t, s := Go(t, s, Release);
    t, s := Go(t, s, Settle(true));
    t, s := Go(t, s, Forget);
    assert t == LEASING_RUN + STRANDING_POLL;
  }

  /** The steps by which a leased poll reads the mode once its holder has finished. */
  predicate ReadsMode(a: Action) { a == Confirm || a == Forget }

  /** A leased poll whose holder has finished reads another mode than the one it was asked to serve. */
  predicate Mismatch(s: State, a: Action, k: Key) {
    ReadsMode(a) && s.hand == Done(k) && s.expects != Some(s.mode)
  }

  ghost predicate MismatchAt(t: seq<Action>, i: nat, k: Key) {
    i < |t| && Mismatch(Run(Init(), t[..i]), t[i], k)
  }

  /** What one step does to the finished replies that stay in the map. */
  lemma KeepingStep(s: State, a: Action, k: Key)
    requires Inv(s) && Enabled(s, a)
    requires k in Apply(s, a).live && k in Apply(s, a).finished && Apply(s, a).hand != Done(k)
    ensures (k in s.live && k in s.finished && s.hand != Done(k)) || Mismatch(s, a, k)
  {
    if WakerStep(a) { WakersTouchOnlyWakes(s, a); }
  }

  lemma FinishedStays(s: State, a: Action)
    requires Enabled(s, a)
    ensures s.finished <= Apply(s, a).finished
  {
    if WakerStep(a) { WakersTouchOnlyWakes(s, a); }
  }

  lemma HandsAreFinished(s: State, a: Action, k: Key)
    requires Enabled(s, a) && (s.hand == Done(k) ==> k in s.finished)
    ensures Apply(s, a).hand == Done(k) ==> k in Apply(s, a).finished
  {
    if WakerStep(a) { WakersTouchOnlyWakes(s, a); }
  }

  lemma {:induction false} KeptAfterMismatch(t: seq<Action>, k: Key)
    requires Legal(Init(), t)
    ensures var s := Run(Init(), t);
      && (s.hand == Done(k) ==> k in s.finished)
      && (k in s.live && k in s.finished && s.hand != Done(k) ==> exists i :: 0 <= i < |t| && MismatchAt(t, i, k))
      && ((exists i :: 0 <= i < |t| && MismatchAt(t, i, k)) ==> k in s.finished)
  {
    if t != [] {
      var front, a := t[..|t| - 1], t[|t| - 1];
      var s := Run(Init(), front);
      KeptAfterMismatch(front, k);
      ReachableInv(front);
      FinishedStays(s, a);
      HandsAreFinished(s, a, k);
      MismatchSoFar(t, k);
      var after := Apply(s, a);
      if k in after.live && k in after.finished && after.hand != Done(k) {
        KeepingStep(s, a, k);
      }
    }
  }

  lemma MismatchSoFar(t: seq<Action>, k: Key)
    requires t != []
    ensures var front := t[..|t| - 1];
      (exists i :: 0 <= i < |t| && MismatchAt(t, i, k)) <==>
        || (exists i :: 0 <= i < |front| && MismatchAt(front, i, k))
        || Mismatch(Run(Init(), front), t[|t| - 1], k)
  {
    hide Run;
    var front := t[..|t| - 1];
    assert forall i :: 0 <= i < |front| ==> front[..i] == t[..i];
    assert forall i :: 0 <= i < |front| ==> (MismatchAt(front, i, k) <==> MismatchAt(t, i, k));
    assert MismatchAt(t, |front|, k) <==> Mismatch(Run(Init(), front), t[|t| - 1], k);
  }

  /** The leased poll that was asked to serve a mode. */
  lemma {:induction false} ExpectationWasTaken(t: seq<Action>, n: nat, expected: Mode) returns (j: nat)
    requires Legal(Init(), t) && n <= |t| && Run(Init(), t[..n]).expects == Some(expected)
    ensures j < n && t[j] == TakeLeased(expected)
  {
    assert n > 0 by { assert t[..0] == []; }
    LegalPrefix(Init(), t, n - 1);
    if t[n - 1] == TakeLeased(expected) {
      j := n - 1;
    } else {
      OnlyTakingExpects(Run(Init(), t[..n - 1]), t[n - 1]);
      j := ExpectationWasTaken(t, n - 1, expected);
    }
  }

  lemma OnlyTakingExpects(s: State, a: Action)
    requires Enabled(s, a) && Apply(s, a).expects.Some?
    ensures Apply(s, a).expects == s.expects || a == TakeLeased(Apply(s, a).expects.value)
  {
    if WakerStep(a) { WakersTouchOnlyWakes(s, a); }
  }

  /**
    Exactly which finished replies stay in the map: with nothing in hand, a live reply has
    finished if and only if some leased poll read, after polling it, another mode than the
    one it was asked to serve.
   */
  lemma FinishedStaysExactlyAfterAMismatch(t: seq<Action>, k: Key)
    requires Legal(Init(), t) && Run(Init(), t).hand == Empty && k in Run(Init(), t).live
    ensures k in Run(Init(), t).finished <==> exists i :: 0 <= i < |t| && MismatchAt(t, i, k)
  {
    KeptAfterMismatch(t, k);
  }

  lemma ForgettingNeedsAModeChange(t: seq<Action>, i: nat) returns (j: nat)
    requires Legal(Init(), t) && i < |t| && t[i] == Forget
    ensures j < i && t[j].TakeLeased? && t[j].expected != Run(Init(), t[..i]).mode
  {
    LegalPrefix(Init(), t, i);
    j := ExpectationWasTaken(t, i, Run(Init(), t[..i]).expects.value);
  }

  /** A completion of a leased poll was confirmed in the mode it was asked to serve. */
  lemma CompletingNeedsTheMode(t: seq<Action>, i: nat) returns (j: nat)
    requires Legal(Init(), t) && i < |t| && t[i] == Confirm
    ensures j < i && t[j] == TakeLeased(Run(Init(), t[..i]).mode)
  {
    LegalPrefix(Init(), t, i);
    j := ExpectationWasTaken(t, i, Run(Init(), t[..i]).mode);
  }

  /** A leased poll of `k` that began at `j` is still under way at `n`. */
  ghost predicate LeasedPoll(t: seq<Action>, j: nat, n: nat, k: Key) {
    && j < n <= |t| && t[j].TakeLeased? && Run(Init(), t[..j]).lease == Some(k)
    && forall i :: j < i <= n ==> Holds(Run(Init(), t[..i]).hand, k)
  }

  /** Has it read the mode yet?  If so, at `m`, and it read the mode it was asked to serve. */
  ghost predicate PollStage(t: seq<Action>, j: nat, n: nat, k: Key, m: Option<nat>) {
    j < n <= |t| && t[j].TakeLeased? &&
    var s := Run(Init(), t[..n]);
    match m
    case None =>
      && s.expects == Some(t[j].expected) && k in s.live && !s.hand.Popped? && !s.hand.Building?
      && forall i :: j < i < n ==> !ReadsMode(t[i])
    case Some(m) =>
      && j < m < n && t[m] == Confirm && Run(Init(), t[..m]).mode == t[j].expected
      && s.hand.Done? && s.expects == None
      && forall i :: j < i < n && ReadsMode(t[i]) ==> i == m
  }

  lemma LeasedStep(s: State, a: Action, k: Key)
    requires Inv(s) && Enabled(s, a) && Holds(s.hand, k) && !s.hand.Popped? && !s.hand.Building?
    requires Holds(Apply(s, a).hand, k)
    ensures !Apply(s, a).hand.Popped? && !Apply(s, a).hand.Building?
    ensures s.hand.Done? ==> Apply(s, a).hand.Done?
    ensures ReadsMode(a) ==> a == Confirm && s.expects == Some(s.mode) && s.hand.Done? && Apply(s, a).expects == None
    ensures !ReadsMode(a) ==> Apply(s, a).expects == s.expects
    ensures s.expects.Some? && k in s.live ==> k in Apply(s, a).live
  {
    if WakerStep(a) { WakersTouchOnlyWakes(s, a); }
  }

  lemma {:induction false} PollStageAt(t: seq<Action>, j: nat, n: nat, k: Key) returns (m: Option<nat>)
    requires Legal(Init(), t) && LeasedPoll(t, j, n, k)
    ensures PollStage(t, j, n, k, m)
  {
    hide Apply, Enabled, Run, Inv;
    LegalPrefix(Init(), t, n - 1);
    ReachableInv(t[..n - 1]);
    if n == j + 1 {
      LeasedPollBegins(Run(Init(), t[..j]), t[j].expected, k);
      m := None;
    } else {
      m := PollStageAt(t, j, n - 1, k);
      LeasedStep(Run(Init(), t[..n - 1]), t[n - 1], k);
      if m == None && ReadsMode(t[n - 1]) { m := Some(n - 1); }
    }
  }

  lemma LeasedPollBegins(s: State, expected: Mode, k: Key)
    requires Enabled(s, TakeLeased(expected)) && s.lease == Some(k)
    ensures var t := Apply(s, TakeLeased(expected));
      t.expects == Some(expected) && k in t.live && t.hand == Hand.Taken(k)
  {
  }

  lemma DonePollEnds(s: State, a: Action, k: Key)
    requires Enabled(s, a) && s.hand == Done(k) && Apply(s, a).hand != Done(k)
    ensures a == Conclude || a == Forget
    ensures a == Conclude ==> k !in s.live && k !in Apply(s, a).live
    ensures a == Forget ==> s.expects.Some? && s.expects.value != s.mode && Apply(s, a).live == s.live
  {
    if WakerStep(a) { WakersTouchOnlyWakes(s, a); }
  }

  /**
    Exactly when a finished holder stays in the map.  A leased poll that finishes reads the
    mode once after its poll, and when it returns its holder is still in the map if and
    only if the mode it read is not the one it was asked to serve.
   */
  lemma LeasedPollKeepsExactlyUnderAnotherMode(t: seq<Action>, j: nat, i: nat, k: Key) returns (m: nat)
    requires Legal(Init(), t) && i < |t| && LeasedPoll(t, j, i, k)
    requires Run(Init(), t[..i]).hand == Done(k) && Run(Init(), t[..i + 1]).hand != Done(k)
    ensures j < m <= i && ReadsMode(t[m]) && forall n :: j < n <= i && ReadsMode(t[n]) ==> n == m
    ensures k in Run(Init(), t[..i + 1]).live <==> Run(Init(), t[..m]).mode != t[j].expected
  {
    hide Apply, Enabled, Run, Inv;
    LegalPrefix(Init(), t, i);
    var stage := PollStageAt(t, j, i, k);
    DonePollEnds(Run(Init(), t[..i]), t[i], k);
    m := if stage.Some? then stage.value else i;
  }
}
