/**
  The atomic steps of the reply scheduler, and what holds over every run of them.

  One actor task and any number of waker threads share per-reply ready flags, one
  ready-key queue, one registered task waker per reply, one lease slot and the lifecycle
  gate.  A state records the shared cells, the waker threads caught between their atomic
  steps, and the message or key the actor task has in hand.  A run also marks lane visits.
  The generational arena never issues a key twice: versions do not wrap, and a panic while
  a future is built, which leaves its slot as it was, fails the actor, so that nothing is
  scheduled afterwards.
 */
module WakeMachine {
  import opened Lifecycle

  datatype Key = Key(slot: nat, version: nat)

  /** What the actor task is doing with one key. */
  datatype Hand =
    | Empty
    | Envelope(id: nat)    // a message left the inbox, its dispatch is under way
    | Building(key: Key)   // the key exists, its future is under construction
    | Popped(key: Key)     // taken from the ready queue, not yet looked up
    | Taken(key: Key)      // its ready flag is cleared, its task waker is not yet registered
    | Polling(key: Key)    // its future runs
    | Done(key: Key)       // its future returned Ready
    | Clearing             // the queue is being emptied

  /** The lanes of one actor turn; the run marks each visit. */
  datatype Lane = Mailbox | Reply | ChildExit

  /** One lane visit and the messages it dispatched. */
  datatype Visit = Visit(lane: Lane, dispatched: nat)

  datatype State = State(
    versions: seq<nat>,       // next version of every slot ever used
    issued: set<Key>,         // every key ever allocated; each has a wake of its own
    live: set<Key>,           // keys in the slot map
    flags: set<Key>,          // `ready` flags that are set
    ready: seq<Key>,          // the shared ready-key queue
    armed: set<Key>,          // replies whose task waker is registered
    swapped: multiset<Key>,   // wakers between their swap and their push
    pushed: multiset<Key>,    // wakers about to wake the task
    lease: Option<Key>,
    hand: Hand,
    finished: set<Key>,       // replies whose future has returned Ready
    woken: bool,              // the executor will poll the actor task again
    mode: Mode,               // the lifecycle gate
    expects: Option<Mode>)    // the mode the leased poll in hand was asked to serve, until it is confirmed

  datatype Action =
    // the gate
    | Op(op: GateOp)
    // the actor task
    | StartTurn
    | SelfWake
    | Enter(lane: Lane)
    | Deliver(id: nat)
    | Decline
    | TakeChild
    | Allocate(slot: nat)
    | Insert
    | Pop
    | Skip
    | Take
    | TakeLeased(expected: Mode)
    | Register
    | Acquire
    | Release
    | Settle(done: bool)
    | Unwind
    | Confirm
    | Remove
    | Conclude
    | Forget
    | ReleaseMissing
    | BeginClear
    | Discard(key: Key)
    | EndClear
    // waker threads
    | Swap(key: Key)
    | Push(key: Key)
    | WakeTask(key: Key)
    | Notify(key: Key)        // the three waker steps without interruption

  predicate WakerStep(a: Action) { a.Swap? || a.Push? || a.WakeTask? || a.Notify? }

  /** Waker steps that leave a thread between two atomic steps. */
  predicate PartialWake(a: Action) { a.Swap? || a.Push? || a.WakeTask? }

  function Init(): State {
    State([], {}, {}, {}, [], {}, multiset{}, multiset{}, None, Empty, {}, false, Running, None)
  }

  predicate Keyed(hand: Hand) { hand != Empty && hand != Clearing && !hand.Envelope? }

  predicate Holds(hand: Hand, k: Key) {
    Keyed(hand) && hand.key == k
  }

  function NextKey(s: State, slot: nat): Key {
    Key(slot, if slot < |s.versions| then s.versions[slot] else 0)
  }

  predicate Enabled(s: State, a: Action) {
    match a
    case Op(_) => true
    case StartTurn => s.hand == Empty
    case SelfWake => s.hand == Empty
    case Enter(_) => s.hand == Empty
    case Deliver(_) => s.hand == Empty && s.lease == None
    case Decline => s.hand.Envelope?
    case TakeChild => s.hand == Empty && s.lease == None
    case Allocate(slot) => s.hand.Envelope? && s.lease == None && slot <= |s.versions|
            && forall k :: k in s.live ==> k.slot != slot
    case Insert => s.hand.Building?
    case Pop => s.hand == Empty && s.lease == None && s.ready != []
    case Skip => s.hand.Popped? && (s.hand.key !in s.live || s.hand.key !in s.flags)
    case Take => s.hand.Popped? && s.hand.key in s.live && s.hand.key in s.flags
    case TakeLeased(_) => s.hand == Empty && s.lease.Some? && s.lease.value in s.live && s.lease.value in s.flags
    case Register => s.hand.Taken?
    case Acquire => (s.hand.Polling? || s.hand.Building?) && s.lease == None
    case Release => s.lease.Some?
            && (s.hand == Clearing
                || ((s.hand.Polling? || s.hand.Building? || s.hand.Done?) && s.hand.key == s.lease.value))
    case Settle(_) => s.hand.Polling?
    case Unwind => s.hand.Polling? || s.hand.Building?
    case Confirm => s.hand.Done? && s.expects == Some(s.mode)
    case Remove => s.hand.Done? && s.expects == None
    case Conclude => s.hand.Done? && s.hand.key !in s.live
    case Forget => s.hand.Done? && s.expects.Some? && s.expects.value != s.mode
    case ReleaseMissing => s.hand == Empty && s.lease.Some? && s.lease.value !in s.live
    case BeginClear => s.hand == Empty
    case Discard(k) => s.hand == Clearing && k in s.live
    case EndClear => s.hand == Clearing && s.live == {}
    case Swap(k) => k in s.issued
    case Push(k) => s.swapped[k] > 0
    case WakeTask(k) => s.pushed[k] > 0
    case Notify(k) => k in s.issued
  }

  function Dec(threads: multiset<Key>, k: Key): (r: multiset<Key>)
    requires threads[k] > 0
    ensures r[k] == threads[k] - 1 && forall j :: j != k ==> r[j] == threads[j]
  {
    threads[k := threads[k] - 1]
  }

  function Inc(threads: multiset<Key>, k: Key): (r: multiset<Key>)
    ensures r[k] == threads[k] + 1 && forall j :: j != k ==> r[j] == threads[j]
  {
    threads[k := threads[k] + 1]
  }

  function AfterSwap(s: State, k: Key): State {
    if k in s.flags then s.(pushed := Inc(s.pushed, k))
    else s.(flags := s.flags + {k}, swapped := Inc(s.swapped, k))
  }

  function AfterPush(s: State, k: Key): State
    requires s.swapped[k] > 0
  {
    s.(ready := s.ready + [k], swapped := Dec(s.swapped, k), pushed := Inc(s.pushed, k))
  }

  /** The registered waker is consumed by the first wake. */
  function AfterWake(s: State, k: Key): State
    requires s.pushed[k] > 0
  {
    s.(pushed := Dec(s.pushed, k), woken := s.woken || k in s.armed, armed := s.armed - {k})
  }

  /** Mark ready and wake the task, with nothing in between. */
  function AfterNotify(s: State, k: Key): State {
    s.(flags := s.flags + {k}, ready := if k in s.flags then s.ready else s.ready + [k],
       woken := s.woken || k in s.armed, armed := s.armed - {k})
  }

  function Apply(s: State, a: Action): State
    requires Enabled(s, a)
  {
    match a
    case Op(op) => s.(mode := Gate(s.mode, op))
    case StartTurn => s.(woken := false)
    case SelfWake => s.(woken := true)
    case Enter(_) => s
    case Deliver(id) => s.(hand := Envelope(id))
    case Decline => s.(hand := Empty)
    case TakeChild => s
    case Allocate(slot) =>
      var k := NextKey(s, slot);
      s.(versions := if slot < |s.versions| then s.versions[slot := k.version + 1] else s.versions + [1],
         issued := s.issued + {k}, hand := Building(k))
    case Insert =>
      var k := s.hand.key;
      if k in s.flags then s.(live := s.live + {k}, hand := Empty)
      else s.(live := s.live + {k}, flags := s.flags + {k}, ready := s.ready + [k], hand := Empty)
    case Pop => s.(hand := Popped(s.ready[0]), ready := s.ready[1..])
    case Skip => s.(hand := Empty)
    case Take => s.(flags := s.flags - {s.hand.key}, hand := Taken(s.hand.key), expects := None)
    case TakeLeased(expected) =>
      s.(flags := s.flags - {s.lease.value}, hand := Taken(s.lease.value), expects := Some(expected))
    case Register => s.(armed := s.armed + {s.hand.key}, hand := Polling(s.hand.key))
    case Acquire => s.(lease := Some(s.hand.key))
    case Release => s.(lease := None)
    case Settle(done) =>
      if done then s.(hand := Done(s.hand.key), finished := s.finished + {s.hand.key}) else s.(hand := Empty)
    case Unwind => s.(hand := Empty)
    case Confirm => s.(expects := None)
    case Remove => s.(live := s.live - {s.hand.key})
    case Conclude => s.(hand := Empty, lease := if s.lease == Some(s.hand.key) then None else s.lease)
    case Forget => s.(hand := Empty)
    case ReleaseMissing => s.(lease := None)
    case BeginClear => s.(hand := Clearing)
    case Discard(k) => s.(live := s.live - {k})
    case EndClear => s.(hand := Empty, lease := None)
    case Swap(k) => AfterSwap(s, k)
    case Push(k) => AfterPush(s, k)
    case WakeTask(k) => AfterWake(s, k)
    case Notify(k) => AfterNotify(s, k)
  }

  lemma SwapApplies(s: State, k: Key)
    requires k in s.issued
    ensures Enabled(s, Swap(k)) && Apply(s, Swap(k)) == AfterSwap(s, k)
  {
  }

  lemma PushApplies(s: State, k: Key)
    requires s.swapped[k] > 0
    ensures Enabled(s, Push(k)) && Apply(s, Push(k)) == AfterPush(s, k)
  {
  }

  lemma WakeApplies(s: State, k: Key)
    requires s.pushed[k] > 0
    ensures Enabled(s, WakeTask(k)) && Apply(s, WakeTask(k)) == AfterWake(s, k)
  {
  }

  lemma NotifyApplies(s: State, k: Key)
    requires k in s.issued
    ensures Enabled(s, Notify(k)) && Apply(s, Notify(k)) == AfterNotify(s, k)
  {
  }

  function Next(s: State, a: Action): State {
    if Enabled(s, a) then Apply(s, a) else s
  }

  function Run(s: State, t: seq<Action>): State {
    if t == [] then s else Next(Run(s, t[..|t| - 1]), t[|t| - 1])
  }

  /** Every action of the trace is enabled where it occurs. */
  predicate Legal(s: State, t: seq<Action>) {
    t != [] ==> Legal(s, t[..|t| - 1]) && Enabled(Run(s, t[..|t| - 1]), t[|t| - 1])
  }

  lemma Extend(s: State, t: seq<Action>, a: Action)
    requires Legal(s, t) && Enabled(Run(s, t), a)
    ensures Legal(s, t + [a]) && Run(s, t + [a]) == Apply(Run(s, t), a)
  {
    assert (t + [a])[..|t + [a]| - 1] == t;
  }

  lemma {:induction false} LegalPrefix(s: State, t: seq<Action>, i: nat)
    requires Legal(s, t) && i <= |t|
    ensures Legal(s, t[..i]) && (i < |t|
            ==> Enabled(Run(s, t[..i]), t[i]) && Run(s, t[..i + 1]) == Apply(Run(s, t[..i]), t[i]))
  {
    if i == |t| {
      assert t[..i] == t;
    } else {
      var front := t[..|t| - 1];
      LegalPrefix(s, front, i);
      assert front[..i] == t[..i];
      if i == |front| {
        assert t[..i] == front && t[..i + 1] == t;
      } else {
        assert front[..i + 1] == t[..i + 1];
      }
    }
  }

  // -------------------------------------------------------------- invariant

  predicate KeysOk(s: State) {
    && (forall k :: k in s.issued ==> k.slot < |s.versions| && k.version < s.versions[k.slot])
    && s.live <= s.issued && s.flags <= s.issued && s.armed <= s.issued && s.finished <= s.issued
    && (forall k :: k in s.ready ==> k in s.issued)
    && (forall k :: k in s.swapped ==> k in s.issued)
    && (forall k :: k in s.pushed ==> k in s.issued)
    && (Keyed(s.hand) ==> s.hand.key in s.issued)
    && (s.lease.Some? ==> s.lease.value in s.issued)
  }

  predicate SlotsOk(s: State) {
    && (forall k, j :: k in s.live && j in s.live && k.slot == j.slot ==> k == j)
    && (s.hand.Building? ==> forall k :: k in s.live ==> k.slot != s.hand.key.slot)
    && (s.hand.Building? ==> s.hand.key !in s.finished)
    && (s.hand.Taken? || s.hand.Polling? ==> s.hand.key in s.live)
  }

  /** A set flag of a live reply is backed by a queued key, or by one about to be queued or just taken. */
  predicate Backed(s: State, k: Key) {
    k in s.flags ==> k in s.ready || s.swapped[k] > 0 || s.hand == Popped(k)
  }

  predicate QueueOk(s: State) {
    && (forall k :: k in s.live ==> Backed(s, k))
    && (s.hand.Building? ==> Backed(s, s.hand.key))
  }

  /** Only the holder may be in hand while the lease is held. */
  predicate LeaseOk(s: State) {
    s.lease.Some? ==> s.hand == Empty || s.hand == Clearing || (Holds(s.hand, s.lease.value) && !s.hand.Popped?)
  }

  predicate Inv(s: State) {
    KeysOk(s) && SlotsOk(s) && QueueOk(s) && LeaseOk(s)
  }

  lemma SwapKeepsKeys(s: State, k: Key)
    requires KeysOk(s) && k in s.issued
    ensures KeysOk(AfterSwap(s, k))
  {
  }

  lemma PushKeepsKeys(s: State, k: Key)
    requires KeysOk(s) && s.swapped[k] > 0
    ensures KeysOk(AfterPush(s, k))
  {
  }

  lemma WakeKeepsKeys(s: State, k: Key)
    requires KeysOk(s) && s.pushed[k] > 0
    ensures KeysOk(AfterWake(s, k))
  {
  }

  lemma WakerKeepsKeys(s: State, a: Action)
    requires KeysOk(s) && Enabled(s, a) && WakerStep(a)
    ensures KeysOk(Apply(s, a))
  {
    match a
    case Swap(k) => SwapKeepsKeys(s, k);
    case Push(k) => PushKeepsKeys(s, k);
    case WakeTask(k) => WakeKeepsKeys(s, k);
    case Notify(k) =>
  }

  lemma AllocateKeepsKeys(s: State, slot: nat)
    requires KeysOk(s) && Enabled(s, Allocate(slot))
    ensures KeysOk(Apply(s, Allocate(slot)))
  {
  }

  lemma QueueStepKeepsKeys(s: State, a: Action)
    requires KeysOk(s) && Enabled(s, a) && (a == Insert || a == Pop)
    ensures KeysOk(Apply(s, a))
  {
    assert forall k :: k in Apply(s, a).ready ==> k in s.ready || Holds(s.hand, k);
    if a == Pop { assert s.ready[0] in s.ready; }
  }

  lemma ActorKeepsCells(s: State, a: Action)
    requires s.live <= s.issued && s.armed <= s.issued && s.finished <= s.issued
    requires Keyed(s.hand) ==> s.hand.key in s.issued
    requires Enabled(s, a) && !WakerStep(a) && !a.Allocate? && a != Insert && a != Pop
    ensures var t := Apply(s, a);
      && t.versions == s.versions && t.issued == s.issued && t.ready == s.ready
      && t.swapped == s.swapped && t.pushed == s.pushed
      && t.live <= s.live && t.flags <= s.flags
      && t.armed <= s.issued && t.finished <= s.issued
  {
  }

  lemma ActorKeepsKeys(s: State, a: Action)
    requires KeysOk(s) && Enabled(s, a) && !WakerStep(a) && !a.Allocate? && a != Insert && a != Pop
    ensures KeysOk(Apply(s, a))
  {
    ActorKeepsCells(s, a);
  }

  lemma StepKeepsKeys(s: State, a: Action)
    requires Inv(s) && Enabled(s, a)
    ensures KeysOk(Apply(s, a))
  {
    if WakerStep(a) {
      WakerKeepsKeys(s, a);
    } else if a.Allocate? {
      AllocateKeepsKeys(s, a.slot);
    } else if a == Insert || a == Pop {
      QueueStepKeepsKeys(s, a);
    } else {
      ActorKeepsKeys(s, a);
    }
  }

  lemma WakersTouchOnlyWakes(s: State, a: Action)
    requires Enabled(s, a) && WakerStep(a)
    ensures var t := Apply(s, a);
      && t.versions == s.versions && t.issued == s.issued && t.live == s.live && t.lease == s.lease
      && t.hand == s.hand && t.finished == s.finished && t.mode == s.mode && t.expects == s.expects
  {
  }

  lemma StoringKeepsSlots(s: State, a: Action)
    requires Inv(s) && Enabled(s, a) && (a.Allocate? || a == Insert)
    ensures SlotsOk(Apply(s, a))
  {
  }

  lemma ActorKeepsSlots(s: State, a: Action)
    requires Inv(s) && Enabled(s, a) && !WakerStep(a)
    ensures SlotsOk(Apply(s, a))
  {
    if a.Allocate? || a == Insert {
      StoringKeepsSlots(s, a);
    } else {
      LeavingKeepsSlots(s, a);
    }
  }

  lemma LeavingKeepsSlots(s: State, a: Action)
    requires SlotsOk(s) && Enabled(s, a) && !WakerStep(a) && !a.Allocate? && a != Insert
    ensures SlotsOk(Apply(s, a))
  {
  }

  lemma ActorKeepsLease(s: State, a: Action)
    requires LeaseOk(s) && Enabled(s, a) && !WakerStep(a)
    ensures LeaseOk(Apply(s, a))
  {
  }

  lemma WakersKeepQueue(s: State, a: Action)
    requires QueueOk(s) && Enabled(s, a) && WakerStep(a)
    ensures QueueOk(Apply(s, a))
  {
  }

  /** The steps that handle keys and flags. */
  predicate HandlesKeys(a: Action) {
    a.Insert? || a.Pop? || a.Skip? || a.Take? || a.TakeLeased?
  }

  lemma DrainKeepsQueue(s: State, a: Action)
    requires QueueOk(s) && Enabled(s, a) && HandlesKeys(a)
    ensures QueueOk(Apply(s, a))
  {
    if a.Pop? { assert s.ready == [s.ready[0]] + s.ready[1..]; }
  }

  lemma ActorKeepsQueue(s: State, a: Action)
    requires QueueOk(s) && KeysOk(s) && Enabled(s, a) && !WakerStep(a)
    ensures QueueOk(Apply(s, a))
  {
    if HandlesKeys(a) {
      DrainKeepsQueue(s, a);
    } else if a.Allocate? {
      NextKeyIsFresh(s, a.slot);
    }
  }

  lemma NextKeyIsFresh(s: State, slot: nat)
    requires KeysOk(s)
    ensures NextKey(s, slot) !in s.issued
  {
  }

  lemma StepKeepsInv(s: State, a: Action)
    requires Inv(s) && Enabled(s, a)
    ensures Inv(Apply(s, a))
  {
    StepKeepsKeys(s, a);
    if WakerStep(a) {
      WakersTouchOnlyWakes(s, a);
      WakersKeepQueue(s, a);
    } else {
      ActorKeepsSlots(s, a);
      ActorKeepsLease(s, a);
      ActorKeepsQueue(s, a);
    }
  }

  lemma {:induction false} RunKeepsInv(s: State, t: seq<Action>)
    requires Inv(s) && Legal(s, t)
    ensures Inv(Run(s, t))
  {
    if t != [] {
      var before, a := Run(s, t[..|t| - 1]), t[|t| - 1];
      RunKeepsInv(s, t[..|t| - 1]);
      StepKeepsInv(before, a);
    }
  }

  // ------------------------------------------------- what wakers may do in between

  /** An upper bound on the keys a drain can still meet without a poll. */
  function Pressure(s: State): nat {
    |s.ready| + |s.swapped| + |s.issued - s.flags|
  }

  /** The relation every finite number of waker steps and gate operations satisfies. */
  ghost predicate WakersRan(s: State, t: State) {
    && t.versions == s.versions && t.issued == s.issued && t.live == s.live && t.lease == s.lease
    && t.hand == s.hand && t.finished == s.finished && t.expects == s.expects
    && (t.mode == s.mode || Rank(s.mode) < Rank(t.mode))
    && s.flags <= t.flags && s.ready <= t.ready && (s.woken ==> t.woken)
    && Pressure(t) <= Pressure(s)
  }

  lemma WakersRanTwice(s: State, t: State, u: State)
    requires WakersRan(s, t) && WakersRan(t, u)
    ensures WakersRan(s, u)
  {
  }

  lemma FlaggingRelieves(s: State, k: Key)
    requires k in s.issued
    ensures |s.issued - (s.flags + {k})| == |s.issued - s.flags| - if k in s.flags then 0 else 1
  {
    if k in s.flags {
      assert s.flags + {k} == s.flags;
    } else {
      assert s.issued - (s.flags + {k}) == (s.issued - s.flags) - {k};
    }
  }

  lemma TakingCosts(s: State, k: Key)
    ensures |s.issued - (s.flags - {k})| <= |s.issued - s.flags| + 1
  {
    assert s.issued - (s.flags - {k}) <= (s.issued - s.flags) + {k};
    SubsetIsSmaller(s.issued - (s.flags - {k}), (s.issued - s.flags) + {k});
  }

  lemma {:induction false} SubsetIsSmaller(a: set<Key>, b: set<Key>)
    requires a <= b
    ensures |a| <= |b|
  {
    if a != {} {
      var k :| k in a;
      SubsetIsSmaller(a - {k}, b - {k});
    }
  }

  lemma WakerStepRelieves(s: State, a: Action)
    requires Enabled(s, a) && WakerStep(a)
    ensures Pressure(Apply(s, a)) <= Pressure(s)
  {
    if a.Swap? || a.Notify? { FlaggingRelieves(s, a.key); }
  }

  lemma WakerStepRan(s: State, a: Action)
    requires Enabled(s, a) && WakerStep(a)
    ensures WakersRan(s, Apply(s, a))
  {
    WakersTouchOnlyWakes(s, a);
    WakerStepRelieves(s, a);
  }

  lemma GateStepRan(s: State, op: GateOp)
    ensures WakersRan(s, Apply(s, Op(op)))
  {
    GateClimbs(s.mode, op);
  }

  // ---------------------------------------------------------- what a run has done

  /** Polls of futures, keys popped, panics, the messages taken in order, and the lane visits with their dispatches. */
  datatype Tally = Tally(polls: nat, pops: nat, unwinds: nat, taken: seq<nat>, visits: seq<Visit>)

  /** `n` more messages for the visit under way. */
  function Bump(visits: seq<Visit>, n: nat): seq<Visit> {
    if n == 0 then visits
    else if visits == [] then [Visit(Mailbox, n)]
    else visits[|visits| - 1 := visits[|visits| - 1].(dispatched := visits[|visits| - 1].dispatched + n)]
  }

  function Count(tally: Tally, a: Action): Tally {
    match a
    case Register => tally.(polls := tally.polls + 1)
    case Pop => tally.(pops := tally.pops + 1)
    case Unwind => tally.(unwinds := tally.unwinds + 1)
    case Enter(lane) => tally.(visits := tally.visits + [Visit(lane, 0)])
    case Deliver(id) => tally.(taken := tally.taken + [id], visits := Bump(tally.visits, 1))
    case _ => tally
  }

  function Tallied(t: seq<Action>): Tally {
    if t == [] then Tally(0, 0, 0, [], []) else Count(Tallied(t[..|t| - 1]), t[|t| - 1])
  }

  lemma TallySnoc(t: seq<Action>, a: Action)
    ensures Tallied(t + [a]) == Count(Tallied(t), a)
  {
    assert (t + [a])[..|t + [a]| - 1] == t;
  }

  /** The second trace continues the first without draining, polling, visiting or dispatching. */
  ghost predicate Extends(t: seq<Action>, u: seq<Action>) {
    t <= u && Tallied(u) == Tallied(t)
  }

  /** The action occurs between the two traces. */
  ghost predicate Saw(t: seq<Action>, u: seq<Action>, a: Action) {
    exists i :: |t| <= i < |u| && u[i] == a
  }

  lemma SawWithin(t: seq<Action>, lo: seq<Action>, hi: seq<Action>, u: seq<Action>, a: Action)
    requires t <= lo <= hi <= u && Saw(lo, hi, a)
    ensures Saw(t, u, a)
  {
    var i :| |lo| <= i < |hi| && hi[i] == a;
    assert u[i] == hi[i];
  }
}
