/**
  One actor turn of a mailbox scheduler: the rotating lanes over the reply queue, the
  inbox and the child-exit events, with arrivals from other threads in between.
 */
module MailboxRuntime {
  import opened Lifecycle
  import opened WakeMachine
  import opened WakeTheorems
  import opened ReplyQueue
  import opened Fairness

  datatype Recv = Message(id: nat) | RecvClosed | RecvPending

  datatype Delivery = Stored | Refused | BuildPanicked

  datatype TurnResult =
    | TurnPending
    | LifecycleHint
    | TurnProgress
    | ChildEvent(event: nat)
    | InboxClosed
    | TurnUnwound

  /** What one lane visit selected; `Nothing` moves on to the next lane. */
  datatype LaneResult =
    | Nothing
    | Selected(turn: TurnResult)
    | Exhausted               // the reply lane used its budget
    | Leave(turn: TurnResult) // return at once, cursor untouched
    | Hint                    // mode changed after a dispatch

  /** Between the two tallies the visit under way took `n` messages, and nothing but panics was counted besides. */
  ghost predicate Took(before: Tally, after: Tally, n: nat) {
    && after == before.(taken := after.taken, unwinds := after.unwinds, visits := Bump(before.visits, n))
    && before.taken <= after.taken && |after.taken| == |before.taken| + n
  }

  /** One more panic, if there was one. */
  function Panicking(tally: Tally, panics: bool): Tally {
    tally.(unwinds := tally.unwinds + if panics then 1 else 0)
  }

  lemma TookNothing(tally: Tally)
    ensures Took(tally, tally, 0)
  {
  }

  lemma TookOne(tally: Tally, id: nat, panics: bool)
    ensures Took(tally, Panicking(WakeMachine.Count(tally, Deliver(id)), panics), 1)
    ensures Panicking(WakeMachine.Count(tally, Deliver(id)), panics).unwinds == tally.unwinds + if panics then 1 else 0
  {
  }

  lemma TookTwice(a: Tally, b: Tally, c: Tally, m: nat, n: nat)
    requires Took(a, b, m) && Took(b, c, n)
    ensures Took(a, c, m + n)
  {
  }

  lemma TakingInLast(visits: seq<Visit>, lane: Lane, n: nat)
    ensures Bump(visits + [Visit(lane, 0)], n) == visits + [Visit(lane, n)]
  {
  }

  class Runtime {
    const queue: Queue
    const budget: nat
    const limit: Option<nat>
    var cursor: Lane
    // the transport, by its laws
    var inbox: seq<nat>
    ghost var admitted: seq<nat>
    var closed: bool
    var reservations: nat
    var inboxArmed: bool
    // terminal events of direct children
    var events: seq<nat>
    var eventsArmed: bool

    /**
      Every message ever admitted has been taken for dispatch, in the order of admission,
      or waits in the inbox.
     */
    ghost predicate Sound()
      reads this, queue, queue.control
    {
      && queue.Valid() && budget > 0
      && (limit.Some? ==> |queue.items| <= limit.value)
      && admitted == queue.Log().taken + inbox
    }

    ghost predicate Valid()
      reads this, queue, queue.control
    {
      Sound() && queue.hand == Empty
    }

    /**
      The messages of a run are the oldest admitted ones, as many as its visits dispatched,
      and no message got more than one key.
     */
    lemma Accounted(before: seq<Action>, was: State, visits: seq<Visit>)
      requires Valid() && before <= queue.trace && was == Run(Init(), before) && was.hand == Empty
      requires queue.Log().visits == Tallied(before).visits + visits
      ensures InOrder(|Tallied(before).taken| + Sum(visits))
      ensures |queue.issued| <= |was.issued| + Sum(visits)
    {
      hide WakeMachine.Run, WakeMachine.Legal, WakeMachine.Tallied;
      TakenIsSum(before);
      TakenIsSum(queue.trace);
      SumConcat(Tallied(before).visits, visits);
      KeysNeedDeliveries(before, queue.trace);
    }

    /** Exactly the first `n` admitted messages have been taken, in order. */
    ghost predicate InOrder(n: nat)
      reads this, queue
    {
      n <= |admitted| && queue.Log().taken == admitted[..n]
    }

    constructor (coarse: bool, budget: nat, limit: Option<nat>)
      requires budget > 0
      ensures Valid() && fresh(queue) && fresh(queue.control)
      ensures queue.coarse == coarse && this.budget == budget && this.limit == limit
      ensures cursor == Mailbox && inbox == [] && admitted == [] && events == []
    {
      queue := new Queue(coarse);
      this.budget, this.limit, cursor := budget, limit, Mailbox;
      inbox, closed, reservations, inboxArmed, events, eventsArmed := [], false, 0, false, [], false;
      admitted := [];
    }

    predicate HasDispatchCapacity()
      reads queue, queue.control
    {
      queue.lease == None && (limit.Some? ==> |queue.items| < limit.value)
    }

    // ---------------------------------------------------------- quiescence

    /** Nothing waits in the child lane that the task would not be woken for. */
    ghost predicate ChildrenWatched()
      reads this`inbox, this`inboxArmed, this`events, this`eventsArmed, queue, queue.control
    {
      queue.woken || (events == [] && eventsArmed)
    }

    ghost predicate MailWatched(receive: bool)
      reads this`inbox, this`inboxArmed, this`events, this`eventsArmed, queue, queue.control
    {
      || queue.woken || !receive || queue.lease.Some? || (limit.Some? && |queue.items| >= limit.value)
      || (inbox == [] && inboxArmed)
    }

    /** Unless a step spent a registration in vain, every ready reply was heard of. */
    ghost predicate RepliesHeard()
      reads queue, queue.control
    {
      queue.Listening() ==> Heard(queue.View())
    }

    /** No ready live reply, apart from those whose waker is still on its way. */
    ghost predicate NothingReady()
      reads queue, queue.control
    {
      forall k :: k in ReadySet(queue.View()) ==> queue.swapped[k] > 0 || queue.pushed[k] > 0
    }

    lemma HeardMeansNothingReady()
      requires Valid() && RepliesHeard()
      ensures queue.Listening() && !queue.woken ==> NothingReady()
      ensures queue.coarse && !queue.woken ==> ReadySet(queue.View()) == {}
    {
      queue.Reachable();
    }

    lemma NoRepliesToHear()
      requires queue.items == {}
      ensures RepliesHeard()
    {
    }

    /** Listening now means having listened at every earlier point of the run. */
    lemma ListenedBefore(before: seq<Action>)
      requires before <= queue.trace
      ensures queue.Listening() ==> HollowFree(Init(), before)
    {
      if queue.Listening() { HollowFreePrefix(before, queue.trace); }
    }

    // ------------------------------------------------------ other threads

    /** A message is admitted, a child exits, or a reservation comes or goes. */
    method Arrive()
      requires Valid()
      modifies this`inbox, this`admitted, this`inboxArmed, this`events, this`eventsArmed, this`reservations, queue
      ensures Valid() && Extends(old(queue.trace), queue.trace)
      ensures queue.View() == old(queue.View()).(woken := queue.woken) && (old(queue.woken) ==> queue.woken)
      ensures old(admitted) <= admitted
      ensures old(ChildrenWatched()) ==> ChildrenWatched()
      ensures forall receive :: old(MailWatched(receive)) ==> MailWatched(receive)
      ensures old(RepliesHeard()) ==> RepliesHeard()
    {
      hide WakeMachine.Run, WakeMachine.Legal, WakeMachine.Tallied, HollowFree;
      var choice: nat, id: nat := *, *;
      if choice == 0 {
        if queue.control.mode == Running && !closed {
          inbox, admitted := inbox + [id], admitted + [id];
          if inboxArmed {
            inboxArmed := false;
            queue.WakeSelf();
          }
        }
      } else if choice == 1 {
        events := events + [id];
        if eventsArmed {
          eventsArmed := false;
          queue.WakeSelf();
        }
      } else if choice == 2 {
        if !closed { reservations := reservations + 1; }
      } else if reservations > 0 {
        reservations := reservations - 1;
      }
      ListenedBefore(old(queue.trace));
    }

    method Interfere()
      requires Valid()
      modifies this`inbox, this`admitted, this`inboxArmed, this`events, this`eventsArmed, this`reservations, queue,
        queue.control
      ensures Valid() && WakersRan(old(queue.View()), queue.View()) && Extends(old(queue.trace), queue.trace)
      ensures old(RepliesHeard()) ==> RepliesHeard()
      ensures old(ChildrenWatched()) ==> ChildrenWatched()
      ensures forall receive :: old(MailWatched(receive)) ==> MailWatched(receive)
      ensures old(admitted) <= admitted && old(queue.control.ops) <= queue.control.ops
    {
      hide WakeMachine.Run, WakeMachine.Legal, WakeMachine.Tallied, HollowFree;
      queue.Interfere();
      ListenedBefore(old(queue.trace));
      var n: nat := *;
      while n > 0
        invariant Valid() && WakersRan(old(queue.View()), queue.View()) && Extends(old(queue.trace), queue.trace)
        invariant old(RepliesHeard()) ==> RepliesHeard()
        invariant old(ChildrenWatched()) ==> ChildrenWatched()
        invariant forall receive :: old(MailWatched(receive)) ==> MailWatched(receive)
        invariant old(admitted) <= admitted && old(queue.control.ops) <= queue.control.ops
      {
        Arrive();
        n := n - 1;
      }
    }

    // ------------------------------------------------------------- the lanes

    /** The inbox answers by the transport laws: a message is taken in hand, Pending registers the task. */
    method PollRecv() returns (r: Recv)
      requires Valid() && queue.lease == None
      modifies this`inbox, this`inboxArmed, queue`hand, queue`trace
      ensures Sound() && old(queue.trace) <= queue.trace
      ensures r.Message? <==> old(inbox) != []
      ensures r.Message? ==> old(inbox) == [r.id] + inbox && inboxArmed == old(inboxArmed)
      ensures r.Message? ==> queue.View() == old(queue.View()).(hand := Envelope(r.id))
      ensures queue.Log() == if r.Message? then WakeMachine.Count(old(queue.Log()), Deliver(r.id)) else old(queue.Log())
      ensures !r.Message? ==> queue.View() == old(queue.View()) && queue.trace == old(queue.trace)
      ensures r == RecvClosed <==> old(inbox) == [] && closed && reservations == 0
      ensures r == RecvClosed ==> inbox == [] && inboxArmed == old(inboxArmed)
      ensures r == RecvPending ==> inbox == old(inbox) == [] && inboxArmed
    {
      hide WakeMachine.Run, WakeMachine.Legal, WakeMachine.Tallied, HollowFree;
      if inbox != [] {
        r := Message(inbox[0]);
        queue.TakeEnvelope(inbox[0]);
        inbox := inbox[1..];
      } else if closed && reservations == 0 {
        r := RecvClosed;
      } else {
        inboxArmed := true;
        r := RecvPending;
      }
    }

    /** Other threads run; then the envelope in hand asks the gate, unless its caller is gone. */
    method AskDispatch(id: nat, abandoned: bool) returns (granted: bool)
      requires Sound() && queue.hand == Envelope(id) && HasDispatchCapacity()
      modifies queue, queue.control
      ensures Sound() && Extends(old(queue.trace), queue.trace)
      ensures queue.hand == if granted then Envelope(id) else Empty
      ensures HasDispatchCapacity() && queue.items == old(queue.items) && queue.issued == old(queue.issued)
      ensures abandoned || !Dispatching(old(queue.control.mode)) ==> !granted
      ensures !granted ==> abandoned || !Dispatching(queue.control.mode)
      ensures old(queue.woken) ==> queue.woken
      ensures old(queue.control.ops) <= queue.control.ops
    {
      hide WakeMachine.Run, WakeMachine.Legal, WakeMachine.Tallied, HollowFree;
      queue.Interfere();
      granted := !abandoned && Dispatching(queue.control.mode);
      if !granted { queue.DeclineEnvelope(); }
    }

    /**
      Dispatches the envelope in hand.  An abandoned call, or a gate that is past dispatch,
      stores nothing; otherwise the handler's future joins the queue, ready, under a key of
      its own.
     */
    method Dispatch(id: nat, abandoned: bool) returns (delivery: Delivery)
      requires Sound() && queue.hand == Envelope(id) && HasDispatchCapacity()
      modifies queue, queue.control
      ensures Valid() && old(queue.trace) <= queue.trace
      ensures queue.Log() == Panicking(old(queue.Log()), delivery == BuildPanicked)
      ensures delivery == Refused ==> queue.lease == None && queue.items == old(queue.items)
      ensures delivery == Refused ==> queue.issued == old(queue.issued)
      ensures delivery != Refused ==> |queue.issued| == |old(queue.issued)| + 1
      ensures delivery == Stored ==> |queue.items| == |old(queue.items)| + 1
      ensures abandoned || !Dispatching(old(queue.control.mode)) ==> delivery == Refused
      ensures delivery == Refused ==> abandoned || !Dispatching(queue.control.mode)
      ensures old(queue.woken) ==> queue.woken
      ensures queue.items >= old(queue.items)
      ensures old(queue.control.ops) <= queue.control.ops
    {
      hide WakeMachine.Run, WakeMachine.Legal, WakeMachine.Tallied, HollowFree;
      var granted := AskDispatch(id, abandoned);
      if !granted {
        return Refused;
      }
      var stored, key := queue.Schedule();
      delivery := if stored then Stored else BuildPanicked;
    }

    /** One dispatch, after which other threads run and the mode is read. */
    method DeliverOne(id: nat, expected: Mode) returns (delivery: Delivery, expectedMode: bool)
      requires Sound() && queue.hand == Envelope(id) && HasDispatchCapacity()
      modifies this`inbox, this`admitted, this`inboxArmed, this`events, this`eventsArmed, this`reservations, queue,
        queue.control
      ensures Valid() && old(queue.trace) <= queue.trace
      ensures queue.Log() == Panicking(old(queue.Log()), delivery == BuildPanicked)
      ensures Past(expected, old(queue.control.mode)) ==> !expectedMode
      ensures |queue.issued| <= |old(queue.issued)| + 1
      ensures !expectedMode ==> queue.control.mode != expected
      ensures old(ChildrenWatched()) ==> ChildrenWatched()
      ensures old(admitted) <= admitted && old(queue.control.ops) <= queue.control.ops
    {
      hide WakeMachine.Run, WakeMachine.Legal, WakeMachine.Tallied, HollowFree;
      var abandoned: bool := *;
      delivery := Dispatch(id, abandoned);
      Interfere();
      if Past(expected, old(queue.control.mode)) {
        PastStays(expected, old(queue.control.ops), queue.control.ops);
      }
      expectedMode := queue.control.mode == expected;
    }

    /** A batch ends with its budget, without capacity, or over an empty inbox while replies wait for their turn. */
    ghost predicate BatchOver(dispatched: nat, start: Lane)
      reads this`inbox, queue, queue.control
    {
      || dispatched == budget || queue.lease.Some? || (limit.Some? && |queue.items| >= limit.value)
      || (start == Reply && queue.items != {} && inbox == [])
    }

    /** One receive of the batch, before which other threads run; `None` means another envelope may follow. */
    method ReceiveOne(receive: bool, expected: Mode, start: Lane, before: nat)
      returns (r: Option<LaneResult>, dispatched: nat)
      requires Valid() && HasDispatchCapacity() && before < budget
      modifies this`inbox, this`admitted, this`inboxArmed, this`events, this`eventsArmed, this`reservations, queue,
        queue.control
      ensures Valid() && old(queue.trace) <= queue.trace && before <= dispatched <= before + 1
      ensures Took(old(queue.Log()), queue.Log(), dispatched - before)
      ensures |queue.issued| <= |old(queue.issued)| + (dispatched - before)
      ensures queue.Log().unwinds == old(queue.Log()).unwinds + if r == Some(Leave(TurnUnwound)) then 1 else 0
      ensures Past(expected, old(queue.control.mode)) ==> r != None
      ensures r == Some(Selected(TurnProgress)) ==> BatchOver(dispatched, start)
      ensures r == Some(Hint) ==> queue.control.mode != expected
      ensures r == None ==> HasDispatchCapacity() && before < dispatched < budget
      ensures r.Some? ==> r.value == Nothing || r.value == Hint || r.value == Leave(TurnUnwound)
                          || r.value == Selected(TurnProgress) || r.value == Selected(InboxClosed)
      ensures dispatched <= budget && (r == Some(Nothing) ==> dispatched == before)
      ensures r == Some(Nothing) ==> queue.lease == None && MailWatched(receive)
      ensures r == Some(Selected(TurnProgress)) ==> dispatched > 0
      ensures r == Some(Selected(InboxClosed)) ==> closed && inbox == []
      ensures r == Some(Nothing) && old(RepliesHeard()) ==> RepliesHeard()
      ensures r == Some(Nothing) && start == Reply && before > 0 ==> queue.items == {}
      ensures old(ChildrenWatched()) ==> ChildrenWatched()
      ensures old(admitted) <= admitted && old(queue.control.ops) <= queue.control.ops
    {
      hide WakeMachine.Run, WakeMachine.Legal, WakeMachine.Tallied, HollowFree, Heard;
      hide Runtime.Valid, Runtime.Sound, Queue.Valid, Took, RepliesHeard, Runtime.BatchOver;
      Interfere();
      r, dispatched := ReceiveNow(receive, expected, start, before);
    }

    /** One receive of the batch; `None` means another envelope may follow. */
    method ReceiveNow(receive: bool, expected: Mode, start: Lane, before: nat)
      returns (r: Option<LaneResult>, dispatched: nat)
      requires Valid() && HasDispatchCapacity() && before < budget
      modifies this`inbox, this`admitted, this`inboxArmed, this`events, this`eventsArmed, this`reservations, queue,
        queue.control
      ensures Valid() && old(queue.trace) <= queue.trace && before <= dispatched <= before + 1
      ensures Took(old(queue.Log()), queue.Log(), dispatched - before)
      ensures |queue.issued| <= |old(queue.issued)| + (dispatched - before)
      ensures queue.Log().unwinds == old(queue.Log()).unwinds + if r == Some(Leave(TurnUnwound)) then 1 else 0
      ensures Past(expected, old(queue.control.mode)) ==> r != None
      ensures r == Some(Selected(TurnProgress)) ==> BatchOver(dispatched, start)
      ensures r == Some(Hint) ==> queue.control.mode != expected
      ensures r == None ==> HasDispatchCapacity() && before < dispatched < budget
      ensures r.Some? ==> r.value == Nothing || r.value == Hint || r.value == Leave(TurnUnwound)
                          || r.value == Selected(TurnProgress) || r.value == Selected(InboxClosed)
      ensures dispatched <= budget && (r == Some(Nothing) ==> dispatched == before)
      ensures r == Some(Nothing) ==> queue.lease == None && MailWatched(receive)
      ensures r == Some(Selected(TurnProgress)) ==> dispatched > 0
      ensures r == Some(Selected(InboxClosed)) ==> closed && inbox == []
      ensures r == Some(Nothing) && old(RepliesHeard()) ==> RepliesHeard()
      ensures r == Some(Nothing) && start == Reply && before > 0 ==> queue.items == {}
      ensures old(ChildrenWatched()) ==> ChildrenWatched()
      ensures old(admitted) <= admitted && old(queue.control.ops) <= queue.control.ops
    {
      hide WakeMachine.Run, WakeMachine.Legal, WakeMachine.Tallied, HollowFree, Heard;
      hide Runtime.Sound, Queue.Valid, Took, Panicking, WakeMachine.Count;
      dispatched := before;
      ghost var log := queue.Log();
      TookNothing(log);
      var envelope := PollRecv();
      if envelope == RecvClosed {
        return Some(Selected(InboxClosed)), dispatched;
      }
      if envelope == RecvPending {
        if dispatched > 0 && start == Reply && queue.items != {} {
          return Some(Selected(TurnProgress)), dispatched;
        }
        return Some(Nothing), dispatched;
      }
      dispatched := dispatched + 1;
      r := ServeEnvelope(envelope.id, expected, start, dispatched);
      TookOne(log, envelope.id, r == Some(Leave(TurnUnwound)));
    }

    /** The message in hand is dispatched; then the batch is cut off by another mode, is over, or goes on. */
    method ServeEnvelope(id: nat, expected: Mode, start: Lane, dispatched: nat) returns (r: Option<LaneResult>)
      requires Sound() && queue.hand == Envelope(id) && HasDispatchCapacity() && 0 < dispatched <= budget
      modifies this`inbox, this`admitted, this`inboxArmed, this`events, this`eventsArmed, this`reservations, queue,
        queue.control
      ensures Valid() && old(queue.trace) <= queue.trace
      ensures queue.Log() == Panicking(old(queue.Log()), r == Some(Leave(TurnUnwound)))
      ensures |queue.issued| <= |old(queue.issued)| + 1
      ensures r == Some(Hint) ==> queue.control.mode != expected
      ensures r == None ==> HasDispatchCapacity() && dispatched < budget
      ensures r.Some? ==> r.value == Hint || r.value == Leave(TurnUnwound) || r.value == Selected(TurnProgress)
      ensures r == Some(Selected(TurnProgress)) ==> BatchOver(dispatched, start)
      ensures Past(expected, old(queue.control.mode)) ==> r != None
      ensures old(ChildrenWatched()) ==> ChildrenWatched()
      ensures old(admitted) <= admitted && old(queue.control.ops) <= queue.control.ops
    {
      hide WakeMachine.Run, WakeMachine.Legal, WakeMachine.Tallied, HollowFree, Heard;
      hide Runtime.Sound, Queue.Valid;
      var delivery, expectedMode := DeliverOne(id, expected);
      if delivery == BuildPanicked { return Some(Leave(TurnUnwound)); }
      if !expectedMode { return Some(Hint); }
      if dispatched == budget || !HasDispatchCapacity() { return Some(Selected(TurnProgress)); }
      r := None;
    }

    /** The mailbox lane: a bounded batch of dispatches. */
    method VisitMailbox(receive: bool, expected: Mode, start: Lane)
      returns (r: LaneResult, dispatched: nat)
      requires Valid() && queue.lease == None
      modifies this`inbox, this`admitted, this`inboxArmed, this`events, this`eventsArmed, this`reservations, queue,
        queue.control
      ensures Valid() && old(queue.trace) <= queue.trace && Took(old(queue.Log()), queue.Log(), dispatched)
      ensures |queue.issued| <= |old(queue.issued)| + dispatched
      ensures queue.Log().unwinds == old(queue.Log()).unwinds + if r == Leave(TurnUnwound) then 1 else 0
      // The batch goes on until it must end; after a mode change at most one message is taken.
      ensures r == Selected(TurnProgress) ==> BatchOver(dispatched, start)
      ensures Past(expected, old(queue.control.mode)) ==> dispatched <= 1 && (r == Nothing ==> dispatched == 0)
      ensures r == Hint ==> queue.control.mode != expected
      ensures r == Nothing || r == Hint || r == Leave(TurnUnwound) || r == Selected(TurnProgress)
              || r == Selected(InboxClosed)
      ensures dispatched <= budget && (r == Nothing ==> dispatched < budget)
      ensures r == Nothing ==> queue.lease == None && MailWatched(receive)
      ensures r == Nothing && receive && (limit == None || |queue.items| < limit.value) && !queue.woken
              ==> inbox == [] && inboxArmed
      ensures r == Selected(TurnProgress) ==> dispatched > 0
      ensures r == Selected(InboxClosed) ==> closed && inbox == []
      ensures r == Nothing && start == Reply && old(RepliesHeard()) ==> RepliesHeard()
      ensures old(ChildrenWatched()) ==> ChildrenWatched()
      ensures old(admitted) <= admitted && old(queue.control.ops) <= queue.control.ops
    {
      hide WakeMachine.Run, WakeMachine.Legal, WakeMachine.Tallied, HollowFree, Heard, Bump, ReadySet, Took;
      dispatched := 0;
      TookNothing(queue.Log());
      if !receive || !HasDispatchCapacity() {
        return Nothing, 0;
      }
      while true
        invariant Valid() && HasDispatchCapacity() && dispatched < budget
        invariant old(queue.trace) <= queue.trace && Took(old(queue.Log()), queue.Log(), dispatched)
        invariant |queue.issued| <= |old(queue.issued)| + dispatched
        invariant queue.Log().unwinds == old(queue.Log()).unwinds
        invariant Past(expected, old(queue.control.mode)) ==> dispatched == 0 && Past(expected, queue.control.mode)
        invariant dispatched == 0 && old(RepliesHeard()) ==> RepliesHeard()
        invariant old(ChildrenWatched()) ==> ChildrenWatched()
        invariant old(admitted) <= admitted && old(queue.control.ops) <= queue.control.ops
        decreases budget - dispatched
      {
        ghost var log, before := queue.Log(), dispatched;
        var end;
        end, dispatched := ReceiveOne(receive, expected, start, dispatched);
        TookTwice(old(queue.Log()), log, queue.Log(), before, dispatched - before);
        if end.Some? {
          if queue.items == {} { NoRepliesToHear(); }
          return end.value, dispatched;
        }
      }
    }

    /** The reply lane: one collection poll. */
    method VisitReply(expected: Mode) returns (r: LaneResult)
      requires Valid() && queue.lease == None
      modifies queue, queue.control
      ensures Valid() && old(queue.trace) <= queue.trace && queue.Log().visits == old(queue.Log()).visits
      ensures queue.issued == old(queue.issued) && queue.Log().taken == old(queue.Log()).taken
      ensures queue.Log().unwinds == old(queue.Log()).unwinds + if r == Leave(TurnUnwound) then 1 else 0
      ensures old(queue.items) == {} ==> r == Nothing && queue.trace == old(queue.trace)
      ensures old(queue.items) != {} && Past(expected, old(queue.control.mode)) ==> r == Selected(TurnProgress)
      ensures r == Nothing || r == Selected(TurnProgress) || r == Leave(TurnPending)
              || r == Leave(TurnUnwound) || r == Exhausted
      ensures r == Nothing ==> queue.lease == None && queue.items == old(queue.items)
      ensures r == Nothing ==> RepliesHeard()
      ensures r == Leave(TurnPending) ==> queue.lease.Some?
      ensures r == Exhausted ==> queue.woken && queue.lease == None
      ensures r.Selected? ==> queue.lease == None
      ensures r == Selected(TurnProgress) ==> queue.items < old(queue.items) || queue.control.mode != expected
      ensures old(queue.items) != {} && old(queue.control.mode) == expected == queue.control.mode && !r.Leave?
              ==> || queue.Log().polls == old(queue.Log()).polls + 16
                  || queue.Log().pops >= old(queue.Log()).pops + |old(queue.ready)|
      ensures old(queue.woken) ==> queue.woken
      ensures old(queue.control.ops) <= queue.control.ops
    {
      hide WakeMachine.Run, WakeMachine.Legal, WakeMachine.Tallied, HollowFree;
      if queue.items == {} {
        return Nothing;
      }
      var poll := queue.Poll(expected);
      SubsetIsSmaller(queue.items, old(queue.items));
      match poll {
        case Pending => r := Nothing;
        case Progress => r := Selected(TurnProgress);
        case Leased => r := Leave(TurnPending);
        case BudgetExhausted => r := Exhausted;
        case Unwound => r := Leave(TurnUnwound);
      }
    }

    /** The child lane: one terminal event, or a registration for the next. */
    method VisitChild() returns (r: LaneResult)
      requires Valid() && queue.lease == None
      modifies this`events, this`eventsArmed, queue`trace
      ensures Valid() && Extends(old(queue.trace), queue.trace) && queue.View() == old(queue.View())
      ensures r == Nothing ==> queue.trace == old(queue.trace)
      ensures r == Nothing ==> events == old(events) == [] && eventsArmed
      ensures r != Nothing
              ==> old(events) != [] && events == old(events)[1..] && r == Selected(ChildEvent(old(events)[0]))
    {
      hide WakeMachine.Run, WakeMachine.Legal, WakeMachine.Tallied, HollowFree;
      if events == [] {
        eventsArmed := true;
        return Nothing;
      }
      queue.Mark(TakeChild);
      r := Selected(ChildEvent(events[0]));
      events := events[1..];
    }

    /** Marks the beginning of a lane visit in the run. */
    ghost method BeginVisit(lane: Lane)
      requires Valid()
      modifies queue`trace
      ensures Valid() && old(queue.trace) <= queue.trace && queue.View() == old(queue.View())
      ensures queue.Log() == old(queue.Log()).(visits := old(queue.Log()).visits + [Visit(lane, 0)])
      ensures old(RepliesHeard()) ==> RepliesHeard()
    {
      hide WakeMachine.Run, WakeMachine.Legal, WakeMachine.Tallied, HollowFree;
      queue.Mark(Enter(lane));
      ListenedBefore(old(queue.trace));
    }

    /**
      One lane visit; a lane that is not eligible selects nothing.  The run shows the
      visit and exactly the messages it dispatched.
     */
    method VisitLane(lane: Lane, receive: bool, expected: Mode, start: Lane)
      returns (r: LaneResult, dispatched: nat)
      requires Valid() && queue.lease == None
      modifies this`inbox, this`admitted, this`inboxArmed, this`events, this`eventsArmed, this`reservations, queue,
        queue.control
      ensures Valid() && old(queue.trace) <= queue.trace
      ensures queue.Log().visits == old(queue.Log()).visits + [Visit(lane, dispatched)]
      ensures |queue.issued| <= |old(queue.issued)| + dispatched && old(admitted) <= admitted
      ensures dispatched <= budget && (lane != Mailbox ==> dispatched == 0) && (r == Nothing ==> dispatched < budget)
      ensures lane == ChildExit && old(events) == [] ==> r == Nothing
      ensures lane == ChildExit && old(events) != [] ==>
                r == Selected(ChildEvent(old(events)[0])) && events == old(events)[1..]
      ensures r == Nothing ==> queue.lease == None && LaneQuiet(lane, receive)
      ensures r == Nothing ==> KeepsQuiet(old(LaneQuiet(Mailbox, receive)), Mailbox, lane, start, receive)
      ensures r == Nothing ==> KeepsQuiet(old(LaneQuiet(Reply, receive)), Reply, lane, start, receive)
      ensures r == Nothing ==> KeepsQuiet(old(LaneQuiet(ChildExit, receive)), ChildExit, lane, start, receive)
      ensures r == Exhausted ==> queue.woken && queue.lease == None
      ensures r.Leave? ==> r.turn == TurnUnwound || (r.turn == TurnPending && queue.lease.Some?)
      ensures queue.Log().unwinds == old(queue.Log()).unwinds + if r == Leave(TurnUnwound) then 1 else 0
      ensures lane == Mailbox && r == Selected(TurnProgress) ==> dispatched > 0 && BatchOver(dispatched, start)
      ensures lane == Reply && r == Selected(TurnProgress)
              ==> queue.items < old(queue.items) || queue.control.mode != expected
      ensures r == Hint ==> queue.control.mode != expected && lane == Mailbox
      ensures r.Selected? ==> r.turn != TurnPending && r.turn != LifecycleHint && r.turn != TurnUnwound
      ensures old(queue.control.ops) <= queue.control.ops
    {
      hide WakeMachine.Run, WakeMachine.Legal, WakeMachine.Tallied, HollowFree, Heard, Bump;
      BeginVisit(lane);
      dispatched := 0;
      match lane {
        case Mailbox => r, dispatched := VisitMailbox(receive, expected, start);
        case Reply => r := VisitReply(expected);
        case ChildExit => r := VisitChild();
      }
      TakingInLast(old(queue.Log()).visits, lane, dispatched);
    }

    /** What a visit that selected nothing established about its lane. */
    ghost predicate LaneQuiet(lane: Lane, receive: bool)
      reads this`inbox, this`inboxArmed, this`events, this`eventsArmed, queue, queue.control
    {
      match lane
      case Mailbox => MailWatched(receive)
      case Reply => RepliesHeard()
      case ChildExit => ChildrenWatched()
    }

    /** A later visit keeps that, except that dispatching may make a reply ready. */
    ghost predicate KeepsQuiet(was: bool, kept: Lane, visited: Lane, start: Lane, receive: bool)
      reads this`inbox, this`inboxArmed, this`events, this`eventsArmed, queue, queue.control
    {
      was && kept != visited && (kept == Reply && visited == Mailbox ==> start == Reply) ==> LaneQuiet(kept, receive)
    }

    /** The lanes visited before the `n`-th visit of a rotation. */
    ghost predicate Seen(start: Lane, n: nat, lane: Lane) {
      || (n >= 1 && start == lane)
      || (n >= 2 && NextLane(start) == lane)
      || (n >= 3 && NextLane(NextLane(start)) == lane)
    }

    ghost predicate SeenQuiet(start: Lane, n: nat, receive: bool)
      reads this`inbox, this`inboxArmed, this`events, this`eventsArmed, queue, queue.control
    {
      && (Seen(start, n, Mailbox) ==> LaneQuiet(Mailbox, receive))
      && (Seen(start, n, Reply) ==> LaneQuiet(Reply, receive))
      && (Seen(start, n, ChildExit) ==> LaneQuiet(ChildExit, receive))
    }

    /** One step of the rotation: other threads run, the mode is read, the lane is visited. */
    method NextVisit(lane: Lane, ghost n: nat, receive: bool, expected: Mode, start: Lane)
      returns (r: LaneResult, dispatched: nat)
      requires Valid() && queue.lease == None
      requires n < 3 && lane == Ahead(start, n) && SeenQuiet(start, n, receive)
      modifies this`inbox, this`admitted, this`inboxArmed, this`events, this`eventsArmed, this`reservations, queue,
        queue.control
      ensures Valid() && old(queue.trace) <= queue.trace
      ensures dispatched <= budget && (lane != Mailbox ==> dispatched == 0) && (r == Nothing ==> dispatched < budget)
      ensures r == Nothing ==> queue.lease == None && SeenQuiet(start, n + 1, receive)
      ensures queue.Log().visits == old(queue.Log()).visits
                                  + if r == Leave(LifecycleHint) then [] else [Visit(lane, dispatched)]
      ensures |queue.issued| <= |old(queue.issued)| + dispatched && old(admitted) <= admitted
      ensures r == Exhausted ==> queue.woken
      ensures queue.Log().unwinds == old(queue.Log()).unwinds + if r == Leave(TurnUnwound) then 1 else 0
      ensures Past(expected, old(queue.control.mode)) ==> r == Leave(LifecycleHint)
      ensures r == Hint ==> lane == Mailbox
      ensures r == Hint || r == Leave(LifecycleHint) ==> queue.control.mode != expected
      ensures r.Leave?
              ==> r.turn == LifecycleHint || r.turn == TurnUnwound || (r.turn == TurnPending && queue.lease.Some?)
      ensures r.Selected? ==> r.turn != TurnPending && r.turn != LifecycleHint && r.turn != TurnUnwound
      ensures old(queue.control.ops) <= queue.control.ops
    {
      hide WakeMachine.Run, WakeMachine.Legal, WakeMachine.Tallied, HollowFree;
      hide Runtime.Valid, Runtime.Sound, Queue.Valid;
      Interfere();
      if queue.control.mode != expected {
        return Leave(LifecycleHint), 0;
      }
      r, dispatched := VisitLane(lane, receive, expected, start);
    }

    lemma NothingSeen(start: Lane, receive: bool)
      ensures SeenQuiet(start, 0, receive) && Unselected(start, [], budget) && Ahead(start, 0) == start
    {
    }

    /** A full cycle has seen every lane. */
    lemma AllSeen(start: Lane, n: nat, receive: bool)
      requires n <= 3 && n > 0 && Ahead(start, n) == start && SeenQuiet(start, n, receive)
      ensures n == 3 && LaneQuiet(Mailbox, receive) && LaneQuiet(Reply, receive) && LaneQuiet(ChildExit, receive)
    {
      assert Ahead(start, 1) == NextLane(start) && Ahead(start, 2) == NextLane(NextLane(start));
    }

    /**
      The lane rotation of one turn.  An undisturbed turn (`clean`) leaves a record of
      its visits; a full cycle that selects nothing leaves every source quiet.
     */
    method Rotate(receive: bool, expected: Mode)
      returns (turn: TurnResult, ghost clean: bool, ghost record: Turn, ghost hinted: bool)
      requires Valid() && queue.lease == None
      modifies this, queue, queue.control
      ensures Valid() && old(queue.trace) <= queue.trace
      ensures clean ==> TurnOk(record, budget) && record.start == old(cursor) && record.next == cursor
      ensures clean ==> queue.Log().visits == old(queue.Log()).visits + record.visits
      ensures old(queue.Log()).visits <= queue.Log().visits && old(admitted) <= admitted
      ensures !clean ==> turn == LifecycleHint || turn == TurnUnwound || queue.lease.Some?
      ensures turn == LifecycleHint ==> queue.control.mode != expected
      ensures queue.Log().unwinds == old(queue.Log()).unwinds + if turn == TurnUnwound then 1 else 0
      // A lane left at once keeps its turn; a mailbox visit that found the mode changed has had it.
      ensures hinted ==> turn == LifecycleHint && cursor == Reply
      ensures !clean && !hinted ==> cursor == old(cursor)
      ensures Past(expected, old(queue.control.mode)) ==> turn == LifecycleHint && !hinted
      ensures turn == TurnPending ==>
                queue.lease.Some? || queue.woken
                || (LaneQuiet(Mailbox, receive) && LaneQuiet(Reply, receive) && LaneQuiet(ChildExit, receive))
      ensures old(queue.control.ops) <= queue.control.ops
    {
      hide WakeMachine.Run, WakeMachine.Legal, WakeMachine.Tallied, HollowFree;
      hide Runtime.SeenQuiet, Runtime.LaneQuiet, Queue.Valid, Heard;
      hide VisitsOk, Unselected, TurnOk, Ahead;
      var start := cursor;
      NothingSeen(start, receive);
      var lane := start;
      ghost var visits: seq<Visit> := [];
      clean, record, hinted := false, Turn(start, [], false, start), false;
      while true
        invariant Valid() && old(queue.control.ops) <= queue.control.ops && old(queue.trace) <= queue.trace
        invariant old(admitted) <= admitted
        invariant queue.Log().unwinds == old(queue.Log()).unwinds && !hinted
        invariant Past(expected, old(queue.control.mode)) ==> visits == [] && Past(expected, queue.control.mode)
        invariant cursor == start == old(cursor) && queue.lease == None
        invariant |visits| < 3 && lane == Ahead(start, |visits|) && Unselected(start, visits, budget)
        invariant SeenQuiet(start, |visits|, receive)
        invariant queue.Log().visits == old(queue.Log()).visits + visits
        decreases 3 - |visits|
      {
        ghost var before := visits;
        var r, dispatched := NextVisit(lane, |visits|, receive, expected, start);
        visits := visits + [Visit(lane, dispatched)];
        VisitsSnoc(start, before, dispatched, budget);
        match r {
          case Leave(result) =>
            return result, clean, record, hinted;
          case Hint =>
            cursor := NextLane(lane);
            return LifecycleHint, clean, record, true;
          case Exhausted =>
            SelectedTurn(start, before, dispatched, budget);
            cursor := NextLane(lane);
            return TurnPending, true, Turn(start, visits, true, cursor), hinted;
          case Selected(result) =>
            SelectedTurn(start, before, dispatched, budget);
            cursor := NextLane(lane);
            return result, true, Turn(start, visits, true, cursor), hinted;
          case Nothing =>
        }
        lane := NextLane(lane);
        NextAhead(start, |before|);
        if lane == start {
          AllSeen(start, |visits|, receive);
          break;
        }
        NotYetThree(start, |visits|);
      }
      IdleTurn(start, visits, budget);
      cursor := NextLane(start);
      turn, clean, record := TurnPending, true, Turn(start, visits, false, cursor);
    }

    /** The rotation, and which messages it took. */
    method RotateOnce(receive: bool, expected: Mode)
      returns (turn: TurnResult, ghost clean: bool, ghost record: Turn)
      requires Valid() && queue.lease == None
      modifies this, queue, queue.control
      ensures Valid() && old(queue.trace) <= queue.trace
      ensures clean ==> TurnOk(record, budget) && record.start == old(cursor) && record.next == cursor
      ensures clean ==> queue.Log().visits == old(queue.Log()).visits + record.visits
      ensures clean ==> InOrder(|old(queue.Log()).taken| + Sum(record.visits))
      ensures clean ==> |queue.issued| <= |old(queue.issued)| + Sum(record.visits)
      ensures old(queue.Log()).visits <= queue.Log().visits && old(admitted) <= admitted
      ensures !clean ==> turn == LifecycleHint || turn == TurnUnwound || queue.lease.Some?
      ensures turn == LifecycleHint ==> queue.control.mode != expected
      ensures queue.Log().unwinds == old(queue.Log()).unwinds + if turn == TurnUnwound then 1 else 0
      ensures Past(expected, old(queue.control.mode)) ==> turn == LifecycleHint
      ensures turn == TurnPending ==>
                queue.lease.Some? || queue.woken
                || (LaneQuiet(Mailbox, receive) && LaneQuiet(Reply, receive) && LaneQuiet(ChildExit, receive))
      ensures old(queue.control.ops) <= queue.control.ops
    {
      hide WakeMachine.Run, WakeMachine.Legal, WakeMachine.Tallied, HollowFree, Heard, Runtime.LaneQuiet;
      ghost var hinted;
      turn, clean, record, hinted := Rotate(receive, expected);
      if clean { Accounted(old(queue.trace), old(queue.View()), record.visits); }
    }

    /**
      One actor turn.  A lease holder keeps the whole turn to itself.  Quiescence: if the
      turn is Pending with no lease held and the task not woken, then no child event
      waits, the inbox is empty or may not be dispatched, and no live reply is ready apart
      from wakes in flight, provided that no step of the run spent a registration in vain
      (with whole notifications none does, and then none is in flight either).
     */
    method PollTurn(receive: bool, expected: Mode)
      returns (turn: TurnResult, ghost clean: bool, ghost record: Turn)
      requires Valid()
      modifies this, queue, queue.control
      ensures Valid() && old(queue.trace) <= queue.trace
      ensures turn == TurnPending && queue.lease == None && !queue.woken ==>
                && events == [] && eventsArmed
                && (receive && (limit == None || |queue.items| < limit.value) ==> inbox == [] && inboxArmed)
                && RepliesHeard() && (queue.Listening() ==> NothingReady())
                && (queue.coarse ==> ReadySet(queue.View()) == {})
      ensures clean ==> TurnOk(record, budget) && record.start == old(cursor) && record.next == cursor
      ensures clean ==> queue.Log().visits == old(queue.Log()).visits + record.visits
      ensures old(queue.Log()).visits <= queue.Log().visits && old(admitted) <= admitted
      ensures clean ==> InOrder(|old(queue.Log()).taken| + Sum(record.visits))
      ensures clean ==> |queue.issued| <= |old(queue.issued)| + Sum(record.visits)
      ensures !clean ==> turn == LifecycleHint || turn == TurnUnwound || old(queue.lease).Some? || queue.lease.Some?
      ensures turn == LifecycleHint ==> queue.control.mode != expected
      ensures queue.Log().unwinds == old(queue.Log()).unwinds + if turn == TurnUnwound then 1 else 0
      ensures Past(expected, old(queue.control.mode))
              ==> turn == LifecycleHint && cursor == old(cursor) && queue.Log() == old(queue.Log())
      ensures old(queue.lease).Some? ==> cursor == old(cursor)
      ensures old(queue.control.ops) <= queue.control.ops
    {
      hide WakeMachine.Run, WakeMachine.Legal, WakeMachine.Tallied, HollowFree, Heard, ReadySet;
      hide Runtime.Sound, Queue.Valid, TurnOk, Sum;
      clean, record := false, Turn(cursor, [], false, cursor);
      Interfere();
      if queue.control.mode != expected {
        return LifecycleHint, clean, record;
      }
      if queue.lease.Some? {
        turn := PollHeld(expected);
      } else {
        turn, clean, record := RotateOnce(receive, expected);
      }
      if turn == TurnPending && queue.lease == None && !queue.woken { HeardMeansNothingReady(); }
    }

    /** While a lease is held, the turn is one poll of the holder. */
    method PollHeld(expected: Mode) returns (turn: TurnResult)
      requires Valid() && queue.lease.Some?
      modifies queue, queue.control
      ensures Valid() && old(queue.trace) <= queue.trace
      ensures turn == TurnPending || turn == TurnProgress || turn == TurnUnwound
      ensures turn == TurnPending ==> queue.lease.Some? || queue.woken
      ensures old(queue.lease.value in queue.items && queue.lease.value in queue.flags)
              ==> queue.Log().polls == old(queue.Log()).polls + 1 && (turn == TurnPending ==> queue.lease.Some?)
      ensures turn == TurnProgress
              ==> || old(queue.lease).value in queue.finished || queue.lease == None
                  || queue.control.mode != expected || old(queue.lease).value !in old(queue.items)
      ensures queue.Log().unwinds == old(queue.Log()).unwinds + if turn == TurnUnwound then 1 else 0
      ensures queue.Log().pops == old(queue.Log()).pops && queue.Log().visits == old(queue.Log()).visits
      ensures queue.issued == old(queue.issued) && queue.Log().taken == old(queue.Log()).taken
      ensures old(queue.control.ops) <= queue.control.ops
    {
      hide WakeMachine.Run, WakeMachine.Legal, WakeMachine.Tallied, HollowFree;
      var poll := queue.Poll(expected);
      SubsetIsSmaller(queue.items, old(queue.items));
      turn := if poll == Progress then TurnProgress else if poll == Unwound then TurnUnwound else TurnPending;
    }

    /**
      The parked task.  With the lease free it sleeps only over what it has heard of:
      whatever other threads do meanwhile, a ready live reply means that the task was
      woken or that its waker is still on its way.
     */
    method Park()
      requires Valid() && (queue.lease == None && !queue.woken ==> RepliesHeard())
      modifies this`inbox, this`admitted, this`inboxArmed, this`events, this`eventsArmed, this`reservations, queue,
        queue.control
      ensures Valid() && queue.lease == old(queue.lease) && Extends(old(queue.trace), queue.trace)
      ensures old(admitted) <= admitted
      ensures queue.lease == None && !queue.woken ==> RepliesHeard() && (queue.Listening() ==> NothingReady())
      ensures queue.coarse && queue.lease == None && !queue.woken ==> ReadySet(queue.View()) == {}
      ensures old(queue.control.ops) <= queue.control.ops
    {
      hide WakeMachine.Run, WakeMachine.Legal, WakeMachine.Tallied, HollowFree, Heard, ReadySet;
      Interfere();
      if queue.lease == None && !queue.woken { HeardMeansNothingReady(); }
    }

    /**
      The executor drives `n` turns, parking after each Pending one, and stops early only
      when a turn is disturbed.  A turn is disturbed only by a lease, a mode change or a
      panic that the run itself shows.  The turns driven form a rotation, their visits and
      dispatches are those of the run, and the children get their bounded share.
     */
    method Drive(receive: bool, expected: Mode, n: nat) returns (ghost turns: seq<Turn>, disturbed: bool)
      requires Valid()
      modifies this, queue, queue.control
      ensures Valid() && Rotation(turns, budget) && old(queue.trace) <= queue.trace
      ensures turns != [] ==> turns[0].start == old(cursor)
      ensures old(queue.Log()).visits + AllVisits(turns) <= queue.Log().visits
      ensures !disturbed ==> |turns| == n && queue.Log().visits == old(queue.Log()).visits + AllVisits(turns)
      ensures !disturbed ==> Fair(queue.trace, |old(queue.trace)|, budget)
      ensures !disturbed ==> InOrder(|old(queue.Log()).taken| + Sum(AllVisits(turns)))
      ensures !disturbed ==> |queue.issued| <= |old(queue.issued)| + Sum(AllVisits(turns))
      ensures old(admitted) <= admitted
      ensures disturbed ==>
                || old(queue.lease).Some? || queue.control.mode != expected
                || Saw(old(queue.trace), queue.trace, Acquire) || queue.Log().unwinds > old(queue.Log()).unwinds
      ensures old(queue.control.ops) <= queue.control.ops
    {
      hide WakeMachine.Run, WakeMachine.Legal, WakeMachine.Tallied, HollowFree;
      hide Heard, ReadySet, AllVisits, Rotation, Fair, Saw;
      turns := [];
      disturbed := false;
      NoTurnsYet(budget);
      var driven := 0;
      while driven < n
        invariant Valid() && Rotation(turns, budget) && old(queue.trace) <= queue.trace
        invariant driven == |turns| <= n && !disturbed
        invariant turns == [] ==> cursor == old(cursor) && queue.lease == old(queue.lease)
        invariant turns != [] ==> turns[0].start == old(cursor) && turns[|turns| - 1].next == cursor
        invariant turns != [] ==> queue.lease == None
        invariant queue.Log().visits == old(queue.Log()).visits + AllVisits(turns)
        invariant old(admitted) <= admitted && queue.Log().unwinds >= old(queue.Log()).unwinds
        invariant old(queue.control.ops) <= queue.control.ops
      {
        ghost var before := queue.trace;
        ghost var record;
        record, disturbed := DriveOnce(receive, expected);
        if disturbed {
          SawEarlier(old(queue.trace), before, queue.trace);
          return;
        }
        RotationSnoc(turns, record, budget);
        AllVisitsSnoc(turns, record);
        turns := turns + [record];
        driven := driven + 1;
      }
      assert queue.trace[..|old(queue.trace)|] == old(queue.trace);
      RotationsAreFair(queue.trace, |old(queue.trace)|, turns, budget);
      Accounted(old(queue.trace), old(queue.View()), AllVisits(turns));
    }

    method DriveOnce(receive: bool, expected: Mode) returns (ghost record: Turn, disturbed: bool)
      requires Valid()
      modifies this, queue, queue.control
      ensures Valid() && old(queue.trace) <= queue.trace && old(queue.Log()).visits <= queue.Log().visits
      ensures old(admitted) <= admitted
      ensures !disturbed ==> TurnOk(record, budget) && record.start == old(cursor) && record.next == cursor
      ensures !disturbed ==> queue.lease == None && queue.Log().visits == old(queue.Log()).visits + record.visits
      ensures queue.Log().unwinds >= old(queue.Log()).unwinds
      ensures disturbed ==>
                || old(queue.lease).Some? || queue.control.mode != expected
                || Saw(old(queue.trace), queue.trace, Acquire) || queue.Log().unwinds > old(queue.Log()).unwinds
      ensures old(queue.control.ops) <= queue.control.ops
    {
      hide WakeMachine.Run, WakeMachine.Legal, WakeMachine.Tallied, HollowFree, TurnOk, ReadySet, Heard;
      ghost var before, was := queue.trace, queue.View();
      var wasHeld := queue.lease.Some?;
      var turn;
      ghost var clean;
      turn, clean, record := PollTurn(receive, expected);
      if !wasHeld && queue.lease.Some? { LeaseWasTaken(before, was); }
      disturbed := wasHeld || queue.lease.Some? || turn == LifecycleHint || turn == TurnUnwound;
      if !disturbed && turn == TurnPending {
        Park();
        queue.StartPoll();
      }
    }

    lemma SawEarlier(t: seq<Action>, lo: seq<Action>, u: seq<Action>)
      requires t <= lo <= u
      ensures Saw(lo, u, Acquire) ==> Saw(t, u, Acquire)
    {
      if Saw(lo, u, Acquire) { SawWithin(t, lo, u, u, Acquire); }
    }

    /** A lease that was free is held again only after the run shows it taken. */
    lemma LeaseWasTaken(before: seq<Action>, was: State)
      requires Valid() && before <= queue.trace && was == Run(Init(), before)
      requires was.lease == None && queue.lease.Some?
      ensures Saw(before, queue.trace, Acquire)
    {
      LeaseNeedsAcquire(before, queue.trace);
    }
  }
}
