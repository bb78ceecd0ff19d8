/**
  Lane rotation.  A turn visits lanes in cyclic order from the cursor until one is
  selected; the lemmas bound what any number of consecutive turns can do.
 */
module Fairness {
  import opened Lifecycle
  import opened WakeMachine

  function NextLane(lane: Lane): Lane {
    match lane
    case Mailbox => Reply
    case Reply => ChildExit
    case ChildExit => Mailbox
  }

  /** An undisturbed turn: no lease held or taken, no mode change, no panic. */
  datatype Turn = Turn(start: Lane, visits: seq<Visit>, selected: bool, next: Lane)

  function Ahead(lane: Lane, i: nat): Lane {
    if i == 0 then lane else NextLane(Ahead(lane, i - 1))
  }

  /**
    Visits follow the cycle.  Only the mailbox dispatches, and only a selected last
    visit may use up the whole budget.  The cursor moves past the selected lane, or
    one past the start of a full cycle.
   */
  predicate VisitsOk(start: Lane, visits: seq<Visit>, budget: nat) {
    forall i :: 0 <= i < |visits| ==>
      && visits[i].lane == Ahead(start, i)
      && (visits[i].lane != Mailbox ==> visits[i].dispatched == 0)
      && visits[i].dispatched <= budget
      && (i < |visits| - 1 ==> visits[i].dispatched < budget)
  }

  /** Visits that all selected nothing. */
  predicate Unselected(start: Lane, visits: seq<Visit>, budget: nat) {
    VisitsOk(start, visits, budget) && forall i :: 0 <= i < |visits| ==> visits[i].dispatched < budget
  }

  lemma VisitsSnoc(start: Lane, visits: seq<Visit>, dispatched: nat, budget: nat)
    requires Unselected(start, visits, budget) && dispatched <= budget
    requires Ahead(start, |visits|) != Mailbox ==> dispatched == 0
    ensures var all := visits + [Visit(Ahead(start, |visits|), dispatched)];
      VisitsOk(start, all, budget) && (dispatched < budget ==> Unselected(start, all, budget))
  {
  }

  predicate TurnOk(turn: Turn, budget: nat) {
    && 1 <= |turn.visits| <= 3
    && VisitsOk(turn.start, turn.visits, budget)
    && (turn.selected ==> turn.next == NextLane(turn.visits[|turn.visits| - 1].lane))
    && (!turn.selected ==>
          |turn.visits| == 3 && turn.next == NextLane(turn.start) && turn.visits[2].dispatched < budget)
  }

  lemma SelectedTurn(start: Lane, before: seq<Visit>, dispatched: nat, budget: nat)
    requires Unselected(start, before, budget) && |before| < 3 && dispatched <= budget
    requires Ahead(start, |before|) != Mailbox ==> dispatched == 0
    ensures var lane := Ahead(start, |before|);
      TurnOk(Turn(start, before + [Visit(lane, dispatched)], true, NextLane(lane)), budget)
  {
  }

  lemma IdleTurn(start: Lane, visits: seq<Visit>, budget: nat)
    requires Unselected(start, visits, budget) && |visits| == 3
    ensures TurnOk(Turn(start, visits, false, NextLane(start)), budget)
  {
  }

  lemma NextAhead(start: Lane, n: nat)
    ensures Ahead(start, n + 1) == NextLane(Ahead(start, n))
  {
  }

  lemma NotYetThree(start: Lane, n: nat)
    requires n <= 3 && Ahead(start, n) != start
    ensures n < 3
  {
    assert Ahead(start, 2) == NextLane(NextLane(start));
  }

  /** Consecutive turns, each starting where the previous one left the cursor. */
  predicate Rotation(turns: seq<Turn>, budget: nat) {
    && (forall i :: 0 <= i < |turns| ==> TurnOk(turns[i], budget))
    && (forall i :: 0 <= i < |turns| - 1 ==> turns[i + 1].start == turns[i].next)
  }

  lemma RotationSnoc(turns: seq<Turn>, turn: Turn, budget: nat)
    requires Rotation(turns, budget) && TurnOk(turn, budget)
    requires turns != [] ==> turns[|turns| - 1].next == turn.start
    ensures Rotation(turns + [turn], budget)
  {
  }

  predicate Visits(turn: Turn, lane: Lane) {
    exists i :: 0 <= i < |turn.visits| && turn.visits[i].lane == lane
  }

  lemma FullTurnVisitsAll(turn: Turn, budget: nat, lane: Lane)
    requires TurnOk(turn, budget) && |turn.visits| == 3
    ensures Visits(turn, lane)
  {
    assert Ahead(turn.start, 1) == NextLane(turn.start);
    assert Ahead(turn.start, 2) == NextLane(NextLane(turn.start));
    assert turn.visits[0].lane == turn.start;
    assert turn.visits[1].lane == NextLane(turn.start);
    assert turn.visits[2].lane == NextLane(NextLane(turn.start));
  }

  /** Any three consecutive turns visit every lane. */
  lemma ThreeTurnsVisitEveryLane(turns: seq<Turn>, budget: nat, i: nat, lane: Lane)
    requires Rotation(turns, budget) && i + 2 < |turns|
    ensures Visits(turns[i], lane) || Visits(turns[i + 1], lane) || Visits(turns[i + 2], lane)
  {
    var a, b, c := turns[i], turns[i + 1], turns[i + 2];
    if |a.visits| == 3 {
      FullTurnVisitsAll(a, budget, lane);
    } else if |b.visits| == 3 {
      FullTurnVisitsAll(b, budget, lane);
    } else {
      assert a.visits[0].lane == a.start && b.visits[0].lane == b.start && c.visits[0].lane == c.start;
      assert Ahead(a.start, 1) == NextLane(a.start) && Ahead(b.start, 1) == NextLane(b.start);
      if |a.visits| == 2 { assert a.visits[1].lane == NextLane(a.start); }
      if |b.visits| == 2 { assert b.visits[1].lane == NextLane(b.start); }
    }
  }

  // ------------------------------------------------------ dispatch between polls

  function Sum(visits: seq<Visit>): nat {
    if visits == [] then 0 else Sum(visits[..|visits| - 1]) + visits[|visits| - 1].dispatched
  }

  /** Messages dispatched since the last child-exit visit began. */
  function Since(carry: nat, visits: seq<Visit>): nat {
    if visits == [] then carry
    else if visits[|visits| - 1].lane == ChildExit then visits[|visits| - 1].dispatched
    else Since(carry, visits[..|visits| - 1]) + visits[|visits| - 1].dispatched
  }

  function AllVisits(turns: seq<Turn>): seq<Visit> {
    if turns == [] then [] else AllVisits(turns[..|turns| - 1]) + turns[|turns| - 1].visits
  }

  lemma AllVisitsSnoc(turns: seq<Turn>, turn: Turn)
    ensures AllVisits(turns + [turn]) == AllVisits(turns) + turn.visits
  {
    assert (turns + [turn])[..|turns|] == turns;
  }

  lemma NoTurnsYet(budget: nat)
    ensures Rotation([], budget) && AllVisits([]) == []
  {
  }

  lemma {:induction false} SinceConcat(carry: nat, a: seq<Visit>, b: seq<Visit>)
    ensures Since(carry, a + b) == Since(Since(carry, a), b)
  {
    if b == [] {
      assert a + b == a;
    } else {
      assert (a + b)[..|a + b| - 1] == a + b[..|b| - 1];
      SinceConcat(carry, a, b[..|b| - 1]);
    }
  }

  lemma {:induction false} WindowIsSince(visits: seq<Visit>, lo: nat)
    requires lo <= |visits| && forall i :: lo <= i < |visits| ==> visits[i].lane != ChildExit
    ensures Sum(visits[lo..]) <= Since(0, visits)
  {
    if lo < |visits| {
      var front := visits[..|visits| - 1];
      assert visits[lo..][..|visits[lo..]| - 1] == front[lo..];
      WindowIsSince(front, lo);
    }
  }

  /** What may have been dispatched since the last child poll, by cursor position. */
  function Allowance(cursor: Lane, budget: nat): int {
    if cursor == Mailbox then budget - 1 else 2 * budget - 1
  }

  /** Within one turn the count never exceeds 2B - 1, and the turn restores the allowance. */
  lemma TurnKeepsAllowance(turn: Turn, budget: nat, carry: nat, n: nat)
    requires budget > 0 && TurnOk(turn, budget) && carry <= Allowance(turn.start, budget) && n <= |turn.visits|
    ensures Since(carry, turn.visits[..n]) <= 2 * budget - 1
    ensures Since(carry, turn.visits) <= Allowance(turn.next, budget)
  {
    var v := turn.visits;
    assert Ahead(turn.start, 1) == NextLane(turn.start) && Ahead(turn.start, 2) == NextLane(NextLane(turn.start));
    assert v[..0] == [];
    assert v[..1][..0] == [];
    assert Since(carry, v[..1]) == (if v[0].lane == ChildExit then 0 else carry) + v[0].dispatched;
    if |v| >= 2 {
      assert v[..2][..1] == v[..1];
      if |v| == 3 {
        assert v[..3][..2] == v[..2];
      }
    }
    assert v[..|v|] == v;
  }

  lemma {:induction false} RotationKeepsAllowance(turns: seq<Turn>, budget: nat)
    requires budget > 0 && Rotation(turns, budget) && turns != []
    ensures Since(0, AllVisits(turns)) <= Allowance(turns[|turns| - 1].next, budget)
  {
    var front, last := turns[..|turns| - 1], turns[|turns| - 1];
    if front != [] {
      RotationKeepsAllowance(front, budget);
      assert front[|front| - 1] == turns[|front| - 1];
    } else {
      assert AllVisits(front) == [];
    }
    SinceConcat(0, AllVisits(front), last.visits);
    TurnKeepsAllowance(last, budget, Since(0, AllVisits(front)), 0);
  }

  lemma NothingSince()
    ensures Since(0, []) == 0 && forall cursor, budget: nat :: budget > 0 ==> 0 <= Allowance(cursor, budget)
  {
  }

  lemma {:induction false} EveryPrefixIsBounded(turns: seq<Turn>, budget: nat, hi: nat)
    requires budget > 0 && Rotation(turns, budget) && hi <= |AllVisits(turns)|
    ensures Since(0, AllVisits(turns)[..hi]) <= 2 * budget - 1
  {
    if turns == [] {
    } else {
      hide TurnOk, Since, Allowance;
      var front, last := turns[..|turns| - 1], turns[|turns| - 1];
      var before := AllVisits(front);
      NothingSince();
      if hi <= |before| {
        assert AllVisits(turns)[..hi] == before[..hi];
        EveryPrefixIsBounded(front, budget, hi);
      } else {
        assert AllVisits(turns)[..hi] == before + last.visits[..hi - |before|];
        SinceConcat(0, before, last.visits[..hi - |before|]);
        if front != [] {
          RotationKeepsAllowance(front, budget);
          assert front[|front| - 1] == turns[|front| - 1];
        }
        TurnKeepsAllowance(last, budget, Since(0, before), hi - |before|);
      }
    }
  }

  /**
    Child exits cannot be starved by messages: in any run of undisturbed turns, at
    most 2B - 1 messages are dispatched between two consecutive child-exit visits.
   */
  lemma DispatchBetweenChildPolls(turns: seq<Turn>, budget: nat, lo: nat, hi: nat)
    requires budget > 0 && Rotation(turns, budget) && lo <= hi <= |AllVisits(turns)|
    requires forall i :: lo <= i < hi ==> AllVisits(turns)[i].lane != ChildExit
    ensures Sum(AllVisits(turns)[lo..hi]) <= 2 * budget - 1
  {
    var upto := AllVisits(turns)[..hi];
    assert upto[lo..] == AllVisits(turns)[lo..hi];
    WindowIsSince(upto, lo);
    EveryPrefixIsBounded(turns, budget, hi);
  }

  // ------------------------------------------------------------ bounds on runs

  /** Deliveries of a run since its last child-exit visit. */
  function Delivered(t: seq<Action>): nat {
    if t == [] then 0
    else
      match t[|t| - 1]
      case Enter(lane) => if lane == ChildExit then 0 else Delivered(t[..|t| - 1])
      case Deliver(_) => Delivered(t[..|t| - 1]) + 1
      case _ => Delivered(t[..|t| - 1])
  }

  lemma SinceBump(visits: seq<Visit>)
    ensures Since(0, Bump(visits, 1)) == Since(0, visits) + 1
  {
    if visits == [] {
      assert Bump(visits, 1)[..0] == [];
    } else {
      assert Bump(visits, 1)[..|visits| - 1] == visits[..|visits| - 1];
    }
  }

  lemma SinceSnoc(visits: seq<Visit>, lane: Lane)
    ensures Since(0, visits + [Visit(lane, 0)]) == if lane == ChildExit then 0 else Since(0, visits)
  {
    assert (visits + [Visit(lane, 0)])[..|visits|] == visits;
  }

  /** The visits of a run tell how many messages it delivered since the last child-exit visit. */
  lemma {:induction false} DeliveredIsSince(t: seq<Action>)
    ensures Delivered(t) == Since(0, Tallied(t).visits)
  {
    if t != [] {
      hide Since, Count;
      var front, a := t[..|t| - 1], t[|t| - 1];
      DeliveredIsSince(front);
      SinceCount(Tallied(front), a);
    } else {
      assert Tallied(t).visits == [];
    }
  }

  lemma SinceCount(tally: Tally, a: Action)
    ensures Since(0, Count(tally, a).visits) ==
            match a
            case Enter(lane) => if lane == ChildExit then 0 else Since(0, tally.visits)
            case Deliver(_) => Since(0, tally.visits) + 1
            case _ => Since(0, tally.visits)
  {
    hide Since, Bump;
    match a
    case Enter(lane) => SinceSnoc(tally.visits, lane);
    case Deliver(_) => SinceBump(tally.visits);
    case _ =>
  }

  lemma CountKeeps(tally: Tally, a: Action)
    ensures |tally.visits| <= |Count(tally, a).visits|
    ensures forall i :: 0 <= i < |tally.visits| ==> Count(tally, a).visits[i].lane == tally.visits[i].lane
    ensures forall i :: 0 <= i < |tally.visits| - 1 ==> Count(tally, a).visits[i] == tally.visits[i]
  {
  }

  lemma SumBump(visits: seq<Visit>)
    ensures Sum(Bump(visits, 1)) == Sum(visits) + 1
  {
    if visits == [] {
      assert Bump(visits, 1)[..0] == [];
    } else {
      assert Bump(visits, 1)[..|visits| - 1] == visits[..|visits| - 1];
    }
  }

  /** The messages of a run are those its visits dispatched. */
  lemma {:induction false} TakenIsSum(t: seq<Action>)
    ensures |Tallied(t).taken| == Sum(Tallied(t).visits)
  {
    if t == [] {
      assert Tallied(t).visits == [];
    } else {
      hide Sum, Bump;
      var front, a := t[..|t| - 1], t[|t| - 1];
      TakenIsSum(front);
      match a
      case Enter(lane) => SumSnoc(Tallied(front).visits, Visit(lane, 0));
      case Deliver(_) => SumBump(Tallied(front).visits);
      case _ =>
    }
  }

  lemma {:induction false} SumConcat(a: seq<Visit>, b: seq<Visit>)
    ensures Sum(a + b) == Sum(a) + Sum(b)
  {
    if b == [] {
      assert a + b == a;
    } else {
      assert (a + b)[..|a + b| - 1] == a + b[..|b| - 1];
      SumConcat(a, b[..|b| - 1]);
    }
  }

  /** Once the next visit has begun, the visits before it are settled. */
  lemma {:induction false} VisitsSettle(t: seq<Action>, j: nat)
    requires j < |t| && t[j].Enter?
    ensures Tallied(t[..j]).visits < Tallied(t).visits
    ensures Tallied(t).visits[|Tallied(t[..j]).visits|].lane == t[j].lane
  {
    var front := t[..|t| - 1];
    CountKeeps(Tallied(front), t[|t| - 1]);
    if j < |front| {
      VisitsSettle(front, j);
      assert front[..j] == t[..j];
    } else {
      assert front == t[..j];
    }
  }

  lemma {:induction false} VisitsGrow(t: seq<Action>, j: nat)
    requires j <= |t|
    ensures |Tallied(t[..j]).visits| <= |Tallied(t).visits|
  {
    if j < |t| {
      var front := t[..|t| - 1];
      VisitsGrow(front, j);
      assert front[..j] == t[..j];
      CountKeeps(Tallied(front), t[|t| - 1]);
    } else {
      assert t[..j] == t;
    }
  }

  lemma {:induction false} ChildVisitResets(carry: nat, visits: seq<Visit>, p: nat)
    requires p < |visits| && visits[p].lane == ChildExit
    ensures Since(carry, visits) == Since(0, visits)
  {
    if visits[|visits| - 1].lane != ChildExit {
      ChildVisitResets(carry, visits[..|visits| - 1], p);
    }
  }

  /** From position `base` of a run on, at most 2B - 1 deliveries happen between two child-exit visits. */
  ghost predicate Fair(t: seq<Action>, base: nat, budget: nat) {
    forall i, j :: base <= i < j <= |t| && t[i] == Enter(ChildExit) && (j == |t| || t[j] == Enter(ChildExit))
      ==> Delivered(t[..j]) <= 2 * budget - 1
  }

  lemma FairBetween(t: seq<Action>, base: nat, turns: seq<Turn>, budget: nat, i: nat, j: nat)
    requires budget > 0 && Rotation(turns, budget)
    requires base <= i < j <= |t| && t[i] == Enter(ChildExit) && (j == |t| || t[j] == Enter(ChildExit))
    requires Tallied(t).visits == Tallied(t[..base]).visits + AllVisits(turns)
    ensures Delivered(t[..j]) <= 2 * budget - 1
  {
    hide Tallied, Since, Rotation, AllVisits, Delivered;
    var before, upto, all := Tallied(t[..base]).visits, Tallied(t[..j]).visits, AllVisits(turns);
    if j < |t| { VisitsSettle(t, j); } else { assert t[..j] == t; }
    VisitsSettle(t[..j], i);
    assert t[..j][..i] == t[..i] && t[..i][..base] == t[..base];
    VisitsGrow(t[..i], base);
    var h, p := |upto| - |before|, |Tallied(t[..i]).visits| - |before|;
    assert upto == before + all[..h];
    assert all[..h][p] == upto[|before| + p];
    DeliveredIsSince(t[..j]);
    SinceConcat(0, before, all[..h]);
    ChildVisitResets(Since(0, before), all[..h], p);
    EveryPrefixIsBounded(turns, budget, h);
  }

  /** A run whose visits are those of a rotation is fair to the children. */
  lemma RotationsAreFair(t: seq<Action>, base: nat, turns: seq<Turn>, budget: nat)
    requires budget > 0 && Rotation(turns, budget) && base <= |t|
    requires Tallied(t).visits == Tallied(t[..base]).visits + AllVisits(turns)
    ensures Fair(t, base, budget)
  {
    forall i, j | base <= i < j <= |t| && t[i] == Enter(ChildExit) && (j == |t| || t[j] == Enter(ChildExit))
      ensures Delivered(t[..j]) <= 2 * budget - 1
    {
      FairBetween(t, base, turns, budget, i, j);
    }
  }

  /** A turn that polls the children, then dispatches one message less than its budget. */
  function ShortTurn(budget: nat): Turn
    requires budget > 0
  {
    Turn(ChildExit, [Visit(ChildExit, 0), Visit(Mailbox, budget - 1), Visit(Reply, 0)], false, Mailbox)
  }

  /** A turn that dispatches a whole budget. */
  function FullTurn(budget: nat): Turn {
    Turn(Mailbox, [Visit(Mailbox, budget)], true, Reply)
  }

  lemma TightTurnsRotate(budget: nat)
    requires budget > 0
    ensures Rotation([ShortTurn(budget), FullTurn(budget)], budget)
  {
    assert Ahead(ChildExit, 1) == Mailbox && Ahead(ChildExit, 2) == Reply;
  }

  lemma TightVisits(budget: nat)
    requires budget > 0
    ensures AllVisits([ShortTurn(budget), FullTurn(budget)]) ==
            [Visit(ChildExit, 0), Visit(Mailbox, budget - 1), Visit(Reply, 0), Visit(Mailbox, budget)]
  {
    var turns := [ShortTurn(budget), FullTurn(budget)];
    assert turns[..1] == [ShortTurn(budget)] && [ShortTurn(budget)][..0] == [];
    assert AllVisits([ShortTurn(budget)]) == ShortTurn(budget).visits;
  }

  lemma TightSum(budget: nat)
    requires budget > 0
    ensures Sum([Visit(Mailbox, budget - 1), Visit(Reply, 0), Visit(Mailbox, budget)]) == 2 * budget - 1
  {
    SumSnoc([], Visit(Mailbox, budget - 1));
    SumSnoc([Visit(Mailbox, budget - 1)], Visit(Reply, 0));
    SumSnoc([Visit(Mailbox, budget - 1), Visit(Reply, 0)], Visit(Mailbox, budget));
    assert [] + [Visit(Mailbox, budget - 1)] == [Visit(Mailbox, budget - 1)];
    assert [Visit(Mailbox, budget - 1)] + [Visit(Reply, 0)] == [Visit(Mailbox, budget - 1), Visit(Reply, 0)];
    assert [Visit(Mailbox, budget - 1), Visit(Reply, 0)] + [Visit(Mailbox, budget)]
        == [Visit(Mailbox, budget - 1), Visit(Reply, 0), Visit(Mailbox, budget)];
  }

  /** The bound is attained for every budget. */
  lemma BoundIsTight(budget: nat) returns (turns: seq<Turn>)
    requires budget > 0
    ensures Rotation(turns, budget) && |AllVisits(turns)| == 4
    ensures forall i :: 1 <= i < 4 ==> AllVisits(turns)[i].lane != ChildExit
    ensures Sum(AllVisits(turns)[1..4]) == 2 * budget - 1
  {
    turns := [ShortTurn(budget), FullTurn(budget)];
    TightTurnsRotate(budget);
    TightVisits(budget);
    TightSum(budget);
    assert AllVisits(turns)[1..4] == [Visit(Mailbox, budget - 1), Visit(Reply, 0), Visit(Mailbox, budget)];
  }

  /** A legal run continues with `n` abandoned messages while nothing is in hand and no lease is held. */
  lemma {:induction false} DeliverMany(t: seq<Action>, n: nat) returns (t': seq<Action>)
    requires Legal(Init(), t) && Run(Init(), t).hand == Empty && Run(Init(), t).lease == None
    ensures Legal(Init(), t') && Run(Init(), t') == Run(Init(), t)
    ensures Tallied(t').visits == Bump(Tallied(t).visits, n) && Delivered(t') == Delivered(t) + n
  {
    hide Tallied, Delivered, Run, Legal;
    t' := t;
    if n > 0 {
      t' := DeliverMany(t, n - 1);
      t' := DeliverOne(t');
    }
  }

  lemma DeliverOne(t: seq<Action>) returns (t': seq<Action>)
    requires Legal(Init(), t) && Run(Init(), t).hand == Empty && Run(Init(), t).lease == None
    ensures Legal(Init(), t') && Run(Init(), t') == Run(Init(), t)
    ensures Tallied(t').visits == Bump(Tallied(t).visits, 1) && Delivered(t') == Delivered(t) + 1
  {
    hide Run, Legal, Tallied;
    var taken := t + [Deliver(0)];
    Extend(Init(), t, Deliver(0));
    TallySnoc(t, Deliver(0));
    assert taken[..|t|] == t;
    Extend(Init(), taken, Decline);
    TallySnoc(taken, Decline);
    t' := taken + [Decline];
    assert t'[..|taken|] == taken;
  }

  lemma EnterLane(t: seq<Action>, lane: Lane) returns (t': seq<Action>)
    requires Legal(Init(), t) && Run(Init(), t).hand == Empty
    ensures t' == t + [Enter(lane)] && Legal(Init(), t') && Run(Init(), t') == Run(Init(), t)
    ensures Tallied(t').visits == Tallied(t).visits + [Visit(lane, 0)]
    ensures Delivered(t') == if lane == ChildExit then 0 else Delivered(t)
  {
    Extend(Init(), t, Enter(lane));
    TallySnoc(t, Enter(lane));
    t' := t + [Enter(lane)];
    assert t'[..|t|] == t;
  }

  /** The bound is attained by a legal run whose visits are those of two consecutive turns. */
  lemma SomeRunIsTight(budget: nat) returns (t: seq<Action>)
    requires budget > 0
    ensures Legal(Init(), t) && Delivered(t) == 2 * budget - 1
    ensures Rotation([ShortTurn(budget), FullTurn(budget)], budget)
    ensures Tallied(t).visits == AllVisits([ShortTurn(budget), FullTurn(budget)])
  {
    hide Tallied, Delivered, AllVisits, Rotation, Run, Legal;
    TightTurnsRotate(budget);
    TightVisits(budget);
    NothingDone();
    t := VisitMailbox([], ChildExit, budget - 1);
    assert Tallied(t).visits == [Visit(ChildExit, 0), Visit(Mailbox, budget - 1)];
    t := VisitMailbox(t, Reply, budget);
  }

  /** A visit of another lane that selects nothing, then one of the mailbox. */
  lemma VisitMailbox(t: seq<Action>, first: Lane, n: nat) returns (t': seq<Action>)
    requires Legal(Init(), t) && Run(Init(), t) == Init() && first != Mailbox
    ensures Legal(Init(), t') && Run(Init(), t') == Init()
    ensures Tallied(t').visits == Tallied(t).visits + [Visit(first, 0), Visit(Mailbox, n)]
    ensures Delivered(t') == n + if first == ChildExit then 0 else Delivered(t)
  {
    hide Tallied, Delivered, Run, Legal;
    t' := EnterLane(t, first);
    t' := EnterLane(t', Mailbox);
    t' := DeliverMany(t', n);
  }

  lemma NothingDone()
    ensures Tallied([]).visits == [] && Delivered([]) == 0 && Legal(Init(), []) && Run(Init(), []) == Init()
  {
  }

  lemma SumSnoc(visits: seq<Visit>, visit: Visit)
    ensures Sum(visits + [visit]) == Sum(visits) + visit.dispatched
  {
    assert (visits + [visit])[..|visits + [visit]| - 1] == visits;
  }
}
