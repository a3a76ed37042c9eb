/**
 When a waiting notification has a bound on its wait: a bound that depends on its position alone, for every run
 over a given set of levels.
 */
module NotificationBounds {
  import opened Options
  import opened Notifications

  ghost predicate UsesOnly(ops: seq<Op>, levels: set<Level>) { forall n :: n in Arrivals(ops) ==> n.level in levels }

  /** A state the queue can get into while only these levels are used. */
  ghost predicate Reached(q: Queue, levels: set<Level>) {
    WellFormed(q) && exists before :: UsesOnly(before, levels) && q == Exec(EMPTY, before)
  }

  /** The item at position `p` of the level waits, and the run makes `n` deliveries or more. */
  ghost predicate Waits(levels: set<Level>, l: Level, q: Queue, ops: seq<Op>, p: nat, n: nat) {
    Reached(q, levels) && UsesOnly(ops, levels) && p < |q.byLevel[l]| && Deliveries(ops) >= n
  }

  /** `bound(p)` deliveries suffice for the item at position `p` of the level, whatever else arrives at these levels. */
  ghost predicate BoundedBy(levels: set<Level>, l: Level, bound: nat -> nat) {
    forall q, ops, p: nat :: Waits(levels, l, q, ops, p, bound(p)) ==> |AtLevel(Delivered(q, ops), l)| > p
  }

  ghost predicate HasBound(levels: set<Level>, l: Level) { exists bound: nat -> nat :: BoundedBy(levels, l, bound) }

  predicate NoneAbove(levels: set<Level>, l: Level) { forall k :: k in levels ==> k >= l }
  predicate NoneBelow(levels: set<Level>, l: Level) { forall k :: k in levels ==> k <= l }

  predicate OneAbove(levels: set<Level>, l: Level) {
    exists a :: a in levels && a < l && forall k :: k in levels && k < l ==> k == a
  }

  // ----- only its levels ever hold anything -----------------------------------------------------------------

  lemma {:induction false} NoneAtLevel(ns: seq<Notification>, l: Level)
    requires forall n :: n in ns ==> n.level != l
    ensures AtLevel(ns, l) == []
    decreases |ns|
  {
    if ns != [] { NoneAtLevel(ns[1..], l); }
  }

  lemma UnusedIsEmpty(q: Queue, levels: set<Level>, l: Level)
    requires Reached(q, levels) && l !in levels
    ensures q.byLevel[l] == []
  {
    var before :| UsesOnly(before, levels) && q == Exec(EMPTY, before);
    NothingArrives(before, levels, l);
  }

  lemma NothingArrives(before: seq<Op>, levels: set<Level>, l: Level)
    requires UsesOnly(before, levels) && l !in levels
    ensures WellFormed(Exec(EMPTY, before)) && Exec(EMPTY, before).byLevel[l] == []
  {
    FifoAndConserved(EMPTY, before, l);
    NoneAtLevel(Arrivals(before), l);
    assert [] + AtLevel(Arrivals(before), l) == [];
  }

  lemma UsesOnlySplit(op: Op, rest: seq<Op>, levels: set<Level>)
    ensures UsesOnly([op] + rest, levels) <==> (op.Enqueue? ==> op.n.level in levels) && UsesOnly(rest, levels)
  {
    assert ([op] + rest)[1..] == rest;
    assert forall n :: n in Arrivals([op] + rest) <==> (op.Enqueue? && n == op.n) || n in Arrivals(rest);
  }

  // ----- the top level ----------------------------------------------------------------------------------------

  /** Nothing is, or arrives, above the level. */
  ghost predicate OnTop(q: Queue, ops: seq<Op>, l: Level)
    requires HasLevels(q.byLevel)
  {
    (forall k: Level :: k < l ==> q.byLevel[k] == []) && forall n :: n in Arrivals(ops) ==> n.level >= l
  }

  /** Deliveries that get the item at position `p` of the top level out: one for each item up to it, and the forced ones. */
  function TopBudget(p: nat, consecutiveHigh: nat): nat { p + 1 + (p + consecutiveHigh) / STARVATION_THRESHOLD }

  lemma OnTopStays(q: Queue, op: Op, rest: seq<Op>, l: Level)
    requires WellFormed(q) && OnTop(q, [op] + rest, l)
    ensures WellFormed(After(q, op)) && OnTop(After(q, op), rest, l)
  {
    assert ([op] + rest)[1..] == rest;
    StepIsWellFormed(q, op);
    NextLevelIsOccupied(q);
  }

  /** A delivery takes from the top level, or forces a lower item through and starts counting again. */
  lemma TopStep(q: Queue, l: Level)
    requires WellFormed(q) && q.byLevel[l] != [] && forall k: Level :: k < l ==> q.byLevel[k] == []
    ensures var q' := AfterDelivery(q);
      if NextLevel(q) == l
      then q'.byLevel[l] == q.byLevel[l][1..] && q'.consecutiveHigh <= q.consecutiveHigh + 1
           && (q.consecutiveHigh == STARVATION_THRESHOLD ==> q'.consecutiveHigh == 0)
      else q'.byLevel[l] == q.byLevel[l] && q.consecutiveHigh == STARVATION_THRESHOLD && q'.consecutiveHigh == 0
  {
    FirstFromBounds(q.byLevel, 1);
    FirstFromBounds(q.byLevel, l + 1);
  }

  lemma {:induction false} TopIsServed(q: Queue, ops: seq<Op>, l: Level, p: nat)
    requires WellFormed(q) && p < |q.byLevel[l]| && OnTop(q, ops, l)
    requires Deliveries(ops) >= TopBudget(p, q.consecutiveHigh)
    ensures |AtLevel(Delivered(q, ops), l)| > p
    decreases |ops|
  {
    var op, rest, q1 := ops[0], ops[1..], After(q, ops[0]);
    assert ops == [op] + rest;
    OnTopStays(q, op, rest, l);
    AtLevelAppend(Out(q, op), Delivered(q1, rest), l);
    if op.Deliver? {
      TopStep(q, l);
      if NextLevel(q) == l {
        AtLevelOne(q.byLevel[l][0], l);
        if p > 0 { TopIsServed(q1, rest, l, p - 1); }
      } else {
        TopIsServed(q1, rest, l, p);
      }
    } else {
      TopIsServed(q1, rest, l, p);
    }
  }

  /** The top level's own bound: the item at position `p` is out within p + 2 + p / 10 deliveries, as the (p + 1)th of its level. */
  lemma TopBoundedWait(q: Queue, ops: seq<Op>, l: Level, p: nat)
    requires WellFormed(q) && p < |q.byLevel[l]| && OnTop(q, ops, l)
    requires Deliveries(ops) >= p + 1 + (p + q.consecutiveHigh) / 10
    ensures |AtLevel(Delivered(q, ops), l)| > p && AtLevel(Delivered(q, ops), l)[p] == q.byLevel[l][p]
  {
    TopIsServed(q, ops, l, p);
    FifoAndConserved(q, ops, l);
    var out := AtLevel(Delivered(q, ops), l);
    assert (out + Exec(q, ops).byLevel[l])[p] == out[p];
    assert (q.byLevel[l] + AtLevel(Arrivals(ops), l))[p] == q.byLevel[l][p];
  }

  // ----- levels that can starve ----------------------------------------------------------------------------------

  /** `n` deliveries, none of them from the level. */
  ghost predicate Misses(q: Queue, ops: seq<Op>, l: Level, n: nat)
    requires HasLevels(q.byLevel)
  {
    Deliveries(ops) == n && AtLevel(Delivered(q, ops), l) == []
  }

  function Note(level: Level): Notification { Notification(0, Status, level, 0, "", 0) }

  lemma DeliveredCons(q: Queue, op: Op, rest: seq<Op>)
    requires HasLevels(q.byLevel)
    ensures Delivered(q, [op] + rest) == Out(q, op) + Delivered(After(q, op), rest)
    ensures Deliveries([op] + rest) == (if op.Deliver? then 1 else 0) + Deliveries(rest)
  {
    assert ([op] + rest)[1..] == rest;
  }

  /** An arrival and a delivery, then the rest. */
  function Pulse(level: Level, rest: seq<Op>): seq<Op> { [Enqueue(Note(level))] + ([Deliver] + rest) }

  lemma PulseDelivers(q: Queue, level: Level, rest: seq<Op>)
    requires WellFormed(q)
    ensures var q1 := Enqueued(q, Note(level));
      && WellFormed(q1) && NextDelivery(q1).Some? && WellFormed(AfterDelivery(q1))
      && Delivered(q, Pulse(level, rest)) == [NextDelivery(q1).value] + Delivered(AfterDelivery(q1), rest)
      && Deliveries(Pulse(level, rest)) == 1 + Deliveries(rest)
  {
    var q1 := Enqueued(q, Note(level));
    StepIsWellFormed(q, Enqueue(Note(level)));
    StepIsWellFormed(q1, Deliver);
    NextLevelIsOccupied(q1);
    DeliveredCons(q, Enqueue(Note(level)), [Deliver] + rest);
    DeliveredCons(q1, Deliver, rest);
  }

  lemma DeliversAtItsLevel(q: Queue)
    requires WellFormed(q) && NextDelivery(q).Some?
    ensures NextDelivery(q).value.level == NextLevel(q)
  {
    NextLevelIsOccupied(q);
  }

  /** When the pulse delivers at another level, what the run delivers at this one comes from the rest. */
  lemma PulseMisses(q: Queue, level: Level, rest: seq<Op>, l: Level)
    requires WellFormed(q)
    requires NextLevel(Enqueued(q, Note(level))) != l
    ensures WellFormed(AfterDelivery(Enqueued(q, Note(level))))
    ensures AtLevel(Delivered(q, Pulse(level, rest)), l)
            == AtLevel(Delivered(AfterDelivery(Enqueued(q, Note(level))), rest), l)
    ensures Deliveries(Pulse(level, rest)) == 1 + Deliveries(rest)
  {
    var q1 := Enqueued(q, Note(level));
    PulseDelivers(q, level, rest);
    DeliversAtItsLevel(q1);
    AtLevelOne(NextDelivery(q1).value, l);
    AtLevelAppend([NextDelivery(q1).value], Delivered(AfterDelivery(q1), rest), l);
  }

  /** One item arrives at each of two levels, and one item is delivered; again and again. */
  function Busy(a: Level, b: Level, n: nat): seq<Op> {
    if n == 0 then [] else [Enqueue(Note(a))] + Pulse(b, Busy(a, b, n - 1))
  }

  /** With two levels occupied, neither the top level nor the one a forced delivery takes is further down. */
  lemma BusyDelivery(q: Queue, a: Level, b: Level)
    requires WellFormed(q) && a < b && q.byLevel[a] != [] && q.byLevel[b] != []
    ensures 1 <= NextLevel(q) <= b
  {
    FirstFromBounds(q.byLevel, 1);
    FirstFromBounds(q.byLevel, Top(q) + 1);
  }

  lemma ArrivalFirst(q: Queue, a: Level, b: Level, n: nat)
    requires WellFormed(q) && a < b && n > 0
    ensures var q1 := Enqueued(q, Note(a));
      && WellFormed(q1) && 1 <= NextLevel(Enqueued(q1, Note(b))) <= b
      && Delivered(q, Busy(a, b, n)) == Delivered(q1, Pulse(b, Busy(a, b, n - 1)))
      && Deliveries(Busy(a, b, n)) == Deliveries(Pulse(b, Busy(a, b, n - 1)))
  {
    var q1 := Enqueued(q, Note(a));
    StepIsWellFormed(q, Enqueue(Note(a)));
    StepIsWellFormed(q1, Enqueue(Note(b)));
    BusyDelivery(Enqueued(q1, Note(b)), a, b);
    DeliveredCons(q, Enqueue(Note(a)), Pulse(b, Busy(a, b, n - 1)));
  }

  /** Below two busy levels: from any state, n deliveries need not include one of the level, for any n. */
  lemma {:induction false} BelowTwoLevelsStarves(q: Queue, a: Level, b: Level, l: Level, n: nat)
    requires WellFormed(q) && a < b < l
    ensures Misses(q, Busy(a, b, n), l, n)
    decreases n
  {
    if n > 0 {
      var q1 := Enqueued(q, Note(a));
      ArrivalFirst(q, a, b, n);
      PulseMisses(q1, b, Busy(a, b, n - 1), l);
      BelowTwoLevelsStarves(AfterDelivery(Enqueued(q1, Note(b))), a, b, l, n - 1);
    }
  }

  /** The counter after a delivery that passes the level over. */
  function NextCount(consecutiveHigh: nat): nat {
    if consecutiveHigh < STARVATION_THRESHOLD then consecutiveHigh + 1 else 0
  }

  /** Ten times an item above comes and goes; then one arrives below, and the forced delivery takes that one. */
  function Hold(a: Level, d: Level, consecutiveHigh: nat, n: nat): seq<Op>
    decreases n
  {
    if n == 0 then []
    else Pulse(if consecutiveHigh < STARVATION_THRESHOLD then a else d, Hold(a, d, NextCount(consecutiveHigh), n - 1))
  }

  /** Only this level holds anything. */
  ghost predicate Alone(q: Queue, l: Level) {
    WellFormed(q) && q.byLevel[l] != [] && forall k: Level :: k != l ==> q.byLevel[k] == []
  }

  lemma PassedFromAbove(q: Queue, a: Level, l: Level)
    requires Alone(q, l) && a < l && q.consecutiveHigh < STARVATION_THRESHOLD
    ensures var q1 := Enqueued(q, Note(a));
      && NextLevel(q1) == a && AfterDelivery(q1) == Queue(q.byLevel, q.consecutiveHigh + 1)
  {
    var q1 := Enqueued(q, Note(a));
    FirstFromBounds(q1.byLevel, 1);
    FirstFromBounds(q1.byLevel, a + 1);
    ComesAndGoes(q.byLevel, a);
  }

  lemma PassedFromBelow(q: Queue, l: Level, d: Level)
    requires Alone(q, l) && l < d && q.consecutiveHigh == STARVATION_THRESHOLD
    ensures var q1 := Enqueued(q, Note(d)); NextLevel(q1) == d && AfterDelivery(q1) == Queue(q.byLevel, 0)
  {
    var q1 := Enqueued(q, Note(d));
    FirstFromBounds(q1.byLevel, 1);
    FirstFromBounds(q1.byLevel, l + 1);
    ComesAndGoes(q.byLevel, d);
  }

  lemma ComesAndGoes(byLevel: map<Level, seq<Notification>>, l: Level)
    requires HasLevels(byLevel) && byLevel[l] == []
    ensures var one := byLevel[l := byLevel[l] + [Note(l)]]; one[l := one[l][1..]] == byLevel
  {
    assert [] + [Note(l)] == [Note(l)];
    var one := byLevel[l := byLevel[l] + [Note(l)]];
    assert one[l][1..] == byLevel[l];
    assert one[l := one[l][1..]] == byLevel;
  }

  /** One pulse at the level the counter asks for leaves the queue as it was, one delivery further. */
  lemma HoldStep(q: Queue, a: Level, l: Level, d: Level, n: nat, rest: seq<Op>)
    requires Alone(q, l) && a < l < d
    requires Misses(Queue(q.byLevel, NextCount(q.consecutiveHigh)), rest, l, n)
    ensures Misses(q, Pulse(if q.consecutiveHigh < STARVATION_THRESHOLD then a else d, rest), l, n + 1)
  {
    if q.consecutiveHigh < STARVATION_THRESHOLD {
      PassedFromAbove(q, a, l);
      PulseMisses(q, a, rest, l);
    } else {
      PassedFromBelow(q, l, d);
      PulseMisses(q, d, rest, l);
    }
  }

  /** Between one level above and one below: each forced delivery goes to the level below, for any number of deliveries. */
  lemma {:induction false} BetweenTwoLevelsStarves(q: Queue, a: Level, l: Level, d: Level, n: nat)
    requires Alone(q, l) && a < l < d
    ensures Misses(q, Hold(a, d, q.consecutiveHigh, n), l, n)
    decreases n
  {
    if n == 0 {
      assert Hold(a, d, q.consecutiveHigh, n) == [];
    } else {
      var after := Queue(q.byLevel, NextCount(q.consecutiveHigh));
      BetweenTwoLevelsStarves(after, a, l, d, n - 1);
      HoldStep(q, a, l, d, n - 1, Hold(a, d, after.consecutiveHigh, n - 1));
    }
  }

  /** The smallest such case: an item at level 2 that waits while levels 1 and 3 are used. */
  lemma SecondLevelCanStarve(n: nat)
    ensures var q := Exec(EMPTY, [Enqueue(Note(2))]);
      && Alone(q, 2) && q.byLevel[2] == [Note(2)] && Misses(q, Hold(1, 3, 0, n), 2, n)
  {
    OneWaits(2);
    BetweenTwoLevelsStarves(Exec(EMPTY, [Enqueue(Note(2))]), 1, 2, 3, n);
  }

  lemma OneWaits(l: Level)
    ensures var q := Exec(EMPTY, [Enqueue(Note(l))]);
      Alone(q, l) && q.byLevel[l] == [Note(l)] && q.consecutiveHigh == 0
  {
    assert [Enqueue(Note(l))][1..] == [];
    assert Exec(EMPTY, [Enqueue(Note(l))]) == Enqueued(EMPTY, Note(l));
    assert [] + [Note(l)] == [Note(l)];
    StepIsWellFormed(EMPTY, Enqueue(Note(l)));
  }

  // ----- exactly when there is a bound ---------------------------------------------------------------------------

  lemma {:induction false} BusyUses(a: Level, b: Level, n: nat, levels: set<Level>)
    requires a in levels && b in levels
    ensures UsesOnly(Busy(a, b, n), levels)
    decreases n
  {
    if n > 0 {
      BusyUses(a, b, n - 1, levels);
      PulseUses(b, Busy(a, b, n - 1), levels);
      UsesOnlySplit(Enqueue(Note(a)), Pulse(b, Busy(a, b, n - 1)), levels);
    }
  }

  lemma PulseUses(level: Level, rest: seq<Op>, levels: set<Level>)
    requires level in levels && UsesOnly(rest, levels)
    ensures UsesOnly(Pulse(level, rest), levels)
  {
    UsesOnlySplit(Deliver, rest, levels);
    UsesOnlySplit(Enqueue(Note(level)), [Deliver] + rest, levels);
  }

  lemma {:induction false} HoldUses(a: Level, d: Level, consecutiveHigh: nat, n: nat, levels: set<Level>)
    requires a in levels && d in levels
    ensures UsesOnly(Hold(a, d, consecutiveHigh, n), levels)
    decreases n
  {
    if n > 0 {
      var rest := Hold(a, d, NextCount(consecutiveHigh), n - 1);
      HoldUses(a, d, NextCount(consecutiveHigh), n - 1, levels);
      PulseUses(if consecutiveHigh < STARVATION_THRESHOLD then a else d, rest, levels);
    }
  }

  /** The state in which one item waits at the level is one these levels lead to. */
  lemma OneWaitsIsReached(levels: set<Level>, l: Level)
    requires l in levels
    ensures Reached(Exec(EMPTY, [Enqueue(Note(l))]), levels)
  {
    OneWaits(l);
    UsesOnlySplit(Enqueue(Note(l)), [], levels);
    assert [Enqueue(Note(l))] + [] == [Enqueue(Note(l))];
  }

  /** A run that passes the first item over `bound(0)` times refutes the bound. */
  lemma Refutes(levels: set<Level>, l: Level, bound: nat -> nat, q: Queue, ops: seq<Op>)
    requires l in levels && UsesOnly(ops, levels)
    requires Alone(q, l) && Reached(q, levels) && Misses(q, ops, l, bound(0))
    ensures !BoundedBy(levels, l, bound)
  {
    assert Waits(levels, l, q, ops, 0, bound(0));
  }

  lemma NoBoundBelowTwo(levels: set<Level>, l: Level, a: Level, b: Level, bound: nat -> nat)
    requires l in levels && a in levels && b in levels && a < b < l
    ensures !BoundedBy(levels, l, bound)
  {
    OneWaits(l);
    BelowTwoLevelsStarves(Exec(EMPTY, [Enqueue(Note(l))]), a, b, l, bound(0));
    BusyUses(a, b, bound(0), levels);
    OneWaitsIsReached(levels, l);
    Refutes(levels, l, bound, Exec(EMPTY, [Enqueue(Note(l))]), Busy(a, b, bound(0)));
  }

  lemma NoBoundBetween(levels: set<Level>, l: Level, a: Level, d: Level, bound: nat -> nat)
    requires l in levels && a in levels && d in levels && a < l < d
    ensures !BoundedBy(levels, l, bound)
  {
    OneWaits(l);
    BetweenTwoLevelsStarves(Exec(EMPTY, [Enqueue(Note(l))]), a, l, d, bound(0));
    HoldUses(a, d, 0, bound(0), levels);
    OneWaitsIsReached(levels, l);
    Refutes(levels, l, bound, Exec(EMPTY, [Enqueue(Note(l))]), Hold(a, d, 0, bound(0)));
  }

  /** The bounds, whatever the counter has run up to. */
  function TopBound(p: nat): nat { p + 2 + p / STARVATION_THRESHOLD }
  function SecondBound(p: nat): nat { (STARVATION_THRESHOLD + 1) * (p + 1) }

  lemma TopHasBound(levels: set<Level>, l: Level)
    requires NoneAbove(levels, l)
    ensures BoundedBy(levels, l, TopBound)
  {
    forall q, ops, p: nat | Waits(levels, l, q, ops, p, TopBound(p))
      ensures |AtLevel(Delivered(q, ops), l)| > p
    {
      forall k: Level | k < l ensures q.byLevel[k] == [] { UnusedIsEmpty(q, levels, k); }
      TopIsServed(q, ops, l, p);
    }
  }

  lemma SecondHasBound(levels: set<Level>, a: Level, l: Level)
    requires a < l && forall k :: k in levels ==> k == a || k == l
    ensures BoundedBy(levels, l, SecondBound)
  {
    forall q, ops, p: nat | Waits(levels, l, q, ops, p, SecondBound(p))
      ensures |AtLevel(Delivered(q, ops), l)| > p
    {
      forall k: Level | k != a && k != l ensures q.byLevel[k] == [] { UnusedIsEmpty(q, levels, k); }
      TwoLevelsAreFair(q, ops, a, l);
      BoundedWait(q, ops, l, p);
    }
  }

  /**
   A bound on the wait that depends on the position alone exists, over all runs that use these levels, if and
   only if none of them is above the level, or exactly one is above it and none below.
   */
  lemma BoundExistsExactlyWhen(levels: set<Level>, l: Level)
    requires l in levels
    ensures HasBound(levels, l) <==> NoneAbove(levels, l) || (OneAbove(levels, l) && NoneBelow(levels, l))
  {
    if NoneAbove(levels, l) {
      TopHasBound(levels, l);
    } else {
      var a :| a in levels && a < l;
      if OneAbove(levels, l) && NoneBelow(levels, l) {
        SecondHasBound(levels, a, l);
      } else {
        forall bound: nat -> nat ensures !BoundedBy(levels, l, bound) { NoBoundOtherwise(levels, l, a, bound); }
      }
    }
  }

  lemma NoBoundOtherwise(levels: set<Level>, l: Level, a: Level, bound: nat -> nat)
    requires l in levels && a in levels && a < l && !(OneAbove(levels, l) && NoneBelow(levels, l))
    ensures !BoundedBy(levels, l, bound)
  {
    if OneAbove(levels, l) {
      var d :| d in levels && d > l;
      NoBoundBetween(levels, l, a, d, bound);
    } else {
      var b :| b in levels && b < l && b != a;
      NoBoundBelowTwo(levels, l, Min(a, b), Max(a, b), bound);
    }
  }
}
