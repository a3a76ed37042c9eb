/**
 The background notification queue: four priority levels, first-in first-out within a level, and an
 anti-starvation counter that forces one lower item through after ten deliveries that passed one over.
 */
module Notifications {
  import opened Options

  datatype Kind =
    | Approval | Elicitation | Shutdown | SecurityFailure | InputRequest
    | TaskFailure | AgentState | TeamState | LostRemote
    | BackgroundCompletion | CronFire
    | Progress | Status

  type Level = l: int | 1 <= l <= 4 witness 1

  const STARVATION_THRESHOLD := 10

  function LevelOf(kind: Kind): Level {
    match kind
    case Approval | Elicitation | Shutdown | SecurityFailure | InputRequest => 1
    case TaskFailure | AgentState | TeamState | LostRemote => 2
    case BackgroundCompletion | CronFire => 3
    case Progress | Status => 4
  }

  datatype Notification = Notification(
    id: nat, kind: Kind, level: Level, subjectId: nat, message: string, createdAt: int)

  /** The abstract queue: what waits at each level, and how many deliveries passed over a lower item. */
  datatype Queue = Queue(byLevel: map<Level, seq<Notification>>, consecutiveHigh: nat)

  const EMPTY := Queue(map[1 := [], 2 := [], 3 := [], 4 := []], 0)

  ghost predicate WellFormed(q: Queue) {
    && (forall l: Level :: l in q.byLevel)
    && (forall l: Level, i :: 0 <= i < |q.byLevel[l]| ==> q.byLevel[l][i].level == l)
    && q.consecutiveHigh <= STARVATION_THRESHOLD
  }

  ghost predicate HasLevels(byLevel: map<Level, seq<Notification>>) {
    forall l: Level :: l in byLevel
  }

  /** The first non-empty level from `from` on; 0 when there is none. */
  function FirstFrom(byLevel: map<Level, seq<Notification>>, from: int): int
    requires 1 <= from <= 5 && HasLevels(byLevel)
    decreases 5 - from
  {
    if from == 5 then 0
    else if byLevel[from] != [] then from
    else FirstFrom(byLevel, from + 1)
  }

  function Top(q: Queue): int
    requires HasLevels(q.byLevel)
  {
    FirstFrom(q.byLevel, 1)
  }

  /** The highest-priority non-empty level below the top one; 0 when there is none. */
  function Lower(q: Queue): int
    requires HasLevels(q.byLevel) && Top(q) != 0
  {
    FirstFromBounds(q.byLevel, 1);
    FirstFrom(q.byLevel, Top(q) + 1)
  }

  /** The level `deliver` draws from: 0 when nothing waits. */
  function NextLevel(q: Queue): int
    requires HasLevels(q.byLevel)
  {
    if Top(q) == 0 then 0
    else if q.consecutiveHigh >= STARVATION_THRESHOLD && Lower(q) != 0 then Lower(q)
    else Top(q)
  }

  function Enqueued(q: Queue, n: Notification): Queue
    requires HasLevels(q.byLevel)
  {
    q.(byLevel := q.byLevel[n.level := q.byLevel[n.level] + [n]])
  }

  function NextDelivery(q: Queue): Option<Notification>
    requires HasLevels(q.byLevel)
  {
    NextLevelIsOccupied(q);
    if NextLevel(q) == 0 then None else Some(q.byLevel[NextLevel(q)][0])
  }

  function AfterDelivery(q: Queue): Queue
    requires HasLevels(q.byLevel)
  {
    NextLevelIsOccupied(q);
    var l := NextLevel(q);
    if l == 0 then q
    else Queue(q.byLevel[l := q.byLevel[l][1..]],
               if l != Top(q) || Lower(q) == 0 then 0 else q.consecutiveHigh + 1)
  }

  function Waiting(q: Queue): nat
    requires HasLevels(q.byLevel)
  {
    |q.byLevel[1]| + |q.byLevel[2]| + |q.byLevel[3]| + |q.byLevel[4]|
  }

  lemma {:induction false} FirstFromBounds(byLevel: map<Level, seq<Notification>>, from: int)
    requires 1 <= from <= 5 && HasLevels(byLevel)
    ensures var l := FirstFrom(byLevel, from);
      && (l == 0 || (from <= l <= 4 && byLevel[l] != []))
      && (forall k: Level :: from <= k && (l == 0 || k < l) ==> byLevel[k] == [])
    decreases 5 - from
  {
    if from < 5 && byLevel[from] == [] { FirstFromBounds(byLevel, from + 1); }
  }

  lemma NextLevelIsOccupied(q: Queue)
    requires HasLevels(q.byLevel)
    ensures NextLevel(q) == 0 <==> forall l: Level :: q.byLevel[l] == []
    ensures NextLevel(q) != 0 ==> 1 <= NextLevel(q) <= 4 && q.byLevel[NextLevel(q)] != []
  {
    FirstFromBounds(q.byLevel, 1);
    if Top(q) != 0 { FirstFromBounds(q.byLevel, Top(q) + 1); }
  }

  /** Levels above `l` (smaller numbers) that hold something. */
  ghost function Above(q: Queue, l: Level): set<Level>
    requires HasLevels(q.byLevel)
  {
    set k: Level | 1 <= k < l && q.byLevel[k] != []
  }

  ghost predicate NothingBelow(q: Queue, l: Level)
    requires HasLevels(q.byLevel)
  {
    forall k: Level :: l < k ==> q.byLevel[k] == []
  }

  /**
   Exactly which waiting level is served next: the top one, unless ten deliveries passed over a lower
   item, and then the next occupied level below the top and never one further down.
   */
  lemma ServedExactlyWhen(q: Queue, l: Level)
    requires WellFormed(q) && q.byLevel[l] != []
    ensures NextLevel(q) == l <==>
      if q.consecutiveHigh < STARVATION_THRESHOLD then Above(q, l) == {}
      else |Above(q, l)| == 1 || (Above(q, l) == {} && NothingBelow(q, l))
  {
    FirstFromBounds(q.byLevel, 1);
    var top := Top(q);
    FirstFromBounds(q.byLevel, top + 1);
    var lower := Lower(q);
    if top != l {
      assert top in Above(q, l);
      if lower != l {
        assert {top, lower} <= Above(q, l) && top != lower;
        assert |Above(q, l) - {top, lower}| == |Above(q, l)| - |{top, lower}|;
      } else {
        assert Above(q, l) == {top};
      }
    }
  }

  // ----- runs with arbitrary arrivals ------------------------------------------------------------

  datatype Op = Enqueue(n: Notification) | Deliver

  function After(q: Queue, op: Op): Queue
    requires HasLevels(q.byLevel)
  {
    match op
    case Enqueue(n) => Enqueued(q, n)
    case Deliver => AfterDelivery(q)
  }

  function Out(q: Queue, op: Op): seq<Notification>
    requires HasLevels(q.byLevel)
  {
    if op.Deliver? && NextDelivery(q).Some? then [NextDelivery(q).value] else []
  }

  function Exec(q: Queue, ops: seq<Op>): Queue
    requires HasLevels(q.byLevel)
    decreases |ops|
  {
    if ops == [] then q else Exec(After(q, ops[0]), ops[1..])
  }

  function Delivered(q: Queue, ops: seq<Op>): seq<Notification>
    requires HasLevels(q.byLevel)
    decreases |ops|
  {
    if ops == [] then [] else Out(q, ops[0]) + Delivered(After(q, ops[0]), ops[1..])
  }

  function Arrivals(ops: seq<Op>): seq<Notification> {
    if ops == [] then []
    else (if ops[0].Enqueue? then [ops[0].n] else []) + Arrivals(ops[1..])
  }

  function Deliveries(ops: seq<Op>): nat {
    if ops == [] then 0 else (if ops[0].Deliver? then 1 else 0) + Deliveries(ops[1..])
  }

  function AtLevel(ns: seq<Notification>, l: Level): seq<Notification> {
    if ns == [] then [] else (if ns[0].level == l then [ns[0]] else []) + AtLevel(ns[1..], l)
  }

  lemma {:induction false} AtLevelAppend(xs: seq<Notification>, ys: seq<Notification>, l: Level)
    ensures AtLevel(xs + ys, l) == AtLevel(xs, l) + AtLevel(ys, l)
    decreases |xs|
  {
    if xs == [] {
      assert xs + ys == ys;
    } else {
      assert (xs + ys)[1..] == xs[1..] + ys;
      AtLevelAppend(xs[1..], ys, l);
      if xs[0].level == l { Associate([xs[0]], AtLevel(xs[1..], l), AtLevel(ys, l)); }
    }
  }

  lemma Associate<T>(a: seq<T>, b: seq<T>, c: seq<T>)
    ensures a + (b + c) == a + b + c
  {
  }

  lemma AtLevelOne(n: Notification, l: Level)
    ensures AtLevel([n], l) == if n.level == l then [n] else []
  {
    assert [n][1..] == [];
  }

  lemma StepKeeps(q: Queue, op: Op)
    requires WellFormed(q)
    ensures WellFormed(After(q, op))
    ensures forall l: Level ::
      AtLevel(Out(q, op), l) + After(q, op).byLevel[l] == q.byLevel[l] + AtLevel(Arrivals([op]), l)
  {
    StepIsWellFormed(q, op);
    forall l: Level ensures AtLevel(Out(q, op), l) + After(q, op).byLevel[l] == q.byLevel[l] + AtLevel(Arrivals([op]), l) {
      StepAccounts(q, op, l);
    }
  }

  lemma StepIsWellFormed(q: Queue, op: Op)
    requires WellFormed(q)
    ensures WellFormed(After(q, op))
  {
    match op
    case Enqueue(n) =>
    case Deliver => DeliveryIsWellFormed(q);
  }

  lemma DeliveryIsWellFormed(q: Queue)
    requires WellFormed(q)
    ensures WellFormed(AfterDelivery(q))
  {
    NextLevelIsOccupied(q);
    CounterIsBounded(q);
  }

  /** The counter never passes the threshold: at it, a waiting lower item is served and the count starts again. */
  lemma CounterIsBounded(q: Queue)
    requires WellFormed(q)
    ensures AfterDelivery(q).consecutiveHigh <= STARVATION_THRESHOLD
  {
    FirstFromBounds(q.byLevel, 1);
    if Top(q) != 0 { FirstFromBounds(q.byLevel, Top(q) + 1); }
  }

  lemma StepAccounts(q: Queue, op: Op, l: Level)
    requires WellFormed(q)
    ensures AtLevel(Out(q, op), l) + After(q, op).byLevel[l] == q.byLevel[l] + AtLevel(Arrivals([op]), l)
  {
    assert [op][1..] == [];
    match op
    case Enqueue(n) => AtLevelOne(n, l);
    case Deliver =>
      NextLevelIsOccupied(q);
      if NextLevel(q) != 0 { DeliverAccountsAt(q, l); }
      assert [] + q.byLevel[l] == q.byLevel[l] + [] == q.byLevel[l];
  }

  /**
   Conservation and order, forced deliveries included: over every run, at every level, what was
   delivered followed by what still waits is what waited before followed by what arrived.
   */
  lemma {:induction false} FifoAndConserved(q: Queue, ops: seq<Op>, l: Level)
    requires WellFormed(q)
    ensures WellFormed(Exec(q, ops))
    ensures AtLevel(Delivered(q, ops), l) + Exec(q, ops).byLevel[l] == q.byLevel[l] + AtLevel(Arrivals(ops), l)
    decreases |ops|
  {
    if ops != [] {
      StepKeeps(q, ops[0]);
      var q1 := After(q, ops[0]);
      FifoAndConserved(q1, ops[1..], l);
      AtLevelAppend(Out(q, ops[0]), Delivered(q1, ops[1..]), l);
      ArrivalsSplit(ops, l);
      Regroup(AtLevel(Out(q, ops[0]), l), q1.byLevel[l], q.byLevel[l], AtLevel(Arrivals([ops[0]]), l),
              AtLevel(Delivered(q1, ops[1..]), l), Exec(q, ops).byLevel[l], AtLevel(Arrivals(ops[1..]), l));
    }
  }

  lemma ArrivalsSplit(ops: seq<Op>, l: Level)
    requires ops != []
    ensures AtLevel(Arrivals(ops), l) == AtLevel(Arrivals([ops[0]]), l) + AtLevel(Arrivals(ops[1..]), l)
  {
    assert [ops[0]][1..] == [];
    AtLevelAppend(Arrivals([ops[0]]), Arrivals(ops[1..]), l);
  }

  lemma Regroup<T>(out: seq<T>, mid: seq<T>, first: seq<T>, came: seq<T>, later: seq<T>, last: seq<T>, coming: seq<T>)
    requires out + mid == first + came && later + last == mid + coming
    ensures (out + later) + last == first + (came + coming)
  {
    assert (out + later) + last == out + (later + last);
    assert out + (mid + coming) == (out + mid) + coming;
    assert (first + came) + coming == first + (came + coming);
  }

  /**
   Every delivery of the run is one where `l` waits with nothing below it and at most one occupied
   level above it; that covers every run in which only two levels ever hold items.
   */
  ghost predicate FairFor(q: Queue, ops: seq<Op>, l: Level)
    requires HasLevels(q.byLevel)
    decreases |ops|
  {
    ops == [] ||
    ((ops[0].Deliver? ==> NothingBelow(q, l) && |Above(q, l)| <= 1) && FairFor(After(q, ops[0]), ops[1..], l))
  }

  /** Only levels `a` and `b` ever hold items. */
  ghost predicate OnlyTwo(q: Queue, ops: seq<Op>, a: Level, b: Level)
    requires HasLevels(q.byLevel)
  {
    && (forall l: Level :: l != a && l != b ==> q.byLevel[l] == [])
    && (forall n :: n in Arrivals(ops) ==> n.level == a || n.level == b)
  }

  lemma OnlyTwoStays(q: Queue, op: Op, rest: seq<Op>, a: Level, b: Level)
    requires WellFormed(q) && OnlyTwo(q, [op] + rest, a, b)
    ensures WellFormed(After(q, op)) && OnlyTwo(After(q, op), rest, a, b)
  {
    assert ([op] + rest)[1..] == rest;
    StepKeeps(q, op);
    NextLevelIsOccupied(q);
  }

  lemma AtMostOneAbove(q: Queue, a: Level, b: Level)
    requires WellFormed(q) && a < b && OnlyTwo(q, [], a, b)
    ensures NothingBelow(q, b) && |Above(q, b)| <= 1
  {
    assert Above(q, b) <= {a};
    if Above(q, b) != {} { assert Above(q, b) == {a}; }
  }

  lemma {:induction false} TwoLevelsAreFair(q: Queue, ops: seq<Op>, a: Level, b: Level)
    requires WellFormed(q) && a < b && OnlyTwo(q, ops, a, b)
    ensures FairFor(q, ops, b)
    decreases |ops|
  {
    if ops != [] {
      assert ops == [ops[0]] + ops[1..];
      AtMostOneAbove(q, a, b);
      OnlyTwoStays(q, ops[0], ops[1..], a, b);
      TwoLevelsAreFair(After(q, ops[0]), ops[1..], a, b);
    }
  }

  /** The remaining budget of deliveries before the item at position `p` must be out. */
  function Budget(q: Queue, p: nat): int {
    (STARVATION_THRESHOLD + 1) * (p + 1) - q.consecutiveHigh
  }

  lemma FairStep(q: Queue, l: Level, p: nat)
    requires WellFormed(q) && p < |q.byLevel[l]|
    requires NothingBelow(q, l) && |Above(q, l)| <= 1
    ensures var q' := AfterDelivery(q);
      if NextLevel(q) == l then q'.byLevel[l] == q.byLevel[l][1..] && q'.consecutiveHigh == 0
      else q'.byLevel[l] == q.byLevel[l] && q'.consecutiveHigh == q.consecutiveHigh + 1
  {
    ServedExactlyWhen(q, l);
    FirstFromBounds(q.byLevel, 1);
    if Top(q) != 0 { FirstFromBounds(q.byLevel, Top(q) + 1); }
  }

  lemma {:induction false} ServedWithinBudget(q: Queue, ops: seq<Op>, l: Level, p: nat)
    requires WellFormed(q) && p < |q.byLevel[l]| && FairFor(q, ops, l)
    requires Deliveries(ops) >= Budget(q, p)
    ensures |AtLevel(Delivered(q, ops), l)| > p
    decreases |ops|
  {
    StepKeeps(q, ops[0]);
    var q1 := After(q, ops[0]);
    AtLevelAppend(Out(q, ops[0]), Delivered(q1, ops[1..]), l);
    if ops[0].Deliver? {
      FairStep(q, l, p);
      if NextLevel(q) == l {
        var n := q.byLevel[l][0];
        assert [n][1..] == [] && AtLevel([n], l) == [n];
        if p > 0 { ServedWithinBudget(q1, ops[1..], l, p - 1); }
      } else {
        ServedWithinBudget(q1, ops[1..], l, p);
      }
    } else {
      ServedWithinBudget(q1, ops[1..], l, p);
    }
  }

  /**
   Bounded wait under arbitrary arrivals: on a fair run the item at position `p` of level `l` is among
   the deliveries by the 11 * (p + 1)th, less what the counter has already run up, and it is the
   (p + 1)th item delivered from its level.
   */
  lemma BoundedWait(q: Queue, ops: seq<Op>, l: Level, p: nat)
    requires WellFormed(q) && p < |q.byLevel[l]| && FairFor(q, ops, l)
    requires Deliveries(ops) >= 11 * (p + 1) - q.consecutiveHigh
    ensures |AtLevel(Delivered(q, ops), l)| > p && AtLevel(Delivered(q, ops), l)[p] == q.byLevel[l][p]
  {
    ServedWithinBudget(q, ops, l, p);
    FifoAndConserved(q, ops, l);
    var out := AtLevel(Delivered(q, ops), l);
    assert (out + Exec(q, ops).byLevel[l])[p] == out[p];
    assert (q.byLevel[l] + AtLevel(Arrivals(ops), l))[p] == q.byLevel[l][p];
  }

  /** Every delivery of the run sees a lower level waiting. */
  ghost predicate AlwaysLowerWaiting(q: Queue, ops: seq<Op>)
    requires HasLevels(q.byLevel)
    decreases |ops|
  {
    ops == [] ||
    ((ops[0].Deliver? ==> Top(q) != 0 && Lower(q) != 0) && AlwaysLowerWaiting(After(q, ops[0]), ops[1..]))
  }

  /** Some delivery of the run was drawn from below the top level. */
  ghost predicate SomeForced(q: Queue, ops: seq<Op>)
    requires HasLevels(q.byLevel)
    decreases |ops|
  {
    ops != [] &&
    ((ops[0].Deliver? && NextLevel(q) != Top(q)) || SomeForced(After(q, ops[0]), ops[1..]))
  }

  /**
   Anti-starvation with any levels occupied: among any eleven consecutive deliveries that each see a
   lower level waiting, one comes from below the top.
   */
  lemma {:induction false} OneOfElevenIsForced(q: Queue, ops: seq<Op>)
    requires WellFormed(q) && AlwaysLowerWaiting(q, ops)
    requires Deliveries(ops) >= 11 - q.consecutiveHigh
    ensures SomeForced(q, ops)
    decreases |ops|
  {
    StepKeeps(q, ops[0]);
    FirstFromBounds(q.byLevel, 1);
    if ops[0].Deliver? {
      FirstFromBounds(q.byLevel, Top(q) + 1);
      if NextLevel(q) == Top(q) { OneOfElevenIsForced(After(q, ops[0]), ops[1..]); }
    } else {
      OneOfElevenIsForced(After(q, ops[0]), ops[1..]);
    }
  }

  // ----- the queue object -------------------------------------------------------------------------

  /** At the threshold, with a lower item waiting. */
  lemma ForcedDelivery(q: Queue)
    requires WellFormed(q) && Top(q) != 0 && Lower(q) != 0 && q.consecutiveHigh >= STARVATION_THRESHOLD
    ensures 1 <= Lower(q) <= 4 && q.byLevel[Lower(q)] != []
    ensures NextDelivery(q) == Some(q.byLevel[Lower(q)][0])
    ensures AfterDelivery(q) == Queue(q.byLevel[Lower(q) := q.byLevel[Lower(q)][1..]], 0)
  {
    FirstFromBounds(q.byLevel, 1);
    FirstFromBounds(q.byLevel, Top(q) + 1);
  }

  lemma TopDelivery(q: Queue)
    requires WellFormed(q) && Top(q) != 0 && (Lower(q) == 0 || q.consecutiveHigh < STARVATION_THRESHOLD)
    ensures 1 <= Top(q) <= 4 && q.byLevel[Top(q)] != []
    ensures NextDelivery(q) == Some(q.byLevel[Top(q)][0])
    ensures AfterDelivery(q) ==
      Queue(q.byLevel[Top(q) := q.byLevel[Top(q)][1..]], if Lower(q) == 0 then 0 else q.consecutiveHigh + 1)
  {
    FirstFromBounds(q.byLevel, 1);
  }

  class NotificationQueue {
    var byLevel: map<Level, seq<Notification>>
    var consecutiveHigh: nat

    ghost function State(): Queue
      reads this
    {
      Queue(byLevel, consecutiveHigh)
    }

    ghost predicate Valid()
      reads this
    {
      WellFormed(State())
    }

    constructor ()
      ensures Valid() && State() == EMPTY
    {
      byLevel, consecutiveHigh := map[1 := [], 2 := [], 3 := [], 4 := []], 0;
    }

    method Enqueue(n: Notification)
      requires Valid()
      modifies this
      ensures Valid() && State() == Enqueued(old(State()), n)
    {
      StepKeeps(State(), Op.Enqueue(n));
      byLevel := byLevel[n.level := byLevel[n.level] + [n]];
    }

    method Size() returns (n: nat)
      requires Valid()
      ensures n == Waiting(State())
    {
      n := |byLevel[1]| + |byLevel[2]| + |byLevel[3]| + |byLevel[4]|;
    }

    /** Scan the levels from `from` on for the first that holds something. */
    method FirstOccupied(from: int) returns (level: int)
      requires Valid() && 1 <= from <= 5
      ensures level == FirstFrom(byLevel, from)
    {
      level := from;
      while level < 5
        invariant from <= level <= 5
        invariant FirstFrom(byLevel, from) == FirstFrom(byLevel, level)
      {
        if byLevel[level] != [] { return; }
        level := level + 1;
      }
      level := 0;
    }

    method PeekLevel() returns (level: int)
      requires Valid()
      ensures level == NextLevel(State())
      ensures level == 0 <==> NextDelivery(State()) == None
      ensures level != 0 ==> NextDelivery(State()).value.level == level
    {
      NextLevelIsOccupied(State());
      FirstFromBounds(byLevel, 1);
      var top := FirstOccupied(1);
      if top == 0 { return 0; }
      if consecutiveHigh >= STARVATION_THRESHOLD {
        var lower := FirstOccupied(top + 1);
        if lower != 0 { return lower; }
      }
      return top;
    }

    method Deliver() returns (n: Option<Notification>)
      requires Valid()
      modifies this
      ensures Valid()
      ensures n == NextDelivery(old(State())) && State() == AfterDelivery(old(State()))
    {
      ghost var q := State();
      DeliveryIsWellFormed(q);
      FirstFromBounds(byLevel, 1);
      var top := FirstOccupied(1);
      if top == 0 { return None; }
      FirstFromBounds(byLevel, top + 1);
      var lower := FirstOccupied(top + 1);
      if consecutiveHigh >= STARVATION_THRESHOLD && lower != 0 {
        ForcedDelivery(q);
        n := Serve(lower, 0);
      } else {
        TopDelivery(q);
        n := Serve(top, if lower != 0 then consecutiveHigh + 1 else 0);
      }
    }

    /** Hand over the oldest item of a level and set the counter. */
    method Serve(level: Level, counter: nat) returns (n: Option<Notification>)
      requires HasLevels(byLevel) && byLevel[level] != []
      modifies this
      ensures n == Some(old(byLevel)[level][0])
      ensures State() == Queue(old(byLevel)[level := old(byLevel)[level][1..]], counter)
    {
      consecutiveHigh := counter;
      n := Shift(level);
    }

    /** Take the oldest item of an occupied level. */
    method Shift(level: Level) returns (n: Option<Notification>)
      requires HasLevels(byLevel) && byLevel[level] != []
      modifies this`byLevel
      ensures n == Some(old(byLevel)[level][0]) && byLevel == old(byLevel)[level := old(byLevel)[level][1..]]
    {
      n := Some(byLevel[level][0]);
      byLevel := byLevel[level := byLevel[level][1..]];
    }

    /** Draining terminates and hands over everything that waited, in order within each level. */
    method Drain() returns (out: seq<Notification>)
      requires Valid()
      modifies this
      ensures Valid() && forall l: Level :: byLevel[l] == []
      ensures forall l: Level :: AtLevel(out, l) == old(byLevel)[l]
      ensures |out| == Waiting(old(State()))
    {
      out := [];
      var next := Deliver();
      DeliverAccounts(old(State()));
      assert out + Listed(next) == Listed(next);
      while next.Some?
        invariant Valid()
        invariant next.None? ==> forall l: Level :: byLevel[l] == []
        invariant Accounted(old(State()), out + Listed(next), State())
        decreases Waiting(State()), if next.Some? then 1 else 0
      {
        ghost var before := State();
        assert out + Listed(next) == out + [next.value];
        out := out + [next.value];
        next := Deliver();
        DeliverAccounts(before);
        AccountedTrans(old(State()), out, before, Listed(next), State());
      }
      assert out + Listed(next) == out;
      EmptiedAccounts(old(State()), out, State());
    }
  }

  lemma EmptiedAccounts(q: Queue, out: seq<Notification>, q': Queue)
    requires HasLevels(q.byLevel) && HasLevels(q'.byLevel) && Accounted(q, out, q')
    requires forall l: Level :: q'.byLevel[l] == []
    ensures forall l: Level :: AtLevel(out, l) == q.byLevel[l]
    ensures |out| == Waiting(q)
  {
    assert forall l: Level :: AtLevel(out, l) + [] == AtLevel(out, l);
  }

  /** `out` is what left the queue between two states, level by level. */
  ghost predicate Accounted(q: Queue, out: seq<Notification>, q': Queue)
    requires HasLevels(q.byLevel) && HasLevels(q'.byLevel)
  {
    && (forall l: Level :: AtLevel(out, l) + q'.byLevel[l] == q.byLevel[l])
    && |out| + Waiting(q') == Waiting(q)
  }

  lemma DeliverAccounts(q: Queue)
    requires WellFormed(q)
    ensures WellFormed(AfterDelivery(q)) && Accounted(q, Listed(NextDelivery(q)), AfterDelivery(q))
    ensures NextDelivery(q).None? <==> forall l: Level :: q.byLevel[l] == []
  {
    StepKeeps(q, Deliver);
    NextLevelIsOccupied(q);
    DeliveryShrinks(q);
    if NextLevel(q) == 0 {
      assert forall l: Level :: [] + q.byLevel[l] == q.byLevel[l];
    } else {
      forall l: Level ensures AtLevel(Listed(NextDelivery(q)), l) + AfterDelivery(q).byLevel[l] == q.byLevel[l] {
        DeliverAccountsAt(q, l);
      }
    }
  }

  lemma DeliveryShrinks(q: Queue)
    requires WellFormed(q)
    ensures Waiting(AfterDelivery(q)) == Waiting(q) - |Listed(NextDelivery(q))|
  {
    NextLevelIsOccupied(q);
  }

  lemma DeliverAccountsAt(q: Queue, l: Level)
    requires WellFormed(q) && NextLevel(q) != 0
    ensures AtLevel(Listed(NextDelivery(q)), l) + AfterDelivery(q).byLevel[l] == q.byLevel[l]
  {
    NextLevelIsOccupied(q);
    var l0 := NextLevel(q);
    AtLevelOne(q.byLevel[l0][0], l);
    if l == l0 {
      assert [q.byLevel[l][0]] + q.byLevel[l][1..] == q.byLevel[l];
    } else {
      assert [] + q.byLevel[l] == q.byLevel[l];
    }
  }

  lemma AccountedTrans(q0: Queue, out: seq<Notification>, q1: Queue, more: seq<Notification>, q2: Queue)
    requires HasLevels(q0.byLevel) && HasLevels(q1.byLevel) && HasLevels(q2.byLevel)
    requires Accounted(q0, out, q1) && Accounted(q1, more, q2)
    ensures Accounted(q0, out + more, q2)
  {
    forall l: Level ensures AtLevel(out + more, l) + q2.byLevel[l] == q0.byLevel[l] {
      AtLevelAppend(out, more, l);
      Chain(AtLevel(out, l), AtLevel(more, l), q2.byLevel[l], q1.byLevel[l], q0.byLevel[l]);
    }
  }

  lemma Chain<T>(out: seq<T>, more: seq<T>, last: seq<T>, mid: seq<T>, first: seq<T>)
    requires more + last == mid && out + mid == first
    ensures (out + more) + last == first
  {
    assert (out + more) + last == out + (more + last);
  }

  function Listed(n: Option<Notification>): seq<Notification> {
    if n.Some? then [n.value] else []
  }

  // ----- the levels of the kinds -------------------------------------------------------------------------------

  /** What asks something of the user, or tells of danger. */
  predicate IsUrgent(kind: Kind) {
    kind == Approval || kind == Elicitation || kind == Shutdown || kind == SecurityFailure || kind == InputRequest
  }

  lemma LevelsByKind(kind: Kind)
    ensures LevelOf(kind) == 1 <==> IsUrgent(kind)
    ensures LevelOf(kind) == 2 <==> kind == TaskFailure || kind == AgentState || kind == TeamState || kind == LostRemote
    ensures LevelOf(kind) == 3 <==> kind == BackgroundCompletion || kind == CronFire
    ensures LevelOf(kind) == 4 <==> kind == Progress || kind == Status
  {
  }

  /** Everything waits at the level of its kind. */
  predicate LevelledByKind(q: Queue)
    requires HasLevels(q.byLevel)
  {
    forall l: Level, i :: 0 <= i < |q.byLevel[l]| ==> q.byLevel[l][i].level == l == LevelOf(q.byLevel[l][i].kind)
  }

  /** While something urgent waits, something urgent is delivered next, unless ten deliveries passed over a lower item. */
  lemma UrgentGoesFirst(q: Queue, l: Level, i: nat)
    requires WellFormed(q) && LevelledByKind(q) && q.consecutiveHigh < 10
    requires i < |q.byLevel[l]| && IsUrgent(q.byLevel[l][i].kind)
    ensures NextDelivery(q).Some? && IsUrgent(NextDelivery(q).value.kind)
  {
    LevelsByKind(q.byLevel[l][i].kind);
    NextLevelIsOccupied(q);
    assert Above(q, 1) == {};
    ServedExactlyWhen(q, 1);
    LevelsByKind(q.byLevel[1][0].kind);
  }
}
