/**
 Which pairs dropping takes: when they are the oldest calls, and when the preserved recent items are not among
 them - with the exact condition on the transcript that was handed in.
 */
module ContextDropping {
  import opened Options
  import opened ContextItems
  import opened ContextReduction
  import opened ContextGuarantees

  // ----- pairs are answers ------------------------------------------------------------------------------------

  /** The result at `j` answers the call at `i`: the last call with its id before it. */
  ghost predicate Answers(items: seq<Item>, i: nat, j: nat) {
    && i < j < |items| && items[i].FunctionCall? && IsResult(items[j], items[i].callId)
    && forall k :: i < k < j ==> !IsCall(items[k], items[i].callId)
  }

  /** The pairs found are the answers, each found once. */
  lemma PairsAreAnswers(items: seq<Item>, i: nat, j: nat)
    ensures Answers(items, i, j) <==> i < |items| && items[i].FunctionCall? && Pair(items[i].callId, i, j) in PairsOf(items)
  {
    PairsAreGood(items);
    if Answers(items, i, j) {
      assert IsCall(items[..j][i], items[j].callId);
      PairOf(items, j);
      var p :| p in PairsOf(items) && p.outputIndex == j && p.callId == items[j].callId;
      assert GoodPair(items, p);
      assert IsCall(items[i], p.callId) && IsCall(items[p.callIndex], items[i].callId);
      assert p == Pair(items[i].callId, i, j);
    }
  }

  /** Which answers may be dropped at all. */
  ghost predicate MayDrop(items: seq<Item>, recentStart: nat, i: nat, j: nat) {
    Answers(items, i, j) && j < recentStart
  }

  lemma MayDropIsAPair(items: seq<Item>, recentStart: nat, i: nat, j: nat) returns (l: nat)
    requires MayDrop(items, recentStart, i, j)
    ensures var pairs := Droppable(items, recentStart); l < |pairs| && pairs[l] == Pair(items[i].callId, i, j)
  {
    PairsAreAnswers(items, i, j);
    DroppableFacts(items, recentStart);
    var p := Pair(items[i].callId, i, j);
    assert p in Droppable(items, recentStart);
    l :| 0 <= l < |Droppable(items, recentStart)| && Droppable(items, recentStart)[l] == p;
  }

  /** A result is dropped when its pair is among the first `k`, and only then. */
  lemma ResultDropped(items: seq<Item>, recentStart: nat, k: nat, l: nat)
    requires k <= |Droppable(items, recentStart)| && l < |Droppable(items, recentStart)|
    ensures var pairs := Droppable(items, recentStart); pairs[l].outputIndex in Positions(pairs, k) <==> l < k
  {
    var pairs := Droppable(items, recentStart);
    DroppableFacts(items, recentStart);
    PositionsAre(pairs, k);
    assert pairs[l] in pairs && GoodPair(items, pairs[l]);
    if pairs[l].outputIndex in Positions(pairs, k) {
      var m := DroppedPair(items, recentStart, k, pairs[l].outputIndex);
    }
  }

  // ----- the oldest first -------------------------------------------------------------------------------------

  /** No dropped result answers a younger call than a droppable one that stays. */
  ghost predicate OldestFirst(items: seq<Item>, recentStart: nat, drop: set<nat>) {
    forall i, m, j, n :: MayDrop(items, recentStart, i, m) && MayDrop(items, recentStart, j, n) && m in drop && n !in drop
      ==> i <= j
  }

  ghost predicate DropsOldest(items: seq<Item>, target: int, recentStart: nat, estimate: Estimator) {
    OldestFirst(items, recentStart, DroppedPositions(items, target, recentStart, estimate))
  }

  /** Droppable results come in the order of their calls. */
  ghost predicate InCallOrder(items: seq<Item>, recentStart: nat) {
    forall i, m, j, n :: MayDrop(items, recentStart, i, m) && MayDrop(items, recentStart, j, n) && i < j ==> m < n
  }

  /** What dropping leaves is what some number of leading pairs leaves. */
  lemma DropsSomePrefix(items: seq<Item>, target: int, recentStart: nat, estimate: Estimator) returns (k: nat)
    ensures k <= |Droppable(items, recentStart)|
    ensures DroppedPositions(items, target, recentStart, estimate) == Positions(Droppable(items, recentStart), k)
    ensures AfterDrop(items, target, recentStart, estimate) == Surviving(items, Positions(Droppable(items, recentStart), k))
  {
    k := DropCount(items, Droppable(items, recentStart), target, estimate);
  }

  /** Of two droppable results the one that goes comes first. */
  lemma DroppedComesFirst(items: seq<Item>, recentStart: nat, k: nat, i: nat, m: nat, j: nat, n: nat)
    requires k <= |Droppable(items, recentStart)| && MayDrop(items, recentStart, i, m) && MayDrop(items, recentStart, j, n)
    requires m in Positions(Droppable(items, recentStart), k) && n !in Positions(Droppable(items, recentStart), k)
    ensures m < n
  {
    var a := MayDropIsAPair(items, recentStart, i, m);
    var b := MayDropIsAPair(items, recentStart, j, n);
    ResultDropped(items, recentStart, k, a);
    ResultDropped(items, recentStart, k, b);
    DroppableFacts(items, recentStart);
  }

  lemma InOrderDropsOldest(items: seq<Item>, target: int, recentStart: nat, estimate: Estimator)
    requires InCallOrder(items, recentStart)
    ensures DropsOldest(items, target, recentStart, estimate)
  {
    var k := DropsSomePrefix(items, target, recentStart, estimate);
    var drop := Positions(Droppable(items, recentStart), k);
    forall i, m, j, n | MayDrop(items, recentStart, i, m) && MayDrop(items, recentStart, j, n) && m in drop && n !in drop
      ensures i <= j
    {
      DroppedComesFirst(items, recentStart, k, i, m, j, n);
    }
  }

  /** Stopping right after the younger call's pair leaves the older call's behind. */
  lemma OutOfOrderDropsYounger(items: seq<Item>, recentStart: nat, i: nat, m: nat, j: nat, n: nat) returns (k: nat)
    requires MayDrop(items, recentStart, i, m) && MayDrop(items, recentStart, j, n) && i < j && n <= m
    ensures k <= |Droppable(items, recentStart)|
    ensures !OldestFirst(items, recentStart, Positions(Droppable(items, recentStart), k))
  {
    var a := MayDropIsAPair(items, recentStart, i, m);
    var b := MayDropIsAPair(items, recentStart, j, n);
    DroppableFacts(items, recentStart);
    k := b + 1;
    ResultDropped(items, recentStart, k, a);
    ResultDropped(items, recentStart, k, b);
  }

  /**
   Dropping takes the oldest calls first, for every target and estimator, if and only if no two droppable calls
   have their results in the opposite order.
   */
  lemma DropsOldestExactlyWhen(items: seq<Item>, recentStart: nat)
    ensures (forall target: int, estimate: Estimator :: DropsOldest(items, target, recentStart, estimate))
      <==> InCallOrder(items, recentStart)
  {
    if InCallOrder(items, recentStart) {
      forall target: int, estimate: Estimator ensures DropsOldest(items, target, recentStart, estimate) {
        InOrderDropsOldest(items, target, recentStart, estimate);
      }
    } else {
      var i, m, j, n :| MayDrop(items, recentStart, i, m) && MayDrop(items, recentStart, j, n) && i < j && n <= m;
      var k := OutOfOrderDropsYounger(items, recentStart, i, m, j, n);
      SomeTargetStopsAt(items, recentStart, k);
      assert !DropsOldest(items, Cost(items, Droppable(items, recentStart), k, EVEN), recentStart, EVEN);
    }
  }

  const CALL_B := FunctionCall("b", "t", "")
  const RESULT_B := FunctionOutput("b", "t", "")

  /** Two calls, the younger answered first: the younger is dropped and the older stays. */
  lemma YoungerCallIsDroppedFirst()
    ensures Reduced([CALL, CALL_B, RESULT_B, RESULT], Plain(0, 2, EVEN)) == [CALL, RESULT]
    ensures !InCallOrder([CALL, CALL_B, RESULT_B, RESULT], 4)
  {
    PairsByResult();
    FirstOfTwoIsDropped();
    OnlyCallsAndResults(CALL, CALL_B, RESULT_B, RESULT, Plain(0, 2, EVEN));
    ResultsOutOfOrder();
  }

  lemma ResultsOutOfOrder()
    ensures !InCallOrder([CALL, CALL_B, RESULT_B, RESULT], 4)
  {
    var w := [CALL, CALL_B, RESULT_B, RESULT];
    assert MayDrop(w, 4, 0, 3);
    assert MayDrop(w, 4, 1, 2);
  }

  /** Nothing is offloaded or pruned from four small items that are no messages. */
  lemma OnlyCallsAndResults(a: Item, b: Item, c: Item, d: Item, s: Settings)
    requires !a.Message? && !b.Message? && !c.Message? && !d.Message? && s.preserveRecent == 0 && s.targetTokens.Some?
    requires forall i :: 0 <= i < 4 ==> !Offloads([a, b, c, d], s, i)
    ensures Reduced([a, b, c, d], s) == AfterDrop([a, b, c, d], s.targetTokens.value, 4, s.estimate)
  {
    var w := [a, b, c, d];
    NothingOffloaded(w, s);
    assert Middle(w, 4) == {};
    NothingDropped(w);
  }

  lemma PairsByResult()
    ensures Droppable([CALL, CALL_B, RESULT_B, RESULT], 4) == [Pair("b", 1, 2), Pair("a", 0, 3)]
  {
    var w := [CALL, CALL_B, RESULT_B, RESULT];
    var w3, w2, b, a := [CALL, CALL_B, RESULT_B], [CALL, CALL_B], Pair("b", 1, 2), Pair("a", 0, 3);
    assert w[..3] == w3 && w3[..2] == w2 && w2[..1] == [CALL] && [CALL][..0] == [];
    assert PairsOf([CALL]) == [];
    assert PairsOf(w2) == PairsOf(w2[..1]) + [];
    assert LastCall(w2, "b") == 1;
    assert PairsOf(w3) == [b];
    assert !IsCall(w3[2], "a") && !IsCall(w2[1], "a");
    assert LastCall(w2, "a") == LastCall([CALL], "a") == 0;
    assert LastCall(w3, "a") == 0;
    assert PairsOf(w) == [b, a];
    assert [b, a][..1] == [b] && [b][..0] == [];
    assert DroppableAmong([b], 4) == [b];
  }

  lemma FirstOfTwoIsDropped()
    requires Droppable([CALL, CALL_B, RESULT_B, RESULT], 4) == [Pair("b", 1, 2), Pair("a", 0, 3)]
    ensures AfterDrop([CALL, CALL_B, RESULT_B, RESULT], 2, 4, EVEN) == [CALL, RESULT]
  {
    var w := [CALL, CALL_B, RESULT_B, RESULT];
    var pairs := Droppable(w, 4);
    assert Positions(pairs, 0) == {} && Positions(pairs, 1) == {1, 2};
    NothingDropped(w);
    OuterTwoSurvive();
    EvenCost(w);
    EvenCost([CALL, RESULT]);
    assert Cost(w, pairs, 0, EVEN) == 4 && Cost(w, pairs, 1, EVEN) == 2;
    DropStops(w, pairs, 2, EVEN);
  }

  lemma OuterTwoSurvive()
    ensures Surviving([CALL, CALL_B, RESULT_B, RESULT], {1, 2}) == [CALL, RESULT]
  {
    WithoutMiddle(CALL, CALL_B, RESULT_B, RESULT, {1, 2});
  }

  lemma WithoutMiddle(a: Item, b: Item, c: Item, d: Item, drop: set<nat>)
    requires 0 !in drop && 1 in drop && 2 in drop && 3 !in drop
    ensures Surviving([a, b, c, d], drop) == [a, d]
  {
    assert [] + [a] == [a] && [a] + [b] == [a, b] && [a, b] + [c] == [a, b, c] && [a, b, c] + [d] == [a, b, c, d];
    SurvivingAppend([], a, drop);
    SurvivingAppend([a], b, drop);
    SurvivingAppend([a, b], c, drop);
    SurvivingAppend([a, b, c], d, drop);
  }

  // ----- the recent tail --------------------------------------------------------------------------------------

  /** The same reduction with another target and estimator. */
  function With(s: Settings, target: int, estimate: Estimator): Settings {
    s.(targetTokens := Some(target), estimate := estimate)
  }

  /** How many messages pruning takes out. */
  function PrunedCount(items: seq<Item>, s: Settings): nat {
    NoMoreSurviveThan(Offloaded(items, s), Middle(items, RecentStart(items, s)));
    |items| - |Pruned(items, s)|
  }

  /** The tail's length: what is preserved, or everything when there is no more. */
  function TailLength(items: seq<Item>, s: Settings): nat { |items| - RecentStart(items, s) }

  /** A result in the tail, as near its start as messages were pruned, with an earlier call. */
  ghost predicate Exposed(items: seq<Item>, s: Settings, i: nat) {
    && RecentStart(items, s) <= i < |items| && i < RecentStart(items, s) + PrunedCount(items, s)
    && items[i].FunctionOutput? && HasCall(items[..i], items[i].callId)
  }

  lemma OffloadItemWith(items: seq<Item>, s: Settings, target: int, estimate: Estimator, i: nat)
    requires i < |items|
    ensures OffloadItem(items, With(s, target, estimate), i) == OffloadItem(items, s, i)
  {
  }

  lemma OffloadedWith(items: seq<Item>, s: Settings, target: int, estimate: Estimator)
    ensures Offloaded(items, With(s, target, estimate)) == Offloaded(items, s)
  {
    forall i | 0 <= i < |items| ensures Offloaded(items, With(s, target, estimate))[i] == Offloaded(items, s)[i] {
      OffloadItemWith(items, s, target, estimate, i);
    }
  }

  lemma PrunedWith(items: seq<Item>, s: Settings, target: int, estimate: Estimator)
    ensures Pruned(items, With(s, target, estimate)) == Pruned(items, s)
  {
    OffloadedWith(items, s, target, estimate);
    assert RecentStart(items, With(s, target, estimate)) == RecentStart(items, s);
  }

  /** Neither changes what offloading and pruning do. */
  lemma ReducedWith(items: seq<Item>, s: Settings, target: int, estimate: Estimator)
    ensures Reduced(items, With(s, target, estimate)) == AfterDrop(Pruned(items, s), target, RecentStart(items, s), estimate)
  {
    var s' := With(s, target, estimate);
    PrunedWith(items, s, target, estimate);
    assert s'.targetTokens == Some(target) && s'.estimate == estimate && RecentStart(items, s') == RecentStart(items, s);
    assert Reduced(items, s') == AfterDrop(Pruned(items, s'), target, RecentStart(items, s'), estimate);
  }

  /** Pruning moves the tail towards the start by the number of messages it takes out. */
  lemma TailMoves(items: seq<Item>, s: Settings, i: nat)
    requires RecentStart(items, s) <= i < |items|
    ensures var k := PrunedCount(items, s); k <= i && i - k < |Pruned(items, s)| && Pruned(items, s)[i - k] == items[i]
  {
    PruningKeepsTail(items, s);
    var t, p := TailLength(items, s), Pruned(items, s);
    assert p[|p| - t..][i - RecentStart(items, s)] == items[|items| - t..][i - RecentStart(items, s)];
  }

  /** An earlier call in the transcript is one in the pruned transcript, and the other way round. */
  lemma CallsSurvivePruning(items: seq<Item>, s: Settings, i: nat, id: string)
    requires RecentStart(items, s) <= i < |items|
    ensures var k := PrunedCount(items, s);
      && k <= i && i - k <= |Pruned(items, s)|
      && (HasCall(items[..i], id) <==> HasCall(Pruned(items, s)[..i - k], id))
  {
    TailMoves(items, s, i);
    PrunedPrefix(items, s, i);
    var off, drop := Offloaded(items, s), Middle(items, RecentStart(items, s));
    var before, after := off[..i], Surviving(off[..i], drop);
    if HasCall(items[..i], id) {
      var c :| 0 <= c < i && IsCall(items[..i][c], id);
      assert before[c] == items[c];
      SurvivingHas(before, drop, c);
      var d :| 0 <= d < |after| && after[d] == before[c];
      assert IsCall(after[d], id);
    }
    if HasCall(after, id) {
      var d :| 0 <= d < |after| && IsCall(after[d], id);
      var c := SurvivingOnly(before, drop, after[d]);
      assert IsCall(items[..i][c], id);
    }
  }

  lemma {:induction false} PrunedPrefix(items: seq<Item>, s: Settings, i: nat)
    requires RecentStart(items, s) <= i <= |items|
    ensures var k := PrunedCount(items, s);
      && k <= i && i - k <= |Pruned(items, s)|
      && Pruned(items, s)[..i - k] == Surviving(Offloaded(items, s)[..i], Middle(items, RecentStart(items, s)))
  {
    var off, drop := Offloaded(items, s), Middle(items, RecentStart(items, s));
    SurvivingSuffix(off, drop, i);
  }

  /** An exposed result is the result of a droppable pair that reaches into the tail. */
  lemma ExposedIsDroppable(items: seq<Item>, s: Settings, i: nat) returns (l: nat)
    requires Exposed(items, s, i)
    ensures var pairs := Droppable(Pruned(items, s), RecentStart(items, s));
      l < |pairs| && pairs[l].outputIndex == i - PrunedCount(items, s)
  {
    var recentStart, o, pruned := RecentStart(items, s), i - PrunedCount(items, s), Pruned(items, s);
    TailMoves(items, s, i);
    CallsSurvivePruning(items, s, i, items[i].callId);
    PairOf(pruned, o);
    var p :| p in PairsOf(pruned) && p.outputIndex == o && p.callId == pruned[o].callId;
    DroppableFacts(pruned, recentStart);
    PairsAreGood(pruned);
    assert GoodPair(pruned, p) && p in Droppable(pruned, recentStart);
    l :| 0 <= l < |Droppable(pruned, recentStart)| && Droppable(pruned, recentStart)[l] == p;
  }

  lemma DroppableIsExposed(items: seq<Item>, s: Settings, p: Pair)
    requires p in Droppable(Pruned(items, s), RecentStart(items, s))
    requires p.outputIndex >= RecentStart(items, s) - PrunedCount(items, s)
    ensures Exposed(items, s, p.outputIndex + PrunedCount(items, s))
  {
    var pruned, i := Pruned(items, s), p.outputIndex + PrunedCount(items, s);
    DroppableFacts(pruned, RecentStart(items, s));
    assert GoodPair(pruned, p);
    TailMoves(items, s, i);
    CallsSurvivePruning(items, s, i, items[i].callId);
    assert IsCall(pruned[..p.outputIndex][p.callIndex], p.callId);
  }

  /** With nothing exposed, every droppable pair ends before the tail. */
  lemma NoneReachesTail(items: seq<Item>, s: Settings)
    requires forall i :: !Exposed(items, s, i)
    ensures forall p :: p in Droppable(Pruned(items, s), RecentStart(items, s))
              ==> p.outputIndex < RecentStart(items, s) - PrunedCount(items, s)
  {
    forall p | p in Droppable(Pruned(items, s), RecentStart(items, s))
      ensures p.outputIndex < RecentStart(items, s) - PrunedCount(items, s)
    {
      if p.outputIndex >= RecentStart(items, s) - PrunedCount(items, s) { DroppableIsExposed(items, s, p); }
    }
  }

  /** So dropping stays clear of it. */
  lemma UnexposedTailStays(items: seq<Item>, s: Settings, target: int, estimate: Estimator)
    requires forall i :: !Exposed(items, s, i)
    ensures SameTail(items, Reduced(items, With(s, target, estimate)), TailLength(items, s))
  {
    var recentStart, pruned, t := RecentStart(items, s), Pruned(items, s), TailLength(items, s);
    ReducedWith(items, s, target, estimate);
    PruningKeepsTail(items, s);
    NoneReachesTail(items, s);
    ClearOfTail(pruned, target, recentStart, estimate, |pruned| - t);
    TailsCompose(items, pruned, AfterDrop(pruned, target, recentStart, estimate), t, t);
  }

  lemma ClearOfTail(pruned: seq<Item>, target: int, recentStart: nat, estimate: Estimator, from: nat)
    requires from <= |pruned| && forall p :: p in Droppable(pruned, recentStart) ==> p.outputIndex < from
    ensures SameTail(pruned, AfterDrop(pruned, target, recentStart, estimate), |pruned| - from)
  {
    DroppingSparesTailExactlyWhen(pruned, recentStart, from);
    assert forall d :: d in DroppedPositions(pruned, target, recentStart, estimate) ==> d < from;
    SurvivingSuffix(pruned, DroppedPositions(pruned, target, recentStart, estimate), from);
  }

  /** Every droppable pair can go: some target leaves none of their results. */
  lemma AllCanGo(items: seq<Item>, recentStart: nat, l: nat) returns (target: int)
    requires OneResultPerId(items) && l < |Droppable(items, recentStart)|
    ensures Droppable(items, recentStart)[l].outputIndex < |items|
    ensures items[Droppable(items, recentStart)[l].outputIndex] !in AfterDrop(items, target, recentStart, EVEN)
  {
    var pairs := Droppable(items, recentStart);
    target := Cost(items, pairs, |pairs|, EVEN);
    SomeTargetStopsAt(items, recentStart, |pairs|);
    ResultDropped(items, recentStart, |pairs|, l);
    DroppableFacts(items, recentStart);
    assert pairs[l] in pairs && GoodPair(items, pairs[l]);
    DroppedResultIsGone(items, Positions(pairs, |pairs|), pairs[l].outputIndex);
  }

  /** With ids of results distinct: an exposed result is dropped at a low enough target, and no other item is that result. */
  lemma ExposedResultGoes(items: seq<Item>, s: Settings, i: nat)
    requires OneResultPerId(items) && Exposed(items, s, i)
    ensures exists target: int :: !SameTail(items, Reduced(items, With(s, target, EVEN)), TailLength(items, s))
  {
    PrunedResultsStaySingle(items, s);
    TailMoves(items, s, i);
    var l := ExposedIsDroppable(items, s, i);
    var target := AllCanGo(Pruned(items, s), RecentStart(items, s), l);
    ReducedWith(items, s, target, EVEN);
    MissingBreaksTail(items, Reduced(items, With(s, target, EVEN)), TailLength(items, s), i);
  }

  lemma PrunedResultsStaySingle(items: seq<Item>, s: Settings)
    requires OneResultPerId(items)
    ensures OneResultPerId(Pruned(items, s))
  {
    assert OneResultPerId(Offloaded(items, s));
    SurvivingResultsStaySingle(Offloaded(items, s), Middle(items, RecentStart(items, s)));
  }

  lemma DroppedResultIsGone(items: seq<Item>, drop: set<nat>, i: nat)
    requires OneResultPerId(items) && i < |items| && items[i].FunctionOutput? && i in drop
    ensures items[i] !in Surviving(items, drop)
  {
    if items[i] in Surviving(items, drop) { var j := SurvivingOnly(items, drop, items[i]); }
  }

  lemma TailIsThere(items: seq<Item>, after: seq<Item>, t: nat, i: nat)
    requires SameTail(items, after, t) && |items| - t <= i < |items|
    ensures items[i] in after
  {
    assert items[|items| - t..][i - (|items| - t)] == items[i];
    assert after[|after| - t..][i - (|items| - t)] in after;
  }

  lemma MissingBreaksTail(items: seq<Item>, after: seq<Item>, t: nat, i: nat)
    requires |items| - t <= i < |items| && items[i] !in after
    ensures !SameTail(items, after, t)
  {
    if SameTail(items, after, t) { TailIsThere(items, after, t, i); }
  }

  // ----- the tail of an intact transcript, results repeated or not -----------------------------------------------------

  function Results(items: seq<Item>): nat {
    if items == [] then 0 else Results(items[..|items| - 1]) + if items[|items| - 1].FunctionOutput? then 1 else 0
  }

  lemma {:induction false} ResultsConcat(a: seq<Item>, b: seq<Item>)
    ensures Results(a + b) == Results(a) + Results(b)
    decreases |b|
  {
    if b == [] {
      assert a + b == a;
    } else {
      assert (a + b)[..|a + b| - 1] == a + b[..|b| - 1];
      ResultsConcat(a, b[..|b| - 1]);
    }
  }

  lemma {:induction false} SomeResult(items: seq<Item>, i: nat)
    requires i < |items| && items[i].FunctionOutput?
    ensures Results(items) > 0
  {
    if i < |items| - 1 { SomeResult(items[..|items| - 1], i); }
  }

  lemma {:induction false} NoResultsLeft(items: seq<Item>, drop: set<nat>)
    requires forall j: nat :: j < |items| && items[j].FunctionOutput? ==> j in drop
    ensures Results(Surviving(items, drop)) == 0
  {
    if items != [] {
      var n := |items| - 1;
      NoResultsLeft(items[..n], drop);
      KeptResults(items, drop);
    }
  }

  lemma KeptResults(items: seq<Item>, drop: set<nat>)
    requires items != []
    ensures var n := |items| - 1;
      Results(Surviving(items, drop)) == Results(Surviving(items[..n], drop)) + if n !in drop && items[n].FunctionOutput? then 1 else 0
  {
    var kept := Surviving(items[..|items| - 1], drop);
    assert |items| - 1 in drop ==> Surviving(items, drop) == kept;
    assert |items| - 1 !in drop ==> (kept + [items[|items| - 1]])[..|kept|] == kept;
  }

  /** With every result before a position dropped, no more results are left than stand from that position on. */
  lemma {:induction false} ResultsLeft(items: seq<Item>, drop: set<nat>, from: nat)
    requires from <= |items| && forall j: nat :: j < from && items[j].FunctionOutput? ==> j in drop
    ensures Results(Surviving(items, drop)) <= Results(items[from..])
  {
    if from == |items| {
      NoResultsLeft(items, drop);
    } else {
      var n := |items| - 1;
      ResultsLeft(items[..n], drop, from);
      KeptResults(items, drop);
      assert items[from..][..n - from] == items[..n][from..];
    }
  }

  /** On an intact list every result before the limit is in a pair that may be dropped. */
  lemma IntactResultsGo(items: seq<Item>, recentStart: nat, j: nat)
    requires Intact(items) && j < |items| && j < recentStart && items[j].FunctionOutput?
    ensures var pairs := Droppable(items, recentStart); j in Positions(pairs, |pairs|)
  {
    var pairs := Droppable(items, recentStart);
    assert HasCall(items[..j], items[j].callId);
    PairOf(items, j);
    var p :| p in PairsOf(items) && p.outputIndex == j && p.callId == items[j].callId;
    PairsAreGood(items);
    DroppableFacts(items, recentStart);
    assert GoodPair(items, p) && p in pairs;
    var l :| 0 <= l < |pairs| && pairs[l] == p;
    ResultDropped(items, recentStart, |pairs|, l);
  }

  /** Some target leaves no result before the limit. */
  lemma AllResultsGo(items: seq<Item>, recentStart: nat) returns (target: int)
    requires Intact(items)
    ensures Results(AfterDrop(items, target, recentStart, EVEN)) <= Results(items[Min(recentStart, |items|)..])
  {
    var pairs := Droppable(items, recentStart);
    target := Cost(items, pairs, |pairs|, EVEN);
    SomeTargetStopsAt(items, recentStart, |pairs|);
    var from := Min(recentStart, |items|);
    forall j: nat | j < from && items[j].FunctionOutput? ensures j in Positions(pairs, |pairs|) {
      IntactResultsGo(items, recentStart, j);
    }
    ResultsLeft(items, Positions(pairs, |pairs|), from);
  }

  lemma ResultsSplit(tail: seq<Item>, e: nat, x: nat)
    requires x < e <= |tail| && tail[x].FunctionOutput?
    ensures Results(tail) > Results(tail[e..])
  {
    assert tail[..e][x] == tail[x];
    SomeResult(tail[..e], x);
    ResultsConcat(tail[..e], tail[e..]);
    assert tail[..e] + tail[e..] == tail;
  }

  /** What stands behind the limit after pruning is the tail without its first positions. */
  lemma BehindTheLimit(items: seq<Item>, s: Settings)
    ensures var p, recentStart, tail := Pruned(items, s), RecentStart(items, s), items[RecentStart(items, s)..];
      p[Min(recentStart, |p|)..] == tail[Min(PrunedCount(items, s), |tail|)..]
  {
    var p, tail := Pruned(items, s), items[RecentStart(items, s)..];
    PruningKeepsTail(items, s);
    assert p[|p| - |tail|..] == tail;
  }

  /** The tail holds at least one result more than what stands behind the limit after pruning. */
  lemma ExposedResultCounts(items: seq<Item>, s: Settings, i: nat)
    requires Exposed(items, s, i)
    ensures var p, recentStart := Pruned(items, s), RecentStart(items, s);
      Results(items[recentStart..]) > Results(p[Min(recentStart, |p|)..])
  {
    var recentStart, tail := RecentStart(items, s), items[RecentStart(items, s)..];
    BehindTheLimit(items, s);
    assert tail[i - recentStart] == items[i];
    ResultsSplit(tail, Min(PrunedCount(items, s), |tail|), i - recentStart);
  }

  lemma TailHasItsResults(items: seq<Item>, after: seq<Item>, t: nat)
    requires SameTail(items, after, t)
    ensures Results(items[|items| - t..]) <= Results(after)
  {
    ResultsConcat(after[..|after| - t], after[|after| - t..]);
    assert after[..|after| - t] + after[|after| - t..] == after;
  }

  lemma FewerResultsBreakTail(items: seq<Item>, after: seq<Item>, t: nat)
    requires t <= |items| && Results(after) < Results(items[|items| - t..])
    ensures !SameTail(items, after, t)
  {
    if SameTail(items, after, t) { TailHasItsResults(items, after, t); }
  }

  lemma ExposedResultGoesIntact(items: seq<Item>, s: Settings, i: nat)
    requires Intact(items) && Exposed(items, s, i)
    ensures exists target: int :: !SameTail(items, Reduced(items, With(s, target, EVEN)), TailLength(items, s))
  {
    PruningKeepsPairing(items, s);
    var target := AllResultsGo(Pruned(items, s), RecentStart(items, s));
    ReducedWith(items, s, target, EVEN);
    ExposedResultCounts(items, s, i);
    FewerResultsBreakTail(items, Reduced(items, With(s, target, EVEN)), TailLength(items, s));
  }

  // ----- exactly when the tail comes through -----------------------------------------------------------------------------

  /**
   By position, for every transcript: no item of the preserved tail is ever dropped, for any target and
   estimator, if and only if none of the first positions of that tail - as many of them as messages were
   pruned - holds a result with an earlier call.
   */
  lemma TailIsSparedExactlyWhen(items: seq<Item>, s: Settings)
    ensures (forall target: int, estimate: Estimator, d: nat ::
               d in DroppedPositions(Pruned(items, s), target, RecentStart(items, s), estimate)
               ==> d < RecentStart(items, s) - PrunedCount(items, s))
      <==> (forall i :: !Exposed(items, s, i))
  {
    var recentStart, pruned, from := RecentStart(items, s), Pruned(items, s), RecentStart(items, s) - PrunedCount(items, s);
    PruningKeepsTail(items, s);
    DroppingSparesTailExactlyWhen(pruned, recentStart, from);
    if forall i :: !Exposed(items, s, i) {
      NoneReachesTail(items, s);
    } else {
      var i :| Exposed(items, s, i);
      var l := ExposedIsDroppable(items, s, i);
      assert Droppable(pruned, recentStart)[l] in Droppable(pruned, recentStart);
    }
  }

  /**
   By content: on a transcript that is intact, or has one result per id, the last preserved items are the same for
   every target and estimator under the same condition. (A result without a call can stand in for a dropped one.)
   */
  lemma TailComesThroughExactlyWhen(items: seq<Item>, s: Settings)
    requires Intact(items) || OneResultPerId(items)
    ensures TailLength(items, s) == Min(|items|, s.preserveRecent)
    ensures (forall target: int, estimate: Estimator ::
               SameTail(items, Reduced(items, With(s, target, estimate)), TailLength(items, s)))
      <==> (forall i :: !Exposed(items, s, i))
  {
    if forall i :: !Exposed(items, s, i) {
      forall target: int, estimate: Estimator
        ensures SameTail(items, Reduced(items, With(s, target, estimate)), TailLength(items, s))
      {
        UnexposedTailStays(items, s, target, estimate);
      }
    } else {
      var i :| Exposed(items, s, i);
      if Intact(items) { ExposedResultGoesIntact(items, s, i); } else { ExposedResultGoes(items, s, i); }
    }
  }

  // ----- where content and position part ways ----------------------------------------------------------------------------

  lemma FourStay()
    ensures Pruned([ASK, ASK, RESULT, CALL, RESULT], Plain(1, 0, EVEN)) == [ASK, RESULT, CALL, RESULT]
  {
    var w, s := [ASK, ASK, RESULT, CALL, RESULT], Plain(1, 0, EVEN);
    var m := Middle(w, 4);
    NothingOffloaded(w, s);
    assert 0 !in m && 1 in m && 2 !in m && 3 !in m && 4 !in m;
    WithoutSecond(ASK, ASK, RESULT, CALL, RESULT, m);
  }

  lemma WithoutSecond(a: Item, b: Item, c: Item, d: Item, e: Item, drop: set<nat>)
    requires 0 !in drop && 1 in drop && 2 !in drop && 3 !in drop && 4 !in drop
    ensures Surviving([a, b, c, d, e], drop) == [a, c, d, e]
  {
    assert [] + [a] == [a] && [a] + [b] == [a, b] && [a, b] + [c] == [a, b, c];
    assert [a, b, c] + [d] == [a, b, c, d] && [a, b, c, d] + [e] == [a, b, c, d, e];
    SurvivingAppend([], a, drop);
    SurvivingAppend([a], b, drop);
    SurvivingAppend([a, b], c, drop);
    SurvivingAppend([a, b, c], d, drop);
    SurvivingAppend([a, b, c, d], e, drop);
  }

  /** The pair goes as a whole or not at all, and the first result has no call to go with. */
  lemma PairOrNothing(k: nat)
    requires k <= |Droppable([ASK, RESULT, CALL, RESULT], 4)|
    ensures var drop := Positions(Droppable([ASK, RESULT, CALL, RESULT], 4), k);
      0 !in drop && 1 !in drop && (3 in drop ==> 2 in drop)
  {
    var w := [ASK, RESULT, CALL, RESULT];
    var pairs := Droppable(w, 4);
    DroppableFacts(w, 4);
    PositionsAre(pairs, k);
    forall l | 0 <= l < k ensures pairs[l].callIndex == 2 && pairs[l].outputIndex == 3 {
      assert pairs[l] in pairs && GoodPair(w, pairs[l]);
    }
  }

  lemma EndsInResult(drop: set<nat>)
    requires 0 !in drop && 1 !in drop && (3 in drop ==> 2 in drop)
    ensures var kept := Surviving([ASK, RESULT, CALL, RESULT], drop); kept != [] && kept[|kept| - 1] == RESULT
  {
    assert [ASK] + [RESULT] == [ASK, RESULT] && [ASK, RESULT] + [CALL] == [ASK, RESULT, CALL];
    assert [ASK, RESULT, CALL] + [RESULT] == [ASK, RESULT, CALL, RESULT];
    SurvivingAppend([ASK], RESULT, drop);
    SurvivingAppend([ASK, RESULT], CALL, drop);
    SurvivingAppend([ASK, RESULT, CALL], RESULT, drop);
  }

  lemma SameLast(before: seq<Item>, after: seq<Item>)
    requires before != [] && after != [] && before[|before| - 1] == after[|after| - 1]
    ensures SameTail(before, after, 1)
  {
  }

  lemma LastIsExposed()
    ensures Exposed([ASK, ASK, RESULT, CALL, RESULT], Plain(1, 0, EVEN), 4)
  {
    FourStay();
    assert IsCall([ASK, ASK, RESULT, CALL, RESULT][..4][3], "a");
  }

  lemma StillEndsInResult(target: int, estimate: Estimator)
    ensures var kept := AfterDrop([ASK, RESULT, CALL, RESULT], target, 4, estimate); kept != [] && kept[|kept| - 1] == RESULT
  {
    var w := [ASK, RESULT, CALL, RESULT];
    var k := DropsSomePrefix(w, target, 4, estimate);
    PairOrNothing(k);
    EndsInResult(Positions(Droppable(w, 4), k));
  }

  /**
   Neither intact nor one result per id: the result that makes up the tail can be dropped, and the equal one in
   front of it, which never had a call, then stands in its place.
   */
  lemma OrphanCanStandIn(target: int, estimate: Estimator)
    ensures var w, s := [ASK, ASK, RESULT, CALL, RESULT], Plain(1, 0, EVEN);
      Exposed(w, s, 4) && SameTail(w, Reduced(w, With(s, target, estimate)), 1)
  {
    var w, s := [ASK, ASK, RESULT, CALL, RESULT], Plain(1, 0, EVEN);
    LastIsExposed();
    FourStay();
    ReducedWith(w, s, target, estimate);
    StillEndsInResult(target, estimate);
    SameLast(w, Reduced(w, With(s, target, estimate)));
  }
}
