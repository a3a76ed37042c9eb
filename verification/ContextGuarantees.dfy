/**
 What reduction promises: call/result pairing, an untouched recent tail, a shortest prefix of dropped
 pairs and no more tokens than before. When exactly the code keeps the tail and the pairing is in
 ContextDropping and ContextPairing.
 */
module ContextGuarantees {
  import opened Options
  import opened ContextItems
  import opened ContextReduction

  // ----- pairs -------------------------------------------------------------------------------------------

  /** A pair names a result and the last call with its id before it. */
  ghost predicate GoodPair(items: seq<Item>, p: Pair) {
    && p.callIndex < p.outputIndex < |items|
    && IsCall(items[p.callIndex], p.callId) && IsResult(items[p.outputIndex], p.callId)
    && (forall j :: p.callIndex < j < p.outputIndex ==> !IsCall(items[j], p.callId))
  }

  ghost predicate ByResult(pairs: seq<Pair>) {
    forall k, l :: 0 <= k < l < |pairs| ==> pairs[k].outputIndex < pairs[l].outputIndex
  }

  /** Pairs are good and come in the order of their results. */
  ghost predicate GoodPairs(items: seq<Item>, pairs: seq<Pair>) {
    (forall p :: p in pairs ==> GoodPair(items, p)) && ByResult(pairs)
  }

  lemma GoodPairExtends(items: seq<Item>, item: Item, p: Pair)
    requires GoodPair(items, p)
    ensures GoodPair(items + [item], p)
  {
    forall j | p.callIndex < j < p.outputIndex ensures !IsCall((items + [item])[j], p.callId) {
      assert !IsCall(items[j], p.callId);
    }
  }

  lemma {:induction false} PairsAreGood(items: seq<Item>)
    ensures GoodPairs(items, PairsOf(items))
  {
    if items != [] {
      var n := |items| - 1;
      var front := items[..n];
      PairsAreGood(front);
      assert front + [items[n]] == items;
      forall p | p in PairsOf(front) ensures GoodPair(items, p) && p.outputIndex < n { GoodPairExtends(front, items[n], p); }
      var c := if items[n].FunctionOutput? then LastCall(front, items[n].callId) else -1;
      if c >= 0 {
        assert IsCall(front[c], items[n].callId) && front[c] == items[c];
        forall j | c < j < n ensures !IsCall(items[j], items[n].callId) { assert front[j] == items[j]; }
        ByResultAppend(PairsOf(front), Pair(items[n].callId, c, n));
      } else {
        assert PairsOf(items) == PairsOf(front);
      }
    }
  }

  lemma ByResultAppend(pairs: seq<Pair>, p: Pair)
    requires ByResult(pairs) && forall q :: q in pairs ==> q.outputIndex < p.outputIndex
    ensures ByResult(pairs + [p])
  {
    forall k | 0 <= k < |pairs| ensures pairs[k].outputIndex < p.outputIndex { assert pairs[k] in pairs; }
  }

  lemma {:induction false} DroppableMembers(pairs: seq<Pair>, recentStart: nat, p: Pair)
    ensures p in DroppableAmong(pairs, recentStart) <==> p in pairs && Before(p, recentStart)
  {
    if pairs != [] {
      var n := |pairs| - 1;
      assert pairs == pairs[..n] + [pairs[n]];
      DroppableMembers(pairs[..n], recentStart, p);
    }
  }

  lemma {:induction false} DroppableByResult(pairs: seq<Pair>, recentStart: nat)
    requires ByResult(pairs)
    ensures ByResult(DroppableAmong(pairs, recentStart))
  {
    if pairs != [] {
      var n := |pairs| - 1;
      DroppableByResult(pairs[..n], recentStart);
      forall q | q in DroppableAmong(pairs[..n], recentStart) ensures q.outputIndex < pairs[n].outputIndex {
        DroppableMembers(pairs[..n], recentStart, q);
        var l :| 0 <= l < n && pairs[..n][l] == q;
        assert pairs[l] == q;
      }
      ByResultAppend(DroppableAmong(pairs[..n], recentStart), pairs[n]);
      assert !Before(pairs[n], recentStart) ==> DroppableAmong(pairs, recentStart) == DroppableAmong(pairs[..n], recentStart);
    }
  }

  lemma DroppableAreGood(items: seq<Item>, pairs: seq<Pair>, recentStart: nat)
    requires GoodPairs(items, pairs)
    ensures var d := DroppableAmong(pairs, recentStart);
      GoodPairs(items, d) && forall p :: p in d <==> p in pairs && Before(p, recentStart)
  {
    DroppableByResult(pairs, recentStart);
    forall p ensures p in DroppableAmong(pairs, recentStart) <==> p in pairs && Before(p, recentStart) {
      DroppableMembers(pairs, recentStart, p);
    }
  }

  /** The droppable pairs are good, and are exactly the pairs before the recent tail. */
  lemma DroppableFacts(items: seq<Item>, recentStart: nat)
    ensures var d := Droppable(items, recentStart);
      GoodPairs(items, d) && forall p :: p in d <==> p in PairsOf(items) && Before(p, recentStart)
  {
    PairsAreGood(items);
    DroppableAreGood(items, PairsOf(items), recentStart);
  }

  lemma LastIsPaired(front: seq<Item>, item: Item) returns (p: Pair)
    requires item.FunctionOutput? && HasCall(front, item.callId)
    ensures p in PairsOf(front + [item]) && p.outputIndex == |front| && p.callId == item.callId
  {
    var all := front + [item];
    p := Pair(item.callId, LastCall(front, item.callId), |front|);
    assert all[..|front|] == front;
    assert PairsOf(all) == PairsOf(front) + [p];
  }

  lemma PairsStay(items: seq<Item>, p: Pair)
    requires items != [] && p in PairsOf(items[..|items| - 1])
    ensures p in PairsOf(items)
  {
  }

  lemma {:induction false} PairOfPrefix(front: seq<Item>, items: seq<Item>, p: Pair)
    requires front <= items && p in PairsOf(front)
    ensures p in PairsOf(items)
    decreases |items|
  {
    if |front| < |items| {
      PairOfPrefix(front, items[..|items| - 1], p);
      PairsStay(items, p);
    } else {
      assert front == items;
    }
  }

  /** Every result that has an earlier call is in a pair. */
  lemma PairOf(items: seq<Item>, i: nat)
    requires i < |items| && items[i].FunctionOutput? && HasCall(items[..i], items[i].callId)
    ensures exists p :: p in PairsOf(items) && p.outputIndex == i && p.callId == items[i].callId
  {
    var p := LastIsPaired(items[..i], items[i]);
    PairOfPrefix(items[..i] + [items[i]], items, p);
  }

  lemma {:induction false} PositionsAre(pairs: seq<Pair>, k: nat)
    requires k <= |pairs|
    ensures forall i :: i in Positions(pairs, k) <==>
      exists l :: 0 <= l < k && (pairs[l].callIndex == i || pairs[l].outputIndex == i)
  {
    if k > 0 {
      PositionsAre(pairs, k - 1);
      forall i ensures i in Positions(pairs, k) <==>
        exists l :: 0 <= l < k && (pairs[l].callIndex == i || pairs[l].outputIndex == i)
      {
        if i == pairs[k - 1].callIndex || i == pairs[k - 1].outputIndex {
          assert pairs[k - 1].callIndex == i || pairs[k - 1].outputIndex == i;
        }
      }
    }
  }

  lemma DropStops(items: seq<Item>, pairs: seq<Pair>, target: int, estimate: Estimator)
    ensures var n := DropCount(items, pairs, target, estimate);
      && (n == |pairs| || Cost(items, pairs, n, estimate) <= target)
      && (forall j :: 0 <= j < n ==> Cost(items, pairs, j, estimate) > target)
  {
    var cost, n := CostAt(items, pairs, estimate), DropCount(items, pairs, target, estimate);
    assert cost(n) == Cost(items, pairs, n, estimate);
    forall j | 0 <= j < n ensures Cost(items, pairs, j, estimate) > target { assert cost(j) > target; }
  }

  /**
   Pair dropping removes a shortest prefix of the droppable pairs: the result is at or below the target or
   no droppable pair is left, and stopping anywhere earlier would have left it above the target.
   */
  lemma DropsShortestPrefix(items: seq<Item>, target: int, recentStart: nat, estimate: Estimator)
    ensures var pairs := Droppable(items, recentStart);
      var n := DropCount(items, pairs, target, estimate);
      && AfterDrop(items, target, recentStart, estimate) == Surviving(items, Positions(pairs, n))
      && (Estimate(AfterDrop(items, target, recentStart, estimate), estimate) <= target || n == |pairs|)
      && (forall j :: 0 <= j < n ==> Estimate(Surviving(items, Positions(pairs, j)), estimate) > target)
      && (forall p :: p in pairs <==> p in PairsOf(items) && Before(p, recentStart))
  {
    var pairs := Droppable(items, recentStart);
    DropStops(items, pairs, target, estimate);
    DroppableFacts(items, recentStart);
    forall j | 0 <= j < DropCount(items, pairs, target, estimate)
      ensures Estimate(Surviving(items, Positions(pairs, j)), estimate) > target
    {
      assert Cost(items, pairs, j, estimate) > target;
    }
  }

  // ----- pairing -----------------------------------------------------------------------------------------

  /** No droppable call has a second result. */
  ghost predicate SingleResults(items: seq<Item>, recentStart: nat) {
    forall p, i :: p in Droppable(items, recentStart) && 0 <= i < |items| && IsResult(items[i], p.callId)
      ==> i == p.outputIndex
  }

  ghost predicate CallsAreUnique(items: seq<Item>) {
    forall i, j :: 0 <= i < j < |items| && items[i].FunctionCall? && items[j].FunctionCall? ==> items[i].callId != items[j].callId
  }

  /** A dropped position is the call or the result of a dropped pair. */
  lemma DroppedPair(items: seq<Item>, recentStart: nat, k: nat, i: nat) returns (l: nat)
    requires k <= |Droppable(items, recentStart)| && i in Positions(Droppable(items, recentStart), k)
    ensures var pairs := Droppable(items, recentStart);
      && l < k && pairs[l] in pairs && GoodPair(items, pairs[l])
      && pairs[l].outputIndex in Positions(pairs, k)
      && (if i < |items| && items[i].FunctionCall? then pairs[l].callIndex == i && IsCall(items[i], pairs[l].callId)
          else pairs[l].outputIndex == i)
  {
    var pairs := Droppable(items, recentStart);
    DroppableFacts(items, recentStart);
    PositionsAre(pairs, k);
    l :| 0 <= l < k && (pairs[l].callIndex == i || pairs[l].outputIndex == i);
    assert pairs[l] in pairs;
    assert pairs[l].outputIndex in Positions(pairs, k);
  }

  lemma PrefixDropKeepsPairing(items: seq<Item>, recentStart: nat, k: nat)
    requires Intact(items) && SingleResults(items, recentStart) && k <= |Droppable(items, recentStart)|
    ensures Intact(Surviving(items, Positions(Droppable(items, recentStart), k)))
  {
    var drop := Positions(Droppable(items, recentStart), k);
    forall i | 0 <= i < |items| && i !in drop && items[i].FunctionOutput? ensures Answered(items, drop, i) {
      assert HasCall(items[..i], items[i].callId);
      var j :| 0 <= j < i && IsCall(items[..i][j], items[i].callId);
      assert IsCall(items[j], items[i].callId);
      if j in drop { var l := DroppedPair(items, recentStart, k, j); }
    }
    SurvivingIntact(items, drop);
  }

  const EVEN: Estimator := _ => 1

  lemma {:induction false} EvenCost(items: seq<Item>)
    ensures Estimate(items, EVEN) == |items|
  {
    if items != [] { EvenCost(items[..|items| - 1]); }
  }

  lemma {:induction false} FewerSurvive(items: seq<Item>, small: set<nat>, large: set<nat>, i: nat)
    requires small <= large && i < |items| && i in large && i !in small
    ensures |Surviving(items, large)| < |Surviving(items, small)|
  {
    var n := |items| - 1;
    if i < n { FewerSurvive(items[..n], small, large, i); } else { NoMoreSurvive(items[..n], small, large); }
  }

  lemma {:induction false} NoMoreSurvive(items: seq<Item>, small: set<nat>, large: set<nat>)
    requires small <= large
    ensures |Surviving(items, large)| <= |Surviving(items, small)|
  {
    if items != [] { NoMoreSurvive(items[..|items| - 1], small, large); }
  }

  lemma {:induction false} PositionsGrow(pairs: seq<Pair>, j: nat, k: nat)
    requires j <= k <= |pairs|
    ensures Positions(pairs, j) <= Positions(pairs, k)
  {
    if j < k { PositionsGrow(pairs, j, k - 1); }
  }

  lemma NextResultGoes(items: seq<Item>, recentStart: nat, n: nat, k: nat)
    requires n < k <= |Droppable(items, recentStart)|
    ensures var pairs := Droppable(items, recentStart); var i := pairs[n].outputIndex;
      i < |items| && i in Positions(pairs, k) && i !in Positions(pairs, n) && Positions(pairs, n) <= Positions(pairs, k)
  {
    var pairs := Droppable(items, recentStart);
    DroppableFacts(items, recentStart);
    PositionsGrow(pairs, n, k);
    PositionsGrow(pairs, n + 1, k);
    assert pairs[n] in pairs;
    var i := pairs[n].outputIndex;
    if i in Positions(pairs, n) { var l := DroppedPair(items, recentStart, n, i); }
  }

  lemma EachPairCounts(items: seq<Item>, recentStart: nat, n: nat, k: nat)
    requires n < k <= |Droppable(items, recentStart)|
    ensures var pairs := Droppable(items, recentStart);
      Cost(items, pairs, k, EVEN) < Cost(items, pairs, n, EVEN)
  {
    var pairs := Droppable(items, recentStart);
    NextResultGoes(items, recentStart, n, k);
    FewerSurvive(items, Positions(pairs, n), Positions(pairs, k), pairs[n].outputIndex);
    EvenCost(Surviving(items, Positions(pairs, n)));
    EvenCost(Surviving(items, Positions(pairs, k)));
  }

  /** Some target makes the loop stop after exactly `k` pairs. */
  lemma SomeTargetStopsAt(items: seq<Item>, recentStart: nat, k: nat)
    requires k <= |Droppable(items, recentStart)|
    ensures var target := Cost(items, Droppable(items, recentStart), k, EVEN);
      DropCount(items, Droppable(items, recentStart), target, EVEN) == k
  {
    var pairs := Droppable(items, recentStart);
    var target := Cost(items, pairs, k, EVEN);
    DropStops(items, pairs, target, EVEN);
    var n := DropCount(items, pairs, target, EVEN);
    if n < k { EachPairCounts(items, recentStart, n, k); }
  }

  lemma OffloadedKeepsPairing(items: seq<Item>, s: Settings)
    requires Intact(items)
    ensures Intact(Offloaded(items, s))
  {
    var after := Offloaded(items, s);
    forall i | 0 <= i < |after| && after[i].FunctionOutput? ensures HasCall(after[..i], after[i].callId) {
      assert HasCall(items[..i], items[i].callId);
      var j :| 0 <= j < i && IsCall(items[..i][j], items[i].callId);
      assert IsCall(after[..i][j], after[i].callId);
    }
  }

  /** Offloading and pruning keep pairing, whether or not call ids repeat. */
  lemma PruningKeepsPairing(items: seq<Item>, s: Settings)
    requires Intact(items)
    ensures Intact(Pruned(items, s))
  {
    var after, drop := Offloaded(items, s), Middle(items, RecentStart(items, s));
    OffloadedKeepsPairing(items, s);
    forall i | 0 <= i < |after| && i !in drop && after[i].FunctionOutput? ensures Answered(after, drop, i) {
      assert HasCall(after[..i], after[i].callId);
      var j :| 0 <= j < i && IsCall(after[..i][j], after[i].callId);
      assert IsCall(after[j], after[i].callId);
    }
    SurvivingIntact(after, drop);
  }

  /** No call id has two results. */
  ghost predicate OneResultPerId(items: seq<Item>) {
    forall i, j :: 0 <= i < j < |items| && items[i].FunctionOutput? && items[j].FunctionOutput? ==> items[i].callId != items[j].callId
  }

  lemma {:induction false} SurvivingResultsStaySingle(items: seq<Item>, drop: set<nat>)
    requires OneResultPerId(items)
    ensures OneResultPerId(Surviving(items, drop))
  {
    if items != [] {
      var n := |items| - 1;
      SurvivingResultsStaySingle(items[..n], drop);
      var front := Surviving(items[..n], drop);
      forall i | 0 <= i < |front| && front[i].FunctionOutput? && items[n].FunctionOutput?
        ensures front[i].callId != items[n].callId
      {
        assert front[i] in front;
        var k := SurvivingOnly(items[..n], drop, front[i]);
      }
    }
  }

  /**
   The invariant that dominates the module: reduction never orphans a result, for every threshold, preview
   size, estimator and target, on every intact transcript in which no call id has two results; without a
   target also when ids repeat.
   */
  lemma ReductionKeepsPairing(items: seq<Item>, s: Settings)
    requires Intact(items) && (s.targetTokens.Some? ==> OneResultPerId(items))
    ensures Intact(Reduced(items, s))
  {
    PruningKeepsPairing(items, s);
    if s.targetTokens.Some? {
      var pruned, recentStart := Pruned(items, s), RecentStart(items, s);
      assert OneResultPerId(Offloaded(items, s));
      SurvivingResultsStaySingle(Offloaded(items, s), Middle(items, recentStart));
      DroppableFacts(pruned, recentStart);
      forall p, i | p in Droppable(pruned, recentStart) && 0 <= i < |pruned| && IsResult(pruned[i], p.callId)
        ensures i == p.outputIndex
      {
        var k :| 0 <= k < |Droppable(pruned, recentStart)| && Droppable(pruned, recentStart)[k] == p;
        assert IsResult(pruned[p.outputIndex], p.callId);
      }
      PrefixDropKeepsPairing(pruned, recentStart,
        DropCount(pruned, Droppable(pruned, recentStart), s.targetTokens.value, s.estimate));
    }
  }

  // ----- the recent tail -----------------------------------------------------------------------------------

  /** The last `k` items of `after` are the last `k` items of `before`. */
  ghost predicate SameTail(before: seq<Item>, after: seq<Item>, k: nat) {
    k <= |before| && k <= |after| && after[|after| - k..] == before[|before| - k..]
  }

  lemma PruningKeepsTail(items: seq<Item>, s: Settings)
    ensures SameTail(items, Pruned(items, s), |items| - RecentStart(items, s))
  {
    var recentStart, after := RecentStart(items, s), Offloaded(items, s);
    SurvivingSuffix(after, Middle(items, recentStart), recentStart);
    assert after[recentStart..] == items[recentStart..];
  }

  /**
   Without a target the last `preserveRecent` items come through unchanged. With a target only as many as
   are left of them after taking off one for every pruned message, because the tail is measured before
   pruning and looked up after it.
   */
  lemma RecentTailIsUntouched(items: seq<Item>, s: Settings)
    ensures s.targetTokens.None? ==> SameTail(items, Reduced(items, s), Min(|items|, s.preserveRecent))
    ensures SameTail(items, Reduced(items, s), Max(0, |Pruned(items, s)| - RecentStart(items, s)))
  {
    PruningKeepsTail(items, s);
    if s.targetTokens.Some? { DroppingLeavesTail(items, s); } else { PruningLeavesTail(items, s); }
  }

  lemma PruningLeavesTail(items: seq<Item>, s: Settings)
    requires SameTail(items, Pruned(items, s), |items| - RecentStart(items, s))
    ensures SameTail(items, Pruned(items, s), Max(0, |Pruned(items, s)| - RecentStart(items, s)))
  {
    PrunedIsShorter(items, s);
    ShorterTail(items, Pruned(items, s), |items| - RecentStart(items, s), Max(0, |Pruned(items, s)| - RecentStart(items, s)));
  }

  lemma DroppingLeavesTail(items: seq<Item>, s: Settings)
    requires s.targetTokens.Some? && SameTail(items, Pruned(items, s), |items| - RecentStart(items, s))
    ensures SameTail(items, AfterDrop(Pruned(items, s), s.targetTokens.value, RecentStart(items, s), s.estimate),
                     Max(0, |Pruned(items, s)| - RecentStart(items, s)))
  {
    PrunedIsShorter(items, s);
    DroppingKeepsTail(Pruned(items, s), s.targetTokens.value, RecentStart(items, s), s.estimate);
    TailsCompose(items, Pruned(items, s), AfterDrop(Pruned(items, s), s.targetTokens.value, RecentStart(items, s), s.estimate),
                 |items| - RecentStart(items, s), Max(0, |Pruned(items, s)| - RecentStart(items, s)));
  }

  lemma PrunedIsShorter(items: seq<Item>, s: Settings)
    ensures |Pruned(items, s)| <= |items|
  {
    NoMoreSurviveThan(Offloaded(items, s), Middle(items, RecentStart(items, s)));
  }

  lemma DroppingKeepsTail(pruned: seq<Item>, target: int, recentStart: nat, estimate: Estimator)
    ensures SameTail(pruned, AfterDrop(pruned, target, recentStart, estimate), Max(0, |pruned| - recentStart))
  {
    if recentStart <= |pruned| {
      var pairs := Droppable(pruned, recentStart);
      var n := DropCount(pruned, pairs, target, estimate);
      DropsBelow(pruned, recentStart, n);
      SurvivingSuffix(pruned, Positions(pairs, n), recentStart);
    }
  }

  lemma ShorterTail(a: seq<Item>, b: seq<Item>, long: nat, short: nat)
    requires SameTail(a, b, long) && short <= long
    ensures SameTail(a, b, short)
  {
    assert a[|a| - short..] == a[|a| - long..][long - short..] && b[|b| - short..] == b[|b| - long..][long - short..];
  }

  lemma TailsCompose(a: seq<Item>, b: seq<Item>, c: seq<Item>, long: nat, short: nat)
    requires SameTail(a, b, long) && SameTail(b, c, short) && short <= long
    ensures SameTail(a, c, short)
  {
    ShorterTail(a, b, long, short);
  }

  lemma {:induction false} NoMoreSurviveThan(items: seq<Item>, drop: set<nat>)
    ensures |Surviving(items, drop)| <= |items|
  {
    if items != [] { NoMoreSurviveThan(items[..|items| - 1], drop); }
  }

  lemma DropsBelow(items: seq<Item>, recentStart: nat, n: nat)
    requires n <= |Droppable(items, recentStart)|
    ensures forall d :: d in Positions(Droppable(items, recentStart), n) ==> d < recentStart
  {
    var pairs := Droppable(items, recentStart);
    DroppableFacts(items, recentStart);
    PositionsAre(pairs, n);
    forall d | d in Positions(pairs, n) ensures d < recentStart {
      var l :| 0 <= l < n && (pairs[l].callIndex == d || pairs[l].outputIndex == d);
      assert pairs[l] in pairs && Before(pairs[l], recentStart);
    }
  }

  /**
   When dropping stays clear of a tail that begins at position `from`: for every target and estimator, if
   and only if every droppable pair has its result before `from`. After pruning, `from` is smaller than the
   index the code compares with by the number of pruned messages.
   */
  lemma DroppingSparesTailExactlyWhen(items: seq<Item>, recentStart: nat, from: nat)
    ensures (forall target: int, estimate: Estimator ::
               forall d :: d in DroppedPositions(items, target, recentStart, estimate) ==> d < from)
      <==> (forall p :: p in Droppable(items, recentStart) ==> p.outputIndex < from)
  {
    var pairs := Droppable(items, recentStart);
    DroppableFacts(items, recentStart);
    if forall p :: p in pairs ==> p.outputIndex < from {
      forall target: int, estimate: Estimator, d | d in DroppedPositions(items, target, recentStart, estimate)
        ensures d < from
      {
        var n := DropCount(items, pairs, target, estimate);
        PositionsAre(pairs, n);
        var l :| 0 <= l < n && (pairs[l].callIndex == d || pairs[l].outputIndex == d);
        assert pairs[l] in pairs;
      }
    } else {
      var p :| p in pairs && p.outputIndex >= from;
      var l :| 0 <= l < |pairs| && pairs[l] == p;
      SomeTargetStopsAt(items, recentStart, |pairs|);
      PositionsAre(pairs, |pairs|);
      assert p.outputIndex in DroppedPositions(items, Cost(items, pairs, |pairs|, EVEN), recentStart, EVEN);
    }
  }

  const ASK := Message("user", "q")
  const CALL := FunctionCall("a", "t", "")
  const RESULT := FunctionOutput("a", "t", "")

  function Plain(preserveRecent: nat, target: int, estimate: Estimator): Settings {
    Settings(estimate, (item, i) => "", 0, preserveRecent, 0, 0, Some(target))
  }

  /**
   The code and its comment part ways here: with two messages pruned from the middle, the pair that makes
   up the whole preserved tail of two is dropped.
   */
  lemma RecentPairCanBeDropped()
    ensures Reduced([ASK, ASK, ASK, CALL, RESULT], Plain(2, 0, EVEN)) == [ASK]
  {
    var items, s := [ASK, ASK, ASK, CALL, RESULT], Plain(2, 0, EVEN);
    NothingOffloaded(items, s);
    TwoArePruned();
    ThePairIsDropped();
  }

  lemma NothingOffloaded(items: seq<Item>, s: Settings)
    requires forall i :: 0 <= i < |items| ==> !Offloads(items, s, i)
    ensures Offloaded(items, s) == items
  {
  }

  lemma TwoArePruned()
    ensures Surviving([ASK, ASK, ASK, CALL, RESULT], Middle([ASK, ASK, ASK, CALL, RESULT], 3)) == [ASK, CALL, RESULT]
  {
    var m := Middle([ASK, ASK, ASK, CALL, RESULT], 3);
    assert 0 !in m && 1 in m && 2 in m && 3 !in m && 4 !in m;
    WithoutTwo(ASK, ASK, ASK, CALL, RESULT, m);
  }

  lemma WithoutTwo(a: Item, b: Item, c: Item, d: Item, e: Item, drop: set<nat>)
    requires 0 !in drop && 1 in drop && 2 in drop && 3 !in drop && 4 !in drop
    ensures Surviving([a, b, c, d, e], drop) == [a, d, e]
  {
    assert [] + [a] == [a] && [a] + [b] == [a, b] && [a, b] + [c] == [a, b, c];
    assert [a, b, c] + [d] == [a, b, c, d] && [a, b, c, d] + [e] == [a, b, c, d, e];
    SurvivingAppend([], a, drop);
    SurvivingAppend([a], b, drop);
    SurvivingAppend([a, b], c, drop);
    SurvivingAppend([a, b, c], d, drop);
    SurvivingAppend([a, b, c, d], e, drop);
  }

  lemma SurvivingAppend(items: seq<Item>, last: Item, drop: set<nat>)
    ensures Surviving(items + [last], drop) == Surviving(items, drop) + if |items| in drop then [] else [last]
  {
    assert (items + [last])[..|items|] == items;
  }

  lemma ThePairIsDropped()
    ensures AfterDrop([ASK, CALL, RESULT], 0, 3, EVEN) == [ASK]
  {
    var w := [ASK, CALL, RESULT];
    OnePair(3);
    var pairs := Droppable(w, 3);
    DropStops(w, pairs, 0, EVEN);
    EvenCost(Surviving(w, Positions(pairs, 0)));
    assert Positions(pairs, 0) == {} && Positions(pairs, 1) == {1, 2};
    SurvivorsOfThree({});
    SurvivorsOfThree({1, 2});
    assert Cost(w, pairs, 0, EVEN) == 3;
  }

  lemma PairsOfThree()
    ensures PairsOf([ASK, CALL, RESULT]) == [Pair("a", 1, 2)]
  {
    var w := [ASK, CALL, RESULT];
    assert w[..2] == [ASK, CALL] && [ASK, CALL][..1] == [ASK] && [ASK][..0] == [];
    assert PairsOf([ASK]) == [] && PairsOf([ASK, CALL]) == [];
    assert LastCall([ASK, CALL], "a") == 1;
  }

  lemma OnePair(recentStart: nat)
    requires recentStart >= 3
    ensures Droppable([ASK, CALL, RESULT], recentStart) == [Pair("a", 1, 2)]
  {
    PairsOfThree();
    assert [Pair("a", 1, 2)][..0] == [];
    assert DroppableAmong([], recentStart) == [];
  }

  lemma SurvivorsOfThree(drop: set<nat>)
    requires drop == {} || drop == {1, 2}
    ensures Surviving([ASK, CALL, RESULT], drop) == if drop == {} then [ASK, CALL, RESULT] else [ASK]
  {
    var w := [ASK, CALL, RESULT];
    assert w[..2] == [ASK, CALL] && [ASK, CALL][..1] == [ASK] && [ASK][..0] == [];
    assert Surviving([ASK], drop) == [ASK];
    assert Surviving([ASK, CALL], drop) == if drop == {} then [ASK, CALL] else [ASK];
  }

  lemma {:induction false} NothingDropped(items: seq<Item>)
    ensures Surviving(items, {}) == items
  {
    if items != [] { NothingDropped(items[..|items| - 1]); }
  }

  // ----- tokens ----------------------------------------------------------------------------------------------

  /** Every result that is offloaded gets a reference that is no longer than the result. */
  ghost predicate OffloadsShrink(items: seq<Item>, s: Settings) {
    forall i :: 0 <= i < |items| && Offloads(items, s, i) ==> |Render(RefFor(items, s, i))| <= |items[i].output|
  }

  lemma {:induction false} PointwiseCheaper(a: seq<Item>, b: seq<Item>, estimate: Estimator)
    requires |a| == |b| && forall i :: 0 <= i < |a| ==> estimate(Serialize(a[i])) <= estimate(Serialize(b[i]))
    ensures Estimate(a, estimate) <= Estimate(b, estimate)
    decreases |a|
  {
    if a != [] { PointwiseCheaper(a[..|a| - 1], b[..|b| - 1], estimate); }
  }

  lemma OffloadingIsCheaper(items: seq<Item>, s: Settings)
    requires s.estimate == DefaultEstimate && OffloadsShrink(items, s)
    ensures Estimate(Offloaded(items, s), s.estimate) <= Estimate(items, s.estimate)
  {
    forall i | 0 <= i < |items| ensures s.estimate(Serialize(Offloaded(items, s)[i])) <= s.estimate(Serialize(items[i])) {
      OneItemIsCheaper(items, s, i);
    }
    PointwiseCheaper(Offloaded(items, s), items, s.estimate);
  }

  lemma OneItemIsCheaper(items: seq<Item>, s: Settings, i: nat)
    requires s.estimate == DefaultEstimate && OffloadsShrink(items, s) && i < |items|
    ensures s.estimate(Serialize(Offloaded(items, s)[i])) <= s.estimate(Serialize(items[i]))
  {
    ShorterIsCheaper(Serialize(Offloaded(items, s)[i]), Serialize(items[i]));
  }

  /** The estimate never grows when every reference fits into the result it stands for. */
  lemma ReductionNeverCostsMore(items: seq<Item>, s: Settings)
    requires s.estimate == DefaultEstimate && OffloadsShrink(items, s)
    ensures Estimate(Reduced(items, s), s.estimate) <= Estimate(items, s.estimate)
  {
    OffloadingIsCheaper(items, s);
    SurvivingIsCheaper(Offloaded(items, s), Middle(items, RecentStart(items, s)), s.estimate);
    if s.targetTokens.Some? {
      SurvivingIsCheaper(Pruned(items, s),
        DroppedPositions(Pruned(items, s), s.targetTokens.value, RecentStart(items, s), s.estimate), s.estimate);
    }
  }

  /** With every default, reference ids of at most 512 characters are short enough. */
  lemma DefaultsNeverCostMore(items: seq<Item>, makeRefId: (Item, nat) -> string, targetTokens: Option<int>)
    requires forall i :: 0 <= i < |items| ==> |makeRefId(items[i], i)| <= 512
    ensures var s := Defaults(makeRefId, targetTokens);
      Estimate(Reduced(items, s), s.estimate) <= Estimate(items, s.estimate)
  {
    var s := Defaults(makeRefId, targetTokens);
    forall i | 0 <= i < |items| && Offloads(items, s, i) ensures |Render(RefFor(items, s, i))| <= |items[i].output| {
      LongTextsShrink(makeRefId(items[i], i), items[i].output, DEFAULT_HEAD, DEFAULT_TAIL, s.estimate, s.offloadThreshold);
    }
    ReductionNeverCostsMore(items, s);
  }
}
