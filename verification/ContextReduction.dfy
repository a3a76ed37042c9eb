/**
 Cheap reduction of a context before compaction: offload old tool results, prune middle messages, then
 drop the oldest call/result pairs until a token target is met.
 */
module ContextReduction {
  import opened Options
  import opened ContextItems

  const DEFAULT_OFFLOAD_THRESHOLD: nat := 2048
  const DEFAULT_PRESERVE_RECENT: nat := 4

  datatype Settings = Settings(
    estimate: Estimator,
    makeRefId: (Item, nat) -> string,
    offloadThreshold: nat,
    preserveRecent: nat,
    headChars: nat,
    tailChars: nat,
    targetTokens: Option<int>)

  function Defaults(makeRefId: (Item, nat) -> string, targetTokens: Option<int>): Settings {
    Settings(DefaultEstimate, makeRefId, DEFAULT_OFFLOAD_THRESHOLD, DEFAULT_PRESERVE_RECENT, DEFAULT_HEAD, DEFAULT_TAIL,
             targetTokens)
  }

  datatype Reduction = Reduction(
    items: seq<Item>,
    refs: seq<ContextRef>,
    prunedCount: nat,
    droppedPairs: nat,
    tokensBefore: nat,
    tokensAfter: nat,
    pairingIntact: bool)

  // ----- pairing ---------------------------------------------------------------------------------------

  predicate IsCall(item: Item, id: string) { item.FunctionCall? && item.callId == id }
  predicate IsResult(item: Item, id: string) { item.FunctionOutput? && item.callId == id }

  predicate HasCall(items: seq<Item>, id: string) {
    exists i :: 0 <= i < |items| && IsCall(items[i], id)
  }

  /** Every result comes after a call with its id. */
  predicate Intact(items: seq<Item>) {
    forall i :: 0 <= i < |items| && items[i].FunctionOutput? ==> HasCall(items[..i], items[i].callId)
  }

  method CheckPairing(items: seq<Item>) returns (intact: bool)
    ensures intact == Intact(items)
  {
    var seenCalls: set<string> := {};
    for i := 0 to |items|
      invariant forall id :: id in seenCalls <==> HasCall(items[..i], id)
      invariant forall k :: 0 <= k < i && items[k].FunctionOutput? ==> HasCall(items[..k], items[k].callId)
    {
      forall id ensures HasCall(items[..i + 1], id) <==> HasCall(items[..i], id) || IsCall(items[i], id) {
        HasCallExtend(items[..i], items[i], id);
        assert items[..i] + [items[i]] == items[..i + 1];
      }
      if items[i].FunctionCall? {
        seenCalls := seenCalls + {items[i].callId};
      } else if items[i].FunctionOutput? && items[i].callId !in seenCalls {
        return false;
      }
    }
    return true;
  }

  lemma HasCallExtend(items: seq<Item>, item: Item, id: string)
    ensures HasCall(items + [item], id) <==> HasCall(items, id) || IsCall(item, id)
  {
    var all := items + [item];
    if HasCall(items, id) {
      var i :| 0 <= i < |items| && IsCall(items[i], id);
      assert IsCall(all[i], id);
    }
    if IsCall(item, id) { assert IsCall(all[|items|], id); }
  }

  lemma IntactExtend(items: seq<Item>, item: Item)
    ensures Intact(items + [item]) <==> Intact(items) && (item.FunctionOutput? ==> HasCall(items, item.callId))
  {
    var all := items + [item];
    assert all[..|items|] == items;
    forall i | 0 <= i < |items| ensures all[..i] == items[..i] && all[i] == items[i] { }
    if Intact(all) {
      forall i | 0 <= i < |items| && items[i].FunctionOutput? ensures HasCall(items[..i], items[i].callId) {
        assert HasCall(all[..i], all[i].callId);
      }
      if item.FunctionOutput? { assert HasCall(all[..|items|], all[|items|].callId); }
    }
  }

  // ----- keeping some positions --------------------------------------------------------------------------

  /** The items at the positions that are not dropped. */
  function Surviving(items: seq<Item>, drop: set<nat>): seq<Item> {
    if items == [] then []
    else
      var n := |items| - 1;
      Surviving(items[..n], drop) + (if n in drop then [] else [items[n]])
  }

  lemma {:induction false} SurvivingHas(items: seq<Item>, drop: set<nat>, i: nat)
    requires i < |items| && i !in drop
    ensures items[i] in Surviving(items, drop)
  {
    var n := |items| - 1;
    if i < n { SurvivingHas(items[..n], drop, i); }
  }

  lemma {:induction false} SurvivingOnly(items: seq<Item>, drop: set<nat>, x: Item) returns (i: nat)
    requires x in Surviving(items, drop)
    ensures i < |items| && i !in drop && items[i] == x
  {
    var n := |items| - 1;
    if x in Surviving(items[..n], drop) { i := SurvivingOnly(items[..n], drop, x); } else { i := n; }
  }

  /** A result that stays while some earlier call with its id stays too: that is all pairing needs. */
  lemma {:induction false} SurvivingIntact(items: seq<Item>, drop: set<nat>)
    requires forall i :: 0 <= i < |items| && i !in drop && items[i].FunctionOutput? ==> Answered(items, drop, i)
    ensures Intact(Surviving(items, drop))
  {
    if items != [] {
      var n := |items| - 1;
      var front := items[..n];
      forall i | 0 <= i < n && i !in drop && front[i].FunctionOutput? ensures Answered(front, drop, i) {
        assert Answered(items, drop, i);
        var j :| 0 <= j < i && j !in drop && IsCall(items[j], items[i].callId);
        assert IsCall(front[j], front[i].callId);
      }
      SurvivingIntact(front, drop);
      assert n in drop ==> Surviving(items, drop) == Surviving(front, drop);
      if n !in drop {
        IntactExtend(Surviving(front, drop), items[n]);
        if items[n].FunctionOutput? {
          assert Answered(items, drop, n);
          var j :| 0 <= j < n && j !in drop && IsCall(items[j], items[n].callId);
          SurvivingHas(front, drop, j);
        }
      }
    }
  }

  /** Position `i` has an earlier, surviving call with its id. */
  predicate Answered(items: seq<Item>, drop: set<nat>, i: nat)
    requires i < |items| && items[i].FunctionOutput?
  {
    exists j :: 0 <= j < i && j !in drop && IsCall(items[j], items[i].callId)
  }

  lemma {:induction false} SurvivingIsCheaper(items: seq<Item>, drop: set<nat>, estimate: Estimator)
    ensures Estimate(Surviving(items, drop), estimate) <= Estimate(items, estimate)
  {
    if items != [] {
      var n := |items| - 1;
      SurvivingIsCheaper(items[..n], drop, estimate);
      var kept := Surviving(items[..n], drop);
      assert n in drop ==> Surviving(items, drop) == kept;
      assert n !in drop ==> (kept + [items[n]])[..|kept|] == kept;
    }
  }

  /** What is above every dropped position stays as a suffix. */
  lemma {:induction false} SurvivingSuffix(items: seq<Item>, drop: set<nat>, from: nat)
    requires from <= |items| && forall d :: d in drop ==> d < from
    ensures Surviving(items, drop) == Surviving(items[..from], drop) + items[from..]
  {
    if from == |items| {
      assert items[..from] == items;
    } else {
      var n := |items| - 1;
      SurvivingSuffix(items[..n], drop, from);
      assert items[..n][..from] == items[..from] && items[..n][from..] + [items[n]] == items[from..];
    }
  }

  // ----- offloading and pruning ----------------------------------------------------------------------------

  function RecentStart(items: seq<Item>, s: Settings): nat {
    Max(0, |items| - s.preserveRecent)
  }

  predicate Offloads(items: seq<Item>, s: Settings, i: nat)
    requires i < |items|
  {
    i < RecentStart(items, s) && items[i].FunctionOutput? && |items[i].output| > s.offloadThreshold
  }

  function RefFor(items: seq<Item>, s: Settings, i: nat): ContextRef
    requires i < |items| && items[i].FunctionOutput?
  {
    MakeRef(s.makeRefId(items[i], i), items[i].output, s.headChars, s.tailChars, s.estimate)
  }

  function OffloadItem(items: seq<Item>, s: Settings, i: nat): Item
    requires i < |items|
  {
    if Offloads(items, s, i) then items[i].(output := Render(RefFor(items, s, i))) else items[i]
  }

  function Offloaded(items: seq<Item>, s: Settings): seq<Item> {
    seq(|items|, i requires 0 <= i < |items| => OffloadItem(items, s, i))
  }

  function RefsUpTo(items: seq<Item>, s: Settings, n: nat): seq<ContextRef>
    requires n <= |items|
  {
    if n == 0 then []
    else RefsUpTo(items, s, n - 1) + (if Offloads(items, s, n - 1) then [RefFor(items, s, n - 1)] else [])
  }

  function Middle(items: seq<Item>, recentStart: nat): set<nat> {
    set i: nat | i < |items| && 0 < i < recentStart && items[i].Message?
  }

  function Pruned(items: seq<Item>, s: Settings): seq<Item> {
    Surviving(Offloaded(items, s), Middle(items, RecentStart(items, s)))
  }

  // ----- pairs ---------------------------------------------------------------------------------------------

  datatype Pair = Pair(callId: string, callIndex: nat, outputIndex: nat)

  /** The position of the last call with this id; -1 when there is none. */
  function LastCall(items: seq<Item>, id: string): (k: int)
    ensures -1 <= k < |items| && (k >= 0 ==> IsCall(items[k], id))
    ensures forall j :: k < j < |items| ==> !IsCall(items[j], id)
  {
    if items == [] then -1
    else
      var n := |items| - 1;
      if IsCall(items[n], id) then n else LastCall(items[..n], id)
  }

  function PairsOf(items: seq<Item>): seq<Pair> {
    if items == [] then []
    else
      var n := |items| - 1;
      var item := items[n];
      PairsOf(items[..n]) +
      (if item.FunctionOutput? && LastCall(items[..n], item.callId) >= 0
       then [Pair(item.callId, LastCall(items[..n], item.callId), n)] else [])
  }

  predicate Before(p: Pair, recentStart: nat) {
    p.callIndex < recentStart && p.outputIndex < recentStart
  }

  function DroppableAmong(pairs: seq<Pair>, recentStart: nat): seq<Pair> {
    if pairs == [] then []
    else
      var n := |pairs| - 1;
      DroppableAmong(pairs[..n], recentStart) + (if Before(pairs[n], recentStart) then [pairs[n]] else [])
  }

  function Droppable(items: seq<Item>, recentStart: nat): seq<Pair> {
    DroppableAmong(PairsOf(items), recentStart)
  }

  /** The positions of the first `k` pairs. */
  function Positions(pairs: seq<Pair>, k: nat): set<nat>
    requires k <= |pairs|
  {
    if k == 0 then {} else Positions(pairs, k - 1) + {pairs[k - 1].callIndex, pairs[k - 1].outputIndex}
  }

  function Cost(items: seq<Item>, pairs: seq<Pair>, k: nat, estimate: Estimator): nat
    requires k <= |pairs|
  {
    Estimate(Surviving(items, Positions(pairs, k)), estimate)
  }

  /** The first `j` from `k` on whose cost is within the target; `n` when there is none before it. */
  function FirstWithin(cost: nat -> int, n: nat, target: int, k: nat): (r: nat)
    requires k <= n
    ensures k <= r <= n && (r == n || cost(r) <= target)
    ensures forall j :: k <= j < r ==> cost(j) > target
    decreases n - k
  {
    if k == n || cost(k) <= target then k else FirstWithin(cost, n, target, k + 1)
  }

  function CostAt(items: seq<Item>, pairs: seq<Pair>, estimate: Estimator): nat -> int {
    (k: nat) => if k <= |pairs| then Cost(items, pairs, k, estimate) else 0
  }

  /** The number of pairs dropped: the least that brings the cost down to the target, or all of them. */
  function DropCount(items: seq<Item>, pairs: seq<Pair>, target: int, estimate: Estimator): (n: nat)
    ensures n <= |pairs|
  {
    FirstWithin(CostAt(items, pairs, estimate), |pairs|, target, 0)
  }

  function DroppedPositions(items: seq<Item>, target: int, recentStart: nat, estimate: Estimator): set<nat> {
    var pairs := Droppable(items, recentStart);
    Positions(pairs, DropCount(items, pairs, target, estimate))
  }

  function AfterDrop(items: seq<Item>, target: int, recentStart: nat, estimate: Estimator): seq<Item> {
    Surviving(items, DroppedPositions(items, target, recentStart, estimate))
  }

  function Reduced(items: seq<Item>, s: Settings): seq<Item> {
    if s.targetTokens.None? then Pruned(items, s)
    else AfterDrop(Pruned(items, s), s.targetTokens.value, RecentStart(items, s), s.estimate)
  }

  // ----- the loops -------------------------------------------------------------------------------------------

  method Survivors(items: seq<Item>, drop: set<nat>) returns (out: seq<Item>)
    ensures out == Surviving(items, drop)
  {
    out := [];
    for i := 0 to |items|
      invariant out == Surviving(items[..i], drop)
    {
      assert items[..i + 1][..i] == items[..i];
      if i !in drop { out := out + [items[i]]; }
    }
    assert items[..|items|] == items;
  }

  method CompletePairs(items: seq<Item>) returns (pairs: seq<Pair>)
    ensures pairs == PairsOf(items)
  {
    var callIndex: map<string, nat> := map[];
    pairs := [];
    for i := 0 to |items|
      invariant pairs == PairsOf(items[..i])
      invariant forall id :: id in callIndex <==> LastCall(items[..i], id) >= 0
      invariant forall id :: id in callIndex ==> callIndex[id] == LastCall(items[..i], id)
    {
      assert items[..i + 1][..i] == items[..i];
      if items[i].FunctionCall? {
        callIndex := callIndex[items[i].callId := i];
      } else if items[i].FunctionOutput? && items[i].callId in callIndex {
        pairs := pairs + [Pair(items[i].callId, callIndex[items[i].callId], i)];
      }
    }
    assert items[..|items|] == items;
  }

  method DroppablePairs(items: seq<Item>, recentStart: nat) returns (pairs: seq<Pair>)
    ensures pairs == Droppable(items, recentStart)
  {
    var all := CompletePairs(items);
    pairs := [];
    for i := 0 to |all|
      invariant pairs == DroppableAmong(all[..i], recentStart)
    {
      assert all[..i + 1][..i] == all[..i];
      if Before(all[i], recentStart) { pairs := pairs + [all[i]]; }
    }
    assert all[..|all|] == all;
  }

  method CostOf(items: seq<Item>, remove: set<nat>, ghost pairs: seq<Pair>, ghost k: nat, estimate: Estimator) returns (cost: int)
    requires k <= |pairs| && remove == Positions(pairs, k)
    ensures cost == CostAt(items, pairs, estimate)(k)
  {
    var kept := Survivors(items, remove);
    cost := EstimateItems(kept, estimate);
  }

  /** One look of the loop: stop here, or go on with the next pair. */
  lemma StopOrGoOn(cost: nat -> int, n: nat, target: int, k: nat)
    requires k < n
    ensures FirstWithin(cost, n, target, k) == if cost(k) <= target then k else FirstWithin(cost, n, target, k + 1)
  {
  }

  /** Drop pairs from the front until what is left costs no more than the target, or none is left. */
  method DropWhileOver(items: seq<Item>, pairs: seq<Pair>, target: int, estimate: Estimator) returns (remove: set<nat>, dropped: nat)
    ensures dropped == DropCount(items, pairs, target, estimate) && remove == Positions(pairs, dropped)
  {
    remove, dropped := {}, 0;
    ghost var cost := CostAt(items, pairs, estimate);
    ghost var result := FirstWithin(cost, |pairs|, target, 0);
    while dropped < |pairs|
      invariant dropped <= |pairs| && remove == Positions(pairs, dropped)
      invariant FirstWithin(cost, |pairs|, target, dropped) == result
    {
      StopOrGoOn(cost, |pairs|, target, dropped);
      var now := CostOf(items, remove, pairs, dropped, estimate);
      if now <= target { return; }
      remove := remove + {pairs[dropped].callIndex, pairs[dropped].outputIndex};
      dropped := dropped + 1;
    }
  }

  method DropOldestPairsUntil(items: seq<Item>, target: int, recentStart: nat, estimate: Estimator)
    returns (out: seq<Item>, droppedPairs: nat)
    ensures out == AfterDrop(items, target, recentStart, estimate)
    ensures droppedPairs == DropCount(items, Droppable(items, recentStart), target, estimate)
  {
    var remove;
    var pairs := DroppablePairs(items, recentStart);
    remove, droppedPairs := DropWhileOver(items, pairs, target, estimate);
    out := Survivors(items, remove);
  }

  method OffloadOld(items: seq<Item>, s: Settings) returns (offloaded: seq<Item>, refs: seq<ContextRef>)
    ensures offloaded == Offloaded(items, s) && refs == RefsUpTo(items, s, |items|)
  {
    var recentStart := RecentStart(items, s);
    refs, offloaded := [], [];
    for i := 0 to |items|
      invariant |offloaded| == i && forall k :: 0 <= k < i ==> offloaded[k] == OffloadItem(items, s, k)
      invariant refs == RefsUpTo(items, s, i)
    {
      if i < recentStart && items[i].FunctionOutput? && |items[i].output| > s.offloadThreshold {
        var ref := MakeRef(s.makeRefId(items[i], i), items[i].output, s.headChars, s.tailChars, s.estimate);
        refs := refs + [ref];
        offloaded := offloaded + [items[i].(output := Render(ref))];
      } else {
        offloaded := offloaded + [items[i]];
      }
    }
  }

  method PruneMiddle(offloaded: seq<Item>, recentStart: nat) returns (pruned: seq<Item>, prunedCount: nat)
    ensures pruned == Surviving(offloaded, Middle(offloaded, recentStart))
    ensures prunedCount == |offloaded| - |pruned|
  {
    pruned, prunedCount := [], 0;
    for i := 0 to |offloaded|
      invariant pruned == Surviving(offloaded[..i], Middle(offloaded, recentStart))
      invariant |pruned| + prunedCount == i
    {
      assert offloaded[..i + 1][..i] == offloaded[..i];
      if 0 < i < recentStart && offloaded[i].Message? {
        prunedCount := prunedCount + 1;
      } else {
        pruned := pruned + [offloaded[i]];
      }
    }
    assert offloaded[..|offloaded|] == offloaded;
  }

  method ReduceContext(items: seq<Item>, s: Settings) returns (r: Reduction)
    ensures r.items == Reduced(items, s)
    ensures r.refs == RefsUpTo(items, s, |items|)
    ensures r.prunedCount == |items| - |Pruned(items, s)|
    ensures r.tokensBefore == Estimate(items, s.estimate) && r.tokensAfter == Estimate(r.items, s.estimate)
    ensures r.pairingIntact == Intact(r.items)
    ensures r.droppedPairs == if s.targetTokens.None? then 0 else
      DropCount(Pruned(items, s), Droppable(Pruned(items, s), RecentStart(items, s)), s.targetTokens.value, s.estimate)
  {
    var tokensBefore := EstimateItems(items, s.estimate);
    var recentStart := RecentStart(items, s);
    var offloaded, refs := OffloadOld(items, s);
    var pruned, prunedCount := PruneMiddle(offloaded, recentStart);
    assert Middle(offloaded, recentStart) == Middle(items, recentStart);
    var working, droppedPairs := pruned, 0;
    if s.targetTokens.Some? {
      working, droppedPairs := DropOldestPairsUntil(pruned, s.targetTokens.value, recentStart, s.estimate);
    }
    var tokensAfter := EstimateItems(working, s.estimate);
    var intact := CheckPairing(working);
    r := Reduction(working, refs, prunedCount, droppedPairs, tokensBefore, tokensAfter, intact);
  }
}
