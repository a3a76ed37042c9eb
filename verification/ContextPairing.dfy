/**
 When dropping keeps every result behind a call: exactly, for every transcript, reused call ids and repeated
 results included, and over the transcript that was handed in.
 */
module ContextPairing {
  import opened Options
  import opened ContextItems
  import opened ContextReduction
  import opened ContextGuarantees
  import opened ContextDropping

  // ----- keepers ----------------------------------------------------------------------------------------------

  /** The call at `i` is there for the result at `j`, whatever is dropped: none of its answers before `j` may go. */
  ghost predicate Keeps(items: seq<Item>, recentStart: nat, i: nat, j: nat) {
    && i < j < |items| && items[j].FunctionOutput? && IsCall(items[i], items[j].callId)
    && forall m: nat :: m < j ==> !MayDrop(items, recentStart, i, m)
  }

  ghost predicate HasKeeper(items: seq<Item>, recentStart: nat, j: nat) {
    exists i: nat :: Keeps(items, recentStart, i, j)
  }

  /** Every result has a call that stays at least as long as it does. */
  ghost predicate AllKept(items: seq<Item>, recentStart: nat) {
    forall j: nat :: j < |items| && items[j].FunctionOutput? ==> HasKeeper(items, recentStart, j)
  }

  /** A keeper goes only together with its result. */
  lemma KeeperStays(items: seq<Item>, recentStart: nat, k: nat, i: nat, j: nat)
    requires k <= |Droppable(items, recentStart)| && Keeps(items, recentStart, i, j)
    requires j !in Positions(Droppable(items, recentStart), k)
    ensures i !in Positions(Droppable(items, recentStart), k)
  {
    var pairs := Droppable(items, recentStart);
    if i in Positions(pairs, k) {
      var l := DroppedPair(items, recentStart, k, i);
      var m := pairs[l].outputIndex;
      DroppableFacts(items, recentStart);
      assert MayDrop(items, recentStart, i, m);
      assert MayDrop(items, recentStart, i, j);
      var n := MayDropIsAPair(items, recentStart, i, j);
      ResultDropped(items, recentStart, k, n);
    }
  }

  lemma KeptStaysIntact(items: seq<Item>, recentStart: nat, k: nat)
    requires AllKept(items, recentStart) && k <= |Droppable(items, recentStart)|
    ensures Intact(Surviving(items, Positions(Droppable(items, recentStart), k)))
  {
    var drop := Positions(Droppable(items, recentStart), k);
    forall j | 0 <= j < |items| && j !in drop && items[j].FunctionOutput? ensures Answered(items, drop, j) {
      assert HasKeeper(items, recentStart, j);
      var i: nat :| Keeps(items, recentStart, i, j);
      KeeperStays(items, recentStart, k, i, j);
    }
    SurvivingIntact(items, drop);
  }

  /** What survives is intact only if each result that stays has an earlier call that stays. */
  lemma {:induction false} IntactIsAnswered(items: seq<Item>, drop: set<nat>, j: nat)
    requires Intact(Surviving(items, drop)) && j < |items| && j !in drop && items[j].FunctionOutput?
    ensures Answered(items, drop, j)
  {
    var n := |items| - 1;
    var front, kept := items[..n], Surviving(items[..n], drop);
    if n !in drop { IntactExtend(kept, items[n]); }
    if j < n {
      assert n in drop ==> Surviving(items, drop) == kept;
      IntactIsAnswered(front, drop, j);
      var i :| 0 <= i < j && i !in drop && IsCall(front[i], front[j].callId);
      assert IsCall(items[i], items[j].callId);
    } else {
      var c :| 0 <= c < |kept| && IsCall(kept[c], items[j].callId);
      var i := SurvivingOnly(front, drop, kept[c]);
      assert IsCall(items[i], items[j].callId);
    }
  }

  /** How many droppable pairs have their result before a position. */
  lemma PairsBefore(items: seq<Item>, recentStart: nat, j: nat) returns (k: nat)
    ensures k <= |Droppable(items, recentStart)|
    ensures forall l :: 0 <= l < |Droppable(items, recentStart)| ==>
      (l < k <==> Droppable(items, recentStart)[l].outputIndex < j)
  {
    var pairs := Droppable(items, recentStart);
    DroppableFacts(items, recentStart);
    k := 0;
    while k < |pairs| && pairs[k].outputIndex < j
      invariant k <= |pairs| && forall l :: 0 <= l < k ==> pairs[l].outputIndex < j
    {
      k := k + 1;
    }
  }

  /** A result without a keeper loses every call when all pairs before it go. */
  lemma UnkeptIsOrphaned(items: seq<Item>, recentStart: nat, j: nat) returns (k: nat)
    requires j < |items| && items[j].FunctionOutput? && !HasKeeper(items, recentStart, j)
    ensures k <= |Droppable(items, recentStart)|
    ensures !Intact(Surviving(items, Positions(Droppable(items, recentStart), k)))
  {
    k := PairsBefore(items, recentStart, j);
    var drop := Positions(Droppable(items, recentStart), k);
    forall i: nat | i < j && IsCall(items[i], items[j].callId) ensures i in drop {
      assert !Keeps(items, recentStart, i, j);
      var m: nat :| m < j && MayDrop(items, recentStart, i, m);
      CallGoes(items, recentStart, k, i, m);
    }
    ResultStays(items, recentStart, k, j);
    if Intact(Surviving(items, drop)) { IntactIsAnswered(items, drop, j); }
  }

  lemma CallGoes(items: seq<Item>, recentStart: nat, k: nat, i: nat, m: nat)
    requires k <= |Droppable(items, recentStart)| && MayDrop(items, recentStart, i, m)
    requires forall l :: 0 <= l < |Droppable(items, recentStart)| && Droppable(items, recentStart)[l].outputIndex == m ==> l < k
    ensures i in Positions(Droppable(items, recentStart), k)
  {
    var l := MayDropIsAPair(items, recentStart, i, m);
    PositionsAre(Droppable(items, recentStart), k);
  }

  lemma ResultStays(items: seq<Item>, recentStart: nat, k: nat, j: nat)
    requires k <= |Droppable(items, recentStart)| && j < |items| && items[j].FunctionOutput?
    requires forall l :: 0 <= l < k ==> Droppable(items, recentStart)[l].outputIndex < j
    ensures j !in Positions(Droppable(items, recentStart), k)
  {
    if j in Positions(Droppable(items, recentStart), k) { var l := DroppedPair(items, recentStart, k, j); }
  }

  /**
   When dropping keeps pairing, for every list of items: it does so for every target and estimator if and only if
   each result has an earlier call with its id none of whose own droppable answers comes before that result.
   */
  lemma PairingKeptExactlyWhen(items: seq<Item>, recentStart: nat)
    ensures (forall target: int, estimate: Estimator :: Intact(AfterDrop(items, target, recentStart, estimate)))
      <==> AllKept(items, recentStart)
  {
    var pairs := Droppable(items, recentStart);
    if AllKept(items, recentStart) {
      forall target: int, estimate: Estimator ensures Intact(AfterDrop(items, target, recentStart, estimate)) {
        var k := DropsSomePrefix(items, target, recentStart, estimate);
        KeptStaysIntact(items, recentStart, k);
      }
    } else {
      var j: nat :| j < |items| && items[j].FunctionOutput? && !HasKeeper(items, recentStart, j);
      var k := UnkeptIsOrphaned(items, recentStart, j);
      SomeTargetStopsAt(items, recentStart, k);
      assert !Intact(AfterDrop(items, Cost(items, pairs, k, EVEN), recentStart, EVEN));
    }
  }

  // ----- call ids that are not reused -----------------------------------------------------------------------------

  lemma SingleAreKept(items: seq<Item>, recentStart: nat)
    requires Intact(items) && CallsAreUnique(items) && SingleResults(items, recentStart)
    ensures AllKept(items, recentStart)
  {
    forall j: nat | j < |items| && items[j].FunctionOutput? ensures HasKeeper(items, recentStart, j) {
      assert HasCall(items[..j], items[j].callId);
      var i: nat :| i < j && IsCall(items[..j][i], items[j].callId);
      forall m: nat | m < j ensures !MayDrop(items, recentStart, i, m) {
        if MayDrop(items, recentStart, i, m) {
          var l := MayDropIsAPair(items, recentStart, i, m);
          var p := Droppable(items, recentStart)[l];
          assert p in Droppable(items, recentStart) && IsResult(items[j], p.callId);
        }
      }
      assert Keeps(items, recentStart, i, j);
    }
  }

  /** Of two results of one call the later one has no keeper. */
  lemma KeptAreSingle(items: seq<Item>, recentStart: nat, p: Pair, i: nat)
    requires CallsAreUnique(items) && AllKept(items, recentStart)
    requires p in Droppable(items, recentStart) && i < |items| && IsResult(items[i], p.callId)
    ensures i == p.outputIndex
  {
    DroppableFacts(items, recentStart);
    assert GoodPair(items, p);
    var c, o := p.callIndex, p.outputIndex;
    var a, b: nat := Min(i, o), Max(i, o);
    assert HasKeeper(items, recentStart, a) && HasKeeper(items, recentStart, b);
    var ka: nat :| Keeps(items, recentStart, ka, a);
    var kb: nat :| Keeps(items, recentStart, kb, b);
    assert ka == c && kb == c;
    if i != o { assert MayDrop(items, recentStart, c, a); }
  }

  /** The case of call ids that are not reused: if and only if no droppable call has two results. */
  lemma DroppingKeepsPairingExactlyWhen(items: seq<Item>, recentStart: nat)
    requires Intact(items) && CallsAreUnique(items)
    ensures (forall target: int, estimate: Estimator :: Intact(AfterDrop(items, target, recentStart, estimate)))
      <==> SingleResults(items, recentStart)
  {
    PairingKeptExactlyWhen(items, recentStart);
    if SingleResults(items, recentStart) { SingleAreKept(items, recentStart); }
    if AllKept(items, recentStart) {
      forall p, i | p in Droppable(items, recentStart) && 0 <= i < |items| && IsResult(items[i], p.callId) ensures i == p.outputIndex {
        KeptAreSingle(items, recentStart, p, i);
      }
    }
  }

  // ----- over the transcript that was handed in --------------------------------------------------------------------

  /** Where an item that stays ends up. */
  function Place(items: seq<Item>, drop: set<nat>, j: nat): nat
    requires j <= |items|
  {
    |Surviving(items[..j], drop)|
  }

  lemma NextPlace(items: seq<Item>, drop: set<nat>, j: nat)
    requires j < |items|
    ensures Place(items, drop, j + 1) == Place(items, drop, j) + if j in drop then 0 else 1
  {
    assert items[..j + 1][..j] == items[..j];
  }

  lemma {:induction false} PlaceHolds(items: seq<Item>, drop: set<nat>, j: nat)
    requires j < |items| && j !in drop
    ensures Place(items, drop, j) < |Surviving(items, drop)| && Surviving(items, drop)[Place(items, drop, j)] == items[j]
  {
    var n := |items| - 1;
    if j < n {
      PlaceHolds(items[..n], drop, j);
      assert items[..n][..j] == items[..j];
    }
  }

  lemma {:induction false} PlaceGrows(items: seq<Item>, drop: set<nat>, j: nat, k: nat)
    requires j < k <= |items|
    ensures Place(items, drop, j) <= Place(items, drop, k)
    ensures j !in drop ==> Place(items, drop, j) < Place(items, drop, k)
    decreases k
  {
    NextPlace(items, drop, k - 1);
    if j < k - 1 { PlaceGrows(items, drop, j, k - 1); }
  }

  lemma {:induction false} PlaceOf(items: seq<Item>, drop: set<nat>, p: nat) returns (j: nat)
    requires p < |Surviving(items, drop)|
    ensures j < |items| && j !in drop && Place(items, drop, j) == p
  {
    var n := |items| - 1;
    if p < |Surviving(items[..n], drop)| {
      j := PlaceOf(items[..n], drop, p);
      assert items[..n][..j] == items[..j];
    } else {
      j := n;
    }
  }

  /** Only messages are dropped, and a place before `after` is a position before `before`. */
  ghost predicate Prunes(items: seq<Item>, drop: set<nat>, before: nat, after: nat) {
    && (forall x: nat :: x < |items| && x in drop ==> items[x].Message?)
    && (forall m: nat :: m < |items| && m !in drop ==> (Place(items, drop, m) < after <==> m < before))
  }

  lemma InOrder(items: seq<Item>, drop: set<nat>, i: nat, j: nat)
    requires i < |items| && j < |items| && i !in drop && j !in drop
    ensures i < j <==> Place(items, drop, i) < Place(items, drop, j)
    ensures i == j <==> Place(items, drop, i) == Place(items, drop, j)
  {
    if i < j { PlaceGrows(items, drop, i, j); }
    if j < i { PlaceGrows(items, drop, j, i); }
  }

  /** A call with the id between two positions shows between their places, and the other way round. */
  lemma CallsBetween(items: seq<Item>, drop: set<nat>, before: nat, after: nat, i: nat, j: nat, id: string)
    requires Prunes(items, drop, before, after) && i < |items| && j < |items| && i !in drop && j !in drop
    ensures (exists x :: i < x < j && IsCall(items[x], id))
      <==> exists y :: Place(items, drop, i) < y < Place(items, drop, j) && y < |Surviving(items, drop)| && IsCall(Surviving(items, drop)[y], id)
  {
    var kept := Surviving(items, drop);
    if x :| i < x < j && IsCall(items[x], id) {
      PlaceHolds(items, drop, x);
      InOrder(items, drop, i, x);
      InOrder(items, drop, x, j);
      assert IsCall(kept[Place(items, drop, x)], id);
    }
    if y :| Place(items, drop, i) < y < Place(items, drop, j) && y < |kept| && IsCall(kept[y], id) {
      var x := PlaceOf(items, drop, y);
      PlaceHolds(items, drop, x);
      InOrder(items, drop, i, x);
      InOrder(items, drop, x, j);
      assert IsCall(items[x], id);
    }
  }

  lemma MayDropMoves(items: seq<Item>, drop: set<nat>, before: nat, after: nat, i: nat, j: nat)
    requires Prunes(items, drop, before, after) && i < |items| && j < |items| && i !in drop && j !in drop
    ensures MayDrop(items, before, i, j) <==> MayDrop(Surviving(items, drop), after, Place(items, drop, i), Place(items, drop, j))
  {
    PlaceHolds(items, drop, i);
    PlaceHolds(items, drop, j);
    InOrder(items, drop, i, j);
    if items[i].FunctionCall? { CallsBetween(items, drop, before, after, i, j, items[i].callId); }
  }

  lemma KeepsMoves(items: seq<Item>, drop: set<nat>, before: nat, after: nat, i: nat, j: nat)
    requires Prunes(items, drop, before, after) && i < |items| && j < |items| && i !in drop && j !in drop
    ensures Keeps(items, before, i, j) <==> Keeps(Surviving(items, drop), after, Place(items, drop, i), Place(items, drop, j))
  {
    var kept, pi, pj := Surviving(items, drop), Place(items, drop, i), Place(items, drop, j);
    PlaceHolds(items, drop, i);
    PlaceHolds(items, drop, j);
    InOrder(items, drop, i, j);
    if m: nat :| m < j && MayDrop(items, before, i, m) {
      InOrder(items, drop, m, j);
      MayDropMoves(items, drop, before, after, i, m);
      assert MayDrop(kept, after, pi, Place(items, drop, m));
    }
    if y: nat :| y < pj && MayDrop(kept, after, pi, y) {
      var m := PlaceOf(items, drop, y);
      InOrder(items, drop, m, j);
      MayDropMoves(items, drop, before, after, i, m);
      assert MayDrop(items, before, i, m);
    }
  }

  lemma HasKeeperMoves(items: seq<Item>, drop: set<nat>, before: nat, after: nat, j: nat)
    requires Prunes(items, drop, before, after) && j < |items| && j !in drop
    ensures HasKeeper(items, before, j) <==> HasKeeper(Surviving(items, drop), after, Place(items, drop, j))
  {
    var kept := Surviving(items, drop);
    if i: nat :| Keeps(items, before, i, j) {
      KeepsMoves(items, drop, before, after, i, j);
      assert Keeps(kept, after, Place(items, drop, i), Place(items, drop, j));
    }
    if y: nat :| Keeps(kept, after, y, Place(items, drop, j)) {
      var i := PlaceOf(items, drop, y);
      KeepsMoves(items, drop, before, after, i, j);
      assert Keeps(items, before, i, j);
    }
  }

  /** Taking messages out changes nothing about who has a keeper. */
  lemma AllKeptMoves(items: seq<Item>, drop: set<nat>, before: nat, after: nat)
    requires Prunes(items, drop, before, after)
    ensures AllKept(items, before) <==> AllKept(Surviving(items, drop), after)
  {
    var kept := Surviving(items, drop);
    if AllKept(items, before) {
      forall y: nat | y < |kept| && kept[y].FunctionOutput? ensures HasKeeper(kept, after, y) {
        var j := PlaceOf(items, drop, y);
        PlaceHolds(items, drop, j);
        HasKeeperMoves(items, drop, before, after, j);
      }
    }
    if AllKept(kept, after) {
      forall j: nat | j < |items| && items[j].FunctionOutput? ensures HasKeeper(items, before, j) {
        PlaceHolds(items, drop, j);
        HasKeeperMoves(items, drop, before, after, j);
      }
    }
  }

  /** Offloading changes no call and no id. */
  lemma OffloadedMayDrop(items: seq<Item>, s: Settings, recentStart: nat, i: nat, j: nat)
    ensures MayDrop(items, recentStart, i, j) <==> MayDrop(Offloaded(items, s), recentStart, i, j)
  {
    var off := Offloaded(items, s);
    assert forall x, id :: 0 <= x < |items| ==> IsCall(items[x], id) == IsCall(off[x], id);
    assert forall x, id :: 0 <= x < |items| ==> IsResult(items[x], id) == IsResult(off[x], id);
  }

  lemma OffloadedHasKeeper(items: seq<Item>, s: Settings, recentStart: nat, j: nat)
    requires j < |items|
    ensures HasKeeper(items, recentStart, j) <==> HasKeeper(Offloaded(items, s), recentStart, j)
  {
    var off := Offloaded(items, s);
    forall i: nat ensures Keeps(items, recentStart, i, j) <==> Keeps(off, recentStart, i, j) {
      forall m: nat ensures MayDrop(items, recentStart, i, m) <==> MayDrop(off, recentStart, i, m) {
        OffloadedMayDrop(items, s, recentStart, i, m);
      }
    }
  }

  lemma OffloadedAllKept(items: seq<Item>, s: Settings, recentStart: nat)
    ensures AllKept(items, recentStart) <==> AllKept(Offloaded(items, s), recentStart)
  {
    forall j: nat | j < |items| ensures HasKeeper(items, recentStart, j) <==> HasKeeper(Offloaded(items, s), recentStart, j) {
      OffloadedHasKeeper(items, s, recentStart, j);
    }
  }

  /** Where droppable results end, in the transcript that was handed in: pruning moves the tail towards the start. */
  function DropLimit(items: seq<Item>, s: Settings): nat { RecentStart(items, s) + PrunedCount(items, s) }

  lemma PlaceLimit(items: seq<Item>, s: Settings, m: nat)
    requires m < |items| && m !in Middle(items, RecentStart(items, s))
    ensures Place(Offloaded(items, s), Middle(items, RecentStart(items, s)), m) < RecentStart(items, s) <==> m < DropLimit(items, s)
  {
    var off, drop := Offloaded(items, s), Middle(items, RecentStart(items, s));
    if m < RecentStart(items, s) {
      NoMoreSurviveThan(off[..m], drop);
    } else {
      PrunedPrefix(items, s, m);
    }
  }

  lemma PruningPrunes(items: seq<Item>, s: Settings)
    ensures Prunes(Offloaded(items, s), Middle(items, RecentStart(items, s)), DropLimit(items, s), RecentStart(items, s))
  {
    forall m: nat | m < |items| && m !in Middle(items, RecentStart(items, s))
      ensures Place(Offloaded(items, s), Middle(items, RecentStart(items, s)), m) < RecentStart(items, s) <==> m < DropLimit(items, s)
    {
      PlaceLimit(items, s, m);
    }
  }

  /**
   When reduction keeps pairing, for every transcript and all settings: it does so for every target and estimator
   if and only if each result has an earlier call with its id none of whose own droppable answers comes before it.
   */
  lemma ReductionKeepsPairingExactlyWhen(items: seq<Item>, s: Settings)
    ensures (forall target: int, estimate: Estimator :: Intact(Reduced(items, With(s, target, estimate))))
      <==> AllKept(items, DropLimit(items, s))
  {
    var recentStart, pruned := RecentStart(items, s), Pruned(items, s);
    PairingKeptExactlyWhen(pruned, recentStart);
    PruningPrunes(items, s);
    AllKeptMoves(Offloaded(items, s), Middle(items, recentStart), DropLimit(items, s), recentStart);
    OffloadedAllKept(items, s, DropLimit(items, s));
    forall target: int, estimate: Estimator
      ensures Intact(Reduced(items, With(s, target, estimate))) <==> Intact(AfterDrop(pruned, target, recentStart, estimate))
    {
      ReducedWith(items, s, target, estimate);
    }
  }

  // ----- two transcripts ----------------------------------------------------------------------------------------------

  /** Two results under one id: some target leaves the second without its call. */
  lemma RepeatedResultsCanBeOrphaned()
    ensures Intact([ASK, CALL, RESULT, RESULT])
    ensures exists target, estimate :: !Intact(Reduced([ASK, CALL, RESULT, RESULT], Plain(0, target, estimate)))
  {
    var w, p := [ASK, CALL, RESULT, RESULT], Pair("a", 1, 2);
    assert IsCall(w[..2][1], "a") && IsCall(w[..3][1], "a");
    FirstPairOfFour();
    DroppableFacts(w, 4);
    assert p in Droppable(w, 4) && IsResult(w[3], p.callId);
    DroppingKeepsPairingExactlyWhen(w, 4);
    var target: int, estimate: Estimator :| !Intact(AfterDrop(w, target, 4, estimate));
    OnlyDrops(w, target, estimate);
    assert !Intact(Reduced(w, Plain(0, target, estimate)));
  }

  lemma OnlyDrops(w: seq<Item>, target: int, estimate: Estimator)
    requires w == [ASK, CALL, RESULT, RESULT]
    ensures Reduced(w, Plain(0, target, estimate)) == AfterDrop(w, target, 4, estimate)
  {
    assert Offloaded(w, Plain(0, target, estimate)) == w;
    assert Middle(w, 4) == {};
    NothingDropped(w);
  }

  lemma FirstPairOfFour()
    ensures Pair("a", 1, 2) in PairsOf([ASK, CALL, RESULT, RESULT])
  {
    var w := [ASK, CALL, RESULT, RESULT];
    assert w[..3] == [ASK, CALL, RESULT];
    PairsOfThree();
    assert PairsOf([ASK, CALL, RESULT])[0] in PairsOf(w);
  }

  lemma EachResultHasItsCall(limit: nat)
    ensures AllKept([CALL, RESULT, CALL, RESULT], limit)
  {
    var w := [CALL, RESULT, CALL, RESULT];
    forall m: nat | m < 1 ensures !MayDrop(w, limit, 0, m) { }
    assert Keeps(w, limit, 0, 1);
    forall m: nat | m < 3 ensures !MayDrop(w, limit, 2, m) { }
    assert Keeps(w, limit, 2, 3);
    forall j: nat | j < |w| && w[j].FunctionOutput? ensures HasKeeper(w, limit, j) { assert j == 1 || j == 3; }
  }

  /** A call id used twice, each time with its result: outside the case of distinct ids, and always kept. */
  lemma ReusedIdIsKept(s: Settings)
    ensures !CallsAreUnique([CALL, RESULT, CALL, RESULT])
    ensures forall target: int, estimate: Estimator :: Intact(Reduced([CALL, RESULT, CALL, RESULT], With(s, target, estimate)))
  {
    var w := [CALL, RESULT, CALL, RESULT];
    assert w[0].FunctionCall? && w[2].FunctionCall?;
    EachResultHasItsCall(DropLimit(w, s));
    ReductionKeepsPairingExactlyWhen(w, s);
  }
}
