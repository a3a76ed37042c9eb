/**
 What a reduction without a target gives for each item of the transcript, told from the item and its place: where
 it ends up, when a result is offloaded and what the model then reads of it.
 */
module ContextOffload {
  import opened Options
  import opened ContextItems
  import opened ContextReduction
  import opened ContextPairing

  // ----- what is promised -------------------------------------------------------------------------------------------

  /** A message behind the first item and before the last `preserveRecent` ones. */
  predicate IsPruned(items: seq<Item>, s: Settings, i: nat)
    requires i < |items|
  {
    0 < i && i + s.preserveRecent < |items| && items[i].Message?
  }

  /** A result before the last `preserveRecent` items that is longer than the threshold. */
  predicate IsOffloaded(items: seq<Item>, s: Settings, i: nat)
    requires i < |items|
  {
    i + s.preserveRecent < |items| && items[i].FunctionOutput? && |items[i].output| > s.offloadThreshold
  }

  function StayingBefore(items: seq<Item>, s: Settings, i: nat): nat
    requires i <= |items|
  {
    if i == 0 then 0 else StayingBefore(items, s, i - 1) + if IsPruned(items, s, i - 1) then 0 else 1
  }

  function OffloadedBefore(items: seq<Item>, s: Settings, i: nat): nat
    requires i <= |items|
  {
    if i == 0 then 0 else OffloadedBefore(items, s, i - 1) + if IsOffloaded(items, s, i - 1) then 1 else 0
  }

  /** The closing marker: it names the reference and the length of the full result. */
  function Closing(refId: string, chars: nat): string {
    "\n[full result offloaded — ref=" + refId + ", " + Decimal(chars) + " chars]"
  }

  function Elision(chars: nat): string { "\n…[offloaded " + Decimal(chars) + " chars]…\n" }

  /** The whole text when it fits into head and tail; else its head, how much is left out, and its tail. */
  predicate Previews(text: string, head: nat, tail: nat, preview: string) {
    if |text| <= head + tail then preview == text
    else
      && head + tail <= |preview|
      && preview[..head] == text[..head]
      && preview[|preview| - tail..] == text[|text| - tail..]
      && preview[head..|preview| - tail] == Elision(|text| - head - tail)
  }

  /** The offloaded result keeps its call id and name, and reads as a preview closed by the marker. */
  predicate ReadsAs(before: Item, after: Item, s: Settings, refId: string)
    requires before.FunctionOutput?
  {
    && after.FunctionOutput? && after.callId == before.callId && after.name == before.name
    && var closing := Closing(refId, |before.output|);
       && |closing| <= |after.output|
       && after.output[|after.output| - |closing|..] == closing
       && Previews(before.output, s.headChars, s.tailChars, after.output[..|after.output| - |closing|])
  }

  /** The reference an offloaded result leaves behind. */
  predicate RefersTo(ref: ContextRef, before: Item, s: Settings, refId: string)
    requires before.FunctionOutput?
  {
    && ref.ref == refId && ref.chars == |before.output| && ref.estimatedTokens == s.estimate(before.output)
    && Previews(before.output, s.headChars, s.tailChars, ref.preview)
    && (ref.previewTruncated <==> |before.output| > s.headChars + s.tailChars)
  }

  /** An item that is not pruned comes in its turn: offloaded if that is due, else unchanged. */
  predicate ComesThrough(items: seq<Item>, s: Settings, after: seq<Item>, refs: seq<ContextRef>, i: nat)
    requires i < |items|
  {
    if IsPruned(items, s, i) then true
    else
      var p := StayingBefore(items, s, i);
      && p < |after|
      && if !IsOffloaded(items, s, i) then after[p] == items[i]
         else
           var refId, r := s.makeRefId(items[i], i), OffloadedBefore(items, s, i);
           ReadsAs(items[i], after[p], s, refId) && r < |refs| && RefersTo(refs[r], items[i], s, refId)
  }

  // ----- one result ---------------------------------------------------------------------------------------------------

  lemma InThree(a: string, b: string, c: string)
    ensures var all := a + b + c;
      all[..|a|] == a && all[|all| - |c|..] == c && all[|a|..|all| - |c|] == b && |all| == |a| + |b| + |c|
  {
  }

  lemma InTwo(a: string, b: string)
    ensures (a + b)[..|a + b| - |b|] == a && (a + b)[|a + b| - |b|..] == b
  {
  }

  lemma PreviewIsBounded(text: string, head: nat, tail: nat)
    ensures var (preview, truncated) := BoundedPreview(text, head, tail);
      Previews(text, head, tail, preview) && (truncated <==> |text| > head + tail)
  {
    if |text| > head + tail {
      var elision := "\n…[offloaded " + Decimal(|text| - head - tail) + " chars]…\n";
      assert elision == Elision(|text| - head - tail);
      InThree(text[..head], elision, text[|text| - tail..]);
      Regrouped(text[..head], "\n…[offloaded ", Decimal(|text| - head - tail), " chars]…\n", text[|text| - tail..]);
    }
  }

  lemma Regrouped(a: string, b: string, c: string, d: string, e: string)
    ensures a + b + c + d + e == a + (b + c + d) + e
  {
  }

  lemma Closed(ref: ContextRef)
    ensures Render(ref) == ref.preview + Closing(ref.ref, ref.chars)
  {
    Appended(ref.preview, "\n[full result offloaded — ref=", ref.ref, ", ", Decimal(ref.chars), " chars]");
  }

  lemma Appended(a: string, b: string, c: string, d: string, e: string, f: string)
    ensures a + b + c + d + e + f == a + (b + c + d + e + f)
  {
  }

  lemma OffloadedReads(items: seq<Item>, s: Settings, i: nat)
    requires i < |items| && items[i].FunctionOutput?
    ensures ReadsAs(items[i], items[i].(output := Render(RefFor(items, s, i))), s, s.makeRefId(items[i], i))
    ensures RefersTo(RefFor(items, s, i), items[i], s, s.makeRefId(items[i], i))
  {
    var ref := RefFor(items, s, i);
    PreviewIsBounded(items[i].output, s.headChars, s.tailChars);
    Closed(ref);
    InTwo(ref.preview, Closing(ref.ref, ref.chars));
  }

  // ----- the whole list ---------------------------------------------------------------------------------------------

  lemma OffloadsByName(items: seq<Item>, s: Settings, i: nat)
    requires i < |items|
    ensures Offloads(items, s, i) <==> IsOffloaded(items, s, i)
    ensures i in Middle(items, RecentStart(items, s)) <==> IsPruned(items, s, i)
  {
  }

  lemma {:induction false} PlaceIsTheCount(items: seq<Item>, s: Settings, i: nat)
    requires i <= |items|
    ensures Place(Offloaded(items, s), Middle(items, RecentStart(items, s)), i) == StayingBefore(items, s, i)
    decreases i
  {
    if i > 0 {
      PlaceIsTheCount(items, s, i - 1);
      NextPlace(Offloaded(items, s), Middle(items, RecentStart(items, s)), i - 1);
      OffloadsByName(items, s, i - 1);
    }
  }

  lemma {:induction false} RefsAreCounted(items: seq<Item>, s: Settings, n: nat)
    requires n <= |items|
    ensures |RefsUpTo(items, s, n)| == OffloadedBefore(items, s, n)
    decreases n
  {
    if n > 0 {
      RefsAreCounted(items, s, n - 1);
      OffloadsByName(items, s, n - 1);
    }
  }

  lemma {:induction false} RefInItsTurn(items: seq<Item>, s: Settings, i: nat, n: nat)
    requires i < n <= |items| && IsOffloaded(items, s, i)
    ensures OffloadedBefore(items, s, i) < |RefsUpTo(items, s, n)|
    ensures RefsUpTo(items, s, n)[OffloadedBefore(items, s, i)] == RefFor(items, s, i)
    decreases n
  {
    RefsAreCounted(items, s, n - 1);
    OffloadsByName(items, s, n - 1);
    if i < n - 1 { RefInItsTurn(items, s, i, n - 1); }
  }

  lemma ItemComesThrough(items: seq<Item>, s: Settings, i: nat)
    requires i < |items|
    ensures ComesThrough(items, s, Pruned(items, s), RefsUpTo(items, s, |items|), i)
  {
    var offloaded, drop := Offloaded(items, s), Middle(items, RecentStart(items, s));
    OffloadsByName(items, s, i);
    if !IsPruned(items, s, i) {
      PlaceHolds(offloaded, drop, i);
      PlaceIsTheCount(items, s, i);
      if IsOffloaded(items, s, i) {
        OffloadedReads(items, s, i);
        RefInItsTurn(items, s, i, |items|);
      }
    }
  }

  /**
   Without a target the result holds the items that are not pruned, in order and nothing else: each one as it was,
   or, if it is an old result above the threshold, as its preview closed by the reference, which the list of
   references has in the same order and without others.
   */
  lemma EveryItemComesThrough(items: seq<Item>, s: Settings)
    requires s.targetTokens.None?
    ensures var after, refs := Reduced(items, s), RefsUpTo(items, s, |items|);
      && |after| == StayingBefore(items, s, |items|) && |refs| == OffloadedBefore(items, s, |items|)
      && forall i: nat :: i < |items| ==> ComesThrough(items, s, after, refs, i)
  {
    PlaceIsTheCount(items, s, |items|);
    assert Offloaded(items, s)[..|items|] == Offloaded(items, s);
    RefsAreCounted(items, s, |items|);
    forall i: nat | i < |items| ensures ComesThrough(items, s, Pruned(items, s), RefsUpTo(items, s, |items|), i) {
      ItemComesThrough(items, s, i);
    }
  }

  // ----- the default sizes -------------------------------------------------------------------------------------------

  function SixItems(text: string): seq<Item> {
    var later := Message("user", "go on");
    [FunctionCall("c1", "read", "{}"), FunctionOutput("c1", "read", text), later, later, later, later]
  }

  /**
   At the default sizes, a result that has four items behind it: up to 2048 characters it stays; a longer one is
   read by its first 512 and its last 512 characters, with the closing marker behind them, and leaves one reference.
   */
  lemma DefaultsOffloadAbove2048(text: string, makeRefId: (Item, nat) -> string)
    ensures var items := SixItems(text);
      var s := Defaults(makeRefId, None);
      var after, refs := Reduced(items, s), RefsUpTo(items, s, 6);
      && |after| == 6 && after[0] == items[0]
      && (|text| <= 2048 ==> after[1] == items[1] && refs == [])
      && (|text| > 2048 ==>
            && after[1].FunctionOutput? && after[1].callId == "c1" && |refs| == 1 && refs[0].chars == |text|
            && var read, closing := after[1].output, Closing(makeRefId(items[1], 1), |text|);
               && |read| >= 1024 + |closing| && read[|read| - |closing|..] == closing
               && read[..512] == text[..512]
               && read[|read| - |closing| - 512..|read| - |closing|] == text[|text| - 512..])
  {
    var items, s := SixItems(text), Defaults(makeRefId, None);
    SecondOfSix(text, makeRefId);
    if |text| > 2048 { LastPartOf(items[1], Reduced(items, s)[1], s, makeRefId(items[1], 1)); }
  }

  lemma SecondOfSix(text: string, makeRefId: (Item, nat) -> string)
    ensures var items := SixItems(text);
      var s := Defaults(makeRefId, None);
      var after, refs := Reduced(items, s), RefsUpTo(items, s, 6);
      && |after| == 6 && after[0] == items[0]
      && (if |text| > 2048 then ReadsAs(items[1], after[1], s, makeRefId(items[1], 1)) && |refs| == 1 && refs[0].chars == |text|
          else after[1] == items[1] && refs == [])
  {
    var items, s := SixItems(text), Defaults(makeRefId, None);
    var after, refs := Reduced(items, s), RefsUpTo(items, s, 6);
    CountsOfSix(text, makeRefId);
    EveryItemComesThrough(items, s);
    assert ComesThrough(items, s, after, refs, 0) && ComesThrough(items, s, after, refs, 1);
  }

  lemma NextCount(items: seq<Item>, s: Settings, i: nat)
    requires i < |items|
    ensures StayingBefore(items, s, i + 1) == StayingBefore(items, s, i) + if IsPruned(items, s, i) then 0 else 1
    ensures OffloadedBefore(items, s, i + 1) == OffloadedBefore(items, s, i) + if IsOffloaded(items, s, i) then 1 else 0
  {
  }

  lemma CountsOfSix(text: string, makeRefId: (Item, nat) -> string)
    ensures var items, s := SixItems(text), Defaults(makeRefId, None);
      && |items| == 6
      && StayingBefore(items, s, 0) == 0 && StayingBefore(items, s, 1) == 1 && StayingBefore(items, s, 6) == 6
      && OffloadedBefore(items, s, 1) == 0
      && OffloadedBefore(items, s, 6) == if |text| > 2048 then 1 else 0
  {
    var items, s := SixItems(text), Defaults(makeRefId, None);
    assert forall i: nat :: i < 6 ==> !IsPruned(items, s, i);
    assert forall i: nat :: i < 6 ==> (IsOffloaded(items, s, i) <==> i == 1 && |text| > 2048);
    NextCount(items, s, 0);
    NextCount(items, s, 1);
    NextCount(items, s, 2);
    NextCount(items, s, 3);
    NextCount(items, s, 4);
    NextCount(items, s, 5);
  }

  /** The two ends of a long result, in what is read of it. */
  lemma LastPartOf(before: Item, after: Item, s: Settings, refId: string)
    requires before.FunctionOutput? && ReadsAs(before, after, s, refId)
    requires |before.output| > s.headChars + s.tailChars
    ensures var read, n, text := after.output, |after.output| - |Closing(refId, |before.output|)|, before.output;
      && s.headChars + s.tailChars <= n
      && read[..s.headChars] == text[..s.headChars] && read[n - s.tailChars..n] == text[|text| - s.tailChars..]
  {
    var n := |after.output| - |Closing(refId, |before.output|)|;
    var preview := after.output[..n];
    assert preview[..s.headChars] == after.output[..s.headChars];
    assert preview[n - s.tailChars..] == after.output[n - s.tailChars..n];
  }

  // ----- what the default estimate counts ------------------------------------------------------------------------------

  /** Every field of an item is counted, with its label: four characters a token, rounded up. */
  lemma EveryFieldIsCounted(item: Item)
    ensures var tokens, chars := DefaultEstimate(Serialize(item)), match item
        case Message(role, text) => |role| + |text| + 2
        case FunctionCall(callId, name, argumentsJson) => |name| + |callId| + |argumentsJson| + 7
        case FunctionOutput(callId, name, output) => |name| + |callId| + |output| + 9;
      chars <= 4 * tokens < chars + 4
  {
  }

  lemma ItemsAsText()
    ensures Serialize(Message("user", "go on")) == "user: go on"
    ensures Serialize(FunctionCall("c1", "read", "{}")) == "call read c1 {}"
    ensures Serialize(FunctionOutput("c1", "read", "ok")) == "output read c1 ok"
  {
  }
}
