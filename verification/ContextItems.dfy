/**
 The items of a model context, the token estimate of a transcript, and the text an offloaded tool result
 is replaced by.
 */
module ContextItems {
  import opened Options

  datatype Item =
    | Message(role: string, text: string)
    | FunctionCall(callId: string, name: string, argumentsJson: string)
    | FunctionOutput(callId: string, name: string, output: string)

  type Estimator = string -> nat

  const DEFAULT_CHARS_PER_TOKEN := 4

  function DefaultEstimate(text: string): nat {
    (|text| + DEFAULT_CHARS_PER_TOKEN - 1) / DEFAULT_CHARS_PER_TOKEN
  }

  function Serialize(item: Item): string {
    match item
    case Message(role, text) => role + ": " + text
    case FunctionCall(callId, name, argumentsJson) => "call " + name + " " + callId + " " + argumentsJson
    case FunctionOutput(callId, name, output) => "output " + name + " " + callId + " " + output
  }

  function Estimate(items: seq<Item>, estimate: Estimator): nat {
    if items == [] then 0
    else Estimate(items[..|items| - 1], estimate) + estimate(Serialize(items[|items| - 1]))
  }

  method EstimateItems(items: seq<Item>, estimate: Estimator) returns (total: nat)
    ensures total == Estimate(items, estimate)
  {
    total := 0;
    for i := 0 to |items|
      invariant total == Estimate(items[..i], estimate)
    {
      assert items[..i + 1][..i] == items[..i];
      total := total + estimate(Serialize(items[i]));
    }
    assert items[..|items|] == items;
  }

  // ----- references and previews ---------------------------------------------------------------------

  const DEFAULT_HEAD: nat := 512
  const DEFAULT_TAIL: nat := 512

  datatype ContextRef = ContextRef(ref: string, chars: nat, estimatedTokens: nat, preview: string, previewTruncated: bool)

  function BoundedPreview(text: string, head: nat, tail: nat): (string, bool) {
    if |text| <= head + tail then (text, false)
    else
      var elided := |text| - head - tail;
      (text[..head] + "\n…[offloaded " + Decimal(elided) + " chars]…\n" + text[|text| - tail..], true)
  }

  function MakeRef(refId: string, text: string, head: nat, tail: nat, estimate: Estimator): ContextRef {
    var (preview, truncated) := BoundedPreview(text, head, tail);
    ContextRef(refId, |text|, estimate(text), preview, truncated)
  }

  function Render(ref: ContextRef): string {
    ref.preview + "\n[full result offloaded — ref=" + ref.ref + ", " + Decimal(ref.chars) + " chars]"
  }

  /** The characters a rendered reference adds around the kept text and the ref id. */
  function Overhead(chars: nat, head: nat, tail: nat): nat {
    (if chars <= head + tail then 0 else 22 + |Decimal(chars - head - tail)|) + 39 + |Decimal(chars)|
  }

  /**
   Exactly when offloading does not lengthen a result: the kept head and tail, the ref id and the markers
   fit into it. A result no longer than head and tail together always gets longer.
   */
  lemma RenderFitsExactlyWhen(refId: string, text: string, head: nat, tail: nat, estimate: Estimator)
    ensures |Render(MakeRef(refId, text, head, tail, estimate))| <= |text| <==>
      head + tail < |text| && head + tail + |refId| + Overhead(|text|, head, tail) <= |text|
  {
    DecimalIsShort(|text|);
  }

  /** The overhead is at most 63 characters and a fifth of the text. */
  lemma OverheadIsSmall(chars: nat, head: nat, tail: nat)
    ensures 5 * Overhead(chars, head, tail) <= 5 * 63 + chars
  {
    DecimalIsShort(chars);
    if chars > head + tail { DecimalIsShort(chars - head - tail); }
  }

  /** Enough to know beforehand: the same for every text longer than a threshold. */
  lemma LongTextsShrink(refId: string, text: string, head: nat, tail: nat, estimate: Estimator, threshold: nat)
    requires |text| > threshold
    requires 5 * (head + tail + |refId| + 63) <= 4 * (threshold + 1)
    ensures |Render(MakeRef(refId, text, head, tail, estimate))| <= |text|
  {
    OverheadIsSmall(|text|, head, tail);
    RenderFitsExactlyWhen(refId, text, head, tail, estimate);
  }

  lemma ShorterIsCheaper(a: string, b: string)
    requires |a| <= |b|
    ensures DefaultEstimate(a) <= DefaultEstimate(b)
  {
  }
}
