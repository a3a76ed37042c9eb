/** Newline-delimited text: its complete lines and the unfinished rest, and how they behave under splitting. */
module Lines {
  const NEWLINE := '\n'

  /** The lines that are terminated. */
  function Complete(text: string): seq<string> {
    if text == "" then []
    else if text[|text| - 1] == NEWLINE then Complete(text[..|text| - 1]) + [Rest(text[..|text| - 1])]
    else Complete(text[..|text| - 1])
  }

  /** What follows the last newline. */
  function Rest(text: string): string {
    if text == "" then ""
    else if text[|text| - 1] == NEWLINE then ""
    else Rest(text[..|text| - 1]) + [text[|text| - 1]]
  }

  predicate Unbroken(text: string) { forall k :: 0 <= k < |text| ==> text[k] != NEWLINE }

  lemma {:induction false} UnbrokenIsRest(text: string)
    requires Unbroken(text)
    ensures Complete(text) == [] && Rest(text) == text
    decreases |text|
  {
    if text != "" {
      UnbrokenIsRest(text[..|text| - 1]);
      assert text == text[..|text| - 1] + [text[|text| - 1]];
    }
  }

  lemma {:induction false} RestIsUnbroken(text: string)
    ensures Unbroken(Rest(text))
    decreases |text|
  {
    if text != "" { RestIsUnbroken(text[..|text| - 1]); }
  }

  /** Text read in two pieces splits as if it had been read in one. */
  lemma {:induction false} SplitConcat(a: string, b: string)
    ensures Complete(a + b) == Complete(a) + Complete(Rest(a) + b)
    ensures Rest(a + b) == Rest(Rest(a) + b)
    decreases |b|
  {
    if b == "" {
      assert a + b == a && Rest(a) + b == Rest(a);
      RestIsUnbroken(a);
      UnbrokenIsRest(Rest(a));
    } else {
      var init := b[..|b| - 1];
      SplitConcat(a, init);
      LastOfConcat(a, b);
      LastOfConcat(Rest(a), b);
    }
  }

  lemma LastOfConcat(a: string, b: string)
    requires b != ""
    ensures (a + b)[..|a + b| - 1] == a + b[..|b| - 1] && (a + b)[|a + b| - 1] == b[|b| - 1]
  {
  }

  /** One line and its newline. */
  lemma OneLine(line: string)
    requires Unbroken(line)
    ensures Complete(line + [NEWLINE]) == [line] && Rest(line + [NEWLINE]) == ""
  {
    assert (line + [NEWLINE])[..|line|] == line;
    UnbrokenIsRest(line);
  }

  /** Cutting at the first newline: its line comes first, and the remaining text holds the others. */
  lemma CutAtNewline(text: string, i: nat)
    requires i < |text| && text[i] == NEWLINE && Unbroken(text[..i])
    ensures Complete(text) == [text[..i]] + Complete(text[i + 1..]) && Rest(text) == Rest(text[i + 1..])
  {
    var line, after := text[..i], text[i + 1..];
    OneLine(line);
    SplitConcat(line + [NEWLINE], after);
    assert text == (line + [NEWLINE]) + after;
    assert "" + after == after;
  }

  lemma {:induction false} BrokenHasALine(text: string)
    ensures Complete(text) == [] <==> Unbroken(text)
    decreases |text|
  {
    if text != "" {
      BrokenHasALine(text[..|text| - 1]);
      assert text == text[..|text| - 1] + [text[|text| - 1]];
    }
  }

  /** The first line starts the text and a newline ends it. */
  lemma FirstLineFits(text: string)
    requires Complete(text) != []
    ensures |Complete(text)[0]| < |text| && text[|Complete(text)[0]|] == NEWLINE && Complete(text)[0] == text[..|Complete(text)[0]|]
    ensures Complete(text)[1..] == Complete(text[|Complete(text)[0]| + 1..]) && Rest(text) == Rest(text[|Complete(text)[0]| + 1..])
  {
    BrokenHasALine(text);
    var i := FirstNewline(text);
    CutAtNewline(text, i);
  }

  lemma FirstNewline(text: string) returns (i: nat)
    requires !Unbroken(text)
    ensures i < |text| && text[i] == NEWLINE && Unbroken(text[..i])
  {
    i := 0;
    while text[i] != NEWLINE
      invariant i < |text| && Unbroken(text[..i])
      invariant exists k :: i <= k < |text| && text[k] == NEWLINE
      decreases |text| - i
    {
      i := i + 1;
    }
  }

  /** The text after its first line. */
  function AfterFirst(text: string): (after: string)
    requires Complete(text) != []
    ensures |after| < |text|
  {
    FirstLineFits(text);
    text[|Complete(text)[0]| + 1..]
  }

  /** `i` is where the first newline is, or -1. */
  predicate IsFirstNewline(text: string, i: int) {
    if i < 0 then i == -1 && Complete(text) == [] && Rest(text) == text
    else i < |text| && Complete(text) != [] && text[..i] == Complete(text)[0] && text[i + 1..] == AfterFirst(text)
  }

  method IndexOfNewline(text: string) returns (i: int)
    ensures IsFirstNewline(text, i)
  {
    for k := 0 to |text|
      invariant Unbroken(text[..k])
    {
      if text[k] == NEWLINE {
        CutAtNewline(text, k);
        return k;
      }
    }
    assert text[..|text|] == text;
    UnbrokenIsRest(text);
    i := -1;
  }
}
