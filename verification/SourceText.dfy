/**
 The architecture gate's view of a source file: comments blanked in place, so that a match index still maps
 to its line (scripts/architecture.ts).
 */
module SourceText {
  import opened Options

  predicate OpensLine(s: string, i: nat) { i + 2 <= |s| && s[i] == '/' && s[i + 1] == '/' }
  predicate OpensBlock(s: string, i: nat) { i + 2 <= |s| && s[i] == '/' && s[i + 1] == '*' }
  predicate ClosesBlock(s: string, i: nat) { i + 2 <= |s| && s[i] == '*' && s[i + 1] == '/' }

  /** Where a line comment stops: at the next newline, or the end. */
  function LineEnd(s: string, i: nat): (j: nat)
    requires i <= |s|
    ensures i <= j <= |s| && (i < |s| && s[i] != '\n' ==> i < j)
    decreases |s| - i
  {
    if i == |s| || s[i] == '\n' then i else LineEnd(s, i + 1)
  }

  /** Where a block comment's text stops: at the next closer, or the end. */
  function BlockEnd(s: string, i: nat): (j: nat)
    requires i <= |s|
    ensures i <= j <= |s| && (j < |s| ==> ClosesBlock(s, j))
    decreases |s| - i
  {
    if i == |s| || ClosesBlock(s, i) then i else BlockEnd(s, i + 1)
  }

  function Blanked(c: char): char { if c == '\n' then '\n' else ' ' }

  /** Every character of a stretch but a newline becomes a space. */
  function Blank(s: string, i: nat, j: nat): (r: string)
    requires i <= j <= |s|
    ensures |r| == j - i && forall k :: 0 <= k < j - i ==> r[k] == Blanked(s[i + k])
  {
    seq(j - i, k requires 0 <= k < j - i => Blanked(s[i + k]))
  }

  /** The stripped text from a position on; an unterminated block comment puts the position past the end. */
  function StripFrom(s: string, i: nat): string
    decreases |s| - i
  {
    if i >= |s| then ""
    else if OpensLine(s, i) then
      var j := LineEnd(s, i);
      Blank(s, i, j) + StripFrom(s, j)
    else if OpensBlock(s, i) then
      var j := BlockEnd(s, i);
      Blank(s, i, j) + "  " + StripFrom(s, j + 2)
    else [s[i]] + StripFrom(s, i + 1)
  }

  function Strip(s: string): string { StripFrom(s, 0) }

  /** The scan ends inside a block comment. */
  predicate Unterminated(s: string, i: nat)
    decreases |s| - i
  {
    if i >= |s| then false
    else if OpensLine(s, i) then Unterminated(s, LineEnd(s, i))
    else if OpensBlock(s, i) then BlockEnd(s, i) == |s| || Unterminated(s, BlockEnd(s, i) + 2)
    else Unterminated(s, i + 1)
  }

  method StripComments(source: string) returns (out: string)
    ensures out == Strip(source)
  {
    out := "";
    var i := 0;
    while i < |source|
      invariant 0 <= i && out + StripFrom(source, i) == Strip(source)
      decreases |source| - i
    {
      var blanks, next := Scan(source, i);
      i, out := next, out + blanks;
    }
  }

  method SkipLine(source: string, start: nat) returns (out: string, i: nat)
    requires start <= |source|
    ensures i == LineEnd(source, start) && out == Blank(source, start, i)
  {
    i, out := start, "";
    while i < |source| && source[i] != '\n'
      invariant start <= i <= |source| && out == Blank(source, start, i)
      invariant LineEnd(source, i) == LineEnd(source, start)
      decreases |source| - i
    {
      BlankGrows(source, start, i);
      i, out := i + 1, out + " ";
    }
  }

  method SkipBlock(source: string, start: nat) returns (out: string, i: nat)
    requires start <= |source|
    ensures i == BlockEnd(source, start) && out == Blank(source, start, i)
  {
    i, out := start, "";
    while i < |source| && !ClosesBlock(source, i)
      invariant start <= i <= |source| && out == Blank(source, start, i)
      invariant BlockEnd(source, i) == BlockEnd(source, start)
      decreases |source| - i
    {
      BlankGrows(source, start, i);
      out := out + [Blanked(source[i])];
      i := i + 1;
    }
  }

  /** One turn of the scan: a comment, or one character of code. */
  method Scan(source: string, start: nat) returns (out: string, i: nat)
    requires start < |source|
    ensures i > start && StripFrom(source, start) == out + StripFrom(source, i)
  {
    if OpensLine(source, start) {
      out, i := SkipLine(source, start);
      assert StripFrom(source, start) == out + StripFrom(source, i);
    } else if OpensBlock(source, start) {
      out, i := SkipBlock(source, start);
      i, out := i + 2, out + "  ";
      assert StripFrom(source, start) == out + StripFrom(source, i);
    } else {
      i, out := start + 1, [source[start]];
      assert StripFrom(source, start) == out + StripFrom(source, i);
    }
  }

  lemma BlankGrows(s: string, i: nat, j: nat)
    requires i <= j < |s|
    ensures Blank(s, i, j + 1) == Blank(s, i, j) + [Blanked(s[j])]
  {
  }

  function Newlines(s: string): nat { if s == "" then 0 else Newlines(s[..|s| - 1]) + if s[|s| - 1] == '\n' then 1 else 0 }

  /** The 1-based line of an index; past the end, that of the end. */
  method LineOf(source: string, index: nat) returns (line: nat)
    ensures line == 1 + Newlines(source[..Min(index, |source|)])
  {
    line := 1;
    var i := 0;
    while i < index && i < |source|
      invariant i <= |source| && i <= index && line == 1 + Newlines(source[..i])
    {
      assert source[..i + 1][..i] == source[..i];
      if source[i] == '\n' { line := line + 1; }
      i := i + 1;
    }
  }

  // ----- positions are preserved ------------------------------------------------------------------------------------

  /** Position for position from `i` on, a newline stays one and anything else is itself or a space; then only spaces. */
  ghost predicate InPlace(s: string, i: nat, out: string)
    requires i <= |s|
  {
    && |s| - i <= |out|
    && (forall k :: 0 <= k < |s| - i ==> out[k] == s[i + k] || out[k] == Blanked(s[i + k]))
    && (forall k :: |s| - i <= k < |out| ==> out[k] == ' ')
  }

  lemma InPlaceConcat(s: string, i: nat, j: nat, x: string, y: string)
    requires i <= j <= |s| && |x| == j - i && InPlace(s, j, y)
    requires forall k :: 0 <= k < j - i ==> x[k] == s[i + k] || x[k] == Blanked(s[i + k])
    ensures InPlace(s, i, x + y)
  {
    forall k | 0 <= k < |s| - i ensures (x + y)[k] == s[i + k] || (x + y)[k] == Blanked(s[i + k]) {
      if k >= |x| {
        var m := k - |x|;
        assert (x + y)[k] == y[m] && s[i + k] == s[j + m];
      }
    }
  }

  /** Stripping is position-preserving; it lengthens the text, by two spaces, exactly when a block comment is left open. */
  lemma {:induction false} StripIsInPlace(s: string, i: nat)
    requires i <= |s|
    ensures InPlace(s, i, StripFrom(s, i)) && |StripFrom(s, i)| == |s| - i + if Unterminated(s, i) then 2 else 0
    decreases |s| - i
  {
    if i < |s| {
      if OpensLine(s, i) {
        var j := LineEnd(s, i);
        StripIsInPlace(s, j);
        InPlaceConcat(s, i, j, Blank(s, i, j), StripFrom(s, j));
      } else if OpensBlock(s, i) {
        BlockIsInPlace(s, i);
      } else {
        StripIsInPlace(s, i + 1);
        InPlaceConcat(s, i, i + 1, [s[i]], StripFrom(s, i + 1));
      }
    }
  }

  lemma {:induction false} BlockIsInPlace(s: string, i: nat)
    requires i < |s| && OpensBlock(s, i)
    ensures InPlace(s, i, StripFrom(s, i)) && |StripFrom(s, i)| == |s| - i + if Unterminated(s, i) then 2 else 0
    decreases |s| - i, 0
  {
    var j := BlockEnd(s, i);
    if j < |s| {
      StripIsInPlace(s, j + 2);
      ClosedBlock(s, i, j, StripFrom(s, j + 2));
      ClosedUnfolds(s, i);
    } else {
      OpenBlock(s, i);
      OpenUnfolds(s, i);
    }
  }

  lemma ClosedUnfolds(s: string, i: nat)
    requires i < |s| && OpensBlock(s, i) && BlockEnd(s, i) < |s|
    ensures var j := BlockEnd(s, i);
      StripFrom(s, i) == Blank(s, i, j) + "  " + StripFrom(s, j + 2) && Unterminated(s, i) == Unterminated(s, j + 2)
  {
  }

  lemma OpenUnfolds(s: string, i: nat)
    requires i < |s| && OpensBlock(s, i) && BlockEnd(s, i) == |s|
    ensures StripFrom(s, i) == Blank(s, i, |s|) + "  " && Unterminated(s, i)
  {
    assert StripFrom(s, |s| + 2) == "";
    assert Blank(s, i, |s|) + "  " + "" == Blank(s, i, |s|) + "  ";
  }

  lemma OpenBlock(s: string, i: nat)
    requires i <= |s|
    ensures InPlace(s, i, Blank(s, i, |s|) + "  ") && |Blank(s, i, |s|) + "  "| == |s| - i + 2
  {
    InPlaceConcat(s, i, |s|, Blank(s, i, |s|), "  ");
  }

  lemma ClosedBlock(s: string, i: nat, j: nat, after: string)
    requires i <= j < |s| && ClosesBlock(s, j) && InPlace(s, j + 2, after)
    ensures InPlace(s, i, Blank(s, i, j) + "  " + after) && |Blank(s, i, j) + "  " + after| == j - i + 2 + |after|
  {
    InPlaceConcat(s, j, j + 2, "  ", after);
    InPlaceConcat(s, i, j, Blank(s, i, j), "  " + after);
    assert Blank(s, i, j) + "  " + after == Blank(s, i, j) + ("  " + after);
  }

  lemma {:induction false} SameNewlines(a: string, b: string)
    requires |a| == |b| && forall k :: 0 <= k < |a| ==> (a[k] == '\n' <==> b[k] == '\n')
    ensures Newlines(a) == Newlines(b)
    decreases |a|
  {
    if a != "" { SameNewlines(a[..|a| - 1], b[..|b| - 1]); }
  }

  /** An index found in the stripped text maps to the line it has in the original. */
  lemma LinesAgree(s: string, index: nat)
    requires index <= |s|
    ensures index <= |Strip(s)| && Newlines(Strip(s)[..index]) == Newlines(s[..index])
  {
    StripIsInPlace(s, 0);
    SameNewlines(Strip(s)[..index], s[..index]);
  }

  // ----- no comment is left ---------------------------------------------------------------------------------------------

  predicate Opens(s: string, i: nat) { OpensLine(s, i) || OpensBlock(s, i) }

  ghost predicate CommentFree(s: string) { forall i: nat :: !Opens(s, i) }

  /** Text without a comment opener is untouched, string bodies included. */
  lemma {:induction false} PlainTextIsUntouched(s: string, i: nat)
    requires CommentFree(s) && i <= |s|
    ensures StripFrom(s, i) == s[i..]
    decreases |s| - i
  {
    if i < |s| {
      assert !Opens(s, i);
      PlainTextIsUntouched(s, i + 1);
    }
  }

  lemma FreeConcat(a: string, b: string)
    requires CommentFree(a) && CommentFree(b)
    requires a != "" && b != "" && a[|a| - 1] == '/' ==> b[0] != '/' && b[0] != '*'
    ensures CommentFree(a + b)
  {
    forall k: nat ensures !Opens(a + b, k) {
      assert !Opens(a, k);
      if k >= |a| { assert !Opens(b, k - |a|); }
    }
  }

  lemma BlankIsFree(s: string, i: nat, j: nat)
    requires i <= j <= |s|
    ensures CommentFree(Blank(s, i, j)) && forall k :: 0 <= k < j - i ==> Blank(s, i, j)[k] != '/'
  {
  }

  /** Nothing of a blanked stretch can open a comment, with what comes before or after it. */
  lemma BlanksThenFree(s: string, i: nat, j: nat, after: string)
    requires i < j <= |s| && CommentFree(after)
    ensures CommentFree(Blank(s, i, j) + after) && (Blank(s, i, j) + after)[0] == Blanked(s[i])
  {
    BlankIsFree(s, i, j);
    FreeConcat(Blank(s, i, j), after);
  }

  lemma BlockThenFree(s: string, i: nat, after: string)
    requires OpensBlock(s, i) && CommentFree(after)
    ensures var j := BlockEnd(s, i); j > i && CommentFree(Blank(s, i, j) + "  " + after) && (Blank(s, i, j) + "  " + after)[0] == ' '
  {
    var j := BlockEnd(s, i);
    assert j > i;
    FreeConcat("  ", after);
    BlanksThenFree(s, i, j, "  " + after);
    assert Blank(s, i, j) + ("  " + after) == Blank(s, i, j) + "  " + after;
  }

  /** No comment opener survives. */
  lemma {:induction false} NoCommentSurvives(s: string, i: nat)
    ensures CommentFree(StripFrom(s, i))
    ensures i < |s| ==> StripFrom(s, i) != "" && StripFrom(s, i)[0] == if Opens(s, i) then ' ' else s[i]
    decreases |s| - i
  {
    if i < |s| {
      if OpensLine(s, i) {
        NoCommentSurvives(s, LineEnd(s, i));
        BlanksThenFree(s, i, LineEnd(s, i), StripFrom(s, LineEnd(s, i)));
      } else if OpensBlock(s, i) {
        NoCommentSurvives(s, BlockEnd(s, i) + 2);
        BlockThenFree(s, i, StripFrom(s, BlockEnd(s, i) + 2));
      } else {
        NoCommentSurvives(s, i + 1);
        FreeConcat([s[i]], StripFrom(s, i + 1));
      }
    }
  }

  lemma StrippingTwiceIsOnce(s: string)
    ensures Strip(Strip(s)) == Strip(s)
  {
    NoCommentSurvives(s, 0);
    PlainTextIsUntouched(Strip(s), 0);
  }

  /** Which texts come back as they are: those without a comment opener, and no others. */
  lemma UntouchedExactlyWhen(s: string)
    ensures Strip(s) == s <==> CommentFree(s)
  {
    NoCommentSurvives(s, 0);
    if CommentFree(s) { PlainTextIsUntouched(s, 0); }
  }

  // ----- which characters are blanked --------------------------------------------------------------------------------

  datatype Mode = Code | InLine | InBlock | Closer  // `Closer` is the slash that ends a block comment

  /** How the character before a position leaves the scan. */
  function Before(s: string, k: nat): Mode
    requires k <= |s|
    decreases k, 0
  {
    if k == 0 then Code
    else match ModeAt(s, k - 1)
      case InLine => if k < |s| && s[k] == '\n' then Code else InLine
      case InBlock => if ClosesBlock(s, k - 1) then Closer else InBlock
      case _ => Code
  }

  /** What a character is part of; quotes mean nothing to the scan. */
  function ModeAt(s: string, k: nat): Mode
    requires k < |s|
    decreases k, 1
  {
    var before := Before(s, k);
    if before != Code then before
    else if OpensLine(s, k) then InLine
    else if OpensBlock(s, k) then InBlock
    else Code
  }

  /** The character a position shows after stripping. */
  function Shown(s: string, k: nat): char
    requires k < |s|
  {
    if ModeAt(s, k) == Code then s[k] else Blanked(s[k])
  }

  lemma {:induction false} LineModes(s: string, i: nat, k: nat)
    requires i < |s| && Before(s, i) == Code && OpensLine(s, i) && i <= k < LineEnd(s, i)
    ensures ModeAt(s, k) == InLine
    decreases k
  {
    if k > i {
      LineModes(s, i, k - 1);
      InsideLine(s, i, k);
    }
  }

  lemma {:induction false} InsideLine(s: string, i: nat, k: nat)
    requires i <= |s| && i <= k < LineEnd(s, i)
    ensures s[k] != '\n'
    decreases k - i
  {
    if i < k { InsideLine(s, i + 1, k); }
  }

  lemma {:induction false} AtLineEnd(s: string, i: nat)
    requires i <= |s| && LineEnd(s, i) < |s|
    ensures s[LineEnd(s, i)] == '\n'
    decreases |s| - i
  {
    if s[i] != '\n' { AtLineEnd(s, i + 1); }
  }

  lemma {:induction false} BlockModes(s: string, i: nat, k: nat)
    requires i < |s| && Before(s, i) == Code && OpensBlock(s, i) && i <= k < |s| && k <= BlockEnd(s, i)
    ensures ModeAt(s, k) == InBlock
    decreases k
  {
    if k > i {
      BlockModes(s, i, k - 1);
      InsideBlock(s, i, k - 1);
    }
  }

  lemma {:induction false} InsideBlock(s: string, i: nat, k: nat)
    requires i <= |s| && i <= k < BlockEnd(s, i)
    ensures !ClosesBlock(s, k)
    decreases k - i
  {
    if i < k { InsideBlock(s, i + 1, k); }
  }

  /** Position for position from `i` on. */
  ghost predicate ShowsFrom(s: string, i: nat, out: string)
    requires i <= |s|
  {
    |s| - i <= |out| && forall k :: i <= k < |s| ==> out[k - i] == Shown(s, k)
  }

  lemma ShowsConcat(s: string, i: nat, j: nat, x: string, y: string)
    requires i <= j <= |s| && |x| == j - i && ShowsFrom(s, j, y)
    requires forall k :: i <= k < j ==> x[k - i] == Shown(s, k)
    ensures ShowsFrom(s, i, x + y)
  {
    forall k | i <= k < |s| ensures (x + y)[k - i] == Shown(s, k) {
      if k >= j { assert (x + y)[k - i] == y[k - j]; }
    }
  }

  lemma ShowsLine(s: string, i: nat, y: string)
    requires i < |s| && Before(s, i) == Code && OpensLine(s, i) && ShowsFrom(s, LineEnd(s, i), y)
    ensures ShowsFrom(s, i, Blank(s, i, LineEnd(s, i)) + y)
  {
    var j := LineEnd(s, i);
    forall k | i <= k < j ensures Blank(s, i, j)[k - i] == Shown(s, k) {
      LineModes(s, i, k);
      assert Blank(s, i, j)[k - i] == Blanked(s[i + (k - i)]);
    }
    ShowsConcat(s, i, j, Blank(s, i, j), y);
  }

  /** A block comment up to its closer, or the end of the text. */
  lemma ShowsBlock(s: string, i: nat, y: string)
    requires i < |s| && Before(s, i) == Code && OpensBlock(s, i) && ShowsFrom(s, BlockEnd(s, i), y)
    ensures ShowsFrom(s, i, Blank(s, i, BlockEnd(s, i)) + y)
  {
    var j := BlockEnd(s, i);
    forall k | i <= k < j ensures Blank(s, i, j)[k - i] == Shown(s, k) {
      BlockModes(s, i, k);
      assert Blank(s, i, j)[k - i] == Blanked(s[i + (k - i)]);
    }
    ShowsConcat(s, i, j, Blank(s, i, j), y);
  }

  /** The two characters of the closer. */
  lemma ShowsCloser(s: string, i: nat, y: string)
    requires i < |s| && Before(s, i) == Code && OpensBlock(s, i) && BlockEnd(s, i) < |s| && ShowsFrom(s, BlockEnd(s, i) + 2, y)
    ensures Before(s, BlockEnd(s, i) + 2) == Code && ShowsFrom(s, BlockEnd(s, i), "  " + y)
  {
    var j := BlockEnd(s, i);
    BlockModes(s, i, j);
    assert Before(s, j + 1) == Closer && ModeAt(s, j + 1) == Closer;
    ShowsConcat(s, j, j + 2, "  ", y);
  }

  lemma CloserResumes(s: string, i: nat)
    requires i < |s| && Before(s, i) == Code && OpensBlock(s, i) && BlockEnd(s, i) < |s|
    ensures Before(s, BlockEnd(s, i) + 2) == Code
  {
    var j := BlockEnd(s, i);
    BlockModes(s, i, j);
    assert Before(s, j + 1) == Closer && ModeAt(s, j + 1) == Closer;
  }

  lemma LineResumes(s: string, i: nat)
    requires i < |s| && Before(s, i) == Code && OpensLine(s, i) && LineEnd(s, i) < |s|
    ensures Before(s, LineEnd(s, i)) == Code
  {
    LineModes(s, i, LineEnd(s, i) - 1);
    AtLineEnd(s, i);
  }

  lemma {:induction false} StripShows(s: string, i: nat)
    requires i <= |s| && (i < |s| ==> Before(s, i) == Code)
    ensures ShowsFrom(s, i, StripFrom(s, i))
    decreases |s| - i
  {
    if i < |s| {
      if OpensLine(s, i) {
        if LineEnd(s, i) < |s| { LineResumes(s, i); }
        StripShows(s, LineEnd(s, i));
        ShowsLine(s, i, StripFrom(s, LineEnd(s, i)));
      } else if OpensBlock(s, i) {
        BlockShows(s, i);
      } else {
        StripShows(s, i + 1);
        ShowsConcat(s, i, i + 1, [s[i]], StripFrom(s, i + 1));
      }
    }
  }

  lemma {:induction false} BlockShows(s: string, i: nat)
    requires i < |s| && Before(s, i) == Code && OpensBlock(s, i)
    ensures ShowsFrom(s, i, Blank(s, i, BlockEnd(s, i)) + "  " + StripFrom(s, BlockEnd(s, i) + 2))
    decreases |s| - i, 0
  {
    var j := BlockEnd(s, i);
    var rest := StripFrom(s, j + 2);
    if j < |s| {
      CloserResumes(s, i);
      StripShows(s, j + 2);
      ShowsCloser(s, i, rest);
    }
    ShowsBlock(s, i, "  " + rest);
    assert Blank(s, i, j) + ("  " + rest) == Blank(s, i, j) + "  " + rest;
  }

  /** Exactly which characters are blanked: those inside a comment, where a comment may begin inside quotes too. */
  lemma BlankedExactlyInComments(s: string, k: nat)
    requires k < |s|
    ensures k < |Strip(s)| && Strip(s)[k] == if ModeAt(s, k) == Code then s[k] else Blanked(s[k])
  {
    StripShows(s, 0);
    assert Strip(s)[k - 0] == Shown(s, k);
  }

  // ----- string bodies -----------------------------------------------------------------------------------------------

  lemma {:induction false} LineEndOfLast(s: string, i: nat)
    requires i <= |s| && forall k :: i <= k < |s| ==> s[k] != '\n'
    ensures LineEnd(s, i) == |s|
    decreases |s| - i
  {
    if i < |s| { LineEndOfLast(s, i + 1); }
  }

  lemma {:induction false} CodeComesFirst(s: string, i: nat, n: nat)
    requires i <= n <= |s| && forall k: nat :: k < n ==> !Opens(s, k)
    ensures StripFrom(s, i) == s[i..n] + StripFrom(s, n)
    decreases n - i
  {
    if i < n {
      assert !Opens(s, i);
      CodeComesFirst(s, i + 1, n);
    }
  }

  /** Two slashes take the rest of their line with them, wherever they stand: in quotes as well. */
  lemma SlashesTakeTheRest(a: string, b: string)
    requires CommentFree(a) && (a == "" || a[|a| - 1] != '/') && '\n' !in b
    ensures Strip(a + "//" + b) == a + seq(2 + |b|, _ => ' ')
  {
    var s := a + "//" + b;
    forall k: nat | k < |a| ensures !Opens(s, k) { assert !Opens(a, k); }
    CodeComesFirst(s, 0, |a|);
    assert OpensLine(s, |a|);
    LineEndOfLast(s, |a|);
    assert StripFrom(s, |a|) == Blank(s, |a|, |s|) + "";
    assert Blank(s, |a|, |s|) == seq(2 + |b|, _ => ' ');
  }

  /** A string body is left as it is, whatever it mentions. */
  lemma StringBodyStays()
    ensures Strip("log('Date.now()')") == "log('Date.now()')"
  {
    NoSlashIsFree("log('Date.now()')");
    UntouchedExactlyWhen("log('Date.now()')");
  }

  /** An import specifier with two slashes in it loses everything from them on. */
  lemma SpecifierTailIsLost()
    ensures Strip("import 'a//b'") == "import 'a    "
  {
    NoSlashIsFree("import 'a");
    assert "import 'a" + "//" + "b'" == "import 'a//b'";
    SlashesTakeTheRest("import 'a", "b'");
    assert seq(4, _ => ' ') == "    ";
  }

  lemma NoSlashIsFree(s: string)
    requires '/' !in s
    ensures CommentFree(s)
  {
  }

  lemma {:induction false} BlockEndAt(s: string, i: nat, j: nat)
    requires i <= j < |s| && ClosesBlock(s, j) && forall k :: i <= k < j ==> !ClosesBlock(s, k)
    ensures BlockEnd(s, i) == j
    decreases j - i
  {
    if i < j { BlockEndAt(s, i + 1, j); }
  }

  lemma {:induction false} TailIsUntouched(s: string, i: nat)
    requires i <= |s| && forall k: nat :: k >= i ==> !Opens(s, k)
    ensures StripFrom(s, i) == s[i..]
    decreases |s| - i
  {
    if i < |s| {
      assert !Opens(s, i);
      TailIsUntouched(s, i + 1);
    }
  }

  /** No comment begins at `k`, by its characters. */
  predicate NoOpener(s: string, k: nat) { k + 1 < |s| && s[k] == '/' ==> s[k + 1] != '/' && s[k + 1] != '*' }

  lemma BlockInTheMiddle(s: string, i: nat, j: nat)
    requires i < j && j + 2 <= |s| && OpensBlock(s, i) && !OpensLine(s, i) && ClosesBlock(s, j)
    requires forall k: nat :: k < i || k >= j + 2 ==> !Opens(s, k)
    requires forall k :: i <= k < j ==> !ClosesBlock(s, k)
    ensures Strip(s) == s[..i] + (Blank(s, i, j) + "  " + s[j + 2..])
  {
    BlockAndTail(s, i, j);
    CodeComesFirst(s, 0, i);
    assert s[0..i] == s[..i];
  }

  lemma BlockAndTail(s: string, i: nat, j: nat)
    requires i < j && j + 2 <= |s| && OpensBlock(s, i) && ClosesBlock(s, j)
    requires forall k: nat :: k >= j + 2 ==> !Opens(s, k)
    requires forall k :: i <= k < j ==> !ClosesBlock(s, k)
    ensures StripFrom(s, i) == Blank(s, i, j) + "  " + s[j + 2..]
  {
    BlockEndAt(s, i, j);
    ClosedUnfolds(s, i);
    TailIsUntouched(s, j + 2);
  }

  lemma PiecesInPlace(s: string, i: nat, j: nat, out: string)
    requires i < j && j + 2 <= |s| && s[j] == '*' && s[j + 1] == '/'
    requires out == s[..i] + (Blank(s, i, j) + "  " + s[j + 2..])
    ensures |out| == |s| && forall k :: 0 <= k < |s| ==> out[k] == if i <= k < j + 2 && s[k] != '\n' then ' ' else s[k]
  {
    var tail := Blank(s, i, j) + "  " + s[j + 2..];
    assert forall k :: i <= k < |s| ==> out[k] == tail[k - i];
  }

  /**
   A text whose one comment is a block from `i` to the first closer behind it, at `j`: the block is blanked through its
   closer, but for its newlines, and everything else stays in its place.
   */
  lemma OneBlock(s: string, i: nat, j: nat)
    requires i < j && j + 2 <= |s| && s[i] == '/' && s[i + 1] == '*' && s[j] == '*' && s[j + 1] == '/'
    requires forall k: nat :: k < i || k >= j + 2 ==> NoOpener(s, k)
    requires forall k :: i <= k < j ==> !(s[k] == '*' && s[k + 1] == '/')
    ensures |Strip(s)| == |s|
    ensures forall k :: 0 <= k < |s| ==> Strip(s)[k] == if i <= k < j + 2 && s[k] != '\n' then ' ' else s[k]
  {
    forall k: nat | k < i || k >= j + 2 ensures !Opens(s, k) { assert NoOpener(s, k); }
    BlockInTheMiddle(s, i, j);
    PiecesInPlace(s, i, j, Strip(s));
  }
}
