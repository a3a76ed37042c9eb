/**
 The approval channel's line reader: prompts and chunks of input arrive in any order, and every prompt is
 answered with its own line (apps/cli/src/stdin.ts).
 */
module LineReader {
  import opened Options
  import opened Lines

  type Prompt = nat   // prompts in the order they were made

  datatype Answer = Answer(prompt: Prompt, line: Option<string>)

  datatype Reader = Reader(buffer: string, ended: bool, attached: bool, waiting: seq<Prompt>, resolved: seq<Answer>, prompts: nat)

  const INITIAL := Reader("", false, false, [], [], 0)

  function Resolve(r: Reader, line: Option<string>, left: string): Reader
    requires r.waiting != []
  {
    r.(buffer := left, waiting := r.waiting[1..], resolved := r.resolved + [Answer(r.waiting[0], line)])
  }

  /** Answer as many waiting prompts as the buffer, or the end of the stream, allows. */
  function Drained(r: Reader): Reader
    decreases |r.waiting|
  {
    if r.waiting == [] then r
    else if Complete(r.buffer) != [] then Drained(Resolve(r, Some(Complete(r.buffer)[0]), AfterFirst(r.buffer)))
    else if r.ended then Drained(Resolve(r, if r.buffer == "" then None else Some(r.buffer), ""))
    else r
  }

  datatype Event =
    | Asks                     // somebody calls the reader with a prompt
    | Chunk(text: string)
    | Ends                     // the end of the stream, or an error

  /** Nothing is read before the first prompt attaches the reader, or after the stream has ended. */
  predicate Enabled(r: Reader, e: Event) {
    match e
    case Asks => true
    case Chunk(_) => r.attached && !r.ended
    case Ends => r.attached
  }

  function Asked(r: Reader): Reader { r.(attached := true, waiting := r.waiting + [r.prompts], prompts := r.prompts + 1) }

  function Apply(r: Reader, e: Event): Reader {
    match e
    case Asks => Drained(Asked(r))
    case Chunk(text) => Drained(r.(buffer := r.buffer + text))
    case Ends => Drained(r.(ended := true))
  }

  class StdinLineReader {
    var buffer: string
    var ended: bool
    var attached: bool
    var waiting: seq<Prompt>
    var resolved: seq<Answer>       // the promises resolved so far, in order
    var prompts: nat

    ghost function Value(): Reader
      reads this
    {
      Reader(buffer, ended, attached, waiting, resolved, prompts)
    }

    constructor ()
      ensures Value() == INITIAL
    {
      buffer, ended, attached, waiting, resolved, prompts := "", false, false, [], [], 0;
    }

    method Drain()
      modifies this
      ensures Value() == Drained(old(Value()))
    {
      while |waiting| > 0
        invariant Drained(Value()) == Drained(old(Value()))
        decreases |waiting|
      {
        var newline := IndexOfNewline(buffer);
        if newline != -1 {
          var line := buffer[..newline];
          buffer := buffer[newline + 1..];
          Shift(Some(line));
          continue;
        }
        if ended {
          var rest := buffer;
          buffer := "";
          Shift(if rest != "" then Some(rest) else None);
          continue;
        }
        return;
      }
    }

    /** Resolve the oldest waiting prompt. */
    method Shift(line: Option<string>)
      requires waiting != []
      modifies this`waiting, this`resolved
      ensures Value() == Resolve(old(Value()), line, buffer)
    {
      resolved := resolved + [Answer(waiting[0], line)];
      waiting := waiting[1..];
    }

    method OnData(chunk: string)
      requires attached && !ended
      modifies this
      ensures Value() == Apply(old(Value()), Chunk(chunk))
    {
      buffer := buffer + chunk;
      Drain();
    }

    method OnEnd()
      requires attached
      modifies this
      ensures Value() == Apply(old(Value()), Ends)
    {
      ended := true;
      Drain();
    }

    method Ask() returns (prompt: Prompt)
      modifies this
      ensures prompt == old(prompts) && Value() == Apply(old(Value()), Asks)
    {
      prompt := prompts;
      attached, waiting, prompts := true, waiting + [prompts], prompts + 1;
      Drain();
    }
  }

  // ----- what each prompt is answered --------------------------------------------------------------------------

  /** The j-th line of a whole stream: a final unterminated line counts, and past the end there is none. */
  function LineAt(text: string, j: nat): Option<string> {
    var lines := Complete(text);
    if j < |lines| then Some(lines[j]) else if j == |lines| && Rest(text) != "" then Some(Rest(text)) else None
  }

  /** The answers so far go to the prompts in order, and say what the text read so far settles for good. */
  ghost predicate AnswersOk(r: Reader, text: string) {
    forall j :: 0 <= j < |r.resolved| ==>
      && r.resolved[j] == Answer(j, LineAt(text, j))
      && (r.ended || j < |Complete(text)|)
  }

  /** The buffer holds what the answered prompts left of the text. */
  ghost predicate BufferOk(r: Reader, text: string) {
    var k, lines := |r.resolved|, Complete(text);
    if k <= |lines| then Complete(r.buffer) == lines[k..] && Rest(r.buffer) == Rest(text)
    else r.buffer == "" && r.ended
  }

  ghost predicate QueueOk(r: Reader) {
    |r.resolved| + |r.waiting| == r.prompts && forall i :: 0 <= i < |r.waiting| ==> r.waiting[i] == |r.resolved| + i
  }

  /** A prompt waits only while the stream is open and holds no full line for it. */
  ghost predicate WaitOk(r: Reader) { r.waiting != [] ==> !r.ended && Complete(r.buffer) == [] && r.attached }

  ghost predicate Inv(r: Reader, text: string) { AnswersOk(r, text) && BufferOk(r, text) && QueueOk(r) }

  lemma LineKeeps(r: Reader, text: string)
    requires Inv(r, text) && r.waiting != [] && Complete(r.buffer) != []
    ensures Inv(Resolve(r, Some(Complete(r.buffer)[0]), AfterFirst(r.buffer)), text)
  {
    var k, lines := |r.resolved|, Complete(text);
    FirstLineFits(r.buffer);
    assert Complete("") == [];
    assert lines[k..][0] == lines[k] && lines[k..][1..] == lines[k + 1..];
  }

  lemma LastKeeps(r: Reader, text: string)
    requires Inv(r, text) && r.waiting != [] && r.ended
    requires Complete(r.buffer) == [] && Rest(r.buffer) == r.buffer && Complete("") == []
    ensures Inv(Resolve(r, if r.buffer == "" then None else Some(r.buffer), ""), text)
  {
    var k, lines := |r.resolved|, Complete(text);
    assert k <= |lines| ==> lines[k..] == [] && k == |lines|;
  }

  lemma {:induction false} DrainKeeps(r: Reader, text: string)
    requires Inv(r, text)
    ensures Inv(Drained(r), text) && (Drained(r).waiting != [] ==> !r.ended && Complete(Drained(r).buffer) == [])
    ensures Drained(r).ended == r.ended && Drained(r).attached == r.attached && Drained(r).prompts == r.prompts
    decreases |r.waiting|
  {
    if r.waiting != [] {
      if Complete(r.buffer) != [] {
        LineKeeps(r, text);
        DrainKeeps(Resolve(r, Some(Complete(r.buffer)[0]), AfterFirst(r.buffer)), text);
      } else if r.ended {
        BrokenHasALine(r.buffer);
        UnbrokenIsRest(r.buffer);
        LastKeeps(r, text);
        DrainKeeps(Resolve(r, if r.buffer == "" then None else Some(r.buffer), ""), text);
      }
    }
  }

  /** What is settled stays settled when more text arrives. */
  lemma ChunkKeeps(r: Reader, text: string, chunk: string)
    requires Inv(r, text) && !r.ended
    ensures Inv(r.(buffer := r.buffer + chunk), text + chunk)
  {
    SplitConcat(text, chunk);
    SplitConcat(r.buffer, chunk);
    var k, lines, more := |r.resolved|, Complete(text), Complete(Rest(text) + chunk);
    if k > 0 { assert r.resolved[k - 1].line == LineAt(text, k - 1); }
    assert (lines + more)[k..] == lines[k..] + more;
  }

  lemma EndKeeps(r: Reader, text: string)
    requires Inv(r, text)
    ensures Inv(r.(ended := true), text)
  {
  }

  // ----- runs --------------------------------------------------------------------------------------------------

  predicate Admissible(r: Reader, run: seq<Event>)
    decreases |run|
  {
    run == [] || (Enabled(r, run[0]) && Admissible(Apply(r, run[0]), run[1..]))
  }

  function Exec(r: Reader, run: seq<Event>): Reader
    requires Admissible(r, run)
    decreases |run|
  {
    if run == [] then r else Exec(Apply(r, run[0]), run[1..])
  }

  function Piece(e: Event): string { if e.Chunk? then e.text else "" }

  /** Everything the stream delivered during a run, however it was cut up. */
  function TextOf(run: seq<Event>): string {
    if run == [] then "" else Piece(run[0]) + TextOf(run[1..])
  }

  function AsksIn(run: seq<Event>): nat { if run == [] then 0 else (if run[0].Asks? then 1 else 0) + AsksIn(run[1..]) }

  lemma StepKeeps(r: Reader, text: string, e: Event)
    requires Inv(r, text) && WaitOk(r) && Enabled(r, e)
    ensures Inv(Apply(r, e), text + Piece(e)) && WaitOk(Apply(r, e))
    ensures Apply(r, e).prompts == r.prompts + (if e.Asks? then 1 else 0) && Apply(r, e).ended == (r.ended || e.Ends?)
  {
    match e
    case Asks =>
      assert text + "" == text;
      DrainKeeps(Asked(r), text);
    case Chunk(chunk) =>
      ChunkKeeps(r, text, chunk);
      DrainKeeps(r.(buffer := r.buffer + chunk), text + chunk);
    case Ends =>
      assert text + "" == text;
      EndKeeps(r, text);
      DrainKeeps(r.(ended := true), text);
  }

  lemma {:induction false} RunKeeps(r: Reader, text: string, run: seq<Event>)
    requires Inv(r, text) && WaitOk(r) && Admissible(r, run)
    ensures var r' := Exec(r, run);
      && Inv(r', text + TextOf(run)) && WaitOk(r') && r'.prompts == r.prompts + AsksIn(run)
    decreases |run|
  {
    if run == [] {
      assert text + "" == text;
    } else {
      StepKeeps(r, text, run[0]);
      RunKeeps(Apply(r, run[0]), text + Piece(run[0]), run[1..]);
      Associate(text, Piece(run[0]), TextOf(run[1..]));
    }
  }

  lemma Associate(a: string, b: string, c: string)
    ensures a + b + c == a + (b + c)
  {
  }

  /**
   Every interleaving of prompts, chunks and the end: the j-th prompt is answered with the j-th line of what
   the stream delivers, whenever the line came, however it was chunked; once the stream has ended nobody
   waits, and before that a prompt waits exactly for want of a full line.
   */
  lemma PromptsGetTheirLines(run: seq<Event>)
    requires Admissible(INITIAL, run)
    ensures var r, text, n := Exec(INITIAL, run), TextOf(run), AsksIn(run);
      && (forall j :: 0 <= j < |r.resolved| ==> r.resolved[j] == Answer(j, LineAt(text, j)))
      && |r.resolved| == (if r.ended then n else Min(n, |Complete(text)|))
      && |r.waiting| == n - |r.resolved|
  {
    assert "" + TextOf(run) == TextOf(run);
    RunKeeps(INITIAL, "", run);
  }

  /** An answer given while the stream was open is the one the finished stream gives: timing never matters. */
  lemma AnswersAreFinal(run: seq<Event>, more: string, j: nat)
    requires Admissible(INITIAL, run) && !Exec(INITIAL, run).ended && j < |Exec(INITIAL, run).resolved|
    ensures Exec(INITIAL, run).resolved[j].line == LineAt(TextOf(run) + more, j)
  {
    PromptsGetTheirLines(run);
    SplitConcat(TextOf(run), more);
  }

  /** Two finished runs over the same text agree on every prompt both made. */
  lemma AnswersIgnoreTiming(a: seq<Event>, b: seq<Event>, j: nat)
    requires Admissible(INITIAL, a) && Admissible(INITIAL, b) && TextOf(a) == TextOf(b)
    requires Exec(INITIAL, a).ended && Exec(INITIAL, b).ended && j < AsksIn(a) && j < AsksIn(b)
    ensures j < |Exec(INITIAL, a).resolved| && j < |Exec(INITIAL, b).resolved|
    ensures Exec(INITIAL, a).resolved[j] == Exec(INITIAL, b).resolved[j]
  {
    PromptsGetTheirLines(a);
    PromptsGetTheirLines(b);
  }
}
