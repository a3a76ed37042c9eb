/**
 Everything a connection writes and tells its handler, told frame by frame from the frames before it; and what
 trimming a line leaves.
 */
module SocketReplies {
  import opened Options
  import opened Lines
  import opened CommandSocket

  // ----- trimming -------------------------------------------------------------------------------------------------------

  /** The middle of a text, with nothing but white space around it and none at its own ends. */
  ghost predicate IsMiddle(s: string, m: string, i: nat, j: nat) {
    && i <= j <= |s| && m == s[i..j]
    && (forall k :: 0 <= k < i || j <= k < |s| ==> IsSpace(s[k]))
    && (m != "" ==> !IsSpace(m[0]) && !IsSpace(m[|m| - 1]))
  }

  lemma {:induction false} TrimIsTheMiddle(s: string) returns (i: nat, j: nat)
    ensures IsMiddle(s, Trim(s), i, j)
    decreases |s|
  {
    if s != "" && IsSpace(s[0]) {
      i, j := TrimIsTheMiddle(s[1..]);
      Shifted(s, Trim(s), i, j);
      i, j := i + 1, j + 1;
    } else if s != "" && IsSpace(s[|s| - 1]) {
      i, j := TrimIsTheMiddle(s[..|s| - 1]);
      assert s[..|s| - 1][i..j] == s[i..j];
    } else {
      i, j := 0, |s|;
    }
  }

  lemma Shifted(s: string, m: string, i: nat, j: nat)
    requires s != "" && IsSpace(s[0]) && IsMiddle(s[1..], m, i, j)
    ensures IsMiddle(s, m, i + 1, j + 1)
  {
    forall k | 0 <= k < i + 1 || j + 1 <= k < |s| ensures IsSpace(s[k]) {
      if k > 0 { assert IsSpace(s[1..][k - 1]); }
    }
  }

  /** Tabs, line breaks, spaces, the no-break and the ideographic space are white space; letters and braces are not. */
  lemma WhiteSpaceByName()
    ensures IsSpace('\t') && IsSpace('\n') && IsSpace('\r') && IsSpace(' ') && IsSpace('\U{0B}') && IsSpace('\U{0C}')
    ensures IsSpace('\U{A0}') && IsSpace('\U{3000}') && IsSpace('\U{FEFF}') && IsSpace('\U{2028}') && IsSpace('\U{2003}')
    ensures forall c: char :: '!' <= c <= '~' ==> !IsSpace(c)
    ensures !IsSpace('\U{08}') && !IsSpace('\U{0E}') && !IsSpace('\U{200B}')
  {
  }

  // ----- lines ------------------------------------------------------------------------------------------------------------

  /** Lines as they are written: each with a line feed behind it. */
  function Written(lines: seq<string>): string {
    if lines == [] then "" else Written(lines[..|lines| - 1]) + lines[|lines| - 1] + "\n"
  }

  /** A text is its lines, written, and what is left behind the last of them; none of these holds a line feed. */
  lemma {:induction false} TextIsItsLines(text: string)
    ensures Written(Complete(text)) + Rest(text) == text
    ensures '\n' !in Rest(text) && forall i :: 0 <= i < |Complete(text)| ==> '\n' !in Complete(text)[i]
    decreases |text|
  {
    if text != "" {
      var n := |text| - 1;
      TextIsItsLines(text[..n]);
      assert text == text[..n] + [text[n]];
      if text[n] == '\n' {
        assert Complete(text)[..|Complete(text)| - 1] == Complete(text[..n]);
        assert Written(Complete(text)) == Written(Complete(text[..n])) + Rest(text[..n]) + "\n";
      }
    }
  }

  // ----- replies ----------------------------------------------------------------------------------------------------------

  /** A hello of the version the daemon speaks. */
  predicate IsGreeting(f: Frame) { f.Hello? && f.version == 1 }

  predicate Greeted(fs: seq<Frame>, i: nat) { exists k :: 0 <= k < i && k < |fs| && IsGreeting(fs[k]) }

  /** The first frame that could be read was no greeting: the connection was refused. */
  predicate RefusedAt(fs: seq<Frame>, k: nat) {
    && k < |fs| && (fs[k].Hello? || fs[k].Command?) && !IsGreeting(fs[k])
    && forall j :: 0 <= j < k ==> !fs[j].Hello? && !fs[j].Command?
  }

  predicate RefusedBefore(fs: seq<Frame>, i: nat) { exists k :: 0 <= k < i && RefusedAt(fs, k) }

  function Unless(silenced: bool, e: Effect): seq<Effect> { if silenced then [] else [e] }

  /**
   What the frame at `i` brings about: an error for one that cannot be read, a rejection for one that should have been
   a greeting, an acknowledgement and the announcement for the first greeting, and the command for one behind it.
   Nothing is written once the connection was refused; the handler hears of a greeting and commands all the same.
   */
  function ReplyAt(fs: seq<Frame>, i: nat): seq<Effect>
    requires i < |fs|
  {
    var silenced := RefusedBefore(fs, i);
    match fs[i]
    case Malformed => Unless(silenced, SentError("malformed frame"))
    case Unparseable => Unless(silenced, SentError("unparseable frame"))
    case Hello(version, client) =>
      if Greeted(fs, i) then []
      else if version == 1 then Unless(silenced, SentAck) + [Connected(client)]
      else Unless(silenced, SentReject("protocol version mismatch"))
    case Command(body) =>
      if Greeted(fs, i) then [Commanded(body)] else Unless(silenced, SentReject("expected a hello frame first"))
  }

  function Replies(fs: seq<Frame>, n: nat): seq<Effect>
    requires n <= |fs|
    decreases n
  {
    if n == 0 then [] else Replies(fs, n - 1) + ReplyAt(fs, n - 1)
  }

  function Parsed(frames: seq<string>, parse: string -> Frame): seq<Frame> {
    seq(|frames|, i requires 0 <= i < |frames| => parse(frames[i]))
  }

  /** Where the connection is after the first `n` frames. */
  ghost predicate IsAt(c: Link, fs: seq<Frame>, n: nat)
    requires n <= |fs|
  {
    && (c.handshaken <==> Greeted(fs, n)) && (c.destroyed <==> RefusedBefore(fs, n))
    && (!c.handshaken && !c.destroyed ==> forall j :: 0 <= j < n ==> !fs[j].Hello? && !fs[j].Command?)
    && (c.handshaken || c.destroyed ==> exists j :: 0 <= j < n && (fs[j].Hello? || fs[j].Command?))
    && c.effects == Replies(fs, n)
  }

  lemma OneMoreReply(c: Link, fs: seq<Frame>, n: nat)
    requires n < |fs| && IsAt(c, fs, n)
    ensures var c' := OnFrame(c, fs[n]); c'.effects == c.effects + ReplyAt(fs, n)
  {
    match fs[n]
    case Hello(_, client) =>
      if !c.handshaken && fs[n].version == 1 {
        assert OnFrame(c, fs[n]).effects == (if c.destroyed then c.effects else c.effects + [SentAck]) + [Connected(client)];
      }
    case _ =>
  }

  lemma OneMoreFrameIsAt(c: Link, fs: seq<Frame>, n: nat)
    requires n < |fs| && IsAt(c, fs, n)
    ensures IsAt(OnFrame(c, fs[n]), fs, n + 1)
  {
    var m := n + 1;
    OneMoreReply(c, fs, n);
    assert Greeted(fs, m) <==> Greeted(fs, n) || IsGreeting(fs[n]);
    assert RefusedBefore(fs, m) <==> RefusedBefore(fs, n) || RefusedAt(fs, n);
    if c.handshaken || c.destroyed {
      var j :| 0 <= j < n && (fs[j].Hello? || fs[j].Command?);
      assert !RefusedAt(fs, n);
    }
  }

  lemma {:induction false} FramesAreAt(frames: seq<string>, n: nat, parse: string -> Frame)
    requires n <= |frames|
    ensures IsAt(OnFrames(UNGREETED, frames[..n], parse), Parsed(frames, parse), n)
    decreases n
  {
    if n > 0 {
      FramesAreAt(frames, n - 1, parse);
      assert frames[..n][..n - 1] == frames[..n - 1];
      OneMoreFrameIsAt(OnFrames(UNGREETED, frames[..n - 1], parse), Parsed(frames, parse), n - 1);
    }
  }

  /**
   Over every run of a connection: what it wrote and what its handler was told is, frame by frame of the text it was
   sent, however cut, what each brings about, and at the close, if it was greeted, the disconnection.
   */
  lemma EveryFrameIsAnswered(run: seq<Event>, parse: string -> Frame)
    requires Admissible(ACCEPTED, run, parse)
    ensures var c, frames := Exec(ACCEPTED, run, parse), Frames(Complete(Join(Chunks(run))));
      var fs := Parsed(frames, parse);
      && (c.link.handshaken <==> Greeted(fs, |fs|)) && (c.link.destroyed <==> RefusedBefore(fs, |fs|))
      && c.link.effects == Replies(fs, |fs|) + if Close in run && Greeted(fs, |fs|) then [Disconnected(c.link.client)] else []
  {
    var frames := FramesSeen(Chunks(run));
    HandsOnCommandsBehindHello(run, parse);
    AllFramesAreAt(frames, parse);
    ClosedIsAt(OnFrames(UNGREETED, frames, parse), Close in run, Parsed(frames, parse));
  }

  lemma AllFramesAreAt(frames: seq<string>, parse: string -> Frame)
    ensures IsAt(OnFrames(UNGREETED, frames, parse), Parsed(frames, parse), |frames|)
  {
    FramesAreAt(frames, |frames|, parse);
    assert frames[..|frames|] == frames;
  }

  lemma ClosedIsAt(l: Link, closed: bool, fs: seq<Frame>)
    requires IsAt(l, fs, |fs|)
    ensures var c := Closed(l, closed);
      && (c.handshaken <==> Greeted(fs, |fs|)) && (c.destroyed <==> RefusedBefore(fs, |fs|))
      && c.effects == Replies(fs, |fs|) + if closed && Greeted(fs, |fs|) then [Disconnected(c.client)] else []
  {
  }
}
