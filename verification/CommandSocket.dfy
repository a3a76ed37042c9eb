/**
 The daemon's command socket: newline-delimited frames whose boundaries do not depend on how the stream is
 cut into chunks, and a handshake that comes before every command (apps/daemon/src/socket-protocol.ts).
 */
module CommandSocket {
  import opened Options
  import opened Lines

  // ----- framing -----------------------------------------------------------------------------------------------

  function Trim(s: string): string {
    if s != "" && IsSpace(s[0]) then Trim(s[1..])
    else if s != "" && IsSpace(s[|s| - 1]) then Trim(s[..|s| - 1])
    else s
  }

  /** The frames among some lines: trimmed, the empty ones dropped. */
  function Frames(lines: seq<string>): seq<string> {
    if lines == [] then []
    else
      var line := Trim(lines[|lines| - 1]);
      Frames(lines[..|lines| - 1]) + if |line| > 0 then [line] else []
  }

  lemma {:induction false} FramesConcat(a: seq<string>, b: seq<string>)
    ensures Frames(a + b) == Frames(a) + Frames(b)
    decreases |b|
  {
    if b == [] {
      assert a + b == a;
    } else {
      assert (a + b)[..|a + b| - 1] == a + b[..|b| - 1];
      FramesConcat(a, b[..|b| - 1]);
    }
  }

  /** A message as the sender writes it. */
  function Encode(messages: seq<string>): string {
    if messages == [] then "" else Encode(messages[..|messages| - 1]) + messages[|messages| - 1] + [NEWLINE]
  }

  predicate Sendable(m: string) { m != "" && Unbroken(m) && Trim(m) == m }

  lemma OneMoreLine(text: string, m: string)
    requires Rest(text) == "" && Unbroken(m)
    ensures Complete(text + m + [NEWLINE]) == Complete(text) + [m] && Rest(text + m + [NEWLINE]) == ""
  {
    var all := text + m + [NEWLINE];
    assert all[..|all| - 1] == text + m;
    SplitConcat(text, m);
    assert "" + m == m;
    UnbrokenIsRest(m);
  }

  lemma {:induction false} SendableFrames(messages: seq<string>)
    requires forall m :: m in messages ==> Sendable(m)
    ensures Frames(messages) == messages
    decreases |messages|
  {
    if messages != [] {
      var init, m := messages[..|messages| - 1], messages[|messages| - 1];
      assert Sendable(m) by { assert m in messages; }
      SendableFrames(init);
      assert messages == init + [m];
    }
  }

  lemma {:induction false} EncodedLines(messages: seq<string>)
    requires forall m :: m in messages ==> Unbroken(m)
    ensures Complete(Encode(messages)) == messages && Rest(Encode(messages)) == ""
    decreases |messages|
  {
    if messages != [] {
      var init, m := messages[..|messages| - 1], messages[|messages| - 1];
      assert Unbroken(m) by { assert m in messages; }
      EncodedLines(init);
      OneMoreLine(Encode(init), m);
      assert messages == init + [m];
    }
  }

  function Join(chunks: seq<string>): string {
    if chunks == [] then "" else Join(chunks[..|chunks| - 1]) + chunks[|chunks| - 1]
  }

  /** The frames one chunk completes, given what is buffered. */
  function FramesOf(buffer: string, chunk: string): seq<string> { Frames(Complete(buffer + chunk)) }

  /** All frames handed on while a list of chunks arrives. */
  function FramesSeen(chunks: seq<string>): seq<string> {
    if chunks == [] then []
    else FramesSeen(chunks[..|chunks| - 1]) + FramesOf(Rest(Join(chunks[..|chunks| - 1])), chunks[|chunks| - 1])
  }

  /** However the stream is cut, the frames are those of the whole text. */
  lemma {:induction false} FramingIgnoresChunking(chunks: seq<string>)
    ensures FramesSeen(chunks) == Frames(Complete(Join(chunks)))
    decreases |chunks|
  {
    if chunks != [] {
      var init, chunk := chunks[..|chunks| - 1], chunks[|chunks| - 1];
      FramingIgnoresChunking(init);
      SplitConcat(Join(init), chunk);
      FramesConcat(Complete(Join(init)), Complete(Rest(Join(init)) + chunk));
    }
  }

  /** Newline-free, trimmed, non-empty messages arrive exactly as they were sent, in any chunks. */
  lemma MessagesRoundTrip(messages: seq<string>, chunks: seq<string>)
    requires forall m :: m in messages ==> Sendable(m)
    requires Join(chunks) == Encode(messages)
    ensures FramesSeen(chunks) == messages && Rest(Join(chunks)) == ""
  {
    FramingIgnoresChunking(chunks);
    EncodedLines(messages);
    SendableFrames(messages);
  }

  // ----- one connection ------------------------------------------------------------------------------------------

  const PROTOCOL_VERSION := 1

  datatype Frame = Malformed | Unparseable | Hello(version: int, client: string) | Command(body: string)

  datatype Effect =
    | SentError(message: string)
    | SentReject(reason: string)
    | SentAck
    | Connected(client: string)
    | Commanded(body: string)
    | Disconnected(client: string)

  /** What a connection has done so far; and with it, the text that is not yet a line. */
  datatype Link = Link(handshaken: bool, client: string, destroyed: bool, effects: seq<Effect>)
  datatype Connection = Connection(buffer: string, link: Link)

  const UNGREETED := Link(false, "(unknown)", false, [])
  const ACCEPTED := Connection("", UNGREETED)

  /** Nothing is written to a destroyed socket. */
  function Send(c: Link, e: Effect): Link { if c.destroyed then c else c.(effects := c.effects + [e]) }

  predicate Matches(f: Frame) { f.Hello? && f.version == PROTOCOL_VERSION }
  predicate WellFormed(f: Frame) { f.Hello? || f.Command? }

  function OnFrame(c: Link, f: Frame): Link {
    if f.Malformed? then Send(c, SentError("malformed frame"))
    else if f.Unparseable? then Send(c, SentError("unparseable frame"))
    else if !c.handshaken then
      if !f.Hello? then Send(c, SentReject("expected a hello frame first")).(destroyed := true)
      else if f.version != PROTOCOL_VERSION then Send(c, SentReject("protocol version mismatch")).(destroyed := true)
      else
        var acked := Send(c.(handshaken := true, client := f.client), SentAck);
        acked.(effects := acked.effects + [Connected(f.client)])
    else if f.Command? then c.(effects := c.effects + [Commanded(f.body)])
    else c
  }

  function OnFrames(c: Link, frames: seq<string>, parse: string -> Frame): Link {
    if frames == [] then c else OnFrame(OnFrames(c, frames[..|frames| - 1], parse), parse(frames[|frames| - 1]))
  }

  /** Data arrives: every frame it completes is handled, also those behind one that destroyed the socket. */
  function OnData(c: Connection, chunk: string, parse: string -> Frame): Connection {
    Connection(Rest(c.buffer + chunk), OnFrames(c.link, FramesOf(c.buffer, chunk), parse))
  }

  function OnClose(c: Link): Link {
    if c.handshaken then c.(effects := c.effects + [Disconnected(c.client)]) else c
  }

  class SocketConnection {
    const parse: string -> Frame
    var buffer: string
    var handshaken: bool
    var client: string
    var destroyed: bool
    var effects: seq<Effect>

    ghost function Now(): Link
      reads this
    {
      Link(handshaken, client, destroyed, effects)
    }

    constructor (parse: string -> Frame)
      ensures buffer == ACCEPTED.buffer && Now() == ACCEPTED.link && this.parse == parse
    {
      this.parse := parse;
      buffer, handshaken, client, destroyed, effects := "", false, "(unknown)", false, [];
    }

    method Write(e: Effect)
      modifies this`effects
      ensures Now() == Send(old(Now()), e)
    {
      if !destroyed { effects := effects + [e]; }
    }

    method OnLine(line: string)
      modifies this`handshaken, this`client, this`destroyed, this`effects
      ensures Now() == OnFrame(old(Now()), parse(line))
    {
      var frame := parse(line);
      if frame.Malformed? { Write(SentError("malformed frame")); return; }
      if frame.Unparseable? { Write(SentError("unparseable frame")); return; }
      if !handshaken {
        if !frame.Hello? {
          Write(SentReject("expected a hello frame first"));
          destroyed := true;
          return;
        }
        if frame.version != PROTOCOL_VERSION {
          Write(SentReject("protocol version mismatch"));
          destroyed := true;
          return;
        }
        handshaken, client := true, frame.client;
        Write(SentAck);
        effects := effects + [Connected(client)];
        return;
      }
      if frame.Command? { effects := effects + [Commanded(frame.body)]; }
    }

    /** The lines in `done` of the text are handled, and the others are still in the buffer. */
    ghost predicate Progress(start: Link, text: string, done: seq<string>)
      reads this
    {
      && Complete(text) == done + Complete(buffer) && Rest(text) == Rest(buffer)
      && Now() == OnFrames(start, Frames(done), parse)
    }

    method Data(chunk: string)
      requires !destroyed
      modifies this
      ensures Connection(buffer, Now()) == OnData(Connection(old(buffer), old(Now())), chunk, parse)
    {
      ghost var start := Now();
      buffer := buffer + chunk;
      ghost var text, done := buffer, [];
      assert Complete(text) == [] + Complete(buffer);
      var newline := IndexOfNewline(buffer);
      while newline != -1
        invariant IsFirstNewline(buffer, newline) && Progress(start, text, done)
        decreases |buffer|
      {
        done := HandleLine(newline, start, text, done);
        newline := IndexOfNewline(buffer);
      }
      assert Complete(text) == done + [] == done;
    }

    /** One iteration of the framing loop. */
    method HandleLine(newline: int, ghost start: Link, ghost text: string, ghost done: seq<string>) returns (ghost more: seq<string>)
      requires newline != -1 && IsFirstNewline(buffer, newline) && Progress(start, text, done)
      modifies this
      ensures Progress(start, text, more) && |buffer| < old(|buffer|)
    {
      ghost var raw := Complete(buffer)[0];
      more := done + [raw];
      FirstLineFits(buffer);
      assert done + Complete(buffer) == more + Complete(AfterFirst(buffer));
      var line := Trim(buffer[..newline]);
      buffer := buffer[newline + 1..];
      OneMoreFrame(start, done, raw, parse);
      if |line| > 0 { OnLine(line); }
    }

    method Close()
      modifies this
      ensures buffer == old(buffer) && Now() == OnClose(old(Now()))
    {
      if handshaken { effects := effects + [Disconnected(client)]; }
    }
  }

  lemma FramesGrow(done: seq<string>, raw: string)
    ensures Frames(done + [raw]) == if Trim(raw) == "" then Frames(done) else Frames(done) + [Trim(raw)]
  {
    assert (done + [raw])[..|done|] == done;
  }

  lemma OnFramesGrow(c: Link, frames: seq<string>, last: string, parse: string -> Frame)
    ensures OnFrames(c, frames + [last], parse) == OnFrame(OnFrames(c, frames, parse), parse(last))
  {
    assert (frames + [last])[..|frames|] == frames;
  }

  /** A line more is a frame more, unless it is blank. */
  lemma OneMoreFrame(c: Link, done: seq<string>, raw: string, parse: string -> Frame)
    ensures OnFrames(c, Frames(done + [raw]), parse) ==
      if Trim(raw) == "" then OnFrames(c, Frames(done), parse) else OnFrame(OnFrames(c, Frames(done), parse), parse(Trim(raw)))
  {
    FramesGrow(done, raw);
    OnFramesGrow(c, Frames(done), Trim(raw), parse);
  }

  // ----- the handshake comes first ---------------------------------------------------------------------------------

  datatype Event = Data(chunk: string) | Close

  /** No data is delivered once the socket is destroyed, and the close is the last event of a socket. */
  predicate Admissible(c: Connection, run: seq<Event>, parse: string -> Frame)
    decreases |run|
  {
    run == [] ||
    (&& (run[0].Data? ==> !c.link.destroyed) && (run[0].Close? ==> run[1..] == [])
     && Admissible(Apply(c, run[0], parse), run[1..], parse))
  }

  function Apply(c: Connection, e: Event, parse: string -> Frame): Connection {
    match e
    case Data(chunk) => OnData(c, chunk, parse)
    case Close => c.(link := OnClose(c.link))
  }

  function Exec(c: Connection, run: seq<Event>, parse: string -> Frame): Connection
    requires Admissible(c, run, parse)
    decreases |run|
  {
    if run == [] then c else Exec(Apply(c, run[0], parse), run[1..], parse)
  }

  /** Handler calls come after the connection was announced, under the name its hello gave; that happens once. */
  ghost predicate Announced(c: Link) {
    && (forall i :: 0 <= i < |c.effects| && (c.effects[i].Commanded? || c.effects[i].Disconnected?) ==>
          exists j :: 0 <= j < i && c.effects[j] == Connected(c.client))
    && (c.handshaken <==> Connected(c.client) in c.effects)
    && (forall i, j :: 0 <= i < j < |c.effects| && c.effects[i].Connected? ==> !c.effects[j].Connected?)
    && (!c.handshaken ==> forall e :: e in c.effects ==> !e.Connected?)
  }

  lemma PlainEffectKeeps(c: Link, e: Effect)
    requires Announced(c) && !e.Connected? && (e.Commanded? || e.Disconnected? ==> c.handshaken)
    ensures Announced(c.(effects := c.effects + [e]))
  {
    var c' := c.(effects := c.effects + [e]);
    forall i | 0 <= i < |c'.effects| && (c'.effects[i].Commanded? || c'.effects[i].Disconnected?)
      ensures exists j :: 0 <= j < i && c'.effects[j] == Connected(c.client)
    {
      if i < |c.effects| {
        var j :| 0 <= j < i && c.effects[j] == Connected(c.client);
        assert c'.effects[j] == Connected(c.client);
      } else {
        var j :| 0 <= j < |c.effects| && c.effects[j] == Connected(c.client);
        assert c'.effects[j] == Connected(c.client);
      }
    }
  }

  lemma ConnectKeeps(c: Link, client: string)
    requires Announced(c) && !c.handshaken
    ensures Announced(c.(handshaken := true, client := client, effects := c.effects + [Connected(client)]))
  {
  }

  lemma FrameKeeps(c: Link, f: Frame)
    requires Announced(c)
    ensures Announced(OnFrame(c, f))
  {
    if f.Malformed? {
      PlainEffectKeeps(c, SentError("malformed frame"));
    } else if f.Unparseable? {
      PlainEffectKeeps(c, SentError("unparseable frame"));
    } else if !c.handshaken {
      if Matches(f) {
        PlainEffectKeeps(c, SentAck);
        ConnectKeeps(Send(c, SentAck), f.client);
      } else {
        PlainEffectKeeps(c, SentReject(if f.Hello? then "protocol version mismatch" else "expected a hello frame first"));
      }
    } else if f.Command? {
      PlainEffectKeeps(c, Commanded(f.body));
    }
  }

  lemma {:induction false} FramesKeep(c: Link, frames: seq<string>, parse: string -> Frame)
    requires Announced(c)
    ensures Announced(OnFrames(c, frames, parse))
    decreases |frames|
  {
    if frames != [] {
      FramesKeep(c, frames[..|frames| - 1], parse);
      FrameKeeps(OnFrames(c, frames[..|frames| - 1], parse), parse(frames[|frames| - 1]));
    }
  }

  lemma {:induction false} RunKeeps(c: Connection, run: seq<Event>, parse: string -> Frame)
    requires Announced(c.link) && Admissible(c, run, parse)
    ensures Announced(Exec(c, run, parse).link)
    decreases |run|
  {
    if run != [] {
      match run[0] {
        case Data(chunk) => FramesKeep(c.link, FramesOf(c.buffer, chunk), parse);
        case Close => if c.link.handshaken { PlainEffectKeeps(c.link, Disconnected(c.link.client)); }
      }
      RunKeeps(Apply(c, run[0], parse), run[1..], parse);
    }
  }

  /** The frames a list of chunks hands on put a connection into the same state as one chunk would. */
  lemma {:induction false} FramesCompose(c: Link, a: seq<string>, b: seq<string>, parse: string -> Frame)
    ensures OnFrames(c, a + b, parse) == OnFrames(OnFrames(c, a, parse), b, parse)
    decreases |b|
  {
    if b == [] {
      assert a + b == a;
    } else {
      assert (a + b)[..|a + b| - 1] == a + b[..|b| - 1];
      FramesCompose(c, a, b[..|b| - 1], parse);
    }
  }

  /** Some frame in the list is a hello of the daemon's version. */
  ghost predicate Greets(frames: seq<string>, parse: string -> Frame) {
    exists i :: 0 <= i < |frames| && Matches(parse(frames[i]))
  }

  /** The frame at `i` is well-formed and no matching hello comes up to it. */
  ghost predicate TooSoonAt(frames: seq<string>, i: nat, parse: string -> Frame) {
    i < |frames| && WellFormed(parse(frames[i])) && forall k :: 0 <= k <= i ==> !Matches(parse(frames[k]))
  }

  /** Some well-formed frame comes before every matching hello. */
  ghost predicate SpeaksTooSoon(frames: seq<string>, parse: string -> Frame) {
    exists i: nat :: TooSoonAt(frames, i, parse)
  }

  /**
   What the frames of one chunk do to an open, unannounced connection: it is announced exactly when a matching
   hello is among them, and refused exactly when a well-formed frame comes before any. The two are not
   exclusive: the frames behind the refused one are still handled, so a connection whose first well-formed
   frame was wrong is announced after all exactly when a matching hello follows in the same chunk.
   */
  lemma HandshakeExactlyWhen(c: Link, frames: seq<string>, parse: string -> Frame)
    requires !c.handshaken && !c.destroyed
    ensures OnFrames(c, frames, parse).handshaken <==> Greets(frames, parse)
    ensures OnFrames(c, frames, parse).destroyed <==> SpeaksTooSoon(frames, parse)
  {
    FramesHandshake(c, frames, parse);
  }

  lemma OneFrame(c: Link, f: Frame)
    ensures OnFrame(c, f).handshaken <==> c.handshaken || Matches(f)
    ensures OnFrame(c, f).destroyed <==> c.destroyed || (!c.handshaken && WellFormed(f) && !Matches(f))
  {
  }

  lemma {:induction false} FramesHandshake(c: Link, frames: seq<string>, parse: string -> Frame)
    ensures OnFrames(c, frames, parse).handshaken <==> c.handshaken || Greets(frames, parse)
    ensures OnFrames(c, frames, parse).destroyed <==> c.destroyed || (!c.handshaken && SpeaksTooSoon(frames, parse))
    decreases |frames|
  {
    if frames != [] {
      var init, last := frames[..|frames| - 1], frames[|frames| - 1];
      FramesHandshake(c, init, parse);
      assert frames == init + [last];
      GreetsGrows(init, last, parse);
      TooSoonGrows(init, last, parse);
      OneFrame(OnFrames(c, init, parse), parse(last));
    }
  }

  lemma GreetsGrows(init: seq<string>, last: string, parse: string -> Frame)
    ensures Greets(init + [last], parse) <==> Greets(init, parse) || Matches(parse(last))
  {
    var all := init + [last];
    if Greets(init, parse) {
      var i :| 0 <= i < |init| && Matches(parse(init[i]));
      assert Matches(parse(all[i]));
    }
    if Matches(parse(last)) { assert Matches(parse(all[|init|])); }
    if Greets(all, parse) {
      var i :| 0 <= i < |all| && Matches(parse(all[i]));
      if i < |init| { assert Matches(parse(init[i])); }
    }
  }

  lemma TooSoonEarlier(init: seq<string>, last: string, i: nat, parse: string -> Frame)
    requires i < |init|
    ensures TooSoonAt(init + [last], i, parse) <==> TooSoonAt(init, i, parse)
  {
    assert forall k :: 0 <= k <= i ==> (init + [last])[k] == init[k];
  }

  lemma TooSoonLast(init: seq<string>, last: string, parse: string -> Frame)
    ensures TooSoonAt(init + [last], |init|, parse) <==> !Greets(init, parse) && WellFormed(parse(last)) && !Matches(parse(last))
  {
    var all := init + [last];
    assert all[|init|] == last && forall k :: 0 <= k < |init| ==> all[k] == init[k];
  }

  lemma TooSoonGrows(init: seq<string>, last: string, parse: string -> Frame)
    ensures SpeaksTooSoon(init + [last], parse) <==>
      SpeaksTooSoon(init, parse) || (!Greets(init, parse) && WellFormed(parse(last)) && !Matches(parse(last)))
  {
    TooSoonLast(init, last, parse);
    forall i: nat | i < |init| ensures TooSoonAt(init + [last], i, parse) <==> TooSoonAt(init, i, parse) {
      TooSoonEarlier(init, last, i, parse);
    }
    if SpeaksTooSoon(init, parse) {
      var i: nat :| TooSoonAt(init, i, parse);
      assert TooSoonAt(init + [last], i, parse);
    }
    if SpeaksTooSoon(init + [last], parse) {
      var i: nat :| TooSoonAt(init + [last], i, parse);
      assert i < |init| ==> TooSoonAt(init, i, parse);
    }
  }

  // ----- chunks do not matter while data flows -----------------------------------------------------------------------

  /** Two chunks leave the connection, and everything it did, as one chunk with the same text would. */
  lemma TwoChunksAsOne(c: Connection, a: string, b: string, parse: string -> Frame)
    ensures OnData(OnData(c, a, parse), b, parse) == OnData(c, a + b, parse)
  {
    var text := c.buffer + a;
    assert c.buffer + (a + b) == text + b;
    SplitConcat(text, b);
    var first, second := FramesOf(c.buffer, a), FramesOf(Rest(text), b);
    FramesConcat(Complete(text), Complete(Rest(text) + b));
    FramesCompose(c.link, first, second, parse);
  }

  // ----- a connection handles the text it is sent ----------------------------------------------------------------------

  /** The chunks of a run. */
  function Chunks(run: seq<Event>): seq<string> {
    if run == [] then [] else (if run[0].Data? then [run[0].chunk] else []) + Chunks(run[1..])
  }

  lemma {:induction false} JoinCons(chunk: string, chunks: seq<string>)
    ensures Join([chunk] + chunks) == chunk + Join(chunks)
    decreases |chunks|
  {
    if chunks == [] {
      assert [chunk] + chunks == [chunk] && [chunk][..0] == [];
      assert "" + chunk == chunk + "";
    } else {
      var init, last := chunks[..|chunks| - 1], chunks[|chunks| - 1];
      assert ([chunk] + chunks)[..|chunks|] == [chunk] + init;
      JoinCons(chunk, init);
      assert (chunk + Join(init)) + last == chunk + (Join(init) + last);
    }
  }

  /** The connection after a text, and after the socket's close when it has come. */
  function AfterText(c: Connection, text: string, closed: bool, parse: string -> Frame): Connection {
    var d := OnData(c, text, parse);
    if closed then d.(link := OnClose(d.link)) else d
  }

  lemma NoTextChangesNothing(c: Connection, parse: string -> Frame)
    requires Unbroken(c.buffer)
    ensures OnData(c, "", parse) == c
  {
    assert c.buffer + "" == c.buffer;
    UnbrokenIsRest(c.buffer);
  }

  /** A run of chunks does what their text does. */
  lemma {:induction false} RunIsItsText(c: Connection, run: seq<Event>, parse: string -> Frame)
    requires Admissible(c, run, parse) && Unbroken(c.buffer)
    ensures Exec(c, run, parse) == AfterText(c, Join(Chunks(run)), Close in run, parse)
    decreases |run|
  {
    if run == [] {
      NoTextChangesNothing(c, parse);
    } else if run[0].Close? {
      assert run[1..] == [] && Chunks(run) == [];
      NoTextChangesNothing(c, parse);
    } else {
      var chunk, later := run[0].chunk, run[1..];
      assert run == [run[0]] + later;
      RestIsUnbroken(c.buffer + chunk);
      RunIsItsText(OnData(c, chunk, parse), later, parse);
      JoinCons(chunk, Chunks(later));
      TwoChunksAsOne(c, chunk, Join(Chunks(later)), parse);
    }
  }

  /** The position of the first matching hello from `i` on; the number of frames when there is none. */
  function FirstHello(frames: seq<string>, i: nat, parse: string -> Frame): (h: nat)
    requires i <= |frames|
    ensures i <= h <= |frames|
    decreases |frames| - i
  {
    if i == |frames| || Matches(parse(frames[i])) then i else FirstHello(frames, i + 1, parse)
  }

  lemma {:induction false} FirstHelloIsFirst(frames: seq<string>, i: nat, parse: string -> Frame)
    requires i <= |frames|
    ensures var h := FirstHello(frames, i, parse);
      && (h < |frames| ==> Matches(parse(frames[h])))
      && (forall k :: i <= k < h ==> !Matches(parse(frames[k])))
    decreases |frames| - i
  {
    if i < |frames| && !Matches(parse(frames[i])) { FirstHelloIsFirst(frames, i + 1, parse); }
  }

  predicate HasHello(frames: seq<string>, parse: string -> Frame) { FirstHello(frames, 0, parse) < |frames| }

  /** The frames behind the first matching hello. */
  function AfterHello(frames: seq<string>, parse: string -> Frame): seq<string> {
    if HasHello(frames, parse) then frames[FirstHello(frames, 0, parse) + 1..] else []
  }

  /** The commands among some frames. */
  function Commands(frames: seq<string>, parse: string -> Frame): seq<string> {
    if frames == [] then []
    else
      var f := parse(frames[|frames| - 1]);
      Commands(frames[..|frames| - 1], parse) + if f.Command? then [f.body] else []
  }

  /** The commands a connection handed to its handler. */
  function HandedOn(effects: seq<Effect>): seq<string> {
    if effects == [] then []
    else
      var e := effects[|effects| - 1];
      HandedOn(effects[..|effects| - 1]) + if e.Commanded? then [e.body] else []
  }

  lemma HandedOnAppend(effects: seq<Effect>, e: Effect)
    ensures HandedOn(effects + [e]) == HandedOn(effects) + if e.Commanded? then [e.body] else []
  {
    assert (effects + [e])[..|effects|] == effects;
  }

  lemma FrameHandsOn(c: Link, f: Frame)
    ensures HandedOn(OnFrame(c, f).effects) ==
      HandedOn(c.effects) + if c.handshaken && f.Command? then [f.body] else []
  {
    if f.Malformed? {
      HandedOnAppend(c.effects, SentError("malformed frame"));
    } else if f.Unparseable? {
      HandedOnAppend(c.effects, SentError("unparseable frame"));
    } else if !c.handshaken {
      if Matches(f) {
        HandedOnAppend(c.effects, SentAck);
        HandedOnAppend(Send(c, SentAck).effects, Connected(f.client));
      } else {
        HandedOnAppend(c.effects, SentReject(if f.Hello? then "protocol version mismatch" else "expected a hello frame first"));
      }
    } else if f.Command? {
      HandedOnAppend(c.effects, Commanded(f.body));
    }
  }

  lemma {:induction false} FirstHelloGrows(frames: seq<string>, last: string, i: nat, parse: string -> Frame)
    requires i <= |frames|
    ensures var h := FirstHello(frames, i, parse);
      FirstHello(frames + [last], i, parse) == if h < |frames| || Matches(parse(last)) then h else |frames| + 1
    decreases |frames| - i
  {
    if i < |frames| && !Matches(parse(frames[i])) { FirstHelloGrows(frames, last, i + 1, parse); }
  }

  lemma HelloGrows(frames: seq<string>, last: string, parse: string -> Frame)
    ensures AfterHello(frames + [last], parse) == if HasHello(frames, parse) then AfterHello(frames, parse) + [last] else []
  {
    var h := FirstHello(frames, 0, parse);
    FirstHelloGrows(frames, last, 0, parse);
    if h < |frames| { assert (frames + [last])[h + 1..] == frames[h + 1..] + [last]; }
  }

  lemma HandshakenByHello(c: Link, frames: seq<string>, parse: string -> Frame)
    requires !c.handshaken
    ensures OnFrames(c, frames, parse).handshaken <==> HasHello(frames, parse)
  {
    FramesHandshake(c, frames, parse);
    FirstHelloIsFirst(frames, 0, parse);
  }

  lemma OneMoreCommand(frames: seq<string>, last: string, parse: string -> Frame)
    ensures Commands(frames + [last], parse) == Commands(frames, parse) + if parse(last).Command? then [parse(last).body] else []
  {
    assert (frames + [last])[..|frames|] == frames;
  }

  /** The link has handed on what it should, for these frames. */
  ghost predicate HandedOnFor(l: Link, before: seq<string>, frames: seq<string>, parse: string -> Frame) {
    HandedOn(l.effects) == before + Commands(AfterHello(frames, parse), parse)
  }

  lemma NoFramesHandNothingOn(l: Link, parse: string -> Frame)
    ensures HandedOnFor(l, HandedOn(l.effects), [], parse)
  {
    assert Commands(AfterHello([], parse), parse) == [];
  }

  /** One frame more: handed on if it is a command and the hello came before it. */
  lemma HandOnStep(l: Link, before: seq<string>, frames: seq<string>, last: string, all: seq<string>, parse: string -> Frame)
    requires l.handshaken <==> HasHello(frames, parse)
    requires HandedOnFor(l, before, frames, parse) && all == frames + [last]
    ensures HandedOnFor(OnFrame(l, parse(last)), before, all, parse)
  {
    FrameHandsOn(l, parse(last));
    HelloGrows(frames, last, parse);
    OneMoreCommand(AfterHello(frames, parse), last, parse);
  }

  lemma {:induction false} FramesHandOn(c: Link, frames: seq<string>, parse: string -> Frame)
    requires !c.handshaken
    ensures HandedOnFor(OnFrames(c, frames, parse), HandedOn(c.effects), frames, parse)
    decreases |frames|
  {
    if frames == [] {
      NoFramesHandNothingOn(c, parse);
    } else {
      var init, last := frames[..|frames| - 1], frames[|frames| - 1];
      FramesHandOn(c, init, parse);
      HandshakenByHello(c, init, parse);
      HandOnStep(OnFrames(c, init, parse), HandedOn(c.effects), init, last, frames, parse);
    }
  }

  lemma HandsOnFromTheStart(frames: seq<string>, parse: string -> Frame)
    ensures HandedOn(OnFrames(UNGREETED, frames, parse).effects) == Commands(AfterHello(frames, parse), parse)
  {
    FramesHandOn(UNGREETED, frames, parse);
    assert [] + Commands(AfterHello(frames, parse), parse) == Commands(AfterHello(frames, parse), parse);
  }

  function Closed(l: Link, closed: bool): Link { if closed then OnClose(l) else l }

  lemma ClosingHandsOnNothing(l: Link, closed: bool)
    ensures HandedOn(Closed(l, closed).effects) == HandedOn(l.effects)
  {
    HandedOnAppend(l.effects, Disconnected(l.client));
  }

  lemma RunHandlesFrames(run: seq<Event>, parse: string -> Frame)
    requires Admissible(ACCEPTED, run, parse)
    ensures var c, text := Exec(ACCEPTED, run, parse), Join(Chunks(run));
      c.buffer == Rest(text) && c.link == Closed(OnFrames(UNGREETED, Frames(Complete(text)), parse), Close in run)
  {
    RunIsItsText(ACCEPTED, run, parse);
    assert "" + Join(Chunks(run)) == Join(Chunks(run));
  }

  /**
   In every run a connection handles exactly the frames of the text it was sent, however that was cut, and the
   commands it hands on are the command frames behind the first hello of the daemon's version, in their order.
   */
  lemma HandsOnCommandsBehindHello(run: seq<Event>, parse: string -> Frame)
    requires Admissible(ACCEPTED, run, parse)
    ensures var c, text, frames := Exec(ACCEPTED, run, parse), Join(Chunks(run)), FramesSeen(Chunks(run));
      && frames == Frames(Complete(text)) && c.buffer == Rest(text)
      && c.link == Closed(OnFrames(UNGREETED, frames, parse), Close in run)
      && HandedOn(c.link.effects) == Commands(AfterHello(frames, parse), parse)
  {
    var frames := FramesSeen(Chunks(run));
    FramingIgnoresChunking(Chunks(run));
    RunHandlesFrames(run, parse);
    HandsOnFromTheStart(frames, parse);
    ClosingHandsOnNothing(OnFrames(UNGREETED, frames, parse), Close in run);
  }

  /** From sender to handler: messages written one per line arrive, from the first hello on, as the commands they are. */
  lemma SentCommandsAreHandedOn(messages: seq<string>, run: seq<Event>, parse: string -> Frame)
    requires Admissible(ACCEPTED, run, parse) && Join(Chunks(run)) == Encode(messages)
    requires forall m :: m in messages ==> Sendable(m)
    ensures HandedOn(Exec(ACCEPTED, run, parse).link.effects) == Commands(AfterHello(messages, parse), parse)
  {
    MessagesRoundTrip(messages, Chunks(run));
    HandsOnCommandsBehindHello(run, parse);
  }

  /**
   In every run, the handler sees a command, or the end of the connection, only after the connection was
   announced, once; and it is announced exactly when a hello of the daemon's version was among the frames.
   */
  lemma NoCommandBeforeHello(run: seq<Event>, parse: string -> Frame)
    requires Admissible(ACCEPTED, run, parse)
    ensures var c := Exec(ACCEPTED, run, parse);
      && Announced(c.link)
      && (c.link.handshaken <==> Greets(FramesSeen(Chunks(run)), parse))
  {
    RunKeeps(ACCEPTED, run, parse);
    HandsOnCommandsBehindHello(run, parse);
    FramesHandshake(UNGREETED, FramesSeen(Chunks(run)), parse);
  }

  // ----- refused and announced ------------------------------------------------------------------------------------------

  const GREETS_ON_HI: string -> Frame := line => if line == "hi" then Hello(PROTOCOL_VERSION, "c") else Command(line)

  lemma TwoFrames()
    ensures FramesOf("", "x\nhi\n") == ["x", "hi"]
  {
    var sent := ["x", "hi"];
    assert sent[..1] == ["x"] && ["x"][..0] == [];
    assert Encode(["x"]) == "" + "x" + [NEWLINE] == "x\n";
    assert Encode(sent) == "x\n" + "hi" + [NEWLINE] == "x\nhi\n";
    EncodedLines(sent);
    SendableFrames(sent);
    assert "" + "x\nhi\n" == Encode(sent);
  }

  lemma TwoFramesHandled(a: string, b: string, parse: string -> Frame)
    ensures OnFrames(UNGREETED, [a, b], parse) == OnFrame(OnFrame(UNGREETED, parse(a)), parse(b))
  {
    assert [a, b][..1] == [a] && [a][..0] == [];
    assert OnFrames(UNGREETED, [a], parse) == OnFrame(UNGREETED, parse(a));
  }

  /** One chunk with a command and then a hello: the command is refused, the socket destroyed, and the connection announced. */
  lemma RefusedAndAnnounced()
    ensures OnData(ACCEPTED, "x\nhi\n", GREETS_ON_HI).link ==
      Link(true, "c", true, [SentReject("expected a hello frame first"), Connected("c")])
  {
    TwoFrames();
    TwoFramesHandled("x", "hi", GREETS_ON_HI);
  }
}
