/**
 What a session knows of its peer: over every history, told by its events alone, when the peer counts as gone and
 which frames a reconnect replays.
 */
module RemoteLiveness {
  import opened Options
  import opened RemoteSession

  /** What happens to a session after it is constructed, with the time the clock shows. */
  datatype Happening =
    | Marked(at: int)                 // the transport reports the peer connected
    | Arrives(raw: Raw, at: int)
    | Checked(at: int)                // somebody asks whether the heartbeat lapsed
    | Sends(payload: Payload, id: string, corr: Option<string>)

  // ----- what the session does ----------------------------------------------------------------------------------

  function Step(s: Session, h: Happening): Session {
    match h
    case Marked(at) => s.(peer := Connected, lastHeartbeatAt := at)
    case Arrives(raw, at) => AfterReceive(s, raw, at)
    case Checked(at) => AfterHeartbeatCheck(s, at)
    case Sends(payload, id, corr) => AfterFrame(s, payload, id, corr)
  }

  /** The session constructed at `start`, after a history. */
  function After(digest: string, timeout: int, start: int, history: seq<Happening>): Session {
    if history == [] then Fresh(digest, timeout, start)
    else Step(After(digest, timeout, start, history[..|history| - 1]), history[|history| - 1])
  }

  // ----- what the history says -----------------------------------------------------------------------------------

  /** An envelope the schema lets through: a version, an id of 1 to 128 characters, no negative sequence. */
  predicate Usable(raw: Raw) {
    && raw.Parsed? && raw.env.version >= 1 && 1 <= |raw.env.messageId| <= 128 && raw.env.sequence >= 0
    && (raw.env.payload.Ack? ==> raw.env.payload.ackSequence >= 0)
  }

  /** A usable envelope with this id came before. */
  predicate Came(history: seq<Happening>, id: string) {
    exists k :: 0 <= k < |history| && history[k].Arrives? && Usable(history[k].raw) && history[k].raw.env.messageId == id
  }

  predicate IsNews(history: seq<Happening>, raw: Raw) { Usable(raw) && !Came(history, raw.env.messageId) }

  /** The latest sign of life: the construction, a transport that connected, or a usable envelope with a new id. */
  function LastSign(start: int, history: seq<Happening>): int {
    if history == [] then start
    else
      var before, h := history[..|history| - 1], history[|history| - 1];
      if h.Marked? || (h.Arrives? && IsNews(before, h.raw)) then h.at else LastSign(start, before)
  }

  /**
   The state of the peer: connecting at first; connected once a transport reports it; disconnected from a check that
   comes too late after the latest sign of life until a transport or a new heartbeat brings it back.
   */
  function PeerAfter(timeout: int, start: int, history: seq<Happening>): PeerState {
    if history == [] then Connecting
    else
      var past, h := history[..|history| - 1], history[|history| - 1];
      var before := PeerAfter(timeout, start, past);
      match h
      case Marked(_) => Connected
      case Arrives(raw, _) => if before.Disconnected? && IsNews(past, raw) && raw.env.payload.Heartbeat? then Connected else before
      case Checked(at) => if at - LastSign(start, past) > timeout then Disconnected else before
      case Sends(_, _, _) => before
  }

  predicate Gone(timeout: int, start: int, history: seq<Happening>) { PeerAfter(timeout, start, history).Disconnected? }

  /** The highest sequence of the work that was news; -1 when there was none. */
  function HighestWork(history: seq<Happening>): int {
    if history == [] then -1
    else
      var past, h := history[..|history| - 1], history[|history| - 1];
      var before := HighestWork(past);
      if h.Arrives? && IsNews(past, h.raw) && h.raw.env.payload.Work? && h.raw.env.sequence > before then h.raw.env.sequence else before
  }

  // ----- they agree ----------------------------------------------------------------------------------------------

  lemma CameGrows(history: seq<Happening>, h: Happening, id: string)
    ensures Came(history + [h], id) <==> Came(history, id) || (h.Arrives? && Usable(h.raw) && h.raw.env.messageId == id)
  {
    var all := history + [h];
    if Came(history, id) {
      var k :| 0 <= k < |history| && history[k].Arrives? && Usable(history[k].raw) && history[k].raw.env.messageId == id;
      assert all[k] == history[k];
    }
    if h.Arrives? && Usable(h.raw) && h.raw.env.messageId == id { assert all[|history|] == h; }
  }

  /** What a session remembers of its history. */
  ghost predicate Remembers(s: Session, timeout: int, start: int, history: seq<Happening>) {
    && s.disconnectAfter == timeout
    && (forall id :: id in s.seen <==> Came(history, id))
    && s.lastHeartbeatAt == LastSign(start, history)
    && s.peer == PeerAfter(timeout, start, history)
    && s.lastInbound == HighestWork(history)
  }

  lemma StepRemembers(s: Session, timeout: int, start: int, history: seq<Happening>, h: Happening)
    requires Remembers(s, timeout, start, history)
    ensures Remembers(Step(s, h), timeout, start, history + [h])
  {
    var all := history + [h];
    assert all[..|all| - 1] == history;
    forall id ensures id in Step(s, h).seen <==> Came(all, id) { CameGrows(history, h, id); }
  }

  lemma {:induction false} SessionRemembers(digest: string, timeout: int, start: int, history: seq<Happening>)
    ensures Remembers(After(digest, timeout, start, history), timeout, start, history)
    decreases |history|
  {
    if history != [] {
      var before, h := history[..|history| - 1], history[|history| - 1];
      SessionRemembers(digest, timeout, start, before);
      StepRemembers(After(digest, timeout, start, before), timeout, start, before, h);
      assert before + [h] == history;
    }
  }

  /** A check at this time takes the peer for gone and had not before: what `CheckHeartbeat` reports. */
  predicate Reports(s: Session, at: int) {
    !s.peer.Disconnected? && Step(s, Checked(at)).peer.Disconnected?
  }

  /**
   Over every history: a check reports the peer's loss if and only if the peer is not gone already and the latest
   sign of life is more than the timeout before the check.
   */
  lemma LossIsReportedExactlyWhen(digest: string, timeout: int, start: int, history: seq<Happening>, at: int)
    ensures var s := After(digest, timeout, start, history);
      Reports(s, at) <==> !Gone(timeout, start, history) && at - LastSign(start, history) > timeout
  {
    SessionRemembers(digest, timeout, start, history);
    SessionRemembers(digest, timeout, start, history + [Checked(at)]);
    assert (history + [Checked(at)])[..|history|] == history;
  }

  /** `CheckHeartbeat` returns that report, and leaves the session the step leaves. */
  method CheckOf(session: RemoteSession, at: int, ghost s: Session) returns (lost: bool)
    requires session.Valid() && session.State() == s
    modifies session
    ensures session.Valid() && session.State() == Step(s, Checked(at)) && lost == Reports(s, at)
  {
    lost := session.CheckHeartbeat(at);
  }

  /** The peer is gone after a history exactly when the session says so; a new heartbeat always brings it back. */
  lemma HeartbeatRevives(digest: string, timeout: int, start: int, history: seq<Happening>, raw: Raw, at: int)
    requires IsNews(history, raw) && raw.env.payload.Heartbeat?
    ensures After(digest, timeout, start, history).peer.Disconnected? <==> Gone(timeout, start, history)
    ensures !After(digest, timeout, start, history + [Arrives(raw, at)]).peer.Disconnected?
    ensures Gone(timeout, start, history) ==> After(digest, timeout, start, history + [Arrives(raw, at)]).peer.Connected?
  {
    SessionRemembers(digest, timeout, start, history);
    SessionRemembers(digest, timeout, start, history + [Arrives(raw, at)]);
    assert (history + [Arrives(raw, at)])[..|history|] == history;
  }

  /** Work and acks are signs of life too, but do not bring a peer back. */
  lemma OtherNewsDoesNotRevive(digest: string, timeout: int, start: int, history: seq<Happening>, raw: Raw, at: int)
    requires Gone(timeout, start, history) && (raw.Parsed? ==> !raw.env.payload.Heartbeat?)
    ensures After(digest, timeout, start, history + [Arrives(raw, at)]).peer.Disconnected?
    ensures IsNews(history, raw) ==> After(digest, timeout, start, history + [Arrives(raw, at)]).lastHeartbeatAt == at
  {
    SessionRemembers(digest, timeout, start, history + [Arrives(raw, at)]);
    assert (history + [Arrives(raw, at)])[..|history|] == history;
  }

  /**
   Over every history, what is received is answered by what the history says: unusable, seen before, and if it is news
   by its payload. After it the peer and the highest sequence of work received are those of the history.
   */
  lemma AnsweredByTheHistory(digest: string, timeout: int, start: int, history: seq<Happening>, raw: Raw)
    ensures var s := After(digest, timeout, start, history);
      && s.peer == PeerAfter(timeout, start, history) && s.lastInbound == HighestWork(history)
      && Answer(s, raw) ==
           if !Usable(raw) then Dropped(InvalidEnvelope)
           else if Came(history, raw.env.messageId) then Dropped(DuplicateMessage)
           else if raw.env.payload.Heartbeat? then Dropped(HeartbeatHandled)
           else if raw.env.payload.Ack? then Dropped(AckHandled)
           else Deliver(raw.env.payload)
  {
    SessionRemembers(digest, timeout, start, history);
  }

  const BEAT := Parsed(Envelope(1, "m", None, 0, "d", Heartbeat))

  /** At the default timeout: a heartbeat at 40 seconds keeps the peer until 85 seconds have passed. */
  lemma HeartbeatBuysTime()
    ensures var s := After("d", DISCONNECT_AFTER_MS, 0, [Marked(0), Arrives(BEAT, 40_000)]);
      !Reports(s, 50_000) && !Reports(s, 85_000) && Reports(s, 85_001)
  {
    var history := [Marked(0), Arrives(BEAT, 40_000)];
    assert history[..1] == [Marked(0)] && !Came([Marked(0)], "m");
    assert LastSign(0, history) == 40_000;
    assert [Marked(0)][..0] == [] && !Gone(45_000, 0, [Marked(0)]);
    LossIsReportedExactlyWhen("d", DISCONNECT_AFTER_MS, 0, history, 50_000);
    LossIsReportedExactlyWhen("d", DISCONNECT_AFTER_MS, 0, history, 85_000);
    LossIsReportedExactlyWhen("d", DISCONNECT_AFTER_MS, 0, history, 85_001);
  }

  // ----- what a reconnect replays ---------------------------------------------------------------------------------

  function Sent(history: seq<Happening>): nat {
    if history == [] then 0 else Sent(history[..|history| - 1]) + if history[|history| - 1].Sends? then 1 else 0
  }

  /** An ack that is news. */
  predicate AcksAt(history: seq<Happening>, j: nat) {
    j < |history| && history[j].Arrives? && IsNews(history[..j], history[j].raw) && history[j].raw.env.payload.Ack?
  }

  function HighestAck(history: seq<Happening>): int {
    if history == [] then -1
    else
      var n := |history| - 1;
      var before := HighestAck(history[..n]);
      if AcksAt(history, n) then Max(before, history[n].raw.env.payload.ackSequence) else before
  }

  /** After the frame sent at `k`, an ack came by which its sequence, or a higher one, had been acknowledged. */
  predicate Confirmed(history: seq<Happening>, k: nat)
    requires k < |history|
  {
    exists j :: k < j < |history| && AcksAt(history, j) && HighestAck(history[..j + 1]) >= Sent(history[..k])
  }

  /** The envelope that carries what was sent at `k`. */
  function EnvelopeOf(digest: string, history: seq<Happening>, k: nat): Envelope
    requires k < |history| && history[k].Sends?
  {
    Envelope(1, history[k].id, history[k].corr, Sent(history[..k]), digest, history[k].payload)
  }

  /** The frame sent at `k` is the kept one under its sequence, or confirmed. */
  ghost predicate KeptAt(s: Session, digest: string, history: seq<Happening>, k: nat)
    requires k < |history| && history[k].Sends?
  {
    var q := Sent(history[..k]);
    && (q in s.outbound <==> !Confirmed(history, k))
    && (q in s.outbound ==> s.outbound[q] == EnvelopeOf(digest, history, k))
  }

  /** Something was sent under this sequence. */
  ghost predicate SentUnder(history: seq<Happening>, q: int) {
    exists k :: 0 <= k < |history| && history[k].Sends? && Sent(history[..k]) == q
  }

  ghost predicate KeepsFrames(s: Session, digest: string, history: seq<Happening>) {
    && s.digest == digest && s.sendSeq == Sent(history) && s.lastAcked == HighestAck(history)
    && (forall k: nat :: k < |history| && history[k].Sends? ==> KeptAt(s, digest, history, k))
    && (forall q :: q in s.outbound ==> SentUnder(history, q))
  }

  lemma {:induction false} SentGrows(history: seq<Happening>, k: nat)
    requires k < |history| && history[k].Sends?
    ensures Sent(history[..k]) < Sent(history)
    decreases |history|
  {
    var n := |history| - 1;
    if k < n {
      assert history[..n][..k] == history[..k];
      SentGrows(history[..n], k);
    }
  }

  lemma LastOf(history: seq<Happening>, h: Happening)
    ensures var all := history + [h];
      && all[..|all| - 1] == history && all[|all| - 1] == h
      && (forall k :: 0 <= k <= |history| ==> all[..k] == history[..k])
  {
  }

  /** One event more confirms a frame exactly when it is a new ack that reaches it. */
  lemma ConfirmedGrows(history: seq<Happening>, h: Happening, k: nat)
    requires k < |history|
    ensures var all := history + [h];
      Confirmed(all, k) <==> Confirmed(history, k) || (AcksAt(all, |history|) && HighestAck(all) >= Sent(history[..k]))
  {
    var all := history + [h];
    LastOf(history, h);
    forall j | 0 <= j < |history| ensures AcksAt(all, j) <==> AcksAt(history, j) { }
    if Confirmed(history, k) {
      var j :| k < j < |history| && AcksAt(history, j) && HighestAck(history[..j + 1]) >= Sent(history[..k]);
      assert AcksAt(all, j) && all[..j + 1] == history[..j + 1];
    }
    if AcksAt(all, |history|) && HighestAck(all) >= Sent(history[..k]) { assert all[..|history| + 1] == all; }
    if Confirmed(all, k) {
      var j :| k < j < |all| && AcksAt(all, j) && HighestAck(all[..j + 1]) >= Sent(all[..k]);
      if j < |history| { assert AcksAt(history, j); } else { assert all[..j + 1] == all; }
    }
  }

  lemma OldFrameKept(s: Session, digest: string, timeout: int, start: int, history: seq<Happening>, h: Happening, k: nat)
    requires Remembers(s, timeout, start, history) && KeepsFrames(s, digest, history)
    requires k < |history| && history[k].Sends?
    ensures KeptAt(Step(s, h), digest, history + [h], k)
  {
    LastOf(history, h);
    assert KeptAt(s, digest, history, k);
    ConfirmedGrows(history, h, k);
    SentGrows(history, k);
  }

  lemma NewFrameKept(s: Session, digest: string, history: seq<Happening>, h: Happening)
    requires KeepsFrames(s, digest, history) && h.Sends?
    ensures KeptAt(Step(s, h), digest, history + [h], |history|)
  {
    LastOf(history, h);
  }

  lemma SentUnderGrows(history: seq<Happening>, h: Happening, q: int)
    ensures SentUnder(history, q) ==> SentUnder(history + [h], q)
    ensures h.Sends? ==> SentUnder(history + [h], Sent(history))
  {
    LastOf(history, h);
    var all := history + [h];
    if SentUnder(history, q) {
      var k :| 0 <= k < |history| && history[k].Sends? && Sent(history[..k]) == q;
      assert all[k].Sends? && Sent(all[..k]) == q;
    }
    if h.Sends? { assert all[|history|].Sends? && Sent(all[..|history|]) == Sent(history); }
  }

  lemma StepKeepsFrames(s: Session, digest: string, timeout: int, start: int, history: seq<Happening>, h: Happening)
    requires Remembers(s, timeout, start, history) && KeepsFrames(s, digest, history)
    ensures KeepsFrames(Step(s, h), digest, history + [h])
  {
    var s', all := Step(s, h), history + [h];
    LastOf(history, h);
    forall k: nat | k < |all| && all[k].Sends? ensures KeptAt(s', digest, all, k) {
      if k < |history| { OldFrameKept(s, digest, timeout, start, history, h, k); } else { NewFrameKept(s, digest, history, h); }
    }
    forall q | q in s'.outbound ensures SentUnder(all, q) { SentUnderGrows(history, h, q); }
  }

  lemma {:induction false} SessionKeepsFrames(digest: string, timeout: int, start: int, history: seq<Happening>)
    ensures KeepsFrames(After(digest, timeout, start, history), digest, history)
    decreases |history|
  {
    if history != [] {
      var before, h := history[..|history| - 1], history[|history| - 1];
      SessionKeepsFrames(digest, timeout, start, before);
      SessionRemembers(digest, timeout, start, before);
      StepKeepsFrames(After(digest, timeout, start, before), digest, timeout, start, before, h);
      assert before + [h] == history;
    }
  }

  /**
   Over every history: what is unacknowledged is exactly what was sent and not confirmed since, each with its
   content and its number among everything sent, in the order sent.
   */
  lemma ReplayedExactlyWhen(digest: string, timeout: int, start: int, history: seq<Happening>, e: Envelope)
    ensures var r := Unacknowledged(After(digest, timeout, start, history));
      && (e in r <==> exists k: nat :: k < |history| && history[k].Sends? && !Confirmed(history, k) && e == EnvelopeOf(digest, history, k))
      && (forall i, j :: 0 <= i < j < |r| ==> r[i].sequence < r[j].sequence)
  {
    var s := After(digest, timeout, start, history);
    SessionKeepsFrames(digest, timeout, start, history);
    forall q | q in s.outbound ensures 0 <= q < s.sendSeq && s.outbound[q].sequence == q { KeptUnder(s, digest, history, q); }
    InOrderIsSorted(s.outbound, 0, s.sendSeq);
    if e in Unacknowledged(s) {
      KeptUnder(s, digest, history, e.sequence);
    }
    forall k: nat | k < |history| && history[k].Sends? && !Confirmed(history, k) && e == EnvelopeOf(digest, history, k)
      ensures e in Unacknowledged(s)
    {
      assert KeptAt(s, digest, history, k);
      SentGrows(history, k);
    }
  }

  lemma KeptUnder(s: Session, digest: string, history: seq<Happening>, q: int)
    requires KeepsFrames(s, digest, history) && q in s.outbound
    ensures 0 <= q < s.sendSeq && s.outbound[q].sequence == q
    ensures exists k: nat :: k < |history| && history[k].Sends? && !Confirmed(history, k) && s.outbound[q] == EnvelopeOf(digest, history, k)
  {
    var k :| 0 <= k < |history| && history[k].Sends? && Sent(history[..k]) == q;
    assert KeptAt(s, digest, history, k);
    SentGrows(history, k);
  }
}
