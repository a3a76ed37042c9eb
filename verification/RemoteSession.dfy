/**
 The sequenced remote session: send and acknowledge sequences, message-id dedupe and the frames kept
 for replay. `Session` is the abstract state; the class updates the same state field by field.
 */
module RemoteSession {
  import opened Options

  /** Every payload that is neither an ack nor a heartbeat is handed to the caller; `Work` stands for them. */
  datatype Payload = Heartbeat | Ack(ackSequence: int) | Work(kind: string, body: string)

  datatype Envelope = Envelope(
    version: int,
    messageId: string,
    correlationId: Option<string>,
    sequence: int,
    authorityCeilingDigest: string,
    payload: Payload)

  /** What arrives is untrusted: it may not even have the fields of an envelope. */
  datatype Raw = Unparseable | Parsed(env: Envelope)

  datatype Reason = InvalidEnvelope | DuplicateMessage | HeartbeatHandled | AckHandled

  datatype Outcome = Deliver(payload: Payload) | Dropped(reason: Reason)

  datatype PeerState = Connecting | Connected | Disconnected

  const PROTOCOL_VERSION := 1
  const MAX_MESSAGE_ID := 128
  const DISCONNECT_AFTER_MS := 45_000

  /** The part of the envelope schema that depends on values. */
  predicate WellFormed(e: Envelope) {
    && e.version > 0
    && UsableId(e.messageId)
    && e.sequence >= 0
    && (e.payload.Ack? ==> e.payload.ackSequence >= 0)
  }

  predicate UsableId(id: string) {
    1 <= |id| <= MAX_MESSAGE_ID
  }

  datatype Session = Session(
    peer: PeerState,
    sendSeq: nat,
    lastInbound: int,
    lastAcked: int,
    lastHeartbeatAt: int,
    seen: set<string>,
    outbound: map<int, Envelope>,
    digest: string,
    disconnectAfter: int)

  function Fresh(digest: string, disconnectAfter: int, now: int): Session {
    Session(Connecting, 0, -1, -1, now, {}, map[], digest, disconnectAfter)
  }

  /** Every frame kept for replay sits under its own sequence, below the next one to be used. */
  ghost predicate Consistent(s: Session) {
    forall q :: q in s.outbound ==> 0 <= q < s.sendSeq && s.outbound[q].sequence == q
  }

  function Framed(s: Session, payload: Payload, id: string, corr: Option<string>): Envelope {
    Envelope(PROTOCOL_VERSION, id, corr, s.sendSeq, s.digest, payload)
  }

  function AfterFrame(s: Session, payload: Payload, id: string, corr: Option<string>): Session {
    s.(sendSeq := s.sendSeq + 1, outbound := s.outbound[s.sendSeq := Framed(s, payload, id, corr)])
  }

  function KeepAbove(outbound: map<int, Envelope>, acked: int): map<int, Envelope> {
    map q | q in outbound && q > acked :: outbound[q]
  }

  predicate Accepts(s: Session, raw: Raw) {
    raw.Parsed? && WellFormed(raw.env) && raw.env.messageId !in s.seen
  }

  function Answer(s: Session, raw: Raw): Outcome {
    if raw.Unparseable? || !WellFormed(raw.env) then Dropped(InvalidEnvelope)
    else if raw.env.messageId in s.seen then Dropped(DuplicateMessage)
    else
      match raw.env.payload
      case Heartbeat => Dropped(HeartbeatHandled)
      case Ack(_) => Dropped(AckHandled)
      case Work(_, _) => Deliver(raw.env.payload)
  }

  function AfterReceive(s: Session, raw: Raw, now: int): Session {
    if !Accepts(s, raw) then s
    else
      var s' := s.(seen := s.seen + {raw.env.messageId}, lastHeartbeatAt := now);
      match raw.env.payload
      case Heartbeat => if s.peer.Disconnected? then s'.(peer := Connected) else s'
      case Ack(n) =>
        var acked := Max(s.lastAcked, n);
        s'.(lastAcked := acked, outbound := KeepAbove(s.outbound, acked))
      case Work(_, _) => s'.(lastInbound := Max(s.lastInbound, raw.env.sequence))
  }

  /** The kept frames from sequence `lo` up to `hi`, in order. */
  function InOrder(outbound: map<int, Envelope>, lo: int, hi: int): seq<Envelope>
    decreases hi - lo
  {
    if lo >= hi then []
    else (if lo in outbound then [outbound[lo]] else []) + InOrder(outbound, lo + 1, hi)
  }

  function Unacknowledged(s: Session): seq<Envelope> {
    InOrder(s.outbound, 0, s.sendSeq)
  }

  predicate Lapsed(s: Session, now: int) {
    !s.peer.Disconnected? && now - s.lastHeartbeatAt > s.disconnectAfter
  }

  function AfterHeartbeatCheck(s: Session, now: int): Session {
    if Lapsed(s, now) then s.(peer := Disconnected) else s
  }

  lemma {:induction false} InOrderSkips(outbound: map<int, Envelope>, lo: int, mid: int, hi: int)
    requires lo <= mid <= hi
    requires forall q :: lo <= q < mid ==> q !in outbound
    ensures InOrder(outbound, lo, hi) == InOrder(outbound, mid, hi)
    decreases mid - lo
  {
    if lo < mid { InOrderSkips(outbound, lo + 1, mid, hi); }
  }

  /**
   Replay lists exactly the kept frames, in strictly increasing sequence: sorting the values of the
   map could give no other list.
   */
  lemma {:induction false} InOrderIsSorted(outbound: map<int, Envelope>, lo: int, hi: int)
    requires forall q :: q in outbound && lo <= q < hi ==> outbound[q].sequence == q
    ensures var r := InOrder(outbound, lo, hi);
      && (forall e :: e in r <==> lo <= e.sequence < hi && e.sequence in outbound && outbound[e.sequence] == e)
      && (forall i, j :: 0 <= i < j < |r| ==> r[i].sequence < r[j].sequence)
    decreases hi - lo
  {
    if lo < hi {
      InOrderIsSorted(outbound, lo + 1, hi);
      var rest := InOrder(outbound, lo + 1, hi);
      var r := InOrder(outbound, lo, hi);
      forall e ensures e in r <==> lo <= e.sequence < hi && e.sequence in outbound && outbound[e.sequence] == e {
        if lo in outbound { assert r == [outbound[lo]] + rest; } else { assert r == rest; }
      }
      if lo in outbound { assert forall i :: 0 <= i < |rest| ==> rest[i] in rest; }
    }
  }

  /**
   Duplicates have no second effect: once an envelope was accepted, the same message id is refused
   whatever else the second envelope says, and the session does not change.
   */
  lemma DuplicateIsNoOp(s: Session, first: Raw, second: Raw, t1: int, t2: int)
    requires Accepts(s, first)
    requires second.Parsed? && WellFormed(second.env) && second.env.messageId == first.env.messageId
    ensures var s1 := AfterReceive(s, first, t1);
      Answer(s1, second) == Dropped(DuplicateMessage) && AfterReceive(s1, second, t2) == s1
  {
    assert first.env.messageId in AfterReceive(s, first, t1).seen;
  }

  /**
   Remark: the session alone does not order: an envelope with a new id is delivered whatever its sequence, so
   ordering has to come from the channel and from replaying before anything new is sent.
   */
  lemma DeliveryIgnoresSequence(s: Session, e: Envelope, q: nat)
    requires Accepts(s, Parsed(e)) && e.payload.Work?
    ensures Answer(s, Parsed(e.(sequence := q))) == Answer(s, Parsed(e)) == Deliver(e.payload)
    ensures q > s.lastInbound ==> AfterReceive(s, Parsed(e.(sequence := q)), 0).lastInbound == q
  {
  }

  class RemoteSession {
    var peer: PeerState
    var sendSeq: nat
    var lastInbound: int
    var lastAcked: int
    var lastHeartbeatAt: int
    var seen: set<string>
    var outbound: map<int, Envelope>
    const digest: string
    const disconnectAfter: int

    ghost function State(): Session
      reads this
    {
      Session(peer, sendSeq, lastInbound, lastAcked, lastHeartbeatAt, seen, outbound, digest, disconnectAfter)
    }

    ghost predicate Valid()
      reads this
    {
      Consistent(State())
    }

    constructor (digest: string, disconnectAfterMs: Option<int>, now: int)
      ensures Valid()
      ensures State() == Fresh(digest, if disconnectAfterMs.Some? then disconnectAfterMs.value else DISCONNECT_AFTER_MS, now)
    {
      this.digest := digest;
      this.disconnectAfter := if disconnectAfterMs.Some? then disconnectAfterMs.value else DISCONNECT_AFTER_MS;
      peer, sendSeq, lastInbound, lastAcked := Connecting, 0, -1, -1;
      lastHeartbeatAt, seen, outbound := now, {}, map[];
    }

    method MarkConnected(now: int)
      requires Valid()
      modifies this
      ensures Valid() && State() == old(State()).(peer := Connected, lastHeartbeatAt := now)
    {
      peer, lastHeartbeatAt := Connected, now;
    }

    method Frame(payload: Payload, messageId: string, correlationId: Option<string>) returns (envelope: Envelope)
      requires Valid()
      modifies this
      ensures Valid()
      ensures envelope == Envelope(1, messageId, correlationId, old(sendSeq), digest, payload)
      ensures envelope == Framed(old(State()), payload, messageId, correlationId)
      ensures State() == AfterFrame(old(State()), payload, messageId, correlationId)
    {
      envelope := Envelope(PROTOCOL_VERSION, messageId, correlationId, sendSeq, digest, payload);
      sendSeq := sendSeq + 1;
      outbound := outbound[envelope.sequence := envelope];
    }

    method Receive(raw: Raw, now: int) returns (outcome: Outcome)
      requires Valid()
      modifies this
      ensures Valid()
      ensures outcome == Answer(old(State()), raw)
      ensures State() == AfterReceive(old(State()), raw, now)
    {
      if raw.Unparseable? || !WellFormed(raw.env) { return Dropped(InvalidEnvelope); }
      var env := raw.env;
      if env.messageId in seen { return Dropped(DuplicateMessage); }
      seen := seen + {env.messageId};
      lastHeartbeatAt := now;
      match env.payload {
        case Heartbeat =>
          if peer == Disconnected { peer := Connected; }
          outcome := Dropped(HeartbeatHandled);
        case Ack(n) =>
          lastAcked := Max(lastAcked, n);
          Forget();
          outcome := Dropped(AckHandled);
        case Work(_, _) =>
          lastInbound := Max(lastInbound, env.sequence);
          outcome := Deliver(env.payload);
      }
    }

    /** The loop that deletes every confirmed frame while iterating over the keys. */
    method Forget()
      modifies this`outbound
      ensures outbound == KeepAbove(old(outbound), lastAcked)
    {
      var keys := outbound.Keys;
      while keys != {}
        invariant forall q :: q in outbound <==> q in old(outbound) && (q in keys || q > lastAcked)
        invariant forall q :: q in outbound ==> outbound[q] == old(outbound)[q]
        decreases |keys|
      {
        var q := Pick(keys);
        keys := keys - {q};
        if q <= lastAcked { outbound := outbound - {q}; }
      }
      ghost var kept := KeepAbove(old(outbound), lastAcked);
      assert forall q :: q in outbound <==> q in kept;
      assert forall q :: q in outbound ==> outbound[q] == kept[q];
      assert outbound == kept;
    }

    /** The kept frames sorted by sequence: repeatedly take the least key that is left. */
    method UnacknowledgedFrames() returns (frames: seq<Envelope>)
      requires Valid()
      ensures frames == Unacknowledged(State())
    {
      frames := [];
      var keys := outbound.Keys;
      ghost var lo := 0;
      while keys != {}
        invariant 0 <= lo <= sendSeq
        invariant forall q :: q in keys <==> q in outbound && lo <= q
        invariant frames + InOrder(outbound, lo, sendSeq) == Unacknowledged(State())
        decreases |keys|
      {
        var least := Least(keys);
        InOrderSkips(outbound, lo, least, sendSeq);
        frames := frames + [outbound[least]];
        keys := keys - {least};
        lo := least + 1;
      }
      InOrderSkips(outbound, lo, sendSeq, sendSeq);
    }

    method CheckHeartbeat(now: int) returns (transition: bool)
      requires Valid()
      modifies this
      ensures Valid()
      ensures transition == Lapsed(old(State()), now)
      ensures State() == AfterHeartbeatCheck(old(State()), now)
    {
      if peer == Disconnected { return false; }
      if now - lastHeartbeatAt > disconnectAfter {
        peer := Disconnected;
        return true;
      }
      return false;
    }
  }

  method Least(keys: set<int>) returns (least: int)
    requires keys != {}
    ensures least in keys && forall q :: q in keys ==> least <= q
  {
    least := Pick(keys);
    var rest := keys - {least};
    while rest != {}
      invariant rest <= keys && least in keys
      invariant forall q :: q in keys && q !in rest ==> least <= q
      decreases |rest|
    {
      var q := Pick(rest);
      if q < least { least := q; }
      rest := rest - {q};
    }
  }
}
