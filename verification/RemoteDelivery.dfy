/**
 Two remote sessions joined by a FIFO channel in each direction. A disconnect may lose any suffix of
 what is in flight; a reconnect replays what is not acknowledged before anything new is sent. Over
 every run each side is handed exactly the work its peer framed, in order, without gaps or repeats.
 */
module RemoteDelivery {
  import opened Options
  import opened RemoteSession

  /**
   One side: its session, everything it ever framed, the work it was handed, how many of the peer's
   frames it accepted, and its frames that are still in flight to the peer.
   */
  datatype Endpoint = Endpoint(
    session: Session,
    framed: seq<Envelope>,
    delivered: seq<Payload>,
    accepted: nat,
    inFlight: seq<Envelope>)

  datatype System = System(near: Endpoint, far: Endpoint, up: bool)

  datatype Action =
    | Send(payload: Payload, id: string, corr: Option<string>)  // work or a heartbeat
    | SendAck(id: string)                                       // acknowledge lastInboundSequence
    | Arrive(now: int)                                          // take the oldest frame in flight to this side
    | Watch(now: int)                                           // checkHeartbeat
    | Cut(keepOut: nat, keepIn: nat)                            // disconnect, losing a suffix each way
    | Reconnect

  /** A step is an action of one of the two sides. */
  datatype Step = Near(act: Action) | Far(act: Action)

  function Swap(s: System): System {
    System(s.far, s.near, s.up)
  }

  function Init(digest: string, timeout: int, now: int): System {
    var e := Endpoint(Fresh(digest, timeout, now), [], [], 0, []);
    System(e, e, true)
  }

  /** What the driver and its id source promise: fresh ids the schema accepts, acks of something. */
  predicate Enabled(s: System, act: Action) {
    match act
    case Send(payload, id, _) => !payload.Ack? && FreshId(s.near, id)
    case SendAck(id) => s.near.session.lastInbound >= 0 && FreshId(s.near, id)
    case Arrive(_) => s.far.inFlight != []
    case Watch(_) => true
    case Cut(keepOut, keepIn) => s.up && keepOut <= |s.near.inFlight| && keepIn <= |s.far.inFlight|
    case Reconnect => !s.up
  }

  predicate FreshId(e: Endpoint, id: string) {
    UsableId(id) && forall f :: f in e.framed ==> f.messageId != id
  }

  /** Frame a payload; it enters the channel only while the connection is up. */
  function Transmit(e: Endpoint, up: bool, payload: Payload, id: string, corr: Option<string>): Endpoint {
    var f := Framed(e.session, payload, id, corr);
    e.(session := AfterFrame(e.session, payload, id, corr),
       framed := e.framed + [f],
       inFlight := if up then e.inFlight + [f] else e.inFlight)
  }

  function Take(e: Endpoint, f: Envelope, now: int): Endpoint {
    var outcome := Answer(e.session, Parsed(f));
    e.(session := AfterReceive(e.session, Parsed(f), now),
       delivered := if outcome.Deliver? then e.delivered + [outcome.payload] else e.delivered,
       accepted := if Accepts(e.session, Parsed(f)) then e.accepted + 1 else e.accepted)
  }

  function Replay(e: Endpoint): Endpoint {
    e.(inFlight := e.inFlight + Unacknowledged(e.session))
  }

  function Apply(s: System, act: Action): System
    requires Enabled(s, act)
  {
    match act
    case Send(payload, id, corr) => s.(near := Transmit(s.near, s.up, payload, id, corr))
    case SendAck(id) => s.(near := Transmit(s.near, s.up, Ack(s.near.session.lastInbound), id, None))
    case Arrive(now) =>
      s.(near := Take(s.near, s.far.inFlight[0], now), far := s.far.(inFlight := s.far.inFlight[1..]))
    case Watch(now) => s.(near := s.near.(session := AfterHeartbeatCheck(s.near.session, now)))
    case Cut(keepOut, keepIn) =>
      System(s.near.(inFlight := s.near.inFlight[..keepOut]), s.far.(inFlight := s.far.inFlight[..keepIn]), false)
    case Reconnect => System(Replay(s.near), Replay(s.far), true)
  }

  predicate StepEnabled(s: System, step: Step) {
    match step
    case Near(act) => Enabled(s, act)
    case Far(act) => Enabled(Swap(s), act)
  }

  function ApplyStep(s: System, step: Step): System
    requires StepEnabled(s, step)
  {
    match step
    case Near(act) => Apply(s, act)
    case Far(act) => Swap(Apply(Swap(s), act))
  }

  predicate Admissible(s: System, run: seq<Step>)
    decreases |run|
  {
    run == [] || (StepEnabled(s, run[0]) && Admissible(ApplyStep(s, run[0]), run[1..]))
  }

  function Exec(s: System, run: seq<Step>): System
    requires Admissible(s, run)
    decreases |run|
  {
    if run == [] then s else Exec(ApplyStep(s, run[0]), run[1..])
  }

  /** The work among some frames, in order. */
  function WorkOf(frames: seq<Envelope>): seq<Payload> {
    if frames == [] then []
    else WorkOf(frames[..|frames| - 1]) +
         (if frames[|frames| - 1].payload.Work? then [frames[|frames| - 1].payload] else [])
  }

  /**
   What is promised to the user of the protocol, for one direction: the receiver was handed exactly the
   work of the first `accepted` frames, each once and in order, and the sender kept for replay every
   frame the receiver does not have.
   */
  ghost predicate ExactlyOnce(from: Endpoint, to: Endpoint) {
    && to.accepted <= |from.framed|
    && to.delivered == WorkOf(from.framed[..to.accepted])
    && (forall i :: 0 <= i < |from.framed| ==>
          from.framed[i].sequence == i
          && (i !in from.session.outbound ==> from.framed[i].messageId in to.session.seen)
          && (i in from.session.outbound ==> from.session.outbound[i] == from.framed[i])
          && (i >= to.accepted ==> i in from.session.outbound))
  }

  // ----- the invariant -------------------------------------------------------------------------

  /** The number of frames accepted once all of `channel` has arrived, starting from `accepted`. */
  function Frontier(channel: seq<Envelope>, accepted: int): int {
    if channel == [] then accepted
    else Frontier(channel[1..], Max(accepted, channel[0].sequence + 1))
  }

  /** Nothing in the channel is ahead of its turn. */
  predicate Contiguous(channel: seq<Envelope>, accepted: int) {
    channel == [] ||
    (channel[0].sequence <= accepted && Contiguous(channel[1..], Max(accepted, channel[0].sequence + 1)))
  }

  /** The sender's side: frames are numbered from zero, ids are distinct, and the unacknowledged tail is kept. */
  ghost predicate SenderInv(from: Endpoint, accepted: nat) {
    && |from.framed| == from.session.sendSeq
    && (forall i :: 0 <= i < |from.framed| ==> from.framed[i].sequence == i && WellFormed(from.framed[i]))
    && (forall i, j :: 0 <= i < j < |from.framed| ==> from.framed[i].messageId != from.framed[j].messageId)
    && -1 <= from.session.lastAcked < accepted <= |from.framed|
    && (forall i :: i in from.session.outbound <==> from.session.lastAcked < i < |from.framed|)
    && (forall i :: i in from.session.outbound ==> from.session.outbound[i] == from.framed[i])
  }

  ghost predicate ReceiverInv(framed: seq<Envelope>, to: Endpoint)
    requires to.accepted <= |framed|
  {
    && (forall id :: id in to.session.seen <==> exists i :: 0 <= i < to.accepted && framed[i].messageId == id)
    && to.delivered == WorkOf(framed[..to.accepted])
    && -1 <= to.session.lastInbound < to.accepted
    && (forall e :: e in to.framed && e.payload.Ack? ==> e.payload.ackSequence < to.accepted)
  }

  ghost predicate ChannelInv(framed: seq<Envelope>, channel: seq<Envelope>, accepted: nat, up: bool) {
    && (forall e :: e in channel ==> 0 <= e.sequence < |framed| && e == framed[e.sequence])
    && Contiguous(channel, accepted)
    && (up ==> Frontier(channel, accepted) == |framed|)
  }

  ghost predicate DirInv(from: Endpoint, to: Endpoint, up: bool) {
    && SenderInv(from, to.accepted)
    && ReceiverInv(from.framed, to)
    && ChannelInv(from.framed, from.inFlight, to.accepted, up)
  }

  ghost predicate Inv(s: System) {
    DirInv(s.near, s.far, s.up) && DirInv(s.far, s.near, s.up)
  }

  lemma {:induction false} FrontierAppend(channel: seq<Envelope>, more: seq<Envelope>, accepted: int)
    ensures Frontier(channel + more, accepted) == Frontier(more, Frontier(channel, accepted))
    ensures Contiguous(channel + more, accepted) <==>
            Contiguous(channel, accepted) && Contiguous(more, Frontier(channel, accepted))
  {
    if channel == [] {
      assert channel + more == more;
    } else {
      assert (channel + more)[1..] == channel[1..] + more;
      FrontierAppend(channel[1..], more, Max(accepted, channel[0].sequence + 1));
    }
  }

  lemma {:induction false} FrontierBounds(channel: seq<Envelope>, accepted: int, n: int)
    requires accepted <= n && forall e :: e in channel ==> e.sequence < n
    ensures accepted <= Frontier(channel, accepted) <= n
  {
    if channel != [] {
      assert channel[0] in channel;
      FrontierBounds(channel[1..], Max(accepted, channel[0].sequence + 1), n);
    }
  }

  /** The unacknowledged frames close any gap: they start at most at the frontier and run to the end. */
  lemma {:induction false} ReplayClosesGap(framed: seq<Envelope>, outbound: map<int, Envelope>, lo: nat, frontier: int)
    requires forall i :: 0 <= i < |framed| ==> framed[i].sequence == i
    requires forall i :: lo <= i < |framed| ==> i in outbound && outbound[i] == framed[i]
    requires lo <= frontier <= |framed|
    ensures var replay := InOrder(outbound, lo, |framed|);
      && (forall e :: e in replay ==> 0 <= e.sequence < |framed| && e == framed[e.sequence])
      && Contiguous(replay, frontier)
      && Frontier(replay, frontier) == |framed|
    decreases |framed| - lo
  {
    if lo < |framed| {
      ReplayClosesGap(framed, outbound, lo + 1, Max(frontier, lo + 1));
      var replay := InOrder(outbound, lo, |framed|);
      assert replay == [framed[lo]] + InOrder(outbound, lo + 1, |framed|);
      assert replay[1..] == InOrder(outbound, lo + 1, |framed|);
    }
  }

  lemma WorkOfStep(framed: seq<Envelope>, n: nat)
    requires n < |framed|
    ensures WorkOf(framed[..n + 1]) == WorkOf(framed[..n]) + (if framed[n].payload.Work? then [framed[n].payload] else [])
  {
    assert framed[..n + 1][..n] == framed[..n];
  }

  // ----- each action keeps the invariant -------------------------------------------------------

  lemma TransmitKeepsSender(e: Endpoint, accepted: nat, up: bool, payload: Payload, id: string, corr: Option<string>)
    requires SenderInv(e, accepted) && FreshId(e, id)
    requires payload.Ack? ==> 0 <= payload.ackSequence
    ensures SenderInv(Transmit(e, up, payload, id, corr), accepted)
  {
  }

  lemma TransmitKeepsChannel(e: Endpoint, accepted: nat, up: bool, payload: Payload, id: string, corr: Option<string>)
    requires SenderInv(e, accepted) && ChannelInv(e.framed, e.inFlight, accepted, up)
    ensures var e' := Transmit(e, up, payload, id, corr); ChannelInv(e'.framed, e'.inFlight, accepted, up)
  {
    var f := Framed(e.session, payload, id, corr);
    FrontierAppend(e.inFlight, [f], accepted);
    FrontierBounds(e.inFlight, accepted, |e.framed|);
    assert [f][1..] == [];
  }

  lemma FramingKeepsReceiver(framed: seq<Envelope>, f: Envelope, to: Endpoint)
    requires to.accepted <= |framed| && ReceiverInv(framed, to)
    ensures ReceiverInv(framed + [f], to)
  {
    assert (framed + [f])[..to.accepted] == framed[..to.accepted];
  }

  lemma TransmitKeeps(s: System, payload: Payload, id: string, corr: Option<string>)
    requires Inv(s) && FreshId(s.near, id)
    requires payload.Ack? ==> 0 <= payload.ackSequence < s.near.accepted
    ensures Inv(s.(near := Transmit(s.near, s.up, payload, id, corr)))
  {
    TransmitKeepsSender(s.near, s.far.accepted, s.up, payload, id, corr);
    TransmitKeepsChannel(s.near, s.far.accepted, s.up, payload, id, corr);
    FramingKeepsReceiver(s.near.framed, Framed(s.near.session, payload, id, corr), s.far);
    assert ReceiverInv(s.far.framed, Transmit(s.near, s.up, payload, id, corr));
  }

  /** A frame that is next in turn is new to the receiver, so it is accepted. */
  lemma NextFrameIsAccepted(framed: seq<Envelope>, to: Endpoint, now: int)
    requires to.accepted < |framed| && ReceiverInv(framed, to)
    requires forall i :: 0 <= i < |framed| ==> framed[i].sequence == i && WellFormed(framed[i])
    requires forall i, j :: 0 <= i < j < |framed| ==> framed[i].messageId != framed[j].messageId
    ensures Accepts(to.session, Parsed(framed[to.accepted]))
    ensures var to' := Take(to, framed[to.accepted], now);
      to'.accepted == to.accepted + 1 && ReceiverInv(framed, to')
  {
    var f, to' := framed[to.accepted], Take(to, framed[to.accepted], now);
    WorkOfStep(framed, to.accepted);
    forall id ensures id in to'.session.seen <==> exists i :: 0 <= i < to'.accepted && framed[i].messageId == id {
      assert id in to'.session.seen <==> id in to.session.seen || id == f.messageId;
    }
  }

  lemma TakeKeepsSender(to: Endpoint, f: Envelope, peerAccepted: nat, now: int)
    requires SenderInv(to, peerAccepted)
    requires f.payload.Ack? ==> f.payload.ackSequence < peerAccepted
    ensures SenderInv(Take(to, f, now), peerAccepted)
  {
  }

  /** An arriving frame either is one the receiver has, or is exactly the next in turn. */
  lemma TakeKeepsReceiver(framed: seq<Envelope>, to: Endpoint, f: Envelope, now: int)
    requires to.accepted <= |framed| && ReceiverInv(framed, to)
    requires forall i :: 0 <= i < |framed| ==> framed[i].sequence == i && WellFormed(framed[i])
    requires forall i, j :: 0 <= i < j < |framed| ==> framed[i].messageId != framed[j].messageId
    requires 0 <= f.sequence < |framed| && f == framed[f.sequence] && f.sequence <= to.accepted
    ensures var to' := Take(to, f, now);
      to'.accepted == Max(to.accepted, f.sequence + 1) && to'.accepted <= |framed| && ReceiverInv(framed, to')
  {
    if f.sequence < to.accepted {
      assert framed[f.sequence].messageId == f.messageId && f.messageId in to.session.seen;
    } else {
      NextFrameIsAccepted(framed, to, now);
    }
  }

  lemma ArriveKeepsChannel(framed: seq<Envelope>, channel: seq<Envelope>, accepted: nat, up: bool)
    requires channel != [] && ChannelInv(framed, channel, accepted, up)
    ensures channel[0].sequence <= accepted && channel[0] in channel
    ensures ChannelInv(framed, channel[1..], Max(accepted, channel[0].sequence + 1), up)
  {
    forall e | e in channel[1..] ensures e in channel {}
  }

  lemma ArriveKeeps(s: System, now: int)
    requires Inv(s) && s.far.inFlight != []
    ensures Inv(Apply(s, Arrive(now)))
  {
    ArriveAtReceiver(s.far, s.near, s.up, now);
    ArriveAtSender(s.near, s.far, s.up, now);
  }

  /** The direction the frame travels in. */
  lemma ArriveAtReceiver(from: Endpoint, to: Endpoint, up: bool, now: int)
    requires DirInv(from, to, up) && from.inFlight != []
    ensures DirInv(from.(inFlight := from.inFlight[1..]), Take(to, from.inFlight[0], now), up)
  {
    var to' := Take(to, from.inFlight[0], now);
    ArriveKeepsChannel(from.framed, from.inFlight, to.accepted, up);
    TakeKeepsReceiver(from.framed, to, from.inFlight[0], now);
    SenderSeesMore(from, from.inFlight[1..], to.accepted, to'.accepted);
    JoinDirection(from.(inFlight := from.inFlight[1..]), to', up);
  }

  lemma JoinDirection(from: Endpoint, to: Endpoint, up: bool)
    requires SenderInv(from, to.accepted) && ReceiverInv(from.framed, to)
    requires ChannelInv(from.framed, from.inFlight, to.accepted, up)
    ensures DirInv(from, to, up)
  {
  }

  lemma SenderSeesMore(from: Endpoint, channel: seq<Envelope>, before: nat, after: nat)
    requires SenderInv(from, before) && before <= after <= |from.framed|
    ensures SenderInv(from.(inFlight := channel), after)
  {
  }

  /** The other direction, in which the frame may carry an acknowledgement. */
  lemma ArriveAtSender(to: Endpoint, from: Endpoint, up: bool, now: int)
    requires DirInv(to, from, up) && DirInv(from, to, up) && from.inFlight != []
    ensures DirInv(Take(to, from.inFlight[0], now), from.(inFlight := from.inFlight[1..]), up)
  {
    var f := from.inFlight[0];
    assert f in from.inFlight && f in from.framed;
    TakeKeepsSender(to, f, from.accepted, now);
  }

  lemma CutKeeps(from: Endpoint, to: Endpoint, up: bool, keep: nat)
    requires DirInv(from, to, up) && keep <= |from.inFlight|
    ensures ChannelInv(from.framed, from.inFlight[..keep], to.accepted, false)
  {
    assert from.inFlight == from.inFlight[..keep] + from.inFlight[keep..];
    FrontierAppend(from.inFlight[..keep], from.inFlight[keep..], to.accepted);
  }

  lemma ReplayKeeps(from: Endpoint, to: Endpoint)
    requires DirInv(from, to, false)
    ensures ChannelInv(from.framed, Replay(from).inFlight, to.accepted, true)
  {
    var lo := from.session.lastAcked + 1;
    var frontier := Frontier(from.inFlight, to.accepted);
    InOrderSkips(from.session.outbound, 0, lo, from.session.sendSeq);
    FrontierBounds(from.inFlight, to.accepted, |from.framed|);
    ReplayClosesGap(from.framed, from.session.outbound, lo, frontier);
    FrontierAppend(from.inFlight, Unacknowledged(from.session), to.accepted);
  }

  lemma ActionKeeps(s: System, act: Action)
    requires Inv(s) && Enabled(s, act)
    ensures Inv(Apply(s, act))
  {
    match act
    case Send(payload, id, corr) => TransmitKeeps(s, payload, id, corr);
    case SendAck(id) => TransmitKeeps(s, Ack(s.near.session.lastInbound), id, None);
    case Arrive(now) => ArriveKeeps(s, now);
    case Watch(now) =>
    case Cut(keepOut, keepIn) =>
      CutKeeps(s.near, s.far, s.up, keepOut);
      CutKeeps(s.far, s.near, s.up, keepIn);
    case Reconnect =>
      ReplayKeeps(s.near, s.far);
      ReplayKeeps(s.far, s.near);
  }

  lemma {:induction false} RunKeeps(s: System, run: seq<Step>)
    requires Inv(s) && Admissible(s, run)
    ensures Inv(Exec(s, run))
    decreases |run|
  {
    if run != [] {
      match run[0] {
        case Near(act) => ActionKeeps(s, act);
        case Far(act) => ActionKeeps(Swap(s), act);
      }
      RunKeeps(ApplyStep(s, run[0]), run[1..]);
    }
  }

  lemma InitInv(digest: string, timeout: int, now: int)
    ensures Inv(Init(digest, timeout, now))
  {
  }

  /**
   Safety over whole runs: after any admissible run, in both directions the work delivered is a
   gap-free, duplicate-free, in-order prefix of the work framed, and a frame is forgotten only after
   the peer has it.
   */
  lemma DeliveryIsExactlyOnce(digest: string, timeout: int, now: int, run: seq<Step>)
    requires Admissible(Init(digest, timeout, now), run)
    ensures var s := Exec(Init(digest, timeout, now), run);
      ExactlyOnce(s.near, s.far) && ExactlyOnce(s.far, s.near)
  {
    InitInv(digest, timeout, now);
    RunKeeps(Init(digest, timeout, now), run);
  }

  // ----- nothing is ever lost ------------------------------------------------------------------

  /** A continuation that frames nothing new and leaves each side with all the work of the other. */
  ghost predicate DeliversEverything(s: System, more: seq<Step>) {
    && Admissible(s, more)
    && Exec(s, more).near.framed == s.near.framed && Exec(s, more).far.framed == s.far.framed
    && Exec(s, more).near.delivered == WorkOf(s.far.framed)
    && Exec(s, more).far.delivered == WorkOf(s.near.framed)
  }

  /** All frames in flight to the near side arrive. */
  function Drain(s: System, now: int): seq<Step>
    decreases |s.far.inFlight|
  {
    if s.far.inFlight == [] then []
    else [Near(Arrive(now))] + Drain(Apply(s, Arrive(now)), now)
  }

  lemma {:induction false} DrainDelivers(s: System, now: int)
    requires Inv(s) && s.up
    ensures Admissible(s, Drain(s, now))
    ensures var s' := Exec(s, Drain(s, now));
      && Inv(s') && s'.up && s'.near.delivered == WorkOf(s'.far.framed)
      && s'.far.framed == s.far.framed && s'.near.framed == s.near.framed
      && s'.near.inFlight == s.near.inFlight && s'.far.delivered == s.far.delivered
    decreases |s.far.inFlight|
  {
    if s.far.inFlight == [] {
      assert s.far.framed[..s.near.accepted] == s.far.framed;
    } else {
      ArriveKeeps(s, now);
      var s1 := Apply(s, Arrive(now));
      DrainDelivers(s1, now);
      assert Drain(s, now)[1..] == Drain(s1, now);
    }
  }

  function Mirror(run: seq<Step>): seq<Step> {
    if run == [] then []
    else [match run[0] case Near(a) => Far(a) case Far(a) => Near(a)] + Mirror(run[1..])
  }

  lemma {:induction false} MirrorRuns(s: System, run: seq<Step>)
    requires Admissible(s, run)
    ensures Admissible(Swap(s), Mirror(run)) && Exec(Swap(s), Mirror(run)) == Swap(Exec(s, run))
    decreases |run|
  {
    if run != [] {
      MirrorRuns(ApplyStep(s, run[0]), run[1..]);
      assert Mirror(run)[1..] == Mirror(run[1..]);
    }
  }

  lemma {:induction false} ExecAppend(s: System, run: seq<Step>, more: seq<Step>)
    requires Admissible(s, run) && Admissible(Exec(s, run), more)
    ensures Admissible(s, run + more) && Exec(s, run + more) == Exec(Exec(s, run), more)
    decreases |run|
  {
    if run == [] {
      assert run + more == more;
    } else {
      assert (run + more)[1..] == run[1..] + more;
      ExecAppend(ApplyStep(s, run[0]), run[1..], more);
    }
  }

  /**
   Progress: from every reachable state some continuation that frames nothing new hands each side all
   the work its peer ever framed. So whatever was cut, nothing is lost for good.
   */
  lemma NothingIsLost(digest: string, timeout: int, start: int, run: seq<Step>, now: int)
    requires Admissible(Init(digest, timeout, start), run)
    ensures exists more :: DeliversEverything(Exec(Init(digest, timeout, start), run), more)
  {
    InitInv(digest, timeout, start);
    RunKeeps(Init(digest, timeout, start), run);
    var more := Settle(Exec(Init(digest, timeout, start), run), now);
  }

  lemma Settle(s: System, now: int) returns (more: seq<Step>)
    requires Inv(s)
    ensures DeliversEverything(s, more)
  {
    if s.up {
      more := SettleUp(s, now);
    } else {
      ActionKeeps(s, Reconnect);
      var rest := SettleUp(Apply(s, Reconnect), now);
      more := [Near(Reconnect)] + rest;
      assert more[1..] == rest;
    }
  }

  lemma SettleUp(s: System, now: int) returns (more: seq<Step>)
    requires Inv(s) && s.up
    ensures DeliversEverything(s, more)
  {
    DrainDelivers(s, now);
    var s' := Exec(s, Drain(s, now));
    var back := Drain(Swap(s'), now);
    DrainDelivers(Swap(s'), now);
    MirrorRuns(Swap(s'), back);
    assert Swap(Swap(s')) == s';
    ExecAppend(s, Drain(s, now), Mirror(back));
    more := Drain(s, now) + Mirror(back);
  }

  // ----- what the promises of the channel and the id source are for ------------------------------

  function Text(body: string): Payload { Work("input", body) }

  /**
   The FIFO promise is needed: a single session accepts sequence 1 before 0, so a channel that loses a
   frame from the middle makes it acknowledge a frame it never had, and the sender forgets that frame.
   */
  lemma LossFromTheMiddleLosesWork(digest: string)
    ensures
      var sender := Fresh(digest, DISCONNECT_AFTER_MS, 0);
      var f0, s1 := Framed(sender, Text("a"), "m0", None), AfterFrame(sender, Text("a"), "m0", None);
      var f1, s2 := Framed(s1, Text("b"), "m1", None), AfterFrame(s1, Text("b"), "m1", None);
      var receiver := AfterReceive(Fresh(digest, DISCONNECT_AFTER_MS, 0), Parsed(f1), 0);
      var ack := Framed(receiver, Ack(receiver.lastInbound), "k", None);
      && f0.messageId !in receiver.seen
      && Unacknowledged(AfterReceive(s2, Parsed(ack), 0)) == []
  {
    var sender := Fresh(digest, DISCONNECT_AFTER_MS, 0);
    var s1 := AfterFrame(sender, Text("a"), "m0", None);
    var f1, s2 := Framed(s1, Text("b"), "m1", None), AfterFrame(s1, Text("b"), "m1", None);
    assert "m0" != "m1" by { assert "m0"[1] != "m1"[1]; }
    var receiver := AfterReceive(Fresh(digest, DISCONNECT_AFTER_MS, 0), Parsed(f1), 0);
    var ack := Framed(receiver, Ack(1), "k", None);
    var done := AfterReceive(s2, Parsed(ack), 0);
    assert done.outbound == map[];
    InOrderSkips(done.outbound, 0, done.sendSeq, done.sendSeq);
  }

  /**
   `frame` does not check the id it is given, and the receiver's schema does: a frame is refused for good
   by every session exactly when its id is empty or longer than 128 characters (given the honest fields
   that `frame` writes).
   */
  lemma UnusableIdIsRefusedForGood(sender: Session, body: string, id: string, corr: Option<string>)
    ensures (forall receiver: Session :: !Accepts(receiver, Parsed(Framed(sender, Text(body), id, corr)))) <==> !UsableId(id)
  {
    if UsableId(id) {
      assert Accepts(Fresh("", 0, 0), Parsed(Framed(sender, Text(body), id, corr)));
    }
  }
}
