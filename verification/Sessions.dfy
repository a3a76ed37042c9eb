/**
 Sessions over a durable event log: rebuilding the model conversation, finding an approval an
 interrupted turn waits for, and forking a thread into a new one (apps/cli/src/sessions.ts), on the
 append operation of the event store they use (packages/storage/src/event-store.ts).
 */
module Sessions {
  import opened Options
  import opened Sequences

  type ThreadId = string
  type Id = nat       // turn, item and correlation ids, numbered in the order they are minted

  datatype ItemBody =
    | AssistantMessage(text: string)
    | ToolCall(callId: string, toolName: string, argumentsJson: string)
    | ToolResult(callId: string, toolName: string, preview: string)
    | OtherItem(kind: string)

  datatype Item = Item(id: Id, turn: Id, thread: ThreadId, body: ItemBody)

  datatype Payload =
    | ThreadCreated(name: Option<string>, cwd: string, repo: Option<string>)
    | ThreadForked(from: ThreadId, atSeq: nat)
    | TurnStarted(userText: string)
    | TurnEnded
    | ItemAppended(item: Item)
    | ApprovalRequested(callId: Option<string>, action: string, risk: string)
    | ApprovalResolved(callId: Option<string>)
    | OtherPayload(kind: string)

  datatype Event = Event(number: nat, thread: ThreadId, turn: Option<Id>, item: Option<Id>,
                         correlation: Id, profile: string, payload: Payload)

  // ----- the store ----------------------------------------------------------------------------------------

  datatype ThreadRow = ThreadRow(name: Option<string>, cwd: string, repo: Option<string>, profile: string,
                                 forkedFrom: Option<(ThreadId, nat)>)

  /** The log by thread, and the two projections an append can collide with. */
  datatype Store = Store(log: map<ThreadId, seq<Event>>, threads: map<ThreadId, ThreadRow>, turns: set<Id>)

  function Read(s: Store, t: ThreadId): seq<Event> { if t in s.log then s.log[t] else [] }

  function NextSeq(events: seq<Event>): nat {
    if events == [] then 0 else events[|events| - 1].number + 1
  }

  /** A second row for the same thread or turn is refused, and so is a turn without an id. */
  predicate Refused(s: Store, e: Event) {
    || (e.payload.ThreadCreated? && e.thread in s.threads)
    || (e.payload.TurnStarted? && (e.turn.None? || e.turn.value in s.turns))
  }

  function Threads(s: Store, e: Event): map<ThreadId, ThreadRow> {
    match e.payload
    case ThreadCreated(name, cwd, repo) => s.threads[e.thread := ThreadRow(name, cwd, repo, e.profile, None)]
    case ThreadForked(from, atSeq) =>
      if e.thread in s.threads then s.threads[e.thread := s.threads[e.thread].(forkedFrom := Some((from, atSeq)))]
      else s.threads
    case _ => s.threads
  }

  /** One transaction: the event gets the next sequence number of its thread, and its projection. */
  function Appended(s: Store, e: Event): Store
    requires !Refused(s, e)
  {
    var before := Read(s, e.thread);
    Store(s.log[e.thread := before + [e.(number := NextSeq(before))]], Threads(s, e),
          if e.payload.TurnStarted? then s.turns + {e.turn.value} else s.turns)
  }

  /** Several appends in order; `None` when one of them is refused. */
  function AppendAll(s: Store, drafts: seq<Event>): Option<Store> {
    if drafts == [] then Some(s)
    else
      var rest := AppendAll(s, drafts[..|drafts| - 1]);
      if rest.None? || Refused(rest.value, drafts[|drafts| - 1]) then None
      else Some(Appended(rest.value, drafts[|drafts| - 1]))
  }

  class EventStore {
    var log: map<ThreadId, seq<Event>>
    var threads: map<ThreadId, ThreadRow>
    var turns: set<Id>

    ghost function State(): Store
      reads this
    {
      Store(log, threads, turns)
    }

    constructor ()
      ensures State() == Store(map[], map[], {})
    {
      log, threads, turns := map[], map[], {};
    }

    method ReadThread(t: ThreadId) returns (events: seq<Event>)
      ensures events == Read(State(), t)
    {
      events := if t in log then log[t] else [];
    }

    method Append(e: Event) returns (ok: bool)
      modifies this
      ensures ok == !Refused(old(State()), e)
      ensures State() == if ok then Appended(old(State()), e) else old(State())
    {
      match e.payload {
        case ThreadCreated(name, cwd, repo) =>
          if e.thread in threads { return false; }
          threads := threads[e.thread := ThreadRow(name, cwd, repo, e.profile, None)];
        case ThreadForked(from, atSeq) =>
          if e.thread in threads {
            threads := threads[e.thread := threads[e.thread].(forkedFrom := Some((from, atSeq)))];
          }
        case TurnStarted(_) =>
          if e.turn.None? || e.turn.value in turns { return false; }
          turns := turns + {e.turn.value};
        case _ =>
      }
      var before := if e.thread in log then log[e.thread] else [];
      log := log[e.thread := before + [e.(number := NextSeq(before))]];
      ok := true;
    }
  }

  // ----- rebuilding the conversation ------------------------------------------------------------------------

  datatype InputItem =
    | UserMessage(text: string)
    | ModelMessage(text: string)
    | FunctionCall(callId: string, name: string, argumentsJson: string)
    | FunctionOutput(callId: string, name: string, output: string)

  /** What one event contributes to the model's input. */
  function Says(e: Event): seq<InputItem> {
    match e.payload
    case TurnStarted(text) => [UserMessage(text)]
    case ItemAppended(item) =>
      (match item.body
       case AssistantMessage(text) => if |text| > 0 then [ModelMessage(text)] else []
       case ToolCall(id, name, args) => [FunctionCall(id, name, args)]
       case ToolResult(id, name, preview) => [FunctionOutput(id, name, preview)]
       case OtherItem(_) => [])
    case _ => []
  }

  function History(events: seq<Event>): seq<InputItem> { FlatMap(Says, events) }

  method ReconstructHistory(store: EventStore, t: ThreadId) returns (history: seq<InputItem>)
    ensures history == History(Read(store.State(), t))
  {
    var events := store.ReadThread(t);
    history := [];
    for i := 0 to |events|
      invariant history == History(events[..i])
    {
      FlatMapAppend(Says, events[..i], events[i]);
      assert events[..i + 1] == events[..i] + [events[i]];
      match events[i].payload {
        case TurnStarted(text) => history := history + [UserMessage(text)];
        case ItemAppended(item) =>
          match item.body {
            case AssistantMessage(text) => if |text| > 0 { history := history + [ModelMessage(text)]; }
            case ToolCall(id, name, args) => history := history + [FunctionCall(id, name, args)];
            case ToolResult(id, name, preview) => history := history + [FunctionOutput(id, name, preview)];
            case OtherItem(_) =>
          }
        case _ =>
      }
    }
    assert events[..|events|] == events;
  }

  // ----- the approval an interrupted turn waits for -----------------------------------------------------------

  datatype PendingApproval = PendingApproval(turn: Id, correlation: Id, profile: string, callId: string,
                                             action: string, risk: string, calls: seq<Item>)

  function LastTurn(events: seq<Event>): Option<Id> {
    if events == [] then None
    else
      var e := events[|events| - 1];
      if e.payload.TurnStarted? && e.turn.Some? then e.turn else LastTurn(events[..|events| - 1])
  }

  predicate InTurn(e: Event, turn: Id) { e.turn == Some(turn) }

  ghost predicate Ended(events: seq<Event>, turn: Id) {
    exists e :: e in events && InTurn(e, turn) && e.payload.TurnEnded?
  }

  ghost predicate Resolved(events: seq<Event>, turn: Id, callId: Option<string>) {
    exists e :: e in events && InTurn(e, turn) && e.payload == ApprovalResolved(callId)
  }

  /** A request of the turn that nothing resolved, before or after it. */
  ghost predicate IsOpen(events: seq<Event>, turn: Id, e: Event) {
    InTurn(e, turn) && e.payload.ApprovalRequested? && !Resolved(events, turn, e.payload.callId)
  }

  ghost function LastOpen(events: seq<Event>, turn: Id, upto: seq<Event>): Option<Event> {
    if upto == [] then None
    else if IsOpen(events, turn, upto[|upto| - 1]) then Some(upto[|upto| - 1])
    else LastOpen(events, turn, upto[..|upto| - 1])
  }

  ghost predicate Settled(events: seq<Event>, turn: Id, callId: string) {
    exists e :: e in events && InTurn(e, turn) && IsResultFor(e, callId)
  }

  predicate IsResultFor(e: Event, callId: string) {
    e.payload.ItemAppended? && e.payload.item.body.ToolResult? && e.payload.item.body.callId == callId
  }

  predicate IsCall(e: Event) { e.payload.ItemAppended? && e.payload.item.body.ToolCall? }

  /** The tool calls of the turn, in order, that no result settles. */
  ghost function Unsettled(events: seq<Event>, turn: Id, upto: seq<Event>): seq<Item> {
    if upto == [] then []
    else
      var e := upto[|upto| - 1];
      var rest := Unsettled(events, turn, upto[..|upto| - 1]);
      if InTurn(e, turn) && IsCall(e) && !Settled(events, turn, e.payload.item.body.callId) then rest + [e.payload.item] else rest
  }

  function FirstOf(events: seq<Event>, turn: Id): Option<Event> {
    if events == [] then None
    else
      var before := FirstOf(events[..|events| - 1], turn);
      if before.Some? then before
      else if InTurn(events[|events| - 1], turn) then Some(events[|events| - 1])
      else None
  }

  ghost function Pending(events: seq<Event>): (r: Option<PendingApproval>)
  {
    var last := LastTurn(events);
    if last.None? || Ended(events, last.value) then None
    else
      var turn := last.value;
      var open, calls, first := LastOpen(events, turn, events), Unsettled(events, turn, events), FirstOf(events, turn);
      if open.None? || !open.value.payload.ApprovalRequested? || open.value.payload.callId.None? || calls == [] || first.None? then None
      else
        var p := open.value.payload;
        Some(PendingApproval(turn, first.value.correlation, first.value.profile, p.callId.value, p.action, p.risk, calls))
  }

  /** What the turn's events settle: whether it ended, which requests were resolved, which calls have results. */
  method ScanTurn(events: seq<Event>, turn: Id) returns (ended: bool, resolved: set<Option<string>>, settled: set<string>)
    ensures ended <==> Ended(events, turn)
    ensures forall c :: c in resolved <==> Resolved(events, turn, c)
    ensures forall c :: c in settled <==> Settled(events, turn, c)
  {
    ended, resolved, settled := false, {}, {};
    for i := 0 to |events|
      invariant ended <==> exists k :: 0 <= k < i && InTurn(events[k], turn) && events[k].payload.TurnEnded?
      invariant forall c :: c in resolved <==> exists k :: 0 <= k < i && InTurn(events[k], turn) && events[k].payload == ApprovalResolved(c)
      invariant forall c :: c in settled <==> exists k :: 0 <= k < i && InTurn(events[k], turn) && IsResultFor(events[k], c)
    {
      if InTurn(events[i], turn) {
        match events[i].payload {
          case TurnEnded => ended := true;
          case ApprovalResolved(c) => resolved := resolved + {c};
          case ItemAppended(item) => if item.body.ToolResult? { settled := settled + {item.body.callId}; }
          case _ =>
        }
      }
    }
    assert ended <==> Ended(events, turn);
    assert forall c :: c in resolved <==> Resolved(events, turn, c);
    assert forall c :: c in settled <==> Settled(events, turn, c);
  }

  /** The last turn the log starts. */
  method LatestTurn(events: seq<Event>) returns (turnId: Option<Id>)
    ensures turnId == LastTurn(events)
  {
    turnId := None;
    for i := 0 to |events|
      invariant turnId == LastTurn(events[..i])
    {
      assert events[..i + 1][..i] == events[..i];
      if events[i].payload.TurnStarted? && events[i].turn.Some? { turnId := events[i].turn; }
    }
    assert events[..|events|] == events;
  }

  /** The latest request of the turn that nothing resolved. */
  method LatestOpen(events: seq<Event>, turn: Id, resolved: set<Option<string>>) returns (pending: Option<Event>)
    requires forall c :: c in resolved <==> Resolved(events, turn, c)
    ensures pending == LastOpen(events, turn, events)
    ensures pending.Some? ==> pending.value.payload.ApprovalRequested?
  {
    pending := None;
    for i := 0 to |events|
      invariant pending == LastOpen(events, turn, events[..i])
      invariant pending.Some? ==> pending.value.payload.ApprovalRequested?
    {
      assert events[..i + 1][..i] == events[..i];
      var e := events[i];
      if InTurn(e, turn) && e.payload.ApprovalRequested? && e.payload.callId !in resolved { pending := Some(e); }
    }
    assert events[..|events|] == events;
  }

  /** The turn's first event, and its calls without a result. */
  method OpenCalls(events: seq<Event>, turn: Id, settled: set<string>) returns (calls: seq<Item>, first: Option<Event>)
    requires forall c :: c in settled <==> Settled(events, turn, c)
    ensures calls == Unsettled(events, turn, events) && first == FirstOf(events, turn)
  {
    calls, first := [], None;
    for i := 0 to |events|
      invariant calls == Unsettled(events, turn, events[..i])
      invariant first == FirstOf(events[..i], turn)
    {
      assert events[..i + 1][..i] == events[..i];
      var e := events[i];
      if InTurn(e, turn) {
        if first.None? { first := Some(e); }
        if IsCall(e) && e.payload.item.body.callId !in settled { calls := calls + [e.payload.item]; }
      }
    }
    assert events[..|events|] == events;
  }

  method FindPendingApproval(store: EventStore, t: ThreadId) returns (r: Option<PendingApproval>)
    ensures r == Pending(Read(store.State(), t))
  {
    var events := store.ReadThread(t);
    var turnId := LatestTurn(events);
    if turnId.None? { return None; }
    var turn := turnId.value;
    var ended, resolved, settled := ScanTurn(events, turn);
    if ended { return None; }
    var pending := LatestOpen(events, turn, resolved);
    if pending.None? || pending.value.payload.callId.None? { return None; }
    var calls, first := OpenCalls(events, turn, settled);
    if calls == [] || first.None? { return None; }
    var request := pending.value.payload;
    r := Some(PendingApproval(turn, first.value.correlation, first.value.profile, request.callId.value,
                              request.action, request.risk, calls));
  }

  /**
   A turn is offered for resumption exactly when it is the last one started, has no end, holds an
   unresolved request, the latest such request names a call, and some tool call has no result. The last
   two conditions are in the code but not in the promise above it.
   */
  lemma PendingExactlyWhen(events: seq<Event>)
    ensures Pending(events).Some? <==>
      && LastTurn(events).Some?
      && var turn := LastTurn(events).value;
         && !Ended(events, turn)
         && (exists e :: e in events && InTurn(e, turn) && IsCall(e) && !Settled(events, turn, e.payload.item.body.callId))
         && (exists i :: 0 <= i < |events| && IsOpen(events, turn, events[i]) && events[i].payload.callId.Some?
               && forall j :: i < j < |events| ==> !IsOpen(events, turn, events[j]))
  {
    if LastTurn(events).Some? {
      var turn := LastTurn(events).value;
      LastOpenIsLast(events, turn, events);
      UnsettledIsEmpty(events, turn, events);
      LastTurnIsStarted(events);
      FirstExists(events, turn);
    }
  }

  lemma {:induction false} LastTurnIsStarted(events: seq<Event>)
    requires LastTurn(events).Some?
    ensures exists e :: e in events && InTurn(e, LastTurn(events).value) && e.payload.TurnStarted?
  {
    var e := events[|events| - 1];
    if !(e.payload.TurnStarted? && e.turn.Some?) {
      LastTurnIsStarted(events[..|events| - 1]);
    }
  }

  lemma {:induction false} FirstExists(events: seq<Event>, turn: Id)
    ensures FirstOf(events, turn).Some? <==> exists e :: e in events && InTurn(e, turn)
  {
    if events != [] {
      FirstExists(events[..|events| - 1], turn);
      assert events == events[..|events| - 1] + [events[|events| - 1]];
    }
  }

  lemma {:induction false} LastOpenIsLast(events: seq<Event>, turn: Id, upto: seq<Event>)
    ensures LastOpen(events, turn, upto).None? <==> forall e :: e in upto ==> !IsOpen(events, turn, e)
    ensures LastOpen(events, turn, upto).Some? ==>
      exists i :: 0 <= i < |upto| && LastOpen(events, turn, upto) == Some(upto[i]) && IsOpen(events, turn, upto[i])
        && forall j :: i < j < |upto| ==> !IsOpen(events, turn, upto[j])
  {
    if upto != [] {
      assert upto == upto[..|upto| - 1] + [upto[|upto| - 1]];
      LastOpenIsLast(events, turn, upto[..|upto| - 1]);
    }
  }

  lemma {:induction false} UnsettledIsEmpty(events: seq<Event>, turn: Id, upto: seq<Event>)
    ensures Unsettled(events, turn, upto) == [] <==>
      forall e :: e in upto && InTurn(e, turn) && IsCall(e) ==> Settled(events, turn, e.payload.item.body.callId)
  {
    if upto != [] {
      assert upto == upto[..|upto| - 1] + [upto[|upto| - 1]];
      UnsettledIsEmpty(events, turn, upto[..|upto| - 1]);
    }
  }

  /** What the comment on the function calls a turn that waits for approval. */
  ghost predicate AwaitsApproval(events: seq<Event>) {
    LastTurn(events).Some? && !Ended(events, LastTurn(events).value)
    && exists e :: e in events && IsOpen(events, LastTurn(events).value, e)
  }

  const GO := Event(0, "t", Some(1), None, 0, "ask", TurnStarted("go"))
  const RUN := Event(1, "t", Some(1), Some(2), 0, "ask", ItemAppended(Item(2, 1, "t", ToolCall("c", "sh", "{}"))))
  const MAY_RUN := Event(2, "t", Some(1), None, 0, "ask", ApprovalRequested(Some("c"), "sh", "low"))
  const MAY_I := Event(2, "t", Some(1), None, 0, "ask", ApprovalRequested(None, "sh", "low"))

  /** A request that names no call: the turn waits, and is not offered. */
  lemma NamelessRequestIsNotOffered()
    ensures AwaitsApproval([GO, RUN, MAY_I]) && Pending([GO, RUN, MAY_I]) == None
  {
    var log := [GO, RUN, MAY_I];
    LastTurnIsFirst(log);
    assert IsOpen(log, 1, log[2]);
  }

  /** A request whose call was never recorded: the turn waits, and is not offered. */
  lemma RequestWithoutCallIsNotOffered()
    ensures AwaitsApproval([GO, MAY_RUN]) && Pending([GO, MAY_RUN]) == None
  {
    var log := [GO, MAY_RUN];
    LastTurnIsFirst(log);
    assert IsOpen(log, 1, log[1]);
    PendingExactlyWhen(log);
  }

  lemma {:induction false} LastTurnIsFirst(log: seq<Event>)
    requires log != [] && log[0] == GO && forall i :: 0 < i < |log| ==> !log[i].payload.TurnStarted?
    ensures LastTurn(log) == Some(1)
    decreases |log|
  {
    if |log| > 1 { LastTurnIsFirst(log[..|log| - 1]); }
  }
}
