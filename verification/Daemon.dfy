/**
 The daemon's turn and approval state: one turn in flight, at most one approval waiting, and clients that
 come and go (apps/daemon/src/daemon.ts). What the event log says about a thread is a parameter.
 */
module Daemon {
  import opened Options

  type ThreadId = string
  type RequestId = nat    // approval requests, in the order they were made

  datatype Client = Client(name: string, connection: nat)

  /** The reasons the broker gives, by what they say. */
  datatype Reason =
    | NoClientAttached  // "no client is attached to answer; the turn stays awaiting approval"
    | AllDetached       // "every client detached before answering"
    | TurnCancelled     // "the turn was cancelled"
    | DeniedByClient    // "a client denied the action"

  datatype Decision = Approved(scope: string) | Denied(reason: Reason) | Deferred(reason: Reason)
  datatype Pending = Pending(thread: ThreadId, callId: string, request: RequestId)
  datatype InFlight = InFlight(thread: ThreadId, aborted: bool)
  datatype Settlement = Settlement(request: RequestId, decision: Decision)

  /** The daemon's fields; then, for reasoning, how many requests were made and how each was settled. */
  datatype State = State(threads: set<ThreadId>, clients: set<Client>, pending: Option<Pending>, inFlight: Option<InFlight>,
                         closed: bool, requests: nat, settlements: seq<Settlement>)

  const INITIAL := State({}, {}, None, None, false, 0, [])

  datatype Command =
    | CreateThread(id: ThreadId)                     // the id minted for the new thread
    | StartTurn(thread: ThreadId, parked: bool)      // parked: the log holds an approval the thread waits for
    | ResumeThread(thread: ThreadId, parked: bool)
    | Approve(callId: Option<string>, granted: bool, scope: Option<string>)
    | Interrupt
    | Unsupported

  datatype Step =
    | Connects(client: Client)
    | Disconnects(client: Client)
    | Commands(command: Command)
    | Asks(callId: string)       // the engine of the running turn asks for an approval
    | TurnEnds                   // the running turn's promise settles, in whatever way
    | Stops

  datatype Reply = Done | TurnRunning | NoSuchThread | AwaitingApproval | NothingToResume | NoApprovalWaiting
                 | DecisionMismatch | NoTurnRunning | UnsupportedCommand

  // ----- one step ------------------------------------------------------------------------------------------------

  /** The waiting request gets its one decision and is forgotten. */
  function Settle(s: State, d: Decision): State {
    if s.pending.None? then s
    else s.(pending := None, settlements := s.settlements + [Settlement(s.pending.value.request, d)])
  }

  function CannotRun(s: State, thread: ThreadId): Option<Reply> {
    if s.inFlight.Some? then Some(TurnRunning) else if thread !in s.threads then Some(NoSuchThread) else None
  }

  function ReplyTo(s: State, c: Command): Reply {
    match c
    case CreateThread(_) => Done
    case StartTurn(thread, parked) =>
      if CannotRun(s, thread).Some? then CannotRun(s, thread).value else if parked then AwaitingApproval else Done
    case ResumeThread(thread, parked) =>
      if CannotRun(s, thread).Some? then CannotRun(s, thread).value else if !parked then NothingToResume else Done
    case Approve(callId, _, _) =>
      if s.pending.None? then NoApprovalWaiting
      else if callId.Some? && callId.value != s.pending.value.callId then DecisionMismatch else Done
    case Interrupt => if s.inFlight.None? then NoTurnRunning else Done
    case Unsupported => UnsupportedCommand
  }

  function Verdict(granted: bool, scope: Option<string>): Decision {
    if granted then Approved(if scope.Some? then scope.value else "once") else Denied(DeniedByClient)
  }

  /** A refused command changes nothing. */
  function AfterCommand(s: State, c: Command): State {
    if ReplyTo(s, c) != Done then s
    else
      match c
      case CreateThread(id) => s.(threads := s.threads + {id})
      case StartTurn(thread, _) => s.(inFlight := Some(InFlight(thread, false)))
      case ResumeThread(thread, _) => s.(inFlight := Some(InFlight(thread, false)))
      case Approve(_, granted, scope) => Settle(s, Verdict(granted, scope))
      case Interrupt =>
        Settle(s.(inFlight := Some(s.inFlight.value.(aborted := true))), Deferred(TurnCancelled))
      case Unsupported => s
  }

  function AfterAsk(s: State, callId: string): State
    requires s.inFlight.Some?
  {
    var id, asked := s.requests, s.(requests := s.requests + 1);
    if s.clients == {} then
      asked.(settlements := s.settlements + [Settlement(id, Deferred(NoClientAttached))])
    else if s.inFlight.value.aborted then
      asked.(settlements := s.settlements + [Settlement(id, Deferred(TurnCancelled))])
    else asked.(pending := Some(Pending(s.inFlight.value.thread, callId, id)))
  }

  function AfterDisconnect(s: State, c: Client): State {
    var left := s.(clients := s.clients - {c});
    if left.clients == {} then Settle(left, Deferred(AllDetached)) else left
  }

  predicate Enabled(s: State, step: Step) {
    match step
    case Asks(_) => s.inFlight.Some?
    case TurnEnds => s.inFlight.Some?
    case _ => true
  }

  function Apply(s: State, step: Step): State
    requires Enabled(s, step)
  {
    match step
    case Connects(c) => s.(clients := s.clients + {c})
    case Disconnects(c) => AfterDisconnect(s, c)
    case Commands(c) => AfterCommand(s, c)
    case Asks(callId) => AfterAsk(s, callId)
    case TurnEnds => s.(inFlight := None, pending := None)
    case Stops => if s.closed then s
                  else s.(closed := true, inFlight := if s.inFlight.Some? then Some(s.inFlight.value.(aborted := true)) else None)
  }

  // ----- the daemon ------------------------------------------------------------------------------------------------

  class Daemon {
    var threads: set<ThreadId>
    var clients: set<Client>
    var pending: Option<Pending>
    var inFlight: Option<InFlight>
    var closed: bool
    var requests: nat                        // names each request's promise
    ghost var settlements: seq<Settlement>

    ghost function Value(): State
      reads this
    {
      State(threads, clients, pending, inFlight, closed, requests, settlements)
    }

    constructor ()
      ensures Value() == INITIAL
    {
      threads, clients, pending, inFlight, closed, requests, settlements := {}, {}, None, None, false, 0, [];
    }

    method SettlePending(d: Decision)
      modifies this
      ensures Value() == Settle(old(Value()), d)
    {
      if pending.Some? {
        settlements := settlements + [Settlement(pending.value.request, d)];
        pending := None;
      }
    }

    method Connect(c: Client)
      modifies this
      ensures Value() == Apply(old(Value()), Connects(c))
    {
      clients := clients + {c};
    }

    method Disconnect(c: Client)
      modifies this
      ensures Value() == Apply(old(Value()), Disconnects(c))
    {
      clients := clients - {c};
      if clients == {} && pending.Some? { SettlePending(Deferred(AllDetached)); }
    }

    method OnCommand(c: Command) returns (reply: Reply)
      modifies this
      ensures reply == ReplyTo(old(Value()), c)
      ensures Value() == Apply(old(Value()), Commands(c))
    {
      match c {
        case CreateThread(id) =>
          threads := threads + {id};
          reply := Done;
        case StartTurn(thread, parked) =>
          if inFlight.Some? { return TurnRunning; }
          if thread !in threads { return NoSuchThread; }
          if parked { return AwaitingApproval; }
          inFlight, reply := Some(InFlight(thread, false)), Done;
        case ResumeThread(thread, parked) =>
          if inFlight.Some? { return TurnRunning; }
          if thread !in threads { return NoSuchThread; }
          if !parked { return NothingToResume; }
          inFlight, reply := Some(InFlight(thread, false)), Done;
        case Approve(callId, granted, scope) =>
          if pending.None? { return NoApprovalWaiting; }
          if callId.Some? && callId.value != pending.value.callId { return DecisionMismatch; }
          SettlePending(if granted then Approved(if scope.Some? then scope.value else "once") else Denied(DeniedByClient));
          reply := Done;
        case Interrupt =>
          if inFlight.None? { return NoTurnRunning; }
          inFlight := Some(inFlight.value.(aborted := true));
          SettlePending(Deferred(TurnCancelled));
          reply := Done;
        case Unsupported => reply := UnsupportedCommand;
      }
    }

    /** An approval request: either deferred on the spot, or left waiting for a client. */
    method Ask(callId: string) returns (deferred: Option<Reason>)
      requires inFlight.Some?
      modifies this
      ensures Value() == Apply(old(Value()), Asks(callId))
      ensures deferred.None? <==> clients != {} && !inFlight.value.aborted
    {
      var id := requests;
      requests := requests + 1;
      deferred := None;
      if clients == {} {
        deferred := Some(NoClientAttached);
      } else if inFlight.value.aborted {
        deferred := Some(TurnCancelled);
      }
      if deferred.Some? {
        settlements := settlements + [Settlement(id, Deferred(deferred.value))];
      } else {
        pending := Some(Pending(inFlight.value.thread, callId, id));
      }
    }

    method EndTurn()
      requires inFlight.Some?
      modifies this
      ensures Value() == Apply(old(Value()), TurnEnds)
    {
      inFlight, pending := None, None;
    }

    method Stop()
      modifies this
      ensures Value() == Apply(old(Value()), Stops)
    {
      if closed { return; }
      closed := true;
      if inFlight.Some? { inFlight := Some(inFlight.value.(aborted := true)); }
    }
  }

  // ----- runs --------------------------------------------------------------------------------------------------------

  predicate Admissible(s: State, run: seq<Step>)
    decreases |run|
  {
    run == [] || (Enabled(s, run[0]) && Admissible(Apply(s, run[0]), run[1..]))
  }

  function Exec(s: State, run: seq<Step>): State
    requires Admissible(s, run)
    decreases |run|
  {
    if run == [] then s else Exec(Apply(s, run[0]), run[1..])
  }

  predicate SettledIn(log: seq<Settlement>, id: RequestId) { exists i :: 0 <= i < |log| && log[i].request == id }

  ghost predicate Inv(s: State) {
    && (s.pending.Some? ==>
          && s.inFlight.Some? && s.clients != {} && s.pending.value.thread == s.inFlight.value.thread
          && (s.inFlight.value.aborted ==> s.closed)
          && s.pending.value.request < s.requests && !SettledIn(s.settlements, s.pending.value.request))
    && (forall i :: 0 <= i < |s.settlements| ==> s.settlements[i].request < s.requests)
    && (forall i, j :: 0 <= i < j < |s.settlements| ==> s.settlements[i].request != s.settlements[j].request)
  }

  lemma SettleKeeps(s: State, d: Decision)
    requires s.pending.Some? ==> s.pending.value.request < s.requests && !SettledIn(s.settlements, s.pending.value.request)
    requires forall i :: 0 <= i < |s.settlements| ==> s.settlements[i].request < s.requests
    requires forall i, j :: 0 <= i < j < |s.settlements| ==> s.settlements[i].request != s.settlements[j].request
    ensures Inv(Settle(s, d))
  {
  }

  lemma CommandKeeps(s: State, c: Command)
    requires Inv(s)
    ensures Inv(AfterCommand(s, c))
  {
    if ReplyTo(s, c) == Done {
      match c
      case Approve(_, granted, scope) => SettleKeeps(s, Verdict(granted, scope));
      case Interrupt => SettleKeeps(s.(inFlight := Some(s.inFlight.value.(aborted := true))), Deferred(TurnCancelled));
      case _ =>
    }
  }

  lemma AskKeeps(s: State, callId: string)
    requires Inv(s) && s.inFlight.Some?
    ensures Inv(AfterAsk(s, callId))
  {
    assert forall i :: 0 <= i < |s.settlements| ==> s.settlements[i].request != s.requests;
  }

  lemma DisconnectKeeps(s: State, c: Client)
    requires Inv(s)
    ensures Inv(AfterDisconnect(s, c))
  {
    if s.clients - {c} == {} { SettleKeeps(s.(clients := s.clients - {c}), Deferred(AllDetached)); }
  }

  lemma StepKeeps(s: State, step: Step)
    requires Inv(s) && Enabled(s, step)
    ensures Inv(Apply(s, step))
  {
    match step
    case Disconnects(c) => DisconnectKeeps(s, c);
    case Commands(c) => CommandKeeps(s, c);
    case Asks(callId) => AskKeeps(s, callId);
    case _ =>
  }

  lemma {:induction false} RunKeeps(s: State, run: seq<Step>)
    requires Inv(s) && Admissible(s, run)
    ensures Inv(Exec(s, run))
    decreases |run|
  {
    if run != [] {
      StepKeeps(s, run[0]);
      RunKeeps(Apply(s, run[0]), run[1..]);
    }
  }

  /**
   In every order of connects, disconnects, commands, requests and turn ends: an approval waits only while
   its own turn is in flight, uninterrupted unless the daemon is stopping, and somebody is attached to
   answer it; and each request is settled at most once.
   */
  lemma ApprovalsWaitForSomebody(run: seq<Step>)
    requires Admissible(INITIAL, run)
    ensures var s := Exec(INITIAL, run);
      && (s.pending.Some? ==>
            && s.clients != {} && s.inFlight.Some? && s.inFlight.value.thread == s.pending.value.thread
            && (s.inFlight.value.aborted ==> s.closed) && !SettledIn(s.settlements, s.pending.value.request))
      && (forall i, j :: 0 <= i < j < |s.settlements| ==> s.settlements[i].request != s.settlements[j].request)
  {
    RunKeeps(INITIAL, run);
  }

  // ----- turns -------------------------------------------------------------------------------------------------------

  predicate Starts(s: State, step: Step) { Enabled(s, step) && s.inFlight.None? && Apply(s, step).inFlight.Some? }

  /** How many turns a run starts and how many it ends. */
  function Started(s: State, run: seq<Step>): nat
    requires Admissible(s, run)
    decreases |run|
  {
    if run == [] then 0 else (if Starts(s, run[0]) then 1 else 0) + Started(Apply(s, run[0]), run[1..])
  }

  function Ended(run: seq<Step>): nat { if run == [] then 0 else (if run[0].TurnEnds? then 1 else 0) + Ended(run[1..]) }

  /** Turns never overlap: what was started and has not ended is the one turn in flight, or nothing. */
  lemma {:induction false} OneTurnAtATime(s: State, run: seq<Step>)
    requires Admissible(s, run)
    ensures Started(s, run) + (if s.inFlight.Some? then 1 else 0) == Ended(run) + if Exec(s, run).inFlight.Some? then 1 else 0
    decreases |run|
  {
    if run != [] { OneTurnAtATime(Apply(s, run[0]), run[1..]); }
  }

  /** Remark: while a turn is in flight nothing replaces it, or its thread, but its own end. */
  lemma RunningTurnIsKept(s: State, step: Step)
    requires Enabled(s, step) && s.inFlight.Some? && !step.TurnEnds?
    ensures Apply(s, step).inFlight.Some? && Apply(s, step).inFlight.value.thread == s.inFlight.value.thread
    ensures s.inFlight.value.aborted ==> Apply(s, step).inFlight.value.aborted
    ensures step.Commands? && (step.command.StartTurn? || step.command.ResumeThread?) ==>
      ReplyTo(s, step.command) == TurnRunning && Apply(s, step) == s
  {
  }

  // ----- what approves -------------------------------------------------------------------------------------------------

  /** The command that answers the request waiting in `s`, in favour. */
  predicate Grants(s: State, step: Step, id: RequestId) {
    && step.Commands? && step.command.Approve? && step.command.granted
    && s.pending.Some? && s.pending.value.request == id
    && (step.command.callId.None? || step.command.callId.value == s.pending.value.callId)
  }

  predicate IsApproved(log: seq<Settlement>, id: RequestId) {
    exists i :: 0 <= i < |log| && log[i].request == id && log[i].decision.Approved?
  }

  lemma OneStepApproves(s: State, step: Step, id: RequestId)
    requires Enabled(s, step)
    ensures IsApproved(Apply(s, step).settlements, id) <==> IsApproved(s.settlements, id) || Grants(s, step, id)
  {
    var log, log' := s.settlements, Apply(s, step).settlements;
    assert log <= log' && |log'| <= |log| + 1;
    if IsApproved(log, id) {
      var i :| 0 <= i < |log| && log[i].request == id && log[i].decision.Approved?;
      assert log'[i] == log[i];
    }
    if Grants(s, step, id) { assert log'[|log|].request == id && log'[|log|].decision.Approved?; }
    if IsApproved(log', id) {
      var i :| 0 <= i < |log'| && log'[i].request == id && log'[i].decision.Approved?;
      if i < |log| { assert log[i] == log'[i]; }
    }
  }

  ghost predicate GrantedDuring(s: State, run: seq<Step>, id: RequestId)
    requires Admissible(s, run)
    decreases |run|
  {
    run != [] && (Grants(s, run[0], id) || GrantedDuring(Apply(s, run[0]), run[1..], id))
  }

  /**
   Over a whole run, a request is approved exactly when some client sent a granting answer for it while it
   waited, naming its call or none: no disconnect, interrupt, timeout or turn end ever approves anything.
   */
  lemma {:induction false} ApprovedOnlyByAnAnswer(s: State, run: seq<Step>, id: RequestId)
    requires Admissible(s, run)
    ensures IsApproved(Exec(s, run).settlements, id) <==> IsApproved(s.settlements, id) || GrantedDuring(s, run, id)
    decreases |run|
  {
    if run != [] {
      OneStepApproves(s, run[0], id);
      ApprovedOnlyByAnAnswer(Apply(s, run[0]), run[1..], id);
    }
  }

  // ----- no request is lost ----------------------------------------------------------------------------------------------

  /** An engine that asks one approval at a time and does not end a turn while it waits for one. */
  predicate Patient(s: State, run: seq<Step>)
    requires Admissible(s, run)
    decreases |run|
  {
    run == [] ||
    (((run[0].Asks? || run[0].TurnEnds?) ==> s.pending.None?) && Patient(Apply(s, run[0]), run[1..]))
  }

  ghost predicate AllAccounted(s: State) {
    forall id: nat :: id < s.requests ==> SettledIn(s.settlements, id) || (s.pending.Some? && s.pending.value.request == id)
  }

  lemma OneStepAccounts(s: State, step: Step)
    requires Enabled(s, step) && AllAccounted(s) && (step.Asks? || step.TurnEnds? ==> s.pending.None?)
    ensures AllAccounted(Apply(s, step))
  {
    var s' := Apply(s, step);
    assert s.settlements <= s'.settlements;
    forall id: nat | id < s'.requests ensures SettledIn(s'.settlements, id) || (s'.pending.Some? && s'.pending.value.request == id) {
      if id < s.requests && SettledIn(s.settlements, id) {
        var i :| 0 <= i < |s.settlements| && s.settlements[i].request == id;
        assert s'.settlements[i].request == id;
      } else if |s'.settlements| > |s.settlements| {
        assert s'.settlements[|s.settlements|].request == id;
      }
    }
  }

  /** With such an engine every request ever made was settled, once, or is the one still waiting. */
  lemma {:induction false} NoRequestIsLost(s: State, run: seq<Step>)
    requires Admissible(s, run) && Patient(s, run) && AllAccounted(s)
    ensures AllAccounted(Exec(s, run))
    decreases |run|
  {
    if run != [] {
      OneStepAccounts(s, run[0]);
      NoRequestIsLost(Apply(s, run[0]), run[1..]);
    }
  }

  /** The request was made, is not settled and no longer waits. */
  predicate Dropped(s: State, id: RequestId) {
    id < s.requests && !SettledIn(s.settlements, id) && (s.pending.Some? ==> s.pending.value.request != id)
  }

  lemma OneStepDrops(s: State, step: Step, id: RequestId)
    requires Enabled(s, step) && Dropped(s, id)
    ensures Dropped(Apply(s, step), id)
  {
    var log, log' := s.settlements, Apply(s, step).settlements;
    assert forall i :: 0 <= i < |log'| ==> if i < |log| then log'[i] == log[i] else log'[i].request != id;
  }

  /** A turn that ends while a request waits drops it, and nothing later ever settles it, so nothing approves it. */
  lemma {:induction false} DroppedStaysUnanswered(s: State, run: seq<Step>, id: RequestId)
    requires Admissible(s, run)
    requires Dropped(s, id) || (Inv(s) && s.pending.Some? && s.pending.value.request == id && run != [] && run[0].TurnEnds?)
    ensures Dropped(Exec(s, run), id)
    decreases |run|
  {
    if run != [] {
      if Dropped(s, id) { OneStepDrops(s, run[0], id); }
      DroppedStaysUnanswered(Apply(s, run[0]), run[1..], id);
    }
  }
}
