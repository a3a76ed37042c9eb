/**
 The daemon's turns and settlements told from the steps alone: which command starts a turn, what aborts it, what each
 command is answered, and for what reason a request is settled.
 */
module DaemonStory {
  import opened Options
  import D = Daemon

  // ----- turns --------------------------------------------------------------------------------------------------------------

  datatype Turn = NoTurn | Running(thread: D.ThreadId, aborted: bool)

  /** What the steps have created, which turn they left running, and whether the daemon was stopped. */
  datatype Told = Told(threads: set<D.ThreadId>, turn: Turn, stopped: bool)

  const UNTOLD := Told({}, NoTurn, false)

  function Aborting(turn: Turn): Turn { if turn.Running? then turn.(aborted := true) else turn }

  /**
   A turn starts for a thread that exists, when none runs: by a prompt if the thread waits for no approval, and by a
   resume if it does. It ends when it ends; an interrupt aborts it, and so does the first stop.
   */
  function After(p: Told, step: D.Step): Told {
    match step
    case Commands(CreateThread(id)) => p.(threads := p.threads + {id})
    case Commands(StartTurn(thread, parked)) =>
      if p.turn.NoTurn? && thread in p.threads && !parked then p.(turn := Running(thread, false)) else p
    case Commands(ResumeThread(thread, parked)) =>
      if p.turn.NoTurn? && thread in p.threads && parked then p.(turn := Running(thread, false)) else p
    case Commands(Interrupt) => p.(turn := Aborting(p.turn))
    case TurnEnds => p.(turn := NoTurn)
    case Stops => if p.stopped then p else p.(stopped := true, turn := Aborting(p.turn))
    case _ => p
  }

  function Story(p: Told, run: seq<D.Step>): Told
    decreases |run|
  {
    if run == [] then p else Story(After(p, run[0]), run[1..])
  }

  /** The state is where the story is. */
  predicate Tells(s: D.State, p: Told) {
    && s.threads == p.threads && s.closed == p.stopped
    && s.inFlight == (match p.turn case NoTurn => None case Running(thread, aborted) => Some(D.InFlight(thread, aborted)))
  }

  lemma {:induction false} TurnsFollowTheStory(s: D.State, run: seq<D.Step>, p: Told)
    requires D.Admissible(s, run) && Tells(s, p)
    ensures Tells(D.Exec(s, run), Story(p, run))
    decreases |run|
  {
    if run != [] {
      StepFollows(s, run[0], p);
      TurnsFollowTheStory(D.Apply(s, run[0]), run[1..], After(p, run[0]));
    }
  }

  lemma StepFollows(s: D.State, step: D.Step, p: Told)
    requires D.Enabled(s, step) && Tells(s, p)
    ensures Tells(D.Apply(s, step), After(p, step))
  {
    match step
    case Commands(Approve(_, granted, scope)) =>
    case Commands(Interrupt) =>
    case Disconnects(_) =>
    case _ =>
  }

  /** Which turn a run has left running, and whether it is aborted, over every run of a new daemon. */
  lemma TurnsOfEveryRun(run: seq<D.Step>)
    requires D.Admissible(D.INITIAL, run)
    ensures Tells(D.Exec(D.INITIAL, run), Story(UNTOLD, run))
  {
    TurnsFollowTheStory(D.INITIAL, run, UNTOLD);
  }

  // ----- answers --------------------------------------------------------------------------------------------------------------

  /** What a prompt and a resume are answered, in every state that a run leads to. */
  lemma PromptsAreAnswered(run: seq<D.Step>, thread: D.ThreadId, parked: bool)
    requires D.Admissible(D.INITIAL, run)
    ensures var p, s := Story(UNTOLD, run), D.Exec(D.INITIAL, run);
      var start, resume := D.ReplyTo(s, D.StartTurn(thread, parked)), D.ReplyTo(s, D.ResumeThread(thread, parked));
      if p.turn.Running? then start == resume == D.TurnRunning
      else if thread !in p.threads then start == resume == D.NoSuchThread
      else if parked then start == D.AwaitingApproval && resume == D.Done
      else start == D.Done && resume == D.NothingToResume
  {
    TurnsOfEveryRun(run);
  }

  /** And an interrupt and an answer. */
  lemma AnswersAreAnswered(run: seq<D.Step>, callId: Option<string>, granted: bool, scope: Option<string>)
    requires D.Admissible(D.INITIAL, run)
    ensures var p, s := Story(UNTOLD, run), D.Exec(D.INITIAL, run);
      && (D.ReplyTo(s, D.Interrupt) == if p.turn.Running? then D.Done else D.NoTurnRunning)
      && D.ReplyTo(s, D.Unsupported) == D.UnsupportedCommand
      && (D.ReplyTo(s, D.Approve(callId, granted, scope)) ==
            if s.pending.None? then D.NoApprovalWaiting
            else if callId == None || callId == Some(s.pending.value.callId) then D.Done
            else D.DecisionMismatch)
  {
    TurnsOfEveryRun(run);
  }

  // ----- settlements ----------------------------------------------------------------------------------------------------------

  /** The step answers the waiting request: it names its call or none. */
  predicate Answers(s: D.State, step: D.Step) {
    && step.Commands? && step.command.Approve? && s.pending.Some?
    && (step.command.callId == None || step.command.callId == Some(s.pending.value.callId))
  }

  /** The last client leaves. */
  predicate LeavesNobody(s: D.State, step: D.Step) { step.Disconnects? && forall c :: c in s.clients ==> c == step.client }

  /** A request comes, and what is waiting in its place. */
  predicate IsDeferredAtOnce(s: D.State, step: D.Step, r: D.Reason) {
    && step.Asks? && s.inFlight.Some?
    && ((s.clients == {} && r == D.NoClientAttached) || (s.clients != {} && s.inFlight.value.aborted && r == D.TurnCancelled))
  }

  /**
   Why a step settles a request so: a client's answer approves it in the scope it names, `once` if it names none, or
   denies it; the last client to leave, an interrupt, and a request without a client or in an aborted turn defer it.
   */
  predicate Explains(s: D.State, step: D.Step, x: D.Settlement) {
    match x.decision
    case Approved(scope) =>
      && Answers(s, step) && step.command.granted && x.request == s.pending.value.request
      && scope == (match step.command.scope case None => "once" case Some(named) => named)
    case Denied(reason) =>
      Answers(s, step) && !step.command.granted && x.request == s.pending.value.request && reason == D.DeniedByClient
    case Deferred(reason) =>
      || (IsDeferredAtOnce(s, step, reason) && x.request == s.requests)
      || (s.pending.Some? && x.request == s.pending.value.request
          && ((LeavesNobody(s, step) && reason == D.AllDetached)
              || (step == D.Commands(D.Interrupt) && s.inFlight.Some? && reason == D.TurnCancelled)))
  }

  /** A step settles exactly what it explains, and at most one request. */
  lemma StepSettles(s: D.State, step: D.Step)
    requires D.Enabled(s, step)
    ensures var log, log' := s.settlements, D.Apply(s, step).settlements;
      && log <= log' && |log'| <= |log| + 1
      && (|log'| > |log| ==> Explains(s, step, log'[|log|]))
      && (forall x: D.Settlement :: Explains(s, step, x) ==> log' == log + [x])
  {
    LeavesNobodyBehind(s, step);
    match step
    case Commands(_) => CommandSettles(s, step);
    case Disconnects(c) =>
    case _ =>
  }

  lemma LeavesNobodyBehind(s: D.State, step: D.Step)
    ensures step.Disconnects? ==> (LeavesNobody(s, step) <==> s.clients - {step.client} == {})
  {
    if step.Disconnects? && s.clients - {step.client} == {} {
      forall c | c in s.clients ensures c == step.client { assert c !in s.clients - {step.client}; }
    }
  }

  lemma CommandSettles(s: D.State, step: D.Step)
    requires step.Commands?
    ensures var log, log' := s.settlements, D.Apply(s, step).settlements;
      && log <= log' && |log'| <= |log| + 1
      && (|log'| > |log| ==> Explains(s, step, log'[|log|]))
      && (forall x: D.Settlement :: Explains(s, step, x) ==> log' == log + [x])
  {
    match step.command
    case Approve(_, _, _) =>
    case Interrupt =>
    case _ =>
  }

  /** The step of the run that settled it. */
  ghost predicate SettledDuring(s: D.State, run: seq<D.Step>, x: D.Settlement)
    requires D.Admissible(s, run)
    decreases |run|
  {
    run != [] && (Explains(s, run[0], x) || SettledDuring(D.Apply(s, run[0]), run[1..], x))
  }

  /** Over a whole run a settlement is in the log exactly when some step of the run explains it. */
  lemma {:induction false} SettledExactlyWhenExplained(s: D.State, run: seq<D.Step>, x: D.Settlement)
    requires D.Admissible(s, run)
    ensures x in D.Exec(s, run).settlements <==> x in s.settlements || SettledDuring(s, run, x)
    decreases |run|
  {
    if run != [] {
      StepSettles(s, run[0]);
      var log, log' := s.settlements, D.Apply(s, run[0]).settlements;
      assert log' == log || (|log'| == |log| + 1 && log' == log + [log'[|log|]]);
      SettledExactlyWhenExplained(D.Apply(s, run[0]), run[1..], x);
    }
  }

  // ----- what waits -------------------------------------------------------------------------------------------------------------

  /** A request that is not deferred at once waits under its call, for the running thread. */
  lemma RequestsWait(s: D.State, callId: string)
    requires s.inFlight.Some?
    ensures var s' := D.Apply(s, D.Asks(callId));
      && s'.requests == s.requests + 1
      && (s.clients != {} && !s.inFlight.value.aborted ==>
            s'.pending == Some(D.Pending(s.inFlight.value.thread, callId, s.requests)) && s'.settlements == s.settlements)
      && (s.clients == {} || s.inFlight.value.aborted ==> s'.pending == s.pending)
  {
  }
}
