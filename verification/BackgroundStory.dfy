/**
 The story of one task, told from the events alone: what ends it and how, how its input wait grows, what it is
 given, and which signals leave the manager for it. Every run keeps each task as its story says.
 */
module BackgroundStory {
  import opened Options
  import opened BackgroundTasks
  import opened BackgroundScheduling
  import H = BackgroundHistory
  import N = Notifications

  /** Not waiting, suspected of waiting for input, known to wait, or known to wait with nobody to answer. */
  datatype Wait = Free | Suspected(since: int) | Asking(since: int) | Stuck

  datatype Verdict = Verdict(status: Status, exit: Exit, at: int)

  /**
   What leaves for a task: the record of its start, a cancellation and an input to its runner, and notifications, at
   their level and about the task; one that asks for input says what for.
   */
  datatype Signal = Recorded(at: int) | Cancel | Input(value: string) | Note(kind: N.Kind, level: int, about: TaskId, asks: Option<string>, at: int)

  datatype Birth = Birth(input: StartInput, placement: Placement, at: int)

  /** The signals sent so far, the latest outermost. */
  datatype Signals = Silence | Then(before: Signals, last: Signal)

  datatype Story = Story(
    born: Option<Birth>, wait: Wait, asked: Option<InputRequest>, output: nat, signals: Signals, verdict: Option<Verdict>)

  const UNTOLD := Story(None, Free, None, 0, Silence, None)

  function Sends(p: Story, signal: Signal): Story { p.(signals := Then(p.signals, signal)) }

  /** Success is told as a completion, at the third level, and anything else as a failure, at the second. */
  function EndNote(status: Status, id: TaskId, at: int): Signal {
    if status.Succeeded? then Note(N.BackgroundCompletion, 3, id, None, at) else Note(N.TaskFailure, 2, id, None, at)
  }

  function Ends(p: Story, id: TaskId, status: Status, exit: Exit, at: int): Story {
    Sends(p.(verdict := Some(Verdict(status, exit, at))), EndNote(status, id, at))
  }

  /** Where a task runs: where it was asked to, else in the background if it is long-lived and not interactive. */
  function PlaceOf(input: StartInput): Placement {
    match input.placement
    case Some(asked) => asked
    case None => if input.longLived && !input.interactive then Background else Foreground
  }

  /** A task is started, and the start recorded. */
  function Born(input: StartInput, now: int): Story {
    Sends(UNTOLD.(born := Some(Birth(input, PlaceOf(input), now))), Recorded(now))
  }

  /** An exit report ends the story as it says. */
  function AfterExit(p: Story, id: TaskId, exit: Exit, now: int): Story {
    if exit.ok then Ends(p, id, Succeeded, exit, now) else Ends(p, id, Failed, exit, now)
  }

  /** A stop cancels what has been launched. */
  function AfterStop(p: Story, id: TaskId, launched: bool, now: int): Story {
    Ends(if launched then Sends(p, Cancel) else p, id, Cancelled, Exit(false, None, "cancelled"), now)
  }

  /** Output is counted, and crossing ten mebibytes warns. */
  function Counting(p: Story, id: TaskId, chunk: string, now: int): Story {
    var counted := p.(output := p.output + |chunk|);
    if p.output < 10_485_760 <= p.output + |chunk| then Sends(counted, Note(N.Status, 4, id, None, now)) else counted
  }

  /** Reaching the hard limit cancels and ends the task as failed. */
  function AfterOutput(p: Story, id: TaskId, chunk: string, hardStop: int, now: int): Story {
    var p1 := Counting(p, id, chunk, now);
    if p1.output < hardStop then p1
    else Ends(Sends(p1, Cancel), id, Failed, Exit(false, None, "output hard-stop limit exceeded"), now)
  }

  function AfterRequest(p: Story, id: TaskId, request: InputRequest, now: int): Story {
    Sends(p.(wait := Asking(now), asked := Some(request)), Note(N.InputRequest, 1, id, Some(request.prompt), now))
  }

  function AfterInput(p: Story, value: string): Story {
    if p.wait.Asking? || p.wait.Stuck? then Sends(p.(wait := Free, asked := None), Input(value)) else p
  }

  /** Thirty seconds make a suspicion a request, and five minutes without an approval channel make a request a block. */
  function AfterWatch(p: Story, id: TaskId, approvalChannel: bool, now: int): Story {
    match p.wait
    case Suspected(since) =>
      if now - since >= 30_000 then AfterRequest(p, id, InputRequest("input required (watchdog)", false), now) else p
    case Asking(since) =>
      if !approvalChannel && now - since >= 300_000 then Sends(p.(wait := Stuck), Note(N.Status, 4, id, None, now)) else p
    case _ => p
  }

  /** One event in the story of a task that has been started; after the end nothing is added. */
  function Next(p: Story, id: TaskId, launched: bool, approvalChannel: bool, hardStop: int, e: Event): Story {
    if p.verdict.Some? then p
    else
      match e.op
      case OnExit(k, exit) => if k == id then AfterExit(p, id, exit, e.now) else p
      case DoStop(k) => if k == id then AfterStop(p, id, launched, e.now) else p
      case OnOutput(k, chunk) => if k == id then AfterOutput(p, id, chunk, hardStop, e.now) else p
      case OnInputRequest(k, request) => if k == id then AfterRequest(p, id, request, e.now) else p
      case OnWaitDetected(k) => if k == id && p.wait.Free? then p.(wait := Suspected(e.now)) else p
      case DoProvideInput(k, value) => if k == id then AfterInput(p, value) else p
      case DoWatch => AfterWatch(p, id, approvalChannel, e.now)
      case DoAwait(_) => p
      case DoStart(_) => p
  }

  /** The story over a run. The states are read for which id is next and when the task is launched. */
  ghost function Told(s: Manager, run: seq<Event>, id: TaskId, hardStop: int, p: Story): Story
    requires Inv(s) && Admissible(s, run)
    decreases |run|
  {
    if run == [] then p
    else
      ListedInv(s);
      OpKeeps(s, run[0].op, run[0].now);
      Told(Apply(s, run[0].op, run[0].now), run[1..], id, hardStop, Continued(s, id, hardStop, p, run[0]))
  }

  ghost function Continued(s: Manager, id: TaskId, hardStop: int, p: Story, e: Event): Story {
    if id in s.tasks
    then Next(p, id, s.tasks[id].startedAt.Some?, s.tasks[id].input.approvalChannel, hardStop, e)
    else if e.op.DoStart? && id == s.ids then Born(e.op.input, e.now)
    else p
  }

  // ----- what a state says ------------------------------------------------------------------------------------------

  function NoteOf(note: N.Notification): Signal {
    Note(note.kind, note.level, note.subjectId, if note.kind.InputRequest? then Some(note.message) else None, note.createdAt)
  }

  /** The signals for the task `id`, after those in `before`, when the manager made `e` happen. */
  function Hearing(before: Signals, e: Effect, id: TaskId): Signals {
    if e.id != id then before
    else
      match e
      case StartRecorded(_, view) => Then(before, Recorded(view.createdAt))
      case CancelCalled(_) => Then(before, Cancel)
      case InputGiven(_, value) => Then(before, Input(value))
      case Notified(_, note) => Then(before, NoteOf(note))
      case _ => before
  }

  /** The signals for one task, in the order they left. */
  function Heard(effects: seq<Effect>, id: TaskId): Signals
    decreases |effects|
  {
    if effects == [] then Silence else Hearing(Heard(effects[..|effects| - 1], id), effects[|effects| - 1], id)
  }

  predicate WaitsAs(t: Task, wait: Wait) {
    match wait
    case Free => (t.status.Queued? || t.status.Running?) && t.detectedWaitSince == None
    case Suspected(since) => t.status.Running? && t.detectedWaitSince == Some(since)
    case Asking(since) => t.status.AwaitingInput? && t.awaitingSince == Some(since) && t.detectedWaitSince == None
    case Stuck => t.status.Blocked? && t.detectedWaitSince == None
  }

  /** The record is where the story is. */
  predicate TaskTells(t: Task, p: Story) {
    && p.born == Some(Birth(t.input, t.placement, t.createdAt))
    && t.outputBytes == p.output
    && t.lastInputRequest == p.asked
    && match p.verdict
       case None => !t.status.Terminal() && t.exit == None && t.endedAt == None && WaitsAs(t, p.wait)
       case Some(v) => t.status == v.status && t.exit == Some(v.exit) && t.endedAt == Some(v.at)
                       && (v.status.Succeeded? || v.status.Failed? || v.status.Cancelled?)
  }

  ghost predicate Tells(s: Manager, id: TaskId, p: Story) {
    && (if id in s.tasks then TaskTells(s.tasks[id], p) else p == UNTOLD)
    && Heard(s.effects, id) == p.signals
  }

  // ----- what leaves a task where it is ------------------------------------------------------------------------------

  lemma HeardExtend(effects: seq<Effect>, e: Effect, id: TaskId)
    ensures Heard(effects + [e], id) == Hearing(Heard(effects, id), e, id)
  {
    assert (effects + [e])[..|effects|] == effects;
  }

  predicate SameBirth(t: Task, t': Task) { t'.input == t.input && t'.placement == t.placement && t'.createdAt == t.createdAt }

  /** Nothing the story tells changes, except that a queued task may be launched. */
  predicate Steady(t: Task, t': Task) {
    && SameBirth(t, t')
    && t'.outputBytes == t.outputBytes && t'.outputWarned == t.outputWarned && t'.lastInputRequest == t.lastInputRequest
    && t'.exit == t.exit && t'.endedAt == t.endedAt
    && t'.detectedWaitSince == t.detectedWaitSince && t'.awaitingSince == t.awaitingSince
    && (t'.status == t.status || (t.status.Queued? && t'.status.Running?))
  }

  ghost predicate SteadyAt(s: Manager, s': Manager, id: TaskId) {
    && s'.hardStop == s.hardStop
    && (id in s.tasks <==> id in s'.tasks)
    && (id in s.tasks ==> Steady(s.tasks[id], s'.tasks[id]))
    && Heard(s'.effects, id) == Heard(s.effects, id)
  }

  lemma SteadyTells(s: Manager, s': Manager, id: TaskId, p: Story)
    requires SteadyAt(s, s', id) && Tells(s, id, p)
    ensures Tells(s', id, p)
  {
  }

  lemma SteadyTrans(s: Manager, s1: Manager, s2: Manager, id: TaskId)
    requires SteadyAt(s, s1, id) && SteadyAt(s1, s2, id)
    ensures SteadyAt(s, s2, id)
  {
  }

  lemma NotifyHeard(s: Manager, k: TaskId, kind: N.Kind, message: string, now: int, id: TaskId)
    ensures var s' := Notify(s, k, kind, message, now);
      && s'.tasks == s.tasks && s'.hardStop == s.hardStop
      && Heard(s'.effects, id) == if k != id then Heard(s.effects, id)
           else Then(Heard(s.effects, id), Note(kind, N.LevelOf(kind), id, if kind.InputRequest? then Some(message) else None, now))
  {
    HeardExtend(s.effects, Notified(k, N.Notification(s.ids, kind, N.LevelOf(kind), k, message, now)), id);
  }

  lemma LaunchHeard(s: Manager, k: TaskId, now: int, id: TaskId)
    requires k in s.tasks
    ensures Heard(Launch(s, k, now).effects, id) == Heard(s.effects, id)
  {
    HeardExtend(s.effects, Effect.Launched(k, s.tasks[k].placement), id);
  }

  lemma LaunchIsSteady(s: Manager, k: TaskId, now: int, id: TaskId)
    requires k in s.tasks && s.tasks[k].status.Queued?
    ensures SteadyAt(s, Launch(s, k, now), id)
  {
    LaunchHeard(s, k, now, id);
  }

  lemma {:induction false} AdmitIsSteady(s: Manager, now: int, id: TaskId)
    ensures SteadyAt(s, Admit(s, now), id)
    decreases |s.queue|
  {
    if ForegroundRunning(s) < s.limit && s.queue != [] {
      var next, s1 := s.queue[0], s.(queue := s.queue[1..]);
      if next in s1.tasks && s1.tasks[next].status.Queued? {
        LaunchIsSteady(s1, next, now, id);
        AdmitIsSteady(Launch(s1, next, now), now, id);
      } else {
        AdmitIsSteady(s1, now, id);
      }
    }
  }

  lemma {:induction false} ResolveAllHeard(effects: seq<Effect>, k: TaskId, waiters: seq<Waiter>, view: Task, id: TaskId)
    ensures Heard(ResolveAll(effects, k, waiters, view), id) == Heard(effects, id)
    decreases |waiters|
  {
    if waiters != [] {
      HeardExtend(effects, Resolved(k, waiters[0], view), id);
      ResolveAllHeard(effects + [Resolved(k, waiters[0], view)], k, waiters[1..], view, id);
    }
  }

  predicate Settled(t: Task, t': Task, status: Status, exit: Exit, now: int) {
    && SameBirth(t, t') && t'.outputBytes == t.outputBytes && t'.lastInputRequest == t.lastInputRequest
    && t'.status == status && t'.exit == Some(exit) && t'.endedAt == Some(now)
  }

  ghost predicate EndsHere(s: Manager, s': Manager, id: TaskId, status: Status, exit: Exit, now: int) {
    && s'.hardStop == s.hardStop && id in s.tasks && id in s'.tasks
    && Settled(s.tasks[id], s'.tasks[id], status, exit, now)
    && Heard(s'.effects, id) ==
         Then(Heard(s.effects, id), EndNote(status, id, now))
  }

  lemma SettleTaskHeard(s: Manager, k: TaskId, status: Status, exit: Exit, now: int, id: TaskId)
    requires k in s.tasks
    ensures Heard(SettleTask(s, k, status, exit, now).effects, id) ==
      if k == id then Then(Heard(s.effects, id), EndNote(status, id, now)) else Heard(s.effects, id)
  {
    var t := s.tasks[k].(status := status, exit := Some(exit), endedAt := Some(now), controlled := false);
    var kind := if status.Succeeded? then N.BackgroundCompletion else N.TaskFailure;
    var notice := Notified(k, N.Notification(s.ids, kind, N.LevelOf(kind), k, "settled", now));
    var record := CompletionRecorded(k, View(t), status.Succeeded?);
    SettledHeard(s.effects, notice, record, s.tasks[k].waiters, View(t), id);
  }

  lemma SettledHeard(effects: seq<Effect>, notice: Effect, record: Effect, waiters: seq<Waiter>, view: Task, id: TaskId)
    requires record.CompletionRecorded?
    ensures Heard(ResolveAll(effects + [notice] + [record], notice.id, waiters, view), id) == Hearing(Heard(effects, id), notice, id)
  {
    HeardExtend(effects, notice, id);
    HeardExtend(effects + [notice], record, id);
    ResolveAllHeard(effects + [notice] + [record], notice.id, waiters, view, id);
  }

  lemma SettleTaskRecords(s: Manager, k: TaskId, status: Status, exit: Exit, now: int)
    requires k in s.tasks
    ensures var s' := SettleTask(s, k, status, exit, now);
      && s'.hardStop == s.hardStop && s'.tasks.Keys == s.tasks.Keys
      && (forall id :: id in s.tasks && id != k ==> s'.tasks[id] == s.tasks[id])
      && Settled(s.tasks[k], s'.tasks[k], status, exit, now)
  {
  }

  lemma SettleTaskTells(s: Manager, k: TaskId, status: Status, exit: Exit, now: int, id: TaskId)
    requires k in s.tasks
    ensures var s' := SettleTask(s, k, status, exit, now);
      if k != id then SteadyAt(s, s', id) else EndsHere(s, s', id, status, exit, now)
  {
    SettleTaskHeard(s, k, status, exit, now, id);
    SettleTaskRecords(s, k, status, exit, now);
  }

  lemma SettleTells(s: Manager, k: TaskId, status: Status, exit: Exit, now: int, id: TaskId)
    requires k in s.tasks && !s.tasks[k].status.Terminal() && status.Terminal()
    ensures var s' := Settle(s, k, status, exit, now);
      if k != id then SteadyAt(s, s', id) else EndsHere(s, s', id, status, exit, now)
  {
    SettleTaskTells(s, k, status, exit, now, id);
    AdmitIsSteady(SettleTask(s, k, status, exit, now), now, id);
  }

  lemma CancelTells(s: Manager, k: TaskId, id: TaskId)
    requires k in s.tasks
    ensures var s' := CancelControl(s, k);
      && s'.tasks == s.tasks && s'.hardStop == s.hardStop
      && Heard(s'.effects, id) == if k == id && s.tasks[k].controlled then Then(Heard(s.effects, id), Cancel) else Heard(s.effects, id)
  {
    HeardExtend(s.effects, CancelCalled(k), id);
  }

  // ----- one operation, on the task itself or on another ----------------------------------------------------------

  lemma ExitTells(s: Manager, k: TaskId, exit: Exit, now: int, id: TaskId, p: Story)
    requires k in s.tasks && Tells(s, id, p)
    ensures Tells(Exited(s, k, exit, now), id, if k == id && p.verdict.None? then AfterExit(p, id, exit, now) else p)
    ensures Exited(s, k, exit, now).hardStop == s.hardStop
  {
    if !s.tasks[k].status.Terminal() { SettleTells(s, k, if exit.ok then Succeeded else Failed, exit, now, id); }
  }

  /** A task that has not ended has been launched if and only if it is live. */
  lemma LaunchedIsLive(s: Manager, k: TaskId)
    requires H.Hist(s) && k in s.tasks
    ensures !s.tasks[k].status.Terminal() ==> (s.tasks[k].startedAt.Some? <==> s.tasks[k].status.Live())
  {
    assert H.HistAt(s, k);
  }

  lemma StopTells(s: Manager, k: TaskId, now: int, id: TaskId, p: Story)
    requires H.Hist(s) && k in s.tasks && Tells(s, id, p)
    ensures Tells(Stop(s, k, now), id,
                  if k == id && p.verdict.None? then AfterStop(p, id, s.tasks[id].startedAt.Some?, now) else p)
    ensures Stop(s, k, now).hardStop == s.hardStop
  {
    WarnedFromTheSize(s, k);
    LaunchedIsLive(s, k);
    if !s.tasks[k].status.Terminal() {
      CancelTells(s, k, id);
      SettleTells(CancelControl(s, k), k, Cancelled, CANCELLED, now, id);
    }
  }

  /** What a chunk does to the record of its task: it is counted, whatever else is. */
  predicate Counted(t: Task, t': Task, size: nat) {
    && SameBirth(t, t') && t'.outputBytes == t.outputBytes + size && t'.lastInputRequest == t.lastInputRequest
    && t'.status == t.status && t'.exit == t.exit && t'.endedAt == t.endedAt
    && t'.detectedWaitSince == t.detectedWaitSince && t'.awaitingSince == t.awaitingSince
  }

  lemma WarnedFromTheSize(s: Manager, k: TaskId)
    requires H.Hist(s) && k in s.tasks
    ensures s.tasks[k].outputWarned <==> s.tasks[k].outputBytes >= 10_485_760
    ensures s.tasks[k].controlled <==> s.tasks[k].status.Live()
  {
    assert H.HistAt(s, k);
  }

  lemma AcceptRecords(s: Manager, k: TaskId, chunk: string, now: int)
    requires k in s.tasks
    ensures var s' := Accept(s, k, chunk, now);
      && s'.hardStop == s.hardStop && s'.tasks.Keys == s.tasks.Keys
      && (forall id :: id in s.tasks && id != k ==> s'.tasks[id] == s.tasks[id])
      && Counted(s.tasks[k], s'.tasks[k], |chunk|) && s'.tasks[k].controlled == s.tasks[k].controlled
  {
  }

  /** What a chunk makes the manager do: the output is handed on, and perhaps a warning. */
  lemma AcceptEffects(s: Manager, k: TaskId, chunk: string, now: int) returns (warning: seq<Effect>)
    requires k in s.tasks
    ensures warning ==
      if !s.tasks[k].outputWarned && s.tasks[k].outputBytes + |chunk| >= 10_485_760
      then [Notified(k, N.Notification(s.ids, N.Status, 4, k, "output exceeded the warning size", now))] else []
    ensures Accept(s, k, chunk, now).effects == s.effects + [OutputAccepted(k, chunk)] + warning
  {
    var t := s.tasks[k];
    AbsorbCounts(t, chunk);
    if !t.outputWarned && t.outputBytes + |chunk| >= 10_485_760 {
      warning := [Notified(k, N.Notification(s.ids, N.Status, 4, k, "output exceeded the warning size", now))];
    } else {
      warning := [];
    }
  }

  lemma AcceptHeard(s: Manager, k: TaskId, chunk: string, now: int, id: TaskId)
    requires k in s.tasks && (s.tasks[k].outputWarned <==> s.tasks[k].outputBytes >= 10_485_760)
    ensures Heard(Accept(s, k, chunk, now).effects, id) ==
      if k == id && s.tasks[k].outputBytes < 10_485_760 <= s.tasks[k].outputBytes + |chunk|
      then Then(Heard(s.effects, id), Note(N.Status, 4, id, None, now)) else Heard(s.effects, id)
  {
    var warning := AcceptEffects(s, k, chunk, now);
    WarningHeard(s.effects, Accept(s, k, chunk, now).effects, OutputAccepted(k, chunk), warning, id);
  }

  lemma WarningHeard(effects: seq<Effect>, effects': seq<Effect>, accepted: Effect, warning: seq<Effect>, id: TaskId)
    requires accepted.OutputAccepted? && |warning| <= 1 && effects' == effects + [accepted] + warning
    ensures Heard(effects', id) == if warning == [] then Heard(effects, id) else Hearing(Heard(effects, id), warning[0], id)
  {
    HeardExtend(effects, accepted, id);
    if warning == [] {
      assert effects' == effects + [accepted];
    } else {
      assert warning == [warning[0]];
      HeardExtend(effects + [accepted], warning[0], id);
    }
  }

  lemma AbsorbCounts(t: Task, chunk: string)
    ensures var t' := Absorb(t, chunk); t'.outputBytes == t.outputBytes + |chunk| && t'.outputWarned == t.outputWarned
  {
  }

  /** A task is settled, and its control cancelled before that. */
  ghost predicate EndsCancelled(s: Manager, s': Manager, id: TaskId, status: Status, exit: Exit, now: int) {
    && s'.hardStop == s.hardStop && id in s.tasks && id in s'.tasks
    && Settled(s.tasks[id], s'.tasks[id], status, exit, now)
    && Heard(s'.effects, id) == Then(Then(Heard(s.effects, id), Cancel), EndNote(status, id, now))
  }

  lemma CancelledThenSettled(s: Manager, s1: Manager, s': Manager, id: TaskId, status: Status, exit: Exit, now: int)
    requires s1.tasks == s.tasks && s1.hardStop == s.hardStop && Heard(s1.effects, id) == Then(Heard(s.effects, id), Cancel)
    requires EndsHere(s1, s', id, status, exit, now)
    ensures EndsCancelled(s, s', id, status, exit, now)
  {
  }

  /** A hard stop cancels and settles. */
  lemma HardStopTells(s: Manager, k: TaskId, now: int, id: TaskId)
    requires k in s.tasks && s.tasks[k].status.Live() && s.tasks[k].controlled
    ensures var s' := Settle(CancelControl(s, k), k, Failed, HARD_STOPPED, now);
      if k != id then SteadyAt(s, s', id) else EndsCancelled(s, s', id, Failed, HARD_STOPPED, now)
  {
    var s1 := CancelControl(s, k);
    var s' := Settle(s1, k, Failed, HARD_STOPPED, now);
    CancelTells(s, k, id);
    SettleTells(s1, k, Failed, HARD_STOPPED, now, id);
    if k != id { SteadyTrans(s, s1, s', id); } else { CancelledThenSettled(s, s1, s', id, Failed, HARD_STOPPED, now); }
  }

  lemma AcceptElsewhere(s: Manager, k: TaskId, chunk: string, now: int, id: TaskId)
    requires H.Hist(s) && k in s.tasks && k != id
    ensures SteadyAt(s, Accept(s, k, chunk, now), id)
  {
    WarnedFromTheSize(s, k);
    AcceptRecords(s, k, chunk, now);
    AcceptHeard(s, k, chunk, now, id);
  }

  lemma OutputIs(s: Manager, k: TaskId, chunk: string, now: int)
    requires k in s.tasks && !s.tasks[k].status.Terminal()
    ensures var s1 := Accept(s, k, chunk, now);
      && s1.tasks.Keys == s.tasks.Keys
      && Output(s, k, chunk, now) ==
           if s1.tasks[k].outputBytes >= s.hardStop then Settle(CancelControl(s1, k), k, Failed, HARD_STOPPED, now) else s1
  {
    AcceptRecords(s, k, chunk, now);
  }

  lemma OutputElsewhere(s: Manager, k: TaskId, chunk: string, now: int, id: TaskId)
    requires H.Hist(s) && k in s.tasks && s.tasks[k].status.Live() && k != id
    ensures SteadyAt(s, Output(s, k, chunk, now), id)
  {
    var s1 := Accept(s, k, chunk, now);
    WarnedFromTheSize(s, k);
    AcceptRecords(s, k, chunk, now);
    AcceptElsewhere(s, k, chunk, now, id);
    OutputIs(s, k, chunk, now);
    if s1.tasks[k].outputBytes >= s.hardStop {
      HardStopTells(s1, k, now, id);
      SteadyTrans(s, s1, Output(s, k, chunk, now), id);
    }
  }

  lemma AcceptTells(s: Manager, chunk: string, now: int, id: TaskId, p: Story)
    requires H.Hist(s) && id in s.tasks && s.tasks[id].status.Live() && Tells(s, id, p)
    ensures var s1 := Accept(s, id, chunk, now);
      && Tells(s1, id, Counting(p, id, chunk, now)) && s1.hardStop == s.hardStop
      && s1.tasks[id].status.Live() && s1.tasks[id].controlled
  {
    AcceptRecords(s, id, chunk, now);
    WarnedFromTheSize(s, id);
    AcceptHeard(s, id, chunk, now, id);
  }

  lemma CancelledTells(s: Manager, s': Manager, id: TaskId, status: Status, exit: Exit, now: int, p: Story)
    requires Tells(s, id, p) && p.verdict.None? && status.Terminal() && EndsCancelled(s, s', id, status, exit, now)
    ensures Tells(s', id, Ends(Sends(p, Cancel), id, status, exit, now))
  {
  }

  lemma OutputEnds(s1: Manager, s': Manager, hardStop: int, id: TaskId, p: Story, chunk: string, now: int)
    requires p.verdict.None? && Tells(s1, id, Counting(p, id, chunk, now)) && id in s1.tasks
    requires if s1.tasks[id].outputBytes >= hardStop then EndsCancelled(s1, s', id, Failed, HARD_STOPPED, now) else s' == s1
    ensures Tells(s', id, AfterOutput(p, id, chunk, hardStop, now))
  {
    var p1 := Counting(p, id, chunk, now);
    if p1.output >= hardStop { CancelledTells(s1, s', id, Failed, HARD_STOPPED, now, p1); }
  }

  lemma OutputHere(s: Manager, chunk: string, now: int, id: TaskId, p: Story)
    requires H.Hist(s) && id in s.tasks && s.tasks[id].status.Live() && Tells(s, id, p)
    ensures Tells(Output(s, id, chunk, now), id, AfterOutput(p, id, chunk, s.hardStop, now))
    ensures Output(s, id, chunk, now).hardStop == s.hardStop
  {
    var s1, s' := Accept(s, id, chunk, now), Output(s, id, chunk, now);
    AcceptTells(s, chunk, now, id, p);
    OutputIs(s, id, chunk, now);
    HardStopTells(s1, id, now, id);
    OutputEnds(s1, s', s.hardStop, id, p, chunk, now);
  }

  lemma OutputTells(s: Manager, k: TaskId, chunk: string, now: int, id: TaskId, p: Story)
    requires H.Hist(s) && k in s.tasks && s.tasks[k].startedAt.Some? && Tells(s, id, p)
    ensures Tells(Output(s, k, chunk, now), id, if k == id && p.verdict.None? then AfterOutput(p, id, chunk, s.hardStop, now) else p)
    ensures Output(s, k, chunk, now).hardStop == s.hardStop
  {
    LaunchedIsLive(s, k);
    if s.tasks[k].status.Live() {
      if k == id { OutputHere(s, chunk, now, id, p); } else { OutputElsewhere(s, k, chunk, now, id); }
    }
  }

  lemma RequestTells(s: Manager, k: TaskId, request: InputRequest, now: int, id: TaskId, p: Story)
    requires k in s.tasks && Tells(s, id, p)
    ensures var s' := EnterAwaitingInput(s, k, request, now);
      && Tells(s', id, if k == id && p.verdict.None? then AfterRequest(p, id, request, now) else p)
      && s'.hardStop == s.hardStop && (k != id ==> SteadyAt(s, s', id))
  {
    var t := s.tasks[k];
    if !t.status.Terminal() {
      var t' := t.(status := AwaitingInput, awaitingSince := Some(now), detectedWaitSince := None, lastInputRequest := Some(request));
      NotifyHeard(s.(tasks := s.tasks[k := t']), k, N.InputRequest, request.prompt, now, id);
    }
  }

  lemma InputHeard(s: Manager, k: TaskId, value: string, id: TaskId)
    requires k in s.tasks
    ensures var t, heard := s.tasks[k], Heard(s.effects, id);
      Heard(ProvideInput(s, k, value).effects, id) ==
        if k == id && (t.status.AwaitingInput? || t.status.Blocked?) && t.controlled then Then(heard, Input(value)) else heard
  {
    HeardExtend(s.effects, InputGiven(k, value), id);
  }

  lemma InputTells(s: Manager, k: TaskId, value: string, id: TaskId, p: Story)
    requires H.Hist(s) && k in s.tasks && Tells(s, id, p)
    ensures Tells(ProvideInput(s, k, value), id, if k == id && p.verdict.None? then AfterInput(p, value) else p)
    ensures ProvideInput(s, k, value).hardStop == s.hardStop
  {
    WarnedFromTheSize(s, k);
    InputHeard(s, k, value, id);
  }

  lemma DetectedTells(s: Manager, k: TaskId, now: int, id: TaskId, p: Story)
    requires H.Hist(s) && k in s.tasks && s.tasks[k].startedAt.Some? && Tells(s, id, p)
    ensures Tells(WaitDetected(s, k, now), id, if k == id && p.verdict.None? && p.wait.Free? then p.(wait := Suspected(now)) else p)
    ensures WaitDetected(s, k, now).hardStop == s.hardStop
  {
    assert H.HistAt(s, k);
  }

  lemma AwaitHeard(s: Manager, k: TaskId, id: TaskId)
    requires k in s.tasks
    ensures Heard(Await(s, k).effects, id) == Heard(s.effects, id)
  {
    HeardExtend(s.effects, WaitBegun(k, s.ids), id);
    HeardExtend(s.effects + [WaitBegun(k, s.ids)], Resolved(k, s.ids, View(s.tasks[k])), id);
  }

  lemma AwaitTells(s: Manager, k: TaskId, id: TaskId, p: Story)
    requires k in s.tasks && Tells(s, id, p)
    ensures Tells(Await(s, k), id, p) && Await(s, k).hardStop == s.hardStop
  {
    AwaitHeard(s, k, id);
  }

  lemma BlockTells(s: Manager, k: TaskId, now: int, id: TaskId)
    requires k in s.tasks
    ensures var s' := Block(s, k, now);
      if k != id then SteadyAt(s, s', id)
      else
        && s'.hardStop == s.hardStop && s'.tasks == s.tasks[id := s.tasks[id].(status := Blocked)]
        && Heard(s'.effects, id) == Then(Heard(s.effects, id), Note(N.Status, 4, id, None, now))
  {
    NotifyHeard(s.(tasks := s.tasks[k := s.tasks[k].(status := Blocked)]), k, N.Status, "blocked: no input channel", now, id);
  }

  lemma WatchElsewhere(s: Manager, k: TaskId, now: int, id: TaskId)
    requires k in s.tasks && k != id
    ensures SteadyAt(s, WatchOne(s, k, now), id)
  {
    var s1 := if WatchdogTrips(s.tasks[k], now) then EnterAwaitingInput(s, k, WATCHDOG, now) else s;
    if WatchdogTrips(s.tasks[k], now) {
      NotifyHeard(s.(tasks := s.tasks[k := s1.tasks[k]]), k, N.InputRequest, WATCHDOG.prompt, now, id);
    }
    if WaitsTooLong(s1.tasks[k], now) { BlockTells(s1, k, now, id); }
  }

  lemma WatchTells(s: Manager, id: TaskId, now: int, p: Story)
    requires id in s.tasks && Tells(s, id, p)
    ensures var s', channel := WatchOne(s, id, now), s.tasks[id].input.approvalChannel;
      && Tells(s', id, if p.verdict.None? then AfterWatch(p, id, channel, now) else p)
      && s'.hardStop == s.hardStop
  {
    if WatchdogTrips(s.tasks[id], now) {
      assert WatchOne(s, id, now) == EnterAwaitingInput(s, id, WATCHDOG, now) by { NewWaitIsFresh(s, id, now); }
      RequestTells(s, id, WATCHDOG, now, id, p);
    } else if WaitsTooLong(s.tasks[id], now) {
      assert WatchOne(s, id, now) == Block(s, id, now);
      BlockTells(s, id, now, id);
    } else {
      assert WatchOne(s, id, now) == s;
    }
  }

  /** A wait that begins now is not too long. */
  lemma NewWaitIsFresh(s: Manager, id: TaskId, now: int)
    requires id in s.tasks
    ensures var s1 := EnterAwaitingInput(s, id, WATCHDOG, now); s.tasks[id].status.Running? ==> !WaitsTooLong(s1.tasks[id], now)
  {
  }

  /** A pass of the watchdog looks at every task once. */
  lemma {:induction false} WatchAllTells(s: Manager, ids: seq<TaskId>, now: int, id: TaskId, p: Story)
    requires Ascending(ids) && (forall k :: k in ids ==> k in s.tasks) && Tells(s, id, p)
    ensures var s' := WatchAll(s, ids, now);
      && Tells(s', id, if id in ids && p.verdict.None? then AfterWatch(p, id, s.tasks[id].input.approvalChannel, now) else p)
      && s'.hardStop == s.hardStop
    decreases |ids|
  {
    if ids != [] {
      var k, rest := ids[0], ids[1..];
      var s1 := WatchOne(s, k, now);
      assert forall j :: j in rest ==> j in ids;
      assert k !in rest;
      assert id in ids <==> id == k || id in rest;
      if k == id {
        WatchTells(s, id, now, p);
        WatchAllTells(s1, rest, now, id, if p.verdict.None? then AfterWatch(p, id, s.tasks[id].input.approvalChannel, now) else p);
      } else {
        WatchElsewhere(s, k, now, id);
        WatchKeepsInput(s, k, now, id);
        WatchAllTells(s1, rest, now, id, p);
      }
    }
  }

  lemma WatchKeepsInput(s: Manager, k: TaskId, now: int, id: TaskId)
    requires k in s.tasks
    ensures id in s.tasks ==> WatchOne(s, k, now).tasks[id].input == s.tasks[id].input
  {
  }

  lemma RegisterTells(s: Manager, input: StartInput, now: int, id: TaskId, p: Story)
    requires s.ids !in s.tasks && Tells(s, id, p)
    ensures Tells(Register(s, input, now), id, if id == s.ids then Born(input, now) else p)
  {
    HeardExtend(s.effects, StartRecorded(s.ids, View(NewTask(s.ids, input, now))), id);
    assert id == s.ids ==> TaskTells(NewTask(id, input, now), Born(input, now));
  }

  lemma StartTells(s: Manager, input: StartInput, now: int, id: TaskId, p: Story)
    requires Inv(s) && Tells(s, id, p)
    ensures Tells(Start(s, input, now), id, if id == s.ids then Born(input, now) else p)
    ensures s.ids !in s.tasks && Start(s, input, now).hardStop == s.hardStop
  {
    var k, s1 := s.ids, Register(s, input, now);
    assert k !in s.tasks by { assert Placed(s, k); }
    RegisterTells(s, input, now, id, p);
    LaunchIsSteady(s1, k, now, id);
    SteadyTells(s1, Launch(s1, k, now), id, if id == k then Born(input, now) else p);
  }

  /** Every operation moves every task as the story does. */
  lemma OpTells(s: Manager, e: Event, id: TaskId, p: Story)
    requires Inv(s) && BackgroundTasks.Listed(s) && Enabled(s, e.op) && Tells(s, id, p)
    ensures Tells(Apply(s, e.op, e.now), id, Continued(s, id, s.hardStop, p, e))
    ensures Apply(s, e.op, e.now).hardStop == s.hardStop
  {
    match e.op
    case DoStart(input) => StartTells(s, input, e.now, id, p);
    case DoProvideInput(k, value) => if k in s.tasks { InputTells(s, k, value, id, p); }
    case DoStop(k) => if k in s.tasks { StopTells(s, k, e.now, id, p); }
    case DoAwait(k) => if k in s.tasks { AwaitTells(s, k, id, p); }
    case DoWatch => WatchAllTells(s, s.order, e.now, id, p);
    case OnOutput(k, chunk) => OutputTells(s, k, chunk, e.now, id, p);
    case OnInputRequest(k, request) => RequestTells(s, k, request, e.now, id, p);
    case OnWaitDetected(k) => DetectedTells(s, k, e.now, id, p);
    case OnExit(k, exit) => ExitTells(s, k, exit, e.now, id, p);
  }

  // ----- whole runs --------------------------------------------------------------------------------------------------

  lemma {:induction false} RunTells(s: Manager, run: seq<Event>, id: TaskId, p: Story)
    requires Inv(s) && Admissible(s, run) && Tells(s, id, p)
    ensures Tells(Exec(s, run), id, Told(s, run, id, s.hardStop, p))
    decreases |run|
  {
    if run != [] {
      ListedInv(s);
      OpKeeps(s, run[0].op, run[0].now);
      OpTells(s, run[0], id, p);
      RunTells(Apply(s, run[0].op, run[0].now), run[1..], id, Continued(s, id, s.hardStop, p, run[0]));
    }
  }

  /** After every run every task, its input wait, its output count and the signals sent for it are what its story says. */
  lemma EveryTaskFollowsItsStory(limit: nat, hardStop: int, run: seq<Event>, id: TaskId)
    ensures Inv(Initial(limit, hardStop))
    ensures Admissible(Initial(limit, hardStop), run) ==>
      Tells(Exec(Initial(limit, hardStop), run), id, Told(Initial(limit, hardStop), run, id, hardStop, UNTOLD))
  {
    InitialInv(limit, hardStop);
    if Admissible(Initial(limit, hardStop), run) { RunTells(Initial(limit, hardStop), run, id, UNTOLD); }
  }

  /** A story that has ended says success exactly for an exit that says so. */
  predicate Sound(p: Story) {
    p.verdict.Some? ==>
      && (p.verdict.value.status.Succeeded? <==> p.verdict.value.exit.ok)
      && (p.verdict.value.status.Cancelled? ==> p.verdict.value.exit == Exit(false, None, "cancelled"))
  }

  lemma ContinuedIsSound(s: Manager, id: TaskId, hardStop: int, p: Story, e: Event)
    requires Sound(p)
    ensures Sound(Continued(s, id, hardStop, p, e))
  {
  }

  lemma {:induction false} ToldIsSound(s: Manager, run: seq<Event>, id: TaskId, hardStop: int, p: Story)
    requires Inv(s) && Admissible(s, run) && Sound(p)
    ensures Sound(Told(s, run, id, hardStop, p))
    decreases |run|
  {
    if run != [] {
      ListedInv(s);
      OpKeeps(s, run[0].op, run[0].now);
      ContinuedIsSound(s, id, hardStop, p, run[0]);
      ToldIsSound(Apply(s, run[0].op, run[0].now), run[1..], id, hardStop, Continued(s, id, hardStop, p, run[0]));
    }
  }

  lemma ReachableStory(s: Manager, id: TaskId) returns (p: Story)
    requires Reachable(s)
    ensures Tells(s, id, p) && Sound(p)
  {
    var limit: nat, hardStop: int, run: seq<Event> :| ReachedBy(s, limit, hardStop, run);
    InitialInv(limit, hardStop);
    EveryTaskFollowsItsStory(limit, hardStop, run, id);
    ToldIsSound(Initial(limit, hardStop), run, id, hardStop, UNTOLD);
    p := Told(Initial(limit, hardStop), run, id, hardStop, UNTOLD);
  }

  /** In every reachable state a task that has ended succeeded if and only if its exit says so. */
  lemma SuccessIsTheExits(s: Manager, id: TaskId)
    requires Reachable(s) && id in s.tasks && s.tasks[id].exit.Some?
    ensures s.tasks[id].status.Succeeded? <==> s.tasks[id].exit.value.ok
    ensures s.tasks[id].status.Cancelled? ==> s.tasks[id].exit.value == Exit(false, None, "cancelled")
  {
    var p := ReachableStory(s, id);
  }

  /** What an event has to be to end a live task, and the status and the exit it then ends with. */
  function Deciding(t: Task, hardStop: int, op: Op): Option<(Status, Exit)> {
    match op
    case OnExit(id, exit) => if id != t.id then None else if exit.ok then Some((Succeeded, exit)) else Some((Failed, exit))
    case DoStop(id) => if id == t.id then Some((Cancelled, Exit(false, None, "cancelled"))) else None
    case OnOutput(id, chunk) =>
      if id == t.id && t.outputBytes + |chunk| >= hardStop
      then Some((Failed, Exit(false, None, "output hard-stop limit exceeded"))) else None
    case _ => None
  }

  lemma EndsAsDecided(s: Manager, e: Event, id: TaskId, p: Story)
    requires Inv(s) && BackgroundTasks.Listed(s) && Enabled(s, e.op) && id in s.tasks && !s.tasks[id].status.Terminal()
    requires s.tasks[id].id == id && Tells(s, id, p)
    ensures var end, s' := Deciding(s.tasks[id], s.hardStop, e.op), Apply(s, e.op, e.now);
      && id in s'.tasks
      && (end.Some? ==> s'.tasks[id].status == end.value.0 && s'.tasks[id].exit == Some(end.value.1) && s'.tasks[id].endedAt == Some(e.now))
      && (end.None? ==> !s'.tasks[id].status.Terminal())
  {
    OpKeeps(s, e.op, e.now);
    OpTells(s, e, id, p);
    ContinuedEnds(s, e, id, p);
  }

  lemma ContinuedEnds(s: Manager, e: Event, id: TaskId, p: Story)
    requires id in s.tasks && s.tasks[id].id == id && p.verdict.None? && p.output == s.tasks[id].outputBytes
    ensures var end, p' := Deciding(s.tasks[id], s.hardStop, e.op), Continued(s, id, s.hardStop, p, e);
      if end.Some? then p'.verdict == Some(Verdict(end.value.0, end.value.1, e.now)) else p'.verdict.None?
  {
  }

  /**
   The first exit report, stop or hard stop that reaches a task decides for good: success if and only if it was an
   exit report that says so, cancelled if and only if it was a stop. Nothing else ends a task.
   */
  lemma FirstEndDecides(s: Manager, e: Event, rest: seq<Event>, id: TaskId)
    requires Reachable(s) && id in s.tasks && !s.tasks[id].status.Terminal()
    requires Inv(s) && Admissible(s, [e] + rest)
    ensures var end, t' := Deciding(s.tasks[id], s.hardStop, e.op), Exec(s, [e] + rest).tasks;
      && (end.Some? ==> id in t' && t'[id].status == end.value.0 && t'[id].exit == Some(end.value.1) && t'[id].endedAt == Some(e.now))
      && (end.None? && rest == [] ==> id in t' && !t'[id].status.Terminal())
  {
    var p := ReachableStory(s, id);
    assert ([e] + rest)[1..] == rest;
    ListedInv(s);
    OpKeeps(s, e.op, e.now);
    ReachableHistory(s, id);
    EndsAsDecided(s, e, id, p);
    var s1 := Apply(s, e.op, e.now);
    if Deciding(s.tasks[id], s.hardStop, e.op).Some? { TerminalForever(s1, rest, id); }
  }
}
