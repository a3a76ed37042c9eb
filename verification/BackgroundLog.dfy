/**
 What the manager hands out and when: every task, notification and wait under an id of its own, every notification
 waiting at its level until it is delivered, and every launch at the time it happens.
 */
module BackgroundLog {
  import opened Options
  import opened BackgroundTasks
  import opened BackgroundScheduling
  import T = BackgroundStory
  import N = Notifications

  /** The id an effect gives away: a task's, a notification's or a wait's. */
  function NewId(e: Effect): seq<nat> {
    match e
    case StartRecorded(_, view) => [view.id]
    case Notified(_, note) => [note.id]
    case WaitBegun(_, w) => [w]
    case _ => []
  }

  function NewNote(e: Effect): seq<N.Notification> { if e.Notified? then [e.note] else [] }

  function Ids(effects: seq<Effect>): seq<nat> {
    if effects == [] then [] else Ids(effects[..|effects| - 1]) + NewId(effects[|effects| - 1])
  }

  function Notes(effects: seq<Effect>): seq<N.Notification> {
    if effects == [] then [] else Notes(effects[..|effects| - 1]) + NewNote(effects[|effects| - 1])
  }

  /** Ids rise, so no two are the same, and every notification sent is waiting at its level, in order. */
  ghost predicate Kept(s: Manager) {
    && Ascending(Ids(s.effects)) && (forall id :: id in Ids(s.effects) ==> id < s.ids)
    && (forall l: N.Level :: s.notes.byLevel[l] == N.AtLevel(Notes(s.effects), l))
  }

  // ----- one effect -----------------------------------------------------------------------------------------------------

  /** The effect is the next thing logged, with the next id if it needs one, and queued if it is a notification. */
  predicate Logs(s: Manager, s': Manager, e: Effect) {
    && s'.effects == s.effects + [e]
    && (if NewId(e) == [] then s'.ids == s.ids else NewId(e) == [s.ids] && s'.ids == s.ids + 1)
    && s'.notes == (if e.Notified? then N.Enqueued(s.notes, e.note) else s.notes)
  }

  lemma IdsExtend(effects: seq<Effect>, e: Effect)
    ensures Ids(effects + [e]) == Ids(effects) + NewId(e) && Notes(effects + [e]) == Notes(effects) + NewNote(e)
  {
    assert (effects + [e])[..|effects|] == effects;
  }

  lemma NotesAtLevel(s: Manager, s': Manager, e: Effect, l: N.Level)
    requires Logs(s, s', e) && s.notes.byLevel[l] == N.AtLevel(Notes(s.effects), l)
    ensures s'.notes.byLevel[l] == N.AtLevel(Notes(s'.effects), l)
  {
    IdsExtend(s.effects, e);
    N.AtLevelAppend(Notes(s.effects), NewNote(e), l);
    if e.Notified? { N.AtLevelOne(e.note, l); }
    assert N.AtLevel(Notes(s.effects), l) + [] == N.AtLevel(Notes(s.effects), l);
  }

  lemma LogKeeps(s: Manager, s': Manager, e: Effect)
    requires Kept(s) && Logs(s, s', e)
    ensures Kept(s')
  {
    IdsExtend(s.effects, e);
    if NewId(e) == [] { assert Ids(s.effects) + [] == Ids(s.effects); } else { AscendingAppend(Ids(s.effects), s.ids); }
    forall l: N.Level ensures s'.notes.byLevel[l] == N.AtLevel(Notes(s'.effects), l) { NotesAtLevel(s, s', e, l); }
  }

  /** Nothing is logged. */
  predicate Silent(s: Manager, s': Manager) { s'.effects == s.effects && s'.ids == s.ids && s'.notes == s.notes }

  lemma SilenceKeeps(s: Manager, s': Manager)
    requires Kept(s) && Silent(s, s')
    ensures Kept(s')
  {
  }

  // ----- every operation ------------------------------------------------------------------------------------------------

  lemma NotifyKeeps(s: Manager, id: TaskId, kind: N.Kind, message: string, now: int)
    requires Kept(s)
    ensures Kept(Notify(s, id, kind, message, now))
  {
    LogKeeps(s, Notify(s, id, kind, message, now), Notified(id, N.Notification(s.ids, kind, N.LevelOf(kind), id, message, now)));
  }

  lemma LaunchKeeps(s: Manager, id: TaskId, now: int)
    requires Kept(s) && id in s.tasks
    ensures Kept(Launch(s, id, now))
  {
    LogKeeps(s, Launch(s, id, now), Effect.Launched(id, s.tasks[id].placement));
  }

  lemma {:induction false} AdmitKeeps(s: Manager, now: int)
    requires Kept(s)
    ensures Kept(Admit(s, now))
    decreases |s.queue|
  {
    if ForegroundRunning(s) < s.limit && s.queue != [] {
      var next, s1 := s.queue[0], s.(queue := s.queue[1..]);
      SilenceKeeps(s, s1);
      if next in s1.tasks && s1.tasks[next].status.Queued? {
        LaunchKeeps(s1, next, now);
        AdmitKeeps(Launch(s1, next, now), now);
      } else {
        AdmitKeeps(s1, now);
      }
    }
  }

  lemma {:induction false} ResolveAllIds(effects: seq<Effect>, id: TaskId, waiters: seq<Waiter>, view: Task)
    ensures var after := ResolveAll(effects, id, waiters, view); Ids(after) == Ids(effects) && Notes(after) == Notes(effects)
    decreases |waiters|
  {
    if waiters != [] {
      IdsExtend(effects, Resolved(id, waiters[0], view));
      ResolveAllIds(effects + [Resolved(id, waiters[0], view)], id, waiters[1..], view);
    }
  }

  lemma SettleTaskKeeps(s: Manager, id: TaskId, status: Status, exit: Exit, now: int)
    requires Kept(s) && id in s.tasks
    ensures Kept(SettleTask(s, id, status, exit, now))
  {
    var t := s.tasks[id].(status := status, exit := Some(exit), endedAt := Some(now), controlled := false);
    var kind := if status.Succeeded? then N.BackgroundCompletion else N.TaskFailure;
    var s0 := s.(tasks := s.tasks[id := t]);
    var s1 := Notify(s0, id, kind, "settled", now);
    var s2 := Log(s1, CompletionRecorded(id, View(t), status.Succeeded?));
    SilenceKeeps(s, s0);
    NotifyKeeps(s0, id, kind, "settled", now);
    LogKeeps(s1, s2, CompletionRecorded(id, View(t), status.Succeeded?));
    ResolvedKeeps(s2, SettleTask(s, id, status, exit, now), id, t.waiters, View(t));
  }

  lemma ResolvedKeeps(s: Manager, s': Manager, id: TaskId, waiters: seq<Waiter>, view: Task)
    requires Kept(s) && s'.ids == s.ids && s'.notes == s.notes && s'.effects == ResolveAll(s.effects, id, waiters, view)
    ensures Kept(s')
  {
    ResolveAllIds(s.effects, id, waiters, view);
  }

  lemma SettleKeeps(s: Manager, id: TaskId, status: Status, exit: Exit, now: int)
    requires Kept(s) && id in s.tasks
    ensures Kept(Settle(s, id, status, exit, now))
  {
    if !s.tasks[id].status.Terminal() {
      SettleTaskKeeps(s, id, status, exit, now);
      AdmitKeeps(SettleTask(s, id, status, exit, now), now);
    }
  }

  lemma CancelKeeps(s: Manager, id: TaskId)
    requires Kept(s) && id in s.tasks
    ensures Kept(CancelControl(s, id))
  {
    if s.tasks[id].controlled { LogKeeps(s, CancelControl(s, id), CancelCalled(id)); }
  }

  lemma StartKeeps(s: Manager, input: StartInput, now: int)
    requires Kept(s)
    ensures Kept(Start(s, input, now))
  {
    var id, s1 := s.ids, Register(s, input, now);
    LogKeeps(s, s1, StartRecorded(id, View(NewTask(id, input, now))));
    LaunchKeeps(s1, id, now);
    SilenceKeeps(s1, s1.(queue := s1.queue + [id]));
  }

  lemma ProvideInputKeeps(s: Manager, id: TaskId, value: string)
    requires Kept(s) && id in s.tasks
    ensures Kept(ProvideInput(s, id, value))
  {
    var s' := ProvideInput(s, id, value);
    if Silent(s, s') { SilenceKeeps(s, s'); } else { LogKeeps(s, s', InputGiven(id, value)); }
  }

  lemma AwaitKeeps(s: Manager, id: TaskId)
    requires Kept(s) && id in s.tasks
    ensures Kept(Await(s, id))
  {
    var s1 := Log(s.(ids := s.ids + 1), WaitBegun(id, s.ids));
    LogKeeps(s, s1, WaitBegun(id, s.ids));
    if s.tasks[id].status.Terminal() {
      LogKeeps(s1, Await(s, id), Resolved(id, s.ids, View(s.tasks[id])));
    } else {
      SilenceKeeps(s1, Await(s, id));
    }
  }

  lemma EnterAwaitingInputKeeps(s: Manager, id: TaskId, request: InputRequest, now: int)
    requires Kept(s) && id in s.tasks
    ensures Kept(EnterAwaitingInput(s, id, request, now))
  {
    var t := s.tasks[id];
    if !t.status.Terminal() {
      var t' := t.(status := AwaitingInput, awaitingSince := Some(now), detectedWaitSince := None, lastInputRequest := Some(request));
      SilenceKeeps(s, s.(tasks := s.tasks[id := t']));
      NotifyKeeps(s.(tasks := s.tasks[id := t']), id, N.InputRequest, request.prompt, now);
    }
  }

  lemma WatchOneKeeps(s: Manager, id: TaskId, now: int)
    requires Kept(s) && id in s.tasks
    ensures Kept(WatchOne(s, id, now))
  {
    var s1 := if WatchdogTrips(s.tasks[id], now) then EnterAwaitingInput(s, id, WATCHDOG, now) else s;
    EnterAwaitingInputKeeps(s, id, WATCHDOG, now);
    if WaitsTooLong(s1.tasks[id], now) {
      var s2 := s1.(tasks := s1.tasks[id := s1.tasks[id].(status := Blocked)]);
      SilenceKeeps(s1, s2);
      NotifyKeeps(s2, id, N.Status, "blocked: no input channel", now);
    }
  }

  lemma {:induction false} WatchAllKeeps(s: Manager, ids: seq<TaskId>, now: int)
    requires Kept(s) && forall id :: id in ids ==> id in s.tasks
    ensures Kept(WatchAll(s, ids, now))
    decreases |ids|
  {
    if ids != [] {
      WatchOneKeeps(s, ids[0], now);
      assert forall id :: id in ids[1..] ==> id in ids;
      WatchAllKeeps(WatchOne(s, ids[0], now), ids[1..], now);
    }
  }

  lemma AcceptKeeps(s: Manager, id: TaskId, chunk: string, now: int)
    requires Kept(s) && id in s.tasks
    ensures Kept(Accept(s, id, chunk, now))
  {
    var t := Absorb(s.tasks[id], chunk);
    var warn := !t.outputWarned && t.outputBytes >= OUTPUT_WARN_BYTES;
    var s1 := Log(s.(tasks := s.tasks[id := t.(outputWarned := t.outputWarned || warn)]), OutputAccepted(id, chunk));
    LogKeeps(s, s1, OutputAccepted(id, chunk));
    NotifyKeeps(s1, id, N.Status, "output exceeded the warning size", now);
  }

  lemma OutputKeeps(s: Manager, id: TaskId, chunk: string, now: int)
    requires Kept(s) && id in s.tasks
    ensures Kept(Output(s, id, chunk, now))
  {
    if !s.tasks[id].status.Terminal() {
      var s1 := Accept(s, id, chunk, now);
      AcceptKeeps(s, id, chunk, now);
      T.OutputIs(s, id, chunk, now);
      if s1.tasks[id].outputBytes >= s.hardStop {
        CancelKeeps(s1, id);
        SettleKeeps(CancelControl(s1, id), id, Failed, HARD_STOPPED, now);
      }
    }
  }

  lemma OpKeepsLog(s: Manager, op: Op, now: int)
    requires Kept(s) && BackgroundTasks.Listed(s) && Enabled(s, op)
    ensures Kept(Apply(s, op, now))
  {
    match op
    case DoStart(input) => StartKeeps(s, input, now);
    case DoProvideInput(id, value) => if id in s.tasks { ProvideInputKeeps(s, id, value); }
    case DoStop(id) => if id in s.tasks { CancelKeeps(s, id); SettleKeeps(CancelControl(s, id), id, Cancelled, CANCELLED, now); }
    case DoAwait(id) => if id in s.tasks { AwaitKeeps(s, id); }
    case DoWatch => WatchAllKeeps(s, s.order, now);
    case OnOutput(id, chunk) => OutputKeeps(s, id, chunk, now);
    case OnInputRequest(id, request) => EnterAwaitingInputKeeps(s, id, request, now);
    case OnWaitDetected(id) => SilenceKeeps(s, WaitDetected(s, id, now));
    case OnExit(id, exit) => SettleKeeps(s, id, if exit.ok then Succeeded else Failed, exit, now);
  }

  lemma {:induction false} RunKeepsLog(s: Manager, run: seq<Event>)
    requires Inv(s) && Admissible(s, run) && Kept(s)
    ensures Kept(Exec(s, run))
    decreases |run|
  {
    if run != [] {
      ListedInv(s);
      OpKeeps(s, run[0].op, run[0].now);
      OpKeepsLog(s, run[0].op, run[0].now);
      RunKeepsLog(Apply(s, run[0].op, run[0].now), run[1..]);
    }
  }

  /**
   In every reachable state: tasks, notifications and waits have ids of their own, handed out in rising order; and
   the notification queue holds, level by level and in order, every notification ever sent.
   */
  lemma EveryIdIsNew(s: Manager)
    requires Reachable(s)
    ensures Ascending(Ids(s.effects)) && forall id :: id in Ids(s.effects) ==> id < s.ids
    ensures forall l: N.Level :: s.notes.byLevel[l] == N.AtLevel(Notes(s.effects), l)
  {
    var limit: nat, hardStop: int, run: seq<Event> :| ReachedBy(s, limit, hardStop, run);
    InitialInv(limit, hardStop);
    assert forall l: N.Level :: N.EMPTY.byLevel[l] == [];
    RunKeepsLog(Initial(limit, hardStop), run);
  }

  // ----- when a task is launched ------------------------------------------------------------------------------------------

  /** The task is launched now, or was or was not as before. */
  ghost predicate StartsNow(s: Manager, s': Manager, now: int, id: TaskId) {
    id in s.tasks && id in s'.tasks && (s'.tasks[id].startedAt == s.tasks[id].startedAt || s'.tasks[id].startedAt == Some(now))
  }

  lemma {:induction false} AdmitStartsNow(s: Manager, now: int, id: TaskId)
    requires id in s.tasks
    ensures StartsNow(s, Admit(s, now), now, id)
    decreases |s.queue|
  {
    if ForegroundRunning(s) < s.limit && s.queue != [] {
      var next, s1 := s.queue[0], s.(queue := s.queue[1..]);
      if next in s1.tasks && s1.tasks[next].status.Queued? {
        AdmitStartsNow(Launch(s1, next, now), now, id);
      } else {
        AdmitStartsNow(s1, now, id);
      }
    }
  }

  lemma SettleStartsNow(s: Manager, k: TaskId, status: Status, exit: Exit, now: int, id: TaskId)
    requires k in s.tasks && id in s.tasks
    ensures StartsNow(s, Settle(s, k, status, exit, now), now, id)
  {
    if !s.tasks[k].status.Terminal() {
      SettleTaskFrame(s, k, status, exit, now);
      AdmitStartsNow(SettleTask(s, k, status, exit, now), now, id);
    }
  }

  lemma OutputStartsNow(s: Manager, k: TaskId, chunk: string, now: int, id: TaskId)
    requires k in s.tasks && id in s.tasks
    ensures StartsNow(s, Output(s, k, chunk, now), now, id)
  {
    if !s.tasks[k].status.Terminal() {
      var s1 := Accept(s, k, chunk, now);
      AcceptIsQuiet(s, k, chunk, now);
      if s1.tasks[k].outputBytes >= s.hardStop {
        CancelIsQuiet(s1, k);
        SettleStartsNow(CancelControl(s1, k), k, Failed, HARD_STOPPED, now, id);
      }
    }
  }

  lemma StartStartsNow(s: Manager, input: StartInput, now: int, id: TaskId)
    requires s.ids !in s.tasks && id in s.tasks
    ensures StartsNow(s, Start(s, input, now), now, id)
  {
  }

  lemma QuietStartsNow(s: Manager, s': Manager, now: int, id: TaskId)
    requires Quiet(s, s') && id in s.tasks
    ensures StartsNow(s, s', now, id)
  {
  }

  lemma ClientStartsNow(s: Manager, e: Event, id: TaskId)
    requires Inv(s) && BackgroundTasks.Listed(s) && Enabled(s, e.op) && id in s.tasks && !FromRunner(e.op)
    ensures StartsNow(s, Apply(s, e.op, e.now), e.now, id)
  {
    match e.op
    case DoStart(input) =>
      assert s.ids !in s.tasks by { assert Placed(s, s.ids); }
      StartStartsNow(s, input, e.now, id);
    case DoProvideInput(k, value) =>
      if k in s.tasks { ProvideInputIsQuiet(s, k, value); QuietStartsNow(s, ProvideInput(s, k, value), e.now, id); }
    case DoStop(k) => if k in s.tasks { SettleStartsNow(CancelControl(s, k), k, Cancelled, CANCELLED, e.now, id); }
    case DoAwait(k) => if k in s.tasks { AwaitIsQuiet(s, k); QuietStartsNow(s, Await(s, k), e.now, id); }
    case DoWatch => WatchAllIsQuiet(s, s.order, e.now); QuietStartsNow(s, WatchAll(s, s.order, e.now), e.now, id);
  }

  lemma RunnerStartsNow(s: Manager, e: Event, id: TaskId)
    requires Inv(s) && BackgroundTasks.Listed(s) && Enabled(s, e.op) && id in s.tasks && FromRunner(e.op)
    ensures StartsNow(s, Apply(s, e.op, e.now), e.now, id)
  {
    match e.op
    case OnOutput(k, chunk) => OutputStartsNow(s, k, chunk, e.now, id);
    case OnInputRequest(k, request) =>
      assert s.tasks[k].status.Live() || s.tasks[k].status.Terminal() by { assert Placed(s, k); }
      EnterAwaitingInputIsQuiet(s, k, request, e.now);
      QuietStartsNow(s, EnterAwaitingInput(s, k, request, e.now), e.now, id);
    case OnWaitDetected(k) =>
    case OnExit(k, exit) => SettleStartsNow(s, k, if exit.ok then Succeeded else Failed, exit, e.now, id);
  }

  /** A task that one event finds unlaunched and leaves launched was launched at the time of that event. */
  lemma LaunchesNow(s: Manager, e: Event, id: TaskId)
    requires Inv(s) && BackgroundTasks.Listed(s) && Enabled(s, e.op) && id in s.tasks
    ensures StartsNow(s, Apply(s, e.op, e.now), e.now, id)
  {
    if FromRunner(e.op) { RunnerStartsNow(s, e, id); } else { ClientStartsNow(s, e, id); }
  }

  /** And so is one that is launched when it is started. */
  lemma NewTaskLaunchesNow(s: Manager, input: StartInput, now: int)
    ensures var t := Start(s, input, now).tasks; s.ids in t && (t[s.ids].startedAt == None || t[s.ids].startedAt == Some(now))
  {
  }

  /** A view shows everything of a task but the handle on its runner and who waits for it. */
  lemma ViewShowsTheRest(t: Task)
    ensures var v := View(t);
      && v.id == t.id && v.input == t.input && v.placement == t.placement && v.status == t.status && v.exit == t.exit
      && v.outputBytes == t.outputBytes && v.outputPreview == t.outputPreview
      && v.outputTruncated == t.outputTruncated && v.outputWarned == t.outputWarned
      && v.lastInputRequest == t.lastInputRequest && v.awaitingSince == t.awaitingSince && v.detectedWaitSince == t.detectedWaitSince
      && v.createdAt == t.createdAt && v.startedAt == t.startedAt && v.endedAt == t.endedAt
      && !v.controlled && v.waiters == []
  {
  }
}
