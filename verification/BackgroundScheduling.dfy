/**
 The admission scheduler over whole runs: the concurrency limit, no idle slot while a task is queued, and
 launch in start order, although cancelled ids stay behind in the queue.
 */
module BackgroundScheduling {
  import opened Options
  import opened BackgroundTasks
  import H = BackgroundHistory
  import N = Notifications

  /** The foreground launches, in the order the runner was asked for them. */
  function Launched(effects: seq<Effect>): seq<TaskId> {
    if effects == [] then []
    else
      var n := |effects| - 1;
      Launched(effects[..n]) +
      (if effects[n].Launched? && effects[n].placement.Foreground? then [effects[n].id] else [])
  }

  ghost predicate Ascending(ids: seq<TaskId>) {
    forall i, j :: 0 <= i < j < |ids| ==> ids[i] < ids[j]
  }

  ghost predicate QueuedAt(s: Manager, id: TaskId) {
    id in s.tasks && s.tasks[id].status.Queued?
  }

  ghost predicate LaunchedAt(s: Manager, id: TaskId) {
    id in s.tasks && s.tasks[id].placement.Foreground? && s.tasks[id].startedAt.Some?
  }

  /** What holds of one id whatever the scheduler is in the middle of. */
  ghost predicate Placed(s: Manager, id: TaskId) {
    && (id in s.order <==> id in s.tasks)
    && (id in s.tasks ==> id < s.ids && H.LifecycleAgrees(s.tasks[id], H.AccountOf(s.effects, id)))
    && (id in s.queue ==> id in s.tasks && s.tasks[id].placement.Foreground? && s.tasks[id].startedAt.None?)
    && (QueuedAt(s, id) ==> id in s.queue && forall l: TaskId :: LaunchedAt(s, l) ==> l < id)
    && (id in Launched(s.effects) <==> LaunchedAt(s, id))
  }

  ghost predicate Orderly(s: Manager) {
    && (forall id :: Placed(s, id))
    && Ascending(s.order) && Ascending(s.queue) && Ascending(Launched(s.effects))
    && ForegroundRunning(s) <= s.limit
  }

  /** A foreground task is queued only while every slot is taken. */
  ghost predicate Full(s: Manager) {
    forall id :: QueuedAt(s, id) ==> ForegroundRunning(s) == s.limit
  }

  ghost predicate Inv(s: Manager) {
    H.Hist(s) && Orderly(s) && Full(s)
  }

  lemma LaunchedExtend(effects: seq<Effect>, e: Effect)
    ensures Launched(effects + [e]) ==
      Launched(effects) + (if e.Launched? && e.placement.Foreground? then [e.id] else [])
  {
    assert (effects + [e])[..|effects|] == effects;
  }

  lemma AscendingAppend(ids: seq<TaskId>, id: TaskId)
    requires Ascending(ids) && forall l :: l in ids ==> l < id
    ensures Ascending(ids + [id])
  {
    forall i | 0 <= i < |ids| ensures ids[i] < id { assert ids[i] in ids; }
  }

  lemma ActiveUpdate(tasks: map<TaskId, Task>, id: TaskId, t: Task)
    ensures ActiveIds(tasks[id := t]) == if Active(t) then ActiveIds(tasks) + {id} else ActiveIds(tasks) - {id}
  {
  }

  // ----- steps that leave placement, launches and liveness alone ------------------------------------

  predicate Alike(t: Task, t': Task) {
    && t'.placement == t.placement && t'.startedAt == t.startedAt
    && (t'.status.Live() <==> t.status.Live())
    && (t'.status.Queued? <==> t.status.Queued?)
  }

  ghost predicate Quiet(s: Manager, s': Manager) {
    && s'.tasks.Keys == s.tasks.Keys
    && (forall id :: id in s.tasks ==> Alike(s.tasks[id], s'.tasks[id]))
    && s'.order == s.order && s'.queue == s.queue && s'.limit == s.limit && s.ids <= s'.ids
    && Launched(s'.effects) == Launched(s.effects)
  }

  lemma QuietKeeps(s: Manager, s': Manager)
    requires Orderly(s) && Quiet(s, s') && H.Hist(s')
    ensures Orderly(s') && (Full(s) ==> Full(s'))
  {
    assert ActiveIds(s'.tasks) == ActiveIds(s.tasks);
    forall id ensures Placed(s', id) {
      assert Placed(s, id) && H.HistAt(s', id);
      if QueuedAt(s', id) {
        assert QueuedAt(s, id);
        forall l: TaskId | LaunchedAt(s', l) ensures l < id { assert LaunchedAt(s, l); }
      }
    }
    forall id | QueuedAt(s', id) && Full(s) ensures ForegroundRunning(s') == s'.limit { assert QueuedAt(s, id); }
  }

  lemma QuietTrans(s: Manager, s1: Manager, s2: Manager)
    requires Quiet(s, s1) && Quiet(s1, s2)
    ensures Quiet(s, s2)
  {
  }

  lemma NotifyIsQuiet(s: Manager, id: TaskId, kind: N.Kind, message: string, now: int)
    ensures Quiet(s, Notify(s, id, kind, message, now))
  {
    var note := N.Notification(s.ids, kind, N.LevelOf(kind), id, message, now);
    LaunchedExtend(s.effects, Notified(id, note));
  }

  lemma CancelIsQuiet(s: Manager, id: TaskId)
    requires id in s.tasks
    ensures Quiet(s, CancelControl(s, id))
  {
    LaunchedExtend(s.effects, CancelCalled(id));
  }

  lemma EnterAwaitingInputIsQuiet(s: Manager, id: TaskId, request: InputRequest, now: int)
    requires id in s.tasks && (s.tasks[id].status.Live() || s.tasks[id].status.Terminal())
    ensures Quiet(s, EnterAwaitingInput(s, id, request, now))
  {
    if !s.tasks[id].status.Terminal() {
      var t' := s.tasks[id].(status := AwaitingInput, awaitingSince := Some(now), detectedWaitSince := None,
                             lastInputRequest := Some(request));
      var s1 := s.(tasks := s.tasks[id := t']);
      NotifyIsQuiet(s1, id, N.InputRequest, request.prompt, now);
      QuietTrans(s, s1, EnterAwaitingInput(s, id, request, now));
    }
  }

  lemma WatchOneIsQuiet(s: Manager, id: TaskId, now: int)
    requires id in s.tasks
    ensures Quiet(s, WatchOne(s, id, now))
  {
    var s1 := if WatchdogTrips(s.tasks[id], now) then EnterAwaitingInput(s, id, WATCHDOG, now) else s;
    if WatchdogTrips(s.tasks[id], now) { EnterAwaitingInputIsQuiet(s, id, WATCHDOG, now); }
    if WaitsTooLong(s1.tasks[id], now) {
      var s2 := s1.(tasks := s1.tasks[id := s1.tasks[id].(status := Blocked)]);
      NotifyIsQuiet(s2, id, N.Status, "blocked: no input channel", now);
      QuietTrans(s1, s2, Block(s1, id, now));
      QuietTrans(s, s1, Block(s1, id, now));
    }
  }

  lemma {:induction false} WatchAllIsQuiet(s: Manager, ids: seq<TaskId>, now: int)
    requires forall id :: id in ids ==> id in s.tasks
    ensures Quiet(s, WatchAll(s, ids, now))
    decreases |ids|
  {
    if ids != [] {
      var s1 := WatchOne(s, ids[0], now);
      WatchOneIsQuiet(s, ids[0], now);
      assert forall id :: id in ids[1..] ==> id in ids;
      WatchAllIsQuiet(s1, ids[1..], now);
      QuietTrans(s, s1, WatchAll(s1, ids[1..], now));
    }
  }

  lemma AwaitLaunches(s: Manager, id: TaskId)
    requires id in s.tasks
    ensures Launched(Await(s, id).effects) == Launched(s.effects)
  {
    var begun := WaitBegun(id, s.ids);
    LaunchedExtend(s.effects, begun);
    LaunchedExtend(s.effects + [begun], Resolved(id, s.ids, View(s.tasks[id])));
  }

  /** Waiting changes nothing of any task but who waits for it. */
  lemma AwaitLeavesTasks(s: Manager, id: TaskId)
    requires id in s.tasks
    ensures var s' := Await(s, id);
      && s'.tasks.Keys == s.tasks.Keys && s'.order == s.order && s'.queue == s.queue && s'.limit == s.limit && s.ids <= s'.ids
      && forall k :: k in s.tasks ==> Alike(s.tasks[k], s'.tasks[k])
  {
    if !s.tasks[id].status.Terminal() { assert id in s.tasks.Keys; }
  }

  lemma AwaitIsQuiet(s: Manager, id: TaskId)
    requires id in s.tasks
    ensures Quiet(s, Await(s, id))
  {
    AwaitLaunches(s, id);
    AwaitLeavesTasks(s, id);
  }

  // ----- launching and admitting -------------------------------------------------------------------

  lemma LaunchKeepsPlace(s: Manager, id: TaskId, now: int, k: TaskId)
    requires QueuedAt(s, id) && s.tasks[id].placement.Foreground? && H.Hist(Launch(s, id, now))
    requires k != id ==> Placed(s, k)
    requires id < s.ids && id in s.order && id !in s.queue
    requires forall j :: QueuedAt(s, j) && j != id ==> id < j
    ensures Placed(Launch(s, id, now), k)
  {
    var s' := Launch(s, id, now);
    LaunchedExtend(s.effects, Effect.Launched(id, Foreground));
    assert H.HistAt(s', k);
    if QueuedAt(s', k) {
      assert QueuedAt(s, k);
      forall l: TaskId | LaunchedAt(s', l) ensures l < k { if l != id { assert LaunchedAt(s, l); } }
    }
  }

  /** The launch of a queued foreground task that is older than every other queued one. */
  lemma LaunchKeeps(s: Manager, id: TaskId, now: int)
    requires H.Hist(s) && QueuedAt(s, id) && s.tasks[id].placement.Foreground?
    requires forall k :: k != id ==> Placed(s, k)
    requires id < s.ids && id in s.order && id !in s.queue && id !in Launched(s.effects)
    requires forall l: TaskId :: LaunchedAt(s, l) ==> l < id
    requires forall k :: QueuedAt(s, k) && k != id ==> id < k
    requires Ascending(s.order) && Ascending(s.queue) && Ascending(Launched(s.effects))
    requires ForegroundRunning(s) < s.limit
    ensures H.Hist(Launch(s, id, now)) && Orderly(Launch(s, id, now))
  {
    var s' := Launch(s, id, now);
    H.LaunchKeeps(s, id, now);
    LaunchedExtend(s.effects, Effect.Launched(id, Foreground));
    ActiveUpdate(s.tasks, id, s'.tasks[id]);
    forall l: TaskId | l in Launched(s.effects) ensures l < id { assert Placed(s, l); }
    AscendingAppend(Launched(s.effects), id);
    forall k ensures Placed(s', k) { LaunchKeepsPlace(s, id, now, k); }
  }

  lemma {:induction false} AdmitFills(s: Manager, now: int)
    requires H.Hist(s) && Orderly(s)
    ensures Inv(Admit(s, now))
    decreases |s.queue|
  {
    H.AdmitKeeps(s, now);
    if ForegroundRunning(s) < s.limit && s.queue != [] {
      var next, s1 := s.queue[0], s.(queue := s.queue[1..]);
      assert Placed(s, next);
      forall k ensures H.HistAt(s1, k) { assert H.HistAt(s, k); }
      forall k | k != next ensures Placed(s1, k) {
        assert Placed(s, k);
        assert k in s.queue ==> k in s.queue[1..];
        if QueuedAt(s1, k) {
          assert QueuedAt(s, k);
          forall l: TaskId | LaunchedAt(s1, l) ensures l < k { assert LaunchedAt(s, l); }
        }
      }
      if QueuedAt(s1, next) {
        assert QueuedAt(s, next);
        forall l: TaskId | LaunchedAt(s1, l) ensures l < next { assert LaunchedAt(s, l); }
        forall k | QueuedAt(s1, k) && k != next ensures next < k { assert QueuedAt(s, k) && Placed(s, k); }
        LaunchKeeps(s1, next, now);
        AdmitFills(Launch(s1, next, now), now);
      } else {
        assert Placed(s1, next);
        AdmitFills(s1, now);
      }
    } else {
      forall id | QueuedAt(s, id) ensures ForegroundRunning(s) == s.limit { assert Placed(s, id); }
    }
  }

  lemma ResolveAllLaunches(effects: seq<Effect>, id: TaskId, waiters: seq<Waiter>, view: Task)
    ensures Launched(ResolveAll(effects, id, waiters, view)) == Launched(effects)
    decreases |waiters|
  {
    if waiters != [] {
      LaunchedExtend(effects, Resolved(id, waiters[0], view));
      ResolveAllLaunches(effects + [Resolved(id, waiters[0], view)], id, waiters[1..], view);
    }
  }

  /** What settlement of one task leaves alone. */
  lemma SettleTaskFrame(s: Manager, id: TaskId, status: Status, exit: Exit, now: int)
    requires id in s.tasks
    ensures var s' := SettleTask(s, id, status, exit, now);
      && s'.order == s.order && s'.queue == s.queue && s'.limit == s.limit && s.ids <= s'.ids
      && Launched(s'.effects) == Launched(s.effects)
      && s'.tasks == s.tasks[id := s'.tasks[id]]
      && s'.tasks[id].status == status
      && s'.tasks[id].placement == s.tasks[id].placement && s'.tasks[id].startedAt == s.tasks[id].startedAt
  {
    var t' := s.tasks[id].(status := status, exit := Some(exit), endedAt := Some(now), controlled := false);
    var kind := if status.Succeeded? then N.BackgroundCompletion else N.TaskFailure;
    var notice := Notified(id, N.Notification(s.ids, kind, N.LevelOf(kind), id, "settled", now));
    var record := CompletionRecorded(id, View(t'), status.Succeeded?);
    LaunchedExtend(s.effects, notice);
    LaunchedExtend(s.effects + [notice], record);
    ResolveAllLaunches(s.effects + [notice] + [record], id, s.tasks[id].waiters, View(t'));
  }

  lemma SettleTaskIsOrderly(s: Manager, id: TaskId, status: Status, exit: Exit, now: int)
    requires H.Hist(s) && Orderly(s) && id in s.tasks && !s.tasks[id].status.Terminal() && status.Terminal()
    requires s.tasks[id].status.Queued? ==> status.Cancelled?
    ensures var s' := SettleTask(s, id, status, exit, now);
      && H.Hist(s') && Orderly(s')
      && (Full(s) && s.tasks[id].placement.Background? ==> Full(s'))
  {
    var s' := SettleTask(s, id, status, exit, now);
    H.SettleTaskKeeps(s, id, status, exit, now);
    SettleTaskFrame(s, id, status, exit, now);
    RemovalIsOrderly(s, s', id);
  }

  /** One task leaves the live ones and nothing else moves. */
  lemma RemovalKeepsPlace(s: Manager, s': Manager, id: TaskId, k: TaskId)
    requires Placed(s, k) && H.Hist(s') && id in s.tasks && id in s'.tasks
    requires s'.order == s.order && s'.queue == s.queue && s.ids <= s'.ids
    requires Launched(s'.effects) == Launched(s.effects) && s'.tasks == s.tasks[id := s'.tasks[id]]
    requires s'.tasks[id].status.Terminal()
    requires s'.tasks[id].placement == s.tasks[id].placement && s'.tasks[id].startedAt == s.tasks[id].startedAt
    ensures Placed(s', k)
  {
    assert H.HistAt(s', k);
    if QueuedAt(s', k) {
      assert QueuedAt(s, k);
      forall l: TaskId | LaunchedAt(s', l) ensures l < k { assert LaunchedAt(s, l); }
    }
  }

  lemma RemovalIsOrderly(s: Manager, s': Manager, id: TaskId)
    requires Orderly(s) && H.Hist(s') && id in s.tasks && id in s'.tasks
    requires s'.order == s.order && s'.queue == s.queue && s'.limit == s.limit && s.ids <= s'.ids
    requires Launched(s'.effects) == Launched(s.effects) && s'.tasks == s.tasks[id := s'.tasks[id]]
    requires s'.tasks[id].status.Terminal()
    requires s'.tasks[id].placement == s.tasks[id].placement && s'.tasks[id].startedAt == s.tasks[id].startedAt
    ensures Orderly(s')
    ensures Full(s) && s.tasks[id].placement.Background? ==> Full(s')
  {
    ActiveUpdate(s.tasks, id, s'.tasks[id]);
    forall k ensures Placed(s', k) { RemovalKeepsPlace(s, s', id, k); }
    forall k | QueuedAt(s', k) && Full(s) && s.tasks[id].placement.Background?
      ensures ForegroundRunning(s') == s'.limit
    {
      assert QueuedAt(s, k);
      assert ActiveIds(s'.tasks) == ActiveIds(s.tasks);
    }
  }

  lemma SettleKeeps(s: Manager, id: TaskId, status: Status, exit: Exit, now: int)
    requires Inv(s) && id in s.tasks && status.Terminal()
    requires s.tasks[id].status.Queued? ==> status.Cancelled?
    ensures Inv(Settle(s, id, status, exit, now))
  {
    if !s.tasks[id].status.Terminal() {
      SettleTaskIsOrderly(s, id, status, exit, now);
      if s.tasks[id].placement.Foreground? { AdmitFills(SettleTask(s, id, status, exit, now), now); }
    }
  }

  lemma CancelAndSettleKeeps(s: Manager, id: TaskId, status: Status, exit: Exit, now: int)
    requires Inv(s) && id in s.tasks && status.Terminal()
    requires s.tasks[id].status.Queued? ==> status.Cancelled?
    ensures Inv(Settle(CancelControl(s, id), id, status, exit, now))
  {
    H.CancelKeeps(s, id);
    CancelIsQuiet(s, id);
    QuietKeeps(s, CancelControl(s, id));
    SettleKeeps(CancelControl(s, id), id, status, exit, now);
  }

  /** After registration only the new task is out of place: it is queued, and not yet in the queue. */
  ghost predicate Registered(s: Manager, s1: Manager, id: TaskId) {
    && H.Hist(s1) && QueuedAt(s1, id) && id !in s.tasks && s1.tasks == s.tasks[id := s1.tasks[id]]
    && (forall k :: k != id ==> Placed(s1, k))
    && id < s1.ids && id in s1.order && id !in s1.queue && id !in Launched(s1.effects)
    && (forall l: TaskId :: LaunchedAt(s1, l) ==> l < id)
    && (forall k :: k in s1.queue ==> k < id)
    && Ascending(s1.order) && Ascending(s1.queue) && Ascending(Launched(s1.effects))
    && ActiveIds(s1.tasks) == ActiveIds(s.tasks)
    && s1.limit == s.limit
  }

  lemma RegisterPlaces(s: Manager, input: StartInput, now: int)
    requires Inv(s)
    ensures Registered(s, Register(s, input, now), s.ids)
  {
    assert Placed(s, s.ids);
    H.RegisterKeeps(s, input, now);
    NewestId(s);
    RegisterKeepsOrder(s, input, now);
    RegisterKeepsActive(s, input, now);
    RegisterKeepsPlaces(s, input, now);
    RegisterIsYoungest(s, input, now);
  }

  lemma RegisterKeepsActive(s: Manager, input: StartInput, now: int)
    requires s.ids !in s.tasks
    ensures ActiveIds(Register(s, input, now).tasks) == ActiveIds(s.tasks)
  {
    ActiveUpdate(s.tasks, s.ids, NewTask(s.ids, input, now));
  }

  lemma RegisterKeepsPlaces(s: Manager, input: StartInput, now: int)
    requires Inv(s) && H.Hist(Register(s, input, now)) && s.ids !in s.tasks
    ensures forall k :: k != s.ids ==> Placed(Register(s, input, now), k)
  {
    forall k | k != s.ids ensures Placed(Register(s, input, now), k) { RegisterKeepsPlace(s, input, now, k); }
  }

  lemma RegisterIsYoungest(s: Manager, input: StartInput, now: int)
    requires Orderly(s)
    ensures forall l: TaskId :: LaunchedAt(Register(s, input, now), l) ==> l < s.ids
  {
    var s1 := Register(s, input, now);
    forall l: TaskId | LaunchedAt(s1, l) ensures l < s.ids { assert LaunchedAt(s, l) && Placed(s, l); }
  }

  /** Every id in use is smaller than the next one. */
  lemma NewestId(s: Manager)
    requires Orderly(s)
    ensures forall k :: k in s.order || k in s.queue || k in Launched(s.effects) ==> k < s.ids
  {
    forall k | k in s.order || k in s.queue || k in Launched(s.effects) ensures k < s.ids { assert Placed(s, k); }
  }

  lemma RegisterKeepsOrder(s: Manager, input: StartInput, now: int)
    requires Orderly(s)
    ensures var s1 := Register(s, input, now);
      Ascending(s1.order) && Ascending(s1.queue) && Ascending(Launched(s1.effects)) && Launched(s1.effects) == Launched(s.effects)
  {
    NewestId(s);
    AscendingAppend(s.order, s.ids);
    LaunchedExtend(s.effects, StartRecorded(s.ids, View(NewTask(s.ids, input, now))));
  }

  lemma RegisterKeepsPlace(s: Manager, input: StartInput, now: int, k: TaskId)
    requires Inv(s) && H.Hist(Register(s, input, now)) && k != s.ids && s.ids !in s.tasks
    ensures Placed(Register(s, input, now), k)
  {
    var s1, t := Register(s, input, now), NewTask(s.ids, input, now);
    LaunchedExtend(s.effects, StartRecorded(s.ids, View(t)));
    assert Placed(s, k) && H.HistAt(s1, k) && Placed(s, s.ids);
    if QueuedAt(s1, k) {
      assert QueuedAt(s, k);
      forall l: TaskId | LaunchedAt(s1, l) ensures l < k { assert l != s.ids && LaunchedAt(s, l); }
    }
  }

  lemma ForegroundLaunchKeeps(s: Manager, s1: Manager, id: TaskId, now: int)
    requires Inv(s) && Registered(s, s1, id) && s1.tasks[id].placement.Foreground?
    requires ForegroundRunning(s1) < s1.limit
    ensures Inv(Launch(s1, id, now))
  {
    var s' := Launch(s1, id, now);
    forall k: TaskId | QueuedAt(s1, k) && k != id ensures false { assert QueuedAt(s, k); }
    LaunchKeeps(s1, id, now);
    forall k | QueuedAt(s', k) ensures false { assert QueuedAt(s, k); }
  }

  lemma EnqueueKeeps(s: Manager, s1: Manager, id: TaskId)
    requires Inv(s) && Registered(s, s1, id) && s1.tasks[id].placement.Foreground?
    requires ForegroundRunning(s1) >= s1.limit
    ensures Inv(s1.(queue := s1.queue + [id]))
  {
    var s' := s1.(queue := s1.queue + [id]);
    AscendingAppend(s1.queue, id);
    forall k ensures H.HistAt(s', k) { assert H.HistAt(s1, k); }
    forall k ensures Placed(s', k) {
      assert H.HistAt(s', k);
      if k != id { assert Placed(s1, k); }
      if QueuedAt(s', k) {
        assert QueuedAt(s1, k);
        forall l: TaskId | LaunchedAt(s', l) ensures l < k { assert LaunchedAt(s1, l); }
      }
    }
  }

  lemma BackgroundLaunchKeeps(s: Manager, s1: Manager, id: TaskId, now: int)
    requires Inv(s) && Registered(s, s1, id) && s1.tasks[id].placement.Background?
    ensures Inv(Launch(s1, id, now))
  {
    var s' := Launch(s1, id, now);
    H.LaunchKeeps(s1, id, now);
    LaunchedExtend(s1.effects, Effect.Launched(id, Background));
    assert ActiveIds(s'.tasks) == ActiveIds(s.tasks);
    forall k ensures Placed(s', k) {
      assert H.HistAt(s', k);
      if k != id { assert Placed(s1, k); }
      if QueuedAt(s', k) {
        assert QueuedAt(s1, k);
        forall l: TaskId | LaunchedAt(s', l) ensures l < k { assert LaunchedAt(s1, l); }
      }
    }
    forall k | QueuedAt(s', k) ensures ForegroundRunning(s') == s'.limit { assert QueuedAt(s, k); }
  }

  lemma StartKeeps(s: Manager, input: StartInput, now: int)
    requires Inv(s)
    ensures Inv(Start(s, input, now))
  {
    var id, s1 := s.ids, Register(s, input, now);
    RegisterPlaces(s, input, now);
    if Classify(input).Background? {
      BackgroundLaunchKeeps(s, s1, id, now);
    } else if ForegroundRunning(s1) < s.limit {
      ForegroundLaunchKeeps(s, s1, id, now);
    } else {
      EnqueueKeeps(s, s1, id);
    }
  }

  lemma AcceptIsQuiet(s: Manager, id: TaskId, chunk: string, now: int)
    requires id in s.tasks
    ensures Quiet(s, Accept(s, id, chunk, now))
  {
    var t := Absorb(s.tasks[id], chunk);
    var warn := !t.outputWarned && t.outputBytes >= OUTPUT_WARN_BYTES;
    var s1 := Log(s.(tasks := s.tasks[id := t.(outputWarned := t.outputWarned || warn)]), OutputAccepted(id, chunk));
    LaunchedExtend(s.effects, OutputAccepted(id, chunk));
    assert Quiet(s, s1);
    NotifyIsQuiet(s1, id, N.Status, "output exceeded the warning size", now);
    QuietTrans(s, s1, Accept(s, id, chunk, now));
  }

  lemma OutputKeeps(s: Manager, id: TaskId, chunk: string, now: int)
    requires Inv(s) && id in s.tasks && s.tasks[id].startedAt.Some?
    ensures Inv(Output(s, id, chunk, now))
  {
    assert Placed(s, id);
    if !s.tasks[id].status.Terminal() {
      var s1 := Accept(s, id, chunk, now);
      H.AcceptKeeps(s, id, chunk, now);
      AcceptIsQuiet(s, id, chunk, now);
      QuietKeeps(s, s1);
      if s1.tasks[id].outputBytes >= s.hardStop { CancelAndSettleKeeps(s1, id, Failed, HARD_STOPPED, now); }
    }
  }

  lemma ProvideInputIsQuiet(s: Manager, id: TaskId, value: string)
    requires id in s.tasks
    ensures Quiet(s, ProvideInput(s, id, value))
  {
    LaunchedExtend(s.effects, InputGiven(id, value));
  }

  lemma ProvideInputKeeps(s: Manager, id: TaskId, value: string)
    requires Inv(s) && id in s.tasks
    ensures Inv(ProvideInput(s, id, value))
  {
    H.ProvideInputKeeps(s, id, value);
    ProvideInputIsQuiet(s, id, value);
    QuietKeeps(s, ProvideInput(s, id, value));
  }

  predicate FromRunner(op: Op) { op.OnOutput? || op.OnInputRequest? || op.OnWaitDetected? || op.OnExit? }

  lemma RunnerOpKeeps(s: Manager, op: Op, now: int)
    requires Inv(s) && BackgroundTasks.Listed(s) && Enabled(s, op) && FromRunner(op) && H.Hist(Apply(s, op, now))
    ensures Inv(Apply(s, op, now))
  {
    match op
    case OnOutput(id, chunk) => OutputKeeps(s, id, chunk, now);
    case OnInputRequest(id, request) =>
      assert Placed(s, id);
      EnterAwaitingInputIsQuiet(s, id, request, now);
      QuietKeeps(s, EnterAwaitingInput(s, id, request, now));
    case OnWaitDetected(id) => QuietKeeps(s, WaitDetected(s, id, now));
    case OnExit(id, exit) => assert Placed(s, id); SettleKeeps(s, id, if exit.ok then Succeeded else Failed, exit, now);
  }

  lemma ClientOpKeeps(s: Manager, op: Op, now: int)
    requires Inv(s) && BackgroundTasks.Listed(s) && Enabled(s, op) && !FromRunner(op) && H.Hist(Apply(s, op, now))
    ensures Inv(Apply(s, op, now))
  {
    match op
    case DoStart(input) => StartKeeps(s, input, now);
    case DoProvideInput(id, value) => if id in s.tasks { ProvideInputKeeps(s, id, value); }
    case DoStop(id) => if id in s.tasks && !s.tasks[id].status.Terminal() { CancelAndSettleKeeps(s, id, Cancelled, CANCELLED, now); }
    case DoAwait(id) => if id in s.tasks { AwaitIsQuiet(s, id); QuietKeeps(s, Await(s, id)); }
    case DoWatch => WatchAllIsQuiet(s, s.order, now); QuietKeeps(s, WatchAll(s, s.order, now));
  }

  /** Every operation keeps the scheduler invariant and the history invariant. */
  lemma OpKeeps(s: Manager, op: Op, now: int)
    requires Inv(s) && BackgroundTasks.Listed(s) && Enabled(s, op)
    ensures Inv(Apply(s, op, now)) && H.Evolves(s, Apply(s, op, now))
  {
    H.OpKeepsHistory(s, op, now);
    if FromRunner(op) { RunnerOpKeeps(s, op, now); } else { ClientOpKeeps(s, op, now); }
  }

  // ----- whole runs ----------------------------------------------------------------------------------

  /** An operation and the time the clock shows during it. */
  datatype Event = Event(op: Op, now: int)

  ghost predicate Admissible(s: Manager, run: seq<Event>)
    requires Inv(s)
    decreases |run|
  {
    run == [] ||
    (ListedInv(s);
     Enabled(s, run[0].op) && (OpKeeps(s, run[0].op, run[0].now); Admissible(Apply(s, run[0].op, run[0].now), run[1..])))
  }

  ghost function Exec(s: Manager, run: seq<Event>): (s': Manager)
    requires Inv(s) && Admissible(s, run)
    ensures Inv(s')
    decreases |run|
  {
    if run == [] then s
    else
      ListedInv(s);
      OpKeeps(s, run[0].op, run[0].now);
      Exec(Apply(s, run[0].op, run[0].now), run[1..])
  }

  lemma ListedInv(s: Manager)
    requires Orderly(s)
    ensures BackgroundTasks.Listed(s)
  {
    forall id ensures id in s.order <==> id in s.tasks { assert Placed(s, id); }
  }

  lemma InitialInv(limit: nat, hardStop: int)
    ensures Inv(Initial(limit, hardStop))
  {
    var s := Initial(limit, hardStop);
    forall id ensures H.HistAt(s, id) { }
    forall id ensures Placed(s, id) { }
    assert ActiveIds(s.tasks) == {};
  }

  ghost predicate Reachable(s: Manager) {
    exists limit: nat, hardStop: int, run: seq<Event> :: ReachedBy(s, limit, hardStop, run)
  }

  ghost predicate ReachedBy(s: Manager, limit: nat, hardStop: int, run: seq<Event>) {
    InitialInv(limit, hardStop);
    Admissible(Initial(limit, hardStop), run) && Exec(Initial(limit, hardStop), run) == s
  }

  /**
   In every reachable state at most `limit` foreground tasks run, and one is queued only while all
   slots are taken.
   */
  lemma ConcurrencyIsBounded(s: Manager)
    requires Reachable(s)
    ensures ForegroundRunning(s) <= s.limit
    ensures forall id :: QueuedAt(s, id) ==> s.tasks[id].placement.Foreground? && ForegroundRunning(s) == s.limit
  {
    ReachableInv(s);
    forall id | QueuedAt(s, id) ensures s.tasks[id].placement.Foreground? { assert Placed(s, id); }
  }

  /**
   Foreground tasks launch in start order: in every reachable state the launches ascend, and an older
   foreground task that has not launched before a launched one was cancelled and never will launch.
   */
  lemma LaunchIsFifo(s: Manager)
    requires Reachable(s)
    ensures Ascending(s.order) && Ascending(Launched(s.effects))
    ensures forall id :: id in Launched(s.effects) <==> LaunchedAt(s, id)
    ensures forall older: TaskId, id: TaskId :: (
      LaunchedAt(s, id) && older < id && older in s.tasks && s.tasks[older].placement.Foreground?
      ==> older in Launched(s.effects) || s.tasks[older].status.Cancelled?)
  {
    ReachableInv(s);
    forall id ensures id in Launched(s.effects) <==> LaunchedAt(s, id) { assert Placed(s, id); }
    forall older: TaskId, id: TaskId | LaunchedAt(s, id) && older < id && older in s.tasks && s.tasks[older].placement.Foreground?
      ensures older in Launched(s.effects) || s.tasks[older].status.Cancelled?
    {
      assert Placed(s, older);
      assert !QueuedAt(s, older);
    }
  }

  lemma ReachableInv(s: Manager)
    requires Reachable(s)
    ensures Inv(s)
  {
    var limit: nat, hardStop: int, run: seq<Event> :| ReachedBy(s, limit, hardStop, run);
    InitialInv(limit, hardStop);
  }

  lemma ReachableHistory(s: Manager, id: TaskId)
    requires Reachable(s) && id in s.tasks
    ensures H.TaskHist(s.tasks[id], H.AccountOf(s.effects, id), id, s.ids)
  {
    ReachableInv(s);
    assert H.HistAt(s, id);
  }

  /** What the log says about one task's settlement. */
  ghost predicate SettledAsLogged(t: Task, a: H.Account, ids: nat) {
    && a.launches <= 1
    && (t.status.Terminal() ==>
          && a.completions == [(View(t), t.status.Succeeded?)]
          && a.notices == (if t.status.Succeeded? then [N.BackgroundCompletion] else [N.TaskFailure])
          && a.resolved == a.begun && a.views <= {View(t)})
    && (!t.status.Terminal() ==> a.completions == [] && a.notices == [] && a.resolved == [] && t.waiters == a.begun)
    && H.Increasing(a.begun, ids)
  }

  lemma HistorySettles(t: Task, a: H.Account, id: TaskId, ids: nat)
    requires H.TaskHist(t, a, id, ids)
    ensures SettledAsLogged(t, a, ids)
  {
    assert [] + t.waiters == t.waiters && a.resolved + [] == a.resolved;
  }

  /**
   Settlement happens exactly once: in every reachable state each terminal task has one completion
   record, carrying its final view, and one completion notification of the right kind; every wait ever
   begun on it was resolved once, in order, with that view; and a task that is not terminal has none.
   */
  lemma SettledExactlyOnce(s: Manager, id: TaskId)
    requires Reachable(s) && id in s.tasks
    ensures SettledAsLogged(s.tasks[id], H.AccountOf(s.effects, id), s.ids)
  {
    ReachableHistory(s, id);
    HistorySettles(s.tasks[id], H.AccountOf(s.effects, id), id, s.ids);
  }

  /**
   The preview is exactly the first 64 Ki characters of all accepted output and the byte count is its
   length. Truncation is reported for more than that, and also when an empty chunk follows a full preview.
   */
  lemma PreviewIsPrefix(s: Manager, id: TaskId)
    requires Reachable(s) && id in s.tasks
    ensures var t, a := s.tasks[id], H.AccountOf(s.effects, id);
      && t.outputBytes == |a.output|
      && t.outputPreview == a.output[..Min(|a.output|, 65_536)]
      && (t.outputTruncated <==> |a.output| > 65_536 || a.lastChunkAt == 65_536)
      && (t.outputWarned <==> |a.output| >= 10_485_760)
  {
    ReachableHistory(s, id);
    HistoryKeepsOutput(s.tasks[id], H.AccountOf(s.effects, id));
  }

  lemma HistoryKeepsOutput(t: Task, a: H.Account)
    requires H.OutputAgrees(t, a)
    ensures t.outputBytes == |a.output| && t.outputPreview == a.output[..Min(|a.output|, OUTPUT_PREVIEW_BYTES)]
    ensures t.outputTruncated <==> |a.output| > OUTPUT_PREVIEW_BYTES || a.lastChunkAt == OUTPUT_PREVIEW_BYTES
    ensures t.outputWarned <==> |a.output| >= OUTPUT_WARN_BYTES
  {
  }

  /** Remark: the output of a task is reported as truncated without losing a character when an empty chunk follows a full preview. */
  lemma EmptyChunkReportsTruncation(t: Task)
    requires |t.outputPreview| == OUTPUT_PREVIEW_BYTES == t.outputBytes && !t.outputTruncated
    ensures Absorb(t, "").outputTruncated && Absorb(t, "").outputPreview == t.outputPreview
    ensures Absorb(t, "").outputBytes == OUTPUT_PREVIEW_BYTES
  {
  }

  /** Whatever a run does after a task is terminal, its record stays as it is. */
  lemma {:induction false} TerminalForever(s: Manager, run: seq<Event>, id: TaskId)
    requires Inv(s) && Admissible(s, run)
    requires id in s.tasks && s.tasks[id].status.Terminal()
    ensures id in Exec(s, run).tasks && Exec(s, run).tasks[id] == s.tasks[id]
    decreases |run|
  {
    if run != [] {
      ListedInv(s);
      OpKeeps(s, run[0].op, run[0].now);
      var s1 := Apply(s, run[0].op, run[0].now);
      assert H.TaskEvolves(s.tasks[id], s1.tasks[id]);
      TerminalForever(s1, run[1..], id);
    }
  }

  /** The watchdog never answers for the user: it launches, resumes and settles nothing. */
  lemma WatchdogOnlySuspends(s: Manager, id: TaskId, now: int)
    requires Reachable(s) && id in s.tasks
    ensures BackgroundTasks.Listed(s)
    ensures Quiet(s, WatchAll(s, s.order, now))
    ensures s.tasks[id].status.Running? || WatchAll(s, s.order, now).tasks[id].status != Running
  {
    ReachableInv(s);
    ListedInv(s);
    WatchAllIsQuiet(s, s.order, now);
    NeverResumes(s, s.order, id, now);
  }

  lemma {:induction false} NeverResumes(s: Manager, ids: seq<TaskId>, id: TaskId, now: int)
    requires id in s.tasks && forall k :: k in ids ==> k in s.tasks
    ensures s.tasks[id].status.Running? || WatchAll(s, ids, now).tasks[id].status != Running
    decreases |ids|
  {
    if ids != [] {
      assert forall k :: k in ids[1..] ==> k in ids;
      NeverResumes(WatchOne(s, ids[0], now), ids[1..], id, now);
    }
  }
}
