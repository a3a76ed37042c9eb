/**
 The background manager object. It updates its task map, queue and notifications in place; every public
 operation is the state-machine operation of the same name and keeps the invariants proved over it.
 */
module BackgroundManager {
  import opened Options
  import opened BackgroundTasks
  import S = BackgroundScheduling
  import N = Notifications

  datatype Refusal = UnknownTask | NotAwaitingInput

  class BackgroundManager {
    var tasks: map<TaskId, Task>
    var order: seq<TaskId>
    var queue: seq<TaskId>
    var ids: nat
    const notifications: N.NotificationQueue
    const limit: nat
    const hardStop: int
    ghost var effects: seq<Effect>

    ghost predicate Shape()
      reads this, notifications
    {
      && notifications.Valid()
      && (forall id :: id in order <==> id in tasks)
      && (forall i, j :: 0 <= i < j < |order| ==> order[i] != order[j])
    }

    ghost function State(): Manager
      requires Shape()
      reads this, notifications
    {
      Manager(tasks, order, queue, ids, notifications.State(), effects, limit, hardStop)
    }

    ghost predicate Valid()
      reads this, notifications
    {
      Shape() && S.Inv(State())
    }

    constructor (limit: Option<nat>, hardStop: Option<int>)
      ensures Valid() && fresh(notifications)
      ensures State() == Initial(if limit.Some? then limit.value else 4, if hardStop.Some? then hardStop.value else 5_368_709_120)
    {
      tasks, order, queue, ids, effects := map[], [], [], 0, [];
      this.limit := if limit.Some? then limit.value else FOREGROUND_CONCURRENCY;
      this.hardStop := if hardStop.Some? then hardStop.value else OUTPUT_HARD_STOP_BYTES;
      notifications := new N.NotificationQueue();
      new;
      S.InitialInv(this.limit, this.hardStop);
    }

    // ----- operations --------------------------------------------------------------------------------

    method StartTask(input: StartInput, now: int) returns (view: Task)
      requires Valid()
      modifies this, notifications
      ensures Valid() && State() == Start(old(State()), input, now)
      ensures old(ids) in tasks && view == View(tasks[old(ids)])
    {
      S.OpKeeps(State(), DoStart(input), now);
      assert S.Placed(State(), ids);
      var placement, id := Classify(input), ids;
      RegisterTask(input, now);
      Place(id, placement, now);
      view := View(tasks[id]);
    }

    /** Launch a registered task at once, or let it queue for a slot. */
    method Place(id: TaskId, placement: Placement, now: int)
      requires Shape() && id in tasks
      modifies this, notifications
      ensures Shape()
      ensures State() == var s := old(State());
        if placement.Background? || ForegroundRunning(s) < s.limit then Launch(s, id, now) else s.(queue := s.queue + [id])
    {
      var running := CountForeground();
      if placement == Background || running < limit {
        LaunchTask(id, now);
      } else {
        queue := queue + [id];
      }
    }

    /** The record of a new task, not yet launched or queued. */
    method RegisterTask(input: StartInput, now: int)
      requires Shape() && ids !in tasks
      modifies this
      ensures Shape() && State() == Register(old(State()), input, now)
    {
      var task := Task(ids, input, Classify(input), Queued, false, 0, "", false, false, None, None, None, now, None, None, None, []);
      tasks := tasks[ids := task];
      order := order + [ids];
      effects := effects + [StartRecorded(ids, View(task))];
      ids := ids + 1;
    }

    method GiveInput(id: TaskId, value: string) returns (refusal: Option<Refusal>)
      requires Valid()
      modifies this, notifications
      ensures Valid()
      ensures id !in old(tasks) ==> refusal == Some(UnknownTask) && State() == old(State())
      ensures id in old(tasks) ==>
        && State() == ProvideInput(old(State()), id, value)
        && (refusal == Some(NotAwaitingInput) <==> !old(tasks)[id].status.AwaitingInput? && !old(tasks)[id].status.Blocked?)
        && (refusal.Some? ==> refusal == Some(NotAwaitingInput))
    {
      if id !in tasks { return Some(UnknownTask); }
      S.OpKeeps(State(), DoProvideInput(id, value), 0);
      if tasks[id].status != AwaitingInput && tasks[id].status != Blocked { return Some(NotAwaitingInput); }
      ResumeWith(id, value);
      refusal := None;
    }

    method ResumeWith(id: TaskId, value: string)
      requires Shape() && id in tasks && (tasks[id].status.AwaitingInput? || tasks[id].status.Blocked?)
      modifies this
      ensures Shape() && State() == ProvideInput(old(State()), id, value)
    {
      var task := tasks[id];
      tasks := tasks[id := task.(status := Running, awaitingSince := None, detectedWaitSince := None, lastInputRequest := None)];
      if task.controlled { effects := effects + [InputGiven(id, value)]; }
    }

    method StopTask(id: TaskId, now: int) returns (refusal: Option<Refusal>)
      requires Valid()
      modifies this, notifications
      ensures Valid()
      ensures if id in old(tasks) then refusal == None && State() == Stop(old(State()), id, now)
              else refusal == Some(UnknownTask) && State() == old(State())
    {
      if id !in tasks { return Some(UnknownTask); }
      S.OpKeeps(State(), DoStop(id), now);
      refusal := None;
      if tasks[id].status.Terminal() { return; }
      Cancel(id);
      SettleAs(id, Cancelled, CANCELLED, now);
    }

    /** A fresh token stands for the promise handed back. */
    method AwaitTask(id: TaskId) returns (refusal: Option<Refusal>)
      requires Valid()
      modifies this, notifications
      ensures Valid()
      ensures if id in old(tasks) then refusal == None && State() == Await(old(State()), id)
              else refusal == Some(UnknownTask) && State() == old(State())
    {
      if id !in tasks { return Some(UnknownTask); }
      S.OpKeeps(State(), DoAwait(id), 0);
      BeginWait(id);
      refusal := None;
    }

    method CheckWatchdogs(now: int)
      requires Valid()
      modifies this, notifications
      ensures Valid() && State() == WatchAll(old(State()), old(order), now)
    {
      S.OpKeeps(State(), DoWatch, now);
      WatchEach(now);
    }

    // ----- what the runner reports ---------------------------------------------------------------------

    method OutputArrived(id: TaskId, chunk: string, now: int)
      requires Valid() && id in tasks && tasks[id].startedAt.Some?
      modifies this, notifications
      ensures Valid() && State() == Output(old(State()), id, chunk, now)
    {
      S.OpKeeps(State(), OnOutput(id, chunk), now);
      if tasks[id].status.Terminal() { return; }
      AcceptChunk(id, chunk, now);
      if tasks[id].outputBytes >= hardStop {
        Cancel(id);
        SettleAs(id, Failed, HARD_STOPPED, now);
      }
    }

    method InputRequested(id: TaskId, request: InputRequest, now: int)
      requires Valid() && id in tasks && tasks[id].startedAt.Some?
      modifies this, notifications
      ensures Valid() && State() == EnterAwaitingInput(old(State()), id, request, now)
    {
      S.OpKeeps(State(), OnInputRequest(id, request), now);
      RequestInput(id, request, now);
    }

    method InputWaitDetected(id: TaskId, now: int)
      requires Valid() && id in tasks && tasks[id].startedAt.Some?
      modifies this, notifications
      ensures Valid() && State() == WaitDetected(old(State()), id, now)
    {
      S.OpKeeps(State(), OnWaitDetected(id), now);
      if tasks[id].status != Running { return; }
      if tasks[id].detectedWaitSince.None? {
        tasks := tasks[id := tasks[id].(detectedWaitSince := Some(now))];
      }
    }

    method Exited(id: TaskId, exit: Exit, now: int)
      requires Valid() && id in tasks && tasks[id].startedAt.Some?
      modifies this, notifications
      ensures Valid() && State() == BackgroundTasks.Exited(old(State()), id, exit, now)
    {
      S.OpKeeps(State(), OnExit(id, exit), now);
      if tasks[id].status.Terminal() { return; }
      SettleAs(id, if exit.ok then Succeeded else Failed, exit, now);
    }

    // ----- internals -------------------------------------------------------------------------------------

    method BeginWait(id: TaskId)
      requires Shape() && id in tasks
      modifies this, notifications
      ensures Shape() && State() == Await(old(State()), id)
    {
      var task, waiter := tasks[id], ids;
      ids := ids + 1;
      effects := effects + [WaitBegun(id, waiter)];
      if task.status.Terminal() {
        effects := effects + [Resolved(id, waiter, View(task))];
      } else {
        tasks := tasks[id := task.(waiters := task.waiters + [waiter])];
      }
    }

    method WatchEach(now: int)
      requires Shape()
      modifies this, notifications
      ensures Shape() && State() == WatchAll(old(State()), old(order), now)
    {
      ghost var s0 := State();
      var ids, i := order, 0;
      assert ids[0..] == ids;
      while i < |ids|
        invariant 0 <= i <= |ids| && Shape() && order == ids
        invariant Members(ids[i..], State().tasks)
        invariant WatchAll(State(), ids[i..], now) == WatchAll(s0, ids, now)
      {
        WatchAllStep(State(), ids, i, now);
        WatchTask(ids[i], now);
        i := i + 1;
      }
    }

    /** The two checks of one turn of the watchdog loop. */
    method WatchTask(id: TaskId, now: int)
      requires Shape() && id in tasks
      modifies this, notifications
      ensures Shape() && State() == WatchOne(old(State()), id, now)
      ensures order == old(order) && tasks.Keys == old(tasks.Keys)
    {
      if tasks[id].status == Running && tasks[id].detectedWaitSince.Some?
         && now - tasks[id].detectedWaitSince.value >= INPUT_WATCHDOG_MS {
        RequestInput(id, WATCHDOG, now);
      }
      if tasks[id].status == AwaitingInput && !tasks[id].input.approvalChannel
         && tasks[id].awaitingSince.Some? && now - tasks[id].awaitingSince.value >= BLOCKED_AFTER_MS {
        tasks := tasks[id := tasks[id].(status := Blocked)];
        Notice(id, N.Status, "blocked: no input channel", now);
      }
    }

    method AcceptChunk(id: TaskId, chunk: string, now: int)
      requires Shape() && id in tasks
      modifies this, notifications
      ensures Shape() && State() == Accept(old(State()), id, chunk, now)
    {
      var task := Grow(tasks[id], chunk);
      effects := effects + [OutputAccepted(id, chunk)];
      if !task.outputWarned && task.outputBytes >= OUTPUT_WARN_BYTES {
        tasks := tasks[id := task.(outputWarned := true)];
        Notice(id, N.Status, "output exceeded the warning size", now);
      } else {
        tasks := tasks[id := task];
      }
    }

    method LaunchTask(id: TaskId, now: int)
      requires Shape() && id in tasks
      modifies this, notifications
      ensures Shape() && State() == Launch(old(State()), id, now)
    {
      tasks := tasks[id := tasks[id].(status := Running, startedAt := Some(now), controlled := true)];
      effects := effects + [Launched(id, tasks[id].placement)];
    }

    method Cancel(id: TaskId)
      requires Shape() && id in tasks
      modifies this, notifications
      ensures Shape() && State() == CancelControl(old(State()), id)
    {
      if tasks[id].controlled { effects := effects + [CancelCalled(id)]; }
    }

    method Notice(id: TaskId, kind: N.Kind, message: string, now: int)
      requires Shape()
      modifies this, notifications
      ensures Shape() && State() == Notify(old(State()), id, kind, message, now)
    {
      var note := N.Notification(ids, kind, N.LevelOf(kind), id, message, now);
      ids := ids + 1;
      notifications.Enqueue(note);
      effects := effects + [Notified(id, note)];
    }

    method RequestInput(id: TaskId, request: InputRequest, now: int)
      requires Shape() && id in tasks
      modifies this, notifications
      ensures Shape() && State() == EnterAwaitingInput(old(State()), id, request, now)
    {
      if tasks[id].status.Terminal() { return; }
      tasks := tasks[id := tasks[id].(status := AwaitingInput, awaitingSince := Some(now), detectedWaitSince := None,
                                      lastInputRequest := Some(request))];
      Notice(id, N.InputRequest, request.prompt, now);
    }

    method SettleAs(id: TaskId, status: Status, exit: Exit, now: int)
      requires Shape() && id in tasks
      modifies this, notifications
      ensures Shape() && State() == Settle(old(State()), id, status, exit, now)
    {
      if tasks[id].status.Terminal() { return; }
      SettleOne(id, status, exit, now);
      if tasks[id].placement == Foreground { AdmitNext(now); }
    }

    /** Everything settlement does to one task, before its slot is given away. */
    method SettleOne(id: TaskId, status: Status, exit: Exit, now: int)
      requires Shape() && id in tasks
      modifies this, notifications
      ensures Shape() && State() == SettleTask(old(State()), id, status, exit, now)
    {
      ghost var s := State();
      tasks := tasks[id := tasks[id].(status := status, exit := Some(exit), endedAt := Some(now), controlled := false)];
      ghost var s1 := s.(tasks := tasks);
      var view := View(tasks[id]);
      Notice(id, if status == Succeeded then N.BackgroundCompletion else N.TaskFailure, "settled", now);
      ghost var s2 := State();
      assert s2 == Notify(s1, id, if status == Succeeded then N.BackgroundCompletion else N.TaskFailure, "settled", now);
      Conclude(id, view, status == Succeeded);
    }

    /** The completion record, and every waiter resolved with it. */
    method Conclude(id: TaskId, view: Task, ok: bool)
      requires Shape() && id in tasks
      modifies this
      ensures Shape()
      ensures State() == var s := Log(old(State()), CompletionRecorded(id, view, ok));
        s.(tasks := s.tasks[id := s.tasks[id].(waiters := [])], effects := ResolveAll(s.effects, id, s.tasks[id].waiters, view))
    {
      effects := effects + [CompletionRecorded(id, view, ok)];
      var waiters := tasks[id].waiters;
      tasks := tasks[id := tasks[id].(waiters := [])];
      ResolveWaiters(id, waiters, view);
    }

    method ResolveWaiters(id: TaskId, waiters: seq<Waiter>, view: Task)
      requires Shape()
      modifies this`effects
      ensures Shape() && effects == ResolveAll(old(effects), id, waiters, view)
    {
      var i := 0;
      while i < |waiters|
        invariant 0 <= i <= |waiters| && Shape()
        invariant ResolveAll(effects, id, waiters[i..], view) == ResolveAll(old(effects), id, waiters, view)
      {
        assert waiters[i..][0] == waiters[i] && waiters[i..][1..] == waiters[i + 1..];
        effects := effects + [Resolved(id, waiters[i], view)];
        i := i + 1;
      }
    }

    method AdmitNext(now: int)
      requires Shape()
      modifies this, notifications
      ensures Shape() && State() == Admit(old(State()), now)
    {
      var running := CountForeground();
      while running < limit && queue != []
        invariant Shape() && running == ForegroundRunning(State())
        invariant Admit(State(), now) == Admit(old(State()), now)
        decreases |queue|
      {
        var next := queue[0];
        queue := queue[1..];
        if next in tasks && tasks[next].status == Queued { LaunchTask(next, now); }
        running := CountForeground();
      }
    }

    method CountForeground() returns (n: nat)
      requires Shape()
      ensures n == ForegroundRunning(State())
    {
      n := 0;
      for i := 0 to |order|
        invariant n == |ActiveAmong(order[..i], tasks)|
      {
        OneMoreActive(order, tasks, i);
        if tasks[order[i]].placement == Foreground && !tasks[order[i]].status.Terminal() && tasks[order[i]].status != Queued {
          n := n + 1;
        }
      }
      assert order[..|order|] == order;
      assert ActiveAmong(order, tasks) == ActiveIds(tasks);
    }
  }

  function ActiveAmong(ids: seq<TaskId>, tasks: map<TaskId, Task>): set<TaskId> {
    set id | id in ids && id in tasks && Active(tasks[id])
  }

  lemma OneMoreActive(order: seq<TaskId>, tasks: map<TaskId, Task>, i: nat)
    requires i < |order| && order[i] in tasks
    requires forall k, l :: 0 <= k < l < |order| ==> order[k] != order[l]
    ensures |ActiveAmong(order[..i + 1], tasks)| == |ActiveAmong(order[..i], tasks)| + if Active(tasks[order[i]]) then 1 else 0
  {
    assert order[..i + 1] == order[..i] + [order[i]];
    assert order[i] !in order[..i];
    var before := ActiveAmong(order[..i], tasks);
    assert ActiveAmong(order[..i + 1], tasks) == if Active(tasks[order[i]]) then before + {order[i]} else before;
  }

  lemma WatchAllStep(s: Manager, ids: seq<TaskId>, i: nat, now: int)
    requires i < |ids| && Members(ids[i..], s.tasks)
    ensures ids[i] in s.tasks
    ensures Members(ids[i + 1..], WatchOne(s, ids[i], now).tasks)
    ensures WatchAll(s, ids[i..], now) == WatchAll(WatchOne(s, ids[i], now), ids[i + 1..], now)
  {
    assert ids[i..][0] == ids[i] && ids[i..][1..] == ids[i + 1..];
    assert forall id :: id in ids[i + 1..] ==> id in ids[i..];
  }

  method Grow(task: Task, chunk: string) returns (t: Task)
    ensures t == Absorb(task, chunk)
  {
    t := task.(outputBytes := task.outputBytes + |chunk|);
    if |t.outputPreview| < OUTPUT_PREVIEW_BYTES {
      var room := OUTPUT_PREVIEW_BYTES - |t.outputPreview|;
      t := t.(outputPreview := t.outputPreview + (if |chunk| > room then chunk[..room] else chunk));
      if |chunk| > room { t := t.(outputTruncated := true); }
    } else {
      t := t.(outputTruncated := true);
    }
  }

  ghost predicate Members(ids: seq<TaskId>, tasks: map<TaskId, Task>) {
    forall id :: id in ids ==> id in tasks
  }
}
