/**
 The background lifecycle as a state machine: one record per task, a first-in first-out queue of
 foreground tasks waiting for a slot, and a log of everything the manager made happen outside itself.
 */
module BackgroundTasks {
  import opened Options
  import N = Notifications

  const FOREGROUND_CONCURRENCY: nat := 4
  const OUTPUT_WARN_BYTES := 10 * 1024 * 1024
  const OUTPUT_HARD_STOP_BYTES := 5 * 1024 * 1024 * 1024
  const OUTPUT_PREVIEW_BYTES: nat := 64 * 1024
  const INPUT_WATCHDOG_MS := 30_000
  const BLOCKED_AFTER_MS := 5 * 60_000

  type TaskId = nat
  type Waiter = nat

  datatype Status = Queued | Running | AwaitingInput | Blocked | Succeeded | Failed | Cancelled {
    predicate Terminal() { Succeeded? || Failed? || Cancelled? }
    predicate Live() { Running? || AwaitingInput? || Blocked? }
  }

  datatype Placement = Foreground | Background

  datatype InputRequest = InputRequest(prompt: string, secret: bool)

  datatype Exit = Exit(ok: bool, code: Option<int>, reason: string)

  datatype StartInput = StartInput(
    category: string,
    placement: Option<Placement>,
    longLived: bool,
    interactive: bool,
    payload: string,
    approvalChannel: bool)

  datatype Task = Task(
    id: TaskId,
    input: StartInput,
    placement: Placement,
    status: Status,
    controlled: bool,  // whether a runner control is held
    outputBytes: nat,
    outputPreview: string,
    outputTruncated: bool,
    outputWarned: bool,
    lastInputRequest: Option<InputRequest>,
    awaitingSince: Option<int>,
    detectedWaitSince: Option<int>,
    createdAt: int,
    startedAt: Option<int>,
    endedAt: Option<int>,
    exit: Option<Exit>,
    waiters: seq<Waiter>)

  /** The read-only snapshot handed out: everything but the control and the waiters. */
  function View(t: Task): Task {
    t.(controlled := false, waiters := [])
  }

  /** What reaches the runner, the sink, the notification queue, the waiters and the task's output. */
  datatype Effect =
    | StartRecorded(id: TaskId, view: Task)
    | Launched(id: TaskId, placement: Placement)
    | CancelCalled(id: TaskId)
    | InputGiven(id: TaskId, value: string)
    | OutputAccepted(id: TaskId, chunk: string)
    | Notified(id: TaskId, note: N.Notification)
    | CompletionRecorded(id: TaskId, view: Task, ok: bool)
    | WaitBegun(id: TaskId, waiter: Waiter)
    | Resolved(id: TaskId, waiter: Waiter, view: Task)

  type Notes = q: N.Queue | N.HasLevels(q.byLevel) witness N.EMPTY

  datatype Manager = Manager(
    tasks: map<TaskId, Task>,
    order: seq<TaskId>,  // the insertion order of the task map
    queue: seq<TaskId>,
    ids: nat,            // the id source
    notes: Notes,
    effects: seq<Effect>,
    limit: nat,
    hardStop: int)

  function Initial(limit: nat, hardStop: int): Manager {
    Manager(map[], [], [], 0, N.EMPTY, [], limit, hardStop)
  }

  function Classify(input: StartInput): Placement {
    if input.placement.Some? then input.placement.value
    else if input.longLived && !input.interactive then Background
    else Foreground
  }

  function NewTask(id: TaskId, input: StartInput, now: int): Task {
    Task(id, input, Classify(input), Queued, false, 0, "", false, false, None, None, None, now, None, None, None, [])
  }

  predicate Active(t: Task) {
    t.placement.Foreground? && t.status.Live()
  }

  function ActiveIds(tasks: map<TaskId, Task>): set<TaskId> {
    set id | id in tasks && Active(tasks[id])
  }

  function ForegroundRunning(s: Manager): nat {
    |ActiveIds(s.tasks)|
  }

  function Log(s: Manager, e: Effect): Manager {
    s.(effects := s.effects + [e])
  }

  function Notify(s: Manager, id: TaskId, kind: N.Kind, message: string, now: int): Manager {
    var note := N.Notification(s.ids, kind, N.LevelOf(kind), id, message, now);
    Log(s.(ids := s.ids + 1, notes := N.Enqueued(s.notes, note)), Notified(id, note))
  }

  function Launch(s: Manager, id: TaskId, now: int): Manager
    requires id in s.tasks
  {
    var t := s.tasks[id];
    Log(s.(tasks := s.tasks[id := t.(status := Running, startedAt := Some(now), controlled := true)]),
        Launched(id, t.placement))
  }

  /** The new record, before it is launched or queued. */
  function Register(s: Manager, input: StartInput, now: int): Manager {
    var t := NewTask(s.ids, input, now);
    Log(s.(tasks := s.tasks[t.id := t], order := s.order + [t.id], ids := s.ids + 1), StartRecorded(t.id, View(t)))
  }

  function Start(s: Manager, input: StartInput, now: int): Manager {
    var id, s1 := s.ids, Register(s, input, now);
    if Classify(input).Background? || ForegroundRunning(s1) < s.limit then Launch(s1, id, now)
    else s1.(queue := s1.queue + [id])
  }

  function Admit(s: Manager, now: int): Manager
    decreases |s.queue|
  {
    if ForegroundRunning(s) < s.limit && s.queue != [] then
      var next := s.queue[0];
      var s1 := s.(queue := s.queue[1..]);
      Admit(if next in s1.tasks && s1.tasks[next].status.Queued? then Launch(s1, next, now) else s1, now)
    else s
  }

  function ResolveAll(effects: seq<Effect>, id: TaskId, waiters: seq<Waiter>, view: Task): seq<Effect>
    decreases |waiters|
  {
    if waiters == [] then effects
    else ResolveAll(effects + [Resolved(id, waiters[0], view)], id, waiters[1..], view)
  }

  /** Everything settlement does to one task, before the freed slot is given away. */
  function SettleTask(s: Manager, id: TaskId, status: Status, exit: Exit, now: int): Manager
    requires id in s.tasks
  {
    var t := s.tasks[id].(status := status, exit := Some(exit), endedAt := Some(now), controlled := false);
    var kind := if status.Succeeded? then N.BackgroundCompletion else N.TaskFailure;
    var s1 := Notify(s.(tasks := s.tasks[id := t]), id, kind, "settled", now);
    var s2 := Log(s1, CompletionRecorded(id, View(t), status.Succeeded?));
    s2.(tasks := s2.tasks[id := t.(waiters := [])], effects := ResolveAll(s2.effects, id, t.waiters, View(t)))
  }

  function Settle(s: Manager, id: TaskId, status: Status, exit: Exit, now: int): Manager
    requires id in s.tasks
  {
    if s.tasks[id].status.Terminal() then s
    else
      var s1 := SettleTask(s, id, status, exit, now);
      if s.tasks[id].placement.Foreground? then Admit(s1, now) else s1
  }

  const CANCELLED := Exit(false, None, "cancelled")
  const HARD_STOPPED := Exit(false, None, "output hard-stop limit exceeded")
  const WATCHDOG := InputRequest("input required (watchdog)", false)

  function CancelControl(s: Manager, id: TaskId): Manager
    requires id in s.tasks
  {
    if s.tasks[id].controlled then Log(s, CancelCalled(id)) else s
  }

  function ProvideInput(s: Manager, id: TaskId, value: string): Manager
    requires id in s.tasks
  {
    var t := s.tasks[id];
    if !t.status.AwaitingInput? && !t.status.Blocked? then s
    else
      var t' := t.(status := Running, awaitingSince := None, detectedWaitSince := None, lastInputRequest := None);
      var s1 := s.(tasks := s.tasks[id := t']);
      if t.controlled then Log(s1, InputGiven(id, value)) else s1
  }

  function Stop(s: Manager, id: TaskId, now: int): Manager
    requires id in s.tasks
  {
    if s.tasks[id].status.Terminal() then s
    else Settle(CancelControl(s, id), id, Cancelled, CANCELLED, now)
  }

  function Await(s: Manager, id: TaskId): Manager
    requires id in s.tasks
  {
    var t, w := s.tasks[id], s.ids;
    var s1 := Log(s.(ids := s.ids + 1), WaitBegun(id, w));
    if t.status.Terminal() then Log(s1, Resolved(id, w, View(t)))
    else s1.(tasks := s.tasks[id := t.(waiters := t.waiters + [w])])
  }

  function EnterAwaitingInput(s: Manager, id: TaskId, request: InputRequest, now: int): Manager
    requires id in s.tasks
  {
    var t := s.tasks[id];
    if t.status.Terminal() then s
    else
      var t' := t.(status := AwaitingInput, awaitingSince := Some(now), detectedWaitSince := None,
                   lastInputRequest := Some(request));
      Notify(s.(tasks := s.tasks[id := t']), id, N.InputRequest, request.prompt, now)
  }

  predicate WatchdogTrips(t: Task, now: int) {
    t.status.Running? && t.detectedWaitSince.Some? && now - t.detectedWaitSince.value >= INPUT_WATCHDOG_MS
  }

  predicate WaitsTooLong(t: Task, now: int) {
    && t.status.AwaitingInput? && !t.input.approvalChannel
    && t.awaitingSince.Some? && now - t.awaitingSince.value >= BLOCKED_AFTER_MS
  }

  function Block(s: Manager, id: TaskId, now: int): Manager
    requires id in s.tasks
  {
    Notify(s.(tasks := s.tasks[id := s.tasks[id].(status := Blocked)]), id, N.Status, "blocked: no input channel", now)
  }

  function WatchOne(s: Manager, id: TaskId, now: int): (s': Manager)
    requires id in s.tasks
    ensures s'.tasks.Keys == s.tasks.Keys
  {
    var s1 := if WatchdogTrips(s.tasks[id], now) then EnterAwaitingInput(s, id, WATCHDOG, now) else s;
    if WaitsTooLong(s1.tasks[id], now) then Block(s1, id, now) else s1
  }

  function WatchAll(s: Manager, ids: seq<TaskId>, now: int): (s': Manager)
    requires forall id :: id in ids ==> id in s.tasks
    ensures s'.tasks.Keys == s.tasks.Keys
    decreases |ids|
  {
    if ids == [] then s else
      assert forall id :: id in ids[1..] ==> id in ids;
      WatchAll(WatchOne(s, ids[0], now), ids[1..], now)
  }

  function WaitDetected(s: Manager, id: TaskId, now: int): Manager
    requires id in s.tasks
  {
    var t := s.tasks[id];
    if t.status.Running? && t.detectedWaitSince.None?
    then s.(tasks := s.tasks[id := t.(detectedWaitSince := Some(now))])
    else s
  }

  /** The bookkeeping of one chunk, before the output limits are looked at. */
  function Absorb(t: Task, chunk: string): Task {
    var room := OUTPUT_PREVIEW_BYTES - |t.outputPreview|;
    var t1 := t.(outputBytes := t.outputBytes + |chunk|);
    if room > 0 then
      t1.(outputPreview := t.outputPreview + (if |chunk| > room then chunk[..room] else chunk),
          outputTruncated := t.outputTruncated || |chunk| > room)
    else t1.(outputTruncated := true)
  }

  /** Accept a chunk and warn once when the output has grown large. */
  function Accept(s: Manager, id: TaskId, chunk: string, now: int): Manager
    requires id in s.tasks
  {
    var t := Absorb(s.tasks[id], chunk);
    var warn := !t.outputWarned && t.outputBytes >= OUTPUT_WARN_BYTES;
    var s1 := Log(s.(tasks := s.tasks[id := t.(outputWarned := t.outputWarned || warn)]), OutputAccepted(id, chunk));
    if warn then Notify(s1, id, N.Status, "output exceeded the warning size", now) else s1
  }

  function Output(s: Manager, id: TaskId, chunk: string, now: int): Manager
    requires id in s.tasks
  {
    if s.tasks[id].status.Terminal() then s
    else
      var s1 := Accept(s, id, chunk, now);
      if s1.tasks[id].outputBytes >= s.hardStop
      then Settle(CancelControl(s1, id), id, Failed, HARD_STOPPED, now)
      else s1
  }

  function Exited(s: Manager, id: TaskId, exit: Exit, now: int): Manager
    requires id in s.tasks
  {
    Settle(s, id, if exit.ok then Succeeded else Failed, exit, now)
  }

  // ----- runs --------------------------------------------------------------------------------------

  datatype Op =
    | DoStart(input: StartInput)
    | DoProvideInput(id: TaskId, value: string)
    | DoStop(id: TaskId)
    | DoAwait(id: TaskId)
    | DoWatch
    | OnOutput(id: TaskId, chunk: string)
    | OnInputRequest(id: TaskId, request: InputRequest)
    | OnWaitDetected(id: TaskId)
    | OnExit(id: TaskId, exit: Exit)

  /** Callers may name any id; the runner reports only on tasks it was asked to start. */
  predicate Enabled(s: Manager, op: Op) {
    match op
    case OnOutput(id, _) => id in s.tasks && s.tasks[id].startedAt.Some?
    case OnInputRequest(id, _) => id in s.tasks && s.tasks[id].startedAt.Some?
    case OnWaitDetected(id) => id in s.tasks && s.tasks[id].startedAt.Some?
    case OnExit(id, _) => id in s.tasks && s.tasks[id].startedAt.Some?
    case _ => true
  }

  ghost predicate Listed(s: Manager) {
    forall id :: id in s.order <==> id in s.tasks
  }

  function Apply(s: Manager, op: Op, now: int): Manager
    requires Listed(s) && Enabled(s, op)
  {
    match op
    case DoStart(input) => Start(s, input, now)
    case DoProvideInput(id, value) => if id in s.tasks then ProvideInput(s, id, value) else s
    case DoStop(id) => if id in s.tasks then Stop(s, id, now) else s
    case DoAwait(id) => if id in s.tasks then Await(s, id) else s
    case DoWatch => WatchAll(s, s.order, now)
    case OnOutput(id, chunk) => Output(s, id, chunk, now)
    case OnInputRequest(id, request) => EnterAwaitingInput(s, id, request, now)
    case OnWaitDetected(id) => WaitDetected(s, id, now)
    case OnExit(id, exit) => Exited(s, id, exit, now)
  }
}
