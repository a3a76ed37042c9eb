/**
 Settlement happens exactly once: the record of every task agrees with the log of what was done for it,
 and a terminal record never changes again.
 */
module BackgroundHistory {
  import opened Options
  import opened BackgroundTasks
  import N = Notifications

  /**
   What the log says about one task: its launches, completion records (view and success flag), completion
   notifications, the waits begun and resolved in order, the views waiters got, all accepted output, and
   how much output there was when the last chunk arrived (-1 when none has).
   */
  datatype Account = Account(
    launches: nat,
    completions: seq<(Task, bool)>,
    notices: seq<N.Kind>,
    begun: seq<Waiter>,
    resolved: seq<Waiter>,
    views: set<Task>,
    output: string,
    lastChunkAt: int)

  const NOTHING := Account(0, [], [], [], [], {}, "", -1)

  predicate IsCompletionKind(kind: N.Kind) {
    kind.BackgroundCompletion? || kind.TaskFailure?
  }

  function Book(a: Account, e: Effect): Account {
    match e
    case Launched(_, _) => a.(launches := a.launches + 1)
    case CompletionRecorded(_, view, ok) => a.(completions := a.completions + [(view, ok)])
    case Notified(_, note) => if IsCompletionKind(note.kind) then a.(notices := a.notices + [note.kind]) else a
    case WaitBegun(_, w) => a.(begun := a.begun + [w])
    case Resolved(_, w, view) => a.(resolved := a.resolved + [w], views := a.views + {view})
    case OutputAccepted(_, chunk) => a.(output := a.output + chunk, lastChunkAt := |a.output|)
    case _ => a
  }

  function AccountOf(effects: seq<Effect>, id: TaskId): Account {
    if effects == [] then NOTHING
    else
      var n := |effects| - 1;
      if effects[n].id == id then Book(AccountOf(effects[..n], id), effects[n]) else AccountOf(effects[..n], id)
  }

  function Prefix(text: string, n: nat): string {
    if |text| <= n then text else text[..n]
  }

  ghost predicate LifecycleAgrees(t: Task, a: Account) {
    && (t.status.Terminal() <==> t.exit.Some?)
    && (t.status.Terminal() <==> t.endedAt.Some?)
    && (t.controlled <==> t.status.Live())
    && (t.status.Live() ==> t.startedAt.Some?)
    && (t.startedAt.None? ==> t.status.Queued? || t.status.Cancelled?)
    && (t.status.Queued? ==> t.startedAt.None?)
    && a.launches == (if t.startedAt.Some? then 1 else 0)
  }

  /** Exactly one completion record and one completion notification per terminal task, none before. */
  ghost predicate SettledOnce(t: Task, a: Account) {
    && a.completions == (if t.status.Terminal() then [(View(t), t.status.Succeeded?)] else [])
    && a.notices ==
       (if !t.status.Terminal() then [] else if t.status.Succeeded? then [N.BackgroundCompletion] else [N.TaskFailure])
  }

  /** Every waiter is resolved once, when the task is terminal, and with the terminal view. */
  ghost predicate WaitersServed(t: Task, a: Account) {
    && a.begun == a.resolved + t.waiters
    && (if t.status.Terminal() then t.waiters == [] && a.views <= {View(t)} else a.resolved == [] && a.views == {})
  }

  /** The preview is the first 64 Ki characters of all accepted output. */
  ghost predicate OutputAgrees(t: Task, a: Account) {
    && t.outputBytes == |a.output|
    && t.outputPreview == Prefix(a.output, OUTPUT_PREVIEW_BYTES)
    && a.lastChunkAt <= |a.output|
    && (t.outputTruncated <==> |a.output| > OUTPUT_PREVIEW_BYTES || a.lastChunkAt >= OUTPUT_PREVIEW_BYTES)
    && (t.outputWarned <==> |a.output| >= OUTPUT_WARN_BYTES)
  }

  ghost predicate Faithful(t: Task, a: Account) {
    LifecycleAgrees(t, a) && SettledOnce(t, a) && WaitersServed(t, a) && OutputAgrees(t, a)
  }

  /** No two waits of a task share a token, and later tokens are larger. */
  ghost predicate Increasing(waits: seq<Waiter>, bound: nat) {
    && (forall i, j :: 0 <= i < j < |waits| ==> waits[i] < waits[j])
    && (forall i :: 0 <= i < |waits| ==> waits[i] < bound)
  }

  ghost predicate TaskHist(t: Task, a: Account, id: TaskId, ids: nat) {
    t.id == id < ids && Faithful(t, a) && Increasing(a.begun, ids)
  }

  /** What holds of one id: its record agrees with its account, or there is neither. */
  ghost predicate HistAt(s: Manager, id: TaskId) {
    if id in s.tasks then TaskHist(s.tasks[id], AccountOf(s.effects, id), id, s.ids)
    else AccountOf(s.effects, id) == NOTHING
  }

  ghost predicate Hist(s: Manager) {
    forall id :: HistAt(s, id)
  }

  /** Nothing terminal changes, nobody disappears, nobody is reclassified or restarted. */
  ghost predicate Evolves(s: Manager, s': Manager) {
    forall id :: id in s.tasks ==> id in s'.tasks && TaskEvolves(s.tasks[id], s'.tasks[id])
  }

  predicate TaskEvolves(t: Task, t': Task) {
    && t'.placement == t.placement
    && (t.startedAt.Some? ==> t'.startedAt == t.startedAt)
    && (t.status.Terminal() ==> t' == t)
  }

  lemma AccountExtend(effects: seq<Effect>, e: Effect, id: TaskId)
    ensures AccountOf(effects + [e], id) ==
      if e.id == id then Book(AccountOf(effects, id), e) else AccountOf(effects, id)
  {
    assert (effects + [e])[..|effects|] == effects;
  }

  /** One task changes and one effect that concerns it is logged. */
  lemma Advance(s: Manager, s': Manager, t: Task, e: Effect)
    requires Hist(s) && s.ids <= s'.ids && e.id == t.id
    requires s'.tasks == s.tasks[t.id := t] && s'.effects == s.effects + [e]
    requires TaskHist(t, Book(AccountOf(s.effects, t.id), e), t.id, s'.ids)
    ensures Hist(s')
  {
    forall id ensures HistAt(s', id) {
      assert HistAt(s, id);
      AccountExtend(s.effects, e, id);
    }
  }

  /** An effect that says nothing about launch, settlement, waiting or output. */
  predicate Neutral(e: Effect) {
    || e.StartRecorded? || e.CancelCalled? || e.InputGiven?
    || (e.Notified? && !IsCompletionKind(e.note.kind))
  }

  /** Everything else about the manager may change with a neutral effect. */
  lemma LogKeeps(s: Manager, s': Manager, e: Effect)
    requires Hist(s) && Neutral(e) && e.id in s.tasks && s.ids <= s'.ids
    requires s'.tasks == s.tasks && s'.effects == s.effects + [e]
    ensures Hist(s')
  {
    assert HistAt(s, e.id);
    Advance(s, s', s.tasks[e.id], e);
  }

  lemma NotifyKeeps(s: Manager, id: TaskId, kind: N.Kind, message: string, now: int)
    requires Hist(s) && id in s.tasks && !IsCompletionKind(kind)
    ensures var s' := Notify(s, id, kind, message, now); Hist(s') && s'.tasks == s.tasks
  {
    var note := N.Notification(s.ids, kind, N.LevelOf(kind), id, message, now);
    LogKeeps(s, Notify(s, id, kind, message, now), Notified(id, note));
  }

  lemma LaunchKeeps(s: Manager, id: TaskId, now: int)
    requires Hist(s) && id in s.tasks && s.tasks[id].status.Queued?
    ensures Hist(Launch(s, id, now)) && Evolves(s, Launch(s, id, now))
  {
    var t := s.tasks[id];
    assert HistAt(s, id);
    Advance(s, Launch(s, id, now), t.(status := Running, startedAt := Some(now), controlled := true), Launched(id, t.placement));
  }

  lemma {:induction false} AdmitKeeps(s: Manager, now: int)
    requires Hist(s)
    ensures Hist(Admit(s, now)) && Evolves(s, Admit(s, now))
    decreases |s.queue|
  {
    if ForegroundRunning(s) < s.limit && s.queue != [] {
      var next, s1 := s.queue[0], s.(queue := s.queue[1..]);
      forall id ensures HistAt(s1, id) { assert HistAt(s, id); }
      if next in s1.tasks && s1.tasks[next].status.Queued? {
        LaunchKeeps(s1, next, now);
        AdmitKeeps(Launch(s1, next, now), now);
        EvolvesTrans(s, Launch(s1, next, now), Admit(s, now));
      } else {
        AdmitKeeps(s1, now);
      }
    }
  }

  lemma EvolvesTrans(s: Manager, s1: Manager, s2: Manager)
    requires Evolves(s, s1) && Evolves(s1, s2)
    ensures Evolves(s, s2)
  {
  }

  lemma {:induction false} ResolveAllBooks(effects: seq<Effect>, id: TaskId, waiters: seq<Waiter>, view: Task, other: TaskId)
    ensures var a, a' := AccountOf(effects, other), AccountOf(ResolveAll(effects, id, waiters, view), other);
      if other == id
        then a' == a.(resolved := a.resolved + waiters, views := a'.views) && a.views <= a'.views <= a.views + {view}
        else a' == a
    decreases |waiters|
  {
    if waiters == [] {
      var a := AccountOf(effects, other);
      assert a.resolved + waiters == a.resolved;
    } else {
      var e := Resolved(id, waiters[0], view);
      AccountExtend(effects, e, other);
      ResolveAllBooks(effects + [e], id, waiters[1..], view, other);
      var a := AccountOf(effects, other);
      assert a.resolved + [waiters[0]] + waiters[1..] == a.resolved + waiters;
    }
  }

  lemma SettledIsFaithful(t: Task, a: Account, t': Task, notice: Effect, record: Effect, a': Account)
    requires Faithful(t, a) && !t.status.Terminal() && t'.status.Terminal()
    requires t' == t.(status := t'.status, exit := t'.exit, endedAt := t'.endedAt, controlled := false)
    requires t'.exit.Some? && t'.endedAt.Some? && (t.status.Queued? ==> t'.status.Cancelled?)
    requires notice.Notified?
    requires notice.note.kind == if t'.status.Succeeded? then N.BackgroundCompletion else N.TaskFailure
    requires record.CompletionRecorded? && record.view == View(t') && record.ok == t'.status.Succeeded?
    requires a' == Book(Book(a, notice), record).(resolved := a.resolved + t.waiters, views := a'.views)
    requires a'.views <= a.views + {View(t')}
    ensures Faithful(t'.(waiters := []), a') && a'.begun == a.begun
  {
  }

  /** What settling one task books: for the task its notification, its record and its waiters, for others nothing. */
  lemma SettleTaskBooks(s: Manager, id: TaskId, status: Status, exit: Exit, now: int, notice: Effect, record: Effect, other: TaskId)
    requires id in s.tasks && notice.id == record.id == id
    requires var t, kind := s.tasks[id], if status.Succeeded? then N.BackgroundCompletion else N.TaskFailure;
      && notice == Notified(id, N.Notification(s.ids, kind, N.LevelOf(kind), id, "settled", now))
      && record == CompletionRecorded(id, View(t.(status := status, exit := Some(exit), endedAt := Some(now), controlled := false)),
                                      status.Succeeded?)
    ensures var a, a' := AccountOf(s.effects, other), AccountOf(SettleTask(s, id, status, exit, now).effects, other);
      if other != id then a' == a
      else
        && a' == Book(Book(a, notice), record).(resolved := a.resolved + s.tasks[id].waiters, views := a'.views)
        && a'.views <= a.views + {record.view}
  {
    AccountExtend(s.effects, notice, other);
    AccountExtend(s.effects + [notice], record, other);
    ResolveAllBooks(s.effects + [notice] + [record], id, s.tasks[id].waiters, record.view, other);
  }

  lemma SettleTaskAt(s: Manager, id: TaskId, status: Status, exit: Exit, now: int, other: TaskId)
    requires Hist(s) && id in s.tasks && !s.tasks[id].status.Terminal() && status.Terminal()
    requires s.tasks[id].status.Queued? ==> status.Cancelled?
    ensures HistAt(SettleTask(s, id, status, exit, now), other)
  {
    var s', t := SettleTask(s, id, status, exit, now), s.tasks[id];
    var t' := t.(status := status, exit := Some(exit), endedAt := Some(now), controlled := false);
    var kind := if status.Succeeded? then N.BackgroundCompletion else N.TaskFailure;
    var notice := Notified(id, N.Notification(s.ids, kind, N.LevelOf(kind), id, "settled", now));
    var record := CompletionRecorded(id, View(t'), status.Succeeded?);
    assert HistAt(s, other);
    SettleTaskBooks(s, id, status, exit, now, notice, record, other);
    if other == id { SettledIsFaithful(t, AccountOf(s.effects, id), t', notice, record, AccountOf(s'.effects, id)); }
  }

  lemma SettleTaskKeeps(s: Manager, id: TaskId, status: Status, exit: Exit, now: int)
    requires Hist(s) && id in s.tasks && !s.tasks[id].status.Terminal() && status.Terminal()
    requires s.tasks[id].status.Queued? ==> status.Cancelled?
    ensures Hist(SettleTask(s, id, status, exit, now)) && Evolves(s, SettleTask(s, id, status, exit, now))
  {
    var s' := SettleTask(s, id, status, exit, now);
    forall other ensures HistAt(s', other) { SettleTaskAt(s, id, status, exit, now, other); }
  }

  lemma SettleKeeps(s: Manager, id: TaskId, status: Status, exit: Exit, now: int)
    requires Hist(s) && id in s.tasks && status.Terminal()
    requires s.tasks[id].status.Queued? ==> status.Cancelled?
    ensures Hist(Settle(s, id, status, exit, now)) && Evolves(s, Settle(s, id, status, exit, now))
  {
    if !s.tasks[id].status.Terminal() {
      var s1 := SettleTask(s, id, status, exit, now);
      SettleTaskKeeps(s, id, status, exit, now);
      AdmitKeeps(s1, now);
      EvolvesTrans(s, s1, Admit(s1, now));
    }
  }

  lemma CancelKeeps(s: Manager, id: TaskId)
    requires Hist(s) && id in s.tasks
    ensures var s' := CancelControl(s, id); Hist(s') && s'.tasks == s.tasks
  {
    if s.tasks[id].controlled { LogKeeps(s, CancelControl(s, id), CancelCalled(id)); }
  }

  lemma RegisterKeeps(s: Manager, input: StartInput, now: int)
    requires Hist(s)
    ensures var s' := Register(s, input, now);
      Hist(s') && Evolves(s, s') && s.ids !in s.tasks
  {
    var t := NewTask(s.ids, input, now);
    var e, s' := StartRecorded(t.id, View(t)), Register(s, input, now);
    assert HistAt(s, t.id);
    assert TaskHist(t, Book(NOTHING, e), t.id, s'.ids);
    Advance(s, s', t, e);
  }

  lemma StartKeeps(s: Manager, input: StartInput, now: int)
    requires Hist(s)
    ensures Hist(Start(s, input, now)) && Evolves(s, Start(s, input, now))
  {
    var id, s1, s' := s.ids, Register(s, input, now), Start(s, input, now);
    RegisterKeeps(s, input, now);
    if Classify(input).Background? || ForegroundRunning(s1) < s.limit {
      LaunchKeeps(s1, id, now);
      EvolvesTrans(s, s1, s');
    } else {
      forall k ensures HistAt(s', k) { assert HistAt(s1, k); }
    }
  }

  /** One task changes and nothing is logged. */
  lemma Adjust(s: Manager, s': Manager, t: Task)
    requires Hist(s) && t.id in s.tasks && s'.ids == s.ids
    requires s'.tasks == s.tasks[t.id := t] && s'.effects == s.effects
    requires TaskHist(t, AccountOf(s.effects, t.id), t.id, s.ids)
    ensures Hist(s')
  {
    forall id ensures HistAt(s', id) { assert HistAt(s, id); }
  }

  lemma ProvideInputKeeps(s: Manager, id: TaskId, value: string)
    requires Hist(s) && id in s.tasks
    ensures Hist(ProvideInput(s, id, value)) && Evolves(s, ProvideInput(s, id, value))
  {
    var t := s.tasks[id];
    assert HistAt(s, id);
    if t.status.AwaitingInput? || t.status.Blocked? {
      var t' := t.(status := Running, awaitingSince := None, detectedWaitSince := None, lastInputRequest := None);
      var s1 := s.(tasks := s.tasks[id := t']);
      Adjust(s, s1, t');
      if t.controlled { LogKeeps(s1, ProvideInput(s, id, value), InputGiven(id, value)); }
    }
  }

  lemma AwaitKeeps(s: Manager, id: TaskId)
    requires Hist(s) && id in s.tasks
    ensures Hist(Await(s, id)) && Evolves(s, Await(s, id))
  {
    var t, w, a := s.tasks[id], s.ids, AccountOf(s.effects, id);
    assert HistAt(s, id);
    if t.status.Terminal() {
      forall other ensures HistAt(Await(s, id), other) { AwaitTerminalAt(s, id, other); }
    } else {
      assert Faithful(t.(waiters := t.waiters + [w]), Book(a, WaitBegun(id, w)));
      Advance(s, Await(s, id), t.(waiters := t.waiters + [w]), WaitBegun(id, w));
    }
  }

  /** Waiting for a task that is settled already. */
  lemma AwaitTerminalAt(s: Manager, id: TaskId, other: TaskId)
    requires Hist(s) && id in s.tasks && s.tasks[id].status.Terminal()
    ensures HistAt(Await(s, id), other)
  {
    var begun, resolved := WaitBegun(id, s.ids), Resolved(id, s.ids, View(s.tasks[id]));
    assert HistAt(s, other);
    AccountExtend(s.effects, begun, other);
    AccountExtend(s.effects + [begun], resolved, other);
  }

  lemma EnterAwaitingInputKeeps(s: Manager, id: TaskId, request: InputRequest, now: int)
    requires Hist(s) && id in s.tasks && s.tasks[id].startedAt.Some?
    ensures var s' := EnterAwaitingInput(s, id, request, now); Hist(s') && Evolves(s, s')
  {
    var t := s.tasks[id];
    assert HistAt(s, id);
    if !t.status.Terminal() {
      var t' := t.(status := AwaitingInput, awaitingSince := Some(now), detectedWaitSince := None,
                   lastInputRequest := Some(request));
      var s1 := s.(tasks := s.tasks[id := t']);
      Adjust(s, s1, t');
      NotifyKeeps(s1, id, N.InputRequest, request.prompt, now);
    }
  }

  lemma BlockKeeps(s: Manager, id: TaskId, now: int)
    requires Hist(s) && id in s.tasks && s.tasks[id].status.AwaitingInput?
    ensures Hist(Block(s, id, now)) && Evolves(s, Block(s, id, now))
  {
    assert HistAt(s, id);
    var t' := s.tasks[id].(status := Blocked);
    var s1 := s.(tasks := s.tasks[id := t']);
    Adjust(s, s1, t');
    NotifyKeeps(s1, id, N.Status, "blocked: no input channel", now);
  }

  lemma WatchOneKeeps(s: Manager, id: TaskId, now: int)
    requires Hist(s) && id in s.tasks
    ensures Hist(WatchOne(s, id, now)) && Evolves(s, WatchOne(s, id, now))
  {
    assert HistAt(s, id);
    var s1 := if WatchdogTrips(s.tasks[id], now) then EnterAwaitingInput(s, id, WATCHDOG, now) else s;
    if WatchdogTrips(s.tasks[id], now) { EnterAwaitingInputKeeps(s, id, WATCHDOG, now); }
    if WaitsTooLong(s1.tasks[id], now) {
      BlockKeeps(s1, id, now);
      EvolvesTrans(s, s1, Block(s1, id, now));
    }
  }

  lemma {:induction false} WatchAllKeeps(s: Manager, ids: seq<TaskId>, now: int)
    requires Hist(s) && forall id :: id in ids ==> id in s.tasks
    ensures Hist(WatchAll(s, ids, now)) && Evolves(s, WatchAll(s, ids, now))
    decreases |ids|
  {
    if ids != [] {
      var s1 := WatchOne(s, ids[0], now);
      WatchOneKeeps(s, ids[0], now);
      assert forall id :: id in ids[1..] ==> id in ids;
      WatchAllKeeps(s1, ids[1..], now);
      EvolvesTrans(s, s1, WatchAll(s, ids, now));
    }
  }

  lemma WaitDetectedKeeps(s: Manager, id: TaskId, now: int)
    requires Hist(s) && id in s.tasks
    ensures Hist(WaitDetected(s, id, now)) && Evolves(s, WaitDetected(s, id, now))
  {
    var t := s.tasks[id];
    assert HistAt(s, id);
    if t.status.Running? && t.detectedWaitSince.None? {
      Adjust(s, WaitDetected(s, id, now), t.(detectedWaitSince := Some(now)));
    }
  }

  function Warned(t: Task): Task {
    t.(outputWarned := t.outputWarned || t.outputBytes >= OUTPUT_WARN_BYTES)
  }

  lemma AbsorbIsFaithful(t: Task, a: Account, chunk: string)
    requires Faithful(t, a) && !t.status.Terminal()
    ensures Faithful(Warned(Absorb(t, chunk)), Book(a, OutputAccepted(t.id, chunk)))
  {
    var t', a' := Warned(Absorb(t, chunk)), Book(a, OutputAccepted(t.id, chunk));
    assert t'.outputPreview == Prefix(a'.output, OUTPUT_PREVIEW_BYTES);
    assert OutputAgrees(t', a');
  }

  lemma AcceptKeeps(s: Manager, id: TaskId, chunk: string, now: int)
    requires Hist(s) && id in s.tasks && s.tasks[id].startedAt.Some? && !s.tasks[id].status.Terminal()
    ensures Hist(Accept(s, id, chunk, now)) && Evolves(s, Accept(s, id, chunk, now))
  {
    assert HistAt(s, id);
    var t, e := Absorb(s.tasks[id], chunk), OutputAccepted(id, chunk);
    var warn := !t.outputWarned && t.outputBytes >= OUTPUT_WARN_BYTES;
    assert Warned(t) == t.(outputWarned := t.outputWarned || warn);
    var s1 := Log(s.(tasks := s.tasks[id := Warned(t)]), e);
    AbsorbIsFaithful(s.tasks[id], AccountOf(s.effects, id), chunk);
    Advance(s, s1, Warned(t), e);
    assert Evolves(s, s1);
    if warn { NotifyKeeps(s1, id, N.Status, "output exceeded the warning size", now); }
  }

  lemma OutputKeeps(s: Manager, id: TaskId, chunk: string, now: int)
    requires Hist(s) && id in s.tasks && s.tasks[id].startedAt.Some?
    ensures Hist(Output(s, id, chunk, now)) && Evolves(s, Output(s, id, chunk, now))
  {
    assert HistAt(s, id);
    if !s.tasks[id].status.Terminal() {
      var s1 := Accept(s, id, chunk, now);
      AcceptKeeps(s, id, chunk, now);
      CancelKeeps(s1, id);
      if s1.tasks[id].outputBytes >= s.hardStop {
        SettleKeeps(CancelControl(s1, id), id, Failed, HARD_STOPPED, now);
        EvolvesTrans(s, CancelControl(s1, id), Output(s, id, chunk, now));
      }
    }
  }

  lemma ExitedKeeps(s: Manager, id: TaskId, exit: Exit, now: int)
    requires Hist(s) && id in s.tasks && s.tasks[id].startedAt.Some?
    ensures Hist(Exited(s, id, exit, now)) && Evolves(s, Exited(s, id, exit, now))
  {
    assert HistAt(s, id);
    SettleKeeps(s, id, if exit.ok then Succeeded else Failed, exit, now);
  }

  lemma StopKeeps(s: Manager, id: TaskId, now: int)
    requires Hist(s) && id in s.tasks
    ensures Hist(Stop(s, id, now)) && Evolves(s, Stop(s, id, now))
  {
    CancelKeeps(s, id);
    SettleKeeps(CancelControl(s, id), id, Cancelled, CANCELLED, now);
  }

  lemma OpKeepsHistory(s: Manager, op: Op, now: int)
    requires Hist(s) && BackgroundTasks.Listed(s) && Enabled(s, op)
    ensures Hist(Apply(s, op, now)) && Evolves(s, Apply(s, op, now))
  {
    match op
    case DoStart(input) => StartKeeps(s, input, now);
    case DoProvideInput(id, value) => if id in s.tasks { ProvideInputKeeps(s, id, value); }
    case DoStop(id) => if id in s.tasks { StopKeeps(s, id, now); }
    case DoAwait(id) => if id in s.tasks { AwaitKeeps(s, id); }
    case DoWatch => WatchAllKeeps(s, s.order, now);
    case OnOutput(id, chunk) => OutputKeeps(s, id, chunk, now);
    case OnInputRequest(id, request) => EnterAwaitingInputKeeps(s, id, request, now);
    case OnWaitDetected(id) => WaitDetectedKeeps(s, id, now);
    case OnExit(id, exit) => ExitedKeeps(s, id, exit, now);
  }
}
