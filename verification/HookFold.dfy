/**
 The hook engine's fold: the outcomes of the handlers registered for an event are combined so that a
 hook can only tighten a permission decision, never loosen it (packages/hooks/src/engine.ts).
 */
module HookFold {
  import opened Options
  import opened Sequences

  datatype Decision = Passthrough | Allow | Ask | Deny

  datatype HookEvent = PreToolUse | PostToolUse | PostToolUseFailure | PostToolBatch | Stop | OtherEvent(name: string)

  datatype Outcome =
    | Continue
    | Block(reason: string)
    | Context(text: string)
    | Modify(toolInput: string)
    | RequestAllow(reason: string)
    | RequestPassthrough(reason: string)
    | RequestDeny
    | RequestAsk
    | RequestStop(reason: string)
    | Annotate(annotations: string)

  datatype HandlerResult = Returned(outcome: Outcome) | Failed(message: string)

  /** A registered handler: the engine runs it starts itself before it settles, and what it settles with. */
  datatype Registration = Registration(id: string, nested: seq<Call>, result: HandlerResult)

  datatype Call = Call(event: HookEvent, base: Decision, handlers: seq<Registration>)

  datatype AuditKind = Skipped | Failure | Outcome(outcome: Outcome) | Engine

  datatype Attributed = Attributed(hookId: string, text: string)
  datatype AuditRecord = AuditRecord(hookId: string, kind: AuditKind)

  datatype Fold = Fold(
    blocked: bool, blockReason: Option<Attributed>,
    stopped: bool, stopReason: Option<Attributed>, stopReentryRefused: bool,
    decision: Decision, modifications: seq<Attributed>,
    injected: seq<Attributed>, annotations: seq<Attributed>, ignoredElevations: seq<Attributed>, failures: seq<Attributed>,
    audit: seq<AuditRecord>, ranHandlers: nat)

  function Rank(d: Decision): nat {
    match d
    case Passthrough | Allow => 0
    case Ask => 1
    case Deny => 2
  }

  predicate IsPost(event: HookEvent) { event in {PostToolUse, PostToolUseFailure, PostToolBatch} }

  /** The current decision stays on a tie. */
  function MostRestrictive(current: Decision, candidate: Decision): Decision {
    if Rank(candidate) > Rank(current) then candidate else current
  }

  function Initially(base: Decision): Fold {
    Fold(false, None, false, None, false, base, [], [], [], [], [], [], 0)
  }

  function FirstOf(reason: Option<Attributed>, later: Attributed): Option<Attributed> {
    if reason.None? then Some(later) else reason
  }

  function Stopping(a: Fold, id: string, reason: string): Fold {
    a.(stopped := true, stopReason := FirstOf(a.stopReason, Attributed(id, reason)))
  }

  /** What one outcome does to the accumulators. */
  function Take(event: HookEvent, a: Fold, id: string, o: Outcome): Fold {
    match o
    case Continue => a
    case Block(reason) =>
      if IsPost(event) then Stopping(a, id, reason)
      else a.(blocked := true, blockReason := Some(Attributed(id, reason)), decision := MostRestrictive(a.decision, Deny))
    case Context(text) => a.(injected := a.injected + [Attributed(id, text)])
    case Modify(input) => a.(modifications := a.modifications + [Attributed(id, input)])
    case RequestAllow(reason) => a.(ignoredElevations := a.ignoredElevations + [Attributed(id, reason)])
    case RequestPassthrough(reason) => a.(ignoredElevations := a.ignoredElevations + [Attributed(id, reason)])
    case RequestDeny => a.(decision := MostRestrictive(a.decision, Deny))
    case RequestAsk => a.(decision := MostRestrictive(a.decision, Ask))
    case RequestStop(reason) => if event == Stop then a.(stopReentryRefused := true) else Stopping(a, id, reason)
    case Annotate(notes) => a.(annotations := a.annotations + [Attributed(id, notes)])
  }

  /** A handler ran: it is counted and audited. */
  function Noted(a: Fold, id: string, kind: AuditKind): Fold {
    a.(ranHandlers := a.ranHandlers + 1, audit := a.audit + [AuditRecord(id, kind)])
  }

  function Step(event: HookEvent, a: Fold, r: Registration): Fold {
    if a.blocked then a.(audit := a.audit + [AuditRecord(r.id, Skipped)])
    else
      match r.result
      case Failed(message) => Noted(a, r.id, Failure).(failures := a.failures + [Attributed(r.id, message)])
      case Returned(o) => Take(event, Noted(a, r.id, Outcome(o)), r.id, o)
  }

  function FoldAll(event: HookEvent, base: Decision, handlers: seq<Registration>): Fold {
    if handlers == [] then Initially(base)
    else Step(event, FoldAll(event, base, handlers[..|handlers| - 1]), handlers[|handlers| - 1])
  }

  function RefusedStop(base: Decision): Fold {
    Initially(base).(stopReentryRefused := true, audit := [AuditRecord("<engine>", Engine)])
  }

  /** What a run answers, given whether a Stop is being handled when it starts. */
  function Answer(call: Call, stopInProgress: bool): Fold {
    if call.event == Stop && stopInProgress then RefusedStop(call.base)
    else FoldAll(call.event, call.base, call.handlers)
  }

  // ----- the engine ----------------------------------------------------------------------------------------

  class HookEngine {
    var stopInProgress: bool
    ghost var stopsUnderWay: nat    // Stop runs whose handlers are being run right now

    /** At most one Stop is ever under way, however deeply handlers call back into the engine. */
    ghost predicate Valid()
      reads this
    {
      stopsUnderWay == if stopInProgress then 1 else 0
    }

    constructor ()
      ensures Valid() && !stopInProgress
    {
      stopInProgress, stopsUnderWay := false, 0;
    }

    method Run(call: Call) returns (r: Fold)
      requires Valid()
      modifies this
      ensures Valid() && stopInProgress == old(stopInProgress)
      ensures r == Answer(call, old(stopInProgress))
      ensures call.event == Stop && old(stopInProgress) ==>
        && r.decision == call.base && !r.blocked && !r.stopped && r.stopReentryRefused
        && r.ranHandlers == 0 && r.audit == [AuditRecord("<engine>", Engine)]
      decreases call, 1
    {
      if call.event == Stop && stopInProgress { return RefusedStop(call.base); }
      var entered := call.event == Stop;
      if entered { stopInProgress, stopsUnderWay := true, stopsUnderWay + 1; }
      r := RunInner(call);
      if entered { stopInProgress, stopsUnderWay := false, stopsUnderWay - 1; }
    }

    method RunInner(call: Call) returns (a: Fold)
      requires Valid()
      modifies this
      ensures Valid() && stopInProgress == old(stopInProgress)
      ensures a == FoldAll(call.event, call.base, call.handlers)
      decreases call, 0
    {
      var event, handlers := call.event, call.handlers;
      a := Initially(call.base);
      for i := 0 to |handlers|
        invariant Valid() && stopInProgress == old(stopInProgress)
        invariant a == FoldAll(event, call.base, handlers[..i])
      {
        assert handlers[..i + 1][..i] == handlers[..i];
        var r := handlers[i];
        if !a.blocked {
          for k := 0 to |r.nested|
            invariant Valid() && stopInProgress == old(stopInProgress)
          {
            var inner := Run(r.nested[k]);
          }
        }
        a := Accumulate(event, a, r);
      }
      assert handlers[..|handlers|] == handlers;
    }
  }

  /** What the loop does with one handler, once the runs it started are over. */
  method Accumulate(event: HookEvent, before: Fold, r: Registration) returns (a: Fold)
    ensures a == Step(event, before, r)
  {
    a := before;
    if a.blocked {
      a := a.(audit := a.audit + [AuditRecord(r.id, Skipped)]);
      return;
    }
    match r.result {
      case Failed(message) =>
        a := a.(ranHandlers := a.ranHandlers + 1, audit := a.audit + [AuditRecord(r.id, Failure)]);
        a := a.(failures := a.failures + [Attributed(r.id, message)]);
      case Returned(o) =>
        a := a.(ranHandlers := a.ranHandlers + 1, audit := a.audit + [AuditRecord(r.id, Outcome(o))]);
        assert a == Noted(before, r.id, Outcome(o));
        a := Take(event, a, r.id, o);
    }
  }

  // ----- no hook loosens a decision ----------------------------------------------------------------------------

  /** How restrictive a decision a handler asks for. */
  function Demand(event: HookEvent, r: Registration): nat {
    match r.result
    case Returned(RequestDeny) => 2
    case Returned(Block(_)) => if IsPost(event) then 0 else 2
    case Returned(RequestAsk) => 1
    case _ => 0
  }

  /** The largest demand, among the base decision and the handlers. */
  function Strictest(event: HookEvent, base: Decision, handlers: seq<Registration>): (m: nat)
    ensures m >= Rank(base)
    ensures forall i :: 0 <= i < |handlers| ==> Demand(event, handlers[i]) <= m
    ensures m == Rank(base) || exists i :: 0 <= i < |handlers| && Demand(event, handlers[i]) == m
  {
    if handlers == [] then Rank(base)
    else Max(Strictest(event, base, handlers[..|handlers| - 1]), Demand(event, handlers[|handlers| - 1]))
  }

  predicate Blocks(event: HookEvent, r: Registration) { !IsPost(event) && r.result.Returned? && r.result.outcome.Block? }

  /** The first handler that blocks. */
  function FirstBlock(event: HookEvent, handlers: seq<Registration>): (r: Option<nat>)
    ensures r.None? ==> forall i :: 0 <= i < |handlers| ==> !Blocks(event, handlers[i])
    ensures r.Some? ==> r.value < |handlers| && Blocks(event, handlers[r.value])
    ensures r.Some? ==> forall i :: 0 <= i < r.value ==> !Blocks(event, handlers[i])
  {
    if handlers == [] then None
    else
      var init := handlers[..|handlers| - 1];
      assert handlers == init + [handlers[|handlers| - 1]];
      var before := FirstBlock(event, init);
      if before.Some? then before else if Blocks(event, handlers[|init|]) then Some(|init|) else None
  }

  function ReasonOf(r: Registration): Attributed
    requires r.result.Returned? && (r.result.outcome.Block? || r.result.outcome.RequestStop?)
  {
    Attributed(r.id, r.result.outcome.reason)
  }

  lemma TakeRanks(event: HookEvent, a: Fold, r: Registration)
    requires r.result.Returned?
    ensures var a' := Take(event, a, r.id, r.result.outcome);
      && Rank(a'.decision) == Max(Rank(a.decision), Demand(event, r))
      && (Rank(a'.decision) == Rank(a.decision) ==> a'.decision == a.decision)
  {
    match r.result.outcome
    case Block(_) =>
    case RequestStop(_) =>
    case _ =>
  }

  lemma TakeBlocks(event: HookEvent, a: Fold, r: Registration)
    requires r.result.Returned?
    ensures var a' := Take(event, a, r.id, r.result.outcome);
      && a'.blocked == (a.blocked || Blocks(event, r))
      && a'.blockReason == if Blocks(event, r) then Some(ReasonOf(r)) else a.blockReason
  {
    match r.result.outcome
    case Block(_) =>
    case RequestStop(_) =>
    case _ =>
  }

  lemma StepDecides(event: HookEvent, a: Fold, r: Registration)
    requires a.blocked ==> a.decision == Deny
    ensures var a' := Step(event, a, r);
      && Rank(a'.decision) == Max(Rank(a.decision), Demand(event, r))
      && (Rank(a'.decision) == Rank(a.decision) ==> a'.decision == a.decision)
      && a'.blocked == (a.blocked || Blocks(event, r))
      && (a'.blocked ==> a'.decision == Deny)
      && a'.blockReason == if !a.blocked && Blocks(event, r) then Some(ReasonOf(r)) else a.blockReason
  {
    match r.result
    case Failed(_) =>
    case Returned(o) =>
      if !a.blocked {
        TakeRanks(event, Noted(a, r.id, Outcome(o)), r);
        TakeBlocks(event, Noted(a, r.id, Outcome(o)), r);
      }
  }

  /**
   The decision is the strictest thing anyone asked for, in whatever order they asked and whether or not
   an earlier block skipped them; it is the base itself when nobody asked for more; and blocked means
   denied, by the first handler that blocks.
   */
  lemma {:induction false} DecisionIsTheStrictest(event: HookEvent, base: Decision, handlers: seq<Registration>)
    ensures var a := FoldAll(event, base, handlers);
      && Rank(a.decision) == Strictest(event, base, handlers)
      && (Rank(a.decision) == Rank(base) ==> a.decision == base)
      && (a.blocked ==> a.decision == Deny)
      && (a.blocked <==> FirstBlock(event, handlers).Some?)
      && (a.blocked ==> a.blockReason == Some(ReasonOf(handlers[FirstBlock(event, handlers).value])))
    decreases |handlers|
  {
    if handlers != [] {
      var init, last := handlers[..|handlers| - 1], handlers[|handlers| - 1];
      DecisionIsTheStrictest(event, base, init);
      StepDecides(event, FoldAll(event, base, init), last);
    }
  }

  /** The strictest and the block, of the same handlers and possibly more. */
  lemma MoreIsStricter(event: HookEvent, base: Decision, fewer: seq<Registration>, more: seq<Registration>)
    requires forall r :: r in fewer ==> r in more
    ensures Strictest(event, base, fewer) <= Strictest(event, base, more)
    ensures FirstBlock(event, fewer).Some? ==> FirstBlock(event, more).Some?
  {
    forall r | r in fewer ensures Demand(event, r) <= Strictest(event, base, more) {
      var k :| 0 <= k < |more| && more[k] == r;
    }
    if FirstBlock(event, fewer).Some? { assert fewer[FirstBlock(event, fewer).value] in more; }
  }

  /** The order of registration and repetitions do not matter to how strict the decision is. */
  lemma DecisionIgnoresOrder(event: HookEvent, base: Decision, a: seq<Registration>, b: seq<Registration>)
    requires forall r :: r in a <==> r in b
    ensures Rank(FoldAll(event, base, a).decision) == Rank(FoldAll(event, base, b).decision)
    ensures FoldAll(event, base, a).blocked == FoldAll(event, base, b).blocked
  {
    DecisionIsTheStrictest(event, base, a);
    DecisionIsTheStrictest(event, base, b);
    MoreIsStricter(event, base, a, b);
    MoreIsStricter(event, base, b, a);
  }

  /** Registering one more hook anywhere never loosens the decision, and a run never goes below its base. */
  lemma AddingNeverLoosens(event: HookEvent, base: Decision, before: seq<Registration>, h: Registration, after: seq<Registration>)
    ensures Rank(base) <= Rank(FoldAll(event, base, before + after).decision)
    ensures Rank(FoldAll(event, base, before + after).decision) <= Rank(FoldAll(event, base, before + [h] + after).decision)
  {
    DecisionIsTheStrictest(event, base, before + after);
    DecisionIsTheStrictest(event, base, before + [h] + after);
    MoreIsStricter(event, base, before + after, before + [h] + after);
  }

  // ----- handlers that cannot matter ------------------------------------------------------------------------------

  predicate Inert(r: Registration) {
    r.result.Failed? || r.result.outcome.Continue? || r.result.outcome.Context? || r.result.outcome.Annotate?
    || r.result.outcome.RequestAllow? || r.result.outcome.RequestPassthrough?
  }

  function Effective(handlers: seq<Registration>): seq<Registration> {
    if handlers == [] then []
    else Effective(handlers[..|handlers| - 1]) + (if Inert(handlers[|handlers| - 1]) then [] else [handlers[|handlers| - 1]])
  }

  predicate SameEffect(a: Fold, b: Fold) {
    && a.decision == b.decision && a.blocked == b.blocked && a.blockReason == b.blockReason
    && a.stopped == b.stopped && a.stopReason == b.stopReason && a.stopReentryRefused == b.stopReentryRefused
    && a.modifications == b.modifications
  }

  /** Handlers that fail, abstain, annotate or ask to loosen might as well not be registered. */
  lemma {:induction false} InertHandlersCannotMatter(event: HookEvent, base: Decision, handlers: seq<Registration>)
    ensures SameEffect(FoldAll(event, base, handlers), FoldAll(event, base, Effective(handlers)))
    decreases |handlers|
  {
    if handlers != [] {
      var init, last := handlers[..|handlers| - 1], handlers[|handlers| - 1];
      InertHandlersCannotMatter(event, base, init);
      var a, b := FoldAll(event, base, init), FoldAll(event, base, Effective(init));
      if Inert(last) {
        assert Effective(handlers) == Effective(init);
        InertStep(event, a, last);
      } else {
        var kept := Effective(handlers);
        assert kept[..|kept| - 1] == Effective(init) && kept[|kept| - 1] == last;
        SameStep(event, a, b, last);
      }
    }
  }

  lemma InertStep(event: HookEvent, a: Fold, r: Registration)
    requires Inert(r)
    ensures SameEffect(Step(event, a, r), a)
  {
    match r.result
    case Failed(_) =>
    case Returned(_) =>
  }

  lemma SameStep(event: HookEvent, a: Fold, b: Fold, r: Registration)
    requires SameEffect(a, b)
    ensures SameEffect(Step(event, a, r), Step(event, b, r))
  {
    match r.result
    case Failed(_) =>
    case Returned(o) => if !a.blocked { SameTake(event, Noted(a, r.id, Outcome(o)), Noted(b, r.id, Outcome(o)), r.id, o); }
  }

  predicate SameVerdict(a: Fold, b: Fold) { a.decision == b.decision && a.blocked == b.blocked && a.blockReason == b.blockReason }

  predicate SameStop(a: Fold, b: Fold) {
    a.stopped == b.stopped && a.stopReason == b.stopReason && a.stopReentryRefused == b.stopReentryRefused
  }

  lemma SameTakeVerdict(event: HookEvent, a: Fold, b: Fold, id: string, o: Outcome)
    requires SameVerdict(a, b)
    ensures SameVerdict(Take(event, a, id, o), Take(event, b, id, o))
  {
  }

  lemma SameTakeStop(event: HookEvent, a: Fold, b: Fold, id: string, o: Outcome)
    requires SameStop(a, b)
    ensures SameStop(Take(event, a, id, o), Take(event, b, id, o))
  {
  }

  lemma TakeModifies(event: HookEvent, a: Fold, id: string, o: Outcome)
    ensures Take(event, a, id, o).modifications == if o.Modify? then a.modifications + [Attributed(id, o.toolInput)] else a.modifications
  {
    match o
    case Block(_) =>
    case RequestStop(_) =>
    case _ =>
  }

  lemma SameTake(event: HookEvent, a: Fold, b: Fold, id: string, o: Outcome)
    requires SameVerdict(a, b) && SameStop(a, b) && a.modifications == b.modifications
    ensures var a', b' := Take(event, a, id, o), Take(event, b, id, o);
      SameVerdict(a', b') && SameStop(a', b') && a'.modifications == b'.modifications
  {
    SameTakeVerdict(event, a, b, id, o);
    SameTakeStop(event, a, b, id, o);
    TakeModifies(event, a, id, o);
    TakeModifies(event, b, id, o);
  }

  // ----- every registration is accounted for ------------------------------------------------------------------------

  /** The handlers that run: up to and including the first that blocks. */
  function Ran(event: HookEvent, handlers: seq<Registration>): (n: nat)
    ensures n <= |handlers|
  {
    var first := FirstBlock(event, handlers);
    if first.Some? then first.value + 1 else |handlers|
  }

  function RecordOf(r: Registration, ran: bool): AuditRecord {
    AuditRecord(r.id, if !ran then Skipped else if r.result.Failed? then Failure else Outcome(r.result.outcome))
  }

  lemma TakeRecordsNothing(event: HookEvent, a: Fold, id: string, o: Outcome)
    ensures Take(event, a, id, o).audit == a.audit && Take(event, a, id, o).ranHandlers == a.ranHandlers
  {
    match o
    case Block(_) =>
    case RequestStop(_) =>
    case _ =>
  }

  lemma StepRecords(event: HookEvent, a: Fold, r: Registration)
    ensures var a' := Step(event, a, r);
      && a'.audit == a.audit + [RecordOf(r, !a.blocked)]
      && a'.ranHandlers == a.ranHandlers + if a.blocked then 0 else 1
  {
    match r.result
    case Failed(_) =>
    case Returned(o) => if !a.blocked { TakeRecordsNothing(event, Noted(a, r.id, Outcome(o)), r.id, o); }
  }

  /** A handler more runs exactly when nothing before it blocked. */
  lemma RanStep(event: HookEvent, base: Decision, init: seq<Registration>, last: Registration)
    ensures var a, n := FoldAll(event, base, init), Ran(event, init);
      && Ran(event, init + [last]) == n + (if a.blocked then 0 else 1)
      && (!a.blocked ==> n == |init|)
  {
    DecisionIsTheStrictest(event, base, init);
    assert (init + [last])[..|init|] == init;
  }

  /** One record per registration, saying whether it was among the first `n`, which ran. */
  ghost predicate Audits(audit: seq<AuditRecord>, handlers: seq<Registration>, n: nat) {
    |audit| == |handlers| && forall i :: 0 <= i < |handlers| ==> audit[i] == RecordOf(handlers[i], i < n)
  }

  /** A record more: of a handler that ran while all before it did, or of one that was skipped. */
  lemma AuditsGrow(audit: seq<AuditRecord>, init: seq<Registration>, last: Registration, n: nat, ran: bool)
    requires Audits(audit, init, n) && n <= |init| && (ran ==> n == |init|)
    ensures Audits(audit + [RecordOf(last, ran)], init + [last], n + if ran then 1 else 0)
  {
  }

  /** The fold over these handlers leaves one record for each of them. */
  ghost predicate AuditsAll(event: HookEvent, base: Decision, handlers: seq<Registration>) {
    var a, n := FoldAll(event, base, handlers), Ran(event, handlers);
    a.ranHandlers == n && Audits(a.audit, handlers, n)
  }

  /** One step of the fold writes the record of its handler. */
  lemma AuditStep(event: HookEvent, base: Decision, init: seq<Registration>, last: Registration)
    requires AuditsAll(event, base, init)
    ensures AuditsAll(event, base, init + [last])
  {
    var a, n, all := FoldAll(event, base, init), Ran(event, init), init + [last];
    FoldGrows(event, base, init, last);
    RanStep(event, base, init, last);
    StepRecords(event, a, last);
    AuditsGrow(a.audit, init, last, n, !a.blocked);
  }

  lemma FoldGrows(event: HookEvent, base: Decision, init: seq<Registration>, last: Registration)
    ensures FoldAll(event, base, init + [last]) == Step(event, FoldAll(event, base, init), last)
  {
    assert (init + [last])[..|init|] == init;
  }

  lemma NobodyIsAudited(event: HookEvent, base: Decision)
    ensures AuditsAll(event, base, [])
  {
    assert FirstBlock(event, []) == None;
  }

  /** Each registration leaves exactly one audit record, in order: what it did, or that a block skipped it. */
  lemma {:induction false} OneAuditRecordEach(event: HookEvent, base: Decision, handlers: seq<Registration>)
    ensures AuditsAll(event, base, handlers)
    decreases |handlers|
  {
    if handlers == [] {
      NobodyIsAudited(event, base);
    } else {
      var init, last := handlers[..|handlers| - 1], handlers[|handlers| - 1];
      assert init + [last] == handlers;
      OneAuditRecordEach(event, base, init);
      AuditStep(event, base, init, last);
    }
  }

  // ----- nothing a handler said is lost --------------------------------------------------------------------------------

  // What one handler contributes to each list, under its own id.
  function ModificationOf(r: Registration): seq<Attributed> {
    match r.result
    case Returned(Modify(input)) => [Attributed(r.id, input)]
    case _ => []
  }

  function ContextOf(r: Registration): seq<Attributed> {
    match r.result
    case Returned(Context(text)) => [Attributed(r.id, text)]
    case _ => []
  }

  function AnnotationOf(r: Registration): seq<Attributed> {
    match r.result
    case Returned(Annotate(notes)) => [Attributed(r.id, notes)]
    case _ => []
  }

  function ElevationOf(r: Registration): seq<Attributed> {
    match r.result
    case Returned(RequestAllow(reason)) => [Attributed(r.id, reason)]
    case Returned(RequestPassthrough(reason)) => [Attributed(r.id, reason)]
    case _ => []
  }

  function FailureOf(r: Registration): seq<Attributed> {
    match r.result
    case Failed(message) => [Attributed(r.id, message)]
    case _ => []
  }

  lemma TakeSays(event: HookEvent, a: Fold, r: Registration)
    requires r.result.Returned?
    ensures var a' := Take(event, a, r.id, r.result.outcome);
      a'.injected == a.injected + ContextOf(r) && a'.annotations == a.annotations + AnnotationOf(r)
  {
    match r.result.outcome
    case Block(_) =>
    case RequestStop(_) =>
    case _ =>
  }

  lemma TakeReports(event: HookEvent, a: Fold, r: Registration)
    requires r.result.Returned?
    ensures var a' := Take(event, a, r.id, r.result.outcome);
      a'.failures == a.failures + FailureOf(r) && a'.ignoredElevations == a.ignoredElevations + ElevationOf(r)
  {
    match r.result.outcome
    case Block(_) =>
    case RequestStop(_) =>
    case _ =>
  }

  lemma StepLists(event: HookEvent, a: Fold, r: Registration)
    requires !a.blocked
    ensures var a' := Step(event, a, r);
      && a'.modifications == a.modifications + ModificationOf(r) && a'.injected == a.injected + ContextOf(r)
      && a'.annotations == a.annotations + AnnotationOf(r) && a'.failures == a.failures + FailureOf(r)
      && a'.ignoredElevations == a.ignoredElevations + ElevationOf(r)
  {
    match r.result
    case Failed(_) =>
    case Returned(o) =>
      TakeModifies(event, Noted(a, r.id, Outcome(o)), r.id, o);
      TakeSays(event, Noted(a, r.id, Outcome(o)), r);
      TakeReports(event, Noted(a, r.id, Outcome(o)), r);
  }

  ghost predicate ListsAre(a: Fold, ran: seq<Registration>) {
    && a.modifications == FlatMap(ModificationOf, ran) && a.injected == FlatMap(ContextOf, ran)
    && a.annotations == FlatMap(AnnotationOf, ran) && a.failures == FlatMap(FailureOf, ran)
    && a.ignoredElevations == FlatMap(ElevationOf, ran)
  }

  /** Every proposal, context, annotation, failure and ignored elevation of the handlers that ran is kept, in order. */
  lemma {:induction false} NothingSaidIsLost(event: HookEvent, base: Decision, handlers: seq<Registration>)
    ensures ListsAre(FoldAll(event, base, handlers), handlers[..Ran(event, handlers)])
    decreases |handlers|
  {
    if handlers != [] {
      var init, last := handlers[..|handlers| - 1], handlers[|handlers| - 1];
      var a, ran := FoldAll(event, base, init), init[..Ran(event, init)];
      NothingSaidIsLost(event, base, init);
      RanGrows(event, base, init, last);
      assert handlers == init + [last];
      if !a.blocked {
        StepLists(event, a, last);
        FlatMapAppend(ModificationOf, ran, last);
        FlatMapAppend(ContextOf, ran, last);
        FlatMapAppend(AnnotationOf, ran, last);
        FlatMapAppend(FailureOf, ran, last);
        FlatMapAppend(ElevationOf, ran, last);
      }
    }
  }

  // ----- stopping ------------------------------------------------------------------------------------------------------

  predicate AsksToStop(r: Registration) { r.result.Returned? && r.result.outcome.RequestStop? }

  /** Handlers whose outcome prevents the next step: a stop, except inside a Stop, or a block that comes too late. */
  predicate Stops(event: HookEvent, r: Registration) {
    (AsksToStop(r) && event != Stop) || (r.result.Returned? && r.result.outcome.Block? && IsPost(event))
  }

  function FirstStop(event: HookEvent, handlers: seq<Registration>): (r: Option<nat>)
    ensures r.None? ==> forall i :: 0 <= i < |handlers| ==> !Stops(event, handlers[i])
    ensures r.Some? ==> r.value < |handlers| && Stops(event, handlers[r.value])
    ensures r.Some? ==> forall i :: 0 <= i < r.value ==> !Stops(event, handlers[i])
  {
    if handlers == [] then None
    else
      var init := handlers[..|handlers| - 1];
      assert handlers == init + [handlers[|handlers| - 1]];
      var before := FirstStop(event, init);
      if before.Some? then before else if Stops(event, handlers[|init|]) then Some(|init|) else None
  }

  lemma TakeStops(event: HookEvent, a: Fold, r: Registration)
    requires r.result.Returned? && a.stopped == a.stopReason.Some?
    ensures var a' := Take(event, a, r.id, r.result.outcome);
      && a'.stopped == (a.stopped || Stops(event, r))
      && a'.stopReason == (if !a.stopped && Stops(event, r) then Some(ReasonOf(r)) else a.stopReason)
  {
    match r.result.outcome
    case Block(_) =>
    case RequestStop(_) =>
    case _ =>
  }

  lemma TakeRefusesReentry(event: HookEvent, a: Fold, r: Registration)
    requires r.result.Returned?
    ensures Take(event, a, r.id, r.result.outcome).stopReentryRefused == (a.stopReentryRefused || (event == Stop && AsksToStop(r)))
  {
    match r.result.outcome
    case Block(_) =>
    case RequestStop(_) =>
    case _ =>
  }

  lemma StepStops(event: HookEvent, a: Fold, r: Registration)
    requires a.stopped == a.stopReason.Some?
    ensures var a' := Step(event, a, r);
      && a'.stopped == (a.stopped || (!a.blocked && Stops(event, r)))
      && a'.stopReason == (if !a.stopped && !a.blocked && Stops(event, r) then Some(ReasonOf(r)) else a.stopReason)
      && a'.stopReentryRefused == (a.stopReentryRefused || (!a.blocked && event == Stop && AsksToStop(r)))
  {
    match r.result
    case Failed(_) =>
    case Returned(o) =>
      if !a.blocked {
        TakeStops(event, Noted(a, r.id, Outcome(o)), r);
        TakeRefusesReentry(event, Noted(a, r.id, Outcome(o)), r);
      }
  }

  /** The stop fields say what these handlers asked for. */
  ghost predicate StopsAre(event: HookEvent, a: Fold, ran: seq<Registration>) {
    && (a.stopped <==> FirstStop(event, ran).Some?)
    && a.stopReason == (if a.stopped then Some(ReasonOf(ran[FirstStop(event, ran).value])) else None)
    && (a.stopReentryRefused <==> event == Stop && exists i :: 0 <= i < |ran| && AsksToStop(ran[i]))
  }

  lemma FirstStopGrows(event: HookEvent, ran: seq<Registration>, last: Registration)
    ensures FirstStop(event, ran + [last]) ==
      if FirstStop(event, ran).Some? then FirstStop(event, ran) else if Stops(event, last) then Some(|ran|) else None
  {
    assert (ran + [last])[..|ran|] == ran;
  }

  lemma StopsGrow(event: HookEvent, a: Fold, a': Fold, ran: seq<Registration>, last: Registration)
    requires StopsAre(event, a, ran)
    requires a'.stopped == (a.stopped || Stops(event, last))
    requires a'.stopReason == (if !a.stopped && Stops(event, last) then Some(ReasonOf(last)) else a.stopReason)
    requires a'.stopReentryRefused == (a.stopReentryRefused || (event == Stop && AsksToStop(last)))
    ensures StopsAre(event, a', ran + [last])
  {
    FirstStopGrows(event, ran, last);
    assert (ran + [last])[|ran|] == last && forall i :: 0 <= i < |ran| ==> (ran + [last])[i] == ran[i];
  }

  /** The stop fields, of the handlers that ran. */
  ghost predicate StopsOf(event: HookEvent, base: Decision, handlers: seq<Registration>) {
    StopsAre(event, FoldAll(event, base, handlers), handlers[..Ran(event, handlers)])
  }

  lemma StopsStep(event: HookEvent, base: Decision, init: seq<Registration>, last: Registration)
    requires StopsOf(event, base, init)
    ensures StopsOf(event, base, init + [last])
  {
    var a, ran := FoldAll(event, base, init), init[..Ran(event, init)];
    FoldGrows(event, base, init, last);
    RanGrows(event, base, init, last);
    StepStops(event, a, last);
    if !a.blocked { StopsGrow(event, a, Step(event, a, last), ran, last); }
  }

  lemma NobodyStops(event: HookEvent, base: Decision)
    ensures StopsOf(event, base, [])
  {
    assert FirstBlock(event, []) == None && FirstStop(event, []) == None;
  }

  /**
   The next step is prevented exactly when a handler that ran asked for it, and the first one gives the
   reason; a handler of the Stop event that asks to stop is only recorded.
   */
  lemma {:induction false} StoppedByTheFirst(event: HookEvent, base: Decision, handlers: seq<Registration>)
    ensures StopsOf(event, base, handlers)
    decreases |handlers|
  {
    if handlers == [] {
      NobodyStops(event, base);
    } else {
      var init, last := handlers[..|handlers| - 1], handlers[|handlers| - 1];
      assert init + [last] == handlers;
      StoppedByTheFirst(event, base, init);
      StopsStep(event, base, init, last);
    }
  }

  /** The handlers that ran, one registration later. */
  lemma RanGrows(event: HookEvent, base: Decision, init: seq<Registration>, last: Registration)
    ensures var ran, all := init[..Ran(event, init)], init + [last];
      all[..Ran(event, all)] == if FoldAll(event, base, init).blocked then ran else ran + [last]
  {
    RanStep(event, base, init, last);
  }
}
