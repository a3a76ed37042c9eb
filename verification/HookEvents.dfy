/**
 What a block, a stop and a demand do at which event: the fold's outcome told from what the handlers returned,
 event by event and decision by decision.
 */
module HookEvents {
  import opened Options
  import opened HookFold

  predicate Says(r: Registration, o: Outcome) { r.result == Returned(o) }

  predicate SaysBlock(r: Registration) { r.result.Returned? && r.result.outcome.Block? }
  predicate SaysStop(r: Registration) { r.result.Returned? && r.result.outcome.RequestStop? }

  predicate SomeBlock(handlers: seq<Registration>) { exists i :: 0 <= i < |handlers| && SaysBlock(handlers[i]) }
  predicate SomeSays(handlers: seq<Registration>, o: Outcome) { exists i :: 0 <= i < |handlers| && Says(handlers[i], o) }

  /** The handler at `i` blocks, and none before it. */
  predicate BlocksFirst(handlers: seq<Registration>, i: nat) {
    i < |handlers| && SaysBlock(handlers[i]) && forall k :: 0 <= k < i ==> !SaysBlock(handlers[k])
  }

  /** The handler at `i` asks for a stop, with no stop before it and no block before it. */
  predicate StopsFirst(handlers: seq<Registration>, i: nat) {
    i < |handlers| && SaysStop(handlers[i]) && forall k :: 0 <= k < i ==> !SaysStop(handlers[k]) && !SaysBlock(handlers[k])
  }

  /** The handler at `i` blocks or asks for a stop, and none before it. */
  predicate EndsFirst(handlers: seq<Registration>, i: nat) {
    && i < |handlers| && (SaysBlock(handlers[i]) || SaysStop(handlers[i]))
    && forall k :: 0 <= k < i ==> !SaysStop(handlers[k]) && !SaysBlock(handlers[k])
  }

  // ----- before and around the action -----------------------------------------------------------------------------

  lemma BlocksAt(event: HookEvent, r: Registration)
    ensures event.PreToolUse? || event.Stop? || event.OtherEvent? ==> (Blocks(event, r) <==> SaysBlock(r))
    ensures event.PostToolUse? || event.PostToolUseFailure? || event.PostToolBatch? ==> !Blocks(event, r)
  {
  }

  /**
   Before a tool runs, at a Stop, and at every event that is no tool result: the run is blocked if and only if some
   handler blocks. Then it is denied, for the first block's reason; the handlers up to that block ran and the
   later ones were skipped; and a block stops nothing.
   */
  lemma BlockDeniesTheAction(event: HookEvent, base: Decision, handlers: seq<Registration>)
    requires event.PreToolUse? || event.Stop? || event.OtherEvent?
    ensures var a := FoldAll(event, base, handlers);
      && (a.blocked <==> SomeBlock(handlers))
      && (a.blocked ==> a.decision == Deny)
      && (!a.blocked ==> a.blockReason == None && a.ranHandlers == |handlers|)
      && (forall i: nat :: BlocksFirst(handlers, i) ==>
            a.blockReason == Some(Attributed(handlers[i].id, handlers[i].result.outcome.reason)) && a.ranHandlers == i + 1)
  {
    DecisionIsTheStrictest(event, base, handlers);
    OneAuditRecordEach(event, base, handlers);
    NoBlockNoReason(event, base, handlers);
    FirstOfTheBlocks(event, handlers);
  }

  /** The first block, by what the handlers say. */
  lemma FirstOfTheBlocks(event: HookEvent, handlers: seq<Registration>)
    requires event.PreToolUse? || event.Stop? || event.OtherEvent?
    ensures FirstBlock(event, handlers).Some? <==> SomeBlock(handlers)
    ensures forall i: nat :: BlocksFirst(handlers, i) ==> FirstBlock(event, handlers) == Some(i)
  {
    forall r ensures Blocks(event, r) <==> SaysBlock(r) { BlocksAt(event, r); }
    var first := FirstBlock(event, handlers);
    if first.Some? { assert SaysBlock(handlers[first.value]); }
    forall i: nat | BlocksFirst(handlers, i) ensures first == Some(i) { assert Blocks(event, handlers[i]); }
  }

  lemma {:induction false} NoBlockNoReason(event: HookEvent, base: Decision, handlers: seq<Registration>)
    ensures var a := FoldAll(event, base, handlers); !a.blocked ==> a.blockReason == None
    decreases |handlers|
  {
    if handlers != [] {
      var init, last := handlers[..|handlers| - 1], handlers[|handlers| - 1];
      NoBlockNoReason(event, base, init);
      DecisionIsTheStrictest(event, base, init);
      StepDecides(event, FoldAll(event, base, init), last);
    }
  }

  /** At these events only a request to stop stops, if no block came before it; at a Stop not even that. */
  lemma StopIsARequest(event: HookEvent, base: Decision, handlers: seq<Registration>)
    requires event.PreToolUse? || event.Stop? || event.OtherEvent?
    ensures var a := FoldAll(event, base, handlers);
      && (a.stopped <==> !event.Stop? && exists i: nat :: StopsFirst(handlers, i))
      && (!a.stopped ==> a.stopReason == None)
      && (forall i: nat :: !event.Stop? && StopsFirst(handlers, i) ==>
            a.stopReason == Some(Attributed(handlers[i].id, handlers[i].result.outcome.reason)))
      && (a.stopReentryRefused <==> event.Stop? && exists i: nat :: StopsFirst(handlers, i))
  {
    StoppedByTheFirst(event, base, handlers);
    forall r ensures Blocks(event, r) <==> SaysBlock(r) { BlocksAt(event, r); }
    var n := Ran(event, handlers);
    RanIsUpToTheBlock(event, handlers);
    FirstRequest(event, handlers, n);
  }

  predicate NoBlockBefore(handlers: seq<Registration>, i: nat) {
    i <= |handlers| && forall k :: 0 <= k < i ==> !SaysBlock(handlers[k])
  }

  /** The handlers that ran are those with no block before them. */
  lemma RanIsUpToTheBlock(event: HookEvent, handlers: seq<Registration>)
    requires forall r :: Blocks(event, r) <==> SaysBlock(r)
    ensures forall i :: 0 <= i < |handlers| ==> (i < Ran(event, handlers) <==> NoBlockBefore(handlers, i))
  {
    var first := FirstBlock(event, handlers);
    if first.Some? { assert SaysBlock(handlers[first.value]); }
  }

  /** The first stop among the handlers that ran is the first request with nothing before it that ends the run. */
  lemma FirstRequest(event: HookEvent, handlers: seq<Registration>, n: nat)
    requires event.PreToolUse? || event.Stop? || event.OtherEvent?
    requires n <= |handlers|
    requires forall i :: 0 <= i < |handlers| ==> (i < n <==> NoBlockBefore(handlers, i))
    ensures var first := FirstStop(event, handlers[..n]);
      && (first.Some? <==> !event.Stop? && exists i: nat :: StopsFirst(handlers, i))
      && (forall i: nat :: !event.Stop? && StopsFirst(handlers, i) ==> first == Some(i))
    ensures (exists i :: 0 <= i < n && AsksToStop(handlers[..n][i])) <==> exists i: nat :: StopsFirst(handlers, i)
  {
    var ran := handlers[..n];
    var first := FirstStop(event, ran);
    assert forall i :: 0 <= i < n ==> ran[i] == handlers[i];
    forall i | 0 <= i < n ensures Stops(event, ran[i]) <==> !event.Stop? && SaysStop(handlers[i]) { }
    if first.Some? { assert NoBlockBefore(handlers, first.value); assert StopsFirst(handlers, first.value); }
    forall i: nat | StopsFirst(handlers, i) ensures i < n { assert NoBlockBefore(handlers, i); }
    forall i: nat | !event.Stop? && StopsFirst(handlers, i) ensures first == Some(i) { assert Stops(event, ran[i]); }
    if j :| 0 <= j < n && AsksToStop(ran[j]) { assert NoBlockBefore(handlers, j); var i := LeastRequest(handlers, j); }
    if i: nat :| StopsFirst(handlers, i) { assert AsksToStop(ran[i]); }
  }

  /** Of the requests up to one with no block before it, the earliest. */
  lemma {:induction false} LeastRequest(handlers: seq<Registration>, j: nat) returns (i: nat)
    requires j < |handlers| && SaysStop(handlers[j]) && forall k :: 0 <= k < j ==> !SaysBlock(handlers[k])
    ensures StopsFirst(handlers, i)
    decreases j
  {
    if k: nat :| k < j && SaysStop(handlers[k]) { i := LeastRequest(handlers, k); } else { i := j; }
  }

  // ----- after a tool has run --------------------------------------------------------------------------------------

  /**
   After a tool result nothing is blocked and every handler runs. The next step is prevented if and only if some
   handler blocks or asks for a stop, and the first of them gives the reason.
   */
  lemma ResultsCannotBeBlocked(event: HookEvent, base: Decision, handlers: seq<Registration>)
    requires event.PostToolUse? || event.PostToolUseFailure? || event.PostToolBatch?
    ensures var a := FoldAll(event, base, handlers);
      && !a.blocked && a.blockReason == None && a.ranHandlers == |handlers| && !a.stopReentryRefused
      && (a.stopped <==> exists i: nat :: EndsFirst(handlers, i))
      && (!a.stopped ==> a.stopReason == None)
      && (forall i: nat :: EndsFirst(handlers, i) ==>
            a.stopReason == Some(Attributed(handlers[i].id, handlers[i].result.outcome.reason)))
  {
    DecisionIsTheStrictest(event, base, handlers);
    OneAuditRecordEach(event, base, handlers);
    NoBlockNoReason(event, base, handlers);
    StoppedByTheFirst(event, base, handlers);
    forall r ensures !Blocks(event, r) { BlocksAt(event, r); }
    assert FirstBlock(event, handlers) == None && handlers[..|handlers|] == handlers;
    FirstEnd(event, handlers);
  }

  lemma FirstEnd(event: HookEvent, handlers: seq<Registration>)
    requires event.PostToolUse? || event.PostToolUseFailure? || event.PostToolBatch?
    ensures var first := FirstStop(event, handlers);
      && (first.Some? <==> exists i: nat :: EndsFirst(handlers, i))
      && (forall i: nat :: EndsFirst(handlers, i) ==> first == Some(i))
  {
    var first := FirstStop(event, handlers);
    forall r ensures Stops(event, r) <==> SaysBlock(r) || SaysStop(r) { }
    if first.Some? { assert EndsFirst(handlers, first.value); }
    forall i: nat | EndsFirst(handlers, i) ensures first == Some(i) { assert Stops(event, handlers[i]); }
  }

  // ----- the decision ------------------------------------------------------------------------------------------------

  /**
   The decision, by name: deny if that is the base, or a handler asked for it, or blocked an action that can still
   be blocked; else ask if that is the base or a handler asked for it; else the base as it was.
   */
  lemma DecisionByName(event: HookEvent, base: Decision, handlers: seq<Registration>)
    ensures var canBlock := event.PreToolUse? || event.Stop? || event.OtherEvent?;
      FoldAll(event, base, handlers).decision ==
        if base == Deny || SomeSays(handlers, RequestDeny) || (canBlock && SomeBlock(handlers)) then Deny
        else if base == Decision.Ask || SomeSays(handlers, RequestAsk) then Decision.Ask
        else base
  {
    DecisionIsTheStrictest(event, base, handlers);
    DemandsByName(event, base, handlers);
  }

  lemma DemandByName(event: HookEvent, r: Registration)
    ensures var canBlock := event.PreToolUse? || event.Stop? || event.OtherEvent?;
      Demand(event, r) == if Says(r, RequestDeny) || (canBlock && SaysBlock(r)) then 2 else if Says(r, RequestAsk) then 1 else 0
  {
  }

  lemma DemandsByName(event: HookEvent, base: Decision, handlers: seq<Registration>)
    ensures var canBlock := event.PreToolUse? || event.Stop? || event.OtherEvent?;
      Strictest(event, base, handlers) ==
        if base == Deny || SomeSays(handlers, RequestDeny) || (canBlock && SomeBlock(handlers)) then 2
        else if base == Decision.Ask || SomeSays(handlers, RequestAsk) then 1
        else 0
  {
    forall r ensures
      Demand(event, r) == if Says(r, RequestDeny) || ((event.PreToolUse? || event.Stop? || event.OtherEvent?) && SaysBlock(r)) then 2
                          else if Says(r, RequestAsk) then 1 else 0
    {
      DemandByName(event, r);
    }
  }

  /** A block at PreToolUse, on an allowed action. */
  lemma PreToolUseBlocks()
    ensures var a := FoldAll(PreToolUse, Allow, [Registration("h", [], Returned(Block("no")))]);
      a.blocked && a.decision == Deny && !a.stopped && a.blockReason == Some(Attributed("h", "no"))
  {
    var handlers := [Registration("h", [], Returned(Block("no")))];
    BlockDeniesTheAction(PreToolUse, Allow, handlers);
    StopIsARequest(PreToolUse, Allow, handlers);
    assert SaysBlock(handlers[0]) && BlocksFirst(handlers, 0);
  }
}
