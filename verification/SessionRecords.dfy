/**
 What a log says, told from its events: the conversation each kind of event adds to, the turn that is looked at, and
 every field of the approval record that is offered.
 */
module SessionRecords {
  import opened Options
  import opened Sequences
  import opened Sessions

  // ----- the conversation -----------------------------------------------------------------------------------------------

  /**
   What one more event adds to the conversation: the text of the user who starts a turn, what the assistant says
   unless it is empty, each tool call and each result; and nothing for any other event.
   */
  lemma HistoryGrows(events: seq<Event>, e: Event)
    ensures var before, after, p := History(events), History(events + [e]), e.payload;
      if p.TurnStarted? then after == before + [UserMessage(p.userText)]
      else if p.ItemAppended? && p.item.body.AssistantMessage? && p.item.body.text != "" then after == before + [ModelMessage(p.item.body.text)]
      else if p.ItemAppended? && p.item.body.ToolCall?
        then after == before + [FunctionCall(p.item.body.callId, p.item.body.toolName, p.item.body.argumentsJson)]
      else if p.ItemAppended? && p.item.body.ToolResult?
        then after == before + [FunctionOutput(p.item.body.callId, p.item.body.toolName, p.item.body.preview)]
      else after == before
  {
    FlatMapAppend(Says, events, e);
  }

  lemma NothingSaid()
    ensures History([]) == []
  {
  }

  // ----- the last turn ----------------------------------------------------------------------------------------------------

  /** The event at `i` starts the turn, and no later event starts one. */
  ghost predicate LatestStart(events: seq<Event>, turn: Id, i: nat) {
    && i < |events| && events[i].payload.TurnStarted? && events[i].turn == Some(turn)
    && forall j :: i < j < |events| && events[j].payload.TurnStarted? ==> events[j].turn == None
  }

  lemma {:induction false} LastTurnIsTheLatest(events: seq<Event>)
    ensures LastTurn(events).Some? ==> exists i: nat :: LatestStart(events, LastTurn(events).value, i)
    ensures LastTurn(events).None? ==> forall e :: e in events && e.payload.TurnStarted? ==> e.turn == None
    decreases |events|
  {
    if events != [] {
      var init, e := events[..|events| - 1], events[|events| - 1];
      LastTurnIsTheLatest(init);
      assert events == init + [e];
      if e.payload.TurnStarted? && e.turn.Some? {
        assert LatestStart(events, e.turn.value, |init|);
      } else if LastTurn(init).Some? {
        var i: nat :| LatestStart(init, LastTurn(init).value, i);
        assert LatestStart(events, LastTurn(init).value, i);
      }
    }
  }

  // ----- the record -------------------------------------------------------------------------------------------------------

  /** The first event of the turn. */
  ghost predicate FirstOfTurn(events: seq<Event>, turn: Id, i: nat) {
    i < |events| && events[i].turn == Some(turn) && forall j :: 0 <= j < i ==> events[j].turn != Some(turn)
  }

  lemma {:induction false} FirstOfIsFirst(events: seq<Event>, turn: Id)
    ensures FirstOf(events, turn).Some? ==> exists i: nat :: FirstOfTurn(events, turn, i) && FirstOf(events, turn) == Some(events[i])
    ensures FirstOf(events, turn).None? ==> forall j :: 0 <= j < |events| ==> events[j].turn != Some(turn)
    decreases |events|
  {
    if events != [] {
      var init, e := events[..|events| - 1], events[|events| - 1];
      FirstOfIsFirst(init, turn);
      assert events == init + [e];
      if FirstOf(init, turn).Some? {
        var i: nat :| FirstOfTurn(init, turn, i) && FirstOf(init, turn) == Some(init[i]);
        assert FirstOfTurn(events, turn, i);
      } else if e.turn == Some(turn) {
        assert FirstOfTurn(events, turn, |init|);
      }
    }
  }

  /** The event asks for an approval that no event of the turn resolves. */
  ghost predicate AsksInVain(events: seq<Event>, turn: Id, e: Event) {
    && e.turn == Some(turn) && e.payload.ApprovalRequested?
    && forall r :: r in events && r.turn == Some(turn) ==> r.payload != ApprovalResolved(e.payload.callId)
  }

  ghost predicate LatestInVain(events: seq<Event>, turn: Id, i: nat) {
    && i < |events| && AsksInVain(events, turn, events[i])
    && forall j :: i < j < |events| ==> !AsksInVain(events, turn, events[j])
  }

  lemma OpenAsksInVain(events: seq<Event>, turn: Id, e: Event)
    ensures IsOpen(events, turn, e) <==> AsksInVain(events, turn, e)
  {
  }

  /** A tool call of the turn whose result is not in the log. */
  ghost predicate HasNoResult(events: seq<Event>, turn: Id, e: Event) {
    && e.turn == Some(turn) && e.payload.ItemAppended? && e.payload.item.body.ToolCall?
    && forall r :: r in events && r.turn == Some(turn) && r.payload.ItemAppended? && r.payload.item.body.ToolResult? ==>
         r.payload.item.body.callId != e.payload.item.body.callId
  }

  ghost function CallsBefore(events: seq<Event>, turn: Id, n: nat): nat
    requires n <= |events|
  {
    if n == 0 then 0 else CallsBefore(events, turn, n - 1) + if HasNoResult(events, turn, events[n - 1]) then 1 else 0
  }

  lemma CallHasNoResult(events: seq<Event>, turn: Id, e: Event)
    ensures InTurn(e, turn) && IsCall(e) && !Settled(events, turn, e.payload.item.body.callId) <==> HasNoResult(events, turn, e)
  {
    if InTurn(e, turn) && IsCall(e) && !Settled(events, turn, e.payload.item.body.callId) {
      forall r | r in events && r.turn == Some(turn) && r.payload.ItemAppended? && r.payload.item.body.ToolResult?
        ensures r.payload.item.body.callId != e.payload.item.body.callId
      {
        assert IsResultFor(r, r.payload.item.body.callId);
      }
    }
  }

  lemma UnsettledStep(events: seq<Event>, turn: Id, n: nat)
    requires n < |events|
    ensures Unsettled(events, turn, events[..n + 1]) ==
      Unsettled(events, turn, events[..n]) + if HasNoResult(events, turn, events[n]) then [events[n].payload.item] else []
  {
    assert events[..n + 1][..n] == events[..n];
    CallHasNoResult(events, turn, events[n]);
  }

  lemma {:induction false} UnsettledAreCounted(events: seq<Event>, turn: Id, n: nat)
    requires n <= |events|
    ensures |Unsettled(events, turn, events[..n])| == CallsBefore(events, turn, n)
    decreases n
  {
    if n > 0 {
      UnsettledAreCounted(events, turn, n - 1);
      UnsettledStep(events, turn, n - 1);
    }
  }

  lemma {:induction false} CallInItsTurn(events: seq<Event>, turn: Id, i: nat, n: nat)
    requires i < n <= |events| && HasNoResult(events, turn, events[i])
    ensures var calls, k := Unsettled(events, turn, events[..n]), CallsBefore(events, turn, i); k < |calls| && calls[k] == events[i].payload.item
    decreases n
  {
    UnsettledStep(events, turn, n - 1);
    if i < n - 1 { CallInItsTurn(events, turn, i, n - 1); } else { UnsettledAreCounted(events, turn, i); }
  }

  /** The calls are those without a result, each in its turn and no others. */
  ghost predicate ListsTheCalls(events: seq<Event>, turn: Id, calls: seq<Item>) {
    && |calls| == CallsBefore(events, turn, |events|)
    && forall i :: 0 <= i < |events| && HasNoResult(events, turn, events[i]) ==>
         var k := CallsBefore(events, turn, i); k < |calls| && calls[k] == events[i].payload.item
  }

  lemma UnsettledListsTheCalls(events: seq<Event>, turn: Id)
    ensures ListsTheCalls(events, turn, Unsettled(events, turn, events))
  {
    assert events[..|events|] == events;
    UnsettledAreCounted(events, turn, |events|);
    forall i | 0 <= i < |events| && HasNoResult(events, turn, events[i])
      ensures var calls, k := Unsettled(events, turn, events), CallsBefore(events, turn, i); k < |calls| && calls[k] == events[i].payload.item
    {
      CallInItsTurn(events, turn, i, |events|);
    }
  }

  /** What a record says, read off the log. */
  ghost predicate Records(events: seq<Event>, r: PendingApproval) {
    && (exists i: nat :: LatestStart(events, r.turn, i))
    && (forall e :: e in events && e.turn == Some(r.turn) ==> !e.payload.TurnEnded?)
    && (exists i: nat :: FirstOfTurn(events, r.turn, i) && r.correlation == events[i].correlation && r.profile == events[i].profile)
    && (exists i: nat :: LatestInVain(events, r.turn, i) && events[i].payload == ApprovalRequested(Some(r.callId), r.action, r.risk))
    && ListsTheCalls(events, r.turn, r.calls) && r.calls != []
  }

  /** Where the fields of the record come from. */
  lemma FieldsOfTheRecord(events: seq<Event>)
    requires Pending(events).Some?
    ensures var r := Pending(events).value;
      && LastTurn(events) == Some(r.turn) && !Ended(events, r.turn)
      && FirstOf(events, r.turn).Some? && r.correlation == FirstOf(events, r.turn).value.correlation
      && r.profile == FirstOf(events, r.turn).value.profile
      && LastOpen(events, r.turn, events).Some?
      && LastOpen(events, r.turn, events).value.payload == ApprovalRequested(Some(r.callId), r.action, r.risk)
      && r.calls == Unsettled(events, r.turn, events) && r.calls != []
  {
  }

  lemma NoEnd(events: seq<Event>, turn: Id)
    requires !Ended(events, turn)
    ensures forall e :: e in events && e.turn == Some(turn) ==> !e.payload.TurnEnded?
  {
    forall e | e in events && e.turn == Some(turn) ensures !e.payload.TurnEnded? { assert InTurn(e, turn); }
  }

  /**
   The record that is offered: the last turn started, which has no end; the correlation id and the profile of its
   first event; the call, the action and the risk of its latest unresolved request; and its calls without a result,
   in order, of which there is one at least.
   */
  lemma RecordIsReadOffTheLog(events: seq<Event>)
    ensures Pending(events).Some? ==> Records(events, Pending(events).value)
  {
    if Pending(events).Some? {
      var r := Pending(events).value;
      FieldsOfTheRecord(events);
      NoEnd(events, r.turn);
      LastTurnIsTheLatest(events);
      FirstOfIsFirst(events, r.turn);
      UnsettledListsTheCalls(events, r.turn);
      OpenIsLatestInVain(events, r.turn);
    }
  }

  lemma OpenIsLatestInVain(events: seq<Event>, turn: Id)
    requires LastOpen(events, turn, events).Some?
    ensures exists i: nat :: LatestInVain(events, turn, i) && LastOpen(events, turn, events) == Some(events[i])
  {
    LastOpenIsLast(events, turn, events);
    forall e ensures IsOpen(events, turn, e) <==> AsksInVain(events, turn, e) { OpenAsksInVain(events, turn, e); }
    var i: nat :| i < |events| && LastOpen(events, turn, events) == Some(events[i]) && IsOpen(events, turn, events[i])
                  && forall j :: i < j < |events| ==> !IsOpen(events, turn, events[j]);
    assert LatestInVain(events, turn, i);
  }

  /** There is a record to be read off the log exactly when one is offered, and it is that one. */
  lemma OfferedExactlyWhenRecorded(events: seq<Event>, r: PendingApproval)
    ensures Records(events, r) ==> Pending(events).Some?
  {
    if Records(events, r) {
      LastTurnIsTheLatest(events);
      var i: nat :| LatestStart(events, r.turn, i);
      SameLatest(events, r.turn, i);
      var k: nat :| LatestInVain(events, r.turn, k) && events[k].payload == ApprovalRequested(Some(r.callId), r.action, r.risk);
      forall e ensures IsOpen(events, r.turn, e) <==> AsksInVain(events, r.turn, e) { OpenAsksInVain(events, r.turn, e); }
      var c := SomeCall(events, r.turn, |events|);
      CallHasNoResult(events, r.turn, events[c]);
      PendingExactlyWhen(events);
    }
  }

  lemma SameLatest(events: seq<Event>, turn: Id, i: nat)
    requires LatestStart(events, turn, i)
    ensures LastTurn(events) == Some(turn)
  {
    LastTurnIsTheLatest(events);
    assert events[i] in events;
    if LastTurn(events).Some? {
      var k: nat :| LatestStart(events, LastTurn(events).value, k);
    }
  }

  lemma {:induction false} SomeCall(events: seq<Event>, turn: Id, n: nat) returns (c: nat)
    requires n <= |events| && CallsBefore(events, turn, n) > 0
    ensures c < n && HasNoResult(events, turn, events[c])
    decreases n
  {
    if HasNoResult(events, turn, events[n - 1]) { c := n - 1; } else { c := SomeCall(events, turn, n - 1); }
  }
}
