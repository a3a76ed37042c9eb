/**
 Forking a thread: a new thread receives a copy of the conversation up to a point, under its own turn
 and item ids, and the original is left alone (apps/cli/src/sessions.ts).
 */
module SessionFork {
  import opened Options
  import opened Sequences
  import opened Sessions

  // ----- what a fork writes -------------------------------------------------------------------------------

  /** A fork under way: the events to append, the ids already renamed, and the next id to be minted. */
  datatype Copying = Copying(drafts: seq<Event>, ids: map<Id, Id>, next: Id)

  function Remap(c: Copying, source: Id): Copying {
    if source in c.ids then c else c.(ids := c.ids[source := c.next], next := c.next + 1)
  }

  predicate IsCopied(e: Event) { e.payload.TurnStarted? || e.payload.ItemAppended? }

  /** The event's turn and item ids all have new ones. */
  predicate Renameable(e: Event, ids: map<Id, Id>) {
    match e.payload
    case TurnStarted(_) => e.turn.Some? && e.turn.value in ids
    case ItemAppended(item) => item.turn in ids && item.id in ids
    case _ => false
  }

  /** The event under the new thread's identity, every turn and item id replaced through one map. */
  function Renamed(e: Event, ids: map<Id, Id>, base: Event): Event
    requires Renameable(e, ids)
  {
    match e.payload
    case TurnStarted(_) => base.(turn := Some(ids[e.turn.value]), payload := e.payload)
    case ItemAppended(item) => CopyOfItem(base, item, ids[item.turn], ids[item.id])
  }

  function CopyOfItem(base: Event, item: Item, turn: Id, id: Id): Event {
    base.(turn := Some(turn), item := Some(id), payload := ItemAppended(Item(id, turn, base.thread, item.body)))
  }

  predicate Anonymous(e: Event) { e.payload.TurnStarted? && e.turn.None? }

  /** Mint what the event's ids still need. */
  function Learn(c: Copying, e: Event): (c': Copying)
    requires IsCopied(e) && !Anonymous(e)
    ensures Renameable(e, c'.ids) && c'.drafts == c.drafts
  {
    match e.payload
    case TurnStarted(_) => Remap(c, e.turn.value)
    case ItemAppended(item) => Remap(Remap(c, item.turn), item.id)
  }

  function AddDraft(c: Copying, d: Event): Copying { c.(drafts := c.drafts + [d]) }

  function CopyEvent(c: Copying, e: Event, base: Event): Copying {
    if !IsCopied(e) then c
    else if Anonymous(e) then AddDraft(c.(next := c.next + 1), base.(turn := Some(c.next), payload := e.payload))
    else AddDraft(Learn(c, e), Renamed(e, Learn(c, e).ids, base))
  }

  function CopyAll(c: Copying, events: seq<Event>, base: Event): Copying {
    if events == [] then c else CopyEvent(CopyAll(c, events[..|events| - 1], base), events[|events| - 1], base)
  }

  /** The events before the first one past the cutoff. */
  function Upto(events: seq<Event>, cutoff: nat): seq<Event> {
    if events == [] || events[0].number > cutoff then [] else [events[0]] + Upto(events[1..], cutoff)
  }

  function Cutoff(events: seq<Event>, atSeq: Option<nat>): nat {
    if atSeq.Some? then atSeq.value else if events == [] then 0 else events[|events| - 1].number
  }

  function ForkName(name: Option<string>): Option<string> {
    if name.Some? && name.value != "" then Some(name.value + " (fork)") else None
  }

  function Base(row: ThreadRow, t: ThreadId, correlation: Id): Event {
    Event(0, t, None, None, correlation, row.profile, OtherPayload("draft"))
  }

  function Created(base: Event, row: ThreadRow): Event {
    base.(payload := ThreadCreated(ForkName(row.name), row.cwd, row.repo))
  }

  function Lineage(base: Event, from: ThreadId, cutoff: nat): Event { base.(payload := ThreadForked(from, cutoff)) }

  /** The state of a fork before its first copy: two events to append, nothing renamed. */
  function Start(base: Event, row: ThreadRow, from: ThreadId, cutoff: nat, next: Id): Copying {
    Copying([Created(base, row), Lineage(base, from, cutoff)], map[], next)
  }

  /** The part of a thread a fork copies. */
  function Kept(s: Store, from: ThreadId, atSeq: Option<nat>): seq<Event> {
    Upto(Read(s, from), Cutoff(Read(s, from), atSeq))
  }

  function Opening(s: Store, from: ThreadId, to: ThreadId, atSeq: Option<nat>, next: Id): Copying
    requires from in s.threads
  {
    Start(Base(s.threads[from], to, next), s.threads[from], from, Cutoff(Read(s, from), atSeq), next + 1)
  }

  /** Everything a fork of an existing thread appends, with the ids it mints from `next` on. */
  function Plan(s: Store, from: ThreadId, to: ThreadId, atSeq: Option<nat>, next: Id): Copying
    requires from in s.threads
  {
    CopyAll(Opening(s, from, to, atSeq, next), Kept(s, from, atSeq), Base(s.threads[from], to, next))
  }

  datatype ForkResult = Forked(thread: ThreadId, from: ThreadId, copiedEvents: int) | NoSuchSession | Rejected

  class IdSource {
    var upcoming: Id

    constructor (start: Id)
      ensures upcoming == start
    {
      upcoming := start;
    }

    method Next() returns (id: Id)
      modifies this
      ensures id == old(upcoming) && upcoming == id + 1
    {
      id := upcoming;
      upcoming := upcoming + 1;
    }
  }

  // ----- stores that appends build --------------------------------------------------------------------------

  predicate Started(e: Event, turn: Id) { e.payload.TurnStarted? && e.turn == Some(turn) }

  /** Ids in use were minted before `next`; a started turn has a row. */
  ghost predicate EventOk(e: Event, turns: set<Id>, next: Id) {
    && (e.turn.Some? ==> e.turn.value < next)
    && (e.payload.TurnStarted? ==> e.turn.Some? && e.turn.value in turns)
    && (e.payload.ItemAppended? ==> e.payload.item.turn < next && e.payload.item.id < next)
  }

  /** Sequence numbers rise and no turn starts twice. */
  ghost predicate LogOk(events: seq<Event>) {
    && (forall i, j :: 0 <= i < j < |events| ==> events[i].number < events[j].number)
    && (forall i, j, turn :: 0 <= i < j < |events| && Started(events[i], turn) ==> !Started(events[j], turn))
  }

  ghost predicate Valid(s: Store, next: Id) {
    && (forall t :: t in s.log ==> LogOk(s.log[t]))
    && (forall t, e :: t in s.log && e in s.log[t] ==> EventOk(e, s.turns, next))
    && (forall turn :: turn in s.turns ==> turn < next)
  }

  lemma AppendKeeps(s: Store, e: Event, next: Id, next': Id)
    requires Valid(s, next) && !Refused(s, e) && next <= next'
    requires EventOk(e, s.turns + (if e.payload.TurnStarted? then {e.turn.value} else {}), next')
    ensures Valid(Appended(s, e), next')
  {
    var s', before := Appended(s, e), Read(s, e.thread);
    var e' := e.(number := NextSeq(before));
    forall t | t in s'.log ensures LogOk(s'.log[t]) {
      if t == e.thread {
        assert s'.log[t] == before + [e'];
        forall i, turn | 0 <= i < |before| && Started(before[i], turn) ensures !Started(e', turn) {
          assert EventOk(before[i], s.turns, next);
        }
      }
    }
    forall t, d | t in s'.log && d in s'.log[t] ensures EventOk(d, s'.turns, next') {
      if d in Read(s, t) {
        assert EventOk(d, s.turns, next);
      } else {
        assert t == e.thread && s'.log[t] == before + [e'] && d == e';
        assert EventOk(e, s'.turns, next');
      }
    }
  }

  // ----- appending a run of events ------------------------------------------------------------------------------

  function Stamped(drafts: seq<Event>, first: nat): (r: seq<Event>)
    ensures |r| == |drafts|
    ensures forall i :: 0 <= i < |r| ==> r[i] == drafts[i].(number := first + i)
  {
    seq(|drafts|, i requires 0 <= i < |drafts| => drafts[i].(number := first + i))
  }

  /** Every thread but `t` has the log and the row it had. */
  ghost predicate OthersKept(s: Store, s': Store, t: ThreadId) {
    forall u :: u != t ==> OtherKept(s, s', u)
  }

  ghost predicate OtherKept(s: Store, s': Store, u: ThreadId) {
    Read(s', u) == Read(s, u) && (u in s'.threads <==> u in s.threads) && (u in s.threads ==> s'.threads[u] == s.threads[u])
  }

  lemma AppendedLog(s: Store, e: Event)
    requires !Refused(s, e)
    ensures Read(Appended(s, e), e.thread) == Read(s, e.thread) + [e.(number := NextSeq(Read(s, e.thread)))]
    ensures OthersKept(s, Appended(s, e), e.thread)
  {
    forall u | u != e.thread ensures OtherKept(s, Appended(s, e), u) {}
  }

  /** What an append sequence does to the log: one thread grows by the events, nothing else moves. */
  lemma {:induction false} AppendAllLog(s: Store, drafts: seq<Event>, t: ThreadId)
    requires forall d :: d in drafts ==> d.thread == t
    requires AppendAll(s, drafts).Some?
    ensures var s' := AppendAll(s, drafts).value;
      Read(s', t) == Read(s, t) + Stamped(drafts, NextSeq(Read(s, t))) && OthersKept(s, s', t)
  {
    if drafts == [] {
      assert Read(s, t) + Stamped(drafts, NextSeq(Read(s, t))) == Read(s, t);
    } else {
      AppendAllLog(s, drafts[..|drafts| - 1], t);
      assert drafts[|drafts| - 1] in drafts;
      GrowsByOne(s, AppendAll(s, drafts[..|drafts| - 1]).value, drafts, t);
    }
  }

  lemma GrowsByOne(s: Store, rest: Store, drafts: seq<Event>, t: ThreadId)
    requires drafts != [] && drafts[|drafts| - 1].thread == t && !Refused(rest, drafts[|drafts| - 1])
    requires Read(rest, t) == Read(s, t) + Stamped(drafts[..|drafts| - 1], NextSeq(Read(s, t))) && OthersKept(s, rest, t)
    ensures var s' := Appended(rest, drafts[|drafts| - 1]);
      Read(s', t) == Read(s, t) + Stamped(drafts, NextSeq(Read(s, t))) && OthersKept(s, s', t)
  {
    var n, init, last := NextSeq(Read(s, t)), drafts[..|drafts| - 1], drafts[|drafts| - 1];
    var s' := Appended(rest, last);
    AppendedLog(rest, last);
    assert NextSeq(Read(rest, t)) == n + |init|;
    assert Stamped(drafts, n) == Stamped(init, n) + [last.(number := n + |init|)];
    forall u | u != t ensures OtherKept(s, s', u) { assert OtherKept(s, rest, u) && OtherKept(rest, s', u); }
  }

  lemma AppendAllStep(s: Store, drafts: seq<Event>, d: Event)
    ensures AppendAll(s, drafts + [d]) ==
      var r := AppendAll(s, drafts); if r.None? || Refused(r.value, d) then None else Some(Appended(r.value, d))
  {
    assert (drafts + [d])[..|drafts + [d]| - 1] == drafts;
  }

  // ----- a fork's appends are all accepted ------------------------------------------------------------------------

  /** The renaming hands out fresh ids, one per source id. */
  ghost predicate RenamingOk(c: Copying, floor: Id) {
    && (forall k :: k in c.ids ==> k < floor <= c.ids[k] < c.next)
    && (forall a, b :: a in c.ids && b in c.ids && c.ids[a] == c.ids[b] ==> a == b)
    && floor <= c.next
  }

  /** Besides the old rows, exactly the started turns copied so far have rows, under their new ids. */
  ghost predicate TurnsOk(turns: set<Id>, turns0: set<Id>, events: seq<Event>, c: Copying) {
    forall x :: x in turns <==> x in turns0 || HasStarted(events, c.ids, x)
  }

  ghost predicate HasStarted(events: seq<Event>, ids: map<Id, Id>, x: Id) {
    exists i, turn :: 0 <= i < |events| && Started(events[i], turn) && turn in ids && ids[turn] == x
  }

  ghost predicate SourceOk(events: seq<Event>, floor: Id) {
    && LogOk(events)
    && forall e :: e in events && IsCopied(e) ==>
         && (e.payload.TurnStarted? ==> e.turn.Some? && e.turn.value < floor)
         && (e.payload.ItemAppended? ==> e.payload.item.turn < floor && e.payload.item.id < floor)
  }

  lemma RemapOk(c: Copying, source: Id, floor: Id)
    requires RenamingOk(c, floor) && source < floor
    ensures var c' := Remap(c, source); RenamingOk(c', floor) && source in c'.ids && c'.drafts == c.drafts
    ensures forall k :: k in c.ids ==> k in Remap(c, source).ids && Remap(c, source).ids[k] == c.ids[k]
    ensures forall k :: k in Remap(c, source).ids ==> k == source || k in c.ids
  {
  }

  lemma StartedGrows(events: seq<Event>, e: Event, c: Copying, c': Copying, floor: Id)
    requires SourceOk(events + [e], floor) && RenamingOk(c, floor) && RenamingOk(c', floor)
    requires forall k :: k in c.ids ==> k in c'.ids && c'.ids[k] == c.ids[k]
    requires forall i, turn :: 0 <= i < |events| && Started(events[i], turn) ==> turn in c.ids
    ensures forall x :: HasStarted(events + [e], c'.ids, x) <==>
      HasStarted(events, c.ids, x) || (e.payload.TurnStarted? && e.turn.value in c'.ids && c'.ids[e.turn.value] == x)
  {
    var all := events + [e];
    assert e in all;
    forall x ensures HasStarted(all, c'.ids, x) <==>
      HasStarted(events, c.ids, x) || (e.payload.TurnStarted? && e.turn.value in c'.ids && c'.ids[e.turn.value] == x)
    {
      if HasStarted(events, c.ids, x) {
        var i, turn :| 0 <= i < |events| && Started(events[i], turn) && turn in c.ids && c.ids[turn] == x;
        assert Started(all[i], turn);
      }
      if e.payload.TurnStarted? && e.turn.value in c'.ids && c'.ids[e.turn.value] == x {
        assert Started(all[|events|], e.turn.value);
      }
      if HasStarted(all, c'.ids, x) {
        var i, turn :| 0 <= i < |all| && Started(all[i], turn) && turn in c'.ids && c'.ids[turn] == x;
        if i < |events| { assert Started(events[i], turn) && turn in c.ids; }
      }
    }
  }

  /** What holds while a fork copies: the store took every draft so far, under a sound renaming. */
  ghost predicate CopyOk(s: Store, c: Copying, events: seq<Event>, t: ThreadId, floor: Id) {
    && RenamingOk(c, floor)
    && (forall d :: d in c.drafts ==> d.thread == t)
    && (forall i, turn :: 0 <= i < |events| && Started(events[i], turn) ==> turn in c.ids)
    && var r := AppendAll(s, c.drafts);
       r.Some? && Valid(r.value, c.next) && TurnsOk(r.value.turns, s.turns, events, c)
  }

  lemma LearnOk(c: Copying, events: seq<Event>, e: Event, floor: Id)
    requires RenamingOk(c, floor) && SourceOk(events + [e], floor) && IsCopied(e)
    ensures !Anonymous(e) && RenamingOk(Learn(c, e), floor) && c.next <= Learn(c, e).next
    ensures forall k :: k in c.ids ==> k in Learn(c, e).ids && Learn(c, e).ids[k] == c.ids[k]
  {
    assert e in events + [e];
    match e.payload
    case TurnStarted(_) => RemapOk(c, e.turn.value, floor);
    case ItemAppended(item) =>
      RemapOk(c, item.turn, floor);
      RemapOk(Remap(c, item.turn), item.id, floor);
  }

  /** A new turn's row cannot be there already: no other started turn has its id. */
  lemma NewTurnIsFree(s: Store, c: Copying, events: seq<Event>, e: Event, t: ThreadId, floor: Id)
    requires CopyOk(s, c, events, t, floor) && SourceOk(events + [e], floor) && e.payload.TurnStarted?
    requires forall x :: x in s.turns ==> x < floor
    ensures !Anonymous(e) && Learn(c, e).ids[e.turn.value] !in AppendAll(s, c.drafts).value.turns
  {
    LearnOk(c, events, e, floor);
    var ids, all := Learn(c, e).ids, events + [e];
    var x := ids[e.turn.value];
    if HasStarted(events, c.ids, x) {
      var i, other :| 0 <= i < |events| && Started(events[i], other) && other in c.ids && c.ids[other] == x;
      assert other == e.turn.value;
      assert Started(all[i], other) && Started(all[|events|], other);
    }
  }

  /** The store takes one draft more, and stays well formed. */
  lemma CopyOneIsTaken(s: Store, c: Copying, events: seq<Event>, e: Event, base: Event, floor: Id)
    requires CopyOk(s, c, events, base.thread, floor) && SourceOk(events + [e], floor) && IsCopied(e)
    requires forall x :: x in s.turns ==> x < floor
    ensures var c' := CopyEvent(c, e, base); var r := AppendAll(s, c'.drafts);
      && RenamingOk(c', floor) && r.Some? && Valid(r.value, c'.next)
      && r.value.turns == AppendAll(s, c.drafts).value.turns
                          + (if e.payload.TurnStarted? && e.turn.value in c'.ids then {c'.ids[e.turn.value]} else {})
  {
    LearnOk(c, events, e, floor);
    var c' := Learn(c, e);
    var d := Renamed(e, c'.ids, base);
    if e.payload.TurnStarted? { NewTurnIsFree(s, c, events, e, base.thread, floor); }
    AppendAllStep(s, c.drafts, d);
    AppendKeeps(AppendAll(s, c.drafts).value, d, c.next, c'.next);
  }

  lemma StartedAreRenamed(c: Copying, events: seq<Event>, e: Event, floor: Id)
    requires RenamingOk(c, floor) && SourceOk(events + [e], floor) && IsCopied(e)
    requires forall i, turn :: 0 <= i < |events| && Started(events[i], turn) ==> turn in c.ids
    ensures forall i, turn :: 0 <= i < |events + [e]| && Started((events + [e])[i], turn) ==> turn in Learn(c, e).ids
  {
    LearnOk(c, events, e, floor);
    assert e in events + [e];
  }

  lemma CopyOneKeeps(s: Store, c: Copying, events: seq<Event>, e: Event, base: Event, floor: Id)
    requires CopyOk(s, c, events, base.thread, floor) && SourceOk(events + [e], floor) && IsCopied(e)
    requires forall x :: x in s.turns ==> x < floor
    ensures CopyOk(s, CopyEvent(c, e, base), events + [e], base.thread, floor)
  {
    LearnOk(c, events, e, floor);
    CopyOneIsTaken(s, c, events, e, base, floor);
    StartedAreRenamed(c, events, e, floor);
    StartedGrows(events, e, c, Learn(c, e), floor);
  }

  lemma {:induction false} CopyAllKeeps(s: Store, c: Copying, events: seq<Event>, base: Event, floor: Id)
    requires CopyOk(s, c, [], base.thread, floor) && SourceOk(events, floor)
    requires forall x :: x in s.turns ==> x < floor
    ensures CopyOk(s, CopyAll(c, events, base), events, base.thread, floor)
    decreases |events|
  {
    if events != [] {
      var init, e := events[..|events| - 1], events[|events| - 1];
      assert events == init + [e];
      assert SourceOk(init, floor) by { SourcePrefix(init, e, floor); }
      CopyAllKeeps(s, c, init, base, floor);
      var c1 := CopyAll(c, init, base);
      if IsCopied(e) {
        CopyOneKeeps(s, c1, init, e, base, floor);
      } else {
        StartedGrows(init, e, c1, c1, floor);
      }
    }
  }

  lemma SourcePrefix(init: seq<Event>, e: Event, floor: Id)
    requires SourceOk(init + [e], floor)
    ensures SourceOk(init, floor)
  {
    var all := init + [e];
    forall d | d in init ensures d in all {}
    forall i, j, turn | 0 <= i < j < |init| && Started(init[i], turn) ensures !Started(init[j], turn) {
      assert Started(all[i], turn) && init[j] == all[j];
    }
    forall i, j | 0 <= i < j < |init| ensures init[i].number < init[j].number {
      assert all[i].number < all[j].number;
    }
  }

  lemma ReadIsOk(s: Store, t: ThreadId, next: Id)
    requires Valid(s, next)
    ensures SourceOk(Read(s, t), next)
  {
    forall e | e in Read(s, t) ensures EventOk(e, s.turns, next) {}
  }

  lemma {:induction false} UptoIsPrefix(events: seq<Event>, cutoff: nat)
    ensures var n := |Upto(events, cutoff)|;
      && n <= |events| && Upto(events, cutoff) == events[..n]
      && (forall i :: 0 <= i < n ==> events[i].number <= cutoff)
      && (n < |events| ==> events[n].number > cutoff)
  {
    if events != [] && events[0].number <= cutoff {
      UptoIsPrefix(events[1..], cutoff);
      var n := |Upto(events[1..], cutoff)|;
      assert events[..n + 1] == [events[0]] + events[1..][..n];
      forall i | 0 <= i < n + 1 ensures events[i].number <= cutoff {
        if i > 0 { assert events[i] == events[1..][i - 1]; }
      }
    }
  }

  lemma {:induction false} UptoMembers(events: seq<Event>, cutoff: nat)
    requires forall i, j :: 0 <= i < j < |events| ==> events[i].number < events[j].number
    ensures forall e :: e in Upto(events, cutoff) <==> e in events && e.number <= cutoff
  {
    if events != [] {
      assert events == [events[0]] + events[1..];
      if events[0].number <= cutoff {
        UptoMembers(events[1..], cutoff);
      } else {
        forall e | e in events ensures e.number > cutoff { var i :| 0 <= i < |events| && events[i] == e; }
      }
    }
  }

  lemma SourceTake(events: seq<Event>, n: nat, floor: Id)
    requires n <= |events| && SourceOk(events, floor)
    ensures SourceOk(events[..n], floor)
  {
    forall i, j, turn | 0 <= i < j < n && Started(events[..n][i], turn) ensures !Started(events[..n][j], turn) {
      assert Started(events[i], turn) && events[..n][j] == events[j];
    }
    forall e | e in events[..n] ensures e in events {}
  }

  /** Stopping at the first event past the cutoff keeps exactly the events up to it; by default, all of them. */
  lemma CutoffSelects(s: Store, from: ThreadId, atSeq: Option<nat>, next: Id)
    requires Valid(s, next)
    ensures forall e :: e in Kept(s, from, atSeq) <==> e in Read(s, from) && e.number <= Cutoff(Read(s, from), atSeq)
    ensures atSeq.None? ==> Kept(s, from, atSeq) == Read(s, from)
    ensures SourceOk(Kept(s, from, atSeq), next)
  {
    ReadIsOk(s, from, next);
    var events := Read(s, from);
    var cutoff := Cutoff(events, atSeq);
    UptoMembers(events, cutoff);
    UptoIsPrefix(events, cutoff);
    SourceTake(events, |Upto(events, cutoff)|, next);
  }

  lemma OpeningApplied(s: Store, base: Event, row: ThreadRow, from: ThreadId, cutoff: nat, next: Id)
    requires base.thread !in s.threads
    ensures var d0, d1 := Created(base, row), Lineage(base, from, cutoff);
      && !Refused(s, d0) && !Refused(Appended(s, d0), d1)
      && AppendAll(s, Start(base, row, from, cutoff, next).drafts) == Some(Appended(Appended(s, d0), d1))
  {
    var d0, d1 := Created(base, row), Lineage(base, from, cutoff);
    assert [] + [d0] == [d0] && [d0] + [d1] == [d0, d1];
    AppendAllStep(s, [], d0);
    AppendAllStep(s, [d0], d1);
  }

  /** After the two opening appends the store is well formed and has the turns it had. */
  lemma OpeningIsValid(s: Store, base: Event, row: ThreadRow, from: ThreadId, cutoff: nat, next: Id)
    requires Valid(s, next) && base.thread !in s.threads && base.turn.None?
    ensures var r := AppendAll(s, Start(base, row, from, cutoff, next + 1).drafts);
      r.Some? && Valid(r.value, next + 1) && r.value.turns == s.turns
  {
    var d0, d1 := Created(base, row), Lineage(base, from, cutoff);
    OpeningApplied(s, base, row, from, cutoff, next + 1);
    AppendKeeps(s, d0, next, next + 1);
    AppendKeeps(Appended(s, d0), d1, next + 1, next + 1);
  }

  lemma OpeningAccepted(s: Store, base: Event, row: ThreadRow, from: ThreadId, cutoff: nat, next: Id)
    requires Valid(s, next) && base.thread !in s.threads && base.turn.None?
    ensures CopyOk(s, Start(base, row, from, cutoff, next + 1), [], base.thread, next)
  {
    OpeningIsValid(s, base, row, from, cutoff, next);
    assert forall ids: map<Id, Id>, x :: !HasStarted([], ids, x);
  }

  /** A fork into a new thread is never refused half-way: its ids collide with nothing. */
  lemma PlanAccepted(s: Store, from: ThreadId, to: ThreadId, atSeq: Option<nat>, next: Id)
    requires Valid(s, next) && from in s.threads && to !in s.threads
    ensures CopyOk(s, Plan(s, from, to, atSeq, next), Kept(s, from, atSeq), to, next)
  {
    var base := Base(s.threads[from], to, next);
    OpeningAccepted(s, base, s.threads[from], from, Cutoff(Read(s, from), atSeq), next);
    CutoffSelects(s, from, atSeq, next);
    CopyAllKeeps(s, Opening(s, from, to, atSeq, next), Kept(s, from, atSeq), base, next);
  }

  lemma OneCopyLeavesRows(s: Store, c: Copying, e: Event, base: Event)
    requires AppendAll(s, CopyEvent(c, e, base).drafts).Some?
    ensures AppendAll(s, c.drafts).Some?
    ensures AppendAll(s, CopyEvent(c, e, base).drafts).value.threads == AppendAll(s, c.drafts).value.threads
  {
    if Anonymous(e) {
      AppendAllStep(s, c.drafts, base.(turn := Some(c.next), payload := e.payload));
    } else if IsCopied(e) {
      AppendAllStep(s, c.drafts, Renamed(e, Learn(c, e).ids, base));
    }
  }

  lemma PlanIsTaken(s: Store, from: ThreadId, to: ThreadId, atSeq: Option<nat>, next: Id)
    requires Valid(s, next) && from in s.threads && to !in s.threads
    ensures var plan := Plan(s, from, to, atSeq, next);
      && AppendAll(s, plan.drafts).Some? && Valid(AppendAll(s, plan.drafts).value, plan.next)
      && (forall d :: d in plan.drafts ==> d.thread == to)
  {
    PlanAccepted(s, from, to, atSeq, next);
  }

  lemma {:induction false} CopiesLeaveRows(s: Store, c: Copying, events: seq<Event>, base: Event)
    requires AppendAll(s, CopyAll(c, events, base).drafts).Some?
    ensures AppendAll(s, c.drafts).Some?
    ensures AppendAll(s, CopyAll(c, events, base).drafts).value.threads == AppendAll(s, c.drafts).value.threads
    decreases |events|
  {
    if events != [] {
      OneCopyLeavesRows(s, CopyAll(c, events[..|events| - 1], base), events[|events| - 1], base);
      CopiesLeaveRows(s, c, events[..|events| - 1], base);
    }
  }

  /** The new thread's row: the source's place and profile, a marked name, and where it came from. */
  lemma ForkRecordsLineage(s: Store, from: ThreadId, to: ThreadId, atSeq: Option<nat>, next: Id)
    requires Valid(s, next) && from in s.threads && to !in s.threads
    ensures AppendAll(s, Plan(s, from, to, atSeq, next).drafts).Some?
    ensures var threads, row := AppendAll(s, Plan(s, from, to, atSeq, next).drafts).value.threads, s.threads[from];
      && to in threads
      && threads[to] == ThreadRow(ForkName(row.name), row.cwd, row.repo, row.profile,
                                  Some((from, Cutoff(Read(s, from), atSeq))))
  {
    PlanIsTaken(s, from, to, atSeq, next);
    var base := Base(s.threads[from], to, next);
    CopiesLeaveRows(s, Opening(s, from, to, atSeq, next), Kept(s, from, atSeq), base);
    OpeningApplied(s, base, s.threads[from], from, Cutoff(Read(s, from), atSeq), next + 1);
  }

  // ----- the copy says the same -----------------------------------------------------------------------------------

  lemma StampingSaysTheSame(drafts: seq<Event>, first: nat)
    ensures History(Stamped(drafts, first)) == History(drafts)
  {
    forall i | 0 <= i < |drafts| ensures Says(Stamped(drafts, first)[i]) == Says(drafts[i]) {}
    FlatMapSame(Says, Stamped(drafts, first), drafts);
  }

  lemma RenamingSaysTheSame(e: Event, ids: map<Id, Id>, base: Event)
    requires Renameable(e, ids)
    ensures Says(Renamed(e, ids, base)) == Says(e)
  {
  }

  lemma OneCopySaysTheSame(c: Copying, e: Event, base: Event)
    ensures History(CopyEvent(c, e, base).drafts) == History(c.drafts) + Says(e)
  {
    if Anonymous(e) {
      FlatMapAppend(Says, c.drafts, base.(turn := Some(c.next), payload := e.payload));
    } else if IsCopied(e) {
      RenamingSaysTheSame(e, Learn(c, e).ids, base);
      FlatMapAppend(Says, c.drafts, Renamed(e, Learn(c, e).ids, base));
    }
  }

  lemma {:induction false} CopyingSaysTheSame(c: Copying, events: seq<Event>, base: Event)
    ensures History(CopyAll(c, events, base).drafts) == History(c.drafts) + History(events)
    decreases |events|
  {
    if events != [] {
      var init, e := events[..|events| - 1], events[|events| - 1];
      CopyingSaysTheSame(c, init, base);
      OneCopySaysTheSame(CopyAll(c, init, base), e, base);
    }
  }

  lemma PlanSaysTheSame(s: Store, from: ThreadId, to: ThreadId, atSeq: Option<nat>, next: Id)
    requires from in s.threads
    ensures History(Plan(s, from, to, atSeq, next).drafts) == History(Kept(s, from, atSeq))
  {
    var base := Base(s.threads[from], to, next);
    CopyingSaysTheSame(Opening(s, from, to, atSeq, next), Kept(s, from, atSeq), base);
    var h := Opening(s, from, to, atSeq, next).drafts;
    assert h == [h[0]] + [h[1]];
    FlatMapAppend(Says, [h[0]], h[1]);
    FlatMapAppend(Says, [], h[0]);
    assert [] + [h[0]] == [h[0]];
  }

  /**
   Fork preserves meaning: the new thread reads as what it held before (nothing, for an unused id)
   followed by the source's conversation up to the cutoff, and every other thread keeps its log and row.
   */
  lemma ForkPreservesMeaning(s: Store, from: ThreadId, to: ThreadId, atSeq: Option<nat>, next: Id)
    requires Valid(s, next) && from in s.threads && to !in s.threads
    ensures var drafts := Plan(s, from, to, atSeq, next).drafts;
      && AppendAll(s, drafts).Some?
      && var s' := AppendAll(s, drafts).value;
         && History(Read(s', to)) == History(Read(s, to)) + History(Kept(s, from, atSeq))
         && OthersKept(s, s', to)
  {
    PlanIsTaken(s, from, to, atSeq, next);
    PlanSaysTheSame(s, from, to, atSeq, next);
    var drafts := Plan(s, from, to, atSeq, next).drafts;
    AppendAllLog(s, drafts, to);
    FlatMapConcat(Says, Read(s, to), Stamped(drafts, NextSeq(Read(s, to))));
    StampingSaysTheSame(drafts, NextSeq(Read(s, to)));
  }

  // ----- ids are renamed consistently ------------------------------------------------------------------------------

  function Copied(events: seq<Event>): seq<Event> {
    if events == [] then []
    else Copied(events[..|events| - 1]) + (if IsCopied(events[|events| - 1]) then [events[|events| - 1]] else [])
  }

  /** Draft `from + k` is the k-th copied event, renamed. */
  ghost predicate AllRenamed(c: Copying, from: nat, events: seq<Event>, base: Event) {
    && |c.drafts| == from + |Copied(events)|
    && forall k :: 0 <= k < |Copied(events)| ==> RenamedAt(c, from, Copied(events)[k], k, base)
  }

  ghost predicate RenamedAt(c: Copying, from: nat, e: Event, k: nat, base: Event)
    requires from + k < |c.drafts|
  {
    Renameable(e, c.ids) && c.drafts[from + k] == Renamed(e, c.ids, base)
  }

  lemma RenamingGrows(e: Event, ids: map<Id, Id>, more: map<Id, Id>, base: Event)
    requires Renameable(e, ids) && forall k :: k in ids ==> k in more && more[k] == ids[k]
    ensures Renameable(e, more) && Renamed(e, more, base) == Renamed(e, ids, base)
  {
  }

  lemma OneIsRenamed(c: Copying, from: nat, init: seq<Event>, e: Event, base: Event, floor: Id)
    requires RenamingOk(c, floor) && SourceOk(init + [e], floor) && AllRenamed(c, from, init, base)
    ensures RenamingOk(CopyEvent(c, e, base), floor) && AllRenamed(CopyEvent(c, e, base), from, init + [e], base)
  {
    assert (init + [e])[..|init|] == init;
    if IsCopied(e) {
      LearnOk(c, init, e, floor);
      var c', copied := CopyEvent(c, e, base), Copied(init + [e]);
      assert copied == Copied(init) + [e];
      forall k | 0 <= k < |copied| ensures RenamedAt(c', from, copied[k], k, base) {
        if k < |Copied(init)| {
          assert RenamedAt(c, from, copied[k], k, base);
          RenamingGrows(copied[k], c.ids, c'.ids, base);
        }
      }
    } else {
      assert Copied(init + [e]) == Copied(init);
    }
  }

  lemma {:induction false} CopiesAreRenamed(c: Copying, events: seq<Event>, base: Event, floor: Id)
    requires RenamingOk(c, floor) && SourceOk(events, floor)
    ensures RenamingOk(CopyAll(c, events, base), floor) && AllRenamed(CopyAll(c, events, base), |c.drafts|, events, base)
    decreases |events|
  {
    if events != [] {
      var init, e := events[..|events| - 1], events[|events| - 1];
      assert events == init + [e];
      SourcePrefix(init, e, floor);
      CopiesAreRenamed(c, init, base, floor);
      OneIsRenamed(CopyAll(c, init, base), |c.drafts|, init, e, base, floor);
    }
  }

  /**
   One injective map onto fresh ids accounts for every turn and item id in the copy, in the envelope and in
   the item alike, and the copy holds exactly the source's turn starts and items, in order.
   */
  lemma ForkRenamesInjectively(s: Store, from: ThreadId, to: ThreadId, atSeq: Option<nat>, next: Id)
    requires Valid(s, next) && from in s.threads && to !in s.threads
    ensures var c := Plan(s, from, to, atSeq, next);
      && AllRenamed(c, 2, Kept(s, from, atSeq), Base(s.threads[from], to, next))
      && (forall a, b :: a in c.ids && b in c.ids && c.ids[a] == c.ids[b] ==> a == b)
      && (forall a :: a in c.ids ==> a < next <= c.ids[a] && c.ids[a] !in s.turns)
  {
    CutoffSelects(s, from, atSeq, next);
    CopiesAreRenamed(Opening(s, from, to, atSeq, next), Kept(s, from, atSeq), Base(s.threads[from], to, next), next);
  }

  // ----- a fork waits for nobody ------------------------------------------------------------------------------------

  lemma {:induction false} CopiesAskNothing(c: Copying, events: seq<Event>, base: Event)
    requires forall d :: d in c.drafts ==> !d.payload.ApprovalRequested?
    ensures forall d :: d in CopyAll(c, events, base).drafts ==> !d.payload.ApprovalRequested?
    decreases |events|
  {
    if events != [] { CopiesAskNothing(c, events[..|events| - 1], base); }
  }

  lemma {:induction false} StampedAskNothing(drafts: seq<Event>, first: nat)
    requires forall d :: d in drafts ==> !d.payload.ApprovalRequested?
    ensures Pending(Stamped(drafts, first)).None?
  {
    var events := Stamped(drafts, first);
    forall i | 0 <= i < |events| ensures !events[i].payload.ApprovalRequested? { assert drafts[i] in drafts; }
    PendingExactlyWhen(events);
  }

  /** The fork of an interrupted thread is not itself waiting for an approval. */
  lemma ForkHasNothingPending(s: Store, from: ThreadId, to: ThreadId, atSeq: Option<nat>, next: Id)
    requires Valid(s, next) && from in s.threads && to !in s.threads && Read(s, to) == []
    ensures AppendAll(s, Plan(s, from, to, atSeq, next).drafts).Some?
    ensures Pending(Read(AppendAll(s, Plan(s, from, to, atSeq, next).drafts).value, to)).None?
  {
    PlanIsTaken(s, from, to, atSeq, next);
    CopiesAskNothing(Opening(s, from, to, atSeq, next), Kept(s, from, atSeq), Base(s.threads[from], to, next));
    FreshLog(s, Plan(s, from, to, atSeq, next).drafts, to);
    StampedAskNothing(Plan(s, from, to, atSeq, next).drafts, 0);
  }

  lemma FreshLog(s: Store, drafts: seq<Event>, t: ThreadId)
    requires AppendAll(s, drafts).Some? && Read(s, t) == [] && forall d :: d in drafts ==> d.thread == t
    ensures Read(AppendAll(s, drafts).value, t) == Stamped(drafts, 0)
  {
    AppendAllLog(s, drafts, t);
    assert [] + Stamped(drafts, 0) == Stamped(drafts, 0);
  }

  // ----- forks of forks -----------------------------------------------------------------------------------------------

  /** A fork of a fork still reads as the first source, and both earlier threads stay as they were. */
  lemma ForkOfForkKeepsMeaning(s: Store, a: ThreadId, b: ThreadId, c: ThreadId, next: Id)
    requires Valid(s, next) && a in s.threads && b !in s.threads && c !in s.threads && b != c
    requires Read(s, b) == [] && Read(s, c) == []
    ensures var first := Plan(s, a, b, None, next);
      && AppendAll(s, first.drafts).Some?
      && var s1 := AppendAll(s, first.drafts).value;
         && b in s1.threads
         && var second := Plan(s1, b, c, None, first.next);
            && AppendAll(s1, second.drafts).Some?
            && var s2 := AppendAll(s1, second.drafts).value;
               && History(Read(s2, c)) == History(Read(s, a))
               && Read(s2, a) == Read(s, a) && Read(s2, b) == Read(s1, b)
  {
    var first := Plan(s, a, b, None, next);
    PlanIsTaken(s, a, b, None, next);
    ForkPreservesMeaning(s, a, b, None, next);
    CutoffSelects(s, a, None, next);
    var s1 := AppendAll(s, first.drafts).value;
    ForkRecordsLineage(s, a, b, None, next);
    assert OtherKept(s, s1, c) && OtherKept(s, s1, a);
    ForkPreservesMeaning(s1, b, c, None, first.next);
    CutoffSelects(s1, b, None, first.next);
    var s2 := AppendAll(s1, Plan(s1, b, c, None, first.next).drafts).value;
    assert OtherKept(s1, s2, a) && OtherKept(s1, s2, b);
  }

  // ----- the operation -------------------------------------------------------------------------------------------------

  method RemapId(idMap: map<Id, Id>, source: Id, ids: IdSource, ghost c: Copying) returns (id: Id, more: map<Id, Id>)
    requires c.ids == idMap && c.next == ids.upcoming
    modifies ids
    ensures more == Remap(c, source).ids && ids.upcoming == Remap(c, source).next
    ensures source in more && id == more[source]
  {
    if source in idMap { return idMap[source], idMap; }
    id := ids.Next();
    more := idMap[source := id];
  }

  method ForkSession(store: EventStore, ids: IdSource, from: ThreadId, to: ThreadId, atSeq: Option<nat>) returns (r: ForkResult)
    requires Valid(store.State(), ids.upcoming)
    modifies store, ids
    ensures r.NoSuchSession? <==> from !in old(store.State()).threads
    ensures r.Rejected? <==> from in old(store.State()).threads && to in old(store.State()).threads
    ensures !r.Forked? ==> store.State() == old(store.State())
    ensures r.Forked? ==>
      var plan := Plan(old(store.State()), from, to, atSeq, old(ids.upcoming));
      && r == Forked(to, from, |plan.drafts| - 2) && ids.upcoming == plan.next
      && AppendAll(old(store.State()), plan.drafts) == Some(store.State())
    ensures Valid(store.State(), ids.upcoming)
  {
    if from !in store.threads { return NoSuchSession; }
    ghost var s0, next := store.State(), ids.upcoming;
    var events := store.ReadThread(from);
    var base, ok := OpenFork(store, ids, from, to, atSeq);
    if !ok {
      LaterIsValid(s0, next, next + 1);
      return Rejected;
    }
    PlanIsTaken(s0, from, to, atSeq, next);
    var copied := CopyEvents(store, ids, events, Cutoff(events, atSeq), base, s0, Opening(s0, from, to, atSeq, next));
    r := Forked(to, from, copied);
  }

  method OpenFork(store: EventStore, ids: IdSource, from: ThreadId, to: ThreadId, atSeq: Option<nat>) returns (base: Event, ok: bool)
    requires from in store.threads
    modifies store, ids
    ensures ids.upcoming == old(ids.upcoming) + 1 && base == Base(old(store.threads)[from], to, old(ids.upcoming))
    ensures ok <==> to !in old(store.threads)
    ensures !ok ==> store.State() == old(store.State())
    ensures ok ==> AppendAll(old(store.State()), Opening(old(store.State()), from, to, atSeq, old(ids.upcoming)).drafts) == Some(store.State())
  {
    var row := store.threads[from];
    var events := store.ReadThread(from);
    var cutoff := Cutoff(events, atSeq);
    var correlation := ids.Next();
    base := Base(row, to, correlation);
    ok := store.Append(Created(base, row));
    if ok {
      OpeningApplied(old(store.State()), base, row, from, cutoff, correlation + 1);
      ok := store.Append(Lineage(base, from, cutoff));
    }
  }

  /** The copy loop. The events were read before the first append, so they are the ones of `s0`. */
  method CopyEvents(store: EventStore, ids: IdSource, events: seq<Event>, cutoff: nat, base: Event,
                    ghost s0: Store, ghost c: Copying) returns (copied: int)
    requires AppendAll(s0, c.drafts) == Some(store.State()) && c.ids == map[] && c.next == ids.upcoming
    requires AppendAll(s0, CopyAll(c, Upto(events, cutoff), base).drafts).Some?
    modifies store, ids
    ensures var done := CopyAll(c, Upto(events, cutoff), base);
      && ids.upcoming == done.next && AppendAll(s0, done.drafts) == Some(store.State())
      && copied == |done.drafts| - |c.drafts|
  {
    UptoIsPrefix(events, cutoff);
    ghost var wanted, done := Upto(events, cutoff), c;
    var idMap: map<Id, Id>, i := map[], 0;
    copied := 0;
    while i < |events| && events[i].number <= cutoff
      invariant 0 <= i <= |wanted| && done == CopyAll(c, wanted[..i], base)
      invariant idMap == done.ids && ids.upcoming == done.next && copied == |done.drafts| - |c.drafts|
      invariant AppendAll(s0, done.drafts) == Some(store.State())
    {
      assert events[i] == wanted[i];
      var more;
      more, idMap, done := CopyNext(store, ids, events[i], base, idMap, s0, c, wanted, i);
      copied := copied + more;
      i := i + 1;
    }
    assert wanted[..|wanted|] == wanted;
  }

  /** One event more of those that are wanted. */
  method CopyNext(store: EventStore, ids: IdSource, event: Event, base: Event, idMap: map<Id, Id>,
                  ghost s0: Store, ghost c: Copying, ghost wanted: seq<Event>, ghost i: nat)
    returns (copied: int, more: map<Id, Id>, ghost done: Copying)
    requires i < |wanted| && event == wanted[i] && AppendAll(s0, CopyAll(c, wanted, base).drafts).Some?
    requires var before := CopyAll(c, wanted[..i], base);
      AppendAll(s0, before.drafts) == Some(store.State()) && before.ids == idMap && before.next == ids.upcoming
    modifies store, ids
    ensures done == CopyAll(c, wanted[..i + 1], base)
    ensures more == done.ids && ids.upcoming == done.next && AppendAll(s0, done.drafts) == Some(store.State())
    ensures copied == |done.drafts| - |CopyAll(c, wanted[..i], base).drafts|
  {
    CopyAllStep(s0, c, wanted, i, base);
    copied, more := CopyOne(store, ids, event, base, idMap, s0, CopyAll(c, wanted[..i], base));
    done := CopyEvent(CopyAll(c, wanted[..i], base), event, base);
  }

  /** A store that takes a whole copy takes the next step of it. */
  lemma CopyAllStep(s: Store, c: Copying, events: seq<Event>, i: nat, base: Event)
    requires i < |events| && AppendAll(s, CopyAll(c, events, base).drafts).Some?
    ensures CopyAll(c, events[..i + 1], base) == CopyEvent(CopyAll(c, events[..i], base), events[i], base)
    ensures AppendAll(s, CopyEvent(CopyAll(c, events[..i], base), events[i], base).drafts).Some?
  {
    assert events[..i + 1][..i] == events[..i];
    PrefixIsTaken(s, c, events, i + 1, base);
  }

  lemma {:induction false} PrefixIsTaken(s: Store, c: Copying, events: seq<Event>, n: nat, base: Event)
    requires n <= |events| && AppendAll(s, CopyAll(c, events, base).drafts).Some?
    ensures AppendAll(s, CopyAll(c, events[..n], base).drafts).Some?
    decreases |events|
  {
    if n == |events| {
      assert events[..n] == events;
    } else {
      var init := events[..|events| - 1];
      OneCopyLeavesRows(s, CopyAll(c, init, base), events[|events| - 1], base);
      PrefixIsTaken(s, c, init, n, base);
      assert init[..n] == events[..n];
    }
  }

  method CopyOne(store: EventStore, ids: IdSource, event: Event, base: Event, idMap: map<Id, Id>,
                 ghost s0: Store, ghost c: Copying) returns (copied: int, more: map<Id, Id>)
    requires AppendAll(s0, c.drafts) == Some(store.State()) && c.ids == idMap && c.next == ids.upcoming
    requires AppendAll(s0, CopyEvent(c, event, base).drafts).Some?
    modifies store, ids
    ensures var done := CopyEvent(c, event, base);
      && more == done.ids && ids.upcoming == done.next && AppendAll(s0, done.drafts) == Some(store.State())
      && copied == |done.drafts| - |c.drafts|
  {
    copied, more := 0, idMap;
    if event.payload.TurnStarted? {
      more := CopyTurn(store, ids, event, base, idMap, s0, c);
      copied := 1;
    } else if event.payload.ItemAppended? {
      more := CopyItem(store, ids, event, base, idMap, s0, c);
      copied := 1;
    }
  }

  method CopyTurn(store: EventStore, ids: IdSource, event: Event, base: Event, idMap: map<Id, Id>,
                  ghost s0: Store, ghost c: Copying) returns (more: map<Id, Id>)
    requires AppendAll(s0, c.drafts) == Some(store.State()) && c.ids == idMap && c.next == ids.upcoming
    requires event.payload.TurnStarted? && AppendAll(s0, CopyEvent(c, event, base).drafts).Some?
    modifies store, ids
    ensures var done := CopyEvent(c, event, base);
      more == done.ids && ids.upcoming == done.next && AppendAll(s0, done.drafts) == Some(store.State())
  {
    var turn;
    more := idMap;
    if event.turn.Some? { turn, more := RemapId(idMap, event.turn.value, ids, c); } else { turn := ids.Next(); }
    PostDraft(store, base.(turn := Some(turn), payload := event.payload), s0, c.drafts);
  }

  method CopyItem(store: EventStore, ids: IdSource, event: Event, base: Event, idMap: map<Id, Id>,
                  ghost s0: Store, ghost c: Copying) returns (more: map<Id, Id>)
    requires AppendAll(s0, c.drafts) == Some(store.State()) && c.ids == idMap && c.next == ids.upcoming
    requires event.payload.ItemAppended? && AppendAll(s0, CopyEvent(c, event, base).drafts).Some?
    modifies store, ids
    ensures var done := CopyEvent(c, event, base);
      more == done.ids && ids.upcoming == done.next && AppendAll(s0, done.drafts) == Some(store.State())
  {
    var item, turn, id := event.payload.item, 0, 0;
    turn, more := RemapId(idMap, item.turn, ids, c);
    id, more := RemapId(more, item.id, ids, Remap(c, item.turn));
    assert more[item.turn] == turn;
    PostDraft(store, CopyOfItem(base, item, turn, id), s0, c.drafts);
  }

  method PostDraft(store: EventStore, draft: Event, ghost s0: Store, ghost drafts: seq<Event>)
    requires AppendAll(s0, drafts) == Some(store.State()) && AppendAll(s0, drafts + [draft]).Some?
    modifies store
    ensures AppendAll(s0, drafts + [draft]) == Some(store.State())
  {
    AppendAllStep(s0, drafts, draft);
    var ok := store.Append(draft);
  }

  lemma LaterIsValid(s: Store, next: Id, later: Id)
    requires Valid(s, next) && next <= later
    ensures Valid(s, later)
  {
    forall t, e | t in s.log && e in s.log[t] ensures EventOk(e, s.turns, later) { assert EventOk(e, s.turns, next); }
  }
}
