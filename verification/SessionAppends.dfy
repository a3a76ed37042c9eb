/**
 What appends make of an empty store, told by the list of appended events: which are accepted, how they are numbered
 and where they go, and the row of each thread; and what a fork appends, told by its arguments.
 */
module SessionAppends {
  import opened Options
  import opened Sessions
  import opened SessionFork

  const EMPTY := Store(map[], map[], {})

  // ----- which appends are accepted ------------------------------------------------------------------------------------

  predicate CreatedBefore(drafts: seq<Event>, n: nat, t: ThreadId) {
    exists k :: 0 <= k < n && k < |drafts| && drafts[k].payload.ThreadCreated? && drafts[k].thread == t
  }

  predicate StartedBefore(drafts: seq<Event>, n: nat, turn: Id) {
    exists k :: 0 <= k < n && k < |drafts| && drafts[k].payload.TurnStarted? && drafts[k].turn == Some(turn)
  }

  /** The event creates no thread and starts no turn that an earlier one created or started, and its turn has an id. */
  predicate Fits(drafts: seq<Event>, n: nat)
    requires n < |drafts|
  {
    && (drafts[n].payload.ThreadCreated? ==> !CreatedBefore(drafts, n, drafts[n].thread))
    && (drafts[n].payload.TurnStarted? ==> drafts[n].turn.Some? && !StartedBefore(drafts, n, drafts[n].turn.value))
  }

  /** How many of the first `n` events go to the thread. */
  function CountFor(drafts: seq<Event>, n: nat, t: ThreadId): nat
    requires n <= |drafts|
    decreases n
  {
    if n == 0 then 0 else CountFor(drafts, n - 1, t) + if drafts[n - 1].thread == t then 1 else 0
  }

  /** The row that the first `n` events leave of the thread: as created, with its latest lineage. */
  function RowOf(drafts: seq<Event>, n: nat, t: ThreadId): Option<ThreadRow>
    requires n <= |drafts|
    decreases n
  {
    if n == 0 then None
    else
      var before, d := RowOf(drafts, n - 1, t), drafts[n - 1];
      if d.thread != t then before
      else
        match d.payload
        case ThreadCreated(name, cwd, repo) => Some(ThreadRow(name, cwd, repo, d.profile, None))
        case ThreadForked(from, atSeq) => if before.Some? then Some(before.value.(forkedFrom := Some((from, atSeq)))) else None
        case _ => before
  }

  /** The thread's log holds its events in order, numbered from zero. */
  ghost predicate LogFor(s: Store, drafts: seq<Event>, n: nat, t: ThreadId)
    requires n <= |drafts|
  {
    && |Read(s, t)| == CountFor(drafts, n, t)
    && (forall i :: 0 <= i < |Read(s, t)| ==> Read(s, t)[i].number == i)
    && (forall k :: 0 <= k < n && drafts[k].thread == t ==> At(s, drafts, k, t))
  }

  ghost predicate At(s: Store, drafts: seq<Event>, k: nat, t: ThreadId)
    requires k < |drafts|
  {
    var i := CountFor(drafts, k, t);
    i < |Read(s, t)| && Read(s, t)[i] == drafts[k].(number := i)
  }

  /** What the store says of one thread. */
  ghost predicate HoldsFor(s: Store, drafts: seq<Event>, n: nat, t: ThreadId)
    requires n <= |drafts|
  {
    && RowOf(drafts, n, t) == (if t in s.threads then Some(s.threads[t]) else None)
    && (t in s.threads <==> CreatedBefore(drafts, n, t))
    && LogFor(s, drafts, n, t)
  }

  ghost predicate StartedIn(s: Store, drafts: seq<Event>, n: nat, turn: Id) { turn in s.turns <==> StartedBefore(drafts, n, turn) }

  ghost predicate Holds(s: Store, drafts: seq<Event>, n: nat)
    requires n <= |drafts|
  {
    (forall t :: HoldsFor(s, drafts, n, t)) && (forall turn :: StartedIn(s, drafts, n, turn))
  }

  lemma BeforeGrows(drafts: seq<Event>, n: nat, t: ThreadId, turn: Id)
    requires n < |drafts|
    ensures CreatedBefore(drafts, n + 1, t) <==> CreatedBefore(drafts, n, t) || (drafts[n].payload.ThreadCreated? && drafts[n].thread == t)
    ensures StartedBefore(drafts, n + 1, turn) <==>
      StartedBefore(drafts, n, turn) || (drafts[n].payload.TurnStarted? && drafts[n].turn == Some(turn))
  {
  }

  lemma {:induction false} CountRises(drafts: seq<Event>, k: nat, n: nat, t: ThreadId)
    requires k < n <= |drafts| && drafts[k].thread == t
    ensures CountFor(drafts, k, t) < CountFor(drafts, n, t)
    decreases n
  {
    if k < n - 1 { CountRises(drafts, k, n - 1, t); }
  }

  lemma LogGrows(s: Store, drafts: seq<Event>, n: nat, t: ThreadId)
    requires n < |drafts| && LogFor(s, drafts, n, t) && !Refused(s, drafts[n])
    ensures LogFor(Appended(s, drafts[n]), drafts, n + 1, t)
  {
    var s', d := Appended(s, drafts[n]), drafts[n];
    if d.thread == t {
      assert Read(s', t) == Read(s, t) + [d.(number := NextSeq(Read(s, t)))];
      assert NextSeq(Read(s, t)) == |Read(s, t)|;
    } else {
      assert Read(s', t) == Read(s, t);
    }
    forall k | 0 <= k < n + 1 && drafts[k].thread == t ensures At(s', drafts, k, t) {
      if k < n { assert At(s, drafts, k, t); CountRises(drafts, k, n, t); }
    }
  }

  lemma RowGrows(s: Store, drafts: seq<Event>, n: nat, t: ThreadId)
    requires n < |drafts| && HoldsFor(s, drafts, n, t) && !Refused(s, drafts[n])
    ensures var s' := Appended(s, drafts[n]);
      && RowOf(drafts, n + 1, t) == (if t in s'.threads then Some(s'.threads[t]) else None)
      && (t in s'.threads <==> CreatedBefore(drafts, n + 1, t))
  {
    BeforeGrows(drafts, n, t, 0);
  }

  lemma TurnGrows(s: Store, drafts: seq<Event>, n: nat, turn: Id)
    requires n < |drafts| && StartedIn(s, drafts, n, turn) && !Refused(s, drafts[n])
    ensures StartedIn(Appended(s, drafts[n]), drafts, n + 1, turn)
  {
    BeforeGrows(drafts, n, "", turn);
  }

  lemma OneMoreHolds(s: Store, drafts: seq<Event>, n: nat)
    requires n < |drafts| && Holds(s, drafts, n) && !Refused(s, drafts[n])
    ensures Holds(Appended(s, drafts[n]), drafts, n + 1)
  {
    var s', m := Appended(s, drafts[n]), n + 1;
    forall t ensures HoldsFor(s', drafts, m, t) {
      assert HoldsFor(s, drafts, n, t);
      LogGrows(s, drafts, n, t);
      RowGrows(s, drafts, n, t);
    }
    forall turn ensures StartedIn(s', drafts, m, turn) {
      assert StartedIn(s, drafts, n, turn);
      TurnGrows(s, drafts, n, turn);
    }
  }

  lemma RefusedExactlyUnlessFitting(s: Store, drafts: seq<Event>, n: nat)
    requires n < |drafts| && Holds(s, drafts, n)
    ensures Refused(s, drafts[n]) <==> !Fits(drafts, n)
  {
    var d := drafts[n];
    assert HoldsFor(s, drafts, n, d.thread);
    if d.turn.Some? { assert StartedIn(s, drafts, n, d.turn.value); }
  }

  lemma NothingAppended(drafts: seq<Event>)
    ensures Holds(EMPTY, drafts, 0)
  {
    forall t ensures HoldsFor(EMPTY, drafts, 0, t) { }
    forall turn ensures StartedIn(EMPTY, drafts, 0, turn) { }
  }

  ghost predicate AllFit(drafts: seq<Event>, n: nat)
    requires n <= |drafts|
  {
    forall k :: 0 <= k < n ==> Fits(drafts, k)
  }

  lemma {:induction false} Appending(drafts: seq<Event>, n: nat)
    requires n <= |drafts|
    ensures var r := AppendAll(EMPTY, drafts[..n]);
      && (r.Some? <==> AllFit(drafts, n))
      && (r.Some? ==> Holds(r.value, drafts, n))
    decreases n
  {
    if n == 0 {
      NothingAppended(drafts);
    } else {
      Appending(drafts, n - 1);
      assert drafts[..n] == drafts[..n - 1] + [drafts[n - 1]];
      AppendAllStep(EMPTY, drafts[..n - 1], drafts[n - 1]);
      var before := AppendAll(EMPTY, drafts[..n - 1]);
      if before.Some? {
        RefusedExactlyUnlessFitting(before.value, drafts, n - 1);
        if !Refused(before.value, drafts[n - 1]) { OneMoreHolds(before.value, drafts, n - 1); }
      }
    }
  }

  /**
   A list of appends to an empty store is accepted if and only if no thread is created and no turn started twice, and
   every turn started has an id. Then each thread has the events appended to it, in order and numbered from zero, the
   threads created have a row and no others, as created and with their latest lineage, and the turns started theirs.
   */
  lemma AcceptedExactlyWhenFitting(drafts: seq<Event>)
    ensures AppendAll(EMPTY, drafts).Some? <==> AllFit(drafts, |drafts|)
    ensures AppendAll(EMPTY, drafts).Some? ==> Holds(AppendAll(EMPTY, drafts).value, drafts, |drafts|)
  {
    assert drafts[..|drafts|] == drafts;
    Appending(drafts, |drafts|);
  }

  // ----- what a fork appends -----------------------------------------------------------------------------------------------

  /** The fork takes the events up to the number it was given, or all. */
  lemma ForkTakesTheEventsUpTo(s: Store, from: ThreadId, atSeq: Option<nat>, next: Id)
    requires Valid(s, next)
    ensures Kept(s, from, atSeq) <= Read(s, from)
    ensures forall e :: e in Kept(s, from, atSeq) <==> e in Read(s, from) && (atSeq == None || e.number <= atSeq.value)
  {
    CutoffSelects(s, from, atSeq, next);
    ReadIsOk(s, from, next);
    UptoIsPrefix(Read(s, from), Cutoff(Read(s, from), atSeq));
  }

  /** The row of a fork: a name that says so if the source has one, and the number it was taken up to. */
  lemma ForkRowByName(s: Store, from: ThreadId, to: ThreadId, atSeq: Option<nat>, next: Id)
    requires Valid(s, next) && from in s.threads && to !in s.threads
    ensures AppendAll(s, Plan(s, from, to, atSeq, next).drafts).Some?
    ensures var threads, row := AppendAll(s, Plan(s, from, to, atSeq, next).drafts).value.threads, s.threads[from];
      && to in threads
      && (row.name == None || row.name == Some("") ==> threads[to].name == None)
      && (row.name.Some? && row.name.value != "" ==> threads[to].name == Some(row.name.value + " (fork)"))
      && threads[to].forkedFrom.Some? && threads[to].forkedFrom.value.0 == from
      && (atSeq.Some? ==> threads[to].forkedFrom.value.1 == atSeq.value)
      && (atSeq.None? ==> threads[to].forkedFrom.value.1 ==
                          if Read(s, from) == [] then 0 else Read(s, from)[|Read(s, from)| - 1].number)
  {
    ForkRecordsLineage(s, from, to, atSeq, next);
  }

  /** Every event of a fork is the new thread's, under one new correlation id and the source's profile. */
  predicate IsTheForks(d: Event, to: ThreadId, correlation: Id, profile: string) {
    d.thread == to && d.correlation == correlation && d.profile == profile
  }

  lemma {:induction false} CopiesAreTheForks(c: Copying, events: seq<Event>, base: Event)
    requires forall d :: d in c.drafts ==> IsTheForks(d, base.thread, base.correlation, base.profile)
    ensures forall d :: d in CopyAll(c, events, base).drafts ==> IsTheForks(d, base.thread, base.correlation, base.profile)
    decreases |events|
  {
    if events != [] { CopiesAreTheForks(c, events[..|events| - 1], base); }
  }

  lemma EveryDraftIsTheForks(s: Store, from: ThreadId, to: ThreadId, atSeq: Option<nat>, next: Id)
    requires from in s.threads
    ensures forall d :: d in Plan(s, from, to, atSeq, next).drafts ==> IsTheForks(d, to, next, s.threads[from].profile)
  {
    CopiesAreTheForks(Opening(s, from, to, atSeq, next), Kept(s, from, atSeq), Base(s.threads[from], to, next));
  }

  /** The draft is the event again: a turn start with its text, an item with its body, under the new thread and new ids. */
  ghost predicate IsCopyOf(d: Event, e: Event, ids: map<Id, Id>, to: ThreadId) {
    if e.payload.TurnStarted? then
      d.payload == TurnStarted(e.payload.userText) && d.item == None
      && e.turn.Some? && e.turn.value in ids && d.turn == Some(ids[e.turn.value])
    else
      e.payload.ItemAppended?
      && var item := e.payload.item;
         && item.id in ids && item.turn in ids
         && d.turn == Some(ids[item.turn]) && d.item == Some(ids[item.id])
         && d.payload == ItemAppended(Item(ids[item.id], ids[item.turn], to, item.body))
  }

  /** How many turn starts and items are among the first `n` events. */
  function CopiedBefore(events: seq<Event>, n: nat): nat
    requires n <= |events|
    decreases n
  {
    if n == 0 then 0
    else CopiedBefore(events, n - 1) + if events[n - 1].payload.TurnStarted? || events[n - 1].payload.ItemAppended? then 1 else 0
  }

  lemma {:induction false} CopiedAreCounted(events: seq<Event>, n: nat)
    requires n <= |events|
    ensures |Copied(events[..n])| == CopiedBefore(events, n)
    decreases n
  {
    if n > 0 {
      CopiedAreCounted(events, n - 1);
      assert events[..n][..n - 1] == events[..n - 1];
    }
  }

  lemma {:induction false} CopiedInTurn(events: seq<Event>, i: nat, n: nat)
    requires i < n <= |events| && IsCopied(events[i])
    ensures CopiedBefore(events, i) < |Copied(events[..n])| && Copied(events[..n])[CopiedBefore(events, i)] == events[i]
    decreases n
  {
    assert events[..n][..n - 1] == events[..n - 1];
    if i < n - 1 { CopiedInTurn(events, i, n - 1); } else { CopiedAreCounted(events, i); }
  }

  /**
   A fork appends a creation, its lineage, and then, for each turn start and each item up to the cutoff and nothing
   else, its copy, in order.
   */
  lemma EachCopyByItsFields(s: Store, from: ThreadId, to: ThreadId, atSeq: Option<nat>, next: Id, i: nat)
    requires Valid(s, next) && from in s.threads && to !in s.threads
    requires i < |Kept(s, from, atSeq)|
    ensures var c, kept := Plan(s, from, to, atSeq, next), Kept(s, from, atSeq);
      && |c.drafts| == 2 + CopiedBefore(kept, |kept|)
      && (kept[i].payload.TurnStarted? || kept[i].payload.ItemAppended? ==>
            var k := 2 + CopiedBefore(kept, i); k < |c.drafts| && IsCopyOf(c.drafts[k], kept[i], c.ids, to))
  {
    var c, kept := Plan(s, from, to, atSeq, next), Kept(s, from, atSeq);
    ForkRenamesInjectively(s, from, to, atSeq, next);
    assert kept[..|kept|] == kept;
    CopiedAreCounted(kept, |kept|);
    if IsCopied(kept[i]) {
      CopiedInTurn(kept, i, |kept|);
      assert RenamedAt(c, 2, kept[i], CopiedBefore(kept, i), Base(s.threads[from], to, next));
    }
  }
}
