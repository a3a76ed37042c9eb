/**
 What a team can still reach: a task a teammate works on gets its shell run, from the lead and the teammate alone
 and within ten steps, exactly when no request to shut the teammate down stands on the bus - or when one does,
 but the teammate is cleared already, or the first entry that ends its wait is the answer that clears it.
 */
module TeamProgress {
  import opened Options
  import opened TeamBus
  import opened TeamSafety

  ghost predicate ShutdownAt(bus: seq<Envelope>, member: Member, s: nat) {
    s < |bus| && bus[s].to == member && bus[s].message.ShutdownRequest?
  }

  ghost predicate ShutdownPosted(bus: seq<Envelope>, member: Member) {
    exists s: nat :: ShutdownAt(bus, member, s)
  }

  /** Only the lead's polls and this member's own steps. */
  predicate ByTheTwo(run: seq<Step>, member: Member) {
    forall i :: 0 <= i < |run| ==>
      run[i] in {LeadPolls, PostsPlan(member), PostsAsk(member), Polls(member), RunsShell(member)}
  }

  /** The run adds one shell run of the member's, for this task. */
  ghost predicate RunsTask(t: Team, member: Member, task: nat, subject: string, more: seq<Step>)
    requires member in t.mates
  {
    && Admissible(t, more)
    && member in Exec(t, more).mates
    && var runs := Exec(t, more).mates[member].runs;
       |runs| == |t.mates[member].runs| + 1 && runs[|runs| - 1].task == task && runs[|runs| - 1].subject == subject
  }

  // ----- after a shutdown request ------------------------------------------------------------------------------

  /** The first entry that ends the wait is the answer after which only the shell run is left. */
  predicate ClearedByFirst(mate: Mate, member: Member, bus: seq<Envelope>)
    requires Awaits(mate.phase)
  {
    var i := FirstDecisive(mate.phase, member, bus, 0);
    i < |bus| &&
    match bus[i].message
    case PlanResponse(_, approved) => approved && !NeedsPermission(mate.phase.subject)
    case PermissionResponse(_, granted) => granted
    case _ => false
  }

  /** Neither cleared nor about to be. */
  ghost predicate Uncleared(mate: Mate, member: Member, bus: seq<Envelope>) {
    !mate.phase.Cleared? && (Awaits(mate.phase) ==> !ClearedByFirst(mate, member, bus))
  }

  /** What the next poll makes of a waiting member, when something on the bus ends its wait. */
  lemma PollEndsWait(t: Team, member: Member)
    requires Inv(t) && member in t.mates && Awaits(t.mates[member].phase)
    requires FirstDecisive(t.mates[member].phase, member, t.bus, 0) < |t.bus|
    ensures var mate, mate' := t.mates[member], AfterPoll(t.mates[member], member, t.bus);
      && !Awaits(mate'.phase) && mate'.runs == mate.runs
      && (mate'.phase.Cleared? <==> ClearedByFirst(mate, member, t.bus))
      && (mate'.phase.Cleared? ==> mate'.phase.task == mate.phase.task && mate'.phase.subject == mate.phase.subject)
  {
    var i := FirstDecisive(t.mates[member].phase, member, t.bus, 0);
    ReadKeeps(t, member, i);
  }

  /** A member that has just asked meets an earlier shutdown request first, since an answer stands behind its request. */
  lemma ShutdownIsMetFirst(t: Team, member: Member, s: nat)
    requires Inv(t) && member in t.mates && Awaits(t.mates[member].phase)
    requires ShutdownAt(t.bus, member, s) && s < t.mates[member].phase.corr
    ensures !ClearedByFirst(t.mates[member], member, t.bus)
  {
    var p := t.mates[member].phase;
    var i := FirstDecisive(p, member, t.bus, 0);
    assert Decisive(p, member, t.bus[s]);
    assert EntryOk(t.bus, i);
  }

  lemma BusGrows(t: Team, step: Step)
    requires Enabled(t, step)
    ensures t.bus <= Apply(t, step).bus
  {
  }

  /** What comes later on the bus does not change which entry ends the wait. */
  lemma FirstStaysFirst(mate: Mate, member: Member, bus: seq<Envelope>, longer: seq<Envelope>, s: nat)
    requires Awaits(mate.phase) && bus <= longer && ShutdownAt(bus, member, s)
    ensures ClearedByFirst(mate, member, longer) <==> ClearedByFirst(mate, member, bus)
  {
    var i, j := FirstDecisive(mate.phase, member, bus, 0), FirstDecisive(mate.phase, member, longer, 0);
    assert Decisive(mate.phase, member, bus[s]) && Decisive(mate.phase, member, longer[s]);
    assert bus[i] == longer[i] && bus[j] == longer[j];
  }

  lemma StepStaysUncleared(t: Team, step: Step, member: Member, s: nat)
    requires Inv(t) && Enabled(t, step) && member in t.mates
    requires ShutdownAt(t.bus, member, s) && Uncleared(t.mates[member], member, t.bus)
    ensures var t' := Apply(t, step);
      ShutdownAt(t'.bus, member, s) && Uncleared(t'.mates[member], member, t'.bus) && t'.mates[member].runs == t.mates[member].runs
  {
    var t' := Apply(t, step);
    BusGrows(t, step);
    if t'.mates[member] == t.mates[member] {
      if Awaits(t.mates[member].phase) { FirstStaysFirst(t.mates[member], member, t.bus, t'.bus, s); }
    } else {
      OwnStepStaysUncleared(t, step, member, s);
    }
  }

  lemma OwnStepStaysUncleared(t: Team, step: Step, member: Member, s: nat)
    requires Inv(t) && Enabled(t, step) && member in t.mates && Apply(t, step).mates[member] != t.mates[member]
    requires ShutdownAt(t.bus, member, s) && Uncleared(t.mates[member], member, t.bus)
    ensures var t' := Apply(t, step); Uncleared(t'.mates[member], member, t'.bus) && t'.mates[member].runs == t.mates[member].runs
  {
    if step.Polls? {
      assert Decisive(t.mates[member].phase, member, t.bus[s]);
      PollEndsWait(t, member);
    } else if step.PostsPlan? || step.PostsAsk? {
      BusGrows(t, step);
      StepKeeps(t, step);
      ShutdownIsMetFirst(Apply(t, step), member, s);
    }
  }

  lemma {:induction false} RunStaysUncleared(t: Team, run: seq<Step>, member: Member, s: nat)
    requires Inv(t) && Admissible(t, run) && member in t.mates
    requires ShutdownAt(t.bus, member, s) && Uncleared(t.mates[member], member, t.bus)
    ensures member in Exec(t, run).mates && Exec(t, run).mates[member].runs == t.mates[member].runs
    decreases |run|
  {
    if run != [] {
      StepKeeps(t, run[0]);
      StepStaysUncleared(t, run[0], member, s);
      RunStaysUncleared(Apply(t, run[0]), run[1..], member, s);
    }
  }

  /**
   Once a request to shut it down is on the bus, a member that is not cleared, and whose wait, if it waits, does not
   end in the answer that clears it, never runs a shell again, whatever anybody does.
   */
  lemma ShutdownEndsShellRuns(members: set<Member>, run: seq<Step>, member: Member, more: seq<Step>)
    requires Admissible(Initial(members), run)
    requires var t := Exec(Initial(members), run);
      && member in t.mates && Uncleared(t.mates[member], member, t.bus)
      && ShutdownPosted(t.bus, member) && Admissible(t, more)
    ensures var t := Exec(Initial(members), run);
      member in Exec(t, more).mates && Exec(t, more).mates[member].runs == t.mates[member].runs
  {
    ReachableInv(members, run);
    var t := Exec(Initial(members), run);
    var s: nat :| ShutdownAt(t.bus, member, s);
    RunStaysUncleared(t, more, member, s);
  }

  // ----- without one -------------------------------------------------------------------------------------------

  /** A poll of the lead sees every entry addressed to it. */
  lemma {:induction false} PollAnswersAll(lead: Lead, snapshot: seq<Envelope>)
    ensures lead.answered <= PollLead(lead, snapshot).answered
    ensures forall i :: 0 <= i < |snapshot| && snapshot[i].to == LEAD_ID ==> snapshot[i].id in PollLead(lead, snapshot).answered
    decreases |snapshot|
  {
    if snapshot != [] { PollAnswersAll(lead, snapshot[..|snapshot| - 1]); }
  }

  lemma {:induction false} PostsAreResponses(lead: Lead, snapshot: seq<Envelope>, nextId: nat)
    ensures forall i :: 0 <= i < |PollPosts(lead, snapshot, nextId)| ==> IsResponse(PollPosts(lead, snapshot, nextId)[i].message)
    decreases |snapshot|
  {
    if snapshot != [] { PostsAreResponses(lead, snapshot[..|snapshot| - 1], nextId); }
  }

  /** What is in reach of the two: the state is reachable and nobody asked the member to stop. */
  ghost predicate Free(t: Team, member: Member) {
    Inv(t) && member in t.mates && !ShutdownPosted(t.bus, member)
  }

  lemma StaysFree(t: Team, member: Member, step: Step)
    requires Free(t, member) && Enabled(t, step) && ByTheTwo([step], member)
    ensures Free(Apply(t, step), member)
  {
    assert step == [step][0];
    StepKeeps(t, step);
    var t' := Apply(t, step);
    PostsAreResponses(t.lead, t.bus, t.nextId);
    forall s: nat ensures !ShutdownAt(t'.bus, member, s) { assert !ShutdownAt(t.bus, member, s); }
  }

  /** After the lead's poll the request a member waits on has its answer on the bus, addressed to the member. */
  lemma PollAnswers(t: Team, member: Member, c: Corr)
    requires Free(t, member) && Awaits(t.mates[member].phase) && t.mates[member].phase.corr == c
    ensures c < |t.bus| && Decide(t.bus[c].message).Some?
    ensures Awaited(t.mates[member].phase, Decide(t.bus[c].message).value)
    ensures var t1 := Apply(t, LeadPolls);
      exists i :: 0 <= i < |t1.bus| && t1.bus[i] == Envelope(i, LEAD_ID, member, Decide(t.bus[c].message).value)
  {
    assert MateOk(t.mates[member], t.bus, member) && EntryOk(t.bus, c);
    StepKeeps(t, LeadPolls);
    var t1 := Apply(t, LeadPolls);
    PollAnswersAll(t.lead, t.bus);
    assert t1.bus[c] == t.bus[c] && c in t1.lead.answered;
    assert Responded(t1.bus, c);
    var i :| 0 <= i < |t1.bus| && RespondsTo(t1.bus[i], c);
    assert EntryOk(t1.bus, i);
  }

  /** A poll of the bus acts on its entry at `i`. */
  ghost predicate ActsOn(mate: Mate, member: Member, bus: seq<Envelope>, i: nat, env: Envelope)
    requires Awaits(mate.phase)
  {
    && i < |bus| && bus[i] == env && Decisive(mate.phase, member, env)
    && AfterPoll(mate, member, bus) == AfterRead(mate, member, env)
  }

  /** So the member's own next poll acts on the lead's decision. */
  lemma PollFindsAnswer(t: Team, member: Member, c: Corr)
    requires Free(t, member) && Awaits(t.mates[member].phase) && t.mates[member].phase.corr == c
    ensures c < |t.bus| && Decide(t.bus[c].message).Some?
    ensures var t1, m := Apply(t, LeadPolls), Decide(t.bus[c].message).value;
      && t1.mates == t.mates
      && exists i :: ActsOn(t.mates[member], member, t1.bus, i, Envelope(i, LEAD_ID, member, m))
  {
    PollAnswers(t, member, c);
    assert [LeadPolls][0] == LeadPolls;
    StaysFree(t, member, LeadPolls);
    var t1, p := Apply(t, LeadPolls), t.mates[member].phase;
    var k :| 0 <= k < |t1.bus| && t1.bus[k] == Envelope(k, LEAD_ID, member, Decide(t.bus[c].message).value);
    assert Decisive(p, member, t1.bus[k]);
    var i := FirstDecisive(p, member, t1.bus, 0);
    assert !ShutdownAt(t1.bus, member, i);
    assert EntryOk(t1.bus, i) && t1.bus[c] == t.bus[c];
  }

  function Round(member: Member, post: Step): seq<Step> { [post, LeadPolls, Polls(member)] }

  lemma ExecCons(t: Team, step: Step, rest: seq<Step>)
    requires Enabled(t, step) && Admissible(Apply(t, step), rest)
    ensures Admissible(t, [step] + rest) && Exec(t, [step] + rest) == Exec(Apply(t, step), rest)
  {
    assert ([step] + rest)[1..] == rest;
  }

  lemma OneStep(t: Team, a: Step)
    requires Enabled(t, a)
    ensures Admissible(t, [a]) && Exec(t, [a]) == Apply(t, a)
  {
    ExecCons(t, a, []);
    assert [a] + [] == [a];
  }

  lemma TwoSteps(t: Team, a: Step, b: Step)
    requires Enabled(t, a) && Enabled(Apply(t, a), b)
    ensures Admissible(t, [a, b]) && Exec(t, [a, b]) == Apply(Apply(t, a), b)
  {
    OneStep(Apply(t, a), b);
    ExecCons(t, a, [b]);
    assert [a] + [b] == [a, b];
  }

  lemma ThreeSteps(t: Team, a: Step, b: Step, c: Step)
    requires Enabled(t, a) && Enabled(Apply(t, a), b) && Enabled(Apply(Apply(t, a), b), c)
    ensures Admissible(t, [a, b, c]) && Exec(t, [a, b, c]) == Apply(Apply(Apply(t, a), b), c)
  {
    TwoSteps(Apply(t, a), b, c);
    ExecCons(t, a, [b, c]);
    assert [a] + [b, c] == [a, b, c];
  }

  /** A round is its three steps, one after the other. */
  lemma RoundIsThreeSteps(t: Team, member: Member, post: Step)
    requires Enabled(t, post)
    requires var t2 := Apply(Apply(t, post), LeadPolls); Enabled(t2, Polls(member))
    ensures Admissible(t, Round(member, post))
    ensures Exec(t, Round(member, post)) == Apply(Apply(Apply(t, post), LeadPolls), Polls(member))
  {
    ThreeSteps(t, post, LeadPolls, Polls(member));
  }

  lemma RoundStaysFree(t: Team, member: Member, post: Step)
    requires Free(t, member) && Enabled(t, post) && post in {PostsPlan(member), PostsAsk(member)}
    ensures Free(Apply(t, post), member) && Free(Apply(Apply(t, post), LeadPolls), member)
    ensures Enabled(Apply(Apply(t, post), LeadPolls), Polls(member))
    ensures Free(Apply(Apply(Apply(t, post), LeadPolls), Polls(member)), member)
  {
    StaysFree(t, member, post);
    StaysFree(Apply(t, post), member, LeadPolls);
    StaysFree(Apply(Apply(t, post), LeadPolls), member, Polls(member));
  }

  /** What the lead's answer makes of a member that waits for a plan's. */
  lemma PlanSettles(t: Team, member: Member)
    requires Free(t, member) && t.mates[member].phase.AwaitPlan?
    ensures var mate, p := Apply(Apply(t, LeadPolls), Polls(member)).mates[member], t.mates[member].phase;
      && mate.runs == t.mates[member].runs
      && mate.phase ==
           if p.revision == 0 && HasMark(p.subject) then Planning(p.task, p.subject, 1)
           else if NeedsPermission(p.subject) then Asking(p.task, p.subject, p.corr)
           else Cleared(p.task, p.subject, p.corr, None)
  {
    var p := t.mates[member].phase;
    assert MateOk(t.mates[member], t.bus, member);
    RejectedExactlyWhen(p.corr, p.revision, p.subject);
    PollFindsAnswer(t, member, p.corr);
  }

  lemma PermissionSettles(t: Team, member: Member)
    requires Free(t, member) && t.mates[member].phase.AwaitPermission?
    ensures var mate, p := Apply(Apply(t, LeadPolls), Polls(member)).mates[member], t.mates[member].phase;
      mate.runs == t.mates[member].runs && mate.phase == Cleared(p.task, p.subject, p.planCorr, Some(p.corr))
  {
    assert MateOk(t.mates[member], t.bus, member);
    PollFindsAnswer(t, member, t.mates[member].phase.corr);
  }

  /** Post, answer, poll: one submission settles a plan, except a first revision the lead sends back. */
  lemma PlanRound(t: Team, member: Member) returns (t': Team)
    requires Free(t, member) && t.mates[member].phase.Planning?
    ensures Admissible(t, Round(member, PostsPlan(member))) && t' == Exec(t, Round(member, PostsPlan(member)))
    ensures Free(t', member) && t'.mates[member].runs == t.mates[member].runs
    ensures var p := t.mates[member].phase;
      t'.mates[member].phase ==
        if p.revision == 0 && HasMark(p.subject) then Planning(p.task, p.subject, 1)
        else if NeedsPermission(p.subject) then Asking(p.task, p.subject, t.nextId)
        else Cleared(p.task, p.subject, t.nextId, None)
  {
    RoundStaysFree(t, member, PostsPlan(member));
    RoundIsThreeSteps(t, member, PostsPlan(member));
    PlanSettles(Apply(t, PostsPlan(member)), member);
    t' := Exec(t, Round(member, PostsPlan(member)));
  }

  lemma PermissionRound(t: Team, member: Member) returns (t': Team)
    requires Free(t, member) && t.mates[member].phase.Asking?
    ensures Admissible(t, Round(member, PostsAsk(member))) && t' == Exec(t, Round(member, PostsAsk(member)))
    ensures Free(t', member) && t'.mates[member].runs == t.mates[member].runs
    ensures var p := t.mates[member].phase;
      t'.mates[member].phase == Cleared(p.task, p.subject, p.planCorr, Some(t.nextId))
  {
    RoundStaysFree(t, member, PostsAsk(member));
    RoundIsThreeSteps(t, member, PostsAsk(member));
    PermissionSettles(Apply(t, PostsAsk(member)), member);
    t' := Exec(t, Round(member, PostsAsk(member)));
  }

  lemma ShellLast(t: Team, member: Member)
    requires member in t.mates && t.mates[member].phase.Cleared?
    ensures var p := t.mates[member].phase;
      ByTheTwo([RunsShell(member)], member) && RunsTask(t, member, p.task, p.subject, [RunsShell(member)])
  {
    OneStep(t, RunsShell(member));
  }

  /** A run that leaves the member's shell runs alone, and then one that adds the task's. */
  lemma ThenRunsTask(t: Team, member: Member, task: nat, subject: string, run: seq<Step>, more: seq<Step>)
    requires member in t.mates && Admissible(t, run) && ByTheTwo(run, member) && ByTheTwo(more, member)
    requires member in Exec(t, run).mates && Exec(t, run).mates[member].runs == t.mates[member].runs
    requires RunsTask(Exec(t, run), member, task, subject, more)
    ensures ByTheTwo(run + more, member) && RunsTask(t, member, task, subject, run + more)
  {
    ExecAppend(t, run, more);
  }

  lemma ClearTask(t: Team, member: Member) returns (more: seq<Step>)
    requires Free(t, member) && t.mates[member].phase.Planning?
    ensures var p := t.mates[member].phase;
      |more| <= 10 && ByTheTwo(more, member) && RunsTask(t, member, p.task, p.subject, more)
  {
    var p, round := t.mates[member].phase, Round(member, PostsPlan(member));
    var t1 := PlanRound(t, member);
    var rest := ClearRest(t1, member);
    ThenRunsTask(t, member, p.task, p.subject, round, rest);
    more := round + rest;
  }

  lemma ClearRest(t: Team, member: Member) returns (more: seq<Step>)
    requires Free(t, member)
    requires var p := t.mates[member].phase; p.Asking? || p.Cleared? || (p.Planning? && p.revision == 1)
    ensures var p := t.mates[member].phase;
      |more| <= 7 && ByTheTwo(more, member) && RunsTask(t, member, p.task, p.subject, more)
  {
    var p := t.mates[member].phase;
    if p.Planning? {
      var round := Round(member, PostsPlan(member));
      var t1 := PlanRound(t, member);
      var rest := FinishCleared(t1, member);
      ThenRunsTask(t, member, p.task, p.subject, round, rest);
      more := round + rest;
    } else {
      more := FinishCleared(t, member);
    }
  }

  lemma FinishCleared(t: Team, member: Member) returns (more: seq<Step>)
    requires Free(t, member) && (t.mates[member].phase.Asking? || t.mates[member].phase.Cleared?)
    ensures var p := t.mates[member].phase;
      |more| <= 4 && ByTheTwo(more, member) && RunsTask(t, member, p.task, p.subject, more)
  {
    var p, last := t.mates[member].phase, [RunsShell(member)];
    if p.Asking? {
      var round := Round(member, PostsAsk(member));
      var t1 := PermissionRound(t, member);
      ShellLast(t1, member);
      ThenRunsTask(t, member, p.task, p.subject, round, last);
      more := round + last;
    } else {
      ShellLast(t, member);
      more := last;
    }
  }

  /** A member that waits while no shutdown request is posted: the lead's poll and its own settle the answer. */
  lemma ClearWaiting(t: Team, member: Member) returns (more: seq<Step>)
    requires Free(t, member) && Awaits(t.mates[member].phase)
    ensures var p := t.mates[member].phase;
      |more| <= 9 && ByTheTwo(more, member) && RunsTask(t, member, p.task, p.subject, more)
  {
    var p, wait := t.mates[member].phase, [LeadPolls, Polls(member)];
    var t1 := AfterWait(t, member);
    var rest;
    if p.AwaitPlan? {
      PlanSettles(t, member);
      rest := ClearRest(t1, member);
    } else {
      PermissionSettles(t, member);
      rest := FinishCleared(t1, member);
    }
    ThenRunsTask(t, member, p.task, p.subject, wait, rest);
    more := wait + rest;
  }

  lemma AfterWait(t: Team, member: Member) returns (t': Team)
    requires Free(t, member) && Awaits(t.mates[member].phase)
    ensures Admissible(t, [LeadPolls, Polls(member)]) && t' == Exec(t, [LeadPolls, Polls(member)])
    ensures t' == Apply(Apply(t, LeadPolls), Polls(member)) && Free(t', member)
  {
    StaysFree(t, member, LeadPolls);
    StaysFree(Apply(t, LeadPolls), member, Polls(member));
    TwoSteps(t, LeadPolls, Polls(member));
    t' := Exec(t, [LeadPolls, Polls(member)]);
  }

  /** A member whose wait ends in the answer that clears it: its poll, and the shell. */
  lemma ClearAnswered(t: Team, member: Member) returns (more: seq<Step>)
    requires Inv(t) && member in t.mates && Awaits(t.mates[member].phase) && ClearedByFirst(t.mates[member], member, t.bus)
    ensures var p := t.mates[member].phase;
      |more| <= 2 && ByTheTwo(more, member) && RunsTask(t, member, p.task, p.subject, more)
  {
    var p := t.mates[member].phase;
    PollEndsWait(t, member);
    OneStep(t, Polls(member));
    ShellLast(Apply(t, Polls(member)), member);
    ThenRunsTask(t, member, p.task, p.subject, [Polls(member)], [RunsShell(member)]);
    more := [Polls(member)] + [RunsShell(member)];
  }

  /** Working on a task: planning it, waiting for an answer about it, or cleared for it. */
  predicate Working(phase: Phase) {
    phase.Planning? || phase.Asking? || Awaits(phase) || phase.Cleared?
  }

  /** What decides: no shutdown request on the bus, or cleared already, or about to be. */
  ghost predicate CanStillRun(mate: Mate, member: Member, bus: seq<Envelope>) {
    !ShutdownPosted(bus, member) || !Uncleared(mate, member, bus)
  }

  lemma ClearIt(t: Team, member: Member) returns (more: seq<Step>)
    requires Inv(t) && member in t.mates && Working(t.mates[member].phase) && CanStillRun(t.mates[member], member, t.bus)
    ensures var p := t.mates[member].phase;
      |more| <= 10 && ByTheTwo(more, member) && RunsTask(t, member, p.task, p.subject, more)
  {
    var mate := t.mates[member];
    if mate.phase.Cleared? {
      ShellLast(t, member);
      more := [RunsShell(member)];
    } else if Awaits(mate.phase) && ClearedByFirst(mate, member, t.bus) {
      more := ClearAnswered(t, member);
    } else if Awaits(mate.phase) {
      more := ClearWaiting(t, member);
    } else if mate.phase.Asking? {
      more := FinishCleared(t, member);
    } else {
      more := ClearTask(t, member);
    }
  }

  /**
   Whatever state the team is in, the task a member works on gets its shell run by steps of the lead and the member
   alone if and only if no request to shut the member down is on the bus, or the member is cleared already, or the
   first entry that ends its wait is the answer that clears it; and then within ten steps.
   */
  lemma ClearsExactlyWhen(members: set<Member>, run: seq<Step>, member: Member)
    requires Admissible(Initial(members), run) && member in Exec(Initial(members), run).mates
    requires Working(Exec(Initial(members), run).mates[member].phase)
    ensures var t := Exec(Initial(members), run); var p := t.mates[member].phase;
      && (CanStillRun(t.mates[member], member, t.bus) <==>
            exists more :: ByTheTwo(more, member) && RunsTask(t, member, p.task, p.subject, more))
      && (CanStillRun(t.mates[member], member, t.bus) ==>
            exists more :: |more| <= 10 && ByTheTwo(more, member) && RunsTask(t, member, p.task, p.subject, more))
  {
    ReachableInv(members, run);
    var t := Exec(Initial(members), run);
    var p := t.mates[member].phase;
    if CanStillRun(t.mates[member], member, t.bus) {
      var more := ClearIt(t, member);
    } else {
      forall more ensures !RunsTask(t, member, p.task, p.subject, more) {
        if Admissible(t, more) { ShutdownEndsShellRuns(members, run, member, more); }
      }
    }
  }

  /** A task claimed just before the shutdown request is never worked on, though the member still submits its plan. */
  lemma ShutdownBeforeAnswer(members: set<Member>, member: Member, task: nat, subject: string, more: seq<Step>)
    requires member in members && member != LEAD_ID
    ensures var run := [Claims(member, task, subject), LeadShutsDown(member)];
      && Admissible(Initial(members), run)
      && var t := Exec(Initial(members), run);
         && Enabled(t, PostsPlan(member))
         && (Admissible(t, more) ==> member in Exec(t, more).mates && Exec(t, more).mates[member].runs == [])
  {
    var t0, a, b := Initial(members), Claims(member, task, subject), LeadShutsDown(member);
    var t := Apply(Apply(t0, a), b);
    TwoSteps(t0, a, b);
    assert ShutdownAt(t.bus, member, 0);
    if Admissible(t, more) { ShutdownEndsShellRuns(members, [a, b], member, more); }
  }
}
