/**
 The team over every interleaving: one lead response per request, shell work only after an approving
 answer to the teammate's own request, and every plan approved by its second submission.
 */
module TeamSafety {
  import opened Options
  import opened TeamBus

  // ----- counting what was posted ----------------------------------------------------------------------------

  function Tally(bus: seq<Envelope>): (nat, nat, nat) {
    if bus == [] then (0, 0, 0)
    else
      var (approved, rejected, granted) := Tally(bus[..|bus| - 1]);
      match bus[|bus| - 1].message
      case PlanResponse(_, true) => (approved + 1, rejected, granted)
      case PlanResponse(_, false) => (approved, rejected + 1, granted)
      case PermissionResponse(_, true) => (approved, rejected, granted + 1)
      case _ => (approved, rejected, granted)
  }

  predicate RespondsTo(e: Envelope, c: Corr) {
    IsResponse(e.message) && e.message.corr == c
  }

  ghost predicate Responded(bus: seq<Envelope>, c: Corr) {
    exists i :: 0 <= i < |bus| && RespondsTo(bus[i], c)
  }

  // ----- the invariant -----------------------------------------------------------------------------------------

  /** Ids are positions, requests go to the lead under their own id, and responses are the lead's answer to one. */
  ghost predicate EntryOk(bus: seq<Envelope>, i: nat)
    requires i < |bus|
  {
    var e := bus[i];
    && e.id == i
    && (IsRequest(e.message) ==> e.message.corr == i && e.to == LEAD_ID && e.from != LEAD_ID)
    && (IsResponse(e.message) ==>
          && e.message.corr < i && e.from == LEAD_ID
          && IsRequest(bus[e.message.corr].message) && e.to == bus[e.message.corr].from
          && Decide(bus[e.message.corr].message) == Some(e.message))
  }

  ghost predicate BusOk(bus: seq<Envelope>) {
    && (forall i :: 0 <= i < |bus| ==> EntryOk(bus, i))
    && (forall i, j, c :: 0 <= i < j < |bus| && RespondsTo(bus[i], c) ==> !RespondsTo(bus[j], c))
  }

  ghost predicate LeadOk(lead: Lead, bus: seq<Envelope>) {
    && (forall c :: c in lead.responded <==> Responded(bus, c))
    && (forall id :: id in lead.answered ==> id < |bus|)
    && (forall i :: 0 <= i < |bus| && i in lead.answered && bus[i].to == LEAD_ID && IsRequest(bus[i].message) ==> i in lead.responded)
    && (lead.plansApproved, lead.plansRejected, lead.permissionsGranted) == Tally(bus)
  }

  /** The member asked for this plan and the lead approved it. */
  ghost predicate PlanApproved(bus: seq<Envelope>, member: Member, subject: string, c: Corr) {
    && c < |bus| && bus[c].from == member
    && (exists revision: nat :: revision <= 1 && bus[c].message == PlanRequest(c, PlanText(revision, subject)))
    && (exists i :: 0 <= i < |bus| && bus[i] == Envelope(i, LEAD_ID, member, PlanResponse(c, true)))
  }

  ghost predicate PermissionGranted(bus: seq<Envelope>, member: Member, task: nat, c: Corr) {
    && c < |bus| && bus[c].from == member && bus[c].message == PermissionRequest(c, ActionText(task))
    && (exists i :: 0 <= i < |bus| && bus[i] == Envelope(i, LEAD_ID, member, PermissionResponse(c, true)))
  }

  /** What must have happened before a shell may run. */
  ghost predicate MayRun(bus: seq<Envelope>, member: Member, r: ShellRun) {
    && PlanApproved(bus, member, r.subject, r.planCorr)
    && (NeedsPermission(r.subject) <==> r.permissionCorr.Some?)
    && (r.permissionCorr.Some? ==> PermissionGranted(bus, member, r.task, r.permissionCorr.value))
  }

  ghost predicate Pending(mate: Mate, bus: seq<Envelope>, member: Member, c: Corr, m: Message) {
    c in mate.outstanding && mate.outstanding[c] == Outstanding(m, member, LEAD_ID)
    && c < |bus| && bus[c] == Envelope(c, member, LEAD_ID, m)
  }

  ghost predicate PhaseOk(mate: Mate, bus: seq<Envelope>, member: Member) {
    match mate.phase
    case Planning(_, _, revision) => revision <= 1
    case AwaitPlan(_, subject, revision, c) => revision <= 1 && Pending(mate, bus, member, c, PlanRequest(c, PlanText(revision, subject)))
    case Asking(_, subject, planCorr) => NeedsPermission(subject) && PlanApproved(bus, member, subject, planCorr)
    case AwaitPermission(task, subject, planCorr, c) =>
      && NeedsPermission(subject) && PlanApproved(bus, member, subject, planCorr)
      && Pending(mate, bus, member, c, PermissionRequest(c, ActionText(task)))
    case Cleared(task, subject, planCorr, permissionCorr) => MayRun(bus, member, ShellRun(task, subject, planCorr, permissionCorr))
    case Idle | Stopped => true
    case Abandoned(_, _) | Faulted => false
  }

  ghost predicate MateOk(mate: Mate, bus: seq<Envelope>, member: Member) {
    && member != LEAD_ID
    && PhaseOk(mate, bus, member)
    && (forall r :: r in mate.runs ==> MayRun(bus, member, r))
  }

  ghost predicate Inv(t: Team) {
    && t.nextId == |t.bus|
    && BusOk(t.bus) && LeadOk(t.lead, t.bus)
    && (forall m :: m in t.mates ==> MateOk(t.mates[m], t.bus, m))
  }

  // ----- appending keeps what was established --------------------------------------------------------------------

  lemma AppendKeepsBus(bus: seq<Envelope>, e: Envelope)
    requires BusOk(bus) && EntryOk(bus + [e], |bus|)
    requires IsResponse(e.message) ==> !Responded(bus, e.message.corr)
    ensures BusOk(bus + [e])
  {
    var bus' := bus + [e];
    forall i | 0 <= i < |bus'| ensures EntryOk(bus', i) { if i < |bus| { assert EntryOk(bus, i); } }
    forall i, j, c | 0 <= i < j < |bus'| && RespondsTo(bus'[i], c) ensures !RespondsTo(bus'[j], c) {
      if j == |bus| { assert RespondsTo(bus[i], c); }
    }
  }

  lemma AppendKeepsMate(mate: Mate, bus: seq<Envelope>, e: Envelope, member: Member)
    requires MateOk(mate, bus, member)
    ensures MateOk(mate, bus + [e], member)
  {
    forall c, subject | PlanApproved(bus, member, subject, c) ensures PlanApproved(bus + [e], member, subject, c) {
      ApprovalStays(bus, e, member, subject, c);
    }
    forall c, task | PermissionGranted(bus, member, task, c) ensures PermissionGranted(bus + [e], member, task, c) {
      GrantStays(bus, e, member, task, c);
    }
  }

  lemma ApprovalStays(bus: seq<Envelope>, e: Envelope, member: Member, subject: string, c: Corr)
    requires PlanApproved(bus, member, subject, c)
    ensures PlanApproved(bus + [e], member, subject, c)
  {
    var i :| 0 <= i < |bus| && bus[i] == Envelope(i, LEAD_ID, member, PlanResponse(c, true));
    assert (bus + [e])[i] == Envelope(i, LEAD_ID, member, PlanResponse(c, true));
    var revision: nat :| revision <= 1 && bus[c].message == PlanRequest(c, PlanText(revision, subject));
    assert (bus + [e])[c].message == PlanRequest(c, PlanText(revision, subject));
  }

  lemma GrantStays(bus: seq<Envelope>, e: Envelope, member: Member, task: nat, c: Corr)
    requires PermissionGranted(bus, member, task, c)
    ensures PermissionGranted(bus + [e], member, task, c)
  {
    var i :| 0 <= i < |bus| && bus[i] == Envelope(i, LEAD_ID, member, PermissionResponse(c, true));
    assert (bus + [e])[i] == Envelope(i, LEAD_ID, member, PermissionResponse(c, true));
  }

  lemma AppendKeepsLead(lead: Lead, bus: seq<Envelope>, e: Envelope)
    requires LeadOk(lead, bus) && !IsResponse(e.message)
    ensures LeadOk(lead, bus + [e])
  {
    RespondedExtend(bus, e);
    assert (bus + [e])[..|bus|] == bus;
  }

  lemma RespondedExtend(bus: seq<Envelope>, e: Envelope)
    ensures forall c :: Responded(bus + [e], c) <==> Responded(bus, c) || RespondsTo(e, c)
  {
    forall c ensures Responded(bus + [e], c) <==> Responded(bus, c) || RespondsTo(e, c) {
      if Responded(bus, c) {
        var i :| 0 <= i < |bus| && RespondsTo(bus[i], c);
        assert RespondsTo((bus + [e])[i], c);
      }
      if RespondsTo(e, c) { assert RespondsTo((bus + [e])[|bus|], c); }
    }
  }

  /** A message that is no response, posted under the next id. */
  lemma PostKeeps(t: Team, from: Member, to: Member, m: Message)
    requires Inv(t) && !IsResponse(m)
    requires IsRequest(m) ==> m.corr == t.nextId && to == LEAD_ID && from != LEAD_ID
    ensures Inv(Post(t, from, to, m))
  {
    var e := Envelope(t.nextId, from, to, m);
    AppendKeepsBus(t.bus, e);
    AppendKeepsLead(t.lead, t.bus, e);
    forall k | k in t.mates ensures MateOk(t.mates[k], t.bus + [e], k) { AppendKeepsMate(t.mates[k], t.bus, e, k); }
  }

  lemma ReplyKeepsBus(lead: Lead, bus: seq<Envelope>, at: nat)
    requires BusOk(bus) && LeadOk(lead, bus) && at < |bus| && Reply(lead, bus[at]).Some?
    ensures BusOk(bus + [Envelope(|bus|, LEAD_ID, bus[at].from, Reply(lead, bus[at]).value)])
  {
    assert EntryOk(bus, at);
    AppendKeepsBus(bus, Envelope(|bus|, LEAD_ID, bus[at].from, Reply(lead, bus[at]).value));
  }

  function Approves(m: Message): nat { if m.PlanResponse? && m.approved then 1 else 0 }
  function Rejects(m: Message): nat { if m.PlanResponse? && !m.approved then 1 else 0 }
  function Permits(m: Message): nat { if m.PermissionResponse? && m.granted then 1 else 0 }

  lemma TallyGrows(bus: seq<Envelope>, e: Envelope)
    ensures Tally(bus + [e]).0 == Tally(bus).0 + Approves(e.message)
    ensures Tally(bus + [e]).1 == Tally(bus).1 + Rejects(e.message)
    ensures Tally(bus + [e]).2 == Tally(bus).2 + Permits(e.message)
  {
    assert (bus + [e])[..|bus|] == bus;
  }

  lemma CountedAdds(lead: Lead, m: Message)
    requires IsResponse(m)
    ensures Counted(lead, m).plansApproved == lead.plansApproved + Approves(m)
    ensures Counted(lead, m).plansRejected == lead.plansRejected + Rejects(m)
    ensures Counted(lead, m).permissionsGranted == lead.permissionsGranted + Permits(m)
  {
  }

  /** The counters go up with the response that is posted. */
  lemma ReplyTallies(lead: Lead, bus: seq<Envelope>, at: nat, e: Envelope)
    requires at < |bus| && Reply(lead, bus[at]) == Some(e.message)
    requires (lead.plansApproved, lead.plansRejected, lead.permissionsGranted) == Tally(bus)
    ensures var l := AfterEntry(lead, bus[at]); (l.plansApproved, l.plansRejected, l.permissionsGranted) == Tally(bus + [e])
  {
    TallyGrows(bus, e);
    CountedAdds(lead.(answered := lead.answered + {bus[at].id}), e.message);
  }

  /** And the answered entry and the response are remembered. */
  lemma ReplyIsRemembered(lead: Lead, bus: seq<Envelope>, at: nat, e: Envelope)
    requires at < |bus| && Reply(lead, bus[at]) == Some(e.message)
    ensures AfterEntry(lead, bus[at]).responded == lead.responded + {e.message.corr}
    ensures AfterEntry(lead, bus[at]).answered == lead.answered + {bus[at].id}
  {
  }

  lemma ReplyKeepsLead(lead: Lead, bus: seq<Envelope>, at: nat)
    requires BusOk(bus) && LeadOk(lead, bus) && at < |bus| && Reply(lead, bus[at]).Some?
    ensures LeadOk(AfterEntry(lead, bus[at]), bus + [Envelope(|bus|, LEAD_ID, bus[at].from, Reply(lead, bus[at]).value)])
  {
    assert EntryOk(bus, at);
    var e := Envelope(|bus|, LEAD_ID, bus[at].from, Reply(lead, bus[at]).value);
    RespondedExtend(bus, e);
    ReplyTallies(lead, bus, at, e);
    ReplyIsRemembered(lead, bus, at, e);
  }

  lemma LeadKeeps(t: Team, at: nat)
    requires Inv(t) && at < |t.bus|
    ensures Inv(Apply(t, LeadHandles(at)))
  {
    var env := t.bus[at];
    var reply := Reply(t.lead, env);
    assert EntryOk(t.bus, at);
    if reply.Some? {
      var e := Envelope(t.nextId, LEAD_ID, env.from, reply.value);
      ReplyKeepsBus(t.lead, t.bus, at);
      ReplyKeepsLead(t.lead, t.bus, at);
      forall k | k in t.mates ensures MateOk(t.mates[k], t.bus + [e], k) { AppendKeepsMate(t.mates[k], t.bus, e, k); }
    } else {
      assert LeadOk(AfterEntry(t.lead, env), t.bus);
    }
  }

  lemma SetMateKeeps(t: Team, member: Member, mate: Mate)
    requires Inv(t) && MateOk(mate, t.bus, member)
    ensures Inv(t.(mates := t.mates[member := mate]))
  {
  }

  lemma RequestKeeps(t: Team, member: Member, m: Message, phase: Phase)
    requires Inv(t) && member in t.mates && IsRequest(m) && m.corr == t.nextId
    requires var t' := Request(t, member, m, phase); PhaseOk(t'.mates[member], t'.bus, member)
    ensures Inv(Request(t, member, m, phase))
  {
    assert MateOk(t.mates[member], t.bus, member);
    var posted := Post(t, member, LEAD_ID, m);
    PostKeeps(t, member, LEAD_ID, m);
    assert MateOk(posted.mates[member], posted.bus, member);
    SetMateKeeps(posted, member, Request(t, member, m, phase).mates[member]);
  }

  /** A matching answer is always the lead's, so the tracker never refuses one and a rejection means revision 0. */
  lemma ReadKeeps(t: Team, member: Member, at: nat)
    requires Inv(t) && member in t.mates && Awaits(t.mates[member].phase)
    requires at < |t.bus| && Decisive(t.mates[member].phase, member, t.bus[at])
    ensures MateOk(AfterRead(t.mates[member], member, t.bus[at]), t.bus, member)
  {
    var mate, env := t.mates[member], t.bus[at];
    assert MateOk(mate, t.bus, member) && EntryOk(t.bus, at);
    var p, m := mate.phase, env.message;
    if Awaited(p, m) {
      if p.AwaitPlan? {
        assert t.bus[p.corr].message == PlanRequest(p.corr, PlanText(p.revision, p.subject));
        RejectedExactlyWhen(p.corr, p.revision, p.subject);
        if m.approved {
          assert t.bus[at] == Envelope(at, LEAD_ID, member, PlanResponse(p.corr, true));
          assert PlanApproved(t.bus, member, p.subject, p.corr);
        }
      } else {
        assert t.bus[at] == Envelope(at, LEAD_ID, member, PermissionResponse(p.corr, true));
        assert PermissionGranted(t.bus, member, p.task, p.corr);
      }
    }
  }

  lemma PollKeeps(t: Team, member: Member)
    requires Inv(t) && Enabled(t, Polls(member))
    ensures Inv(Apply(t, Polls(member)))
  {
    var i := FirstDecisive(t.mates[member].phase, member, t.bus, 0);
    if i < |t.bus| { ReadKeeps(t, member, i); }
    assert MateOk(t.mates[member], t.bus, member);
    SetMateKeeps(t, member, AfterPoll(t.mates[member], member, t.bus));
  }

  lemma {:induction false} EachKeeps(t: Team, n: nat)
    requires Inv(t) && n <= |t.bus|
    ensures Inv(AfterLeadPoll(t, t.bus[..n]))
  {
    if n > 0 {
      EachKeeps(t, n - 1);
      HandleNext(t, n - 1);
      LeadKeeps(AfterLeadPoll(t, t.bus[..n - 1]), n - 1);
    } else {
      assert t.bus + [] == t.bus;
    }
  }

  /** A member moves on without a word on the bus. */
  lemma PhaseStepKeeps(t: Team, step: Step)
    requires Inv(t) && Enabled(t, step) && (step.Claims? || step.GivesUp? || step.RunsShell? || step.Halts?)
    ensures Inv(Apply(t, step))
  {
    assert MateOk(t.mates[step.member], t.bus, step.member);
    SetMateKeeps(t, step.member, Apply(t, step).mates[step.member]);
  }

  /** A member posts a request and waits for its answer. */
  lemma RequestStepKeeps(t: Team, step: Step)
    requires Inv(t) && Enabled(t, step) && (step.PostsPlan? || step.PostsAsk?)
    ensures Inv(Apply(t, step))
  {
    assert MateOk(t.mates[step.member], t.bus, step.member);
    var p, member := t.mates[step.member].phase, step.member;
    if step.PostsPlan? {
      RequestKeeps(t, member, PlanRequest(t.nextId, PlanText(p.revision, p.subject)), AwaitPlan(p.task, p.subject, p.revision, t.nextId));
    } else {
      var m := PermissionRequest(t.nextId, ActionText(p.task));
      ApprovalStays(t.bus, Envelope(t.nextId, member, LEAD_ID, m), member, p.subject, p.planCorr);
      RequestKeeps(t, member, m, AwaitPermission(p.task, p.subject, p.planCorr, t.nextId));
    }
  }

  lemma StepKeeps(t: Team, step: Step)
    requires Inv(t) && Enabled(t, step)
    ensures Inv(Apply(t, step))
  {
    match step
    case LeadHandles(at) => LeadKeeps(t, at);
    case LeadPolls =>
      EachKeeps(t, |t.bus|);
      assert t.bus[..|t.bus|] == t.bus;
    case LeadShutsDown(member) => PostKeeps(t, LEAD_ID, member, ShutdownRequest(t.nextId));
    case LeadPosts(member, text) => PostKeeps(t, LEAD_ID, member, Notice(text));
    case Polls(member) => PollKeeps(t, member);
    case PostsPlan(_) => RequestStepKeeps(t, step);
    case PostsAsk(_) => RequestStepKeeps(t, step);
    case _ => PhaseStepKeeps(t, step);
  }

  lemma {:induction false} RunKeeps(t: Team, run: seq<Step>)
    requires Inv(t) && Admissible(t, run)
    ensures Inv(Exec(t, run))
    decreases |run|
  {
    if run != [] {
      StepKeeps(t, run[0]);
      RunKeeps(Apply(t, run[0]), run[1..]);
    }
  }

  lemma ReachableInv(members: set<Member>, run: seq<Step>)
    requires Admissible(Initial(members), run)
    ensures Inv(Exec(Initial(members), run))
  {
    RunKeeps(Initial(members), run);
  }

  // ----- the main results -------------------------------------------------------------------------------------------

  /** The response at `i` is the lead's decision on an earlier request, addressed to whoever made it. */
  predicate AnswersEarlier(bus: seq<Envelope>, i: nat)
    requires i < |bus| && IsResponse(bus[i].message)
  {
    var c := bus[i].message.corr;
    && c < i && bus[i].from == LEAD_ID && bus[i].to == bus[c].from
    && IsRequest(bus[c].message) && Decide(bus[c].message) == Some(bus[i].message)
  }

  /**
   At most one lead response per correlation id, each the lead's decision on an earlier request and
   addressed to its author; and the lead's counters are the responses posted.
   */
  lemma OneResponsePerRequest(members: set<Member>, run: seq<Step>)
    requires Admissible(Initial(members), run)
    ensures var t := Exec(Initial(members), run);
      && (forall i, j, c :: 0 <= i < j < |t.bus| && RespondsTo(t.bus[i], c) ==> !RespondsTo(t.bus[j], c))
      && (forall i :: 0 <= i < |t.bus| && IsResponse(t.bus[i].message) ==> AnswersEarlier(t.bus, i))
      && (t.lead.plansApproved, t.lead.plansRejected, t.lead.permissionsGranted) == Tally(t.bus)
  {
    ReachableInv(members, run);
    var t := Exec(Initial(members), run);
    forall i | 0 <= i < |t.bus| && IsResponse(t.bus[i].message) ensures AnswersEarlier(t.bus, i) {
      assert EntryOk(t.bus, i);
    }
  }

  /**
   A shell ran for a task only after the lead approved a plan this very teammate had submitted for its
   subject and, where the subject asks for it, granted the permission it had requested for that task.
   */
  lemma ShellOnlyWhenCleared(members: set<Member>, run: seq<Step>, member: Member, r: ShellRun)
    requires Admissible(Initial(members), run)
    requires var t := Exec(Initial(members), run); member in t.mates && r in t.mates[member].runs
    ensures MayRun(Exec(Initial(members), run).bus, member, r)
  {
    ReachableInv(members, run);
    var t := Exec(Initial(members), run);
    assert MateOk(t.mates[member], t.bus, member);
  }

  /** No plan needs a third submission and the tracker never refuses an answer. */
  lemma ApprovedByRevisionOne(members: set<Member>, run: seq<Step>, member: Member)
    requires Admissible(Initial(members), run) && member in Exec(Initial(members), run).mates
    ensures var p := Exec(Initial(members), run).mates[member].phase;
      && !p.Abandoned? && !p.Faulted?
      && (p.Planning? || p.AwaitPlan? ==> p.revision <= 1)
  {
    ReachableInv(members, run);
    var t := Exec(Initial(members), run);
    assert MateOk(t.mates[member], t.bus, member);
  }

  // ----- an answer clears one shell run ---------------------------------------------------------------------------

  /** The correlation ids of the answers a shell run relied on. */
  function ClearedBy(r: ShellRun): set<Corr> {
    {r.planCorr} + if r.permissionCorr.Some? then {r.permissionCorr.value} else {}
  }

  /** The younger of them: permission is asked for after the plan is approved. */
  function Youngest(r: ShellRun): Corr {
    if r.permissionCorr.Some? then r.permissionCorr.value else r.planCorr
  }

  ghost predicate AllBefore(runs: seq<ShellRun>, c: Corr) {
    forall i :: 0 <= i < |runs| ==> Youngest(runs[i]) < c
  }

  /** A member's shell runs, and what it works on now, rely on ever younger answers. */
  ghost predicate EverYounger(mate: Mate, next: nat) {
    && AllBefore(mate.runs, next)
    && (forall i :: 0 <= i < |mate.runs| ==> mate.runs[i].planCorr <= Youngest(mate.runs[i]))
    && (forall i, j :: 0 <= i < j < |mate.runs| ==> Youngest(mate.runs[i]) < mate.runs[j].planCorr)
    && match mate.phase
       case AwaitPlan(_, _, _, c) => AllBefore(mate.runs, c) && c < next
       case Asking(_, _, planCorr) => AllBefore(mate.runs, planCorr) && planCorr < next
       case AwaitPermission(_, _, planCorr, c) => AllBefore(mate.runs, planCorr) && planCorr < c < next
       case Cleared(task, subject, planCorr, permissionCorr) =>
         AllBefore(mate.runs, planCorr) && planCorr <= Youngest(ShellRun(task, subject, planCorr, permissionCorr)) < next
       case _ => true
  }

  ghost predicate AllEverYounger(t: Team) {
    forall m :: m in t.mates ==> EverYounger(t.mates[m], t.nextId)
  }

  lemma PollStaysYounger(mate: Mate, member: Member, bus: seq<Envelope>, next: nat)
    requires EverYounger(mate, next) && Awaits(mate.phase)
    ensures EverYounger(AfterPoll(mate, member, bus), next)
  {
  }

  lemma StaysYoungerLater(mate: Mate, next: nat, later: nat)
    requires EverYounger(mate, next) && next <= later
    ensures EverYounger(mate, later)
  {
  }

  lemma ShellStaysYounger(t: Team, member: Member)
    requires AllEverYounger(t) && Enabled(t, RunsShell(member))
    ensures EverYounger(Apply(t, RunsShell(member)).mates[member], t.nextId)
  {
    assert EverYounger(t.mates[member], t.nextId);
  }

  lemma OwnStepStaysYounger(t: Team, step: Step, member: Member)
    requires AllEverYounger(t) && Enabled(t, step) && member in t.mates && Apply(t, step).mates[member] != t.mates[member]
    ensures EverYounger(Apply(t, step).mates[member], Apply(t, step).nextId)
  {
    assert EverYounger(t.mates[member], t.nextId);
    match step
    case Polls(_) => PollStaysYounger(t.mates[member], member, t.bus, t.nextId);
    case RunsShell(_) => ShellStaysYounger(t, member);
    case _ =>
  }

  lemma StepStaysYounger(t: Team, step: Step)
    requires AllEverYounger(t) && Enabled(t, step)
    ensures AllEverYounger(Apply(t, step))
  {
    var t' := Apply(t, step);
    forall m | m in t'.mates ensures EverYounger(t'.mates[m], t'.nextId) {
      if t'.mates[m] == t.mates[m] { StaysYoungerLater(t.mates[m], t.nextId, t'.nextId); } else { OwnStepStaysYounger(t, step, m); }
    }
  }

  lemma {:induction false} RunStaysYounger(t: Team, run: seq<Step>)
    requires AllEverYounger(t) && Admissible(t, run)
    ensures AllEverYounger(Exec(t, run))
    decreases |run|
  {
    if run != [] {
      StepStaysYounger(t, run[0]);
      RunStaysYounger(Apply(t, run[0]), run[1..]);
    }
  }

  lemma AnswersAreOwn(t: Team, member: Member, r: ShellRun, c: Corr)
    requires Inv(t) && member in t.mates && r in t.mates[member].runs && c in ClearedBy(r)
    ensures c < |t.bus| && t.bus[c].from == member
  {
    assert MateOk(t.mates[member], t.bus, member);
    assert MayRun(t.bus, member, r);
  }

  /** No approval and no grant ever clears two shell runs, of one member or of two. */
  lemma AnswerClearsOneRun(members: set<Member>, run: seq<Step>, a: Member, i: nat, b: Member, j: nat)
    requires Admissible(Initial(members), run)
    requires var t := Exec(Initial(members), run);
      a in t.mates && b in t.mates && i < |t.mates[a].runs| && j < |t.mates[b].runs| && (a != b || i != j)
    ensures var t := Exec(Initial(members), run); ClearedBy(t.mates[a].runs[i]) !! ClearedBy(t.mates[b].runs[j])
  {
    ReachableInv(members, run);
    RunStaysYounger(Initial(members), run);
    var t := Exec(Initial(members), run);
    forall c | c in ClearedBy(t.mates[a].runs[i]) && c in ClearedBy(t.mates[b].runs[j]) ensures a == b {
      AnswersAreOwn(t, a, t.mates[a].runs[i], c);
      AnswersAreOwn(t, b, t.mates[b].runs[j], c);
    }
    if a == b { assert EverYounger(t.mates[a], t.nextId); }
  }

  // ----- which subjects ask first, by their characters ------------------------------------------------------------

  predicate StartsWithP(subject: string) { |subject| >= 2 && subject[0] == 'P' && subject[1] == ':' }

  /**
   A shell run whose subject starts with the two characters `P:` carries a permission that the lead granted to this
   teammate for this task, and a run with any other subject carries none.
   */
  lemma PermissionGoesByTheSubject(members: set<Member>, run: seq<Step>, member: Member, r: ShellRun)
    requires Admissible(Initial(members), run)
    requires var t := Exec(Initial(members), run); member in t.mates && r in t.mates[member].runs
    ensures StartsWithP(r.subject) ==>
      r.permissionCorr.Some? && PermissionGranted(Exec(Initial(members), run).bus, member, r.task, r.permissionCorr.value)
    ensures !StartsWithP(r.subject) ==> r.permissionCorr == None
  {
    ShellOnlyWhenCleared(members, run, member, r);
    AsksByCharacters(r.subject);
  }

  lemma AsksByCharacters(subject: string)
    ensures NeedsPermission(subject) <==> StartsWithP(subject)
  {
    if StartsWithP(subject) { assert subject[..2] == "P:"; }
  }

  /** Once the approval of its plan is read, a teammate may ask or may run: never both, and by the subject alone. */
  lemma AfterApproval(members: set<Member>, run: seq<Step>, member: Member)
    requires Admissible(Initial(members), run)
    requires var t := Exec(Initial(members), run); member in t.mates && ReadsApproval(t, member)
    ensures var t := Exec(Initial(members), run);
      var t', subject := Apply(t, Polls(member)), t.mates[member].phase.subject;
      && (Enabled(t', PostsAsk(member)) <==> StartsWithP(subject))
      && (Enabled(t', RunsShell(member)) <==> !StartsWithP(subject))
  {
    ReachableInv(members, run);
    var t := Exec(Initial(members), run);
    AsksByCharacters(t.mates[member].phase.subject);
    ReadApproval(t, member);
  }

  lemma ReadApproval(t: Team, member: Member)
    requires Inv(t) && member in t.mates && ReadsApproval(t, member)
    ensures var p, p' := t.mates[member].phase, Apply(t, Polls(member)).mates[member].phase;
      if NeedsPermission(p.subject) then p'.Asking? else p'.Cleared?
  {
    var p := t.mates[member].phase;
    var at := FirstDecisive(p, member, t.bus, 0);
    assert MateOk(t.mates[member], t.bus, member) && EntryOk(t.bus, at);
  }

  /** The teammate waits for its plan, and the first entry that ends the wait is the approval. */
  predicate ReadsApproval(t: Team, member: Member)
    requires member in t.mates
  {
    var p := t.mates[member].phase;
    && p.AwaitPlan?
    && var at := FirstDecisive(p, member, t.bus, 0);
       at < |t.bus| && t.bus[at].message == PlanResponse(p.corr, true)
  }

  /** A deployment that is marked asks first, and an unmarked one does not. */
  lemma MarkedDeploymentAsksFirst(members: set<Member>, run: seq<Step>, member: Member)
    requires Admissible(Initial(members), run)
    requires var t := Exec(Initial(members), run); member in t.mates && ReadsApproval(t, member)
    ensures var t := Exec(Initial(members), run);
      var t', subject := Apply(t, Polls(member)), t.mates[member].phase.subject;
      && (subject == "P:deploy" ==> !Enabled(t', RunsShell(member)) && Enabled(t', PostsAsk(member)))
      && (subject == "deploy" ==> Enabled(t', RunsShell(member)) && !Enabled(t', PostsAsk(member)))
  {
    AfterApproval(members, run, member);
  }

  /** The lead grants every permission, and answers every plan by the text of it: see `RejectedExactlyWhen`. */
  lemma AnswersByName(members: set<Member>, run: seq<Step>, i: nat)
    requires Admissible(Initial(members), run)
    requires i < |Exec(Initial(members), run).bus| && IsResponse(Exec(Initial(members), run).bus[i].message)
    ensures var bus := Exec(Initial(members), run).bus;
      var m := bus[i].message;
      && m.corr < i
      && (m.PermissionResponse? <==> bus[m.corr].message.PermissionRequest?)
      && (m.PlanResponse? <==> bus[m.corr].message.PlanRequest?)
      && (m.PermissionResponse? ==> m.granted)
      && (m.PlanResponse? ==> (m.approved <==> !(FirstRevision(bus[m.corr].message.plan) && HasMark(bus[m.corr].message.plan))))
  {
    ReachableInv(members, run);
    assert EntryOk(Exec(Initial(members), run).bus, i);
  }

  /** The mark at the start of a subject, behind white space and inside a word, and in a second submission. */
  lemma MarksByPlace(corr: Corr)
    ensures PlanText(1, "R:x") == "rev1: R:x"
    ensures Decide(PlanRequest(corr, PlanText(0, "R:x"))) == Some(PlanResponse(corr, false))
    ensures Decide(PlanRequest(corr, PlanText(0, "a\tR:"))) == Some(PlanResponse(corr, false))
    ensures Decide(PlanRequest(corr, PlanText(0, "aR:x"))) == Some(PlanResponse(corr, true))
    ensures Decide(PlanRequest(corr, PlanText(1, "R:x"))) == Some(PlanResponse(corr, true))
  {
    assert MarkAt("R:x", 0) && MarkAt("a\tR:", 2);
    assert !HasMark("aR:x") by { assert "aR:x"[0] == 'a'; }
    RejectedExactlyWhen(corr, 0, "R:x");
    RejectedExactlyWhen(corr, 0, "a\tR:");
    RejectedExactlyWhen(corr, 0, "aR:x");
    RejectedExactlyWhen(corr, 1, "R:x");
  }

  /** What a permission request asks for names its task, and no two tasks ask for the same. */
  lemma ActionNamesItsTask(a: nat, b: nat)
    ensures ActionText(a) == ActionText(b) <==> a == b
    ensures ActionText(7) == "sandboxed shell for task 7"
  {
    var words := "sandboxed shell for task ";
    assert ActionText(a)[|words|..] == Decimal(a) && ActionText(b)[|words|..] == Decimal(b);
    if ActionText(a) == ActionText(b) { DecimalIsInjective(a, b); }
  }

  /** A tracker refuses an answer nobody waits for, of the other kind, from somebody else, or to somebody else. */
  lemma TrackerRefuses(outstanding: map<Corr, Outstanding>, m: Message, from: Member, to: Member)
    requires IsResponse(m) && forall c :: c in outstanding ==> IsRequest(outstanding[c].request)
    ensures !Matches(outstanding, m, from, to) <==>
      || m.corr !in outstanding
      || (m.PlanResponse? && outstanding[m.corr].request.PermissionRequest?)
      || (m.PermissionResponse? && outstanding[m.corr].request.PlanRequest?)
      || from != outstanding[m.corr].to || to != outstanding[m.corr].from
  {
  }

  /**
   What ends a wait and how: an entry for somebody else never; a request to shut down stops the member; an answer the
   tracker refuses is a fault; a rejected plan is revised, and given up after the third; a denied permission leaves the
   task; and what was answered is outstanding no more.
   */
  lemma WhatEndsAWait(mate: Mate, member: Member, env: Envelope)
    requires Awaits(mate.phase)
    ensures Decisive(mate.phase, member, env) ==> env.to == member
    ensures env.to == member && env.message.ShutdownRequest? ==>
      Decisive(mate.phase, member, env) && AfterRead(mate, member, env) == mate.(phase := Stopped)
    ensures Decisive(mate.phase, member, env) && !env.message.ShutdownRequest? ==>
      var m, p, next := env.message, mate.phase, AfterRead(mate, member, env);
      && m.corr == p.corr && (m.PlanResponse? <==> p.AwaitPlan?) && (m.PermissionResponse? <==> p.AwaitPermission?)
      && next.runs == mate.runs
      && (!Matches(mate.outstanding, m, env.from, member) ==> next.phase == Faulted && next.outstanding == mate.outstanding)
      && (Matches(mate.outstanding, m, env.from, member) ==>
            && next.outstanding == mate.outstanding - {p.corr}
            && (m.PlanResponse? && !m.approved && p.revision < 2 ==> next.phase == Planning(p.task, p.subject, p.revision + 1))
            && (m.PlanResponse? && !m.approved && p.revision >= 2 ==> next.phase == Abandoned(p.task, p.subject))
            && (m.PermissionResponse? && !m.granted ==> next.phase == Idle)
            && (m.PermissionResponse? && m.granted ==> next.phase == Cleared(p.task, p.subject, p.planCorr, Some(p.corr))))
  {
  }
}
