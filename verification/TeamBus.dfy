/**
 The team's durable protocol bus: a lead answers plan and permission requests that teammates append to one
 log, and every teammate matches answers against its own outstanding requests.
 */
module TeamBus {
  import opened Options

  type Member = string
  type Corr = nat

  const LEAD_ID: Member := "lead"
  const MAX_PLAN_REVISIONS := 3

  datatype Message =
    | PlanRequest(corr: Corr, plan: string)
    | PlanResponse(corr: Corr, approved: bool)
    | PermissionRequest(corr: Corr, action: string)
    | PermissionResponse(corr: Corr, granted: bool)
    | ShutdownRequest(corr: Corr)
    | Notice(text: string)  // the messages without a correlation id

  datatype Envelope = Envelope(id: nat, from: Member, to: Member, message: Message)

  predicate IsRequest(m: Message) { m.PlanRequest? || m.PermissionRequest? }
  predicate IsResponse(m: Message) { m.PlanResponse? || m.PermissionResponse? }

  // ----- the lead's policy ---------------------------------------------------------------------------------

  /** `R:` at position `i`, at the start of the text or after white space. */
  predicate MarkAt(text: string, i: nat) {
    i + 1 < |text| && text[i] == 'R' && text[i + 1] == ':' && (i == 0 || IsSpace(text[i - 1]))
  }

  predicate HasMark(text: string) {
    exists i: nat :: i < |text| && MarkAt(text, i)
  }

  predicate FirstRevision(plan: string) {
    "rev0:" <= plan
  }

  function Decide(m: Message): (r: Option<Message>)
    ensures r.Some? <==> IsRequest(m)
    ensures r.Some? ==> IsResponse(r.value) && r.value.corr == m.corr
  {
    match m
    case PlanRequest(corr, plan) => Some(PlanResponse(corr, !(HasMark(plan) && FirstRevision(plan))))
    case PermissionRequest(corr, _) => Some(PermissionResponse(corr, true))
    case _ => None
  }

  function PlanText(revision: nat, subject: string): string {
    "rev" + Decimal(revision) + ": " + subject
  }

  /**
   A plan is sent back exactly when it is the first revision and its subject contains `R:` at its start or
   after white space. (The comment beside the code speaks only of subjects that start with it.)
   */
  lemma RejectedExactlyWhen(corr: Corr, revision: nat, subject: string)
    ensures Decide(PlanRequest(corr, PlanText(revision, subject))) ==
      Some(PlanResponse(corr, !(revision == 0 && HasMark(subject))))
  {
    var plan, head := PlanText(revision, subject), |Decimal(revision)| + 5;
    FirstIsRevisionZero(revision, subject);
    DecimalIsDigits(revision);
    assert plan[head..] == subject && plan[head - 1] == ' ';
    if HasMark(subject) {
      var i: nat :| i < |subject| && MarkAt(subject, i);
      assert plan[head + i] == subject[i] && plan[head + i + 1] == subject[i + 1];
      assert i > 0 ==> plan[head + i - 1] == subject[i - 1];
      assert MarkAt(plan, head + i);
    }
    if HasMark(plan) {
      var i: nat :| i < |plan| && MarkAt(plan, i);
      HeadHasNoR(revision, subject);
      assert plan[i] == subject[i - head] && plan[i + 1] == subject[i + 1 - head];
      assert i > head ==> plan[i - 1] == subject[i - 1 - head];
      assert MarkAt(subject, i - head);
    }
  }

  lemma HeadHasNoR(revision: nat, subject: string)
    ensures forall i :: 0 <= i < |Decimal(revision)| + 5 ==> PlanText(revision, subject)[i] != 'R'
  {
    DecimalIsDigits(revision);
    var d, plan := Decimal(revision), PlanText(revision, subject);
    forall i | 0 <= i < |d| + 5 ensures plan[i] != 'R' {
      if i < 3 {
        assert plan[i] == "rev"[i];
      } else if i < |d| + 3 {
        assert plan[i] == d[i - 3];
      } else {
        assert plan[i] == ": "[i - 3 - |d|];
      }
    }
  }

  lemma FirstIsRevisionZero(revision: nat, subject: string)
    ensures FirstRevision(PlanText(revision, subject)) <==> revision == 0
  {
    DecimalIsDigits(revision);
    var plan, d := PlanText(revision, subject), Decimal(revision);
    assert plan[3] == d[0];
    if revision < 10 {
      assert plan[4] == ':' && plan[..5] == "rev" + d + ":";
      if FirstRevision(plan) { assert plan[3] == "rev0:"[3]; }
    } else {
      assert plan[4] == d[1] != "rev0:"[4];
    }
  }

  lemma RejectedInTheMiddle(corr: Corr)
    ensures Decide(PlanRequest(corr, PlanText(0, "fix R: it"))) == Some(PlanResponse(corr, false))
  {
    RejectedExactlyWhen(corr, 0, "fix R: it");
    assert MarkAt("fix R: it", 4);
  }

  // ----- the lead ---------------------------------------------------------------------------------------------

  datatype Lead = Lead(answered: set<nat>, responded: set<Corr>, plansApproved: nat, plansRejected: nat, permissionsGranted: nat)

  const NEW_LEAD := Lead({}, {}, 0, 0, 0)

  /** The response the lead posts to an entry, if any. */
  function Reply(lead: Lead, env: Envelope): (r: Option<Message>)
    ensures r.Some? ==> IsResponse(r.value)
  {
    if env.to != LEAD_ID || env.id in lead.answered then None
    else
      var decision := Decide(env.message);
      if decision.Some? && decision.value.corr in lead.responded then None else decision
  }

  function Counted(lead: Lead, m: Message): Lead
    requires IsResponse(m)
  {
    var l := lead.(responded := lead.responded + {m.corr});
    match m
    case PlanResponse(_, true) => l.(plansApproved := l.plansApproved + 1)
    case PlanResponse(_, false) => l.(plansRejected := l.plansRejected + 1)
    case PermissionResponse(_, true) => l.(permissionsGranted := l.permissionsGranted + 1)
    case _ => l
  }

  function AfterEntry(lead: Lead, env: Envelope): Lead {
    if env.to != LEAD_ID || env.id in lead.answered then lead
    else
      var l := lead.(answered := lead.answered + {env.id});
      var reply := Reply(lead, env);
      if reply.Some? then Counted(l, reply.value) else l
  }

  /** One poll over a snapshot of the bus: the lead afterwards and what it posted, with fresh message ids. */
  function PollLead(lead: Lead, snapshot: seq<Envelope>): Lead {
    if snapshot == [] then lead
    else AfterEntry(PollLead(lead, snapshot[..|snapshot| - 1]), snapshot[|snapshot| - 1])
  }

  function PollPosts(lead: Lead, snapshot: seq<Envelope>, nextId: nat): seq<Envelope> {
    if snapshot == [] then []
    else
      var n := |snapshot| - 1;
      var posts := PollPosts(lead, snapshot[..n], nextId);
      var reply := Reply(PollLead(lead, snapshot[..n]), snapshot[n]);
      posts + (if reply.Some? then [Envelope(nextId + |posts|, LEAD_ID, snapshot[n].from, reply.value)] else [])
  }

  class TeamLead {
    var answered: set<nat>
    var responded: set<Corr>
    var plansApproved: nat
    var plansRejected: nat
    var permissionsGranted: nat

    ghost function State(): Lead
      reads this
    {
      Lead(answered, responded, plansApproved, plansRejected, permissionsGranted)
    }

    constructor ()
      ensures State() == NEW_LEAD
    {
      answered, responded, plansApproved, plansRejected, permissionsGranted := {}, {}, 0, 0, 0;
    }

    method Poll(snapshot: seq<Envelope>, nextId: nat) returns (posts: seq<Envelope>)
      modifies this
      ensures State() == PollLead(old(State()), snapshot)
      ensures posts == PollPosts(old(State()), snapshot, nextId)
    {
      posts := [];
      for i := 0 to |snapshot|
        invariant State() == PollLead(old(State()), snapshot[..i])
        invariant posts == PollPosts(old(State()), snapshot[..i], nextId)
      {
        assert snapshot[..i + 1][..i] == snapshot[..i];
        var env := snapshot[i];
        if env.to != LEAD_ID || env.id in answered { continue; }
        answered := answered + {env.id};
        var decision := Decide(env.message);
        if decision.None? { continue; }
        var m := decision.value;
        if m.corr in responded { continue; }
        responded := responded + {m.corr};
        if m.PlanResponse? {
          if m.approved { plansApproved := plansApproved + 1; } else { plansRejected := plansRejected + 1; }
        }
        if m.PermissionResponse? && m.granted { permissionsGranted := permissionsGranted + 1; }
        posts := posts + [Envelope(nextId + |posts|, LEAD_ID, env.from, m)];
      }
      assert snapshot[..|snapshot|] == snapshot;
    }
  }

  // ----- a teammate ---------------------------------------------------------------------------------------------

  datatype Outstanding = Outstanding(request: Message, from: Member, to: Member)

  /** The tracker's check of a response: an outstanding request of the right type, with the roles reversed. */
  predicate Matches(outstanding: map<Corr, Outstanding>, m: Message, from: Member, to: Member) {
    && IsResponse(m) && m.corr in outstanding
    && var r := outstanding[m.corr];
       && (if m.PlanResponse? then r.request.PlanRequest? else r.request.PermissionRequest?)
       && from == r.to && to == r.from
  }

  datatype Phase =
    | Idle
    | Planning(task: nat, subject: string, revision: nat)
    | AwaitPlan(task: nat, subject: string, revision: nat, corr: Corr)
    | Asking(task: nat, subject: string, planCorr: Corr)
    | AwaitPermission(task: nat, subject: string, planCorr: Corr, corr: Corr)
    | Cleared(task: nat, subject: string, planCorr: Corr, permissionCorr: Option<Corr>)
    | Abandoned(task: nat, subject: string)  // all revisions were rejected
    | Stopped
    | Faulted                                // the tracker refused a response: protocol integrity

  /** A shell run, with the correlation ids of the answers that cleared it. */
  datatype ShellRun = ShellRun(task: nat, subject: string, planCorr: Corr, permissionCorr: Option<Corr>)

  datatype Mate = Mate(phase: Phase, outstanding: map<Corr, Outstanding>, runs: seq<ShellRun>)

  const NEW_MATE := Mate(Idle, map[], [])

  predicate NeedsPermission(subject: string) { "P:" <= subject }

  function ActionText(task: nat): string { "sandboxed shell for task " + Decimal(task) }

  function AfterPlanAnswer(mate: Mate, approved: bool): Mate
    requires mate.phase.AwaitPlan?
  {
    var p := mate.phase;
    if approved then
      mate.(phase := if NeedsPermission(p.subject) then Asking(p.task, p.subject, p.corr)
                     else Cleared(p.task, p.subject, p.corr, None))
    else if p.revision + 1 < MAX_PLAN_REVISIONS then mate.(phase := Planning(p.task, p.subject, p.revision + 1))
    else mate.(phase := Abandoned(p.task, p.subject))
  }

  predicate Awaits(phase: Phase) { phase.AwaitPlan? || phase.AwaitPermission? }

  /** The answer a waiting teammate is waiting for: the right type and its own correlation id. */
  predicate Awaited(phase: Phase, m: Message)
    requires Awaits(phase)
  {
    if phase.AwaitPlan? then m.PlanResponse? && m.corr == phase.corr else m.PermissionResponse? && m.corr == phase.corr
  }

  /** An entry that ends the wait: the awaited answer, or a request to shut down. */
  predicate Decisive(phase: Phase, member: Member, env: Envelope)
    requires Awaits(phase)
  {
    env.to == member && (Awaited(phase, env.message) || env.message.ShutdownRequest?)
  }

  /** What a decisive entry makes of the teammate. */
  function AfterRead(mate: Mate, member: Member, env: Envelope): Mate
    requires Awaits(mate.phase) && Decisive(mate.phase, member, env)
  {
    var m, p := env.message, mate.phase;
    if Awaited(p, m) then
      if !Matches(mate.outstanding, m, env.from, member) then mate.(phase := Faulted)
      else
        var mate' := mate.(outstanding := mate.outstanding - {m.corr});
        if p.AwaitPlan? then AfterPlanAnswer(mate', m.approved)
        else if m.granted then mate'.(phase := Cleared(p.task, p.subject, p.planCorr, Some(p.corr)))
        else mate'.(phase := Idle)
    else mate.(phase := Stopped)
  }

  /** The first decisive entry from `from` on: how far a poll of the bus gets. The length of the bus when there is none. */
  function FirstDecisive(phase: Phase, member: Member, bus: seq<Envelope>, from: nat): (i: nat)
    requires Awaits(phase) && from <= |bus|
    ensures from <= i <= |bus|
    ensures forall k :: from <= k < i ==> !Decisive(phase, member, bus[k])
    ensures i < |bus| ==> Decisive(phase, member, bus[i])
    decreases |bus| - from
  {
    if from == |bus| || Decisive(phase, member, bus[from]) then from else FirstDecisive(phase, member, bus, from + 1)
  }

  /** One poll of a waiting teammate: it scans the bus from its start and acts on the first decisive entry. */
  function AfterPoll(mate: Mate, member: Member, bus: seq<Envelope>): Mate
    requires Awaits(mate.phase)
  {
    var i := FirstDecisive(mate.phase, member, bus, 0);
    if i == |bus| then mate else AfterRead(mate, member, bus[i])
  }

  // ----- the team ---------------------------------------------------------------------------------------------------

  datatype Team = Team(bus: seq<Envelope>, lead: Lead, mates: map<Member, Mate>, nextId: nat)

  datatype Step =
    | LeadHandles(at: nat)                                  // the lead processes one entry of the bus
    | LeadPolls                                             // the lead processes the whole bus as it stands, in order
    | LeadShutsDown(member: Member)
    | LeadPosts(member: Member, text: string)
    | Claims(member: Member, task: nat, subject: string)    // a teammate takes up a task
    | PostsPlan(member: Member)
    | PostsAsk(member: Member)
    | Polls(member: Member)                                 // a waiting teammate scans the bus once
    | GivesUp(member: Member)                               // timeout, or the result of an abandoned plan recorded
    | RunsShell(member: Member)
    | Halts(member: Member)

  function Initial(members: set<Member>): Team {
    Team([], NEW_LEAD, map m | m in members && m != LEAD_ID :: NEW_MATE, 0)
  }

  predicate Enabled(t: Team, step: Step) {
    match step
    case LeadHandles(at) => at < |t.bus|
    case LeadPolls => true
    case LeadShutsDown(member) => member in t.mates
    case LeadPosts(member, _) => member in t.mates
    case Claims(member, _, _) => member in t.mates && t.mates[member].phase.Idle?
    case PostsPlan(member) => member in t.mates && t.mates[member].phase.Planning?
    case PostsAsk(member) => member in t.mates && t.mates[member].phase.Asking?
    case Polls(member) => member in t.mates && Awaits(t.mates[member].phase)
    case GivesUp(member) => member in t.mates && (Awaits(t.mates[member].phase) || t.mates[member].phase.Abandoned?)
    case RunsShell(member) => member in t.mates && t.mates[member].phase.Cleared?
    case Halts(member) => member in t.mates && t.mates[member].phase.Idle?
  }

  /** Append a message; its id is fresh, and so is the correlation id when it carries a new one. */
  function Post(t: Team, from: Member, to: Member, m: Message): Team {
    t.(bus := t.bus + [Envelope(t.nextId, from, to, m)], nextId := t.nextId + 1)
  }

  /** A teammate appends a request and registers it with its tracker. */
  function Request(t: Team, member: Member, m: Message, phase: Phase): Team
    requires member in t.mates && IsRequest(m)
  {
    var mate := t.mates[member];
    var mate' := mate.(phase := phase, outstanding := mate.outstanding[m.corr := Outstanding(m, member, LEAD_ID)]);
    Post(t, member, LEAD_ID, m).(mates := t.mates[member := mate'])
  }

  function SetPhase(t: Team, member: Member, phase: Phase): Team
    requires member in t.mates
  {
    t.(mates := t.mates[member := t.mates[member].(phase := phase)])
  }

  /** The team after the lead's poll over a snapshot of its bus, when nobody posts in between. */
  function AfterLeadPoll(t: Team, snapshot: seq<Envelope>): Team {
    var posts := PollPosts(t.lead, snapshot, t.nextId);
    Team(t.bus + posts, PollLead(t.lead, snapshot), t.mates, t.nextId + |posts|)
  }

  function Apply(t: Team, step: Step): Team
    requires Enabled(t, step)
  {
    match step
    case LeadHandles(at) =>
      var env := t.bus[at];
      var reply := Reply(t.lead, env);
      var t' := if reply.Some? then Post(t, LEAD_ID, env.from, reply.value) else t;
      t'.(lead := AfterEntry(t.lead, env))
    case LeadPolls => AfterLeadPoll(t, t.bus)
    case LeadShutsDown(member) => Post(t, LEAD_ID, member, ShutdownRequest(t.nextId))
    case LeadPosts(member, text) => Post(t, LEAD_ID, member, Notice(text))
    case Claims(member, task, subject) => SetPhase(t, member, Planning(task, subject, 0))
    case PostsPlan(member) =>
      var p := t.mates[member].phase;
      Request(t, member, PlanRequest(t.nextId, PlanText(p.revision, p.subject)),
              AwaitPlan(p.task, p.subject, p.revision, t.nextId))
    case PostsAsk(member) =>
      var p := t.mates[member].phase;
      Request(t, member, PermissionRequest(t.nextId, ActionText(p.task)),
              AwaitPermission(p.task, p.subject, p.planCorr, t.nextId))
    case Polls(member) => t.(mates := t.mates[member := AfterPoll(t.mates[member], member, t.bus)])
    case GivesUp(member) => SetPhase(t, member, Idle)
    case RunsShell(member) =>
      var mate := t.mates[member];
      var p := mate.phase;
      var run := ShellRun(p.task, p.subject, p.planCorr, p.permissionCorr);
      t.(mates := t.mates[member := mate.(phase := Idle, runs := mate.runs + [run])])
    case Halts(member) => SetPhase(t, member, Stopped)
  }

  predicate Admissible(t: Team, run: seq<Step>)
    decreases |run|
  {
    run == [] || (Enabled(t, run[0]) && Admissible(Apply(t, run[0]), run[1..]))
  }

  function Exec(t: Team, run: seq<Step>): Team
    requires Admissible(t, run)
    decreases |run|
  {
    if run == [] then t else Exec(Apply(t, run[0]), run[1..])
  }

  lemma {:induction false} ExecAppend(t: Team, run: seq<Step>, more: seq<Step>)
    requires Admissible(t, run) && Admissible(Exec(t, run), more)
    ensures Admissible(t, run + more) && Exec(t, run + more) == Exec(Exec(t, run), more)
    decreases |run|
  {
    if run == [] {
      assert run + more == more;
    } else {
      assert (run + more)[1..] == run[1..] + more;
      ExecAppend(Apply(t, run[0]), run[1..], more);
    }
  }

  // ----- a poll of the lead is a run of single entries ------------------------------------------------------------

  /** The first `n` entries, one after the other. */
  function HandleEach(n: nat): seq<Step> {
    if n == 0 then [] else HandleEach(n - 1) + [LeadHandles(n - 1)]
  }

  lemma HandleNext(t: Team, n: nat)
    requires n < |t.bus|
    ensures var t1 := AfterLeadPoll(t, t.bus[..n]);
      n < |t1.bus| && Apply(t1, LeadHandles(n)) == AfterLeadPoll(t, t.bus[..n + 1])
  {
    assert t.bus[..n + 1][..n] == t.bus[..n];
  }

  /** Polling over the first `n` entries does what handling each of them in turn does. */
  lemma {:induction false} PollIsEachInTurn(t: Team, n: nat)
    requires n <= |t.bus|
    ensures Admissible(t, HandleEach(n))
    ensures Exec(t, HandleEach(n)) == AfterLeadPoll(t, t.bus[..n])
  {
    if n > 0 {
      var t1, last := AfterLeadPoll(t, t.bus[..n - 1]), [LeadHandles(n - 1)];
      PollIsEachInTurn(t, n - 1);
      HandleNext(t, n - 1);
      assert last[1..] == [];
      ExecAppend(t, HandleEach(n - 1), last);
    } else {
      assert t.bus + [] == t.bus;
    }
  }

  /** One poll of the lead, over the bus as it stands, is the run that handles every entry of it once, in order. */
  lemma LeadPollIsARun(t: Team)
    ensures Admissible(t, HandleEach(|t.bus|)) && Exec(t, HandleEach(|t.bus|)) == Apply(t, LeadPolls)
  {
    PollIsEachInTurn(t, |t.bus|);
    assert t.bus[..|t.bus|] == t.bus;
  }
}
