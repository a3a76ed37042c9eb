/**
 Subagent delegation: a supervisor admits children under depth, total and active limits and narrows
 their authority; a child gets a supervisor one level deeper (packages/agents/src/subagent.ts).
 */
module Subagents {
  import opened Options
  import opened Authorities

  datatype Limits = Limits(maxActiveChildren: nat, maxTotalChildren: nat, maxDepth: nat)

  const DEFAULT_SUBAGENT_LIMITS := Limits(4, 16, 2)
  const SUMMARY_CHARS := 8000

  datatype Timing = Foreground | Background
  datatype Refusal = WrongEntryPoint | DepthExceeded | CountExceeded | ActiveExceeded | Cancelled | AuthorityWidened

  type AgentId = nat

  datatype Spec = Spec(requested: Authority, timing: Timing)
  datatype Admission = Started(authority: Authority) | Refused(why: Refusal)
  datatype Conclusion = Conclusion(agent: AgentId, ok: bool, summary: string)

  /** The guards of a spawn, in the order they are tried. */
  function Admits(authority: Authority, managed: ManagedPolicy, depth: nat, limits: Limits, total: nat, active: nat,
                  requested: Authority, aborted: bool): Admission {
    var child := Intersect(requested, authority, managed);
    if depth >= limits.maxDepth then Refused(DepthExceeded)
    else if total >= limits.maxTotalChildren then Refused(CountExceeded)
    else if active >= limits.maxActiveChildren then Refused(ActiveExceeded)
    else if aborted then Refused(Cancelled)
    else if !IsAtMost(child, authority) then Refused(AuthorityWidened)
    else Started(child)
  }

  class SubagentSupervisor {
    const authority: Authority
    const managed: ManagedPolicy
    const depth: nat
    const limits: Limits
    var totalSpawned: nat
    var active: nat
    var background: seq<AgentId>        // in spawn order
    ghost var unsettled: set<AgentId>   // children started and not yet settled

    /** The active count is the number of unsettled children, and both counts are within their limits. */
    ghost predicate Valid()
      reads this
    {
      active == |unsettled| && active <= limits.maxActiveChildren && active <= totalSpawned <= limits.maxTotalChildren
    }

    constructor (authority: Authority, managed: ManagedPolicy, depth: nat, limits: Limits)
      ensures Valid() && totalSpawned == 0 && unsettled == {} && background == []
      ensures this.authority == authority && this.managed == managed && this.depth == depth && this.limits == limits
    {
      this.authority, this.managed, this.depth, this.limits := authority, managed, depth, limits;
      totalSpawned, active, background, unsettled := 0, 0, [], {};
    }

    method ChildAuthority(requested: Authority) returns (r: Option<Authority>)
      ensures r == if authority.maxChildDepth >= 0 then Some(Intersect(requested, authority, managed)) else None
    {
      var child := Intersect(requested, authority, managed);
      IntersectionIsAtMostParentExactlyWhen(requested, authority, managed);
      var violations := AuthorityViolations(child, authority);
      r := if violations == [] then Some(child) else None;
    }

    method Admit(requested: Authority, aborted: bool) returns (r: Admission)
      requires Valid()
      ensures r == Admits(authority, managed, depth, limits, totalSpawned, active, requested, aborted)
    {
      if depth >= limits.maxDepth { return Refused(DepthExceeded); }
      if totalSpawned >= limits.maxTotalChildren { return Refused(CountExceeded); }
      if active >= limits.maxActiveChildren { return Refused(ActiveExceeded); }
      if aborted { return Refused(Cancelled); }
      var child := ChildAuthority(requested);
      IntersectionIsAtMostParentExactlyWhen(requested, authority, managed);
      r := if child.Some? then Started(child.value) else Refused(AuthorityWidened);
    }

    /** The common part of both entry points; `id` is fresh. The child then runs until `Settle`. */
    method Spawn(entry: Timing, spec: Spec, aborted: bool, id: AgentId) returns (r: Admission)
      requires Valid() && id !in unsettled
      modifies this
      ensures Valid()
      ensures r == if spec.timing != entry then Refused(WrongEntryPoint)
                   else Admits(authority, managed, depth, limits, old(totalSpawned), old(active), spec.requested, aborted)
      ensures r.Refused? ==> totalSpawned == old(totalSpawned) && unsettled == old(unsettled) && background == old(background)
      ensures r.Started? ==> totalSpawned == old(totalSpawned) + 1 && unsettled == old(unsettled) + {id}
      ensures r.Started? ==> background == old(background) + if entry == Background then [id] else []
      ensures r.Started? ==> IsAtMost(r.authority, authority)
    {
      if spec.timing != entry { return Refused(WrongEntryPoint); }
      r := Admit(spec.requested, aborted);
      if r.Started? {
        totalSpawned, active := totalSpawned + 1, active + 1;
        unsettled := unsettled + {id};
        if entry == Background { background := background + [id]; }
      }
    }

    /** A child's run ends, with a result or a rejection: its slot is released either way, once. */
    method Settle(id: AgentId, result: Option<(bool, string)>) returns (c: Option<Conclusion>)
      requires Valid() && id in unsettled
      modifies this
      ensures Valid() && unsettled == old(unsettled) - {id} && active == old(active) - 1
      ensures totalSpawned == old(totalSpawned) && background == old(background)
      ensures c.Some? <==> result.Some?
      ensures c.Some? ==> c.value.agent == id && c.value.ok == result.value.0 && c.value.summary <= result.value.1
      ensures c.Some? ==> |c.value.summary| == Min(|result.value.1|, 8000)
    {
      active := active - 1;
      unsettled := unsettled - {id};
      if result.None? { return None; }
      var summary := result.value.1;
      c := Some(Conclusion(id, result.value.0, summary[..Min(|summary|, SUMMARY_CHARS)]));
    }

    method ChildSupervisor(childAuthority: Authority) returns (s: SubagentSupervisor)
      ensures fresh(s) && s.Valid() && s.totalSpawned == 0 && s.unsettled == {}
      ensures s.authority == childAuthority && s.managed == managed && s.depth == depth + 1 && s.limits == limits
    {
      s := new SubagentSupervisor(childAuthority, managed, depth + 1, limits);
    }
  }

  // ----- the whole tree of agents ----------------------------------------------------------------------------------

  /** A child agent: who spawned it, and whether it was given a supervisor of its own. */
  datatype Agent = Agent(level: nat, parent: nat, authority: Authority, settled: bool, supervised: bool)

  datatype Sup = Sup(depth: nat, authority: Authority, total: nat, active: nat)

  /** All supervisors, the root's first, and all agents ever started. */
  datatype Tree = Tree(sups: seq<Sup>, agents: seq<Agent>)

  datatype Step =
    | Spawns(sup: nat, requested: Authority, aborted: bool)
    | Settles(agent: nat)
    | Supervises(agent: nat)      // the child is wired to a supervisor holding the child's own authority

  function Root(authority: Authority): Tree { Tree([Sup(0, authority, 0, 0)], []) }

  predicate Enabled(t: Tree, step: Step) {
    match step
    case Spawns(sup, _, _) => sup < |t.sups|
    case Settles(agent) => agent < |t.agents| && !t.agents[agent].settled && t.agents[agent].parent < |t.sups| && t.sups[t.agents[agent].parent].active > 0
    case Supervises(agent) => agent < |t.agents| && !t.agents[agent].supervised
  }

  function AfterStart(t: Tree, i: nat, child: Authority): Tree
    requires i < |t.sups|
  {
    var s := t.sups[i];
    Tree(t.sups[i := s.(total := s.total + 1, active := s.active + 1)], t.agents + [Agent(s.depth + 1, i, child, false, false)])
  }

  function Apply(t: Tree, step: Step, managed: ManagedPolicy, limits: Limits): Tree
    requires Enabled(t, step)
  {
    match step
    case Spawns(i, requested, aborted) =>
      var s := t.sups[i];
      var r := Admits(s.authority, managed, s.depth, limits, s.total, s.active, requested, aborted);
      if r.Refused? then t
      else AfterStart(t, i, r.authority)
    case Settles(k) =>
      var a := t.agents[k];
      Tree(t.sups[a.parent := t.sups[a.parent].(active := t.sups[a.parent].active - 1)], t.agents[k := a.(settled := true)])
    case Supervises(k) =>
      var a := t.agents[k];
      Tree(t.sups + [Sup(a.level, a.authority, 0, 0)], t.agents[k := a.(supervised := true)])
  }

  predicate Admissible(t: Tree, run: seq<Step>, managed: ManagedPolicy, limits: Limits)
    decreases |run|
  {
    run == [] || (Enabled(t, run[0]) && Admissible(Apply(t, run[0], managed, limits), run[1..], managed, limits))
  }

  function Exec(t: Tree, run: seq<Step>, managed: ManagedPolicy, limits: Limits): Tree
    requires Admissible(t, run, managed, limits)
    decreases |run|
  {
    if run == [] then t else Exec(Apply(t, run[0], managed, limits), run[1..], managed, limits)
  }

  // ----- counting by level ----------------------------------------------------------------------------------------------

  function AgentsAt(agents: seq<Agent>, k: nat): nat {
    if agents == [] then 0 else AgentsAt(agents[..|agents| - 1], k) + if agents[|agents| - 1].level == k then 1 else 0
  }

  function SupervisedAt(agents: seq<Agent>, k: nat): (n: nat)
    ensures n <= AgentsAt(agents, k)
  {
    if agents == [] then 0
    else SupervisedAt(agents[..|agents| - 1], k) + if agents[|agents| - 1].level == k && agents[|agents| - 1].supervised then 1 else 0
  }

  function UnsettledUnder(agents: seq<Agent>, i: nat): nat {
    if agents == [] then 0
    else UnsettledUnder(agents[..|agents| - 1], i) + if agents[|agents| - 1].parent == i && !agents[|agents| - 1].settled then 1 else 0
  }

  function SupsAt(sups: seq<Sup>, k: nat): nat {
    if sups == [] then 0 else SupsAt(sups[..|sups| - 1], k) + if sups[|sups| - 1].depth == k then 1 else 0
  }

  function TotalAt(sups: seq<Sup>, k: nat): nat {
    if sups == [] then 0 else TotalAt(sups[..|sups| - 1], k) + if sups[|sups| - 1].depth == k then sups[|sups| - 1].total else 0
  }

  lemma {:induction false} SetAgent(agents: seq<Agent>, at: nat, a: Agent, k: nat)
    requires at < |agents| && a.level == agents[at].level && a.parent == agents[at].parent
    ensures AgentsAt(agents[at := a], k) == AgentsAt(agents, k)
    ensures SupervisedAt(agents[at := a], k) ==
      SupervisedAt(agents, k) + (if a.level == k && a.supervised then 1 else 0) - (if a.level == k && agents[at].supervised then 1 else 0)
    ensures UnsettledUnder(agents[at := a], k) ==
      UnsettledUnder(agents, k) + (if a.parent == k && !a.settled then 1 else 0) - (if a.parent == k && !agents[at].settled then 1 else 0)
    decreases |agents|
  {
    var init := agents[..|agents| - 1];
    if at < |init| {
      assert agents[at := a][..|init|] == init[at := a];
      SetAgent(init, at, a, k);
    } else {
      assert agents[at := a][..|init|] == init;
    }
  }

  lemma {:induction false} SetSup(sups: seq<Sup>, at: nat, s: Sup, k: nat)
    requires at < |sups| && s.depth == sups[at].depth
    ensures SupsAt(sups[at := s], k) == SupsAt(sups, k)
    ensures TotalAt(sups[at := s], k) == TotalAt(sups, k) + if s.depth == k then s.total - sups[at].total else 0
    decreases |sups|
  {
    var init := sups[..|sups| - 1];
    if at < |init| {
      assert sups[at := s][..|init|] == init[at := s];
      SetSup(init, at, s, k);
    } else {
      assert sups[at := s][..|init|] == init;
    }
  }

  lemma PushAgent(agents: seq<Agent>, a: Agent, k: nat)
    ensures AgentsAt(agents + [a], k) == AgentsAt(agents, k) + if a.level == k then 1 else 0
    ensures SupervisedAt(agents + [a], k) == SupervisedAt(agents, k) + if a.level == k && a.supervised then 1 else 0
    ensures UnsettledUnder(agents + [a], k) == UnsettledUnder(agents, k) + if a.parent == k && !a.settled then 1 else 0
  {
    assert (agents + [a])[..|agents|] == agents;
  }

  lemma PushSup(sups: seq<Sup>, s: Sup, k: nat)
    ensures SupsAt(sups + [s], k) == SupsAt(sups, k) + if s.depth == k then 1 else 0
    ensures TotalAt(sups + [s], k) == TotalAt(sups, k) + if s.depth == k then s.total else 0
  {
    assert (sups + [s])[..|sups|] == sups;
  }

  // ----- the invariant -------------------------------------------------------------------------------------------------

  ghost predicate SupOk(t: Tree, i: nat, root: Authority, limits: Limits)
    requires i < |t.sups|
  {
    var s := t.sups[i];
    && s.total <= limits.maxTotalChildren && s.active <= limits.maxActiveChildren
    && s.active == UnsettledUnder(t.agents, i) && IsAtMost(s.authority, root)
  }

  ghost predicate AgentOk(t: Tree, k: nat, root: Authority, limits: Limits)
    requires k < |t.agents|
  {
    var a := t.agents[k];
    && a.parent < |t.sups| && a.level == t.sups[a.parent].depth + 1 <= limits.maxDepth
    && IsAtMost(a.authority, t.sups[a.parent].authority) && IsAtMost(a.authority, root)
  }

  /** At each level: the agents one deeper are what its supervisors spawned; its supervisors belong to its agents. */
  ghost predicate LevelOk(t: Tree, k: nat) {
    && AgentsAt(t.agents, k + 1) == TotalAt(t.sups, k)
    && SupsAt(t.sups, k) == SupervisedAt(t.agents, k) + if k == 0 then 1 else 0
  }

  ghost predicate Inv(t: Tree, root: Authority, limits: Limits) {
    && (forall i :: 0 <= i < |t.sups| ==> SupOk(t, i, root, limits))
    && (forall k :: 0 <= k < |t.agents| ==> AgentOk(t, k, root, limits))
    && (forall k: nat :: LevelOk(t, k))
    && AgentsAt(t.agents, 0) == 0
  }

  lemma {:induction false} NobodyYet(agents: seq<Agent>, i: nat)
    requires forall k :: 0 <= k < |agents| ==> agents[k].parent < i
    ensures UnsettledUnder(agents, i) == 0
    decreases |agents|
  {
    if agents != [] { NobodyYet(agents[..|agents| - 1], i); }
  }

  lemma {:induction false} SomebodyUnsettled(agents: seq<Agent>, at: nat)
    requires at < |agents| && !agents[at].settled
    ensures UnsettledUnder(agents, agents[at].parent) > 0
    decreases |agents|
  {
    if at < |agents| - 1 { SomebodyUnsettled(agents[..|agents| - 1], at); }
  }

  lemma StartKeepsLevels(t: Tree, i: nat, child: Authority, k: nat)
    requires i < |t.sups| && LevelOk(t, k)
    ensures LevelOk(AfterStart(t, i, child), k)
  {
    var a := Agent(t.sups[i].depth + 1, i, child, false, false);
    PushAgent(t.agents, a, k);
    PushAgent(t.agents, a, k + 1);
    SetSup(t.sups, i, AfterStart(t, i, child).sups[i], k);
  }

  lemma StartKeeps(t: Tree, i: nat, child: Authority, root: Authority, limits: Limits)
    requires Inv(t, root, limits) && i < |t.sups|
    requires var s := t.sups[i]; s.depth < limits.maxDepth && s.total < limits.maxTotalChildren && s.active < limits.maxActiveChildren
    requires IsAtMost(child, t.sups[i].authority) && IsAtMost(child, root)
    ensures Inv(AfterStart(t, i, child), root, limits)
  {
    var t', a := AfterStart(t, i, child), Agent(t.sups[i].depth + 1, i, child, false, false);
    forall j | 0 <= j < |t'.sups| ensures SupOk(t', j, root, limits) {
      assert SupOk(t, j, root, limits);
      PushAgent(t.agents, a, j);
    }
    forall k | 0 <= k < |t'.agents| ensures AgentOk(t', k, root, limits) {
      if k < |t.agents| { assert AgentOk(t, k, root, limits); }
    }
    forall k: nat ensures LevelOk(t', k) {
      assert LevelOk(t, k);
      StartKeepsLevels(t, i, child, k);
    }
    PushAgent(t.agents, a, 0);
  }

  lemma SpawnKeeps(t: Tree, i: nat, requested: Authority, aborted: bool, managed: ManagedPolicy, root: Authority, limits: Limits)
    requires Inv(t, root, limits) && i < |t.sups|
    ensures Inv(Apply(t, Spawns(i, requested, aborted), managed, limits), root, limits)
  {
    var s := t.sups[i];
    var r := Admits(s.authority, managed, s.depth, limits, s.total, s.active, requested, aborted);
    if r.Started? {
      assert SupOk(t, i, root, limits);
      AtMostIsAPreorder(r.authority, s.authority, root);
      StartKeeps(t, i, r.authority, root, limits);
      assert Apply(t, Spawns(i, requested, aborted), managed, limits) == AfterStart(t, i, r.authority);
    }
  }

  lemma SettleKeeps(t: Tree, at: nat, managed: ManagedPolicy, root: Authority, limits: Limits)
    requires Inv(t, root, limits) && Enabled(t, Settles(at))
    ensures Inv(Apply(t, Settles(at), managed, limits), root, limits)
  {
    var t', a := Apply(t, Settles(at), managed, limits), t.agents[at];
    forall j | 0 <= j < |t'.sups| ensures SupOk(t', j, root, limits) {
      assert SupOk(t, j, root, limits);
      SetAgent(t.agents, at, t'.agents[at], j);
    }
    forall k | 0 <= k < |t'.agents| ensures AgentOk(t', k, root, limits) { assert AgentOk(t, k, root, limits); }
    forall k: nat ensures LevelOk(t', k) {
      assert LevelOk(t, k);
      SetAgent(t.agents, at, t'.agents[at], k);
      SetAgent(t.agents, at, t'.agents[at], k + 1);
      SetSup(t.sups, a.parent, t'.sups[a.parent], k);
    }
    SetAgent(t.agents, at, t'.agents[at], 0);
  }

  /** A new supervisor has nobody under it, and the others keep theirs. */
  lemma SuperviseKeepsSups(t: Tree, at: nat, managed: ManagedPolicy, root: Authority, limits: Limits, j: nat)
    requires Inv(t, root, limits) && Enabled(t, Supervises(at)) && j <= |t.sups|
    ensures SupOk(Apply(t, Supervises(at), managed, limits), j, root, limits)
  {
    var t' := Apply(t, Supervises(at), managed, limits);
    assert AgentOk(t, at, root, limits);
    SetAgent(t.agents, at, t'.agents[at], j);
    if j < |t.sups| {
      assert SupOk(t, j, root, limits);
    } else {
      forall k | 0 <= k < |t.agents| ensures t.agents[k].parent < |t.sups| { assert AgentOk(t, k, root, limits); }
      NobodyYet(t.agents, j);
    }
  }

  lemma SuperviseKeepsLevels(t: Tree, at: nat, managed: ManagedPolicy, limits: Limits, k: nat)
    requires Enabled(t, Supervises(at)) && LevelOk(t, k)
    ensures LevelOk(Apply(t, Supervises(at), managed, limits), k)
  {
    var t', a := Apply(t, Supervises(at), managed, limits), t.agents[at];
    SetAgent(t.agents, at, t'.agents[at], k);
    SetAgent(t.agents, at, t'.agents[at], k + 1);
    PushSup(t.sups, Sup(a.level, a.authority, 0, 0), k);
  }

  lemma SuperviseKeeps(t: Tree, at: nat, managed: ManagedPolicy, root: Authority, limits: Limits)
    requires Inv(t, root, limits) && Enabled(t, Supervises(at))
    ensures Inv(Apply(t, Supervises(at), managed, limits), root, limits)
  {
    var t' := Apply(t, Supervises(at), managed, limits);
    forall j | 0 <= j < |t'.sups| ensures SupOk(t', j, root, limits) { SuperviseKeepsSups(t, at, managed, root, limits, j); }
    forall k | 0 <= k < |t'.agents| ensures AgentOk(t', k, root, limits) { assert AgentOk(t, k, root, limits); }
    forall k: nat ensures LevelOk(t', k) {
      assert LevelOk(t, k);
      SuperviseKeepsLevels(t, at, managed, limits, k);
    }
    SetAgent(t.agents, at, t'.agents[at], 0);
  }

  lemma {:induction false} RunKeeps(t: Tree, run: seq<Step>, managed: ManagedPolicy, root: Authority, limits: Limits)
    requires Inv(t, root, limits) && Admissible(t, run, managed, limits)
    ensures Inv(Exec(t, run, managed, limits), root, limits)
    decreases |run|
  {
    if run != [] {
      match run[0] {
        case Spawns(i, requested, aborted) => SpawnKeeps(t, i, requested, aborted, managed, root, limits);
        case Settles(at) => SettleKeeps(t, at, managed, root, limits);
        case Supervises(at) => SuperviseKeeps(t, at, managed, root, limits);
      }
      RunKeeps(Apply(t, run[0], managed, limits), run[1..], managed, root, limits);
    }
  }

  lemma RootInv(root: Authority, limits: Limits)
    ensures Inv(Root(root), root, limits)
  {
    AtMostIsAPreorder(root, root, root);
    var t := Root(root);
    forall k: nat ensures LevelOk(t, k) { PushSup([], t.sups[0], k); assert [] + [t.sups[0]] == t.sups; }
  }

  // ----- the bound -------------------------------------------------------------------------------------------------------

  function Pow(n: nat, k: nat): nat { if k == 0 then 1 else n * Pow(n, k - 1) }

  /** n + n^2 + ... + n^d */
  function Geometric(n: nat, d: nat): nat { if d == 0 then 0 else Geometric(n, d - 1) + Pow(n, d) }

  function UpTo(agents: seq<Agent>, d: nat): nat { if d == 0 then 0 else UpTo(agents, d - 1) + AgentsAt(agents, d) }

  lemma {:induction false} TotalsAreLimited(sups: seq<Sup>, k: nat, n: nat)
    requires forall i :: 0 <= i < |sups| ==> sups[i].total <= n
    ensures TotalAt(sups, k) <= n * SupsAt(sups, k)
    decreases |sups|
  {
    if sups != [] { TotalsAreLimited(sups[..|sups| - 1], k, n); }
  }

  lemma {:induction false} LevelIsBounded(t: Tree, k: nat, root: Authority, limits: Limits)
    requires Inv(t, root, limits) && k >= 1
    ensures AgentsAt(t.agents, k) <= Pow(limits.maxTotalChildren, k)
    decreases k
  {
    var n := limits.maxTotalChildren;
    assert LevelOk(t, k - 1);
    forall i | 0 <= i < |t.sups| ensures t.sups[i].total <= n { assert SupOk(t, i, root, limits); }
    TotalsAreLimited(t.sups, k - 1, n);
    if k > 1 {
      LevelIsBounded(t, k - 1, root, limits);
      MultiplyBoth(n, SupsAt(t.sups, k - 1), Pow(n, k - 1));
    } else {
      assert SupsAt(t.sups, 0) <= 1;
      MultiplyBoth(n, SupsAt(t.sups, 0), 1);
    }
  }

  lemma MultiplyBoth(n: nat, a: nat, b: nat)
    requires a <= b
    ensures n * a <= n * b
  {
  }

  lemma {:induction false} EveryAgentHasALevel(agents: seq<Agent>, d: nat)
    requires forall k :: 0 <= k < |agents| ==> 1 <= agents[k].level <= d
    ensures UpTo(agents, d) == |agents|
    decreases |agents|
  {
    if agents == [] {
      NoAgents(d);
    } else {
      var init := agents[..|agents| - 1];
      EveryAgentHasALevel(init, d);
      OneMoreAgent(init, agents[|agents| - 1], d);
      assert init + [agents[|agents| - 1]] == agents;
    }
  }

  lemma {:induction false} NoAgents(d: nat)
    ensures UpTo([], d) == 0
  {
    if d > 0 { NoAgents(d - 1); }
  }

  lemma {:induction false} OneMoreAgent(agents: seq<Agent>, a: Agent, d: nat)
    requires a.level >= 1
    ensures UpTo(agents + [a], d) == UpTo(agents, d) + if a.level <= d then 1 else 0
  {
    if d > 0 {
      OneMoreAgent(agents, a, d - 1);
      PushAgent(agents, a, d);
    }
  }

  lemma {:induction false} LevelsAddUp(t: Tree, d: nat, root: Authority, limits: Limits)
    requires Inv(t, root, limits)
    ensures UpTo(t.agents, d) <= Geometric(limits.maxTotalChildren, d)
  {
    if d > 0 {
      LevelsAddUp(t, d - 1, root, limits);
      LevelIsBounded(t, d, root, limits);
    }
  }

  /**
   In every run from a root, with at most one supervisor per child, no more than n + n^2 + ... + n^d agents
   are ever started, n being the total limit and d the depth limit; no supervisor has more active children
   than its limit, which counts exactly the unsettled ones; and nobody holds more than the root.
   */
  lemma TreeIsBounded(root: Authority, run: seq<Step>, managed: ManagedPolicy, limits: Limits)
    requires Admissible(Root(root), run, managed, limits)
    ensures var t := Exec(Root(root), run, managed, limits);
      && |t.agents| <= Geometric(limits.maxTotalChildren, limits.maxDepth)
      && (forall k :: 0 <= k < |t.agents| ==> AgentOk(t, k, root, limits))
      && (forall i :: 0 <= i < |t.sups| ==> SupOk(t, i, root, limits))
  {
    RootInv(root, limits);
    RunKeeps(Root(root), run, managed, root, limits);
    var t := Exec(Root(root), run, managed, limits);
    forall k | 0 <= k < |t.agents| ensures 1 <= t.agents[k].level <= limits.maxDepth { assert AgentOk(t, k, root, limits); }
    EveryAgentHasALevel(t.agents, limits.maxDepth);
    LevelsAddUp(t, limits.maxDepth, root, limits);
  }

  /** With the frozen defaults: at most 16 children and 256 grandchildren. */
  lemma DefaultTreeIsBounded(root: Authority, run: seq<Step>, managed: ManagedPolicy)
    requires Admissible(Root(root), run, managed, DEFAULT_SUBAGENT_LIMITS)
    ensures |Exec(Root(root), run, managed, DEFAULT_SUBAGENT_LIMITS).agents| <= 272
  {
    TreeIsBounded(root, run, managed, DEFAULT_SUBAGENT_LIMITS);
    assert Pow(16, 1) == 16 * Pow(16, 0) && Pow(16, 2) == 16 * Pow(16, 1);
    assert Geometric(16, 1) == Geometric(16, 0) + Pow(16, 1) && Geometric(16, 2) == Geometric(16, 1) + Pow(16, 2);
  }

  /** A child that has not settled can always do so: its slot is still held. */
  lemma SettlingIsAlwaysPossible(root: Authority, run: seq<Step>, managed: ManagedPolicy, limits: Limits, agent: nat)
    requires Admissible(Root(root), run, managed, limits)
    requires var t := Exec(Root(root), run, managed, limits); agent < |t.agents| && !t.agents[agent].settled
    ensures Enabled(Exec(Root(root), run, managed, limits), Settles(agent))
  {
    RootInv(root, limits);
    RunKeeps(Root(root), run, managed, root, limits);
    var t := Exec(Root(root), run, managed, limits);
    assert AgentOk(t, agent, root, limits) && SupOk(t, t.agents[agent].parent, root, limits);
    SomebodyUnsettled(t.agents, agent);
  }

  // ----- the depth budget ------------------------------------------------------------------------------------------------

  /** Of the holder's authority, admission asks only that its depth budget is not negative. */
  lemma AdmittedExactlyWhen(authority: Authority, managed: ManagedPolicy, depth: nat, limits: Limits, total: nat, active: nat,
                            requested: Authority, aborted: bool)
    ensures Admits(authority, managed, depth, limits, total, active, requested, aborted).Started? <==>
      && depth < limits.maxDepth && total < limits.maxTotalChildren && active < limits.maxActiveChildren && !aborted
      && authority.maxChildDepth >= 0
  {
    IntersectionIsAtMostParentExactlyWhen(requested, authority, managed);
  }

  /** A refusal names the first of the limits that is reached, then a cancellation, then a budget below none. */
  lemma RefusedForTheFirstReason(authority: Authority, managed: ManagedPolicy, depth: nat, limits: Limits, total: nat, active: nat,
                                 requested: Authority, aborted: bool)
    ensures var r := Admits(authority, managed, depth, limits, total, active, requested, aborted);
      && (r == Refused(DepthExceeded) <==> depth >= limits.maxDepth)
      && (r == Refused(CountExceeded) <==> depth < limits.maxDepth && total >= limits.maxTotalChildren)
      && (r == Refused(ActiveExceeded) <==>
            depth < limits.maxDepth && total < limits.maxTotalChildren && active >= limits.maxActiveChildren)
      && (r == Refused(Cancelled) <==>
            depth < limits.maxDepth && total < limits.maxTotalChildren && active < limits.maxActiveChildren && aborted)
      && r != Refused(WrongEntryPoint)
  {
  }

  const NO_FURTHER_LEVELS := Authority(Profile.Ask, WorkspaceWrite, false, [], [], [], 0)
  const ANY_DEPTH := ManagedPolicy(Yolo, Disabled, true, 2)

  /** A holder whose budget allows no further level starts a child, which may start one too. */
  lemma EmptyBudgetStillStarts()
    ensures var r := Admits(NO_FURTHER_LEVELS, ANY_DEPTH, 0, DEFAULT_SUBAGENT_LIMITS, 0, 0, NO_FURTHER_LEVELS, false);
      && r.Started?
      && Admits(r.authority, ANY_DEPTH, 1, DEFAULT_SUBAGENT_LIMITS, 0, 0, NO_FURTHER_LEVELS, false).Started?
  {
    var r := Admits(NO_FURTHER_LEVELS, ANY_DEPTH, 0, DEFAULT_SUBAGENT_LIMITS, 0, 0, NO_FURTHER_LEVELS, false);
    AdmittedExactlyWhen(NO_FURTHER_LEVELS, ANY_DEPTH, 0, DEFAULT_SUBAGENT_LIMITS, 0, 0, NO_FURTHER_LEVELS, false);
    AdmittedExactlyWhen(r.authority, ANY_DEPTH, 1, DEFAULT_SUBAGENT_LIMITS, 0, 0, NO_FURTHER_LEVELS, false);
  }

  /** Some supervisor may start a child at all. */
  predicate Admitting(limits: Limits) { limits.maxTotalChildren > 0 && limits.maxActiveChildren > 0 }

  /** A supervisor nobody was started under yet, whose holder's budget is not negative. */
  predicate Fresh(t: Tree, i: nat) {
    i < |t.sups| && t.sups[i].total == 0 && t.sups[i].active == 0 && t.sups[i].authority.maxChildDepth >= 0
  }

  predicate HasLevel(t: Tree, level: nat) { exists k :: 0 <= k < |t.agents| && t.agents[k].level == level }

  /** Such a supervisor starts a child, and the child's own supervisor is such a one. */
  lemma OneLevelDown(t: Tree, i: nat, managed: ManagedPolicy, limits: Limits) returns (spawn: Step, supervise: Step)
    requires Fresh(t, i) && t.sups[i].depth < limits.maxDepth && Admitting(limits)
    ensures Enabled(t, spawn)
    ensures var t1 := Apply(t, spawn, managed, limits);
      && |t1.agents| == |t.agents| + 1 && t1.agents[|t.agents|].level == t.sups[i].depth + 1
      && Enabled(t1, supervise)
      && var t2 := Apply(t1, supervise, managed, limits); Fresh(t2, |t.sups|) && t2.sups[|t.sups|].depth == t.sups[i].depth + 1
  {
    var s := t.sups[i];
    AdmittedExactlyWhen(s.authority, managed, s.depth, limits, 0, 0, s.authority, false);
    spawn, supervise := Spawns(i, s.authority, false), Supervises(|t.agents|);
  }

  lemma ExecCons(t: Tree, step: Step, rest: seq<Step>, managed: ManagedPolicy, limits: Limits)
    requires Enabled(t, step) && Admissible(Apply(t, step, managed, limits), rest, managed, limits)
    ensures Admissible(t, [step] + rest, managed, limits)
    ensures Exec(t, [step] + rest, managed, limits) == Exec(Apply(t, step, managed, limits), rest, managed, limits)
  {
    assert ([step] + rest)[1..] == rest;
  }

  /** Level by level down to any depth the limit allows. */
  lemma {:induction false} Descend(t: Tree, i: nat, n: nat, managed: ManagedPolicy, limits: Limits) returns (run: seq<Step>)
    requires Fresh(t, i) && Admitting(limits) && 0 < n && t.sups[i].depth + n <= limits.maxDepth
    ensures Admissible(t, run, managed, limits) && HasLevel(Exec(t, run, managed, limits), t.sups[i].depth + n)
    decreases n
  {
    var spawn, supervise := OneLevelDown(t, i, managed, limits);
    var t1 := Apply(t, spawn, managed, limits);
    if n == 1 {
      ExecCons(t, spawn, [], managed, limits);
      run := [spawn] + [];
    } else {
      var t2 := Apply(t1, supervise, managed, limits);
      var rest := Descend(t2, |t.sups|, n - 1, managed, limits);
      ExecCons(t1, supervise, rest, managed, limits);
      ExecCons(t, spawn, [supervise] + rest, managed, limits);
      run := [spawn] + ([supervise] + rest);
    }
  }

  /** Some run from the root starts an agent this deep. */
  ghost predicate Reaches(root: Authority, managed: ManagedPolicy, limits: Limits, level: nat) {
    exists run :: Admissible(Root(root), run, managed, limits) && HasLevel(Exec(Root(root), run, managed, limits), level)
  }

  /** A supervisor with a negative budget, or with no room for any child, starts nobody. */
  lemma {:induction false} NobodyStarts(t: Tree, run: seq<Step>, managed: ManagedPolicy, limits: Limits)
    requires Admissible(t, run, managed, limits) && t.agents == []
    requires !Admitting(limits) || forall s :: s in t.sups ==> s.authority.maxChildDepth < 0
    ensures Exec(t, run, managed, limits).agents == []
    decreases |run|
  {
    if run != [] {
      if run[0].Spawns? {
        var s := t.sups[run[0].sup];
        AdmittedExactlyWhen(s.authority, managed, s.depth, limits, s.total, s.active, run[0].requested, run[0].aborted);
      }
      NobodyStarts(Apply(t, run[0], managed, limits), run[1..], managed, limits);
    }
  }

  /** Which levels can be reached: with any budget that is not negative, exactly those the depth limit allows. */
  lemma LevelReachedExactlyWhen(root: Authority, managed: ManagedPolicy, limits: Limits, level: nat)
    ensures Reaches(root, managed, limits, level) <==>
      1 <= level <= limits.maxDepth && Admitting(limits) && root.maxChildDepth >= 0
  {
    if 1 <= level <= limits.maxDepth && Admitting(limits) && root.maxChildDepth >= 0 {
      var run := Descend(Root(root), 0, level, managed, limits);
    }
    forall run | Admissible(Root(root), run, managed, limits) && HasLevel(Exec(Root(root), run, managed, limits), level)
      ensures 1 <= level <= limits.maxDepth && Admitting(limits) && root.maxChildDepth >= 0
    {
      var t := Exec(Root(root), run, managed, limits);
      var k: nat :| k < |t.agents| && t.agents[k].level == level;
      TreeIsBounded(root, run, managed, limits);
      assert AgentOk(t, k, root, limits);
      if !Admitting(limits) || root.maxChildDepth < 0 { NobodyStarts(Root(root), run, managed, limits); }
    }
  }

  /** No run goes deeper than the root's budget says. */
  ghost predicate WithinBudget(root: Authority, managed: ManagedPolicy, limits: Limits) {
    forall level: nat :: Reaches(root, managed, limits, level) ==> level <= root.maxChildDepth
  }

  /** When the root's budget bounds the levels below it: if and only if nobody can be started, or the limit is no larger. */
  lemma BudgetBoundsLevelsExactlyWhen(root: Authority, managed: ManagedPolicy, limits: Limits)
    ensures WithinBudget(root, managed, limits) <==>
      root.maxChildDepth < 0 || !Admitting(limits) || limits.maxDepth <= root.maxChildDepth
  {
    forall level: nat ensures Reaches(root, managed, limits, level) <==>
      1 <= level <= limits.maxDepth && Admitting(limits) && root.maxChildDepth >= 0
    {
      LevelReachedExactlyWhen(root, managed, limits, level);
    }
    if root.maxChildDepth >= 0 && Admitting(limits) && limits.maxDepth > root.maxChildDepth {
      assert Reaches(root, managed, limits, limits.maxDepth);
    }
  }
}
