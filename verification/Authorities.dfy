/**
 Authority and its intersection: what a child may hold, and the order it is judged by
 (packages/policy/src/authority.ts).
 */
module Authorities {
  import opened Options

  datatype Profile = Plan | Ask | AutoAcceptEdits | Yolo
  datatype Isolation = ReadOnly | WorkspaceWrite | Disabled
  datatype Effect = Allows | Denies | Asks | Passes
  datatype Rule = Rule(id: string, effect: Effect, body: string)
  datatype Grant = Grant(id: string, body: string)

  datatype Authority = Authority(profile: Profile, isolation: Isolation, networkAllowed: bool, workspaceRoots: seq<string>,
                                 rules: seq<Rule>, grants: seq<Grant>, maxChildDepth: int)

  datatype ManagedPolicy = ManagedPolicy(maxProfile: Profile, maxIsolation: Isolation, networkAllowed: bool, maxChildDepth: int)

  function ProfileRank(p: Profile): nat {
    match p
    case Plan => 0
    case Ask => 1
    case AutoAcceptEdits => 2
    case Yolo => 3
  }

  function IsolationRank(m: Isolation): nat {
    match m
    case ReadOnly => 0
    case WorkspaceWrite => 1
    case Disabled => 2
  }

  function LeastProfile(a: Profile, b: Profile): Profile { if ProfileRank(a) <= ProfileRank(b) then a else b }
  function StrictestIsolation(a: Isolation, b: Isolation): Isolation { if IsolationRank(a) <= IsolationRank(b) then a else b }

  /** The root itself, or a path beneath it; purely lexical. */
  predicate IsWithin(root: string, path: string) {
    path == root || (if root != "" && root[|root| - 1] == '/' then root else root + "/") <= path
  }

  predicate HeldBy(root: string, roots: seq<string>) { exists i :: 0 <= i < |roots| && IsWithin(roots[i], root) }

  function AllowIds(rules: seq<Rule>): set<string> { set r | r in rules && r.effect == Allows :: r.id }
  function RuleIds(rules: seq<Rule>): set<string> { set r | r in rules :: r.id }
  function GrantIds(grants: seq<Grant>): set<string> { set g | g in grants :: g.id }

  predicate Restrictive(r: Rule) { r.effect == Denies || r.effect == Asks }

  /** Which requested rules the child is given beside the parent's. */
  function KeptRules(requested: seq<Rule>, parent: seq<Rule>): seq<Rule> {
    if requested == [] then []
    else
      var r, rest := requested[|requested| - 1], KeptRules(requested[..|requested| - 1], parent);
      if Restrictive(r) || (r.effect == Allows && r.id in AllowIds(parent) && r.id !in RuleIds(parent)) then rest + [r] else rest
  }

  function KeptRoots(requested: seq<string>, parent: seq<string>): seq<string> {
    if requested == [] then []
    else KeptRoots(requested[..|requested| - 1], parent) + (if HeldBy(requested[|requested| - 1], parent) then [requested[|requested| - 1]] else [])
  }

  function KeptGrants(requested: seq<Grant>, parent: seq<Grant>): seq<Grant> {
    if requested == [] then []
    else KeptGrants(requested[..|requested| - 1], parent)
         + (if requested[|requested| - 1].id in GrantIds(parent) then [requested[|requested| - 1]] else [])
  }

  function Intersect(requested: Authority, parent: Authority, managed: ManagedPolicy): Authority {
    Authority(
      LeastProfile(LeastProfile(requested.profile, parent.profile), managed.maxProfile),
      StrictestIsolation(StrictestIsolation(requested.isolation, parent.isolation), managed.maxIsolation),
      requested.networkAllowed && parent.networkAllowed && managed.networkAllowed,
      KeptRoots(if requested.workspaceRoots == [] then parent.workspaceRoots else requested.workspaceRoots, parent.workspaceRoots),
      parent.rules + KeptRules(requested.rules, parent.rules),
      KeptGrants(requested.grants, parent.grants),
      Max(0, Min(requested.maxChildDepth, Min(parent.maxChildDepth - 1, managed.maxChildDepth))))
  }

  // ----- the order -----------------------------------------------------------------------------------------------

  predicate IsAtMost(child: Authority, parent: Authority) {
    && ProfileRank(child.profile) <= ProfileRank(parent.profile)
    && IsolationRank(child.isolation) <= IsolationRank(parent.isolation)
    && (child.networkAllowed ==> parent.networkAllowed)
    && (forall i :: 0 <= i < |child.workspaceRoots| ==> HeldBy(child.workspaceRoots[i], parent.workspaceRoots))
    && AllowIds(child.rules) <= AllowIds(parent.rules)
    && GrantIds(child.grants) <= GrantIds(parent.grants)
    && child.maxChildDepth <= parent.maxChildDepth
  }

  /** Every way the child holds more than the parent; empty exactly when it holds at most as much. */
  method AuthorityViolations(child: Authority, parent: Authority) returns (fields: seq<string>)
    ensures fields == [] <==> IsAtMost(child, parent)
  {
    fields := [];
    if ProfileRank(child.profile) > ProfileRank(parent.profile) { fields := fields + ["profile"]; }
    if IsolationRank(child.isolation) > IsolationRank(parent.isolation) { fields := fields + ["isolation"]; }
    if child.networkAllowed && !parent.networkAllowed { fields := fields + ["networkAllowed"]; }
    ghost var clean := fields == [];
    for i := 0 to |child.workspaceRoots|
      invariant fields == [] <==> clean && forall k :: 0 <= k < i ==> HeldBy(child.workspaceRoots[k], parent.workspaceRoots)
    {
      if !HeldBy(child.workspaceRoots[i], parent.workspaceRoots) { fields := fields + ["workspaceRoots"]; }
    }
    clean := fields == [];
    var allowed := AllowIds(parent.rules);
    for i := 0 to |child.rules|
      invariant fields == [] <==> clean && AllowIds(child.rules[..i]) <= allowed
    {
      assert child.rules[..i + 1] == child.rules[..i] + [child.rules[i]];
      assert AllowIds(child.rules[..i + 1]) == AllowIds(child.rules[..i]) + AllowIds([child.rules[i]]);
      if child.rules[i].effect == Allows && child.rules[i].id !in allowed { fields := fields + ["rules"]; }
    }
    assert child.rules[..|child.rules|] == child.rules;
    clean := fields == [];
    var granted := GrantIds(parent.grants);
    for i := 0 to |child.grants|
      invariant fields == [] <==> clean && GrantIds(child.grants[..i]) <= granted
    {
      assert child.grants[..i + 1] == child.grants[..i] + [child.grants[i]];
      assert GrantIds(child.grants[..i + 1]) == GrantIds(child.grants[..i]) + GrantIds([child.grants[i]]);
      if child.grants[i].id !in granted { fields := fields + ["grants"]; }
    }
    assert child.grants[..|child.grants|] == child.grants;
    if child.maxChildDepth > parent.maxChildDepth { fields := fields + ["maxChildDepth"]; }
  }

  lemma WithinIsTransitive(a: string, b: string, c: string)
    requires IsWithin(a, b) && IsWithin(b, c)
    ensures IsWithin(a, c)
  {
  }

  lemma HeldIsTransitive(root: string, roots: seq<string>, outer: seq<string>)
    requires HeldBy(root, roots) && forall i :: 0 <= i < |roots| ==> HeldBy(roots[i], outer)
    ensures HeldBy(root, outer)
  {
    var i :| 0 <= i < |roots| && IsWithin(roots[i], root);
    var k :| 0 <= k < |outer| && IsWithin(outer[k], roots[i]);
    WithinIsTransitive(outer[k], roots[i], root);
  }

  /** Holding at most as much is reflexive and transitive, so a chain of children never climbs. */
  lemma AtMostIsAPreorder(a: Authority, b: Authority, c: Authority)
    ensures IsAtMost(a, a)
    ensures IsAtMost(a, b) && IsAtMost(b, c) ==> IsAtMost(a, c)
  {
    forall i | 0 <= i < |a.workspaceRoots| ensures HeldBy(a.workspaceRoots[i], a.workspaceRoots) {
      assert IsWithin(a.workspaceRoots[i], a.workspaceRoots[i]);
    }
    if IsAtMost(a, b) && IsAtMost(b, c) {
      forall i | 0 <= i < |a.workspaceRoots| ensures HeldBy(a.workspaceRoots[i], c.workspaceRoots) {
        HeldIsTransitive(a.workspaceRoots[i], b.workspaceRoots, c.workspaceRoots);
      }
    }
  }

  // ----- the intersection is below both --------------------------------------------------------------------------

  lemma {:induction false} KeptRulesAreRestrictive(requested: seq<Rule>, parent: seq<Rule>)
    ensures forall r :: r in KeptRules(requested, parent) <==> r in requested && Restrictive(r)
    decreases |requested|
  {
    if requested != [] {
      var init, last := requested[..|requested| - 1], requested[|requested| - 1];
      KeptRulesAreRestrictive(init, parent);
      assert requested == init + [last];
      assert last.id in AllowIds(parent) ==> last.id in RuleIds(parent);
    }
  }

  lemma {:induction false} KeptRootsAreHeld(requested: seq<string>, parent: seq<string>)
    ensures forall r :: r in KeptRoots(requested, parent) <==> r in requested && HeldBy(r, parent)
    decreases |requested|
  {
    if requested != [] {
      KeptRootsAreHeld(requested[..|requested| - 1], parent);
      assert requested == requested[..|requested| - 1] + [requested[|requested| - 1]];
    }
  }

  lemma {:induction false} KeptGrantsAreHeld(requested: seq<Grant>, parent: seq<Grant>)
    ensures forall g :: g in KeptGrants(requested, parent) <==> g in requested && g.id in GrantIds(parent)
    decreases |requested|
  {
    if requested != [] {
      KeptGrantsAreHeld(requested[..|requested| - 1], parent);
      assert requested == requested[..|requested| - 1] + [requested[|requested| - 1]];
    }
  }

  /**
   The child never holds more than its parent, exactly when the parent's depth budget is not negative:
   the budget is floored at zero, which a negative one lies below. It never holds more than managed policy
   allows either, and each generation has strictly less depth left, down to none.
   */
  lemma IntersectionIsAtMostParentExactlyWhen(requested: Authority, parent: Authority, managed: ManagedPolicy)
    ensures IsAtMost(Intersect(requested, parent, managed), parent) <==> parent.maxChildDepth >= 0
    ensures var child := Intersect(requested, parent, managed);
      && ProfileRank(child.profile) <= ProfileRank(managed.maxProfile)
      && IsolationRank(child.isolation) <= IsolationRank(managed.maxIsolation)
      && (child.networkAllowed ==> managed.networkAllowed)
      && child.maxChildDepth <= Max(0, managed.maxChildDepth)
      && (parent.maxChildDepth > 0 ==> child.maxChildDepth < parent.maxChildDepth)
  {
    var child := Intersect(requested, parent, managed);
    KeptRulesAreRestrictive(requested.rules, parent.rules);
    KeptGrantsAreHeld(requested.grants, parent.grants);
    KeptRootsAreHeld(if requested.workspaceRoots == [] then parent.workspaceRoots else requested.workspaceRoots, parent.workspaceRoots);
    forall i | 0 <= i < |child.workspaceRoots| ensures HeldBy(child.workspaceRoots[i], parent.workspaceRoots) {
      assert child.workspaceRoots[i] in child.workspaceRoots;
    }
  }

  /**
   Restrictions from both sides survive and no requested allow-rule is ever added: the branch that would
   keep one asks for an id the parent both allows and does not have.
   */
  lemma RestrictionsSurviveAndAllowsDoNot(requested: Authority, parent: Authority, managed: ManagedPolicy, r: Rule)
    ensures r in Intersect(requested, parent, managed).rules <==> r in parent.rules || (r in requested.rules && Restrictive(r))
  {
    KeptRulesAreRestrictive(requested.rules, parent.rules);
  }
}
