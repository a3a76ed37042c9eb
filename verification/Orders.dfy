/**
 The orders that configuration and authority are judged by, told at their constructors, and what the merge and the
 intersection give in those terms.
 */
module Orders {
  import opened Options
  import A = Authorities
  import C = ConfigResolution

  // ----- configuration ------------------------------------------------------------------------------------------------

  /** plan < ask < auto-accept-edits < yolo */
  predicate TighterProfile(a: C.Profile, b: C.Profile) {
    match a
    case Plan => b != C.Plan
    case Ask => b == C.AutoAcceptEdits || b == C.Yolo
    case AutoAcceptEdits => b == C.Yolo
    case Yolo => false
  }

  /** read-only < workspace-write < disabled */
  predicate TighterIsolation(a: C.Isolation, b: C.Isolation) {
    match a
    case ReadOnly => b != C.ReadOnly
    case WorkspaceWrite => b == C.Disabled
    case Disabled => false
  }

  /** cli over env over local over shared over user over builtin; managed sources set nothing. */
  predicate Outranks(a: C.Scope, b: C.Scope) {
    match a
    case Cli => b == C.Env || b == C.LocalProject || b == C.SharedProject || b == C.User || b == C.Builtin
    case Env => b == C.LocalProject || b == C.SharedProject || b == C.User || b == C.Builtin
    case LocalProject => b == C.SharedProject || b == C.User || b == C.Builtin
    case SharedProject => b == C.User || b == C.Builtin
    case User => b == C.Builtin
    case Builtin => false
    case Managed => false
  }

  lemma ConfigRanksAreTheOrders()
    ensures forall a, b :: TighterProfile(a, b) <==> C.ProfileRank(a) < C.ProfileRank(b)
    ensures forall a, b :: TighterIsolation(a, b) <==> C.IsolationRank(a) < C.IsolationRank(b)
    ensures forall a, b :: a != C.Managed && b != C.Managed ==> (Outranks(a, b) <==> C.OverrideRank(a) > C.OverrideRank(b))
  {
  }

  /** Source `i` sets the key, nobody who sets it outranks it, and it outranks everybody later who does. */
  ghost predicate Decides<T>(sources: seq<C.Source>, select: C.ConfigDoc -> Option<T>, i: nat) {
    && i < |sources| && sources[i].scope != C.Managed && select(sources[i].config).Some?
    && (forall j :: 0 <= j < |sources| && sources[j].scope != C.Managed && select(sources[j].config).Some? ==>
          !Outranks(sources[j].scope, sources[i].scope) && (j > i ==> Outranks(sources[i].scope, sources[j].scope)))
  }

  /** A key resolves to the value of the source that decides it, under that source's name. */
  lemma HighestScopeDecides<T>(sources: seq<C.Source>, select: C.ConfigDoc -> Option<T>)
    ensures var r := C.Override(sources, select); r.Some? ==>
      exists i: nat :: Decides(sources, select, i) && select(sources[i].config) == Some(r.value.value)
                       && r.value.source == C.SourceRef(sources[i].id, sources[i].scope, sources[i].origin)
    ensures C.Override(sources, select).None? <==>
      forall i :: 0 <= i < |sources| ==> sources[i].scope == C.Managed || select(sources[i].config).None?
  {
    C.OverrideIsTheOwners(sources, select);
    ConfigRanksAreTheOrders();
    var r := C.Override(sources, select);
    if r.Some? {
      var i: nat :| C.OwnedBy(sources, select, r.value, i);
      forall j | 0 <= j < |sources| && sources[j].scope != C.Managed && select(sources[j].config).Some?
        ensures !Outranks(sources[j].scope, sources[i].scope) && (j > i ==> Outranks(sources[i].scope, sources[j].scope))
      {
        assert C.Sets(sources[j], select);
      }
      assert Decides(sources, select, i);
    }
  }

  /**
   The effective profile and isolation are never looser than what any source allows, and are what was asked for
   unless the tightest ceiling is tighter; the network is reached only if nobody forbids it.
   */
  lemma EffectiveIsTheTighter(sources: seq<C.Source>, s: C.Source)
    requires s in C.All(sources)
    ensures var a, all := C.Effective(sources), C.All(sources);
      && (s.config.maxProfile.Some? ==> !TighterProfile(s.config.maxProfile.value, a.permissionProfile.value))
      && (s.config.maxIsolation.Some? ==> !TighterIsolation(s.config.maxIsolation.value, a.isolation.value))
      && (s.config.networkAllowed == Some(false) ==> !a.network.value)
      && C.Override(all, C.ProfileOf).Some? && C.Override(all, C.IsolationOf).Some?
      && var (wanted, isolation) := (C.Override(all, C.ProfileOf).value.value, C.Override(all, C.IsolationOf).value.value);
      && a.permissionProfile.value == (if TighterProfile(a.maxProfile.value, wanted) then a.maxProfile.value else wanted)
      && a.isolation.value == (if TighterIsolation(a.maxIsolation.value, isolation) then a.maxIsolation.value else isolation)
  {
    C.AuthorityIsWithinEveryCeiling(sources, s);
    ConfigRanksAreTheOrders();
  }

  /** With no source at all: ask first, write in the workspace only, no network, and no ceiling that bites. */
  lemma NothingConfigured()
    ensures var a := C.Effective([]);
      && a.permissionProfile.value == C.Ask && a.isolation.value == C.WorkspaceWrite && !a.network.value
      && a.maxProfile.value == C.Yolo && a.maxIsolation.value == C.Disabled && a.networkAllowed.value
  {
    assert C.All([]) == [C.BUILTIN_SOURCE] && [C.BUILTIN_SOURCE][..0] == [];
  }

  predicate Is(key: string, value: C.Value) { key in C.BUILTIN_VALUES && C.BUILTIN_VALUES[key] == value }

  /** The built-in budgets and sizes, by name. */
  lemma BuiltinBudgets()
    ensures Is("budgets.turnsPerGoal", C.Number(200)) && Is("budgets.modelCallsPerTurn", C.Number(100))
    ensures Is("budgets.toolCallsPerTurn", C.Number(1_000)) && Is("budgets.wallTimeMsPerTurn", C.Number(28_800_000))
    ensures Is("budgets.activeChildAgents", C.Number(4)) && Is("budgets.childDepth", C.Number(2))
    ensures Is("budgets.safeReadConcurrency", C.Number(8)) && Is("budgets.retryAttempts", C.Number(10))
    ensures Is("toolOutput.modelPreviewBytes", C.Number(65_536)) && Is("toolOutput.tuiInlineBytes", C.Number(1_048_576))
    ensures Is("toolOutput.backgroundWarnBytes", C.Number(10_485_760))
    ensures Is("toolOutput.backgroundHardStopBytes", C.Number(5_368_709_120))
    ensures Is("toolOutput.mcpInlineTokens", C.Number(25_000)) && Is("toolOutput.mcpDurableChars", C.Number(500_000))
    ensures Is("telemetry", C.Flag(false)) && Is("telemetryRetentionDays", C.Number(7))
  {
  }

  // ----- authority ------------------------------------------------------------------------------------------------------

  /** plan < ask < auto-accept-edits < yolo */
  predicate LessAllowed(a: A.Profile, b: A.Profile) {
    match a
    case Plan => b != A.Plan
    case Ask => b == A.AutoAcceptEdits || b == A.Yolo
    case AutoAcceptEdits => b == A.Yolo
    case Yolo => false
  }

  /** read-only < workspace-write < disabled */
  predicate MoreIsolated(a: A.Isolation, b: A.Isolation) {
    match a
    case ReadOnly => b != A.ReadOnly
    case WorkspaceWrite => b == A.Disabled
    case Disabled => false
  }

  lemma AuthorityRanksAreTheOrders()
    ensures forall a, b :: LessAllowed(a, b) <==> A.ProfileRank(a) < A.ProfileRank(b)
    ensures forall a, b :: MoreIsolated(a, b) <==> A.IsolationRank(a) < A.IsolationRank(b)
  {
  }

  /** The path is the root, or goes on behind it with a slash of its own or the root's. */
  predicate Beneath(root: string, path: string) {
    || path == root
    || (|root| < |path| && path[..|root|] == root && (path[|root|] == '/' || (root != "" && root[|root| - 1] == '/')))
  }

  lemma WithinIsBeneath(root: string, path: string)
    ensures A.IsWithin(root, path) <==> Beneath(root, path)
  {
    var prefix := if root != "" && root[|root| - 1] == '/' then root else root + "/";
    if prefix <= path && path != root {
      assert path[..|root|] == path[..|prefix|][..|root|] == root;
      if prefix != root { assert path[|root|] == prefix[|root|]; }
    }
    if Beneath(root, path) && path != root && prefix != root { assert path[..|prefix|] == prefix; }
  }

  /** A workspace holds what is beneath it and not what merely starts like it. */
  lemma WorkHoldsItsOwn()
    ensures A.IsWithin("/work", "/work") && A.IsWithin("/work", "/work/x") && !A.IsWithin("/work", "/workshop")
    ensures A.IsWithin("/work/", "/work/x") && !A.IsWithin("/work/", "/work") && A.IsWithin("/", "/work")
    ensures !A.IsWithin("/work/x", "/work")
  {
    WithinIsBeneath("/work", "/work/x");
    WithinIsBeneath("/work", "/workshop");
    WithinIsBeneath("/work/", "/work/x");
    WithinIsBeneath("/work/", "/work");
    WithinIsBeneath("/", "/work");
    WithinIsBeneath("/work/x", "/work");
    assert "/work/x"[..5] == "/work" && "/workshop"[5] == 's';
    assert "/work/x"[..6] == "/work/" && "/work"[..1] == "/";
  }

  /** Those elements that are wanted, in their order. */
  function Those<T>(xs: seq<T>, wanted: T -> bool): seq<T> {
    if xs == [] then [] else Those(xs[..|xs| - 1], wanted) + if wanted(xs[|xs| - 1]) then [xs[|xs| - 1]] else []
  }

  predicate HeldBy(root: string, roots: seq<string>) { exists i :: 0 <= i < |roots| && Beneath(roots[i], root) }
  predicate Granted(g: A.Grant, grants: seq<A.Grant>) { exists h :: h in grants && h.id == g.id }

  lemma HeldByBeneath(root: string, roots: seq<string>)
    ensures A.HeldBy(root, roots) <==> HeldBy(root, roots)
  {
    forall i | 0 <= i < |roots| ensures A.IsWithin(roots[i], root) <==> Beneath(roots[i], root) { WithinIsBeneath(roots[i], root); }
  }

  lemma {:induction false} KeptRootsAreThose(requested: seq<string>, parent: seq<string>)
    ensures A.KeptRoots(requested, parent) == Those(requested, (r: string) => HeldBy(r, parent))
    decreases |requested|
  {
    if requested != [] {
      KeptRootsAreThose(requested[..|requested| - 1], parent);
      HeldByBeneath(requested[|requested| - 1], parent);
    }
  }

  lemma {:induction false} KeptGrantsAreThose(requested: seq<A.Grant>, parent: seq<A.Grant>)
    ensures A.KeptGrants(requested, parent) == Those(requested, (g: A.Grant) => Granted(g, parent))
    decreases |requested|
  {
    if requested != [] {
      KeptGrantsAreThose(requested[..|requested| - 1], parent);
      var last := requested[|requested| - 1];
      assert last.id in A.GrantIds(parent) <==> Granted(last, parent);
    }
  }

  lemma {:induction false} KeptRulesAreThose(requested: seq<A.Rule>, parent: seq<A.Rule>)
    ensures A.KeptRules(requested, parent) == Those(requested, (r: A.Rule) => r.effect == A.Denies || r.effect == A.Asks)
    decreases |requested|
  {
    if requested != [] {
      KeptRulesAreThose(requested[..|requested| - 1], parent);
      var last := requested[|requested| - 1];
      assert last.id in A.AllowIds(parent) ==> last.id in A.RuleIds(parent);
    }
  }

  /** One of the three, and none of the three is tighter. */
  predicate TightestProfile(p: A.Profile, a: A.Profile, b: A.Profile, c: A.Profile) {
    (p == a || p == b || p == c) && !LessAllowed(a, p) && !LessAllowed(b, p) && !LessAllowed(c, p)
  }

  predicate TightestIsolation(p: A.Isolation, a: A.Isolation, b: A.Isolation, c: A.Isolation) {
    (p == a || p == b || p == c) && !MoreIsolated(a, p) && !MoreIsolated(b, p) && !MoreIsolated(c, p)
  }

  /** The least of the three, and none if that is below none. */
  predicate LevelsLeft(d: int, a: int, b: int, c: int) {
    if a < 0 || b < 0 || c < 0 then d == 0 else (d == a || d == b || d == c) && d <= a && d <= b && d <= c
  }

  /**
   The child's authority, field by field: the tightest profile and isolation of the three; the network only if all
   three allow it; of the roots asked for, or of the parent's if none is, those the parent holds; the parent's rules
   and behind them the restrictions asked for; of the grants asked for, those the parent has; and as many levels as
   was asked for, but less than the parent has left, no more than managed policy gives and not below none.
   */
  lemma IntersectionFieldByField(requested: A.Authority, parent: A.Authority, managed: A.ManagedPolicy)
    ensures var child := A.Intersect(requested, parent, managed);
      && TightestProfile(child.profile, requested.profile, parent.profile, managed.maxProfile)
      && TightestIsolation(child.isolation, requested.isolation, parent.isolation, managed.maxIsolation)
      && (child.networkAllowed <==> requested.networkAllowed && parent.networkAllowed && managed.networkAllowed)
      && child.workspaceRoots == Those(if requested.workspaceRoots == [] then parent.workspaceRoots else requested.workspaceRoots,
                                       (r: string) => HeldBy(r, parent.workspaceRoots))
      && child.rules == parent.rules + Those(requested.rules, (r: A.Rule) => r.effect == A.Denies || r.effect == A.Asks)
      && child.grants == Those(requested.grants, (g: A.Grant) => Granted(g, parent.grants))
      && LevelsLeft(child.maxChildDepth, requested.maxChildDepth, parent.maxChildDepth - 1, managed.maxChildDepth)
  {
    AuthorityRanksAreTheOrders();
    KeptRootsAreThose(if requested.workspaceRoots == [] then parent.workspaceRoots else requested.workspaceRoots, parent.workspaceRoots);
    KeptRulesAreThose(requested.rules, parent.rules);
    KeptGrantsAreThose(requested.grants, parent.grants);
  }

  /** A child holds more than its parent in no respect: told by the orders, the paths and the ids. */
  predicate HoldsNoMore(child: A.Authority, parent: A.Authority) {
    && !LessAllowed(parent.profile, child.profile) && !MoreIsolated(parent.isolation, child.isolation)
    && (child.networkAllowed ==> parent.networkAllowed)
    && (forall i :: 0 <= i < |child.workspaceRoots| ==> HeldBy(child.workspaceRoots[i], parent.workspaceRoots))
    && (forall r :: r in child.rules && r.effect == A.Allows ==> exists p :: p in parent.rules && p.effect == A.Allows && p.id == r.id)
    && (forall g :: g in child.grants ==> Granted(g, parent.grants))
    && child.maxChildDepth <= parent.maxChildDepth
  }

  lemma AtMostByName(child: A.Authority, parent: A.Authority)
    ensures A.IsAtMost(child, parent) <==> HoldsNoMore(child, parent)
  {
    AuthorityRanksAreTheOrders();
    forall r ensures A.HeldBy(r, parent.workspaceRoots) <==> HeldBy(r, parent.workspaceRoots) { HeldByBeneath(r, parent.workspaceRoots); }
    AllowsByName(child.rules, parent.rules);
    GrantsByName(child.grants, parent.grants);
  }

  lemma AllowsByName(child: seq<A.Rule>, parent: seq<A.Rule>)
    ensures A.AllowIds(child) <= A.AllowIds(parent) <==>
      forall r :: r in child && r.effect == A.Allows ==> exists p :: p in parent && p.effect == A.Allows && p.id == r.id
  {
    forall r: A.Rule | r in child && r.effect == A.Allows ensures r.id in A.AllowIds(child) { }
    if A.AllowIds(child) <= A.AllowIds(parent) {
      forall r | r in child && r.effect == A.Allows ensures exists p :: p in parent && p.effect == A.Allows && p.id == r.id {
        assert r.id in A.AllowIds(parent);
      }
    }
  }

  lemma GrantsByName(child: seq<A.Grant>, parent: seq<A.Grant>)
    ensures A.GrantIds(child) <= A.GrantIds(parent) <==> forall g :: g in child ==> Granted(g, parent)
  {
    forall g: A.Grant | g in child ensures g.id in A.GrantIds(child) { }
    if A.GrantIds(child) <= A.GrantIds(parent) {
      forall g | g in child ensures Granted(g, parent) { assert g.id in A.GrantIds(parent); }
    }
  }
}
