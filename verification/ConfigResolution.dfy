/**
 Layered configuration: ordinary values go to the highest scope that sets them, ceilings to the tightest
 scope, denies accumulate, and authority is clamped to its ceilings last (packages/config/src/resolve.ts).
 */
module ConfigResolution {
  import opened Options

  datatype Profile = Plan | Ask | AutoAcceptEdits | Yolo
  datatype Isolation = ReadOnly | WorkspaceWrite | Disabled
  datatype Scope = Managed | Builtin | User | SharedProject | LocalProject | Env | Cli
  datatype Origin = File(path: string) | FromEnv | FromCli | FromBuiltin
  datatype Value = Text(text: string) | Number(number: int) | Flag(flag: bool)

  /** A partial document. The keys without a security meaning are in `values`, by their dotted names. */
  datatype ConfigDoc = ConfigDoc(
    permissionProfile: Option<Profile>, isolation: Option<Isolation>, network: Option<bool>,
    maxProfile: Option<Profile>, maxIsolation: Option<Isolation>, networkAllowed: Option<bool>,
    deny: seq<string>, values: map<string, Value>)

  datatype Source = Source(id: string, scope: Scope, config: ConfigDoc, origin: Origin)
  datatype SourceRef = SourceRef(id: string, scope: Scope, origin: Origin)
  datatype Resolved<T> = Resolved(value: T, source: SourceRef)
  datatype Contribution = Contribution(value: string, source: SourceRef)
  datatype ResolvedDeny = ResolvedDeny(value: seq<string>, contributions: seq<Contribution>)

  function RefOf(s: Source): SourceRef { SourceRef(s.id, s.scope, s.origin) }

  /** Lower is tighter. */
  function ProfileRank(p: Profile): nat {
    match p
    case Plan => 0
    case Ask => 1
    case AutoAcceptEdits => 2
    case Yolo => 3
  }

  function IsolationRank(m: Isolation): nat {
    match m
    case ReadOnly => 0
    case WorkspaceWrite => 1
    case Disabled => 2
  }

  function BoolRank(b: bool): nat { if b then 1 else 0 }

  function OverrideRank(s: Scope): nat
    requires s != Managed
  {
    match s
    case Builtin => 0
    case User => 1
    case SharedProject => 2
    case LocalProject => 3
    case Env => 4
    case Cli => 5
  }

  const BUILTIN_VALUES := map[
    "model" := Text("qwen3.7-max"),
    "baseUrl" := Text("https://dashscope.aliyuncs.com/compatible-mode/v1"),
    "apiKeyEnv" := Text("DASHSCOPE_API_KEY"),
    "reasoningEffort" := Text("medium"),
    "transport" := Text("responses"),
    "budgets.turnsPerGoal" := Number(200),
    "budgets.modelCallsPerTurn" := Number(100),
    "budgets.toolCallsPerTurn" := Number(1_000),
    "budgets.wallTimeMsPerTurn" := Number(8 * 60 * 60 * 1_000),
    "budgets.activeChildAgents" := Number(4),
    "budgets.childDepth" := Number(2),
    "budgets.safeReadConcurrency" := Number(8),
    "budgets.retryAttempts" := Number(10),
    "toolOutput.modelPreviewBytes" := Number(64 * 1_024),
    "toolOutput.tuiInlineBytes" := Number(1_024 * 1_024),
    "toolOutput.backgroundWarnBytes" := Number(10 * 1_024 * 1_024),
    "toolOutput.backgroundHardStopBytes" := Number(5 * 1_024 * 1_024 * 1_024),
    "toolOutput.mcpInlineTokens" := Number(25_000),
    "toolOutput.mcpDurableChars" := Number(500_000),
    "telemetry" := Flag(false),
    "telemetryLevel" := Text("info"),
    "telemetryRetentionDays" := Number(7)
  ]

  const BUILTIN_DEFAULTS := ConfigDoc(Some(Ask), Some(WorkspaceWrite), Some(false), Some(Yolo), Some(Disabled), Some(true), [], BUILTIN_VALUES)

  const BUILTIN_SOURCE := Source("builtin", Builtin, BUILTIN_DEFAULTS, FromBuiltin)

  // Selectors: one key of a document.
  function ProfileOf(d: ConfigDoc): Option<Profile> { d.permissionProfile }
  function IsolationOf(d: ConfigDoc): Option<Isolation> { d.isolation }
  function NetworkOf(d: ConfigDoc): Option<bool> { d.network }
  function MaxProfileOf(d: ConfigDoc): Option<Profile> { d.maxProfile }
  function MaxIsolationOf(d: ConfigDoc): Option<Isolation> { d.maxIsolation }
  function NetworkAllowedOf(d: ConfigDoc): Option<bool> { d.networkAllowed }
  function ValueOf(key: string): ConfigDoc -> Option<Value> {
    (d: ConfigDoc) => if key in d.values then Some(d.values[key]) else None
  }

  // ----- override: the highest scope that sets a key ---------------------------------------------------------

  predicate Sets<T>(s: Source, select: ConfigDoc -> Option<T>) { s.scope != Managed && select(s.config).Some? }

  function Override<T>(sources: seq<Source>, select: ConfigDoc -> Option<T>): (r: Option<Resolved<T>>)
    ensures r.Some? ==> r.value.source.scope != Managed
  {
    if sources == [] then None
    else
      var best, s := Override(sources[..|sources| - 1], select), sources[|sources| - 1];
      if Sets(s, select) && (best.None? || OverrideRank(s.scope) >= OverrideRank(best.value.source.scope))
      then Some(Resolved(select(s.config).value, RefOf(s)))
      else best
  }

  method ResolveOverride<T>(sources: seq<Source>, select: ConfigDoc -> Option<T>) returns (best: Option<Resolved<T>>)
    ensures best == Override(sources, select)
  {
    best := None;
    for i := 0 to |sources|
      invariant best == Override(sources[..i], select)
    {
      assert sources[..i + 1][..i] == sources[..i];
      var s := sources[i];
      if s.scope == Managed { continue; }
      var value := select(s.config);
      if value.None? { continue; }
      if best.None? || OverrideRank(s.scope) >= OverrideRank(best.value.source.scope) {
        best := Some(Resolved(value.value, RefOf(s)));
      }
    }
    assert sources[..|sources|] == sources;
  }

  /** Source `i` owns the key: it sets it, nobody ranks higher, and nobody later ranks as high. */
  ghost predicate Owns<T>(sources: seq<Source>, select: ConfigDoc -> Option<T>, i: nat) {
    && i < |sources| && Sets(sources[i], select)
    && (forall j :: 0 <= j < |sources| && Sets(sources[j], select) ==> OverrideRank(sources[j].scope) <= OverrideRank(sources[i].scope))
    && (forall j :: i < j < |sources| && Sets(sources[j], select) ==> OverrideRank(sources[j].scope) < OverrideRank(sources[i].scope))
  }

  ghost predicate OwnedBy<T>(sources: seq<Source>, select: ConfigDoc -> Option<T>, r: Resolved<T>, i: nat) {
    Owns(sources, select, i) && select(sources[i].config) == Some(r.value) && r.source == RefOf(sources[i])
  }

  /** A value is reported exactly when some source but managed sets it; its owner's, under the owner's name. */
  lemma {:induction false} OverrideIsTheOwners<T>(sources: seq<Source>, select: ConfigDoc -> Option<T>)
    ensures Override(sources, select).None? <==> forall i :: 0 <= i < |sources| ==> !Sets(sources[i], select)
    ensures Override(sources, select).Some? ==> exists i: nat :: OwnedBy(sources, select, Override(sources, select).value, i)
    decreases |sources|
  {
    if sources != [] {
      var init, s := sources[..|sources| - 1], sources[|sources| - 1];
      OverrideIsTheOwners(init, select);
      assert sources == init + [s];
      var before := Override(init, select);
      if Sets(s, select) && (before.None? || OverrideRank(s.scope) >= OverrideRank(before.value.source.scope)) {
        if before.Some? {
          var i: nat :| OwnedBy(init, select, before.value, i);
          OwnerYields(init, s, select, i);
        }
        assert Owns(sources, select, |init|);
        assert OwnedBy(sources, select, Override(sources, select).value, |init|);
      } else if before.Some? {
        var i: nat :| OwnedBy(init, select, before.value, i);
        OwnerStays(init, s, select, i);
        assert OwnedBy(sources, select, before.value, i);
      }
    }
  }

  lemma OwnerStays<T>(init: seq<Source>, s: Source, select: ConfigDoc -> Option<T>, i: nat)
    requires Owns(init, select, i)
    requires !Sets(s, select) || OverrideRank(s.scope) < OverrideRank(init[i].scope)
    ensures Owns(init + [s], select, i)
  {
    var all := init + [s];
    forall j | 0 <= j < |all| && Sets(all[j], select) ensures OverrideRank(all[j].scope) <= OverrideRank(all[i].scope) {
      if j < |init| { assert all[j] == init[j]; }
    }
  }

  lemma OwnerYields<T>(init: seq<Source>, s: Source, select: ConfigDoc -> Option<T>, i: nat)
    requires Owns(init, select, i) && Sets(s, select) && OverrideRank(s.scope) >= OverrideRank(init[i].scope)
    ensures Owns(init + [s], select, |init|)
  {
    var all := init + [s];
    forall j | 0 <= j < |all| && Sets(all[j], select) ensures OverrideRank(all[j].scope) <= OverrideRank(s.scope) {
      if j < |init| { assert all[j] == init[j]; }
    }
  }

  // ----- ceilings: the tightest of every scope -------------------------------------------------------------------

  function Ceiling<T>(sources: seq<Source>, select: ConfigDoc -> Option<T>, rank: T -> nat): Option<Resolved<T>> {
    if sources == [] then None
    else
      var best, s := Ceiling(sources[..|sources| - 1], select, rank), sources[|sources| - 1];
      if select(s.config).Some? && (best.None? || rank(select(s.config).value) < rank(best.value.value))
      then Some(Resolved(select(s.config).value, RefOf(s)))
      else best
  }

  method ResolveCeiling<T>(sources: seq<Source>, select: ConfigDoc -> Option<T>, rank: T -> nat) returns (best: Option<Resolved<T>>)
    ensures best == Ceiling(sources, select, rank)
  {
    best := None;
    for i := 0 to |sources|
      invariant best == Ceiling(sources[..i], select, rank)
    {
      assert sources[..i + 1][..i] == sources[..i];
      var value := select(sources[i].config);
      if value.None? { continue; }
      if best.None? || rank(value.value) < rank(best.value.value) {
        best := Some(Resolved(value.value, RefOf(sources[i])));
      }
    }
    assert sources[..|sources|] == sources;
  }

  /** The ceiling is the tightest value any source sets, reported under the first source that set it. */
  lemma {:induction false} CeilingIsTheTightest<T>(sources: seq<Source>, select: ConfigDoc -> Option<T>, rank: T -> nat)
    ensures Ceiling(sources, select, rank).None? <==> forall i :: 0 <= i < |sources| ==> select(sources[i].config).None?
    ensures var r := Ceiling(sources, select, rank); r.Some? ==>
      && (forall i :: 0 <= i < |sources| && select(sources[i].config).Some? ==> rank(r.value.value) <= rank(select(sources[i].config).value))
      && (exists i :: Attains(sources, select, rank, r.value, i))
    decreases |sources|
  {
    if sources != [] {
      var init, s := sources[..|sources| - 1], sources[|sources| - 1];
      CeilingIsTheTightest(init, select, rank);
      assert sources == init + [s];
      var before, r := Ceiling(init, select, rank), Ceiling(sources, select, rank);
      if r.Some? && before.Some? && r.value == before.value {
        var i :| Attains(init, select, rank, before.value, i);
        assert Attains(sources, select, rank, r.value, i);
      } else if r.Some? {
        assert Attains(sources, select, rank, r.value, |init|);
      }
    }
  }

  ghost predicate Attains<T>(sources: seq<Source>, select: ConfigDoc -> Option<T>, rank: T -> nat, r: Resolved<T>, i: nat) {
    && i < |sources| && select(sources[i].config) == Some(r.value) && r.source == RefOf(sources[i])
    && forall j :: 0 <= j < i && select(sources[j].config).Some? ==> rank(select(sources[j].config).value) > rank(r.value)
  }

  // ----- denies: the union of every scope ---------------------------------------------------------------------------

  function DenyEntries(s: Source, entries: seq<string>): seq<Contribution> {
    seq(|entries|, i requires 0 <= i < |entries| => Contribution(entries[i], RefOf(s)))
  }

  function Contributions(sources: seq<Source>): seq<Contribution> {
    if sources == [] then []
    else Contributions(sources[..|sources| - 1]) + DenyEntries(sources[|sources| - 1], sources[|sources| - 1].config.deny)
  }

  ghost predicate Denied(sources: seq<Source>, entry: string) {
    exists i :: 0 <= i < |sources| && entry in sources[i].config.deny
  }

  predicate NoRepeats<T(==)>(s: seq<T>) { forall i, j :: 0 <= i < j < |s| ==> s[i] != s[j] }

  /** Position `k` is the first contribution of its entry. */
  predicate IsFirst(contributions: seq<Contribution>, k: nat)
    requires k < |contributions|
  {
    forall j :: 0 <= j < k ==> contributions[j].value != contributions[k].value
  }

  /** The contributed entries, each at its first contribution. */
  function Firsts(contributions: seq<Contribution>): seq<string> {
    if contributions == [] then []
    else
      var n := |contributions| - 1;
      Firsts(contributions[..n]) + if IsFirst(contributions, n) then [contributions[n].value] else []
  }

  ghost predicate Contributed(contributions: seq<Contribution>, e: string) {
    exists k :: 0 <= k < |contributions| && contributions[k].value == e
  }

  lemma ContributedGrows(contributions: seq<Contribution>, c: Contribution, e: string)
    ensures Contributed(contributions + [c], e) <==> Contributed(contributions, e) || c.value == e
  {
    var all := contributions + [c];
    if k :| 0 <= k < |contributions| && contributions[k].value == e { assert all[k].value == e; }
    if c.value == e { assert all[|contributions|].value == e; }
    if k :| 0 <= k < |all| && all[k].value == e {
      if k < |contributions| { assert contributions[k].value == e; }
    }
  }

  lemma FirstMeansNew(contributions: seq<Contribution>)
    requires contributions != []
    ensures var n := |contributions| - 1; IsFirst(contributions, n) <==> !Contributed(contributions[..n], contributions[n].value)
  {
  }

  /** Exactly the contributed entries, each once. */
  lemma {:induction false} FirstsAre(contributions: seq<Contribution>)
    ensures forall e :: e in Firsts(contributions) <==> Contributed(contributions, e)
    ensures NoRepeats(Firsts(contributions))
    decreases |contributions|
  {
    if contributions != [] {
      var n := |contributions| - 1;
      var init, c := contributions[..n], contributions[n];
      FirstsAre(init);
      FirstMeansNew(contributions);
      assert contributions == init + [c];
      forall e ensures e in Firsts(contributions) <==> Contributed(contributions, e) { ContributedGrows(init, c, e); }
      if IsFirst(contributions, n) { assert c.value !in Firsts(init); }
    }
  }

  /** One contribution more adds its entry exactly when nobody contributed it before. */
  lemma FirstsGrow(contributions: seq<Contribution>, c: Contribution)
    ensures Firsts(contributions + [c]) ==
      if c.value in Firsts(contributions) then Firsts(contributions) else Firsts(contributions) + [c.value]
  {
    assert (contributions + [c])[..|contributions|] == contributions;
    FirstsAre(contributions);
    FirstMeansNew(contributions + [c]);
  }

  /** The entry is contributed at `k` for the first time. */
  predicate FirstAt(contributions: seq<Contribution>, e: string, k: nat) {
    k < |contributions| && contributions[k].value == e && IsFirst(contributions, k)
  }

  lemma FirstStays(contributions: seq<Contribution>, n: nat, e: string, k: nat)
    requires n <= |contributions| && FirstAt(contributions[..n], e, k)
    ensures FirstAt(contributions, e, k)
  {
    forall j | 0 <= j < k ensures contributions[j].value != e { assert contributions[..n][j].value != e; }
  }

  /** The entries come in the order of their first contributions: these rise along the list. */
  lemma {:induction false} FirstsFollowContributions(contributions: seq<Contribution>) returns (at: seq<nat>)
    ensures |at| == |Firsts(contributions)| && forall i, j :: 0 <= i < j < |at| ==> at[i] < at[j]
    ensures forall i :: 0 <= i < |at| ==> FirstAt(contributions, Firsts(contributions)[i], at[i])
    decreases |contributions|
  {
    at := [];
    if contributions != [] {
      var n := |contributions| - 1;
      var before := FirstsFollowContributions(contributions[..n]);
      at := before + if IsFirst(contributions, n) then [n] else [];
      forall i | 0 <= i < |at| ensures FirstAt(contributions, Firsts(contributions)[i], at[i]) {
        if i < |before| { FirstStays(contributions, n, Firsts(contributions)[i], at[i]); }
      }
    }
  }

  /** Every source's denies, in order, are the contributions. */
  lemma {:induction false} ContributedIsDenied(sources: seq<Source>, e: string)
    ensures Contributed(Contributions(sources), e) <==> Denied(sources, e)
    decreases |sources|
  {
    if sources != [] {
      var init, s := sources[..|sources| - 1], sources[|sources| - 1];
      ContributedIsDenied(init, e);
      assert sources == init + [s];
      DeniedGrows(init, s, e);
      EntriesAppended(Contributions(init), s, e);
    }
  }

  lemma EntriesAppended(before: seq<Contribution>, s: Source, e: string)
    ensures Contributed(before + DenyEntries(s, s.config.deny), e) <==> Contributed(before, e) || e in s.config.deny
  {
    var own := DenyEntries(s, s.config.deny);
    var all := before + own;
    if k :| 0 <= k < |before| && before[k].value == e { assert all[k].value == e; }
    if e in s.config.deny {
      var k :| 0 <= k < |s.config.deny| && s.config.deny[k] == e;
      assert all[|before| + k].value == e;
    }
    if k :| 0 <= k < |all| && all[k].value == e {
      if k < |before| { assert before[k].value == e; } else { assert all[k] == own[k - |before|]; }
    }
  }

  /** The denies in the order of their first contributions: exactly what some source denies, each once. */
  lemma FirstsAreDenied(sources: seq<Source>)
    ensures NoRepeats(Firsts(Contributions(sources)))
    ensures forall e :: e in Firsts(Contributions(sources)) <==> Denied(sources, e)
  {
    FirstsAre(Contributions(sources));
    forall e ensures e in Firsts(Contributions(sources)) <==> Denied(sources, e) { ContributedIsDenied(sources, e); }
  }

  /** Exactly what some source denies, each once and in the order of first contributions, with every contribution recorded in order. */
  method ResolveDeny(sources: seq<Source>) returns (r: ResolvedDeny)
    ensures forall e :: e in r.value <==> Denied(sources, e)
    ensures NoRepeats(r.value)
    ensures r.contributions == Contributions(sources) && r.value == Firsts(r.contributions)
  {
    var value: seq<string>, contributions, seen := [], [], {};
    for i := 0 to |sources|
      invariant contributions == Contributions(sources[..i]) && value == Firsts(contributions)
      invariant forall e :: e in seen <==> e in value
    {
      assert sources[..i + 1][..i] == sources[..i];
      contributions, value, seen := AddDenies(sources[i], contributions, value, seen);
    }
    assert sources[..|sources|] == sources;
    FirstsAreDenied(sources);
    r := ResolvedDeny(value, contributions);
  }

  /** The inner loop: one source's denies. */
  method AddDenies(s: Source, contributions0: seq<Contribution>, value0: seq<string>, seen0: set<string>)
    returns (contributions: seq<Contribution>, value: seq<string>, seen: set<string>)
    requires value0 == Firsts(contributions0) && forall e :: e in seen0 <==> e in value0
    ensures contributions == contributions0 + DenyEntries(s, s.config.deny) && value == Firsts(contributions)
    ensures forall e :: e in seen <==> e in value
  {
    contributions, value, seen := contributions0, value0, seen0;
    assert contributions0 + DenyEntries(s, []) == contributions0;
    for k := 0 to |s.config.deny|
      invariant contributions == contributions0 + DenyEntries(s, s.config.deny[..k]) && value == Firsts(contributions)
      invariant forall e :: e in seen <==> e in value
    {
      var entry := s.config.deny[k];
      FirstsGrow(contributions, Contribution(entry, RefOf(s)));
      OneMoreEntry(s, contributions0, k);
      contributions := contributions + [Contribution(entry, RefOf(s))];
      if entry !in seen { seen, value := seen + {entry}, value + [entry]; }
    }
    assert s.config.deny[..|s.config.deny|] == s.config.deny;
  }

  lemma OneMoreEntry(s: Source, before: seq<Contribution>, k: nat)
    requires k < |s.config.deny|
    ensures before + DenyEntries(s, s.config.deny[..k + 1]) ==
      (before + DenyEntries(s, s.config.deny[..k])) + [Contribution(s.config.deny[k], RefOf(s))]
  {
  }

  lemma DeniedGrows(sources: seq<Source>, s: Source, e: string)
    ensures Denied(sources + [s], e) <==> Denied(sources, e) || e in s.config.deny
  {
    var all := sources + [s];
    if Denied(sources, e) {
      var i :| 0 <= i < |sources| && e in sources[i].config.deny;
      assert e in all[i].config.deny;
    }
    if e in s.config.deny { assert e in all[|sources|].config.deny; }
  }

  // ----- the effective configuration -----------------------------------------------------------------------------------

  function Clamp<T>(desired: Resolved<T>, ceiling: Resolved<T>, rank: T -> nat): Resolved<T> {
    if rank(ceiling.value) < rank(desired.value) then ceiling else desired
  }

  function ClampNetwork(desired: Resolved<bool>, allowed: Resolved<bool>): Resolved<bool> {
    if desired.value && !allowed.value then Resolved(false, allowed.source)
    else Resolved(desired.value && allowed.value, desired.source)
  }

  function All(sources: seq<Source>): seq<Source> { [BUILTIN_SOURCE] + sources }

  datatype Authority = Authority(permissionProfile: Resolved<Profile>, isolation: Resolved<Isolation>, network: Resolved<bool>,
                                 maxProfile: Resolved<Profile>, maxIsolation: Resolved<Isolation>, networkAllowed: Resolved<bool>)

  /** The built-in layer sets every key, so nothing is ever unset. */
  lemma BuiltinSets<T>(sources: seq<Source>, select: ConfigDoc -> Option<T>, rank: T -> nat)
    requires select(BUILTIN_DEFAULTS).Some?
    ensures Override(All(sources), select).Some? && Ceiling(All(sources), select, rank).Some?
  {
    OverrideIsTheOwners(All(sources), select);
    CeilingIsTheTightest(All(sources), select, rank);
    assert Sets(All(sources)[0], select);
  }

  lemma BuiltinSetsAuthority(sources: seq<Source>)
    ensures Override(All(sources), ProfileOf).Some? && Override(All(sources), IsolationOf).Some? && Override(All(sources), NetworkOf).Some?
    ensures Ceiling(All(sources), MaxProfileOf, ProfileRank).Some? && Ceiling(All(sources), MaxIsolationOf, IsolationRank).Some?
    ensures Ceiling(All(sources), NetworkAllowedOf, BoolRank).Some?
  {
    BuiltinSets(sources, ProfileOf, ProfileRank);
    BuiltinSets(sources, IsolationOf, IsolationRank);
    BuiltinSets(sources, NetworkOf, BoolRank);
    BuiltinSets(sources, MaxProfileOf, ProfileRank);
    BuiltinSets(sources, MaxIsolationOf, IsolationRank);
    BuiltinSets(sources, NetworkAllowedOf, BoolRank);
  }

  function Effective(sources: seq<Source>): Authority {
    BuiltinSetsAuthority(sources);
    var all := All(sources);
    var maxProfile := Ceiling(all, MaxProfileOf, ProfileRank).value;
    var maxIsolation := Ceiling(all, MaxIsolationOf, IsolationRank).value;
    var networkAllowed := Ceiling(all, NetworkAllowedOf, BoolRank).value;
    Authority(Clamp(Override(all, ProfileOf).value, maxProfile, ProfileRank),
              Clamp(Override(all, IsolationOf).value, maxIsolation, IsolationRank),
              ClampNetwork(Override(all, NetworkOf).value, networkAllowed),
              maxProfile, maxIsolation, networkAllowed)
  }

  lemma BuiltinSetsValues(sources: seq<Source>, key: string)
    requires key in BUILTIN_VALUES
    ensures Override(All(sources), ValueOf(key)).Some?
  {
    OverrideIsTheOwners(All(sources), ValueOf(key));
    assert Sets(All(sources)[0], ValueOf(key));
  }

  /** Every key without a security meaning, at its owner's value. */
  method ResolveValues(sources: seq<Source>) returns (values: map<string, Resolved<Value>>)
    ensures values.Keys == BUILTIN_VALUES.Keys
    ensures forall key :: key in BUILTIN_VALUES ==> Override(All(sources), ValueOf(key)) == Some(values[key])
  {
    values := map[];
    var left := BUILTIN_VALUES.Keys;
    while left != {}
      invariant left <= BUILTIN_VALUES.Keys && values.Keys == BUILTIN_VALUES.Keys - left
      invariant forall key :: key in values ==> Override(All(sources), ValueOf(key)) == Some(values[key])
      decreases |left|
    {
      var key := Pick(left);
      BuiltinSetsValues(sources, key);
      var value := ResolveOverride(All(sources), ValueOf(key));
      values, left := values[key := value.value], left - {key};
    }
  }

  method ResolveConfig(sources: seq<Source>) returns (authority: Authority, deny: ResolvedDeny, values: map<string, Resolved<Value>>)
    ensures authority == Effective(sources)
    ensures (forall e :: e in deny.value <==> Denied(All(sources), e)) && NoRepeats(deny.value)
    ensures deny.contributions == Contributions(All(sources)) && deny.value == Firsts(deny.contributions)
    ensures values.Keys == BUILTIN_VALUES.Keys
    ensures forall key :: key in BUILTIN_VALUES ==> Override(All(sources), ValueOf(key)) == Some(values[key])
  {
    var all := [BUILTIN_SOURCE] + sources;
    BuiltinSetsAuthority(sources);
    var maxProfile := ResolveCeiling(all, MaxProfileOf, ProfileRank);
    var maxIsolation := ResolveCeiling(all, MaxIsolationOf, IsolationRank);
    var networkAllowed := ResolveCeiling(all, NetworkAllowedOf, BoolRank);
    var profile := ResolveOverride(all, ProfileOf);
    var isolation := ResolveOverride(all, IsolationOf);
    var network := ResolveOverride(all, NetworkOf);
    authority := Authority(Clamp(profile.value, maxProfile.value, ProfileRank),
                           Clamp(isolation.value, maxIsolation.value, IsolationRank),
                           ClampNetwork(network.value, networkAllowed.value),
                           maxProfile.value, maxIsolation.value, networkAllowed.value);
    deny := ResolveDeny(all);
    values := ResolveValues(sources);
  }

  // ----- what the merge guarantees -------------------------------------------------------------------------------------

  /** Effective authority is within every ceiling any source sets, and is what was asked for unless a ceiling is tighter. */
  lemma AuthorityIsWithinEveryCeiling(sources: seq<Source>, s: Source)
    requires s in All(sources)
    ensures var a := Effective(sources);
      && (s.config.maxProfile.Some? ==> ProfileRank(a.permissionProfile.value) <= ProfileRank(s.config.maxProfile.value))
      && (s.config.maxIsolation.Some? ==> IsolationRank(a.isolation.value) <= IsolationRank(s.config.maxIsolation.value))
      && (s.config.networkAllowed == Some(false) ==> !a.network.value)
    ensures var a, all := Effective(sources), All(sources);
      && Override(all, ProfileOf).Some? && Override(all, IsolationOf).Some? && Override(all, NetworkOf).Some?
      && ProfileRank(a.permissionProfile.value) == Min(ProfileRank(Override(all, ProfileOf).value.value), ProfileRank(a.maxProfile.value))
      && IsolationRank(a.isolation.value) == Min(IsolationRank(Override(all, IsolationOf).value.value), IsolationRank(a.maxIsolation.value))
      && a.network.value == (Override(all, NetworkOf).value.value && a.networkAllowed.value)
  {
    BuiltinSetsAuthority(sources);
    CeilingBounds(All(sources), s, MaxProfileOf, ProfileRank);
    CeilingBounds(All(sources), s, MaxIsolationOf, IsolationRank);
    CeilingBounds(All(sources), s, NetworkAllowedOf, BoolRank);
  }

  lemma CeilingBounds<T>(sources: seq<Source>, s: Source, select: ConfigDoc -> Option<T>, rank: T -> nat)
    requires s in sources
    ensures select(s.config).Some? ==>
      && Ceiling(sources, select, rank).Some?
      && rank(Ceiling(sources, select, rank).value.value) <= rank(select(s.config).value)
  {
    CeilingIsTheTightest(sources, select, rank);
    var i :| 0 <= i < |sources| && sources[i] == s;
  }

  /** One more source, wherever it goes in the list, can only tighten a ceiling. */
  lemma AddingNeverWidensACeiling<T>(before: seq<Source>, s: Source, after: seq<Source>, select: ConfigDoc -> Option<T>, rank: T -> nat)
    requires Ceiling(before + after, select, rank).Some?
    ensures Ceiling(before + [s] + after, select, rank).Some?
    ensures rank(Ceiling(before + [s] + after, select, rank).value.value) <= rank(Ceiling(before + after, select, rank).value.value)
  {
    var fewer, more := before + after, before + [s] + after;
    CeilingIsTheTightest(fewer, select, rank);
    CeilingIsTheTightest(more, select, rank);
    var i: nat :| Attains(fewer, select, rank, Ceiling(fewer, select, rank).value, i);
    assert more[if i < |before| then i else i + 1] == fewer[i];
  }

  /** One more source never removes a deny, and adds exactly its own. */
  lemma AddingNeverRemovesADeny(before: seq<Source>, s: Source, after: seq<Source>, entry: string)
    ensures Denied(before + [s] + after, entry) <==> Denied(before + after, entry) || entry in s.config.deny
  {
    var fewer, more := before + after, before + [s] + after;
    if Denied(fewer, entry) {
      var i :| 0 <= i < |fewer| && entry in fewer[i].config.deny;
      assert more[if i < |before| then i else i + 1] == fewer[i];
    }
    if Denied(more, entry) && entry !in s.config.deny {
      var i :| 0 <= i < |more| && entry in more[i].config.deny;
      assert i != |before|;
      assert more[i] == fewer[if i < |before| then i else i - 1];
    }
    if entry in s.config.deny { assert more[|before|] == s; }
  }

  function Unmanaged(sources: seq<Source>): seq<Source> {
    if sources == [] then []
    else Unmanaged(sources[..|sources| - 1]) + (if sources[|sources| - 1].scope == Managed then [] else [sources[|sources| - 1]])
  }

  /** Managed policy never sets a value: without its sources every key resolves to the same value and source. */
  lemma {:induction false} ManagedNeverSetsAValue<T>(sources: seq<Source>, select: ConfigDoc -> Option<T>)
    ensures Override(Unmanaged(sources), select) == Override(sources, select)
    decreases |sources|
  {
    if sources != [] {
      var init, s := sources[..|sources| - 1], sources[|sources| - 1];
      ManagedNeverSetsAValue(init, select);
      var kept := Unmanaged(sources);
      if s.scope != Managed {
        assert kept[..|kept| - 1] == Unmanaged(init);
      } else {
        assert kept == Unmanaged(init);
      }
    }
  }

  /** Two lists of the same sources, with at most one source per scope. */
  ghost predicate Reordered(a: seq<Source>, b: seq<Source>) {
    && (forall s :: s in a <==> s in b)
    && (forall s, t :: s in a && t in a && s.scope == t.scope ==> s == t)
  }

  /** The owner as a member of the list, wherever it stands. */
  lemma OwnerOf<T>(sources: seq<Source>, select: ConfigDoc -> Option<T>) returns (s: Source)
    requires exists t :: t in sources && Sets(t, select)
    ensures s in sources && Sets(s, select)
    ensures Override(sources, select) == Some(Resolved(select(s.config).value, RefOf(s)))
    ensures forall t :: t in sources && Sets(t, select) ==> OverrideRank(t.scope) <= OverrideRank(s.scope)
  {
    OverrideIsTheOwners(sources, select);
    var i: nat :| OwnedBy(sources, select, Override(sources, select).value, i);
    s := sources[i];
  }

  /** With one source per scope the order of the list does not matter, to the value or to who is credited. */
  lemma OverrideIgnoresOrder<T>(a: seq<Source>, b: seq<Source>, select: ConfigDoc -> Option<T>)
    requires Reordered(a, b)
    ensures Override(a, select) == Override(b, select)
  {
    if exists t :: t in a && Sets(t, select) {
      var s := OwnerOf(a, select);
      var t := OwnerOf(b, select);
      assert OverrideRank(s.scope) == OverrideRank(t.scope);
    } else {
      OverrideIsTheOwners(a, select);
      OverrideIsTheOwners(b, select);
    }
  }

  lemma TightestOf<T>(sources: seq<Source>, select: ConfigDoc -> Option<T>, rank: T -> nat) returns (s: Source)
    requires exists t :: t in sources && select(t.config).Some?
    ensures s in sources && select(s.config).Some?
    ensures Ceiling(sources, select, rank) == Some(Resolved(select(s.config).value, RefOf(s)))
    ensures forall t :: t in sources && select(t.config).Some? ==> rank(select(s.config).value) <= rank(select(t.config).value)
  {
    CeilingIsTheTightest(sources, select, rank);
    var i: nat :| Attains(sources, select, rank, Ceiling(sources, select, rank).value, i);
    s := sources[i];
  }

  ghost predicate Injective<T(!new)>(rank: T -> nat) { forall x, y :: rank(x) == rank(y) ==> x == y }

  /** A ceiling's value never depends on the order, whatever the scopes (who is credited for a tie does). */
  lemma CeilingIgnoresOrder<T(!new)>(a: seq<Source>, b: seq<Source>, select: ConfigDoc -> Option<T>, rank: T -> nat)
    requires (forall s :: s in a <==> s in b) && Injective(rank)
    ensures Ceiling(a, select, rank).Some? == Ceiling(b, select, rank).Some?
    ensures Ceiling(a, select, rank).Some? ==> Ceiling(a, select, rank).value.value == Ceiling(b, select, rank).value.value
  {
    if exists t :: t in a && select(t.config).Some? {
      var s := TightestOf(a, select, rank);
      var t := TightestOf(b, select, rank);
      assert rank(select(s.config).value) == rank(select(t.config).value);
    } else {
      CeilingIsTheTightest(a, select, rank);
      CeilingIsTheTightest(b, select, rank);
    }
  }

  lemma {:induction false} UnmanagedAll(sources: seq<Source>)
    ensures All(Unmanaged(sources)) == Unmanaged(All(sources))
    ensures forall s :: s in Unmanaged(sources) ==> s in sources
    decreases |sources|
  {
    if sources == [] {
      assert All([])[..0] == [] && Unmanaged([]) == [];
    } else {
      UnmanagedAll(sources[..|sources| - 1]);
      assert All(sources)[..|sources|] == All(sources[..|sources| - 1]);
    }
  }

  lemma FewerSourcesAreLooser<T>(fewer: seq<Source>, more: seq<Source>, select: ConfigDoc -> Option<T>, rank: T -> nat)
    requires (forall s :: s in fewer ==> s in more) && Ceiling(fewer, select, rank).Some?
    ensures Ceiling(more, select, rank).Some?
    ensures rank(Ceiling(more, select, rank).value.value) <= rank(Ceiling(fewer, select, rank).value.value)
  {
    CeilingIsTheTightest(fewer, select, rank);
    var i: nat :| Attains(fewer, select, rank, Ceiling(fewer, select, rank).value, i);
    assert fewer[i] in more;
    var s := TightestOf(more, select, rank);
  }

  /** Adding managed policy can only take authority away. */
  lemma ManagedOnlyTightens(sources: seq<Source>)
    ensures var with, without := Effective(sources), Effective(Unmanaged(sources));
      && ProfileRank(with.permissionProfile.value) <= ProfileRank(without.permissionProfile.value)
      && IsolationRank(with.isolation.value) <= IsolationRank(without.isolation.value)
      && (with.network.value ==> without.network.value)
  {
    var all, fewer := All(sources), All(Unmanaged(sources));
    UnmanagedAll(sources);
    BuiltinSetsAuthority(sources);
    BuiltinSetsAuthority(Unmanaged(sources));
    ManagedNeverSetsAValue(all, ProfileOf);
    ManagedNeverSetsAValue(all, IsolationOf);
    ManagedNeverSetsAValue(all, NetworkOf);
    FewerSourcesAreLooser(fewer, all, MaxProfileOf, ProfileRank);
    FewerSourcesAreLooser(fewer, all, MaxIsolationOf, IsolationRank);
    FewerSourcesAreLooser(fewer, all, NetworkAllowedOf, BoolRank);
  }

  predicate SameValues(a: Authority, b: Authority) {
    && a.permissionProfile.value == b.permissionProfile.value && a.isolation.value == b.isolation.value
    && a.network.value == b.network.value && a.maxProfile.value == b.maxProfile.value
    && a.maxIsolation.value == b.maxIsolation.value && a.networkAllowed.value == b.networkAllowed.value
  }

  /** Sources with distinct scopes give the same authority and the same denies in any order. */
  lemma AuthorityIgnoresOrder(a: seq<Source>, b: seq<Source>)
    requires Reordered(a, b) && forall s :: s in a ==> s.scope != Builtin
    ensures SameValues(Effective(a), Effective(b))
    ensures forall e :: Denied(All(a), e) <==> Denied(All(b), e)
  {
    ReorderedWithBuiltin(a, b);
    CeilingsIgnoreOrder(All(a), All(b));
    OverridesIgnoreOrder(All(a), All(b));
    BuiltinSetsAuthority(a);
    BuiltinSetsAuthority(b);
    DenyIgnoresOrder(All(a), All(b));
  }

  lemma ReorderedWithBuiltin(a: seq<Source>, b: seq<Source>)
    requires Reordered(a, b) && forall s :: s in a ==> s.scope != Builtin
    ensures Reordered(All(a), All(b))
  {
  }

  predicate SameValue<T(==)>(a: Option<Resolved<T>>, b: Option<Resolved<T>>) {
    a.Some? && b.Some? ==> a.value.value == b.value.value
  }

  lemma CeilingsIgnoreOrder(a: seq<Source>, b: seq<Source>)
    requires forall s :: s in a <==> s in b
    ensures SameValue(Ceiling(a, MaxProfileOf, ProfileRank), Ceiling(b, MaxProfileOf, ProfileRank))
    ensures SameValue(Ceiling(a, MaxIsolationOf, IsolationRank), Ceiling(b, MaxIsolationOf, IsolationRank))
    ensures SameValue(Ceiling(a, NetworkAllowedOf, BoolRank), Ceiling(b, NetworkAllowedOf, BoolRank))
  {
    CeilingIgnoresOrder(a, b, MaxProfileOf, ProfileRank);
    CeilingIgnoresOrder(a, b, MaxIsolationOf, IsolationRank);
    CeilingIgnoresOrder(a, b, NetworkAllowedOf, BoolRank);
  }

  lemma OverridesIgnoreOrder(a: seq<Source>, b: seq<Source>)
    requires Reordered(a, b)
    ensures Override(a, ProfileOf) == Override(b, ProfileOf)
    ensures Override(a, IsolationOf) == Override(b, IsolationOf)
    ensures Override(a, NetworkOf) == Override(b, NetworkOf)
  {
    OverrideIgnoresOrder(a, b, ProfileOf);
    OverrideIgnoresOrder(a, b, IsolationOf);
    OverrideIgnoresOrder(a, b, NetworkOf);
  }

  lemma DenyIgnoresOrder(a: seq<Source>, b: seq<Source>)
    requires forall s :: s in a <==> s in b
    ensures forall e :: Denied(a, e) <==> Denied(b, e)
  {
    forall e ensures Denied(a, e) <==> Denied(b, e) {
      DeniedByMember(a, e);
      DeniedByMember(b, e);
    }
  }

  lemma DeniedByMember(sources: seq<Source>, e: string)
    ensures Denied(sources, e) <==> exists s :: s in sources && e in s.config.deny
  {
  }

  /** Some source with this reference really sets the key to this value. */
  ghost predicate SetBy<T>(sources: seq<Source>, select: ConfigDoc -> Option<T>, r: Resolved<T>) {
    exists s :: s in sources && RefOf(s) == r.source && select(s.config) == Some(r.value)
  }

  /** Value and credit are the tightest ceiling's when that is tighter than what the key's owner asks for, and else the owner's. */
  ghost predicate CreditedTo<T>(sources: seq<Source>, wants: ConfigDoc -> Option<T>, limits: ConfigDoc -> Option<T>, rank: T -> nat, r: Resolved<T>) {
    exists i: nat, k: nat ::
      && Owns(sources, wants, i)
      && k < |sources| && limits(sources[k].config).Some?
      && Attains(sources, limits, rank, Resolved(limits(sources[k].config).value, RefOf(sources[k])), k)
      && (forall j :: 0 <= j < |sources| && limits(sources[j].config).Some?
            ==> rank(limits(sources[k].config).value) <= rank(limits(sources[j].config).value))
      && var (wanted, limit) := (wants(sources[i].config).value, limits(sources[k].config).value);
         r == if rank(limit) < rank(wanted) then Resolved(limit, RefOf(sources[k])) else Resolved(wanted, RefOf(sources[i]))
  }

  lemma ClampCredits<T>(sources: seq<Source>, wants: ConfigDoc -> Option<T>, limits: ConfigDoc -> Option<T>, rank: T -> nat)
    requires Override(sources, wants).Some? && Ceiling(sources, limits, rank).Some?
    ensures CreditedTo(sources, wants, limits, rank, Clamp(Override(sources, wants).value, Ceiling(sources, limits, rank).value, rank))
  {
    OverrideIsTheOwners(sources, wants);
    CeilingIsTheTightest(sources, limits, rank);
    var i: nat :| OwnedBy(sources, wants, Override(sources, wants).value, i);
    var k :| Attains(sources, limits, rank, Ceiling(sources, limits, rank).value, k);
  }

  /**
   Whose name an authority value is reported under: the first source of the tightest ceiling, if and only if that
   ceiling is tighter than what was asked for; and otherwise the owner of the key, who asked for it.
   */
  lemma ProvenanceIsReal(sources: seq<Source>)
    ensures var a, all := Effective(sources), All(sources);
      && CreditedTo(all, ProfileOf, MaxProfileOf, ProfileRank, a.permissionProfile)
      && CreditedTo(all, IsolationOf, MaxIsolationOf, IsolationRank, a.isolation)
      && CreditedTo(all, NetworkOf, NetworkAllowedOf, BoolRank, a.network)
      && SetBy(all, MaxProfileOf, a.maxProfile) && SetBy(all, MaxIsolationOf, a.maxIsolation)
      && SetBy(all, NetworkAllowedOf, a.networkAllowed)
  {
    var all := All(sources);
    BuiltinSetsAuthority(sources);
    ClampCredits(all, ProfileOf, MaxProfileOf, ProfileRank);
    ClampCredits(all, IsolationOf, MaxIsolationOf, IsolationRank);
    ClampCredits(all, NetworkOf, NetworkAllowedOf, BoolRank);
    NetworkClampsAlike(Override(all, NetworkOf).value, Ceiling(all, NetworkAllowedOf, BoolRank).value);
    CeilingIsReal(all, MaxProfileOf, ProfileRank);
    CeilingIsReal(all, MaxIsolationOf, IsolationRank);
    CeilingIsReal(all, NetworkAllowedOf, BoolRank);
  }

  lemma NetworkClampsAlike(desired: Resolved<bool>, allowed: Resolved<bool>)
    ensures ClampNetwork(desired, allowed) == Clamp(desired, allowed, BoolRank)
  {
  }

  lemma CeilingIsReal<T>(sources: seq<Source>, select: ConfigDoc -> Option<T>, rank: T -> nat)
    requires Ceiling(sources, select, rank).Some?
    ensures SetBy(sources, select, Ceiling(sources, select, rank).value)
  {
    CeilingIsTheTightest(sources, select, rank);
    var i: nat :| Attains(sources, select, rank, Ceiling(sources, select, rank).value, i);
    assert sources[i] in sources;
  }

  /** Nobody in the list that sets the key outranks this scope. */
  ghost predicate NoneAbove<T>(sources: seq<Source>, select: ConfigDoc -> Option<T>, scope: Scope)
    requires scope != Managed
  {
    forall s :: s in sources && Sets(s, select) ==> OverrideRank(s.scope) <= OverrideRank(scope)
  }

  /** Remark: of two sources of one scope that nobody outranks the later one decides, so their order shows. */
  lemma SameScopeFollowsOrder<T>(sources: seq<Source>, first: Source, second: Source, select: ConfigDoc -> Option<T>)
    requires Sets(first, select) && Sets(second, select) && first.scope == second.scope
    requires NoneAbove(sources, select, first.scope)
    ensures Override(sources + [first, second], select) == Some(Resolved(select(second.config).value, RefOf(second)))
    ensures Override(sources + [second, first], select) == Some(Resolved(select(first.config).value, RefOf(first)))
  {
    LastOfRankWins(sources + [first], second, select);
    LastOfRankWins(sources + [second], first, select);
    assert sources + [first] + [second] == sources + [first, second];
    assert sources + [second] + [first] == sources + [second, first];
  }

  lemma LastOfRankWins<T>(sources: seq<Source>, s: Source, select: ConfigDoc -> Option<T>)
    requires Sets(s, select) && NoneAbove(sources, select, s.scope)
    ensures Override(sources + [s], select) == Some(Resolved(select(s.config).value, RefOf(s)))
  {
    assert (sources + [s])[..|sources|] == sources;
    OverrideIsTheOwners(sources, select);
    if Override(sources, select).Some? {
      var i: nat :| OwnedBy(sources, select, Override(sources, select).value, i);
      assert sources[i] in sources;
    }
  }
}
