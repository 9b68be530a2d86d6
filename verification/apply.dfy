/**
 * Folding an improvement suggestion into the configuration: new instructions,
 * tool additions under a budget, gated removals, new knowledge sources with a
 * forced refresh each, a forced refresh of named sources, and save-and-rebuild
 * exactly when something changed. The refreshes and the save are returned as an
 * ordered log of effects instead of being performed.
 */
module Apply {
  import opened Basics
  import opened Lists
  import opened Text
  import opened Paths
  import opened Config
  import opened Improvement
  import opened Catalog
  import opened Refresh
  import opened Runtime

  // ---------------------------------------------------------------------------
  // Tool additions
  // ---------------------------------------------------------------------------

  /** The plan's slugs that are not in `seen` and not earlier in the plan, in plan order. */
  function Fresh(seen: seq<string>, slugs: seq<string>): (r: seq<string>)
    ensures forall x :: x in r <==> x in slugs && x !in seen
    ensures NoDuplicates(r)
    decreases |slugs|
  {
    if |slugs| == 0 then []
    else if slugs[0] in seen then Fresh(seen, slugs[1..])
    else
      var rest := Fresh(seen + [slugs[0]], slugs[1..]);
      var r := [slugs[0]] + rest;
      assert forall j :: 1 <= j < |r| ==> r[j] == rest[j - 1] && r[j] in rest;
      r
  }

  /**
   * The addition loop: a slug is appended when it is not in the list yet and
   * fewer than the allowed number of additions have been made; `budget` is the
   * number still allowed.
   */
  function AddTools(enabled: seq<string>, slugs: seq<string>, budget: int): (r: seq<string>)
    ensures |enabled| <= |r| && r[..|enabled|] == enabled
    decreases |slugs|
  {
    if |slugs| == 0 then enabled
    else if slugs[0] !in enabled && 0 < budget then AddTools(enabled + [slugs[0]], slugs[1..], budget - 1)
    else AddTools(enabled, slugs[1..], budget)
  }

  /** One step of the addition loop when the head slug is skipped. */
  lemma {:induction false} AddToolsSkip(enabled: seq<string>, slugs: seq<string>, budget: int)
    requires |slugs| > 0 && (slugs[0] in enabled || budget <= 0)
    ensures AddTools(enabled, slugs, budget) == enabled + Take(Fresh(enabled, slugs), budget)
    decreases |slugs|, 0
  {
    AddToolsAppendsFresh(enabled, slugs[1..], budget);
  }

  /** One step of the addition loop when the head slug is appended. */
  lemma {:induction false} AddToolsAppend(enabled: seq<string>, slugs: seq<string>, budget: int)
    requires |slugs| > 0 && slugs[0] !in enabled && 0 < budget
    ensures AddTools(enabled, slugs, budget) == enabled + Take(Fresh(enabled, slugs), budget)
    decreases |slugs|, 0
  {
    var h := slugs[0];
    AddToolsAppendsFresh(enabled + [h], slugs[1..], budget - 1);
    var f := Fresh(enabled + [h], slugs[1..]);
    FreshCons(enabled, slugs);
    TakeCons(h, f, budget);
    var a := AddTools(enabled, slugs, budget);
    assert a == AddTools(enabled + [h], slugs[1..], budget - 1);
    Regroup(a, enabled, h, Take(f, budget - 1), Take(Fresh(enabled, slugs), budget));
  }

  /** The head slug, when it is new, is the first fresh one. */
  lemma FreshCons(seen: seq<string>, slugs: seq<string>)
    requires |slugs| > 0 && slugs[0] !in seen
    ensures Fresh(seen, slugs) == [slugs[0]] + Fresh(seen + [slugs[0]], slugs[1..])
  {
  }

  /** The loop appends the first `budget` fresh slugs of the plan, in plan order, and nothing else. */
  lemma {:induction false} AddToolsAppendsFresh(enabled: seq<string>, slugs: seq<string>, budget: int)
    ensures AddTools(enabled, slugs, budget) == enabled + Take(Fresh(enabled, slugs), budget)
    decreases |slugs|, 1
  {
    if |slugs| == 0 {
      assert enabled + [] == enabled;
    } else if slugs[0] in enabled || budget <= 0 {
      AddToolsSkip(enabled, slugs, budget);
    } else {
      AddToolsAppend(enabled, slugs, budget);
    }
  }

  /** What the addition step promises: at most `budget` new slugs, each new to the list, none twice, from the plan. */
  lemma AdditionsBounded(enabled: seq<string>, slugs: seq<string>, budget: int)
    ensures var added := AddTools(enabled, slugs, budget)[|enabled|..];
      && |added| <= (if budget <= 0 then 0 else budget)
      && NoDuplicates(added)
      && (forall x :: x in added ==> x in slugs && x !in enabled)
  {
    AddToolsAppendsFresh(enabled, slugs, budget);
    var f := Fresh(enabled, slugs);
    var added := AddTools(enabled, slugs, budget)[|enabled|..];
    assert added == Take(f, budget);
    assert forall x :: x in added ==> x in f;
  }

  // ---------------------------------------------------------------------------
  // Tool removals
  // ---------------------------------------------------------------------------

  /** The removal loop: each planned slug removes its first occurrence, when there is one. */
  function RemoveTools(enabled: seq<string>, disable: seq<string>): (r: seq<string>)
    ensures multiset(r) == multiset(enabled) - multiset(disable)
    decreases |disable|
  {
    if |disable| == 0 then enabled
    else
      var x := disable[0];
      var next := if x in enabled then RemoveFirst(enabled, x) else enabled;
      RemoveStep(enabled, disable);
      RemoveTools(next, disable[1..])
  }

  /** One removal step takes one occurrence of the head slug out of the multiset, when there is one. */
  lemma RemoveStep(enabled: seq<string>, disable: seq<string>)
    requires |disable| > 0
    ensures var x := disable[0];
      var next := if x in enabled then RemoveFirst(enabled, x) else enabled;
      multiset(next) - multiset(disable[1..]) == multiset(enabled) - multiset(disable)
  {
    var x := disable[0];
    if x !in enabled {
      assert multiset(enabled)[x] == 0;
    }
    assert disable == [x] + disable[1..];
  }

  /** Removal shortens the list exactly when some planned slug is in it. */
  lemma {:induction false} RemoveToolsShrinks(enabled: seq<string>, disable: seq<string>)
    ensures |RemoveTools(enabled, disable)| <= |enabled|
    ensures |RemoveTools(enabled, disable)| < |enabled| <==> exists x :: x in disable && x in enabled
    decreases |disable|
  {
    if |disable| > 0 {
      var x := disable[0];
      var next := if x in enabled then RemoveFirst(enabled, x) else enabled;
      RemoveToolsShrinks(next, disable[1..]);
      if x !in enabled {
        assert forall y :: y in disable[1..] && y in enabled ==> y in disable;
        assert forall y :: y in disable && y in enabled ==> y in disable[1..] by {
          forall y | y in disable && y in enabled
            ensures y in disable[1..]
          {
            assert disable == [x] + disable[1..];
          }
        }
      }
    }
  }

  /** Removal leaves the slugs it is not asked to remove in their relative order. */
  lemma {:induction false} RemoveToolsKeepsOrder(enabled: seq<string>, disable: seq<string>, drop: set<string>)
    requires forall i :: 0 <= i < |disable| ==> disable[i] in drop
    ensures Without(RemoveTools(enabled, disable), drop) == Without(enabled, drop)
    decreases |disable|
  {
    if |disable| > 0 {
      var x := disable[0];
      var next := if x in enabled then RemoveFirst(enabled, x) else enabled;
      if x in enabled {
        RemoveFirstWithout(enabled, x, drop);
      }
      RemoveToolsKeepsOrder(next, disable[1..], drop);
    }
  }

  // ---------------------------------------------------------------------------
  // Knowledge source additions
  // ---------------------------------------------------------------------------

  /** One step of the log the apply step produces. */
  datatype Effect =
    | RefreshSources(names: seq<string>, calls: seq<IngestCall>)
    | SaveAndRebuild

  function Names(sources: seq<KnowledgeSource>): (r: seq<string>)
    ensures |r| == |sources| && forall i :: 0 <= i < |sources| ==> r[i] == sources[i].name
  {
    seq(|sources|, i requires 0 <= i < |sources| => sources[i].name)
  }

  /** The configuration entry built from a plan: its own fields, no include or exclude patterns. */
  function ToSource(p: SourcePlan): (s: KnowledgeSource)
    ensures s.name == p.name && s.url == p.url && s.path == p.path
    ensures s.description == p.description && s.metadata == p.metadata
    ensures s.includes == [] && s.excludes == []
  {
    KnowledgeSource(p.name, p.description, p.url, p.path, p.metadata, [], [])
  }

  /** The forced refresh of one newly added source, as issued right after it is appended. */
  function AddedRefresh(s: KnowledgeSource, hasKnowledge: bool, configPath: Path): Effect
  {
    RefreshSources([s.name], if hasKnowledge then SourceCalls(s, true, configPath) else [])
  }

  /**
   * The source loop: a plan is appended when no source has its name yet and it
   * has a url or a path; each append is followed by a forced refresh of that
   * name alone.
   */
  function AddSources(sources: seq<KnowledgeSource>, plans: seq<SourcePlan>, hasKnowledge: bool, configPath: Path)
    : (r: (seq<KnowledgeSource>, seq<Effect>))
    ensures |sources| <= |r.0| && r.0[..|sources|] == sources
    decreases |plans|
  {
    if |plans| == 0 then (sources, [])
    else
      var p := plans[0];
      if p.name in Names(sources) || !(Truthy(p.url) || Truthy(p.path)) then
        AddSources(sources, plans[1..], hasKnowledge, configPath)
      else
        var s := ToSource(p);
        var grown := sources + [s];
        var e := RefreshSources([p.name], RefreshCalls(grown, Some([p.name]), true, hasKnowledge, configPath));
        var rest := AddSources(grown, plans[1..], hasKnowledge, configPath);
        assert rest.0[..|grown|][..|sources|] == rest.0[..|sources|];
        (rest.0, [e] + rest.1)
  }

  /** One effect per appended source, in order: the forced refresh of that source alone. */
  predicate EffectsMatch(sources: seq<KnowledgeSource>, r: (seq<KnowledgeSource>, seq<Effect>), hasKnowledge: bool, configPath: Path)
  {
    && |sources| <= |r.0|
    && |r.1| == |r.0| - |sources|
    && forall k :: 0 <= k < |r.1| ==> r.1[k] == AddedRefresh(r.0[|sources| + k], hasKnowledge, configPath)
  }

  lemma {:induction false} AddSourcesEffects(sources: seq<KnowledgeSource>, plans: seq<SourcePlan>, hasKnowledge: bool, configPath: Path)
    ensures EffectsMatch(sources, AddSources(sources, plans, hasKnowledge, configPath), hasKnowledge, configPath)
    decreases |plans|, 1
  {
    if |plans| > 0 {
      var p := plans[0];
      if p.name in Names(sources) || !(Truthy(p.url) || Truthy(p.path)) {
        AddSourcesEffects(sources, plans[1..], hasKnowledge, configPath);
      } else {
        AddSourcesEffectsTaken(sources, plans, hasKnowledge, configPath);
      }
    }
  }

  /** The step of `AddSourcesEffects` where the head plan is appended. */
  lemma {:induction false} AddSourcesEffectsTaken(sources: seq<KnowledgeSource>, plans: seq<SourcePlan>, hasKnowledge: bool, configPath: Path)
    requires |plans| > 0
    requires plans[0].name !in Names(sources) && (Truthy(plans[0].url) || Truthy(plans[0].path))
    ensures EffectsMatch(sources, AddSources(sources, plans, hasKnowledge, configPath), hasKnowledge, configPath)
    decreases |plans|, 0
  {
    var p := plans[0];
    var s := ToSource(p);
    var grown := sources + [s];
    AddSourcesEffects(grown, plans[1..], hasKnowledge, configPath);
    AddedRefreshIssued(sources, p, hasKnowledge, configPath);
    var rest := AddSources(grown, plans[1..], hasKnowledge, configPath);
    EffectsCons(sources, s, rest.0, rest.1, hasKnowledge, configPath);
  }

  /** The refresh issued right after an append, by the new name alone, covers exactly the new source. */
  lemma AddedRefreshIssued(sources: seq<KnowledgeSource>, p: SourcePlan, hasKnowledge: bool, configPath: Path)
    requires p.name !in Names(sources)
    ensures RefreshSources([p.name], RefreshCalls(sources + [ToSource(p)], Some([p.name]), true, hasKnowledge, configPath))
      == AddedRefresh(ToSource(p), hasKnowledge, configPath)
  {
    if hasKnowledge {
      forall i | 0 <= i < |sources|
        ensures sources[i].name != p.name
      {
        assert Names(sources)[i] == sources[i].name;
      }
      FreshSourceCalls(sources, ToSource(p), true, configPath);
    }
  }

  /** The loop invariant of `AddSources` survives putting one appended source and its refresh in front. */
  lemma EffectsCons(sources: seq<KnowledgeSource>, s: KnowledgeSource, all: seq<KnowledgeSource>, effects: seq<Effect>,
                    hasKnowledge: bool, configPath: Path)
    requires |sources| + 1 <= |all| && all[..|sources| + 1] == sources + [s]
    requires |effects| == |all| - (|sources| + 1)
    requires forall k :: 0 <= k < |effects| ==> effects[k] == AddedRefresh(all[|sources| + 1 + k], hasKnowledge, configPath)
    ensures all[..|sources|] == sources
    ensures |[AddedRefresh(s, hasKnowledge, configPath)] + effects| == |all| - |sources|
    ensures var es := [AddedRefresh(s, hasKnowledge, configPath)] + effects;
      forall k :: 0 <= k < |es| ==> es[k] == AddedRefresh(all[|sources| + k], hasKnowledge, configPath)
  {
    assert all[..|sources| + 1][..|sources|] == all[..|sources|];
    assert all[|sources|] == all[..|sources| + 1][|sources|];
  }

  /** The sources the loop appends, in order. */
  function Appended(sources: seq<KnowledgeSource>, plans: seq<SourcePlan>, hasKnowledge: bool, configPath: Path)
    : (r: seq<KnowledgeSource>)
    ensures AddSources(sources, plans, hasKnowledge, configPath).0 == sources + r
  {
    var all := AddSources(sources, plans, hasKnowledge, configPath).0;
    assert all == all[..|sources|] + all[|sources|..];
    all[|sources|..]
  }

  /** How `Appended` unfolds by one plan: the plan's entry first when it is taken, then the rest. */
  lemma AppendedStep(sources: seq<KnowledgeSource>, plans: seq<SourcePlan>, hasKnowledge: bool, configPath: Path)
    requires |plans| > 0
    ensures var p := plans[0];
      if p.name in Names(sources) || !(Truthy(p.url) || Truthy(p.path)) then
        Appended(sources, plans, hasKnowledge, configPath) == Appended(sources, plans[1..], hasKnowledge, configPath)
      else
        Appended(sources, plans, hasKnowledge, configPath)
          == [ToSource(p)] + Appended(sources + [ToSource(p)], plans[1..], hasKnowledge, configPath)
  {
    var p := plans[0];
    if !(p.name in Names(sources) || !(Truthy(p.url) || Truthy(p.path))) {
      var grown := sources + [ToSource(p)];
      var rest := Appended(grown, plans[1..], hasKnowledge, configPath);
      assert sources + Appended(sources, plans, hasKnowledge, configPath) == sources + ([ToSource(p)] + rest);
    }
  }

  /** Each appended entry is located, carries no patterns, and has a name no source had before. */
  predicate NewEntries(added: seq<KnowledgeSource>, sources: seq<KnowledgeSource>)
  {
    forall k :: 0 <= k < |added| ==>
      && Located(added[k]) && added[k].name !in Names(sources)
      && added[k].includes == [] && added[k].excludes == []
  }

  /** The names the loop adds are new, and each added entry is located and has no patterns. */
  lemma {:induction false} AppendedAreNew(sources: seq<KnowledgeSource>, plans: seq<SourcePlan>, hasKnowledge: bool, configPath: Path)
    ensures NewEntries(Appended(sources, plans, hasKnowledge, configPath), sources)
    decreases |plans|
  {
    if |plans| > 0 {
      var p := plans[0];
      AppendedStep(sources, plans, hasKnowledge, configPath);
      if p.name in Names(sources) || !(Truthy(p.url) || Truthy(p.path)) {
        AppendedAreNew(sources, plans[1..], hasKnowledge, configPath);
      } else {
        var grown := sources + [ToSource(p)];
        AppendedAreNew(grown, plans[1..], hasKnowledge, configPath);
        NewEntriesCons(sources, ToSource(p), Appended(grown, plans[1..], hasKnowledge, configPath));
      }
    }
  }

  lemma NewEntriesCons(sources: seq<KnowledgeSource>, s: KnowledgeSource, rest: seq<KnowledgeSource>)
    requires Located(s) && s.name !in Names(sources) && s.includes == [] && s.excludes == []
    requires NewEntries(rest, sources + [s])
    ensures NewEntries([s] + rest, sources)
  {
    var grown := sources + [s];
    assert Names(grown)[..|sources|] == Names(sources);
    forall k | 0 <= k < |rest|
      ensures rest[k].name !in Names(sources)
    {
      assert rest[k].name !in Names(grown);
    }
    assert forall k :: 1 <= k < |[s] + rest| ==> ([s] + rest)[k] == rest[k - 1];
  }

  lemma NewNamesAvoid(rest: seq<KnowledgeSource>, sources: seq<KnowledgeSource>, n: string)
    requires NewEntries(rest, sources) && n in Names(sources)
    ensures n !in Names(rest)
  {
    forall k | 0 <= k < |rest|
      ensures Names(rest)[k] != n
    {
      assert rest[k].name !in Names(sources);
    }
  }

  lemma NamesCons(s: KnowledgeSource, rest: seq<KnowledgeSource>)
    ensures Names([s] + rest) == [s.name] + Names(rest)
  {
  }

  /** No two appended sources share a name. */
  lemma {:induction false} AppendedDistinct(sources: seq<KnowledgeSource>, plans: seq<SourcePlan>, hasKnowledge: bool, configPath: Path)
    ensures NoDuplicates(Names(Appended(sources, plans, hasKnowledge, configPath)))
    decreases |plans|
  {
    if |plans| > 0 {
      var p := plans[0];
      AppendedStep(sources, plans, hasKnowledge, configPath);
      if p.name in Names(sources) || !(Truthy(p.url) || Truthy(p.path)) {
        AppendedDistinct(sources, plans[1..], hasKnowledge, configPath);
      } else {
        var grown := sources + [ToSource(p)];
        AppendedDistinct(grown, plans[1..], hasKnowledge, configPath);
        AppendedAreNew(grown, plans[1..], hasKnowledge, configPath);
        var rest := Appended(grown, plans[1..], hasKnowledge, configPath);
        assert p.name in Names(grown) by {
          assert Names(grown)[|sources|] == p.name;
        }
        NewNamesAvoid(rest, grown, p.name);
        NamesCons(ToSource(p), rest);
        NoDuplicatesCons(p.name, Names(rest));
      }
    }
  }

  /** Every plan with a url or a path names a source afterwards: it was either added or already there. */
  lemma {:induction false} AddSourcesComplete(sources: seq<KnowledgeSource>, plans: seq<SourcePlan>, hasKnowledge: bool, configPath: Path)
    ensures forall j :: 0 <= j < |plans| && (Truthy(plans[j].url) || Truthy(plans[j].path)) ==>
      plans[j].name in Names(sources + Appended(sources, plans, hasKnowledge, configPath))
    decreases |plans|
  {
    if |plans| > 0 {
      var p := plans[0];
      AppendedStep(sources, plans, hasKnowledge, configPath);
      var taken := !(p.name in Names(sources) || !(Truthy(p.url) || Truthy(p.path)));
      var grown := if taken then sources + [ToSource(p)] else sources;
      AddSourcesComplete(grown, plans[1..], hasKnowledge, configPath);
      var after := grown + Appended(grown, plans[1..], hasKnowledge, configPath);
      assert sources + Appended(sources, plans, hasKnowledge, configPath) == after;
      assert forall n :: n in Names(grown) ==> n in Names(after) by {
        assert Names(after)[..|grown|] == Names(grown);
      }
      assert Truthy(p.url) || Truthy(p.path) ==> p.name in Names(grown) by {
        if taken {
          assert Names(grown)[|sources|] == p.name;
        }
      }
      assert forall j :: 1 <= j < |plans| ==> plans[j] == plans[1..][j - 1];
    }
  }

  /** Every appended source is the entry built from some plan. */
  lemma {:induction false} AppendedFromPlans(sources: seq<KnowledgeSource>, plans: seq<SourcePlan>, hasKnowledge: bool, configPath: Path)
    ensures forall s :: s in Appended(sources, plans, hasKnowledge, configPath) ==>
      exists j :: 0 <= j < |plans| && s == ToSource(plans[j])
    decreases |plans|
  {
    if |plans| > 0 {
      var p := plans[0];
      AppendedStep(sources, plans, hasKnowledge, configPath);
      var taken := !(p.name in Names(sources) || !(Truthy(p.url) || Truthy(p.path)));
      var grown := if taken then sources + [ToSource(p)] else sources;
      AppendedFromPlans(grown, plans[1..], hasKnowledge, configPath);
      forall s | s in Appended(sources, plans, hasKnowledge, configPath)
        ensures exists j :: 0 <= j < |plans| && s == ToSource(plans[j])
      {
        if s !in Appended(grown, plans[1..], hasKnowledge, configPath) {
          assert s == ToSource(plans[0]);
        } else {
          var j :| 0 <= j < |plans[1..]| && s == ToSource(plans[1..][j]);
          assert plans[1..][j] == plans[j + 1];
        }
      }
    }
  }

  /**
   * The plans the source loop takes, in plan order: those with a url or a path
   * whose name is neither in `seen` nor the name of an earlier taken plan, so
   * the first of several plans with the same name wins.
   */
  function NewPlans(seen: seq<string>, plans: seq<SourcePlan>): (r: seq<SourcePlan>)
    ensures forall p :: p in r ==> p in plans && (Truthy(p.url) || Truthy(p.path)) && p.name !in seen
    decreases |plans|
  {
    if |plans| == 0 then []
    else
      var p := plans[0];
      if p.name in seen || !(Truthy(p.url) || Truthy(p.path)) then NewPlans(seen, plans[1..])
      else
        var rest := NewPlans(seen + [p.name], plans[1..]);
        assert forall q :: q in rest ==> q in plans && q.name !in seen;
        [p] + rest
  }

  /** The configuration entries built from a list of plans, one per plan, in order. */
  function Entries(ps: seq<SourcePlan>): (r: seq<KnowledgeSource>)
    ensures |r| == |ps| && forall i :: 0 <= i < |ps| ==> r[i] == ToSource(ps[i])
  {
    seq(|ps|, i requires 0 <= i < |ps| => ToSource(ps[i]))
  }

  /** The source loop appends exactly the entries of the plans it takes, in plan order. */
  lemma {:induction false} AppendedIsNewPlans(sources: seq<KnowledgeSource>, plans: seq<SourcePlan>, hasKnowledge: bool, configPath: Path)
    ensures Appended(sources, plans, hasKnowledge, configPath) == Entries(NewPlans(Names(sources), plans))
    decreases |plans|
  {
    if |plans| == 0 {
      assert AddSources(sources, plans, hasKnowledge, configPath).0 == sources;
    } else {
      var p := plans[0];
      AppendedStep(sources, plans, hasKnowledge, configPath);
      if p.name in Names(sources) || !(Truthy(p.url) || Truthy(p.path)) {
        AppendedIsNewPlans(sources, plans[1..], hasKnowledge, configPath);
      } else {
        var grown := sources + [ToSource(p)];
        AppendedIsNewPlans(grown, plans[1..], hasKnowledge, configPath);
        assert Names(grown) == Names(sources) + [p.name];
        var rest := NewPlans(Names(grown), plans[1..]);
        assert NewPlans(Names(sources), plans) == [p] + rest;
        EntriesCons(p, rest);
      }
    }
  }

  lemma EntriesCons(p: SourcePlan, rest: seq<SourcePlan>)
    ensures Entries([p] + rest) == [ToSource(p)] + Entries(rest)
  {
    assert forall i :: 1 <= i < |[p] + rest| ==> ([p] + rest)[i] == rest[i - 1];
  }

  /** Of two located plans with the same new name, only the first is added. */
  lemma FirstPlanOfNameWins(p1: SourcePlan, p2: SourcePlan, hasKnowledge: bool, configPath: Path)
    requires p1.name == p2.name
    requires Truthy(p1.url) || Truthy(p1.path)
    ensures Appended([], [p1, p2], hasKnowledge, configPath) == [ToSource(p1)]
  {
    AppendedIsNewPlans([], [p1, p2], hasKnowledge, configPath);
    assert [p1, p2][1..] == [p2];
    assert [p2][1..] == [];
    assert Names([]) == [];
    assert NewPlans([p1.name], [p2]) == [];
    assert NewPlans([], [p1, p2]) == [p1] + NewPlans([] + [p1.name], [p1, p2][1..]);
    assert [] + [p1.name] == [p1.name];
  }

  // ---------------------------------------------------------------------------
  // The apply step
  // ---------------------------------------------------------------------------

  datatype ApplyResult = ApplyResult(config: AgentConfig, changed: bool, effects: seq<Effect>)

  /** The enabled list a tool plan leads to: the first fresh slugs within the budget appended, then the gated removals. */
  function PlannedTools(enabled: seq<string>, plan: ToolPlan, policy: SelfImprovementConfig): seq<string>
  {
    var grown := enabled + Take(Fresh(enabled, plan.enable), policy.maxToolChanges);
    if policy.allowDisablingTools then RemoveTools(grown, plan.disable) else grown
  }

  /** Whether the tool plan changes anything: a slug is added, or removal is allowed and a planned slug is present. */
  predicate ToolsChange(enabled: seq<string>, plan: ToolPlan, policy: SelfImprovementConfig)
  {
    var grown := enabled + Take(Fresh(enabled, plan.enable), policy.maxToolChanges);
    || |grown| > |enabled|
    || (policy.allowDisablingTools && exists x :: x in plan.disable && x in grown)
  }

  /**
   * `_apply_suggestion`: instructions replaced when non-empty; tools added and
   * removed; sources appended with a forced refresh each; the planned refresh;
   * and save-and-rebuild, last, exactly when something changed. Everything else
   * in the configuration is left as it was.
   */
  function ApplySuggestion(c: AgentConfig, s: Suggestion, hasKnowledge: bool, configPath: Path): (r: ApplyResult)
    ensures r.config.agent.instructions == if Truthy(s.instructions) then s.instructions.value else c.agent.instructions
    ensures r.config.tools.enabled == PlannedTools(c.tools.enabled, s.toolPlan, c.selfImprovement)
    ensures r.config.knowledge.sources == c.knowledge.sources + Appended(c.knowledge.sources, s.knowledgePlan.add, hasKnowledge, configPath)
    ensures r.config == c.(
      agent := c.agent.(instructions := r.config.agent.instructions),
      tools := c.tools.(enabled := r.config.tools.enabled),
      knowledge := c.knowledge.(sources := r.config.knowledge.sources))
    ensures r.changed <==>
      || Truthy(s.instructions)
      || ToolsChange(c.tools.enabled, s.toolPlan, c.selfImprovement)
      || |Appended(c.knowledge.sources, s.knowledgePlan.add, hasKnowledge, configPath)| > 0
    ensures SaveAndRebuild in r.effects <==> r.changed
    ensures r.changed ==> r.effects[|r.effects| - 1] == SaveAndRebuild
  {
    var agent := if Truthy(s.instructions) then c.agent.(instructions := s.instructions.value) else c.agent;
    var (enabled, toolsChanged) := ToolStep(c.tools.enabled, s.toolPlan, c.selfImprovement);
    var (sources, effects) := SourceStep(c.knowledge.sources, s.knowledgePlan, hasKnowledge, configPath);
    var changed := Truthy(s.instructions) || toolsChanged || |sources| > |c.knowledge.sources|;
    var config := c.(agent := agent, tools := c.tools.(enabled := enabled), knowledge := c.knowledge.(sources := sources));
    ApplyResult(config, changed, effects + if changed then [SaveAndRebuild] else [])
  }

  /** The tool half of the apply step: the additions loop, then the gated removals, and whether either changed the list. */
  function ToolStep(enabled: seq<string>, plan: ToolPlan, policy: SelfImprovementConfig): (r: (seq<string>, bool))
    ensures r.0 == PlannedTools(enabled, plan, policy)
    ensures r.1 <==> ToolsChange(enabled, plan, policy)
  {
    var grown := AddTools(enabled, plan.enable, policy.maxToolChanges);
    AddToolsAppendsFresh(enabled, plan.enable, policy.maxToolChanges);
    var after := if policy.allowDisablingTools then RemoveTools(grown, plan.disable) else grown;
    RemoveToolsShrinks(grown, plan.disable);
    (after, |grown| > |enabled| || |after| < |grown|)
  }

  /** The source half of the apply step: the appends with their forced refreshes, then the planned refresh. */
  function SourceStep(sources: seq<KnowledgeSource>, plan: KnowledgePlan, hasKnowledge: bool, configPath: Path)
    : (r: (seq<KnowledgeSource>, seq<Effect>))
    ensures r.0 == sources + Appended(sources, plan.add, hasKnowledge, configPath)
    ensures SaveAndRebuild !in r.1
  {
    var (grown, sourceEffects) := AddSources(sources, plan.add, hasKnowledge, configPath);
    AddSourcesEffects(sources, plan.add, hasKnowledge, configPath);
    var refreshEffects :=
      if |plan.refresh| > 0 then [RefreshSources(plan.refresh, RefreshCalls(grown, Some(plan.refresh), true, hasKnowledge, configPath))]
      else [];
    assert SaveAndRebuild !in sourceEffects;
    (grown, sourceEffects + refreshEffects)
  }

  /**
   * The effect log in order: one forced refresh per appended source, right after
   * it is appended; then the planned refresh, over the grown source list, when
   * the plan names any source; then save-and-rebuild when something changed.
   */
  lemma ApplyEffectsInOrder(c: AgentConfig, s: Suggestion, hasKnowledge: bool, configPath: Path)
    ensures var r := ApplySuggestion(c, s, hasKnowledge, configPath);
      var added := Appended(c.knowledge.sources, s.knowledgePlan.add, hasKnowledge, configPath);
      var refresh := s.knowledgePlan.refresh;
      && |r.effects| == |added| + (if |refresh| > 0 then 1 else 0) + (if r.changed then 1 else 0)
      && (forall k :: 0 <= k < |added| ==> r.effects[k] == AddedRefresh(added[k], hasKnowledge, configPath))
      && (|refresh| > 0 ==>
            r.effects[|added|]
              == RefreshSources(refresh, RefreshCalls(c.knowledge.sources + added, Some(refresh), true, hasKnowledge, configPath)))
  {
    SourceStepEffects(c.knowledge.sources, s.knowledgePlan, hasKnowledge, configPath);
  }

  /** The effects of the source half: the forced refresh of each appended source, then the planned refresh. */
  lemma SourceStepEffects(sources: seq<KnowledgeSource>, plan: KnowledgePlan, hasKnowledge: bool, configPath: Path)
    ensures var r := SourceStep(sources, plan, hasKnowledge, configPath);
      var added := Appended(sources, plan.add, hasKnowledge, configPath);
      && |r.1| == |added| + (if |plan.refresh| > 0 then 1 else 0)
      && (forall k :: 0 <= k < |added| ==> r.1[k] == AddedRefresh(added[k], hasKnowledge, configPath))
      && (|plan.refresh| > 0 ==>
            r.1[|added|] == RefreshSources(plan.refresh, RefreshCalls(sources + added, Some(plan.refresh), true, hasKnowledge, configPath)))
  {
    var added := Appended(sources, plan.add, hasKnowledge, configPath);
    var (grown, sourceEffects) := AddSources(sources, plan.add, hasKnowledge, configPath);
    AddSourcesEffects(sources, plan.add, hasKnowledge, configPath);
    assert grown == sources + added;
    assert forall k :: 0 <= k < |added| ==> grown[|sources| + k] == added[k];
  }

  /** Without a change the configuration is returned as it was, and nothing is saved or rebuilt. */
  lemma NoChangeNoEffect(c: AgentConfig, s: Suggestion, hasKnowledge: bool, configPath: Path)
    requires !ApplySuggestion(c, s, hasKnowledge, configPath).changed
    ensures ApplySuggestion(c, s, hasKnowledge, configPath).config == c
    ensures SaveAndRebuild !in ApplySuggestion(c, s, hasKnowledge, configPath).effects
  {
    var r := ApplySuggestion(c, s, hasKnowledge, configPath);
    var grown := c.tools.enabled + Take(Fresh(c.tools.enabled, s.toolPlan.enable), c.selfImprovement.maxToolChanges);
    assert grown == c.tools.enabled;
    if c.selfImprovement.allowDisablingTools {
      RemoveToolsShrinks(grown, s.toolPlan.disable);
      assert multiset(r.config.tools.enabled) == multiset(grown);
      assert r.config.tools.enabled == grown by {
        RemoveToolsIdentity(grown, s.toolPlan.disable);
      }
    }
    assert c.knowledge.sources + [] == c.knowledge.sources;
  }

  /** Removal with no planned slug present changes nothing. */
  lemma {:induction false} RemoveToolsIdentity(enabled: seq<string>, disable: seq<string>)
    requires forall x :: x in disable ==> x !in enabled
    ensures RemoveTools(enabled, disable) == enabled
    decreases |disable|
  {
    if |disable| > 0 {
      assert disable[0] in disable;
      assert forall x :: x in disable[1..] ==> x in disable;
      RemoveToolsIdentity(enabled, disable[1..]);
    }
  }

  /** Disabling a slug once takes out its first occurrence, and only that one. */
  lemma RemoveOneTakesFirst(enabled: seq<string>, x: string)
    requires x in enabled
    ensures var i := FirstIndex(enabled, x);
      && (forall j :: 0 <= j < i ==> enabled[j] != x)
      && RemoveTools(enabled, [x]) == enabled[..i] + enabled[i + 1..]
  {
    assert [x][1..] == [];
  }

  /** A suggestion that carries only a summary changes nothing and has no effect at all. */
  lemma SummaryOnlyIsNoOp(c: AgentConfig, summary: string, hasKnowledge: bool, configPath: Path)
    ensures ApplySuggestion(c, SummaryOnly(summary), hasKnowledge, configPath) == ApplyResult(c, false, [])
  {
    var s := SummaryOnly(summary);
    assert Fresh(c.tools.enabled, []) == [];
    assert Appended(c.knowledge.sources, [], hasKnowledge, configPath) == [];
    NoChangeNoEffect(c, s, hasKnowledge, configPath);
    ApplyEffectsInOrder(c, s, hasKnowledge, configPath);
  }

  /** With disabling not allowed, the enabled list is the list after additions: the disable plan has no effect. */
  lemma DisableGate(c: AgentConfig, s: Suggestion, hasKnowledge: bool, configPath: Path)
    requires !c.selfImprovement.allowDisablingTools
    ensures ApplySuggestion(c, s, hasKnowledge, configPath).config.tools.enabled
      == ApplySuggestion(c, s.(toolPlan := s.toolPlan.(disable := [])), hasKnowledge, configPath).config.tools.enabled
    ensures |ApplySuggestion(c, s, hasKnowledge, configPath).config.tools.enabled| >= |c.tools.enabled|
  {
  }

  /**
   * A slug to be disabled ends up absent when the plan disables it at least as
   * often as it was enabled before: in particular a slug enabled and disabled by
   * the same plan.
   */
  lemma DisabledSlugAbsent(c: AgentConfig, s: Suggestion, hasKnowledge: bool, configPath: Path, x: string)
    requires c.selfImprovement.allowDisablingTools
    requires x in s.toolPlan.disable
    requires Count(c.tools.enabled, x) <= Count(s.toolPlan.disable, x)
    ensures x !in ApplySuggestion(c, s, hasKnowledge, configPath).config.tools.enabled
  {
    var enabled := c.tools.enabled;
    var added := Take(Fresh(enabled, s.toolPlan.enable), c.selfImprovement.maxToolChanges);
    var grown := enabled + added;
    var r := RemoveTools(grown, s.toolPlan.disable);
    assert multiset(added)[x] <= 1 by {
      var f := Fresh(enabled, s.toolPlan.enable);
      assert added == f[..|added|];
      NoDuplicatesCount(f, x);
      PrefixCount(f, |added|, x);
    }
    if x in enabled {
      assert x !in added by {
        assert forall y :: y in added ==> y in Fresh(enabled, s.toolPlan.enable);
      }
    }
    assert multiset(grown)[x] <= multiset(s.toolPlan.disable)[x];
    assert multiset(r)[x] == 0;
  }

  lemma {:induction false} NoDuplicatesCount(xs: seq<string>, x: string)
    requires NoDuplicates(xs)
    ensures multiset(xs)[x] <= 1
    decreases |xs|
  {
    if |xs| > 0 {
      assert xs == [xs[0]] + xs[1..];
      assert forall j :: 0 <= j < |xs[1..]| ==> xs[1..][j] == xs[j + 1];
      NoDuplicatesCount(xs[1..], x);
      if xs[0] == x {
        assert x !in xs[1..];
      }
    }
  }

  lemma PrefixCount(xs: seq<string>, n: nat, x: string)
    requires n <= |xs|
    ensures multiset(xs[..n])[x] <= multiset(xs)[x]
  {
    assert xs == xs[..n] + xs[n..];
  }

  /** Enabled tools the plan does not mention keep their relative order. */
  lemma UnmentionedToolsKeepOrder(c: AgentConfig, s: Suggestion, hasKnowledge: bool, configPath: Path)
    ensures var mentioned := set x | x in s.toolPlan.enable + s.toolPlan.disable;
      Without(ApplySuggestion(c, s, hasKnowledge, configPath).config.tools.enabled, mentioned)
        == Without(c.tools.enabled, mentioned)
  {
    var mentioned := set x | x in s.toolPlan.enable + s.toolPlan.disable;
    var enabled := c.tools.enabled;
    var added := Take(Fresh(enabled, s.toolPlan.enable), c.selfImprovement.maxToolChanges);
    WithoutAppend(enabled, added, mentioned);
    assert Without(added, mentioned) == [] by {
      forall y | y in added
        ensures y in mentioned
      {
        assert y in Fresh(enabled, s.toolPlan.enable);
        assert y in s.toolPlan.enable + s.toolPlan.disable;
      }
      WithoutEverything(added, mentioned);
    }
    assert enabled + added == enabled + added;
    if c.selfImprovement.allowDisablingTools {
      forall i | 0 <= i < |s.toolPlan.disable|
        ensures s.toolPlan.disable[i] in mentioned
      {
        assert s.toolPlan.disable[i] in s.toolPlan.enable + s.toolPlan.disable;
      }
      RemoveToolsKeepsOrder(enabled + added, s.toolPlan.disable, mentioned);
    }
    assert Without(enabled, mentioned) + [] == Without(enabled, mentioned);
  }

  lemma WithoutEverything(xs: seq<string>, drop: set<string>)
    requires forall y :: y in xs ==> y in drop
    ensures Without(xs, drop) == []
  {
    if Without(xs, drop) != [] {
      assert Without(xs, drop)[0] in Without(xs, drop);
    }
  }

  /** Applying keeps every source located and, when the names were unique, keeps them unique. */
  lemma ApplyKeepsSourcesSound(c: AgentConfig, s: Suggestion, hasKnowledge: bool, configPath: Path)
    requires forall i :: 0 <= i < |c.knowledge.sources| ==> Located(c.knowledge.sources[i])
    ensures var after := ApplySuggestion(c, s, hasKnowledge, configPath).config.knowledge.sources;
      forall i :: 0 <= i < |after| ==> Located(after[i])
    ensures NoDuplicates(Names(c.knowledge.sources)) ==>
      NoDuplicates(Names(ApplySuggestion(c, s, hasKnowledge, configPath).config.knowledge.sources))
  {
    var before := c.knowledge.sources;
    var added := Appended(before, s.knowledgePlan.add, hasKnowledge, configPath);
    AppendedAreNew(before, s.knowledgePlan.add, hasKnowledge, configPath);
    AppendedDistinct(before, s.knowledgePlan.add, hasKnowledge, configPath);
    var after := before + added;
    assert forall i :: |before| <= i < |after| ==> after[i] == added[i - |before|];
    if NoDuplicates(Names(before)) {
      forall i, j | 0 <= i < j < |after|
        ensures Names(after)[i] != Names(after)[j]
      {
        if j < |before| {
          assert Names(before)[i] != Names(before)[j];
        } else if i < |before| {
          assert after[j].name !in Names(before);
          assert Names(before)[i] in Names(before);
        } else {
          assert Names(added)[i - |before|] != Names(added)[j - |before|];
        }
      }
    }
  }

  /** A list is normalised exactly when each of its members is non-blank and already stripped. */
  lemma NormalisedByMembers(xs: seq<string>)
    ensures Normalised(xs) <==> forall x :: x in xs ==> x != "" && Trim(x) == x
  {
    if Normalised(xs) {
      forall x | x in xs
        ensures x != "" && Trim(x) == x
      {
        var i :| 0 <= i < |xs| && xs[i] == x;
      }
    } else {
      var i :| 0 <= i < |xs| && !(xs[i] != "" && Trim(xs[i]) == xs[i]);
      assert xs[i] in xs;
    }
  }

  /** Every slug enabled after a tool plan was enabled before or is named by the plan. */
  lemma PlannedToolsFrom(enabled: seq<string>, plan: ToolPlan, policy: SelfImprovementConfig)
    ensures forall x :: x in PlannedTools(enabled, plan, policy) ==> x in enabled || x in plan.enable
  {
    var grown := enabled + Take(Fresh(enabled, plan.enable), policy.maxToolChanges);
    assert forall x :: x in grown ==> x in enabled || x in Fresh(enabled, plan.enable);
    if policy.allowDisablingTools {
      var r := RemoveTools(grown, plan.disable);
      forall x | x in r
        ensures x in grown
      {
        assert multiset(r)[x] > 0;
      }
    }
  }

  /** A tool plan keeps the enabled list normalised when the slugs it enables are normalised. */
  lemma PlannedToolsNormalised(enabled: seq<string>, plan: ToolPlan, policy: SelfImprovementConfig)
    requires Normalised(enabled) && Normalised(plan.enable)
    ensures Normalised(PlannedTools(enabled, plan, policy))
  {
    PlannedToolsFrom(enabled, plan, policy);
    NormalisedByMembers(enabled);
    NormalisedByMembers(plan.enable);
    NormalisedByMembers(PlannedTools(enabled, plan, policy));
  }

  /**
   * Applying keeps a valid configuration valid provided the slugs the plan
   * enables are normalised; the apply step does not normalise them itself.
   */
  lemma ApplyKeepsValid(c: AgentConfig, s: Suggestion, hasKnowledge: bool, configPath: Path)
    requires ValidConfig(c)
    requires Normalised(s.toolPlan.enable)
    ensures ValidConfig(ApplySuggestion(c, s, hasKnowledge, configPath).config)
  {
    PlannedToolsNormalised(c.tools.enabled, s.toolPlan, c.selfImprovement);
    ApplyKeepsSourcesSound(c, s, hasKnowledge, configPath);
  }

  /** The normalisation proviso is needed: a padded slug in the plan is enabled as written. */
  lemma PaddedSlugIsKeptAsWritten(c: AgentConfig, configPath: Path)
    requires c.tools.enabled == [] && c.selfImprovement.maxToolChanges >= 1
    ensures var s := SummaryOnly("").(toolPlan := ToolPlan([" python"], []));
      var r := ApplySuggestion(c, s, false, configPath);
      && r.config.tools.enabled == [" python"]
      && !ValidConfig(r.config)
  {
    var plan := ToolPlan([" python"], []);
    assert Fresh([], [" python"]) == [" python"];
    assert Take([" python"], c.selfImprovement.maxToolChanges) == [" python"];
    assert RemoveTools([" python"], []) == [" python"];
    assert PlannedTools([], plan, c.selfImprovement) == [" python"];
    PaddedSlugNotNormalised();
  }

  lemma PaddedSlugNotNormalised()
    ensures !Normalised([" python"])
  {
    var padded := " python";
    assert padded[0] == ' ';
    LeadingSpaceTrimmed(padded);
    assert [padded][0] == padded;
  }

  /**
   * A budget scenario: "calculator" enabled, a budget of one, disabling
   * allowed; enabling "python" and "shell" and disabling "calculator" leaves
   * exactly "python" ("shell" is over budget) and asks for a rebuild.
   */
  lemma BudgetAndDisableScenario(c: AgentConfig, summary: string, configPath: Path)
    requires c.tools.enabled == ["calculator"]
    requires c.selfImprovement.maxToolChanges == 1 && c.selfImprovement.allowDisablingTools
    ensures var s := SummaryOnly(summary).(toolPlan := ToolPlan(["python", "shell"], ["calculator"]));
      var r := ApplySuggestion(c, s, false, configPath);
      && r.config.tools.enabled == ["python"]
      && r.changed
      && r.effects == [SaveAndRebuild]
  {
    var s := SummaryOnly(summary).(toolPlan := ToolPlan(["python", "shell"], ["calculator"]));
    ScenarioTools(c.selfImprovement);
    var r := ApplySuggestion(c, s, false, configPath);
    assert ToolsChange(c.tools.enabled, s.toolPlan, c.selfImprovement) by {
      assert |["calculator"] + Take(Fresh(["calculator"], ["python", "shell"]), 1)| == 2;
    }
    ApplyEffectsInOrder(c, s, false, configPath);
    assert Appended(c.knowledge.sources, [], false, configPath) == [];
    assert |r.effects| == 1;
  }

  /** The tool arithmetic of the budget scenario. */
  lemma ScenarioTools(policy: SelfImprovementConfig)
    requires policy.maxToolChanges == 1 && policy.allowDisablingTools
    ensures Take(Fresh(["calculator"], ["python", "shell"]), 1) == ["python"]
    ensures PlannedTools(["calculator"], ToolPlan(["python", "shell"], ["calculator"]), policy) == ["python"]
  {
    ScenarioFresh();
    ScenarioRemove();
  }

  lemma ScenarioFresh()
    ensures Fresh(["calculator"], ["python", "shell"]) == ["python", "shell"]
  {
    assert ["python", "shell"][1..] == ["shell"];
    assert Fresh(["calculator", "python"], ["shell"]) == ["shell"];
  }

  lemma ScenarioRemove()
    ensures RemoveTools(["calculator", "python"], ["calculator"]) == ["python"]
  {
    var grown := ["calculator", "python"];
    assert FirstIndex(grown, "calculator") == 0;
    assert RemoveFirst(grown, "calculator") == ["python"];
    assert RemoveTools(grown, ["calculator"]) == RemoveTools(["python"], []);
  }

  // ---------------------------------------------------------------------------
  // The self-improvement cycle
  // ---------------------------------------------------------------------------

  /** What the improvement persona answered: a structured suggestion, or anything else. */
  datatype Payload = SuggestionPayload(suggestion: Suggestion) | OtherPayload

  /** One completed cycle: the suggestion, what applying it did, and the runtime in use afterwards. */
  datatype Cycle = Cycle(suggestion: Suggestion, applied: ApplyResult, runtime: AgentRuntime)

  /**
   * Why a cycle raised: it was refused before anything was applied, or the
   * rebuild failed after the suggestion had been applied and saved, leaving the
   * previous runtime in place.
   */
  datatype CycleError =
    | Refused(reason: RuntimeError)
    | RebuildFailed(applied: ApplyResult, reason: RuntimeError)

  /**
   * `run_self_improvement`: refused when the policy disables it, rejected when the
   * persona's answer is not a suggestion, otherwise the suggestion is applied with
   * the current runtime's knowledge base. When anything changed the configuration
   * is saved and the runtime rebuilt from it; a failing rebuild raises after the save.
   */
  function RunSelfImprovement(loaded: LoadedConfig, runtime: AgentRuntime, response: Payload): (r: Result<Cycle, CycleError>)
    ensures !loaded.config.selfImprovement.enabled ==> r == Failure(Refused(ImprovementDisabled))
    ensures loaded.config.selfImprovement.enabled && response.OtherPayload? ==> r == Failure(Refused(UnexpectedPayload))
    ensures loaded.config.selfImprovement.enabled && response.SuggestionPayload? ==> (
      var applied := ApplySuggestion(loaded.config, response.suggestion, runtime.knowledge.Some?, loaded.path);
      var rebuilt := BuildRuntime(loaded.(config := applied.config));
      && (r.Success? <==> !applied.changed || rebuilt.Success?)
      && (r.Failure? ==> r.error == RebuildFailed(applied, rebuilt.error)))
    ensures r.Success? ==>
      && response == SuggestionPayload(r.value.suggestion)
      && r.value.applied == ApplySuggestion(loaded.config, r.value.suggestion, runtime.knowledge.Some?, loaded.path)
    ensures r.Success? && r.value.applied.changed ==>
      r.value.runtime == BuildRuntime(loaded.(config := r.value.applied.config)).value
    ensures r.Success? && !r.value.applied.changed ==> r.value.runtime == runtime
  {
    if !loaded.config.selfImprovement.enabled then Failure(Refused(ImprovementDisabled))
    else match response
      case OtherPayload => Failure(Refused(UnexpectedPayload))
      case SuggestionPayload(s) =>
        var applied := ApplySuggestion(loaded.config, s, runtime.knowledge.Some?, loaded.path);
        if !applied.changed then Success(Cycle(s, applied, runtime))
        else match BuildRuntime(loaded.(config := applied.config))
          case Success(rebuilt) => Success(Cycle(s, applied, rebuilt))
          case Failure(e) => Failure(RebuildFailed(applied, e))
  }

  /** A completed cycle that received new instructions gives them to the rebuilt agent. */
  lemma NewInstructionsReachAgent(loaded: LoadedConfig, runtime: AgentRuntime, s: Suggestion)
    requires Truthy(s.instructions)
    ensures var r := RunSelfImprovement(loaded, runtime, SuggestionPayload(s));
      r.Success? ==> r.value.runtime.agent.instructions == Configured(s.instructions.value)
  {
  }

  /**
   * Enabling the knowledge tool while the knowledge section is disabled saves the
   * change and then raises: the rebuild misses the knowledge base the tool needs.
   */
  lemma KnowledgeToolWithoutBaseBreaksRebuild(loaded: LoadedConfig, runtime: AgentRuntime, s: Suggestion)
    requires loaded.config.selfImprovement.enabled && !loaded.config.knowledge.enabled
    requires KnowledgeSlug in ApplySuggestion(loaded.config, s, runtime.knowledge.Some?, loaded.path).config.tools.enabled
    requires ApplySuggestion(loaded.config, s, runtime.knowledge.Some?, loaded.path).changed
    ensures var applied := ApplySuggestion(loaded.config, s, runtime.knowledge.Some?, loaded.path);
      && SaveAndRebuild in applied.effects
      && RunSelfImprovement(loaded, runtime, SuggestionPayload(s))
        == Failure(RebuildFailed(applied, ToolFailure(MissingDependency(KnowledgeSlug))))
  {
    var applied := ApplySuggestion(loaded.config, s, runtime.knowledge.Some?, loaded.path);
    BuildFailsOnlyForKnowledgeTool(loaded.(config := applied.config));
  }
}
