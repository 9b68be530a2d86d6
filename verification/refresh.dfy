/**
 * Knowledge refresh as a generator of ingestion calls: for each selected source,
 * in configuration order, one call for its url and one for its path (resolved
 * against the configuration file's directory), each carrying the source's
 * attributes and the force policy.
 */
module Refresh {
  import opened Basics
  import opened Paths
  import opened Config
  import opened Lists

  /** What one ingestion call loads. */
  datatype Target = UrlTarget(url: string) | PathTarget(path: string)

  /** One `add_content` call on the knowledge base, with its keyword arguments. */
  datatype IngestCall = IngestCall(
    target: Target,
    name: string,
    description: Option<string>,
    metadata: Option<map<string, string>>,
    includes: Option<seq<string>>,
    excludes: Option<seq<string>>,
    skipIfExists: bool,
    upsert: bool)

  /** The name filter: absent or empty selects every source, otherwise the named ones. */
  predicate Selected(filter: seq<string>, name: string)
  {
    |filter| == 0 || name in filter
  }

  /** The call record for one target of `s`: the source's attributes, empty collections as `None`. */
  function CallFor(s: KnowledgeSource, target: Target, force: bool): (c: IngestCall)
    ensures c.target == target && c.name == s.name && c.description == s.description
    ensures c.skipIfExists == !force && c.upsert
    ensures c.metadata.None? <==> |s.metadata| == 0
    ensures c.includes.None? <==> |s.includes| == 0
    ensures c.excludes.None? <==> |s.excludes| == 0
    ensures c.metadata.Some? ==> c.metadata.value == s.metadata
    ensures c.includes.Some? ==> c.includes.value == s.includes
    ensures c.excludes.Some? ==> c.excludes.value == s.excludes
  {
    IngestCall(target, s.name, s.description, NonEmptyMapOrNone(s.metadata),
      NonEmptyOrNone(s.includes), NonEmptyOrNone(s.excludes), !force, true)
  }

  /** Where a source's path points: an absolute path as written, a relative one under the configuration's directory. */
  function PathTargetOf(configPath: Path, path: string): (t: Target)
    ensures t.PathTarget?
    ensures WellFormed(Parent(configPath)) ==> Parse(t.path) == ResolvePath(Parent(configPath), path)
  {
    var resolved := ResolvePath(Parent(configPath), path);
    assert WellFormed(Parent(configPath)) ==> Parse(Render(resolved)) == resolved by {
      if WellFormed(Parent(configPath)) {
        ParseRender(resolved);
      }
    }
    PathTarget(Render(resolved))
  }

  /** A call for the source named `name` under the force policy `force`. */
  predicate IssuedFor(c: IngestCall, name: string, force: bool)
  {
    c.name == name && c.skipIfExists == !force && c.upsert
  }

  lemma IssuedForAll(a: seq<IngestCall>, b: seq<IngestCall>, name: string, force: bool)
    requires forall c :: c in a ==> IssuedFor(c, name, force)
    requires forall c :: c in b ==> IssuedFor(c, name, force)
    ensures forall c :: c in a + b ==> IssuedFor(c, name, force)
  {
  }

  /** The calls for one source: the url call first when there is a url, then the path call when there is a path. */
  function SourceCalls(s: KnowledgeSource, force: bool, configPath: Path): (r: seq<IngestCall>)
    ensures |r| == (if Truthy(s.url) then 1 else 0) + (if Truthy(s.path) then 1 else 0)
    ensures Truthy(s.url) ==> r[0] == CallFor(s, UrlTarget(s.url.value), force)
    ensures Truthy(s.path) ==> r[|r| - 1] == CallFor(s, PathTargetOf(configPath, s.path.value), force)
    ensures Located(s) <==> |r| > 0
    ensures forall c :: c in r ==> IssuedFor(c, s.name, force)
  {
    var fromUrl := if Truthy(s.url) then [CallFor(s, UrlTarget(s.url.value), force)] else [];
    var fromPath := if Truthy(s.path) then [CallFor(s, PathTargetOf(configPath, s.path.value), force)] else [];
    IssuedForAll(fromUrl, fromPath, s.name, force);
    fromUrl + fromPath
  }

  /** The calls for every selected source, in configuration order. */
  function SelectedCalls(sources: seq<KnowledgeSource>, filter: seq<string>, force: bool, configPath: Path): (r: seq<IngestCall>)
    ensures forall c :: c in r ==> Selected(filter, c.name) && c.skipIfExists == !force && c.upsert
    decreases |sources|
  {
    if |sources| == 0 then []
    else
      var rest := SelectedCalls(sources[1..], filter, force, configPath);
      if Selected(filter, sources[0].name) then SourceCalls(sources[0], force, configPath) + rest
      else rest
  }

  /**
   * `refresh_knowledge`: nothing without a knowledge base; otherwise the calls
   * for the sources the filter selects, none skipped when `force` holds.
   */
  function RefreshCalls(sources: seq<KnowledgeSource>, filter: Option<seq<string>>, force: bool,
                        hasKnowledge: bool, configPath: Path): (r: seq<IngestCall>)
    ensures !hasKnowledge ==> r == []
    ensures hasKnowledge ==> r == SelectedCalls(sources, if filter.None? then [] else filter.value, force, configPath)
    ensures forall c :: c in r ==> c.skipIfExists == !force && c.upsert
    ensures forall c :: c in r ==> filter.None? || Selected(filter.value, c.name)
  {
    if !hasKnowledge then []
    else SelectedCalls(sources, if filter.None? then [] else filter.value, force, configPath)
  }

  /** Sources are visited in order: the calls for a concatenation are the calls for each part. */
  lemma {:induction false} SelectedCallsAppend(a: seq<KnowledgeSource>, b: seq<KnowledgeSource>,
                                                filter: seq<string>, force: bool, configPath: Path)
    ensures SelectedCalls(a + b, filter, force, configPath)
      == SelectedCalls(a, filter, force, configPath) + SelectedCalls(b, filter, force, configPath)
    decreases |a|
  {
    if |a| == 0 {
      assert a + b == b;
    } else {
      var ab := a + b;
      assert ab[0] == a[0] && ab[1..] == a[1..] + b;
      SelectedCallsAppend(a[1..], b, filter, force, configPath);
      SelectedCallsCons(a, filter, force, configPath);
      SelectedCallsCons(ab, filter, force, configPath);
      var head := if Selected(filter, a[0].name) then SourceCalls(a[0], force, configPath) else [];
      Reassociate(head, SelectedCalls(a[1..], filter, force, configPath), SelectedCalls(b, filter, force, configPath),
        SelectedCalls(ab, filter, force, configPath), SelectedCalls(a, filter, force, configPath));
    }
  }


  /** The first source's calls, when it is selected, come before those of the rest. */
  lemma SelectedCallsCons(sources: seq<KnowledgeSource>, filter: seq<string>, force: bool, configPath: Path)
    requires |sources| > 0
    ensures SelectedCalls(sources, filter, force, configPath)
      == (if Selected(filter, sources[0].name) then SourceCalls(sources[0], force, configPath) else [])
        + SelectedCalls(sources[1..], filter, force, configPath)
  {
    if !Selected(filter, sources[0].name) {
      assert [] + SelectedCalls(sources[1..], filter, force, configPath) == SelectedCalls(sources[1..], filter, force, configPath);
    }
  }

  /** A filter that names no configured source selects nothing. */
  lemma {:induction false} NoMatchNoCalls(sources: seq<KnowledgeSource>, filter: seq<string>, force: bool, configPath: Path)
    requires |filter| > 0
    requires forall i :: 0 <= i < |sources| ==> sources[i].name !in filter
    ensures SelectedCalls(sources, filter, force, configPath) == []
    decreases |sources|
  {
    if |sources| > 0 {
      NoMatchNoCalls(sources[1..], filter, force, configPath);
    }
  }

  /**
   * Each source contributes its own calls, between those of the sources before
   * and after it, exactly when the filter selects it; an empty filter selects all.
   */
  lemma SelectedCallsAt(sources: seq<KnowledgeSource>, filter: seq<string>, force: bool, configPath: Path, i: nat)
    requires i < |sources|
    ensures SelectedCalls(sources, filter, force, configPath)
      == SelectedCalls(sources[..i], filter, force, configPath)
        + (if Selected(filter, sources[i].name) then SourceCalls(sources[i], force, configPath) else [])
        + SelectedCalls(sources[i + 1..], filter, force, configPath)
    ensures |filter| == 0 ==> Selected(filter, sources[i].name)
  {
    var pre := sources[..i];
    var post := sources[i + 1..];
    assert sources == pre + [sources[i]] + post;
    SelectedCallsAppend(pre + [sources[i]], post, filter, force, configPath);
    SelectedCallsAppend(pre, [sources[i]], filter, force, configPath);
    SelectedCallsSingle(sources[i], filter, force, configPath);
  }

  lemma SelectedCallsSingle(s: KnowledgeSource, filter: seq<string>, force: bool, configPath: Path)
    ensures SelectedCalls([s], filter, force, configPath)
      == if Selected(filter, s.name) then SourceCalls(s, force, configPath) else []
  {
    assert [s][1..] == [];
    assert SourceCalls(s, force, configPath) + [] == SourceCalls(s, force, configPath);
  }

  /** Refreshing one freshly appended source by its unused name issues exactly that source's calls. */
  lemma FreshSourceCalls(sources: seq<KnowledgeSource>, s: KnowledgeSource, force: bool, configPath: Path)
    requires forall i :: 0 <= i < |sources| ==> sources[i].name != s.name
    ensures RefreshCalls(sources + [s], Some([s.name]), force, true, configPath)
      == SourceCalls(s, force, configPath)
  {
    SelectedCallsAppend(sources, [s], [s.name], force, configPath);
    NoMatchNoCalls(sources, [s.name], force, configPath);
    SelectedCallsSingle(s, [s.name], force, configPath);
  }
}
