/**
 * The curated tool catalog: a fixed table from slug to descriptor, lookup,
 * instantiation with its two error rules, and the listing shown to the
 * improvement persona. A factory is represented by a tag naming the toolkit it
 * builds; the instance it returns is represented by the slug it was built for.
 */
module Catalog {
  import opened Basics

  /** Which toolkit a descriptor's factory constructs. */
  datatype Factory = KnowledgeFactory | PythonFactory | ShellFactory | CalculatorFactory

  datatype ToolDescriptor = ToolDescriptor(
    slug: string,
    title: string,
    description: string,
    factory: Factory,
    requiresKnowledge: bool)

  /** `TOOL_CATALOG`: each key with its descriptor, in table order. */
  const ToolCatalog: seq<(string, ToolDescriptor)> := [
    ("knowledge", ToolDescriptor(
      "knowledge", "Knowledge Toolkit",
      "Think/Search/Analyze tools for hybrid retrieval over the configured knowledge base.",
      KnowledgeFactory, true)),
    ("python", ToolDescriptor(
      "python", "Python Workspace", "Execute Python snippets and manage local project files.",
      PythonFactory, false)),
    ("shell", ToolDescriptor(
      "shell", "Shell Commands", "Run shell commands within the agent workspace.",
      ShellFactory, false)),
    ("calculator", ToolDescriptor(
      "calculator", "Calculator", "Perform reliable arithmetic for planning and estimations.",
      CalculatorFactory, false))
  ]

  /** The slug that needs a knowledge base. */
  const KnowledgeSlug: string := "knowledge"

  /** The table is a proper mapping: distinct keys, each key its descriptor's slug, only "knowledge" needs a knowledge base. */
  lemma CatalogWellFormed()
    ensures forall i :: 0 <= i < |ToolCatalog| ==> ToolCatalog[i].0 == ToolCatalog[i].1.slug
    ensures forall i, j :: 0 <= i < j < |ToolCatalog| ==> ToolCatalog[i].0 != ToolCatalog[j].0
    ensures forall i :: 0 <= i < |ToolCatalog| ==> (ToolCatalog[i].1.requiresKnowledge <==> ToolCatalog[i].0 == KnowledgeSlug)
  {
  }

  function LookupIn(entries: seq<(string, ToolDescriptor)>, slug: string): (r: Option<ToolDescriptor>)
    ensures r.Some? <==> exists i :: 0 <= i < |entries| && entries[i].0 == slug
    ensures r.Some? ==> exists i :: 0 <= i < |entries| && entries[i] == (slug, r.value)
    decreases |entries|
  {
    if |entries| == 0 then None
    else if entries[0].0 == slug then Some(entries[0].1)
    else
      var r := LookupIn(entries[1..], slug);
      assert forall i :: 1 <= i < |entries| ==> entries[i] == entries[1..][i - 1];
      r
  }

  /** `TOOL_CATALOG.get(slug)`: the descriptor registered under `slug`, whose own slug is `slug`. */
  function Lookup(slug: string): (r: Option<ToolDescriptor>)
    ensures r.Some? <==> exists i :: 0 <= i < |ToolCatalog| && ToolCatalog[i].0 == slug
    ensures r.Some? ==> r.value.slug == slug
    ensures r.Some? ==> (r.value.requiresKnowledge <==> slug == KnowledgeSlug)
  {
    CatalogWellFormed();
    LookupIn(ToolCatalog, slug)
  }

  /** Every catalog entry is what lookup returns for its own slug. */
  lemma LookupAt(i: int)
    requires 0 <= i < |ToolCatalog|
    ensures Lookup(ToolCatalog[i].0) == Some(ToolCatalog[i].1)
  {
    CatalogWellFormed();
    var slug := ToolCatalog[i].0;
    var d := LookupIn(ToolCatalog, slug).value;
    var k :| 0 <= k < |ToolCatalog| && ToolCatalog[k] == (slug, d);
    assert k == i;
  }

  predicate Known(slug: string)
  {
    Lookup(slug).Some?
  }

  datatype ToolInstance = ToolInstance(slug: string)

  datatype CatalogError = UnknownTool(slug: string) | MissingDependency(slug: string)

  /** Why one requested slug stops instantiation, if it does. */
  function Rejection(slug: string, hasKnowledge: bool, allowMissing: bool): Option<CatalogError>
  {
    if !Known(slug) then (if allowMissing then None else Some(UnknownTool(slug)))
    else if Lookup(slug).value.requiresKnowledge && !hasKnowledge then Some(MissingDependency(slug))
    else None
  }

  /** The requested slugs that the catalog knows, in request order, repeats kept. */
  function KnownSlugs(selected: seq<string>): (r: seq<string>)
    ensures |r| <= |selected|
    ensures forall s :: s in r <==> s in selected && Known(s)
    decreases |selected|
  {
    if |selected| == 0 then []
    else if Known(selected[0]) then [selected[0]] + KnownSlugs(selected[1..])
    else KnownSlugs(selected[1..])
  }

  function Slugs(tools: seq<ToolInstance>): (r: seq<string>)
    ensures |r| == |tools| && forall i :: 0 <= i < |tools| ==> r[i] == tools[i].slug
  {
    seq(|tools|, i requires 0 <= i < |tools| => tools[i].slug)
  }

  /** No requested slug is rejected. */
  predicate Accepted(selected: seq<string>, hasKnowledge: bool, allowMissing: bool)
  {
    forall i :: 0 <= i < |selected| ==> Rejection(selected[i], hasKnowledge, allowMissing).None?
  }

  lemma AcceptedCons(selected: seq<string>, hasKnowledge: bool, allowMissing: bool)
    requires |selected| > 0
    ensures Accepted(selected, hasKnowledge, allowMissing)
      <==> Rejection(selected[0], hasKnowledge, allowMissing).None? && Accepted(selected[1..], hasKnowledge, allowMissing)
  {
    var tail := selected[1..];
    assert forall i :: 1 <= i < |selected| ==> selected[i] == tail[i - 1];
  }

  lemma SlugsCons(t: ToolInstance, tools: seq<ToolInstance>)
    ensures Slugs([t] + tools) == [t.slug] + Slugs(tools)
  {
  }

  lemma KnownSlugsCons(selected: seq<string>)
    requires |selected| > 0
    ensures KnownSlugs(selected) == (if Known(selected[0]) then [selected[0]] else []) + KnownSlugs(selected[1..])
  {
  }

  /**
   * `instantiate_tools`: walks the request in order. An unknown slug raises unless
   * missing tools are allowed, in which case it is skipped; a tool that needs a
   * knowledge base raises when there is none, whatever `allowMissing` says. On
   * success there is one instance per known requested slug, in request order.
   */
  function Instantiate(selected: seq<string>, hasKnowledge: bool, allowMissing: bool): (r: Result<seq<ToolInstance>, CatalogError>)
    ensures r.Success? <==> Accepted(selected, hasKnowledge, allowMissing)
    ensures r.Success? ==> Slugs(r.value) == KnownSlugs(selected)
    decreases |selected|
  {
    if |selected| == 0 then Success([])
    else
      var slug := selected[0];
      AcceptedCons(selected, hasKnowledge, allowMissing);
      KnownSlugsCons(selected);
      var rejection := Rejection(slug, hasKnowledge, allowMissing);
      if rejection.Some? then Failure(rejection.value)
      else
        var rest := Instantiate(selected[1..], hasKnowledge, allowMissing);
        if rest.Failure? then rest
        else if Known(slug) then
          SlugsCons(ToolInstance(slug), rest.value);
          Success([ToolInstance(slug)] + rest.value)
        else rest
  }

  /** A failure reports the rejection of the first slug that is rejected. */
  lemma {:induction false} InstantiateReportsFirst(selected: seq<string>, hasKnowledge: bool, allowMissing: bool)
    requires Instantiate(selected, hasKnowledge, allowMissing).Failure?
    ensures exists i :: (0 <= i < |selected|
      && Rejection(selected[i], hasKnowledge, allowMissing) == Some(Instantiate(selected, hasKnowledge, allowMissing).error)
      && (forall j :: 0 <= j < i ==> Rejection(selected[j], hasKnowledge, allowMissing).None?))
    decreases |selected|
  {
    var e := Instantiate(selected, hasKnowledge, allowMissing).error;
    if Rejection(selected[0], hasKnowledge, allowMissing).None? {
      var tail := selected[1..];
      assert Instantiate(tail, hasKnowledge, allowMissing) == Failure(e);
      InstantiateReportsFirst(tail, hasKnowledge, allowMissing);
      var k :| 0 <= k < |tail|
        && Rejection(tail[k], hasKnowledge, allowMissing) == Some(e)
        && (forall j :: 0 <= j < k ==> Rejection(tail[j], hasKnowledge, allowMissing).None?);
      FirstRejectionShifts(selected, hasKnowledge, allowMissing, e, k);
    } else {
      assert Rejection(selected[0], hasKnowledge, allowMissing) == Some(e);
    }
  }

  /** A first rejection at `k` in the tail is the first rejection at `k + 1` when the head passes. */
  lemma FirstRejectionShifts(selected: seq<string>, hasKnowledge: bool, allowMissing: bool, e: CatalogError, k: int)
    requires |selected| > 0 && Rejection(selected[0], hasKnowledge, allowMissing).None?
    requires 0 <= k < |selected| - 1
    requires Rejection(selected[1..][k], hasKnowledge, allowMissing) == Some(e)
    requires forall j :: 0 <= j < k ==> Rejection(selected[1..][j], hasKnowledge, allowMissing).None?
    ensures 0 <= k + 1 < |selected| && Rejection(selected[k + 1], hasKnowledge, allowMissing) == Some(e)
    ensures forall j :: 0 <= j < k + 1 ==> Rejection(selected[j], hasKnowledge, allowMissing).None?
  {
    var tail := selected[1..];
    forall j | 0 <= j < k + 1
      ensures Rejection(selected[j], hasKnowledge, allowMissing).None?
    {
      if j > 0 {
        assert selected[j] == tail[j - 1];
      }
    }
    assert selected[k + 1] == tail[k];
  }

  /** A request naming "knowledge" fails without a knowledge base, even when missing tools are allowed. */
  lemma {:induction false} KnowledgeToolNeedsBase(selected: seq<string>, allowMissing: bool)
    requires KnowledgeSlug in selected
    ensures Instantiate(selected, false, allowMissing).Failure?
    ensures allowMissing ==> Instantiate(selected, false, allowMissing) == Failure(MissingDependency(KnowledgeSlug))
  {
    var i :| 0 <= i < |selected| && selected[i] == KnowledgeSlug;
    CatalogWellFormed();
    assert Known(KnowledgeSlug) by {
      assert ToolCatalog[0].0 == KnowledgeSlug;
    }
    assert Rejection(selected[i], false, allowMissing).Some?;
    if allowMissing {
      var r := Instantiate(selected, false, allowMissing);
      InstantiateReportsFirst(selected, false, allowMissing);
      var k :| 0 <= k < |selected| && Rejection(selected[k], false, allowMissing) == Some(r.error);
      assert Known(selected[k]) && Lookup(selected[k]).value.requiresKnowledge;
    }
  }

  /** The strict request for the knowledge tool without a knowledge base raises the missing-dependency error. */
  lemma KnowledgeToolStrictRequest()
    ensures Instantiate([KnowledgeSlug], false, false) == Failure(MissingDependency(KnowledgeSlug))
  {
    assert ToolCatalog[0].0 == KnowledgeSlug;
    assert Rejection(KnowledgeSlug, false, false) == Some(MissingDependency(KnowledgeSlug));
  }

  /** With a knowledge base and missing tools allowed, instantiation never fails and skips unknown slugs. */
  lemma UnknownSlugsSkipped(selected: seq<string>)
    ensures Instantiate(selected, true, true).Success?
    ensures Slugs(Instantiate(selected, true, true).value) == KnownSlugs(selected)
  {
  }

  /** With missing tools disallowed, the first unknown slug raises unless a missing dependency comes first. */
  lemma {:induction false} UnknownSlugRaises(selected: seq<string>, hasKnowledge: bool, i: nat)
    requires i < |selected| && !Known(selected[i])
    requires forall j :: 0 <= j < i ==> Known(selected[j]) && (hasKnowledge || selected[j] != KnowledgeSlug)
    ensures Instantiate(selected, hasKnowledge, false) == Failure(UnknownTool(selected[i]))
  {
    var r := Instantiate(selected, hasKnowledge, false);
    assert Rejection(selected[i], hasKnowledge, false).Some?;
    InstantiateReportsFirst(selected, hasKnowledge, false);
    var k :| 0 <= k < |selected| && Rejection(selected[k], hasKnowledge, false) == Some(r.error)
      && (forall j :: 0 <= j < k ==> Rejection(selected[j], hasKnowledge, false).None?);
    forall j | 0 <= j < i
      ensures Rejection(selected[j], hasKnowledge, false).None?
    {
      var d := Lookup(selected[j]);
      assert d.Some? && (d.value.requiresKnowledge ==> hasKnowledge);
    }
    assert k == i;
  }

  /** On strict success every requested slug yields one instance, in order, repeats included. */
  lemma {:induction false} StrictKeepsEverySlug(selected: seq<string>, hasKnowledge: bool)
    requires Instantiate(selected, hasKnowledge, false).Success?
    ensures Slugs(Instantiate(selected, hasKnowledge, false).value) == selected
    decreases |selected|
  {
    if |selected| > 0 {
      assert Rejection(selected[0], hasKnowledge, false).None?;
      assert forall i :: 0 <= i < |selected[1..]| ==> selected[1..][i] == selected[i + 1];
      assert Instantiate(selected[1..], hasKnowledge, false).Success?;
      StrictKeepsEverySlug(selected[1..], hasKnowledge);
      assert [selected[0]] + selected[1..] == selected;
    }
  }

  datatype CatalogRow = CatalogRow(slug: string, title: string, description: string)

  /** `describe_catalog`: one row per catalog entry, in table order. */
  function Describe(): (r: seq<CatalogRow>)
    ensures |r| == |ToolCatalog|
    ensures forall i :: 0 <= i < |r| ==>
      && r[i].slug == ToolCatalog[i].0
      && r[i].title == ToolCatalog[i].1.title
      && r[i].description == ToolCatalog[i].1.description
  {
    CatalogWellFormed();
    seq(|ToolCatalog|, i requires 0 <= i < |ToolCatalog| =>
      CatalogRow(ToolCatalog[i].1.slug, ToolCatalog[i].1.title, ToolCatalog[i].1.description))
  }

  /** The listing names each known tool exactly once, with the title and description lookup returns. */
  lemma DescribeMatchesLookup()
    ensures forall i, j :: 0 <= i < j < |Describe()| ==> Describe()[i].slug != Describe()[j].slug
    ensures forall row :: row in Describe() ==>
      Lookup(row.slug).Some?
      && Lookup(row.slug).value.title == row.title
      && Lookup(row.slug).value.description == row.description
    ensures forall slug :: Known(slug) <==> exists row :: row in Describe() && row.slug == slug
  {
    DescribeDistinct();
    DescribeRowsFound();
    DescribeCoversKnown();
  }

  /** No slug is listed twice. */
  lemma DescribeDistinct()
    ensures forall i, j :: 0 <= i < j < |Describe()| ==> Describe()[i].slug != Describe()[j].slug
  {
    CatalogWellFormed();
  }

  /** Each listed row is what lookup returns for its slug. */
  lemma DescribeRowsFound()
    ensures forall row :: row in Describe() ==>
      Lookup(row.slug).Some?
      && Lookup(row.slug).value.title == row.title
      && Lookup(row.slug).value.description == row.description
  {
    var rows := Describe();
    forall row | row in rows
      ensures Lookup(row.slug).Some?
      ensures Lookup(row.slug).value.title == row.title
      ensures Lookup(row.slug).value.description == row.description
    {
      var i :| 0 <= i < |rows| && rows[i] == row;
      LookupAt(i);
    }
  }

  /** Exactly the known slugs are listed. */
  lemma DescribeCoversKnown()
    ensures forall slug :: Known(slug) <==> exists row :: row in Describe() && row.slug == slug
  {
    var rows := Describe();
    forall slug | Known(slug)
      ensures exists row :: row in rows && row.slug == slug
    {
      var i :| 0 <= i < |ToolCatalog| && ToolCatalog[i].0 == slug;
      assert rows[i] in rows;
    }
  }
}
