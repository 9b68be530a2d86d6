/**
 * The declarative configuration of the agent and its validation: the schema a
 * loaded configuration file must satisfy (required fields, defaults, provider
 * enumerations, numeric ranges, the knowledge-source location rule and the
 * tool-list normaliser) and the derived workspace directory.
 */
module Config {
  import opened Basics
  import opened Text
  import opened Paths

  // ---------------------------------------------------------------------------
  // Provider enumerations
  // ---------------------------------------------------------------------------

  datatype ModelProvider = OpenAI | Anthropic | Groq | Google | Nebius

  datatype EmbedderProvider = OpenAIEmbedder | FastEmbed

  /** The provider names a configuration may use for the chat model, in schema order. */
  const ModelProviderNames: seq<string> := ["openai", "anthropic", "groq", "google", "nebius"]

  /** The provider names a configuration may use for the embedder, in schema order. */
  const EmbedderProviderNames: seq<string> := ["openai", "fastembed"]

  function ModelProviderName(p: ModelProvider): string
  {
    match p
    case OpenAI => "openai"
    case Anthropic => "anthropic"
    case Groq => "groq"
    case Google => "google"
    case Nebius => "nebius"
  }

  function EmbedderProviderName(p: EmbedderProvider): string
  {
    match p
    case OpenAIEmbedder => "openai"
    case FastEmbed => "fastembed"
  }

  /** Membership in the model provider literal: accepted exactly for the five names. */
  function ParseModelProvider(s: string): (r: Option<ModelProvider>)
    ensures r.Some? <==> s in ModelProviderNames
    ensures r.Some? ==> ModelProviderName(r.value) == s
  {
    if s == "openai" then Some(OpenAI)
    else if s == "anthropic" then Some(Anthropic)
    else if s == "groq" then Some(Groq)
    else if s == "google" then Some(Google)
    else if s == "nebius" then Some(Nebius)
    else None
  }

  /** Membership in the embedder provider literal: accepted exactly for the two names. */
  function ParseEmbedderProvider(s: string): (r: Option<EmbedderProvider>)
    ensures r.Some? <==> s in EmbedderProviderNames
    ensures r.Some? ==> EmbedderProviderName(r.value) == s
  {
    if s == "openai" then Some(OpenAIEmbedder)
    else if s == "fastembed" then Some(FastEmbed)
    else None
  }

  /** Every provider is written back under a name the schema accepts again. */
  lemma ProviderNamesRoundTrip(m: ModelProvider, e: EmbedderProvider)
    ensures ParseModelProvider(ModelProviderName(m)) == Some(m)
    ensures ParseEmbedderProvider(EmbedderProviderName(e)) == Some(e)
  {
  }

  // ---------------------------------------------------------------------------
  // Validated configuration
  // ---------------------------------------------------------------------------

  datatype ModelConfig = ModelConfig(provider: ModelProvider, id: string, temperature: real)

  datatype EmbedderConfig = EmbedderConfig(provider: EmbedderProvider, model: string)

  datatype KnowledgeSource = KnowledgeSource(
    name: string,
    description: Option<string>,
    url: Option<string>,
    path: Option<string>,
    metadata: map<string, string>,
    includes: seq<string>,
    excludes: seq<string>)

  datatype KnowledgeConfig = KnowledgeConfig(
    enabled: bool,
    vectorStoreUri: string,
    tableName: string,
    embedder: EmbedderConfig,
    sources: seq<KnowledgeSource>)

  datatype AgentProfile = AgentProfile(name: string, description: string, instructions: string)

  datatype ToolConfig = ToolConfig(enabled: seq<string>, optional: seq<string>)

  datatype SelfImprovementConfig = SelfImprovementConfig(
    enabled: bool,
    goal: string,
    maxToolChanges: int,
    allowDisablingTools: bool,
    refreshOnStartup: bool)

  datatype AgentConfig = AgentConfig(
    agent: AgentProfile,
    model: ModelConfig,
    knowledge: KnowledgeConfig,
    tools: ToolConfig,
    selfImprovement: SelfImprovementConfig)

  const DefaultAgentName: string := "Agno AutoPilot"
  const DefaultTemperature: real := 0.0
  const MinTemperature: real := 0.0
  const MaxTemperature: real := 2.0
  const DefaultEmbedderModel: string := "text-embedding-3-small"
  const DefaultTableName: string := "agno_docs"
  const DefaultGoal: string :=
    "Continuously expand the agent's knowledge of Agno, refresh tooling and"
    + " deliver production-ready guidance to developers."
  const DefaultMaxToolChanges: int := 1
  const MinToolChanges: int := 0
  const MaxToolChanges: int := 10

  /** The location rule of a knowledge source: a non-empty url or a non-empty path. */
  predicate Located(s: KnowledgeSource)
  {
    Truthy(s.url) || Truthy(s.path)
  }

  /** A tool list as the normaliser leaves it: no blank entries, each one stripped. */
  predicate Normalised(xs: seq<string>)
  {
    forall i :: 0 <= i < |xs| ==> xs[i] != "" && Trim(xs[i]) == xs[i]
  }

  /** What every configuration accepted by the schema satisfies. */
  predicate ValidConfig(c: AgentConfig)
  {
    && MinTemperature <= c.model.temperature <= MaxTemperature
    && MinToolChanges <= c.selfImprovement.maxToolChanges <= MaxToolChanges
    && (forall i :: 0 <= i < |c.knowledge.sources| ==> Located(c.knowledge.sources[i]))
    && Normalised(c.tools.enabled)
    && Normalised(c.tools.optional)
  }

  // ---------------------------------------------------------------------------
  // Tool-list normaliser
  // ---------------------------------------------------------------------------

  /** Strips every entry and drops the blank ones, keeping the order. */
  function NormaliseList(xs: seq<string>): (r: seq<string>)
    ensures Normalised(r)
    ensures |r| <= |xs|
    decreases |xs|
  {
    if |xs| == 0 then []
    else
      var t := Trim(xs[0]);
      TrimIdempotent(xs[0]);
      var rest := NormaliseList(xs[1..]);
      if t != "" then NormalisedCons(t, rest); [t] + rest else rest
  }

  /** A stripped, non-blank entry in front of a normalised list keeps it normalised. */
  lemma NormalisedCons(t: string, rest: seq<string>)
    requires t != "" && Trim(t) == t && Normalised(rest)
    ensures Normalised([t] + rest)
  {
    var r := [t] + rest;
    forall i | 0 <= i < |r|
      ensures r[i] != "" && Trim(r[i]) == r[i]
    {
      if i > 0 {
        assert r[i] == rest[i - 1];
      }
    }
  }

  /** The `enabled`/`optional` field validator: a missing list is the empty list. */
  function NormaliseEntries(value: Option<seq<string>>): (r: seq<string>)
    ensures value.None? ==> r == []
    ensures value.Some? ==> r == NormaliseList(value.value)
    ensures Normalised(r)
  {
    if value.None? then [] else NormaliseList(value.value)
  }

  /** Normalising a concatenation normalises each part in place: order is preserved. */
  lemma {:induction false} NormaliseAppend(a: seq<string>, b: seq<string>)
    ensures NormaliseList(a + b) == NormaliseList(a) + NormaliseList(b)
    decreases |a|
  {
    if |a| > 0 {
      assert (a + b)[1..] == a[1..] + b;
      NormaliseAppend(a[1..], b);
    } else {
      assert a + b == b;
    }
  }

  /** An entry is kept as its stripped form exactly when it is not blank. */
  lemma NormaliseSingle(x: string)
    ensures NormaliseList([x]) == if Trim(x) == "" then [] else [Trim(x)]
  {
    assert [x][1..] == [];
  }

  /** A normalised list is left unchanged by the normaliser. */
  lemma {:induction false} NormaliseFixesNormalised(xs: seq<string>)
    requires Normalised(xs)
    ensures NormaliseList(xs) == xs
    decreases |xs|
  {
    if |xs| > 0 {
      NormalisedTail(xs);
      NormaliseFixesNormalised(xs[1..]);
      NormaliseKeepsHead(xs);
    }
  }

  /** A stripped, non-blank head in front of a tail the normaliser keeps is kept too. */
  lemma NormaliseKeepsHead(xs: seq<string>)
    requires |xs| > 0 && xs[0] != "" && Trim(xs[0]) == xs[0]
    requires NormaliseList(xs[1..]) == xs[1..]
    ensures NormaliseList(xs) == xs
  {
    assert [xs[0]] + xs[1..] == xs;
  }

  /** The head of a normalised list is stripped and non-blank, and its tail is normalised. */
  lemma NormalisedTail(xs: seq<string>)
    requires |xs| > 0 && Normalised(xs)
    ensures xs[0] != "" && Trim(xs[0]) == xs[0]
    ensures Normalised(xs[1..])
  {
    forall i | 0 <= i < |xs| - 1
      ensures xs[1..][i] != "" && Trim(xs[1..][i]) == xs[1..][i]
    {
      assert xs[1..][i] == xs[i + 1];
    }
  }

  /** Normalising twice is normalising once. */
  lemma NormaliseIdempotent(value: Option<seq<string>>)
    ensures NormaliseEntries(Some(NormaliseEntries(value))) == NormaliseEntries(value)
  {
    NormaliseFixesNormalised(NormaliseEntries(value));
  }

  // ---------------------------------------------------------------------------
  // Raw (unvalidated) configuration and the schema validation
  // ---------------------------------------------------------------------------

  /** One problem the schema reports; validation reports all of them at once. */
  datatype SchemaIssue =
    | MissingField(field: string)
    | UnknownProvider(field: string, value: string)
    | OutOfRange(field: string)
    | MissingLocation(source: string)

  type Validated<T> = Result<T, seq<SchemaIssue>>

  function IssuesOf<T>(r: Validated<T>): seq<SchemaIssue>
  {
    if r.Failure? then r.error else []
  }

  // In the raw records `None` stands for a key absent from the file.

  datatype RawModel = RawModel(provider: Option<string>, id: Option<string>, temperature: Option<real>)

  datatype RawEmbedder = RawEmbedder(provider: Option<string>, model: Option<string>)

  datatype RawSource = RawSource(
    name: Option<string>,
    description: Option<string>,
    url: Option<string>,
    path: Option<string>,
    metadata: Option<map<string, string>>,
    includes: Option<seq<string>>,
    excludes: Option<seq<string>>)

  datatype RawKnowledge = RawKnowledge(
    enabled: Option<bool>,
    vectorStoreUri: Option<string>,
    tableName: Option<string>,
    embedder: Option<RawEmbedder>,
    sources: Option<seq<RawSource>>)

  datatype RawAgent = RawAgent(name: Option<string>, description: Option<string>, instructions: Option<string>)

  datatype RawTools = RawTools(enabled: Option<seq<string>>, optional: Option<seq<string>>)

  datatype RawImprovement = RawImprovement(
    enabled: Option<bool>,
    goal: Option<string>,
    maxToolChanges: Option<int>,
    allowDisablingTools: Option<bool>,
    refreshOnStartup: Option<bool>)

  datatype RawConfig = RawConfig(
    agent: Option<RawAgent>,
    model: Option<RawModel>,
    knowledge: Option<RawKnowledge>,
    tools: Option<RawTools>,
    selfImprovement: Option<RawImprovement>)

  function Required<T>(o: Option<T>, field: string): seq<SchemaIssue>
  {
    if o.None? then [MissingField(field)] else []
  }

  function GetOr<T>(o: Option<T>, default: T): T
  {
    if o.Some? then o.value else default
  }

  /** The model section: provider and id are required, the temperature lies in [0, 2] and defaults to 0. */
  function ValidateModel(m: RawModel): (r: Validated<ModelConfig>)
    ensures r.Success? <==>
      && m.provider.Some? && m.provider.value in ModelProviderNames
      && m.id.Some?
      && (m.temperature.Some? ==> MinTemperature <= m.temperature.value <= MaxTemperature)
    ensures r.Failure? ==> |r.error| > 0
    ensures r.Success? ==>
      && ModelProviderName(r.value.provider) == m.provider.value
      && r.value.id == m.id.value
      && r.value.temperature == GetOr(m.temperature, DefaultTemperature)
  {
    var providerIssues :=
      if m.provider.None? then [MissingField("model.provider")]
      else if ParseModelProvider(m.provider.value).None? then [UnknownProvider("model.provider", m.provider.value)]
      else [];
    var temperature := GetOr(m.temperature, DefaultTemperature);
    var rangeIssues :=
      if MinTemperature <= temperature <= MaxTemperature then [] else [OutOfRange("model.temperature")];
    var issues := providerIssues + Required(m.id, "model.id") + rangeIssues;
    if |issues| > 0 then Failure(issues)
    else Success(ModelConfig(ParseModelProvider(m.provider.value).value, m.id.value, temperature))
  }

  /** The embedder section: every field has a default, the provider defaults to "openai". */
  function ValidateEmbedder(e: Option<RawEmbedder>): (r: Validated<EmbedderConfig>)
    ensures r.Success? <==> e.None? || e.value.provider.None? || e.value.provider.value in EmbedderProviderNames
    ensures r.Failure? ==> |r.error| > 0
    ensures r.Success? && (e.None? || e.value.provider.None?) ==> r.value.provider == OpenAIEmbedder
    ensures r.Success? && e.Some? && e.value.provider.Some? ==>
      EmbedderProviderName(r.value.provider) == e.value.provider.value
    ensures r.Success? ==> r.value.model == (if e.None? then DefaultEmbedderModel else GetOr(e.value.model, DefaultEmbedderModel))
  {
    if e.None? then Success(EmbedderConfig(OpenAIEmbedder, DefaultEmbedderModel))
    else
      var name := GetOr(e.value.provider, "openai");
      var provider := ParseEmbedderProvider(name);
      if provider.None? then Failure([UnknownProvider("knowledge.embedder.provider", name)])
      else Success(EmbedderConfig(provider.value, GetOr(e.value.model, DefaultEmbedderModel)))
  }

  /** One knowledge source: the name is required, and a url or a path must be given and non-empty. */
  function ValidateSource(s: RawSource): (r: Validated<KnowledgeSource>)
    ensures s.name.Some? ==> (r.Failure? <==> !Truthy(s.url) && !Truthy(s.path))
    ensures s.name.None? ==> r.Failure?
    ensures r.Failure? ==> |r.error| > 0
    ensures r.Success? ==>
      && Located(r.value)
      && r.value.name == s.name.value
      && r.value.description == s.description
      && r.value.url == s.url && r.value.path == s.path
      && r.value.metadata == GetOr(s.metadata, map[])
      && r.value.includes == GetOr(s.includes, [])
      && r.value.excludes == GetOr(s.excludes, [])
  {
    if s.name.None? then Failure([MissingField("name")])
    else if !Truthy(s.url) && !Truthy(s.path) then Failure([MissingLocation(s.name.value)])
    else Success(KnowledgeSource(
      s.name.value, s.description, s.url, s.path,
      GetOr(s.metadata, map[]), GetOr(s.includes, []), GetOr(s.excludes, [])))
  }

  /** All sources, in order; the issues of every rejected source are reported together. */
  function ValidateSources(raws: seq<RawSource>): (r: Validated<seq<KnowledgeSource>>)
    ensures r.Success? <==> forall i :: 0 <= i < |raws| ==> ValidateSource(raws[i]).Success?
    ensures r.Failure? ==> |r.error| > 0
    ensures r.Success? ==> |r.value| == |raws|
    ensures r.Success? ==> forall i :: 0 <= i < |raws| ==> r.value[i] == ValidateSource(raws[i]).value
    ensures forall i :: 0 <= i < |raws| && ValidateSource(raws[i]).Failure? ==>
      r.Failure? && forall k :: k in ValidateSource(raws[i]).error ==> k in r.error
    decreases |raws|
  {
    if |raws| == 0 then Success([])
    else
      var head := ValidateSource(raws[0]);
      var tail := ValidateSources(raws[1..]);
      assert forall i :: 1 <= i < |raws| ==> raws[i] == raws[1..][i - 1];
      if head.Success? && tail.Success? then Success([head.value] + tail.value)
      else Failure(IssuesOf(head) + IssuesOf(tail))
  }

  /** The knowledge section: the vector store location is required, the rest has defaults. */
  function ValidateKnowledge(k: RawKnowledge): (r: Validated<KnowledgeConfig>)
    ensures r.Success? <==>
      && k.vectorStoreUri.Some?
      && ValidateEmbedder(k.embedder).Success?
      && ValidateSources(GetOr(k.sources, [])).Success?
    ensures r.Failure? ==> |r.error| > 0
    ensures r.Success? ==>
      && r.value.enabled == GetOr(k.enabled, true)
      && r.value.vectorStoreUri == k.vectorStoreUri.value
      && r.value.embedder == ValidateEmbedder(k.embedder).value
      && r.value.tableName == GetOr(k.tableName, DefaultTableName)
      && r.value.sources == ValidateSources(GetOr(k.sources, [])).value
  {
    var embedder := ValidateEmbedder(k.embedder);
    var sources := ValidateSources(GetOr(k.sources, []));
    var issues := Required(k.vectorStoreUri, "knowledge.vector_store_uri") + IssuesOf(embedder) + IssuesOf(sources);
    if |issues| > 0 then Failure(issues)
    else Success(KnowledgeConfig(
      GetOr(k.enabled, true), k.vectorStoreUri.value, GetOr(k.tableName, DefaultTableName),
      embedder.value, sources.value))
  }

  /** The agent profile: description and instructions are required, the name has a default. */
  function ValidateAgent(a: RawAgent): (r: Validated<AgentProfile>)
    ensures r.Success? <==> a.description.Some? && a.instructions.Some?
    ensures r.Failure? ==> |r.error| > 0
    ensures r.Success? ==> r.value == AgentProfile(GetOr(a.name, DefaultAgentName), a.description.value, a.instructions.value)
  {
    var issues := Required(a.description, "agent.description") + Required(a.instructions, "agent.instructions");
    if |issues| > 0 then Failure(issues)
    else Success(AgentProfile(GetOr(a.name, DefaultAgentName), a.description.value, a.instructions.value))
  }

  /** The tools section: both lists pass through the normaliser; a missing section means no tools. */
  function ValidateTools(t: Option<RawTools>): (r: ToolConfig)
    ensures Normalised(r.enabled) && Normalised(r.optional)
    ensures t.None? ==> r == ToolConfig([], [])
    ensures t.Some? ==> r == ToolConfig(NormaliseEntries(t.value.enabled), NormaliseEntries(t.value.optional))
  {
    if t.None? then ToolConfig([], [])
    else ToolConfig(NormaliseEntries(t.value.enabled), NormaliseEntries(t.value.optional))
  }

  /** The self-improvement policy: `max_tool_changes` lies in 0..10 and defaults to 1. */
  function ValidateImprovement(p: Option<RawImprovement>): (r: Validated<SelfImprovementConfig>)
    ensures r.Success? <==>
      (p.None? || p.value.maxToolChanges.None? || MinToolChanges <= p.value.maxToolChanges.value <= MaxToolChanges)
    ensures r.Failure? ==> |r.error| > 0
    ensures r.Success? ==> MinToolChanges <= r.value.maxToolChanges <= MaxToolChanges
    ensures p.None? ==> r == Success(SelfImprovementConfig(true, DefaultGoal, DefaultMaxToolChanges, true, true))
    ensures r.Success? && p.Some? ==> r.value == SelfImprovementConfig(
      GetOr(p.value.enabled, true), GetOr(p.value.goal, DefaultGoal),
      GetOr(p.value.maxToolChanges, DefaultMaxToolChanges),
      GetOr(p.value.allowDisablingTools, true), GetOr(p.value.refreshOnStartup, true))
  {
    if p.None? then Success(SelfImprovementConfig(true, DefaultGoal, DefaultMaxToolChanges, true, true))
    else
      var limit := GetOr(p.value.maxToolChanges, DefaultMaxToolChanges);
      if !(MinToolChanges <= limit <= MaxToolChanges) then Failure([OutOfRange("self_improvement.max_tool_changes")])
      else Success(SelfImprovementConfig(
        GetOr(p.value.enabled, true), GetOr(p.value.goal, DefaultGoal), limit,
        GetOr(p.value.allowDisablingTools, true), GetOr(p.value.refreshOnStartup, true)))
  }

  /**
   * The whole schema: agent, model and knowledge sections are required, tools and
   * self_improvement have defaults; every issue of every section is reported.
   */
  function ValidateConfig(raw: RawConfig): (r: Validated<AgentConfig>)
    ensures r.Success? <==>
      && raw.agent.Some? && ValidateAgent(raw.agent.value).Success?
      && raw.model.Some? && ValidateModel(raw.model.value).Success?
      && raw.knowledge.Some? && ValidateKnowledge(raw.knowledge.value).Success?
      && ValidateImprovement(raw.selfImprovement).Success?
    ensures r.Failure? ==> |r.error| > 0
    ensures r.Success? ==> ValidConfig(r.value)
    ensures r.Success? ==> r.value == AgentConfig(
      ValidateAgent(raw.agent.value).value, ValidateModel(raw.model.value).value,
      ValidateKnowledge(raw.knowledge.value).value, ValidateTools(raw.tools),
      ValidateImprovement(raw.selfImprovement).value)
  {
    var agent := if raw.agent.Some? then ValidateAgent(raw.agent.value) else Failure([MissingField("agent")]);
    var model := if raw.model.Some? then ValidateModel(raw.model.value) else Failure([MissingField("model")]);
    var knowledge :=
      if raw.knowledge.Some? then ValidateKnowledge(raw.knowledge.value) else Failure([MissingField("knowledge")]);
    var improvement := ValidateImprovement(raw.selfImprovement);
    var issues := IssuesOf(agent) + IssuesOf(model) + IssuesOf(knowledge) + IssuesOf(improvement);
    if |issues| > 0 then Failure(issues)
    else
      var c := AgentConfig(agent.value, model.value, knowledge.value, ValidateTools(raw.tools), improvement.value);
      assert forall i :: 0 <= i < |c.knowledge.sources| ==> Located(c.knowledge.sources[i]) by {
        var raws := GetOr(raw.knowledge.value.sources, []);
        assert forall i :: 0 <= i < |c.knowledge.sources| ==>
          c.knowledge.sources[i] == ValidateSource(raws[i]).value;
      }
      Success(c)
  }

  /** A configuration naming a source with neither url nor path is rejected, and the issue names it. */
  lemma {:induction false} UnlocatedSourceRejected(raw: RawConfig, i: nat)
    requires raw.knowledge.Some? && raw.knowledge.value.sources.Some?
    requires i < |raw.knowledge.value.sources.value|
    requires var s := raw.knowledge.value.sources.value[i];
      s.name.Some? && !Truthy(s.url) && !Truthy(s.path)
    ensures ValidateConfig(raw).Failure?
    ensures MissingLocation(raw.knowledge.value.sources.value[i].name.value) in ValidateConfig(raw).error
  {
    var raws := raw.knowledge.value.sources.value;
    assert ValidateSource(raws[i]).error == [MissingLocation(raws[i].name.value)];
    assert MissingLocation(raws[i].name.value) in ValidateSources(raws).error;
    var k := ValidateKnowledge(raw.knowledge.value);
    assert MissingLocation(raws[i].name.value) in k.error;
  }

  // ---------------------------------------------------------------------------
  // Loaded configuration
  // ---------------------------------------------------------------------------

  /** A validated configuration with the file it came from and its workspace directory. */
  datatype LoadedConfig = LoadedConfig(config: AgentConfig, path: Path, workspaceDir: Path)

  /** `load_config` past reading the file: validate, and place the workspace next to the file. */
  function LoadParsed(raw: RawConfig, configFile: Path): (r: Validated<LoadedConfig>)
    ensures r.Success? <==> ValidateConfig(raw).Success?
    ensures r.Success? ==>
      && ValidConfig(r.value.config)
      && r.value.config == ValidateConfig(raw).value
      && r.value.path == configFile
      && Parent(r.value.workspaceDir) == Parent(configFile)
      && r.value.workspaceDir == WorkspaceDir(configFile)
  {
    var c := ValidateConfig(raw);
    var w := WorkspaceDir(configFile);
    if c.Failure? then Failure(c.error)
    else
      assert ValidConfig(c.value);
      Success(LoadedConfig(c.value, configFile, w))
  }
}
