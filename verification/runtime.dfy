/**
 * Building the runtime from a loaded configuration: provider dispatch for the
 * chat model and the embedder, the optional knowledge base, the tools of the
 * main agent and of the improvement persona, the state database, and the
 * refresh issued at start-up. Framework objects are records of the arguments
 * they are built from.
 */
module Runtime {
  import opened Basics
  import opened Paths
  import opened Config
  import opened Catalog
  import opened Refresh

  /** A chat model client and the arguments it was built with. */
  datatype ChatModel = ChatModel(provider: ModelProvider, id: string, temperature: real)

  /** An embedder client and the model it was built with. */
  datatype Embedder = Embedder(provider: EmbedderProvider, model: string)

  /** The knowledge base: a hybrid-search vector table with its embedder. */
  datatype KnowledgeBase = KnowledgeBase(name: string, description: string, vectorUri: Path, tableName: string, embedder: Embedder)

  /**
   * An agent's instructions: the configured text, or the briefing generated for
   * the improvement coordinator from the configuration and the catalog (its
   * wording is not modelled).
   */
  datatype Instructions = Configured(text: string) | CoordinatorBriefing

  /** An agent as constructed: identity, instructions, model, tools and whether it searches the knowledge base. */
  datatype AgentSpec = AgentSpec(
    name: string,
    description: string,
    instructions: Instructions,
    model: ChatModel,
    tools: seq<ToolInstance>,
    searchKnowledge: bool)

  datatype AgentRuntime = AgentRuntime(
    agent: AgentSpec,
    improvementAgent: AgentSpec,
    knowledge: Option<KnowledgeBase>,
    dbFile: Path)

  datatype RuntimeError =
    | UnsupportedModelProvider(provider: string)
    | UnsupportedEmbedderProvider(provider: string)
    | ToolFailure(error: CatalogError)
    | ImprovementDisabled
    | UnexpectedPayload

  const KnowledgeName: string := "Agno Framework Docs"
  const KnowledgeDescription: string := "Aggregated documentation sources for the Agno framework."
  const DbFileName: string := "agent_state.db"
  const ImprovementSuffix: string := " - Improvement"
  const ImprovementDescription: string := "Coordinates self-improvement cycles."

  /** `_create_model`: one client class per supported provider name; any other name raises. */
  function CreateModel(provider: string, id: string, temperature: real): (r: Result<ChatModel, RuntimeError>)
    ensures r.Success? <==> provider in ModelProviderNames
    ensures r.Success? ==> ModelProviderName(r.value.provider) == provider
    ensures r.Success? ==> r.value.id == id && r.value.temperature == temperature
    ensures r.Failure? ==> r.error == UnsupportedModelProvider(provider)
  {
    match ParseModelProvider(provider)
    case Some(p) => Success(ChatModel(p, id, temperature))
    case None => Failure(UnsupportedModelProvider(provider))
  }

  /** `_create_embedder`: "openai" and "fastembed" are supported; any other name raises. */
  function CreateEmbedder(provider: string, model: string): (r: Result<Embedder, RuntimeError>)
    ensures r.Success? <==> provider in EmbedderProviderNames
    ensures r.Success? ==> EmbedderProviderName(r.value.provider) == provider && r.value.model == model
    ensures r.Failure? ==> r.error == UnsupportedEmbedderProvider(provider)
  {
    match ParseEmbedderProvider(provider)
    case Some(p) => Success(Embedder(p, model))
    case None => Failure(UnsupportedEmbedderProvider(provider))
  }

  /** The dispatch accepts every provider the schema accepts, and builds that provider's client. */
  lemma DispatchAcceptsSchemaProviders(c: AgentConfig)
    ensures CreateModel(ModelProviderName(c.model.provider), c.model.id, c.model.temperature)
      == Success(ChatModel(c.model.provider, c.model.id, c.model.temperature))
    ensures CreateEmbedder(EmbedderProviderName(c.knowledge.embedder.provider), c.knowledge.embedder.model)
      == Success(Embedder(c.knowledge.embedder.provider, c.knowledge.embedder.model))
  {
    ProviderNamesRoundTrip(c.model.provider, c.knowledge.embedder.provider);
  }

  /** The knowledge base of an enabled knowledge section: its vector store lies relative to the configuration file. */
  function BuildKnowledge(k: KnowledgeConfig, configPath: Path): (kb: KnowledgeBase)
    ensures kb.vectorUri == ResolvePath(Parent(configPath), k.vectorStoreUri)
    ensures kb.tableName == k.tableName
    ensures kb.embedder.provider == k.embedder.provider && kb.embedder.model == k.embedder.model
  {
    ProviderNamesRoundTrip(OpenAI, k.embedder.provider);
    var e := CreateEmbedder(EmbedderProviderName(k.embedder.provider), k.embedder.model).value;
    KnowledgeBase(KnowledgeName, KnowledgeDescription, ResolvePath(Parent(configPath), k.vectorStoreUri), k.tableName, e)
  }

  /**
   * `_build_runtime` with `_build_improvement_agent`: the knowledge base exists
   * iff knowledge is enabled; the main agent gets the enabled tools, unknown
   * slugs skipped; the improvement persona gets the knowledge tool iff there is
   * a knowledge base. Building fails only when a tool needs a knowledge base
   * that is not there.
   */
  function BuildRuntime(loaded: LoadedConfig): (r: Result<AgentRuntime, RuntimeError>)
    ensures var c := loaded.config;
      r.Success? <==> Instantiate(c.tools.enabled, c.knowledge.enabled, true).Success?
    ensures r.Failure? ==> r.error.ToolFailure?
    ensures r.Success? ==> (r.value.knowledge.Some? <==> loaded.config.knowledge.enabled)
    ensures r.Success? && r.value.knowledge.Some? ==> r.value.knowledge.value == BuildKnowledge(loaded.config.knowledge, loaded.path)
    ensures r.Success? ==> Slugs(r.value.agent.tools) == KnownSlugs(loaded.config.tools.enabled)
    ensures r.Success? ==> r.value.agent.searchKnowledge == loaded.config.knowledge.enabled
    ensures r.Success? ==> r.value.agent.instructions == Configured(loaded.config.agent.instructions)
    ensures r.Success? ==> r.value.improvementAgent.instructions == CoordinatorBriefing
    ensures r.Success? ==> Slugs(r.value.improvementAgent.tools) == (if loaded.config.knowledge.enabled then [KnowledgeSlug] else [])
    ensures r.Success? ==> r.value.improvementAgent.searchKnowledge == loaded.config.knowledge.enabled
    ensures r.Success? ==> r.value.improvementAgent.name == loaded.config.agent.name + ImprovementSuffix
    ensures r.Success? ==> r.value.agent.model == r.value.improvementAgent.model
    ensures r.Success? ==> Parent(r.value.dbFile) == loaded.workspaceDir
    ensures r.Success? ==> r.value.dbFile == Child(loaded.workspaceDir, DbFileName)
  {
    var c := loaded.config;
    ProviderNamesRoundTrip(c.model.provider, c.knowledge.embedder.provider);
    var model := CreateModel(ModelProviderName(c.model.provider), c.model.id, c.model.temperature).value;
    var dbFile := Child(loaded.workspaceDir, DbFileName);
    var knowledge := if c.knowledge.enabled then Some(BuildKnowledge(c.knowledge, loaded.path)) else None;
    match Instantiate(c.tools.enabled, knowledge.Some?, true)
    case Failure(e) => Failure(ToolFailure(e))
    case Success(tools) =>
      var improvementTools := if knowledge.Some? then Instantiate([KnowledgeSlug], true, true).value else [];
      assert knowledge.Some? ==> Slugs(improvementTools) == KnownSlugs([KnowledgeSlug]);
      assert KnownSlugs([KnowledgeSlug]) == [KnowledgeSlug] by {
        assert ToolCatalog[0].0 == KnowledgeSlug;
        assert Known(KnowledgeSlug);
      }
      var agent := AgentSpec(c.agent.name, c.agent.description, Configured(c.agent.instructions), model, tools, c.knowledge.enabled);
      var improvement := AgentSpec(c.agent.name + ImprovementSuffix, ImprovementDescription, CoordinatorBriefing, model,
        improvementTools, knowledge.Some?);
      Success(AgentRuntime(agent, improvement, knowledge, dbFile))
  }

  /** The only way building fails: "knowledge" is enabled as a tool while the knowledge section is disabled. */
  lemma BuildFailsOnlyForKnowledgeTool(loaded: LoadedConfig)
    ensures BuildRuntime(loaded).Failure? <==>
      (KnowledgeSlug in loaded.config.tools.enabled && !loaded.config.knowledge.enabled)
    ensures BuildRuntime(loaded).Failure? ==> BuildRuntime(loaded).error == ToolFailure(MissingDependency(KnowledgeSlug))
  {
    var c := loaded.config;
    if KnowledgeSlug in c.tools.enabled && !c.knowledge.enabled {
      KnowledgeToolNeedsBase(c.tools.enabled, true);
    } else {
      forall i | 0 <= i < |c.tools.enabled|
        ensures Rejection(c.tools.enabled[i], c.knowledge.enabled, true).None?
      {
        assert c.tools.enabled[i] in c.tools.enabled;
      }
    }
  }

  /** The refresh issued at start-up: every source, nothing skipped, when enabled and there is a knowledge base. */
  function StartupRefresh(loaded: LoadedConfig, runtime: AgentRuntime): (r: seq<IngestCall>)
    ensures !loaded.config.selfImprovement.refreshOnStartup || runtime.knowledge.None? ==> r == []
    ensures loaded.config.selfImprovement.refreshOnStartup && runtime.knowledge.Some? ==>
      r == RefreshCalls(loaded.config.knowledge.sources, None, false, true, loaded.path)
    ensures forall c :: c in r ==> c.skipIfExists && c.upsert
  {
    if loaded.config.selfImprovement.refreshOnStartup && runtime.knowledge.Some? then
      RefreshCalls(loaded.config.knowledge.sources, None, false, true, loaded.path)
    else []
  }

  /** Constructing the agent: build the runtime, then the start-up refresh. */
  function Start(loaded: LoadedConfig): (r: Result<(AgentRuntime, seq<IngestCall>), RuntimeError>)
    ensures r.Success? <==> BuildRuntime(loaded).Success?
    ensures r.Success? ==> r.value.0 == BuildRuntime(loaded).value
    ensures r.Success? && (!loaded.config.knowledge.enabled || !loaded.config.selfImprovement.refreshOnStartup) ==> r.value.1 == []
    ensures r.Success? && loaded.config.knowledge.enabled && loaded.config.selfImprovement.refreshOnStartup ==>
      r.value.1 == RefreshCalls(loaded.config.knowledge.sources, None, false, true, loaded.path)
  {
    match BuildRuntime(loaded)
    case Failure(e) => Failure(e)
    case Success(runtime) => Success((runtime, StartupRefresh(loaded, runtime)))
  }

  /** The goal the improvement prompt states: the caller's when given and non-empty, else the configured one. */
  function ImprovementGoal(goal: Option<string>, c: AgentConfig): (r: string)
    ensures Truthy(goal) ==> r == goal.value
    ensures !Truthy(goal) ==> r == c.selfImprovement.goal
  {
    if Truthy(goal) then goal.value else c.selfImprovement.goal
  }
}
