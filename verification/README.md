# Self-evolving agent: configuration, catalog and improvement step

This project models the core of the self-evolving Agno agent demo in Dafny.

The agent is driven by a declarative configuration, held in a YAML file:
- a persona;
- a chat model provider;
- a knowledge base built from document sources;
- a list of enabled tools;
- a self-improvement policy.

A second persona, the improvement coordinator, answers with a structured
suggestion. The suggestion may carry new instructions, tools to enable or
disable, knowledge sources to refresh or add, and follow-up actions. The agent
folds the suggestion back into its configuration, refreshes the affected
knowledge, saves the file and rebuilds itself.

The model covers:

- **Config**: the configuration schema. It covers required fields, defaults,
  the provider enumerations, the temperature and tool-budget ranges, the rule
  that every knowledge source has a url or a path, and the tool-list
  normaliser. Loading validates a parsed document and places the workspace
  directory next to the configuration file.
- **Catalog**: the curated tool catalog, `instantiate_tools` with its two
  errors (unknown slug, missing knowledge base), and `describe_catalog`.
- **Improvement**: the suggestion records, their defaults, and
  `summarise_suggestion`. The summary is rendered through a structured `Line`
  datatype and can be read back line by line.
- **Refresh**: `refresh_knowledge`, modelled as the ordered list of
  `add_content` calls it issues.
- **Runtime**: `_build_runtime` and `_build_improvement_agent`. Framework
  objects are records of the arguments they are built from. The module also
  covers provider dispatch and the refresh issued at start-up.
- **Apply**: `_apply_suggestion` as a pure function from a configuration and
  a suggestion to the new configuration, a change flag and an ordered log of
  effects. The effects are the forced refreshes and the final
  save-and-rebuild. `run_self_improvement` takes the persona's answer as a
  parameter.
- **Basics, Lists, Text, Paths**: the Python semantics the core relies on.
  These are `x or None`, `list.remove`, `str.join`, `str.split`, `str.strip`,
  and `pathlib` parsing, `parent` and `/`.

Two consequences of the apply step as written are proved rather than assumed:
- Slugs enabled by a suggestion are stored as written. The tool-list
  normaliser runs only when a file is loaded, so a padded slug makes the saved
  configuration non-normalised (`Apply.PaddedSlugIsKeptAsWritten`).
- Enabling the `knowledge` tool while the knowledge section is disabled saves
  the change. The rebuild that follows then raises the missing-dependency
  error, and the cycle ends in that error
  (`Apply.KnowledgeToolWithoutBaseBreaksRebuild`).

Two further points about the code:
- `tools.enabled` is an ordered list, and a hand-written file may fill it with
  repeats. `list.remove` deletes only the first occurrence, so a disabled slug
  disappears only when the plan disables it as often as it occurs
  (`Apply.RemoveOneTakesFirst`, `Apply.RemoveTools`, `Apply.DisabledSlugAbsent`).
- An improvement cycle keeps every knowledge source located and source names
  unique, and leaves every other section unchanged
  (`Apply.ApplyKeepsSourcesSound`, `Apply.ApplySuggestion`). It keeps
  `ValidConfig`, whose tool lists must be normalised, only when the enabled
  slugs are normalised (`Apply.ApplyKeepsValid`); a padded slug breaks it
  (`Apply.PaddedSlugIsKeptAsWritten`). Reloading a normalised list leaves it
  unchanged (`Config.NormaliseFixesNormalised`).

## Model

| member | source | states |
|---|---|---|
| Basics.NonEmptyOrNone | cookbook/demo/self_evolving_agent/agent.py:232-233 | `include or None`: an empty list becomes None, any other list is kept as is |
| Basics.NonEmptyMapOrNone | cookbook/demo/self_evolving_agent/agent.py:231 | `metadata or None`: an empty mapping becomes None, any other mapping is kept as is |
| Text.LeadingSpace | cookbook/demo/self_evolving_agent/config.py:75 | the leading white space of a string: every character before the count is white space, and the one at the count is not |
| Text.Trim | cookbook/demo/self_evolving_agent/config.py:75 | `str.strip()`: the result is no longer than the input, has no white space at either end, and is empty exactly when the input is all white space |
| Text.TrimKeepsMiddle | cookbook/demo/self_evolving_agent/config.py:75 | the stripped text is the slice of the input that starts right after its leading white space and is followed only by white space, so exactly the white space at the edges is removed |
| Text.TrimIdempotent | cookbook/demo/self_evolving_agent/config.py:75 | stripping an already stripped entry changes nothing |
| Paths.Parse | cookbook/demo/self_evolving_agent/agent.py:37-39 | `Path(value)`: components are valid (no empty, "." or separator parts), and the path is absolute exactly when the text starts with "/" |
| Paths.ParseRender | cookbook/demo/self_evolving_agent/agent.py:240-241 | rendering a well-formed path with `str()` and parsing it again gives back the same path |
| Paths.ParseNormalForm | cookbook/demo/self_evolving_agent/agent.py:37-41 | a parsed path is in normal form: a further render-and-parse round leaves it unchanged |
| Paths.Parent | cookbook/demo/self_evolving_agent/agent.py:100 | `path.parent` keeps absoluteness and drops exactly the last component; a path with no components is its own parent |
| Paths.Child | cookbook/demo/self_evolving_agent/agent.py:94 | `dir / name` ends in `name` and has `dir` as its parent |
| Paths.ResolvePath | cookbook/demo/self_evolving_agent/agent.py:37-41 | an absolute value is kept as parsed; a relative value's components are appended to the base directory's; well-formedness is preserved |
| Paths.ResolveIsStable | cookbook/demo/self_evolving_agent/agent.py:37-41 | a path resolved against an absolute base is absolute, so rendering and resolving it again against any base returns it unchanged |
| Paths.WorkspaceDir | cookbook/demo/self_evolving_agent/config.py:127 | the workspace is a sibling of the configuration file, named "workspace" |
| Config.ParseModelProvider | cookbook/demo/self_evolving_agent/config.py:16 | the model provider is accepted exactly when it is one of the five literal names, and it maps back to the same name |
| Config.ParseEmbedderProvider | cookbook/demo/self_evolving_agent/config.py:24 | the embedder provider is accepted exactly for "openai" and "fastembed", and it maps back to the same name |
| Config.ProviderNamesRoundTrip | cookbook/demo/self_evolving_agent/config.py:13-25 | every provider value is saved under a name the schema accepts again as the same provider |
| Config.NormaliseList | cookbook/demo/self_evolving_agent/config.py:75 | the normalised list has no blank entry, every entry is stripped, and it is no longer than the input |
| Config.NormaliseEntries | cookbook/demo/self_evolving_agent/config.py:70-75 | a missing tool list becomes the empty list, and a present one is normalised |
| Config.NormaliseAppend | cookbook/demo/self_evolving_agent/config.py:75 | normalising works entry by entry and keeps order: normalising a concatenation concatenates the normalised parts |
| Config.NormaliseSingle | cookbook/demo/self_evolving_agent/config.py:75 | one entry is kept in its stripped form exactly when it is not blank |
| Config.NormaliseFixesNormalised | cookbook/demo/self_evolving_agent/config.py:70-75 | a list the normaliser could have produced is left unchanged by it |
| Config.NormaliseIdempotent | cookbook/demo/self_evolving_agent/config.py:70-75 | running the normaliser on its own output changes nothing, so saving and reloading keeps the tool lists |
| Config.ValidateModel | cookbook/demo/self_evolving_agent/config.py:13-18 | the model section is accepted iff the provider is one of the five names, the id is present, and any temperature lies in [0, 2]; the temperature defaults to 0; a rejection carries at least one issue |
| Config.ValidateEmbedder | cookbook/demo/self_evolving_agent/config.py:21-25 | the embedder section is accepted iff the provider (default "openai") is one of the two names; the model defaults to "text-embedding-3-small" |
| Config.ValidateSource | cookbook/demo/self_evolving_agent/config.py:28-43 | a named source is rejected exactly when both url and path are missing or empty; a source without a name is rejected; an accepted source keeps its fields |
| Config.ValidateSources | cookbook/demo/self_evolving_agent/config.py:53 | the source list is accepted iff every source is, keeps their order, and reports the issues of every rejected source |
| Config.ValidateKnowledge | cookbook/demo/self_evolving_agent/config.py:46-53 | the knowledge section is accepted iff the vector store uri is present and the embedder and every source are accepted; `enabled` defaults to true, the table name to "agno_docs"; the uri is the configured one, the embedder and sources are the validated ones |
| Config.ValidateAgent | cookbook/demo/self_evolving_agent/config.py:56-61 | the profile is accepted iff description and instructions are present; the name defaults to "Agno AutoPilot" |
| Config.ValidateTools | cookbook/demo/self_evolving_agent/config.py:64-75 | both tool lists come out normalised; a missing section gives two empty lists, and a present one gives its `enabled` and `optional` lists normalised |
| Config.ValidateImprovement | cookbook/demo/self_evolving_agent/config.py:78-90 | the policy is accepted iff any `max_tool_changes` lies in 0..10; a missing section gives the defaults (enabled, budget 1, disabling allowed, refresh on start-up) |
| Config.ValidateConfig | cookbook/demo/self_evolving_agent/config.py:93-100 | a configuration is accepted iff agent, model and knowledge are present and valid and the policy is valid; the accepted configuration is built from the validated sections, and it satisfies `ValidConfig` |
| Config.UnlocatedSourceRejected | cookbook/demo/self_evolving_agent/config.py:39-43 | a configuration with a named source that has neither url nor path is rejected, and the issue names that source |
| Config.LoadParsed | cookbook/demo/self_evolving_agent/config.py:118-130 | loading succeeds exactly when validation does; the result holds the validated configuration, remembers the file, and puts the workspace next to it |
| Catalog.CatalogWellFormed | cookbook/demo/self_evolving_agent/catalog.py:53-82 | each catalog key equals its descriptor's slug, keys are distinct, and only "knowledge" requires a knowledge base |
| Catalog.LookupIn | cookbook/demo/self_evolving_agent/catalog.py:95 | a lookup finds a descriptor exactly when some entry has that key, and what it returns is stored under that key |
| Catalog.Lookup | cookbook/demo/self_evolving_agent/catalog.py:95 | `TOOL_CATALOG.get` finds exactly the four slugs; the descriptor found has that slug and needs a knowledge base iff it is "knowledge" |
| Catalog.LookupAt | cookbook/demo/self_evolving_agent/catalog.py:95 | looking up a catalog key returns the descriptor registered under that key |
| Catalog.KnownSlugs | cookbook/demo/self_evolving_agent/catalog.py:94-98 | the reference list of instantiated slugs: exactly the requested slugs the catalog knows |
| Catalog.Instantiate | cookbook/demo/self_evolving_agent/catalog.py:85-107 | instantiation succeeds iff no requested slug is rejected (unknown when missing slugs are not allowed, or needing an absent knowledge base); the tools built are the known slugs in request order |
| Catalog.InstantiateReportsFirst | cookbook/demo/self_evolving_agent/catalog.py:94-104 | a failure reports the rejection of the first rejected slug, and every slug before it is acceptable |
| Catalog.KnowledgeToolNeedsBase | cookbook/demo/self_evolving_agent/catalog.py:101-104 | requesting "knowledge" without a knowledge base always fails; when unknown slugs are skipped, it fails with the missing dependency of "knowledge" |
| Catalog.KnowledgeToolStrictRequest | cookbook/demo/self_evolving_agent/tests/test_config.py:24-27 | instantiating ["knowledge"] without a knowledge base fails with the missing-dependency error |
| Catalog.UnknownSlugsSkipped | cookbook/demo/self_evolving_agent/catalog.py:95-98 | with a knowledge base and missing slugs allowed, instantiation always succeeds and builds exactly the known slugs |
| Catalog.UnknownSlugRaises | cookbook/demo/self_evolving_agent/catalog.py:96-99 | when missing slugs are not allowed, the first unknown slug, after only acceptable ones, is the error reported |
| Catalog.StrictKeepsEverySlug | cookbook/demo/self_evolving_agent/catalog.py:94-107 | a successful instantiation that does not allow missing slugs builds one tool per requested slug, in order |
| Catalog.Describe | cookbook/demo/self_evolving_agent/catalog.py:110-120 | one row per catalog entry, in catalog order, each with that entry's slug, title and description |
| Catalog.DescribeMatchesLookup | cookbook/demo/self_evolving_agent/catalog.py:110-120 | the rows have distinct slugs, each row's title and description are those the lookup finds, and a slug has a row iff the catalog knows it |
| Improvement.SummaryOnly | cookbook/demo/self_evolving_agent/improvement.py:34-41 | a suggestion built from only its summary has no instructions, empty plans and no follow-ups, as the defaults give |
| Improvement.PlanNames | cookbook/demo/self_evolving_agent/improvement.py:65 | the names of the planned sources, one per plan, in order |
| Improvement.FollowUpBlock | cookbook/demo/self_evolving_agent/improvement.py:68-70 | the follow-up block is ordered, comes after every other kind of line, and is empty exactly when there are no follow-ups |
| Improvement.SummaryLayout | cookbook/demo/self_evolving_agent/improvement.py:44-72 | the summary line comes first; line kinds appear in the fixed order; any follow-ups close the summary after their header, one line each, in order |
| Improvement.SummaryMember | cookbook/demo/self_evolving_agent/improvement.py:47-66 | a head line appears in the summary exactly when its field makes it appear |
| Improvement.SummaryShowsInstructions | cookbook/demo/self_evolving_agent/improvement.py:49-50 | the instructions line appears iff the suggestion carries non-empty instructions |
| Improvement.SummaryShowsEnable | cookbook/demo/self_evolving_agent/improvement.py:53-54 | the enable line appears iff the plan enables a tool; it is the only enable line and lists the slugs joined by ", " |
| Improvement.SummaryShowsDisable | cookbook/demo/self_evolving_agent/improvement.py:55-56 | the disable line appears iff the plan disables a tool; it is the only one and lists the slugs joined by ", " |
| Improvement.SummaryShowsRefresh | cookbook/demo/self_evolving_agent/improvement.py:59-63 | the refresh line appears iff the plan refreshes a source; it is the only one and lists the names joined by ", " |
| Improvement.SummaryShowsAdd | cookbook/demo/self_evolving_agent/improvement.py:64-66 | the add line appears iff the plan adds a source; it is the only one and lists the new sources' names joined by ", " |
| Improvement.Summarise | cookbook/demo/self_evolving_agent/improvement.py:44-72 | the text starts with "Summary: " and the summary; when no field holds a line break, it holds one exactly when there is more than one line |
| Improvement.SummaryOnlyRendersOneLine | cookbook/demo/self_evolving_agent/improvement.py:47-72 | a suggestion with only a summary renders as the single summary line |
| Improvement.ParseLineText | cookbook/demo/self_evolving_agent/improvement.py:47-70 | each rendered line is recognised again as the same line: the fixed prefixes do not overlap |
| Improvement.ParseTexts | cookbook/demo/self_evolving_agent/improvement.py:47-70 | reading back the texts of a list of lines gives the lines |
| Improvement.TextsSingleLine | cookbook/demo/self_evolving_agent/improvement.py:47-70 | when no field holds a line break, no rendered line does |
| Improvement.SummaryRoundTrip | cookbook/demo/self_evolving_agent/improvement.py:72 | when no field holds a line break, splitting the rendered summary on line breaks recovers exactly its lines |
| Refresh.CallFor | cookbook/demo/self_evolving_agent/agent.py:228-236 | one call carries the source's name and description; metadata and patterns are None when empty and the source's own values otherwise; `skip_if_exists` is the negation of force, and upsert is on |
| Refresh.PathTargetOf | cookbook/demo/self_evolving_agent/agent.py:239-241 | the path handed to the knowledge base parses back to the source path resolved against the configuration's directory |
| Refresh.SourceCalls | cookbook/demo/self_evolving_agent/agent.py:237-241 | a source gives a url call first when it has a url, then a path call when it has a path; it gives calls iff it is located; all are for that source under the force policy |
| Refresh.SelectedCalls | cookbook/demo/self_evolving_agent/agent.py:224-241 | every call is for a source the filter selects, under the force policy |
| Refresh.RefreshCalls | cookbook/demo/self_evolving_agent/agent.py:217-241 | no knowledge base means no calls; with a base, the calls are those of the sources the name filter selects, in configuration order, under the force policy |
| Refresh.SelectedCallsAppend | cookbook/demo/self_evolving_agent/agent.py:224-241 | sources are visited in configuration order: the calls for two lists of sources are the calls for the first, then those for the second |
| Refresh.NoMatchNoCalls | cookbook/demo/self_evolving_agent/agent.py:225-226 | a non-empty filter that names no configured source issues no call |
| Refresh.SelectedCallsAt | cookbook/demo/self_evolving_agent/agent.py:224-241 | each source's calls sit between those of the sources before and after it, exactly when the filter selects it; an empty filter selects all |
| Refresh.FreshSourceCalls | cookbook/demo/self_evolving_agent/agent.py:293-294 | refreshing a newly appended source by its unused name issues exactly that source's calls |
| Runtime.CreateModel | cookbook/demo/self_evolving_agent/agent.py:44-56 | a chat model is built iff the provider name is supported, with the configured id and temperature; otherwise the error names the provider |
| Runtime.CreateEmbedder | cookbook/demo/self_evolving_agent/agent.py:59-65 | an embedder is built iff the provider is "openai" or "fastembed"; otherwise the error names the provider |
| Runtime.DispatchAcceptsSchemaProviders | cookbook/demo/self_evolving_agent/agent.py:44-65 | every provider the schema accepts is dispatched to its own client, so the dispatch errors cannot happen for a validated configuration |
| Runtime.BuildKnowledge | cookbook/demo/self_evolving_agent/agent.py:97-112 | the vector store lies at the configured uri resolved against the configuration's directory, with the configured table and embedder |
| Runtime.BuildRuntime | cookbook/demo/self_evolving_agent/agent.py:92-134 | building succeeds iff the enabled tools can be instantiated; a knowledge base exists iff knowledge is enabled; the agent gets the configured instructions and the known enabled tools; the improvement persona gets the coordinator briefing, is named with " - Improvement", shares the model and gets the knowledge tool iff there is a base; the database is the file "agent_state.db" in the workspace |
| Runtime.BuildFailsOnlyForKnowledgeTool | cookbook/demo/self_evolving_agent/agent.py:114-115 | building fails exactly when "knowledge" is enabled as a tool while the knowledge section is disabled, and the error is its missing dependency |
| Runtime.StartupRefresh | cookbook/demo/self_evolving_agent/agent.py:78-79 | start-up issues no call unless the policy asks for it and there is a knowledge base; when both hold, it issues the full refresh of every source, without force |
| Runtime.Start | cookbook/demo/self_evolving_agent/agent.py:71-79 | construction succeeds iff the runtime builds; without knowledge or without refresh on start-up no call is issued, and with both the full non-forced refresh is issued |
| Runtime.ImprovementGoal | cookbook/demo/self_evolving_agent/agent.py:247 | the caller's goal when given and non-empty, otherwise the configured goal |
| Apply.Fresh | cookbook/demo/self_evolving_agent/agent.py:270-271 | the reference list of additions: the plan's slugs not yet enabled, each once |
| Apply.AddTools | cookbook/demo/self_evolving_agent/agent.py:267-274 | the addition loop only appends: the enabled list is a prefix of the result |
| Apply.AddToolsAppendsFresh | cookbook/demo/self_evolving_agent/agent.py:267-274 | the addition loop appends exactly the first `max_tool_changes` fresh slugs of the plan, in plan order |
| Apply.AdditionsBounded | cookbook/demo/self_evolving_agent/agent.py:268-274 | at most the budget of slugs is added, none twice, each from the plan and not enabled before |
| Apply.RemoveTools | cookbook/demo/self_evolving_agent/agent.py:276-279 | the removal loop takes each planned slug out once when present: the result is the enabled multiset minus the planned one |
| Apply.RemoveOneTakesFirst | cookbook/demo/self_evolving_agent/agent.py:277-279 | disabling a slug once deletes its first occurrence: the result is the list with exactly the entry at the first index of that slug cut out |
| Apply.RemoveToolsShrinks | cookbook/demo/self_evolving_agent/agent.py:276-279 | removal never grows the list, and shrinks it exactly when some planned slug is enabled |
| Apply.RemoveToolsKeepsOrder | cookbook/demo/self_evolving_agent/agent.py:276-279 | slugs the plan does not remove keep their relative order |
| Apply.RemoveToolsIdentity | cookbook/demo/self_evolving_agent/agent.py:276-279 | when no planned slug is enabled, removal leaves the list unchanged |
| Apply.ToSource | cookbook/demo/self_evolving_agent/agent.py:286-292 | the new configuration entry copies the plan's name, url, path, description and metadata, with no include or exclude patterns |
| Apply.AddSources | cookbook/demo/self_evolving_agent/agent.py:282-295 | the source loop only appends: the configured sources are a prefix of the result; which entries follow them, and in what order, is stated by `Apply.AppendedIsNewPlans` |
| Apply.NewPlans | cookbook/demo/self_evolving_agent/agent.py:282-285 | the reference list of plans the loop takes: each is from the plan list, has a url or a path, and has a name that was not yet present |
| Apply.AppendedIsNewPlans | cookbook/demo/self_evolving_agent/agent.py:282-293 | the sources the loop appends are exactly the entries built from the taken plans, in plan order, with the first plan of each new name winning |
| Apply.FirstPlanOfNameWins | cookbook/demo/self_evolving_agent/agent.py:283 | of two located plans with the same new name, only the first is added |
| Apply.AddSourcesEffects | cookbook/demo/self_evolving_agent/agent.py:282-295 | the source loop logs one forced refresh per appended source, in the order of the appends |
| Apply.AddedRefreshIssued | cookbook/demo/self_evolving_agent/agent.py:293-294 | the refresh issued right after an append, by the new name alone, covers exactly the new source |
| Apply.AppendedAreNew | cookbook/demo/self_evolving_agent/agent.py:283-285 | every appended source is located, has no patterns, and has a name no source had before |
| Apply.AppendedDistinct | cookbook/demo/self_evolving_agent/agent.py:283 | no two appended sources share a name, even when the plan repeats one |
| Apply.AddSourcesComplete | cookbook/demo/self_evolving_agent/agent.py:282-293 | afterwards every plan with a url or a path names a source, whether it was added or was already there |
| Apply.AppendedFromPlans | cookbook/demo/self_evolving_agent/agent.py:286-293 | every appended source is the entry built from some plan |
| Apply.ToolStep | cookbook/demo/self_evolving_agent/agent.py:267-280 | the tool half gives the planned list, and reports a change exactly when a slug is added or a permitted removal hits an enabled slug |
| Apply.SourceStep | cookbook/demo/self_evolving_agent/agent.py:282-298 | the source half grows the list by the appended sources and never saves |
| Apply.SourceStepEffects | cookbook/demo/self_evolving_agent/agent.py:282-298 | the source half's log is the forced refresh of each appended source, then the planned refresh over the grown list when the plan names sources |
| Apply.ApplySuggestion | cookbook/demo/self_evolving_agent/agent.py:260-302 | instructions are replaced only by non-empty ones; tools follow the plan; sources grow by the appended ones; nothing else in the configuration changes; a change is reported exactly when one of those happened; save-and-rebuild is logged iff there was a change, and last |
| Apply.ApplyEffectsInOrder | cookbook/demo/self_evolving_agent/agent.py:282-302 | the log is one forced refresh per appended source, then the planned refresh over the grown list, then save-and-rebuild when something changed |
| Apply.NoChangeNoEffect | cookbook/demo/self_evolving_agent/agent.py:300-302 | without a change, the configuration is returned as it was and nothing is saved or rebuilt |
| Apply.SummaryOnlyIsNoOp | cookbook/demo/self_evolving_agent/agent.py:260-302 | a suggestion with only a summary changes nothing and logs no effect at all |
| Apply.DisableGate | cookbook/demo/self_evolving_agent/agent.py:275 | with disabling not allowed, the enabled list is the list after additions and never shrinks |
| Apply.DisabledSlugAbsent | cookbook/demo/self_evolving_agent/agent.py:275-279 | a slug disabled at least as often as it was enabled is absent afterwards, even when the same plan also enables it |
| Apply.UnmentionedToolsKeepOrder | cookbook/demo/self_evolving_agent/agent.py:267-280 | enabled tools the plan does not mention stay enabled, in their relative order |
| Apply.ApplyKeepsSourcesSound | cookbook/demo/self_evolving_agent/agent.py:282-293 | applying keeps every source located, and keeps source names unique when they were unique before |
| Apply.PlannedToolsFrom | cookbook/demo/self_evolving_agent/agent.py:267-280 | every slug enabled after the plan was enabled before or is named in the plan |
| Apply.PlannedToolsNormalised | cookbook/demo/self_evolving_agent/agent.py:270-279 | the tool plan keeps the enabled list normalised when the slugs it enables are normalised |
| Apply.ApplyKeepsValid | cookbook/demo/self_evolving_agent/agent.py:260-302 | applying a suggestion whose enabled slugs are normalised keeps a valid configuration valid |
| Apply.PaddedSlugIsKeptAsWritten | cookbook/demo/self_evolving_agent/agent.py:270-272 | the normalisation proviso is needed: a padded slug is enabled as written, and the resulting configuration is not one the schema would produce |
| Apply.BudgetAndDisableScenario | cookbook/demo/self_evolving_agent/agent.py:267-302 | with "calculator" enabled and a budget of one, enabling "python" and "shell" and disabling "calculator" leaves exactly "python" and only saves and rebuilds |
| Apply.RunSelfImprovement | cookbook/demo/self_evolving_agent/agent.py:204-215 | a cycle is refused when self-improvement is disabled and rejected when the answer is not a suggestion; otherwise the suggestion is applied with the current knowledge base; when something changed the runtime is rebuilt from the new configuration, and a failed rebuild ends the cycle in that error after the save; when nothing changed the runtime is kept |
| Apply.NewInstructionsReachAgent | cookbook/demo/self_evolving_agent/agent.py:263-302 | after a completed cycle with non-empty new instructions, the rebuilt agent is built with exactly those instructions |
| Apply.KnowledgeToolWithoutBaseBreaksRebuild | cookbook/demo/self_evolving_agent/agent.py:300-302 | enabling "knowledge" while the knowledge section is disabled logs the save, and the cycle then ends in the rebuild's missing-dependency error |

## Left out

- Reading and writing the YAML file, and the existence check on it, are left out. Loading starts from an already parsed document (`RawConfig`). Saving is the `SaveAndRebuild` effect.
- `cli.py` is not part of this model. It is a command-line front end.
- `Path.resolve()` is left out. Collapsing "..", following symlinks and anchoring at the working directory need a file system. Resolution is modelled as the purely lexical join.
- The `mkdir` calls for the workspace and the vector store directory are left out. They are file-system effects.
- Only POSIX path semantics are modelled: "/" is the one separator and a leading "/" makes a path absolute. Windows paths (drives, backslashes) are left out.
- pathlib's special case of exactly two leading slashes is left out. Such a path is parsed like one with a single leading slash.
- Type errors in the YAML are left out: wrong value types, and an explicit null for a non-optional field. They are pydantic coercion behaviour. A field is either present with the right type or missing.
- The temperature is a Dafny `real` rather than a floating-point number. Only its range check matters to the core.
- The texts of the two prompts are left out: the improvement instructions with the catalog and knowledge listings, and the improvement prompt. They are free-form prose handed to the language model. Only the goal they state is modelled (`Runtime.ImprovementGoal`).
- Running either persona is left out. The language model call and `chat` streaming are external. The improvement persona's answer is a parameter of `Apply.RunSelfImprovement`.
- Framework objects (models, embedders, vector store, database, toolkits, agents) are records of the arguments the core decides. An agent record holds its name, description, instructions, model, tools and whether it searches knowledge. The knowledge base and the database file are held once, in the runtime record. Their behaviour is outside the core.
- The coordinator briefing is a tag (`CoordinatorBriefing`), not its text. The text lists the catalog and the knowledge sources for the language model.
- Ingestion itself, and what happens when an `add_content` call fails part-way, are left out. Refresh is the list of calls it would issue.
- The truthiness of a `Knowledge` object is taken to be "not None". The runtime's knowledge base is modelled as an `Option`.
- `list_enabled_tools` is left out. It returns a copy of the enabled list and states nothing beyond it.
- The `ToolContext.workspace_dir` passed to the python and shell factories is left out. Toolkits are identified by slug only.
