# ANUS agent core: a Dafny model

This project models the decision and bookkeeping core of the ANUS agent
framework:

- **HybridAgent** scores the complexity of a task and picks a path.
  - Below 3.0 the task runs on the agent's own `ToolAgent` base.
  - From 3.0 on, a "calculate ..." task first tries a direct calculator
    short-cut.
  - Otherwise a fixed pipeline of four specialised agents runs: researcher,
    planner, executor and critic. Each stage's prompt embeds the previous
    stage's result. The executor's answer becomes the final answer.
- **AgentOrchestrator** resolves the execution mode from its configuration
  and hands the task to its primary HybridAgent through an executor thread.
  It is meant to keep an append-only task history. As written, the executor
  call always raises before the agent runs, so no history is ever recorded
  (see "## Findings"). The model holds both the code as written and the
  intended call.
- **ModelRouter** keeps named model instances and model classes by
  provider. It builds models from configuration dicts with a two-step
  fallback, and memoises the default model. It also lists what is available.
- **GeminiModel** flattens a system message and a conversation into one
  text prompt for the Gemini SDK. Its tool-calling entry point falls back to
  the same call.

Modules, one per source file plus two shared ones:

- `PyValues` (`values.dfy`): Python values, dicts as maps, the exceptions,
  `Option`, `Result`.
- `Text` (`text.dfy`): `str.isspace`, `str.isalnum`, `str.lower`, `in` on
  strings and `str.split()`, on ASCII.
- `Complexity` (`complexity.dfy`): the complexity score as a function.
- `HybridAgents` (`hybrid_agent.dfy`): `ToolAgent`, the collaborators a
  hybrid agent calls, the pipeline specification and the `HybridAgent`
  class.
- `Orchestration` (`orchestrator.dfy`), `ModelRouting` (`model_router.dfy`)
  and `Gemini` (`gemini_model.dfy`).

### Modelling choices

- **The score is counted in tenths.** Every weight in the source is a
  multiple of 0.1:

  | signal | score |
  |---|---|
  | a pattern match | 10, 15, 20 or 25 |
  | a word | 1 |
  | a special character | 2 |
  | a tool category | 15 |

  The cap 10.0 is 100 and the threshold 3.0 is 30.
- **Pattern matching is modelled directly.** Each regular expression of the
  operations table is a list of alternatives. An alternative is a sequence of
  literals and `\s+` runs. `re.findall` scans left to right, takes the first
  alternative that matches at each position and resumes after the match.
  `CountFrom` computes this. The lemmas `NoMatchSkips` and
  `FirstMatchCounted` state it: positions without a match add nothing, and
  the leftmost match counts once, with the scan resuming at its end.
- **Collaborators outside the core are parameters.** These are the
  `ToolAgent` reasoning (`execute`, `_decide_action`, `_execute_action`),
  Python's `str()` of a dict, the model classes' constructors and their
  `model_name` and `get_model_details`, and the Gemini SDK call. They are
  functions in a `Runtime`, a `Backend` or an `Sdk`.
- **A ghost `trace` records the calls a HybridAgent makes, in order.** It
  holds base executions, the action decision, the action execution and each
  stage with its prompt. The contracts say which calls happen on each path.
- **`execute` is proved against `Dispatch`.** The method's result equals
  `Dispatch` applied to the agent and its registry after the call. The
  lemmas about `Dispatch`, `FastPath`, `RunStages` and `MultiResult` carry
  its properties.

### Behaviour of the code worth knowing

- **Failures propagate.** Neither `add_specialized_agent` nor
  `_execute_multi_agent` catches an error from the agent constructor. A
  role is never skipped because its agent could not be built; the whole
  call raises. `execute_task` raises AttributeError when the "agent"
  section of the configuration is not a dict.
- **The score is not monotonic.** Adding a trigger phrase can lower it,
  because the scan is leftmost and non-overlapping: a phrase inserted inside
  an existing match breaks that match. For example, "all" inserted into
  "most" trades a 1.5 match for a 1.0 one. No monotonicity is claimed.
- **Words weigh 0.1 each.** "search for information" has three words, so
  they add 0.3.
- **The two bugs under "## Findings" are modelled both ways.** The members
  in the "## Model" table use the corrected behaviour unless their row says
  "as written". Each method that relies on a correction has a line under
  "## Left out".

## Model

| member | source | states |
|---|---|---|
| Text.Split | anus/core/agent/hybrid_agent.py:94 | `str.split()` yields only non-empty words without whitespace |
| Text.SplitCountsWordStarts | anus/core/agent/hybrid_agent.py:94-95 | the number of words is the number of places where a non-space follows a space or the start |
| Text.SplitKeepsText | anus/core/agent/hybrid_agent.py:94 | the words, concatenated, are the task with all whitespace removed: no text is lost or invented |
| Text.IsSubstringIff | anus/core/agent/hybrid_agent.py:110 | the recursive `kw in s` holds exactly when `kw` occurs at some index of `s` |
| Complexity.MatchAt | anus/core/agent/hybrid_agent.py:90-92 | a pattern match at an index ends within the text and consumes at least one character |
| Complexity.CountFromBound | anus/core/agent/hybrid_agent.py:90-92 | a scan from index i finds at most as many matches as characters remain after i |
| Complexity.AlternativeMatches | anus/core/agent/hybrid_agent.py:77-91 | a pattern matches at an index as soon as any one of its alternatives does |
| Complexity.NoMatchSkips | anus/core/agent/hybrid_agent.py:90-92 | positions where no alternative matches add nothing to the count |
| Complexity.FirstMatchCounted | anus/core/agent/hybrid_agent.py:90-92 | the leftmost match from the scan position counts once, and the scan resumes at its end |
| Complexity.MatchIsCounted | anus/core/agent/hybrid_agent.py:91-92 | a match at the scan position is counted by `findall` |
| Complexity.RowContributes | anus/core/agent/hybrid_agent.py:90-92 | each row of the operations table adds its weight times its own match count |
| Complexity.RowsContribute | anus/core/agent/hybrid_agent.py:90-92 | two rows matching the same text both count: rows are scored independently |
| Complexity.EvaluateCountsTwice | anus/core/agent/hybrid_agent.py:77-92 | "evaluate" belongs to the 1.0 row and the 2.0 row, so a task starting with it scores at least 3.0 from patterns alone |
| Complexity.OperationsWellFormed | anus/core/agent/hybrid_agent.py:77-88 | no pattern of the table can match the empty string |
| Complexity.ScoreInRange | anus/core/agent/hybrid_agent.py:115 | the score lies in 0.0..10.0 and equals the raw sum when that is at most 10.0 |
| Complexity.NothingMatchesEmpty | anus/core/agent/hybrid_agent.py:90-92 | no pattern matches in an empty task |
| Complexity.NoKeywordInEmpty | anus/core/agent/hybrid_agent.py:110 | no non-empty keyword occurs in an empty task |
| Complexity.NoCategoryInEmpty | anus/core/agent/hybrid_agent.py:107-111 | an empty task needs no tool category |
| Complexity.EmptyTaskScoresZero | anus/core/agent/hybrid_agent.py:74-115 | the empty task scores 0.0 |
| Complexity.AnyKeywordIff | anus/core/agent/hybrid_agent.py:110 | a category is hit exactly when one of its keywords is a substring of the lower-cased task |
| Complexity.CategoryHitsBound | anus/core/agent/hybrid_agent.py:107-113 | at most one 1.5 per category |
| Complexity.CategoryHitsOnlyWhich | anus/core/agent/hybrid_agent.py:107-111 | the tool signal depends only on which categories are hit |
| Complexity.CategoryHitsZeroIff | anus/core/agent/hybrid_agent.py:107-111 | the tool signal is zero exactly when no category is hit |
| Complexity.SpecialCountAppend | anus/core/agent/hybrid_agent.py:97 | the special-character count is additive over concatenation |
| Complexity.SpecialCountBound | anus/core/agent/hybrid_agent.py:97 | at most one special character per character of the task |
| HybridAgents.ConstructorArgsAsWritten | anus/core/agent/hybrid_agent.py:59-60 | as written, the agent constructor raises TypeError exactly when the config has a "name" key |
| HybridAgents.ConstructorArgs | anus/core/agent/hybrid_agent.py:59-60 | intended: the agent is named `config["name"]`, else "ROLE-agent", and receives every other key of the config unchanged |
| HybridAgents.DefaultAgentCrashesAsWritten | anus/core/agent/hybrid_agent.py:170-175 | as written, creating the default agent for any missing role raises TypeError |
| HybridAgents.DefaultAgentCorrected | anus/core/agent/hybrid_agent.py:170-175 | intended: a default agent is named "ROLE-agent" and gets exactly the `tools` option |
| HybridAgents.CorrectionConservative | anus/core/agent/hybrid_agent.py:59-60 | for a config without "name", the correction behaves as the code does |
| HybridAgents.StagesInOrder | anus/core/agent/hybrid_agent.py:177-197 | the pipeline runs exactly four stages: researcher, planner, executor, critic |
| HybridAgents.PromptsChain | anus/core/agent/hybrid_agent.py:178-197 | every stage prompt contains the task; each later prompt ends with `str()` of the previous stage's result |
| HybridAgents.MultiResultShape | anus/core/agent/hybrid_agent.py:202-207 | the full-path result has mode "multi", the task, and exactly the four role results with the executor's under "executor" |
| HybridAgents.AnswerSelection | anus/core/agent/hybrid_agent.py:202-204 | the answer is the executor's "answer", else `str()` of its result, and "No answer" for an empty or missing result |
| HybridAgents.KeywordsDoNotChoosePath | anus/core/agent/hybrid_agent.py:128-137 | only the task chooses the path; below 3.0 the keyword arguments reach the base execution untouched |
| HybridAgents.FastPathConditions | anus/core/agent/hybrid_agent.py:153-164 | the short-cut fires exactly for a "calculate" task whose decided calculator action succeeds; it reports mode "direct" and runs no stage |
| HybridAgents.HybridAgent.constructor | anus/core/agent/hybrid_agent.py:20-46 | the base agent gets name, max_iterations, tools and the extra options; mode is "auto"; the four roles are present and empty |
| HybridAgents.HybridAgent.AddSpecializedAgent | anus/core/agent/hybrid_agent.py:48-62 | the role's entry is replaced by a fresh agent built from the config; no other role changes |
| HybridAgents.HybridAgent.AssessComplexity | anus/core/agent/hybrid_agent.py:64-115 | the two loops compute exactly `Score(task)`, which is at most 10.0 |
| HybridAgents.HybridAgent.Execute | anus/core/agent/hybrid_agent.py:117-137 | below 3.0: one base execution and nothing else changes; from 3.0: the short-cut or the full pipeline, with the result equal to `Dispatch` |
| HybridAgents.HybridAgent.ExecuteMultiAgent | anus/core/agent/hybrid_agent.py:139-207 | the short-cut result when it fires; otherwise missing roles get default agents, present ones are kept, four stages run in order, and the aggregated result is returned |
| HybridAgents.HybridAgent.StaffStandardRoles | anus/core/agent/hybrid_agent.py:166-175 | afterwards all four roles have an agent; existing agents and other roles are untouched; new ones are default agents with the caller's `tools` |
| HybridAgents.HybridAgent.RunPipeline | anus/core/agent/hybrid_agent.py:177-207 | the stage calls are appended in order with chained prompts, and the result is the aggregation of the four stage results |
| Orchestration.ResolveMode | anus/core/orchestrator.py:43-44 | an explicit mode wins, else `config["agent"]["mode"]`, else "single"; AttributeError exactly when "agent" is present but not a dict |
| Orchestration.AgentOrchestrator.constructor | anus/core/orchestrator.py:13-19 | empty agents, last result and history; the primary agent is a fresh HybridAgent named "anus" with defaults |
| Orchestration.RunInExecutorAsWritten | anus/core/orchestrator.py:61-67 | as written, the executor call raises TypeError exactly when keyword arguments are passed, and otherwise hands on the task alone |
| Orchestration.ModeNeverReachesAgentAsWritten | anus/core/orchestrator.py:67 | as written, the call with `mode=mode` always raises TypeError |
| Orchestration.AgentOrchestrator.ExecuteTaskAsWritten | anus/core/orchestrator.py:38-67 | as written, every call raises: AttributeError for an unresolvable mode, TypeError otherwise; it changes no state, so it records no history and sets no last result |
| Orchestration.AgentOrchestrator.ExecuteTask | anus/core/orchestrator.py:38-59 | with the intended executor call: on success exactly one "completed" history entry is appended, the history stays one entry per completed call, and the result becomes the last result. The result is the primary agent's result for the resolved mode, and the agent's state changes as `execute` says. On error nothing changes |
| Orchestration.HistoryOfSnoc | anus/core/orchestrator.py:49-56 | one more completed call adds exactly one entry at the end of the history |
| Orchestration.HistoryOneEntryPerCall | anus/core/orchestrator.py:49-56 | after N completed calls the history has N entries, the k-th for the k-th call |
| Orchestration.HistoryAppendOnly | anus/core/orchestrator.py:49-56 | later calls never rewrite earlier history entries |
| ModelRouting.ModelRouter.constructor | anus/models/model_router.py:13-24 | no models; classes for "openai" and "gemini"; the given default config unless it is None or empty; no default model yet |
| ModelRouting.ModelRouter.RegisterModel | anus/models/model_router.py:26-28 | inserts or overwrites one name; a new name goes last, an overwritten one keeps its place |
| ModelRouting.ModelRouter.RegisterModelClass | anus/models/model_router.py:30-32 | inserts or overwrites one provider's class, keeping insertion order |
| ModelRouting.ModelRouter.GetModel | anus/models/model_router.py:34-44 | a registered name gives its model; a dict builds a new model; any other value gives the default model |
| ModelRouting.ModelRouter.GetDefaultModel | anus/models/model_router.py:46-49 | builds from the default config at most once, and afterwards returns the same instance |
| ModelRouting.ModelRouter.SelectModelForTask | anus/models/model_router.py:51-54 | non-empty requirements build a new model; otherwise the default model is used |
| ModelRouting.ModelRouter.CreateModelFromConfig | anus/models/model_router.py:56-71 | the model is what `Blueprint` describes: provider class or openai, then `OpenAIModel(model_name="gpt-4o")`, then ValueError |
| ModelRouting.ModelRouter.ListAvailableModels | anus/models/model_router.py:73-90 | the two loops compute the registered entries in order followed by `AddProviders` |
| ModelRouting.ProviderCaseInsensitive | anus/models/model_router.py:57 | provider names are matched case-insensitively |
| ModelRouting.UnknownProviderIsOpenAI | anus/models/model_router.py:58-60 | an unknown provider behaves exactly as "openai" |
| ModelRouting.ArgumentsForwarded | anus/models/model_router.py:61-65 | the class receives every key of the config except "provider", unchanged |
| ModelRouting.FallbackChain | anus/models/model_router.py:66-71 | when the provider's class rejects its arguments the model is `OpenAIModel(model_name="gpt-4o")`; ValueError is raised only when that fails too |
| ModelRouting.RegisteredInfosInOrder | anus/models/model_router.py:75-82 | one entry per registered model, in registration order, with its name, class, model name and details |
| ModelRouting.AddProvidersExtends | anus/models/model_router.py:83-89 | the provider loop only appends entries |
| ModelRouting.ProvidersListedOnce | anus/models/model_router.py:83-89 | every provider ends up listed, and each appended entry is for a provider not listed before it |
| Gemini.Content | anus/models/gemini_model.py:41-44 | a dict without "content" contributes an empty line; a content that is not a string raises TypeError |
| Gemini.BodyIsLines | anus/models/gemini_model.py:40-44 | the prompt body is one line per message, in message order |
| Gemini.BodyErrPersists | anus/models/gemini_model.py:40-44 | once a message cannot be added, the whole prompt fails with that error |
| Gemini.BodyErrIff | anus/models/gemini_model.py:40-44 | building the prompt fails, with TypeError, exactly when some message's content is not a string |
| Gemini.PromptStartsWithSystem | anus/models/gemini_model.py:37-39 | a non-empty system message is the first line; an absent or empty one adds nothing |
| Gemini.BuildPrompt | anus/models/gemini_model.py:37-44 | the loop builds exactly the system line (if any) followed by one line per message, or fails with the first failing message's error |
| Gemini.GeminiModel.constructor | anus/models/gemini_model.py:18-23 | provider "gemini"; the given model name, else "gemini-2.0-flash"; temperature 0.0, max_tokens 4096, no base URL |
| Gemini.GeminiModel.Ask | anus/models/gemini_model.py:25-66 | the SDK gets the model name, `system_message or ""` and the prompt of system line plus one line per message; TypeError exactly when some content is not a string |
| Gemini.GeminiModel.AskWithTools | anus/models/gemini_model.py:68-80 | ignores tools and tool choice, and answers exactly as `ask` does |

## Left out

- The orchestrator's YAML loading and file checks are not modelled. The
  loaded configuration is a constructor parameter.
- The clock (`start_time`, `execution_time`) and logging are not modelled.
  History entries carry no timing fields, so nothing is stated about
  execution times.
- `async` execution, the executor thread and the event loop are not
  modelled. Each call is modelled as completing before the next one.
- `ToolAgent` and the OpenAI model are not part of this model.
  `ToolAgent.execute`, `_decide_action`, `_execute_action`, the model
  classes' constructors, `model_name` and `get_model_details` are
  parameters, treated as deterministic functions.
- The Gemini SDK client, its configuration object, the network call and
  `response.text` are not modelled. They are one `Sdk` function parameter.
- The API key is a constructor parameter. It is not read from the
  GEMINI_API_KEY environment variable.
- Python's `str()` of a dict is a parameter (`Runtime.show`).
- Dict insertion order is not modelled: values use maps. The order of
  `models` and `model_classes`, which `list_available_models` depends on,
  is kept in explicit name sequences.
- Floating-point arithmetic is not modelled. The score is exact in tenths.
  The source accumulates binary floats (for example 0.1 per word), which can
  differ at the 3.0 and 10.0 boundaries.
- `str.lower`, `str.isspace`, `str.isalnum` and `\s` work on ASCII only;
  Unicode case mapping and Unicode whitespace are not modelled.
- `AgentOrchestrator._create_primary_agent` is inlined into the
  constructor. `_async_execute` is inlined into `ExecuteTask` and
  `ExecuteTaskAsWritten`.
- The collaborators are total functions. These are `Runtime.execute`,
  `decideAction`, `executeAction` and `show`, `Backend.modelName` and
  `details`, and `Sdk`. An exception from `ToolAgent.execute`,
  `model.model_name`, `get_model_details` or the SDK call aborts the
  source's pipeline or call; the model does not capture that. In the
  router, only the model constructors can fail (`Backend.rejects`).
- HybridAgents.HybridAgent.AddSpecializedAgent: builds the agent with the
  corrected `ConstructorArgs` from "## Findings". As written, any config
  with a "name" key raises TypeError and no agent is registered
  (`ConstructorArgsAsWritten`).
- HybridAgents.HybridAgent.StaffStandardRoles: creates default agents
  through the corrected call. As written, the first role without an agent
  raises TypeError, because its default config always has "name"
  (`DefaultAgentCrashesAsWritten`).
- HybridAgents.HybridAgent.ExecuteMultiAgent: uses the corrected call to
  fill missing roles. As written, a full-path run with any missing role
  raises TypeError instead of returning a "multi" result.
- HybridAgents.HybridAgent.Execute: from 3.0 on, outside the short-cut, it
  inherits the correction of `ExecuteMultiAgent`. As written, such a run
  raises TypeError whenever a role has no agent, which includes every fresh
  agent.
- Orchestration.AgentOrchestrator.ExecuteTask: models the intended executor
  call, which hands `mode=` on, and the corrected agent construction. As
  written, every call with a resolvable mode raises TypeError
  (`ExecuteTaskAsWritten`).
- A `Message` object without a `content` attribute is not modelled. Only
  string and non-string contents are.
- anus/main.py and anus/tools/dummy_action.py are not part of this model.

## Findings

| source | as written | input that shows it | evidently intended | confidence | as-written member | corrected member |
|---|---|---|---|---|---|---|
| anus/core/agent/hybrid_agent.py:59-60, 174-175 | `ToolAgent(name=agent_name, **config)` passes `name` twice whenever the config has a "name" key; the default config built for a missing role always has one | a fresh HybridAgent and any task scoring at least 3.0 that skips the calculator short-cut; the first missing role, "researcher", raises TypeError | name the agent from the config and pass the remaining keys | high (not executed) | HybridAgents.ConstructorArgsAsWritten, HybridAgents.DefaultAgentCrashesAsWritten | HybridAgents.ConstructorArgs, HybridAgents.DefaultAgentCorrected |
| anus/core/orchestrator.py:67 | `loop.run_in_executor(None, self.primary_agent.execute, task, mode=mode)`; `run_in_executor` accepts only positional arguments after the function, so the keyword `mode` raises TypeError before the agent runs, and `execute_task` appends no history entry | any task on a fresh orchestrator with config `{}` and mode None: the mode resolves to "single", then line 67 raises TypeError | pass the mode through, for example with `functools.partial(self.primary_agent.execute, task, mode=mode)` | high (not executed) | Orchestration.AgentOrchestrator.ExecuteTaskAsWritten, Orchestration.ModeNeverReachesAgentAsWritten | Orchestration.AgentOrchestrator.ExecuteTask |
