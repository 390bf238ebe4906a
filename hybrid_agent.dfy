/** `HybridAgent`: the complexity-driven choice between the plain
    `ToolAgent` execution and the four-role researcher, planner, executor,
    critic pipeline, with its registry of specialized agents. */
module HybridAgents {
  import opened PyValues
  import opened Text
  import opened Complexity

  /** A `ToolAgent` instance: the name and the other keyword arguments it was
      constructed with. What it does is given by a `Runtime`. */
  class ToolAgent {
    const name: Value
    const options: Dict

    constructor (name: Value, options: Dict)
      ensures this.name == name && this.options == options
    {
      this.name := name;
      this.options := options;
    }
  }

  /** The parts of `ToolAgent` whose source is not part of this model, and
      Python's `str()`. */
  datatype Runtime = Runtime(
    /** `agent.execute(task, **kwargs)` */
    execute: (ToolAgent, string, Dict) -> Dict,
    /** `agent._decide_action(context)`: the action name and its input */
    decideAction: (ToolAgent, Dict) -> (Value, Dict),
    /** `agent._execute_action(name, input)` */
    executeAction: (ToolAgent, Value, Dict) -> Dict,
    /** `str(value)` */
    show: Value -> string)

  /** What the hybrid agent asks of the `ToolAgent` machinery, in order. */
  datatype Call =
    | BaseExecute(task: string, kwargs: Dict)
    | DecideAction(context: Dict)
    | ExecuteAction(action: Value, input: Dict)
    | Stage(role: string, prompt: string)

  const Researcher: string := "researcher"
  const Planner: string := "planner"
  const Executor: string := "executor"
  const Critic: string := "critic"

  /** The four roles of the pipeline, in the order they run. */
  const StandardRoles: seq<string> := [Researcher, Planner, Executor, Critic]

  /** The registry right after `__init__`: every role known, none filled. */
  const EmptyRoster: map<string, ToolAgent?> :=
    map[Researcher := null, Planner := null, Executor := null, Critic := null]

  /** `self.specialized_agents.get(role)` is truthy. */
  predicate HasAgent(agents: map<string, ToolAgent?>, role: string) {
    role in agents && agents[role] != null
  }

  /** Every standard role holds an agent. */
  predicate Staffed(agents: map<string, ToolAgent?>) {
    forall k :: 0 <= k < |StandardRoles| ==> HasAgent(agents, StandardRoles[k])
  }

  // ---------------------------------------------------------------------
  // add_specialized_agent

  /** `config.get("name", f"{role}-agent")` */
  function AgentName(role: string, config: Dict): Value {
    Get(config, "name", VStr(role + "-agent"))
  }

  /** The call `ToolAgent(name=agent_name, **config)` AS WRITTEN: Python
      refuses a keyword given twice, so a `config` with a "name" key raises
      TypeError; otherwise the agent gets the default name and all of
      `config`. */
  function ConstructorArgsAsWritten(role: string, config: Dict): (r: Result<(Value, Dict)>)
    ensures r.Err? <==> "name" in config
  {
    if "name" in config then Err(TypeError) else Ok((AgentName(role, config), config))
  }

  /** The evidently intended call: the agent is named `config["name"]`, or
      `"<role>-agent"` without one, and gets the rest of `config`. */
  function ConstructorArgs(role: string, config: Dict): (r: (Value, Dict))
    ensures "name" in config ==> r.0 == config["name"]
    ensures "name" !in config ==> r.0 == VStr(role + "-agent")
    ensures r.1.Keys == config.Keys - {"name"}
    ensures forall key :: key in r.1 ==> r.1[key] == config[key]
  {
    (AgentName(role, config), config - {"name"})
  }

  /** The configuration the pipeline builds for a missing role. */
  function DefaultConfig(role: string, tools: Value): Dict {
    map["name" := VStr(role + "-agent"), "tools" := tools]
  }

  /** As written, every default agent the pipeline tries to create raises
      TypeError, because its configuration always has a "name". */
  lemma DefaultAgentCrashesAsWritten(role: string, tools: Value)
    ensures ConstructorArgsAsWritten(role, DefaultConfig(role, tools)) == Err(TypeError)
  {
  }

  /** With the intended call, a default agent is named "<role>-agent" and
      gets exactly the `tools` option. */
  lemma DefaultAgentCorrected(role: string, tools: Value)
    ensures ConstructorArgs(role, DefaultConfig(role, tools)) == (VStr(role + "-agent"), map["tools" := tools])
  {
    assert DefaultConfig(role, tools) - {"name"} == map["tools" := tools];
  }

  /** The correction changes nothing for a configuration without "name". */
  lemma CorrectionConservative(role: string, config: Dict)
    requires "name" !in config
    ensures ConstructorArgsAsWritten(role, config) == Ok(ConstructorArgs(role, config))
  {
    assert config - {"name"} == config;
  }

  // ---------------------------------------------------------------------
  // The fast path of _execute_multi_agent

  /** `task.lower().startswith("calculate")` */
  predicate StartsWithCalculate(task: string) {
    "calculate" <= Lower(task)
  }

  function DecideContext(task: string): Dict {
    map["task" := VStr(task)]
  }

  /** The decided action is the calculator with an "expression" input. */
  predicate IsCalculation(action: (Value, Dict)) {
    action.0 == VStr("calculator") && "expression" in action.1
  }

  /** `result.get("status") == "success" and "result" in result` */
  predicate Succeeded(result: Dict) {
    Get(result, "status", VNone) == VStr("success") && "result" in result
  }

  function DirectAnswer(rt: Runtime, expression: Value, value: Value): string {
    "The result of " + rt.show(expression) + " is " + rt.show(value)
  }

  /** The short-circuit result for "calculate ..." tasks, when it fires. */
  function FastPath(rt: Runtime, self: ToolAgent, task: string): Option<Dict> {
    if !StartsWithCalculate(task) then None
    else
      var action := rt.decideAction(self, DecideContext(task));
      if !IsCalculation(action) then None
      else
        var result := rt.executeAction(self, action.0, action.1);
        if !Succeeded(result) then None
        else
          Some(map[
            "task" := VStr(task),
            "answer" := VStr(DirectAnswer(rt, action.1["expression"], result["result"])),
            "direct_result" := VDict(result),
            "mode" := VStr("direct")])
  }

  /** The calls the fast path makes, whether or not it fires. */
  function FastPathCalls(rt: Runtime, self: ToolAgent, task: string): seq<Call> {
    if !StartsWithCalculate(task) then []
    else
      var action := rt.decideAction(self, DecideContext(task));
      [DecideAction(DecideContext(task))]
      + (if IsCalculation(action) then [ExecuteAction(action.0, action.1)] else [])
  }

  // ---------------------------------------------------------------------
  // The full pipeline

  function ResearchPrompt(task: string): string {
    "Analyze and gather information for: " + task
  }

  function PlanPrompt(task: string, research: string): string {
    "Plan execution strategy for: " + task + "\nBased on research: " + research
  }

  function ExecutePrompt(task: string, plan: string): string {
    "Execute plan for: " + task + "\nFollowing strategy: " + plan
  }

  function CritiquePrompt(task: string, output: string): string {
    "Evaluate results for: " + task + "\nAnalyzing output: " + output
  }

  /** The four stage results of one run of the pipeline. */
  datatype Run = Run(research: Dict, plan: Dict, execution: Dict, critique: Dict)

  /** Each stage gets a prompt built from the task and `str()` of the
      previous stage's result, whatever that result's status. */
  function RunStages(rt: Runtime, agents: map<string, ToolAgent?>, task: string): Run
    requires Staffed(agents)
  {
    assert HasAgent(agents, StandardRoles[0]) && HasAgent(agents, StandardRoles[1]);
    assert HasAgent(agents, StandardRoles[2]) && HasAgent(agents, StandardRoles[3]);
    var research := rt.execute(agents[Researcher], ResearchPrompt(task), map[]);
    var plan := rt.execute(agents[Planner], PlanPrompt(task, rt.show(VDict(research))), map[]);
    var execution := rt.execute(agents[Executor], ExecutePrompt(task, rt.show(VDict(plan))), map[]);
    var critique := rt.execute(agents[Critic], CritiquePrompt(task, rt.show(VDict(execution))), map[]);
    Run(research, plan, execution, critique)
  }

  /** The stage invocations of a run, in order. */
  function StageCalls(rt: Runtime, run: Run, task: string): seq<Call> {
    [ Stage(Researcher, ResearchPrompt(task)),
      Stage(Planner, PlanPrompt(task, rt.show(VDict(run.research)))),
      Stage(Executor, ExecutePrompt(task, rt.show(VDict(run.plan)))),
      Stage(Critic, CritiquePrompt(task, rt.show(VDict(run.execution)))) ]
  }

  /** `final_result.get("answer", str(final_result)) if final_result else "No answer"` */
  function Answer(rt: Runtime, finalResult: Option<Dict>): Value {
    if finalResult.None? || |finalResult.value| == 0 then VStr("No answer")
    else Get(finalResult.value, "answer", VStr(rt.show(VDict(finalResult.value))))
  }

  function StageResults(run: Run): Dict {
    map[Researcher := VDict(run.research), Planner := VDict(run.plan),
        Executor := VDict(run.execution), Critic := VDict(run.critique)]
  }

  function MultiResult(rt: Runtime, task: string, run: Run): Dict {
    map["task" := VStr(task),
        "answer" := Answer(rt, Some(run.execution)),
        "agent_results" := VDict(StageResults(run)),
        "mode" := VStr("multi")]
  }

  /** What `execute` returns, given the registry after it has run. */
  function Dispatch(rt: Runtime, self: ToolAgent, agents: map<string, ToolAgent?>, task: string, kwargs: Dict): Dict
    requires Score(task) >= Threshold && FastPath(rt, self, task).None? ==> Staffed(agents)
  {
    if Score(task) < Threshold then rt.execute(self, task, kwargs)
    else
      match FastPath(rt, self, task)
      case Some(direct) => direct
      case None => MultiResult(rt, task, RunStages(rt, agents, task))
  }

  /** A default agent created for a missing role. */
  predicate IsDefaultAgent(agent: ToolAgent?, role: string, tools: Value) {
    agent != null && agent.name == VStr(role + "-agent") && agent.options == map["tools" := tools]
  }

  /** `kwargs.get("tools", [])` */
  function ToolsOption(kwargs: Dict): Value {
    Get(kwargs, "tools", VList([]))
  }

  // ---------------------------------------------------------------------
  // Properties of the pipeline

  /** The stages run in the order researcher, planner, executor, critic,
      one call each. */
  lemma StagesInOrder(rt: Runtime, run: Run, task: string)
    ensures |StageCalls(rt, run, task)| == |StandardRoles|
    ensures forall k :: 0 <= k < |StandardRoles| ==>
      StageCalls(rt, run, task)[k].Stage? && StageCalls(rt, run, task)[k].role == StandardRoles[k]
  {
  }

  /** Every prompt mentions the task, and every prompt after the first ends
      with `str()` of the previous stage's result. */
  lemma PromptsChain(rt: Runtime, run: Run, task: string)
    ensures forall k :: 0 <= k < 4 ==> IsSubstring(task, StageCalls(rt, run, task)[k].prompt)
    ensures EndsWith(StageCalls(rt, run, task)[1].prompt, rt.show(VDict(run.research)))
    ensures EndsWith(StageCalls(rt, run, task)[2].prompt, rt.show(VDict(run.plan)))
    ensures EndsWith(StageCalls(rt, run, task)[3].prompt, rt.show(VDict(run.execution)))
  {
    var calls := StageCalls(rt, run, task);
    var heads := ["Analyze and gather information for: ", "Plan execution strategy for: ",
                  "Execute plan for: ", "Evaluate results for: "];
    forall k | 0 <= k < 4
      ensures IsSubstring(task, calls[k].prompt)
    {
      var p := calls[k].prompt;
      assert p[|heads[k]|..|heads[k]| + |task|] == task;
      assert OccursAt(task, p, |heads[k]|);
      IsSubstringIff(task, p);
    }
  }

  predicate EndsWith(s: string, suffix: string) {
    |suffix| <= |s| && s[|s| - |suffix|..] == suffix
  }

  /** The result of a full run has the four stage results under
      "agent_results" and the mode "multi". */
  lemma MultiResultShape(rt: Runtime, task: string, run: Run)
    ensures MultiResult(rt, task, run)["mode"] == VStr("multi")
    ensures MultiResult(rt, task, run)["task"] == VStr(task)
    ensures MultiResult(rt, task, run)["agent_results"].VDict?
    ensures MultiResult(rt, task, run)["agent_results"].fields.Keys == {Researcher, Planner, Executor, Critic}
    ensures MultiResult(rt, task, run)["agent_results"].fields[Executor] == VDict(run.execution)
  {
  }

  /** The answer is the executor's "answer" when it has one, otherwise
      `str()` of the executor's result, and "No answer" when that result is
      empty or missing. */
  lemma AnswerSelection(rt: Runtime, finalResult: Option<Dict>)
    ensures finalResult.Some? && "answer" in finalResult.value ==> Answer(rt, finalResult) == finalResult.value["answer"]
    ensures finalResult.Some? && finalResult.value != map[] && "answer" !in finalResult.value ==>
      Answer(rt, finalResult) == VStr(rt.show(VDict(finalResult.value)))
    ensures finalResult.None? || finalResult.value == map[] ==> Answer(rt, finalResult) == VStr("No answer")
  {
  }

  /** Only the task chooses the path: below the threshold the keyword
      arguments reach the base execution untouched, and above it they do
      not change the outcome once the registry is staffed. */
  lemma KeywordsDoNotChoosePath(rt: Runtime, self: ToolAgent, agents: map<string, ToolAgent?>, task: string, k1: Dict, k2: Dict)
    requires Staffed(agents)
    ensures Score(task) < Threshold ==> Dispatch(rt, self, agents, task, k1) == rt.execute(self, task, k1)
    ensures Score(task) >= Threshold ==> Dispatch(rt, self, agents, task, k1) == Dispatch(rt, self, agents, task, k2)
  {
  }

  /** The fast path fires only for a successful calculator action on a task
      that starts with "calculate", and reports mode "direct". */
  lemma FastPathConditions(rt: Runtime, self: ToolAgent, task: string)
    ensures FastPath(rt, self, task).Some? <==>
      StartsWithCalculate(task)
      && IsCalculation(rt.decideAction(self, DecideContext(task)))
      && Succeeded(rt.executeAction(self, rt.decideAction(self, DecideContext(task)).0, rt.decideAction(self, DecideContext(task)).1))
    ensures FastPath(rt, self, task).Some? ==> FastPath(rt, self, task).value["mode"] == VStr("direct")
    ensures forall c :: c in FastPathCalls(rt, self, task) ==> !c.Stage? && !c.BaseExecute?
  {
  }

  // ---------------------------------------------------------------------
  // The agent

  class HybridAgent {
    /** The `ToolAgent` part of this agent (its name and options). */
    const base: ToolAgent
    var mode: string
    var specializedAgents: map<string, ToolAgent?>
    /** The calls made so far. */
    ghost var trace: seq<Call>

    /** `HybridAgent(name, max_iterations, tools, **kwargs)`; Python refuses
        a keyword given twice. */
    constructor (name: Value, maxIterations: int, tools: Value, kwargs: Dict)
      requires "name" !in kwargs && "max_iterations" !in kwargs && "tools" !in kwargs
      ensures fresh(base)
      ensures base.name == name
      ensures base.options == kwargs["max_iterations" := VInt(maxIterations)]["tools" := tools]
      ensures mode == "auto"
      ensures specializedAgents == EmptyRoster
      ensures trace == []
    {
      base := new ToolAgent(name, kwargs["max_iterations" := VInt(maxIterations)]["tools" := tools]);
      mode := "auto";
      specializedAgents := EmptyRoster;
      trace := [];
    }

    /** `add_specialized_agent(role, config)`: always replaces the entry of
        `role` with a new agent. */
    method AddSpecializedAgent(role: string, config: Dict)
      modifies this
      ensures specializedAgents.Keys == old(specializedAgents).Keys + {role}
      ensures forall r :: r in old(specializedAgents) && r != role ==> specializedAgents[r] == old(specializedAgents)[r]
      ensures HasAgent(specializedAgents, role) && fresh(specializedAgents[role])
      ensures specializedAgents[role].name == ConstructorArgs(role, config).0
      ensures specializedAgents[role].options == ConstructorArgs(role, config).1
      ensures mode == old(mode) && trace == old(trace)
    {
      var args := ConstructorArgs(role, config);
      var agent := new ToolAgent(args.0, args.1);
      specializedAgents := specializedAgents[role := agent];
    }

    /** `_assess_complexity(task)`, in tenths. */
    method AssessComplexity(task: string) returns (complexity: nat)
      ensures complexity == Score(task)
      ensures complexity <= MaxScore
    {
      OperationsWellFormed();
      complexity := 0;
      var lower := Lower(task);
      var k := 0;
      while k < |Operations|
        invariant 0 <= k <= |Operations|
        invariant WellFormedTable(Operations[..k])
        invariant complexity == PatternScore(Operations[..k], lower)
      {
        var row := Operations[k];
        complexity := complexity + row.weight * Matches(row.alternatives, lower);
        assert Operations[..k + 1][..k] == Operations[..k];
        k := k + 1;
      }
      assert Operations[..k] == Operations;
      complexity := complexity + WordWeight * |Split(task)|;
      complexity := complexity + SpecialWeight * SpecialCount(task);
      var toolsNeeded := 0;
      k := 0;
      while k < |ToolKeywords|
        invariant 0 <= k <= |ToolKeywords|
        invariant toolsNeeded == CategoryHits(ToolKeywords[..k], lower)
      {
        if AnyKeyword(ToolKeywords[k], lower) {
          toolsNeeded := toolsNeeded + 1;
        }
        assert ToolKeywords[..k + 1][..k] == ToolKeywords[..k];
        k := k + 1;
      }
      assert ToolKeywords[..k] == ToolKeywords;
      complexity := complexity + CategoryWeight * toolsNeeded;
      if complexity > MaxScore {
        complexity := MaxScore;
      }
    }

    /** `execute(task, **kwargs)`: single-agent below 3.0, multi-agent from
        3.0 on. */
    method Execute(rt: Runtime, task: string, kwargs: Dict) returns (r: Dict)
      modifies this
      ensures mode == old(mode)
      ensures Score(task) < Threshold ==>
        && r == rt.execute(base, task, kwargs)
        && specializedAgents == old(specializedAgents)
        && trace == old(trace) + [BaseExecute(task, kwargs)]
      ensures Score(task) >= Threshold && FastPath(rt, base, task).Some? ==>
        && specializedAgents == old(specializedAgents)
        && trace == old(trace) + FastPathCalls(rt, base, task)
      ensures Score(task) >= Threshold && FastPath(rt, base, task).None? ==>
        && Staffed(specializedAgents)
        && specializedAgents.Keys == old(specializedAgents).Keys + {Researcher, Planner, Executor, Critic}
        && (forall role :: role in old(specializedAgents) && (HasAgent(old(specializedAgents), role) || role !in StandardRoles) ==>
              specializedAgents[role] == old(specializedAgents)[role])
        && (forall k :: 0 <= k < |StandardRoles| && !HasAgent(old(specializedAgents), StandardRoles[k]) ==>
              fresh(specializedAgents[StandardRoles[k]])
              && IsDefaultAgent(specializedAgents[StandardRoles[k]], StandardRoles[k], ToolsOption(kwargs)))
        && trace == old(trace) + FastPathCalls(rt, base, task) + StageCalls(rt, RunStages(rt, specializedAgents, task), task)
      ensures Score(task) >= Threshold && FastPath(rt, base, task).None? ==> Staffed(specializedAgents)
      ensures r == Dispatch(rt, base, specializedAgents, task, kwargs)
    {
      var complexity := AssessComplexity(task);
      if complexity < Threshold {
        r := rt.execute(base, task, kwargs);
        trace := trace + [BaseExecute(task, kwargs)];
      } else {
        r := ExecuteMultiAgent(rt, task, kwargs);
      }
    }

    /** `_execute_multi_agent(task, **kwargs)` */
    method ExecuteMultiAgent(rt: Runtime, task: string, kwargs: Dict) returns (r: Dict)
      modifies this
      ensures mode == old(mode)
      ensures FastPath(rt, base, task).Some? ==>
        && r == FastPath(rt, base, task).value
        && specializedAgents == old(specializedAgents)
        && trace == old(trace) + FastPathCalls(rt, base, task)
      ensures FastPath(rt, base, task).None? ==>
        && Staffed(specializedAgents)
        && specializedAgents.Keys == old(specializedAgents).Keys + {Researcher, Planner, Executor, Critic}
        && (forall role :: role in old(specializedAgents) && (HasAgent(old(specializedAgents), role) || role !in StandardRoles) ==>
              specializedAgents[role] == old(specializedAgents)[role])
        && (forall k :: 0 <= k < |StandardRoles| && !HasAgent(old(specializedAgents), StandardRoles[k]) ==>
              fresh(specializedAgents[StandardRoles[k]])
              && IsDefaultAgent(specializedAgents[StandardRoles[k]], StandardRoles[k], ToolsOption(kwargs)))
        && trace == old(trace) + FastPathCalls(rt, base, task) + StageCalls(rt, RunStages(rt, specializedAgents, task), task)
        && r == MultiResult(rt, task, RunStages(rt, specializedAgents, task))
    {
      if StartsWithCalculate(task) {
        var context := DecideContext(task);
        var action := rt.decideAction(base, context);
        trace := trace + [DecideAction(context)];
        if IsCalculation(action) {
          var result := rt.executeAction(base, action.0, action.1);
          trace := trace + [ExecuteAction(action.0, action.1)];
          if Succeeded(result) {
            r := map[
              "task" := VStr(task),
              "answer" := VStr(DirectAnswer(rt, action.1["expression"], result["result"])),
              "direct_result" := VDict(result),
              "mode" := VStr("direct")];
            return;
          }
        }
      }
      assert trace == old(trace) + FastPathCalls(rt, base, task);
      StaffStandardRoles(ToolsOption(kwargs));
      r := RunPipeline(rt, task);
    }

    /** The role-setup loop of `_execute_multi_agent`: a role without an
        agent gets a default one; roles with an agent keep it. */
    method StaffStandardRoles(tools: Value)
      modifies this
      ensures mode == old(mode) && trace == old(trace)
      ensures Staffed(specializedAgents)
      ensures specializedAgents.Keys == old(specializedAgents).Keys + {Researcher, Planner, Executor, Critic}
      ensures forall role :: role in old(specializedAgents) && (HasAgent(old(specializedAgents), role) || role !in StandardRoles) ==>
        specializedAgents[role] == old(specializedAgents)[role]
      ensures forall k :: 0 <= k < |StandardRoles| && !HasAgent(old(specializedAgents), StandardRoles[k]) ==>
        fresh(specializedAgents[StandardRoles[k]])
        && IsDefaultAgent(specializedAgents[StandardRoles[k]], StandardRoles[k], tools)
    {
      var k := 0;
      while k < |StandardRoles|
        invariant 0 <= k <= |StandardRoles|
        invariant mode == old(mode) && trace == old(trace)
        invariant forall role :: role in specializedAgents <==> role in old(specializedAgents) || role in StandardRoles[..k]
        invariant forall j :: 0 <= j < k ==> HasAgent(specializedAgents, StandardRoles[j])
        invariant forall role :: role in old(specializedAgents) && (HasAgent(old(specializedAgents), role) || role !in StandardRoles[..k]) ==>
          specializedAgents[role] == old(specializedAgents)[role]
        invariant forall j :: 0 <= j < k && !HasAgent(old(specializedAgents), StandardRoles[j]) ==>
          fresh(specializedAgents[StandardRoles[j]])
          && IsDefaultAgent(specializedAgents[StandardRoles[j]], StandardRoles[j], tools)
      {
        var role := StandardRoles[k];
        if !HasAgent(specializedAgents, role) {
          DefaultAgentCorrected(role, tools);
          AddSpecializedAgent(role, DefaultConfig(role, tools));
        }
        assert StandardRoles[..k + 1] == StandardRoles[..k] + [role];
        k := k + 1;
      }
      assert StandardRoles[..k] == StandardRoles;
    }

    /** The four stages of `_execute_multi_agent`, each guarded by
        `self.specialized_agents.get(role)`, and the aggregated result. */
    method RunPipeline(rt: Runtime, task: string) returns (r: Dict)
      requires Staffed(specializedAgents)
      modifies this`trace
      ensures trace == old(trace) + StageCalls(rt, RunStages(rt, specializedAgents, task), task)
      ensures r == MultiResult(rt, task, RunStages(rt, specializedAgents, task))
    {
      ghost var run := RunStages(rt, specializedAgents, task);
      assert HasAgent(specializedAgents, StandardRoles[0]) && HasAgent(specializedAgents, StandardRoles[1]);
      assert HasAgent(specializedAgents, StandardRoles[2]) && HasAgent(specializedAgents, StandardRoles[3]);
      var results: Dict := map[];
      var finalResult: Option<Dict> := None;
      if HasAgent(specializedAgents, Researcher) {
        var prompt := ResearchPrompt(task);
        var out := rt.execute(specializedAgents[Researcher], prompt, map[]);
        trace := trace + [Stage(Researcher, prompt)];
        results := results[Researcher := VDict(out)];
      }
      if HasAgent(specializedAgents, Planner) {
        var prompt := PlanPrompt(task, rt.show(Get(results, Researcher, VNone)));
        var out := rt.execute(specializedAgents[Planner], prompt, map[]);
        trace := trace + [Stage(Planner, prompt)];
        results := results[Planner := VDict(out)];
      }
      if HasAgent(specializedAgents, Executor) {
        var prompt := ExecutePrompt(task, rt.show(Get(results, Planner, VNone)));
        var out := rt.execute(specializedAgents[Executor], prompt, map[]);
        trace := trace + [Stage(Executor, prompt)];
        results := results[Executor := VDict(out)];
        finalResult := Some(out);
      }
      if HasAgent(specializedAgents, Critic) {
        var prompt := CritiquePrompt(task, rt.show(Get(results, Executor, VNone)));
        var out := rt.execute(specializedAgents[Critic], prompt, map[]);
        trace := trace + [Stage(Critic, prompt)];
        results := results[Critic := VDict(out)];
      }
      assert results == StageResults(run);
      r := map[
        "task" := VStr(task),
        "answer" := Answer(rt, finalResult),
        "agent_results" := VDict(results),
        "mode" := VStr("multi")];
    }
  }
}
