/** `AgentOrchestrator`: resolves the mode of a task, runs it on the primary
    `HybridAgent` and keeps an append-only history of what it ran. */
module Orchestration {
  import opened PyValues
  import opened Complexity
  import opened HybridAgents

  /** One record of `task_history` (the clock fields are not modelled). */
  datatype HistoryEntry = HistoryEntry(task: string, mode: Value, status: string, result: Dict)

  /** `mode`, or when it is None, `config.get("agent", {}).get("mode", "single")`;
      an "agent" entry that is not a dict has no `get`. */
  function ResolveMode(config: Dict, mode: Value): (r: Result<Value>)
    ensures mode != VNone ==> r == Ok(mode)
    ensures mode == VNone && "agent" !in config ==> r == Ok(VStr("single"))
    ensures mode == VNone && "agent" in config && config["agent"].VDict? ==>
      r == Ok(Get(config["agent"].fields, "mode", VStr("single")))
    ensures r.Err? <==> mode == VNone && "agent" in config && !config["agent"].VDict?
  {
    if mode != VNone then Ok(mode)
    else
      match Get(config, "agent", VDict(map[]))
      case VDict(section) => Ok(Get(section, "mode", VStr("single")))
      case _ => Err(AttributeError)
  }

  /** The keyword arguments the orchestrator passes to the primary agent. */
  function ModeKwargs(mode: Value): Dict {
    map["mode" := mode]
  }

  /** What `loop.run_in_executor(None, func, task, **kwargs)` does AS
      WRITTEN: `run_in_executor` takes positional arguments only, so a keyword
      argument raises TypeError before `func` is called; without one, `func`
      receives the task alone. */
  function RunInExecutorAsWritten(task: string, kwargs: Dict): (r: Result<(string, Dict)>)
    ensures r.Err? <==> kwargs != map[]
    ensures r.Err? ==> r.error == TypeError
    ensures r.Ok? ==> r.value == (task, map[])
  {
    if kwargs != map[] then Err(TypeError) else Ok((task, map[]))
  }

  /** As written, the mode never reaches the primary agent: the executor call
      of `_async_execute` always carries `mode=` and so always raises. */
  lemma ModeNeverReachesAgentAsWritten(task: string, mode: Value)
    ensures RunInExecutorAsWritten(task, ModeKwargs(mode)) == Err(TypeError)
  {
    assert "mode" in ModeKwargs(mode);
  }

  class AgentOrchestrator {
    /** The loaded configuration (loading itself is not modelled). */
    const config: Dict
    var agents: Dict
    const primary: HybridAgent
    var lastResult: Dict
    var taskHistory: seq<HistoryEntry>
    /** The completed calls so far: task, resolved mode and result. */
    ghost var calls: seq<(string, Value, Dict)>

    /** The history is exactly one entry per completed call, in call order. */
    ghost predicate Valid()
      reads this
    {
      taskHistory == HistoryOf(calls)
    }

    constructor (config: Dict)
      ensures Valid() && calls == []
      ensures this.config == config
      ensures agents == map[] && lastResult == map[] && taskHistory == []
      ensures fresh(primary) && fresh(primary.base)
      ensures primary.base.name == VStr("anus")
      ensures primary.base.options == map["max_iterations" := VInt(10), "tools" := VNone]
      ensures primary.mode == "auto" && primary.specializedAgents == EmptyRoster && primary.trace == []
    {
      this.config := config;
      agents := map[];
      primary := new HybridAgent(VStr("anus"), 10, VNone, map[]);
      lastResult := map[];
      taskHistory := [];
      calls := [];
    }

    /** `execute_task(task, mode)` AS WRITTEN: an unresolvable mode raises
        AttributeError, and otherwise the executor call raises TypeError. The
        method changes nothing: no history entry, no last result, and the
        primary agent never runs. */
    method ExecuteTaskAsWritten(task: string, mode: Value) returns (r: Result<Dict>)
      ensures r.Err?
      ensures ResolveMode(config, mode).Err? ==> r.error == AttributeError
      ensures ResolveMode(config, mode).Ok? ==> r.error == TypeError
    {
      var resolved := ResolveMode(config, mode);
      if resolved.Err? {
        return Err(resolved.error);
      }
      ModeNeverReachesAgentAsWritten(task, resolved.value);
      var call := RunInExecutorAsWritten(task, ModeKwargs(resolved.value));
      r := Err(call.error);
    }

    /** `execute_task(task, mode)` with the evidently intended executor call,
        which hands `mode=` on to the primary agent: exactly one history
        record per completed call; a mode that cannot be resolved raises
        before anything runs. */
    method ExecuteTask(rt: Runtime, task: string, mode: Value) returns (r: Result<Dict>)
      requires Valid()
      modifies this, primary
      ensures Valid()
      ensures r.Err? <==> ResolveMode(config, mode).Err?
      ensures r.Err? ==>
        && r.error == AttributeError
        && taskHistory == old(taskHistory) && lastResult == old(lastResult) && calls == old(calls)
        && primary.specializedAgents == old(primary.specializedAgents) && primary.trace == old(primary.trace)
      ensures r.Ok? ==>
        var m := ResolveMode(config, mode).value;
        && calls == old(calls) + [(task, m, r.value)]
        && taskHistory == old(taskHistory) + [HistoryEntry(task, m, "completed", r.value)]
        && lastResult == r.value
        && (Score(task) >= Threshold && FastPath(rt, primary.base, task).None? ==> Staffed(primary.specializedAgents))
        && r.value == Dispatch(rt, primary.base, primary.specializedAgents, task, ModeKwargs(m))
      ensures r.Ok? && Score(task) < Threshold ==>
        && primary.specializedAgents == old(primary.specializedAgents)
        && primary.trace == old(primary.trace) + [BaseExecute(task, ModeKwargs(ResolveMode(config, mode).value))]
      ensures r.Ok? && Score(task) >= Threshold && FastPath(rt, primary.base, task).Some? ==>
        && primary.specializedAgents == old(primary.specializedAgents)
        && primary.trace == old(primary.trace) + FastPathCalls(rt, primary.base, task)
      ensures r.Ok? && Score(task) >= Threshold && FastPath(rt, primary.base, task).None? ==>
        && primary.specializedAgents.Keys == old(primary.specializedAgents).Keys + {Researcher, Planner, Executor, Critic}
        && (forall role ::
              role in old(primary.specializedAgents) && (HasAgent(old(primary.specializedAgents), role) || role !in StandardRoles)
              ==> primary.specializedAgents[role] == old(primary.specializedAgents)[role])
        && (forall k :: 0 <= k < |StandardRoles| && !HasAgent(old(primary.specializedAgents), StandardRoles[k]) ==>
              fresh(primary.specializedAgents[StandardRoles[k]])
              && IsDefaultAgent(primary.specializedAgents[StandardRoles[k]], StandardRoles[k],
                                ToolsOption(ModeKwargs(ResolveMode(config, mode).value))))
        && primary.trace == old(primary.trace) + FastPathCalls(rt, primary.base, task)
             + StageCalls(rt, RunStages(rt, primary.specializedAgents, task), task)
      ensures primary.mode == old(primary.mode)
      ensures agents == old(agents)
    {
      var resolved := ResolveMode(config, mode);
      if resolved.Err? {
        return Err(resolved.error);
      }
      var m := resolved.value;
      var result := primary.Execute(rt, task, ModeKwargs(m));
      HistoryOfSnoc(calls, (task, m, result));
      calls := calls + [(task, m, result)];
      taskHistory := taskHistory + [HistoryEntry(task, m, "completed", result)];
      lastResult := result;
      r := Ok(result);
    }
  }

  /** The history a sequence of completed calls leaves behind: one entry per
      call, in call order. */
  function HistoryOf(tasks: seq<(string, Value, Dict)>): seq<HistoryEntry> {
    if tasks == [] then []
    else HistoryOf(tasks[..|tasks| - 1]) + [HistoryEntry(tasks[|tasks| - 1].0, tasks[|tasks| - 1].1, "completed", tasks[|tasks| - 1].2)]
  }

  /** One more completed call adds one entry at the end. */
  lemma HistoryOfSnoc(tasks: seq<(string, Value, Dict)>, t: (string, Value, Dict))
    ensures HistoryOf(tasks + [t]) == HistoryOf(tasks) + [HistoryEntry(t.0, t.1, "completed", t.2)]
  {
    assert (tasks + [t])[..|tasks + [t]| - 1] == tasks;
  }

  /** After N completed calls the history has N entries, the k-th one for
      the k-th call. */
  lemma {:induction false} HistoryOneEntryPerCall(tasks: seq<(string, Value, Dict)>)
    ensures |HistoryOf(tasks)| == |tasks|
    ensures forall k :: 0 <= k < |tasks| ==>
      HistoryOf(tasks)[k] == HistoryEntry(tasks[k].0, tasks[k].1, "completed", tasks[k].2)
  {
    if tasks != [] {
      var init := tasks[..|tasks| - 1];
      HistoryOneEntryPerCall(init);
      assert forall k :: 0 <= k < |init| ==> init[k] == tasks[k];
    }
  }

  /** Earlier entries are never rewritten by later calls. */
  lemma {:induction false} HistoryAppendOnly(tasks: seq<(string, Value, Dict)>, more: seq<(string, Value, Dict)>)
    ensures HistoryOf(tasks) <= HistoryOf(tasks + more)
    decreases |more|
  {
    if more == [] {
      assert tasks + more == tasks;
    } else {
      var init := more[..|more| - 1];
      HistoryAppendOnly(tasks, init);
      assert (tasks + more)[..|tasks + more| - 1] == tasks + init;
    }
  }
}
