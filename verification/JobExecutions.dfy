// A job's executions as the client rebuilds them, one finished target at a time.
module JobExecutions {
  import opened Wrappers

  // A tool of a job. `settings` stands for everything but its identity.
  datatype Tool = Tool(toolId: string, toolType: string, settings: string)

  // A finished target with its results.
  datatype Target = Target(target: string, results: string)

  datatype Schedule = Schedule(
    scheduleType: Option<string>, delegatedAt: string, finishedAt: Option<string>, cancelledAt: Option<string>)

  datatype ExecutionTool = ExecutionTool(tool: Tool, targets: seq<Target>)

  datatype Execution = Execution(executionId: string, schedule: Schedule, tools: seq<ExecutionTool>)

  // `job-target-finished`.
  datatype TargetEvent = TargetEvent(
    jobId: string, userId: string, executionId: string, tool: Tool, schedule: Schedule, target: Target)

  // `findIndex` over executions and over tools.
  function ExecutionIndex(list: seq<Execution>, id: string): (k: int)
    ensures -1 <= k < |list|
    ensures k == -1 <==> forall i :: 0 <= i < |list| ==> list[i].executionId != id
    ensures k >= 0 ==> list[k].executionId == id && forall i :: 0 <= i < k ==> list[i].executionId != id
  {
    if list == [] then -1
    else if list[0].executionId == id then 0
    else
      var k := ExecutionIndex(list[1..], id);
      assert forall i :: 0 <= i < |list| - 1 ==> list[1..][i] == list[i + 1];
      if k == -1 then -1 else k + 1
  }

  function ToolIndex(tools: seq<ExecutionTool>, id: string): (k: int)
    ensures -1 <= k < |tools|
    ensures k == -1 <==> forall i :: 0 <= i < |tools| ==> tools[i].tool.toolId != id
    ensures k >= 0 ==> tools[k].tool.toolId == id && forall i :: 0 <= i < k ==> tools[i].tool.toolId != id
  {
    if tools == [] then -1
    else if tools[0].tool.toolId == id then 0
    else
      var k := ToolIndex(tools[1..], id);
      assert forall i :: 0 <= i < |tools| - 1 ==> tools[1..][i] == tools[i + 1];
      if k == -1 then -1 else k + 1
  }

  // Adds one finished target to the tools of its execution.
  function AddTarget(tools: seq<ExecutionTool>, tool: Tool, target: Target): seq<ExecutionTool> {
    var k := ToolIndex(tools, tool.toolId);
    if k == -1 then tools + [ExecutionTool(tool, [target])]
    else tools[k := ExecutionTool(tools[k].tool, tools[k].targets + [target])]
  }

  function MapToExecutions(executions: Option<seq<Execution>>, event: TargetEvent): seq<Execution> {
    var list := Known(executions);
    var k := ExecutionIndex(list, event.executionId);
    if k == -1 then
      list + [Execution(event.executionId, event.schedule, [ExecutionTool(event.tool, [event.target])])]
    else
      list[..k] + [Execution(list[k].executionId, list[k].schedule, AddTarget(list[k].tools, event.tool, event.target))]
      + list[k + 1..]
  }

  function Known(executions: Option<seq<Execution>>): seq<Execution> {
    if executions.Some? then executions.value else []
  }

  // What a series of events makes of a job's executions.
  function Replay(executions: Option<seq<Execution>>, events: seq<TargetEvent>): Option<seq<Execution>> {
    if events == [] then executions
    else Some(MapToExecutions(Replay(executions, events[..|events| - 1]), events[|events| - 1]))
  }

  lemma ReplayAppend(executions: Option<seq<Execution>>, events: seq<TargetEvent>, event: TargetEvent)
    ensures Replay(executions, events + [event]) == Some(MapToExecutions(Replay(executions, events), event))
  {
    assert (events + [event])[..|events|] == events;
  }

  // The client may replay the snapshot and then take the live events one by one.
  lemma {:induction false} ReplayInParts(executions: Option<seq<Execution>>, first: seq<TargetEvent>, rest: seq<TargetEvent>)
    ensures Replay(executions, first + rest) == Replay(Replay(executions, first), rest)
  {
    if rest == [] {
      assert first + rest == first;
    } else {
      var k := |rest| - 1;
      ReplayInParts(executions, first, rest[..k]);
      assert (first + rest[..k]) + [rest[k]] == first + rest;
      ReplayAppend(executions, first + rest[..k], rest[k]);
    }
  }

  // ---- Tools that have something to show ----

  function WithTargets(tools: seq<ExecutionTool>): (shown: seq<ExecutionTool>)
    ensures forall tool :: tool in shown <==> tool in tools && tool.targets != []
  {
    if tools == [] then []
    else
      var last := tools[|tools| - 1];
      assert tools == tools[..|tools| - 1] + [last];
      WithTargets(tools[..|tools| - 1]) + (if last.targets == [] then [] else [last])
  }

  lemma WithTargetsAppend(tools: seq<ExecutionTool>, tool: ExecutionTool)
    ensures WithTargets(tools + [tool]) == WithTargets(tools) + (if tool.targets == [] then [] else [tool])
  {
    assert (tools + [tool])[..|tools|] == tools;
  }

  ghost predicate DistinctTools(tools: seq<Tool>) {
    forall i, j :: 0 <= i < j < |tools| ==> tools[i].toolId != tools[j].toolId
  }

  // Tools that already returned, and the targets of the tool that is still at work.
  function Progress(mapped: seq<ExecutionTool>, tool: Tool, targets: seq<Target>): seq<ExecutionTool> {
    WithTargets(mapped) + (if targets == [] then [] else [ExecutionTool(tool, targets)])
  }

  // The client puts a finished target where the server put it.
  lemma AddTargetFollowsProgress(mapped: seq<ExecutionTool>, tool: Tool, targets: seq<Target>, target: Target)
    requires forall earlier :: earlier in mapped ==> earlier.tool.toolId != tool.toolId
    ensures AddTarget(Progress(mapped, tool, targets), tool, target) == Progress(mapped, tool, targets + [target])
  {
    var shown := WithTargets(mapped);
    var tools := Progress(mapped, tool, targets);
    forall i | 0 <= i < |shown|
      ensures tools[i].tool.toolId != tool.toolId
    {
      assert tools[i] == shown[i] && shown[i] in mapped;
    }
    if targets != [] {
      assert tools[|shown|] == ExecutionTool(tool, targets);
      assert ToolIndex(tools, tool.toolId) == |shown|;
    } else {
      assert tools == shown && targets + [target] == [target];
    }
  }

  ghost predicate NotAmong(list: seq<Execution>, id: string) {
    forall i :: 0 <= i < |list| ==> list[i].executionId != id
  }

  // An event of a run that the client already shows changes that run only.
  lemma LaterEvent(list: seq<Execution>, shown: Execution, event: TargetEvent)
    requires NotAmong(list, event.executionId) && shown.executionId == event.executionId
    ensures MapToExecutions(Some(list + [shown]), event)
         == list + [shown.(tools := AddTarget(shown.tools, event.tool, event.target))]
  {
    var all := list + [shown];
    assert forall i :: 0 <= i < |list| ==> all[i] == list[i];
    assert all[|list|] == shown;
    assert ExecutionIndex(all, event.executionId) == |list|;
    assert all[..|list|] == list && all[|list| + 1..] == [];
  }
}
