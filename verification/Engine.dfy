/**
 The run engine (nexus/orchestration/engine.py): methods over a mutable run, each proved equal to
 its specification in `RunModel`. A run's rows live in sequence fields the methods reassign.
 */
module Engine {
  import opened Wrappers
  import opened RunModel
  import Planner

  class OrchestrationRun {
    var status: RunStatus
    var steps: seq<RunStep>
    var approvals: seq<Approval>
    var events: seq<RunEvent>

    ghost function State(): RunState
      reads this
    {
      RunState(status, steps, approvals, events)
    }

    constructor (plan: seq<Planner.PlanStep>)
      ensures State() == Create(plan)
    {
      status := Planning;
      steps := seq(|plan|, k requires 0 <= k < |plan| => FromPlan(plan[k]));
      approvals := [];
      events := [RunEvent(1, RunCreated(|plan|))];
    }
  }

  /** Some edge out of step d lands on a, or on a collected step, and not on the frontier. */
  ghost predicate Touches(steps: seq<RunStep>, d: nat, a: int, closed: set<nat>, frontier: seq<int>)
    requires d < |steps|
  {
    exists c :: c in steps[d].dependsOn && (c == a || c in closed) && c !in frontier
  }

  lemma {:induction false} ClosureComplete(steps: seq<RunStep>, a: nat, closed: set<nat>, b: nat)
    requires Dag(steps) && b < |steps| && Reaches(steps, b, a)
    requires forall d: nat :: d < |steps| && Touches(steps, d, a, closed, []) ==> d in closed
    ensures b in closed
    decreases b
  {
    if a !in steps[b].dependsOn {
      var c :| c in steps[b].dependsOn && Reaches(steps, c, a);
      ClosureComplete(steps, a, closed, c);
    }
    assert Touches(steps, b, a, closed, []);
  }

  class OrchestrationEngine {
    const cfg: Config
    /** The runs that were created under an idempotency key. */
    var byKey: map<string, OrchestrationRun>

    constructor (cfg: Config)
      ensures this.cfg == cfg && byKey == map[]
    {
      this.cfg := cfg;
      byKey := map[];
    }

    // ---- creation ------------------------------------------------------------------------

    ghost predicate Known(key: Option<string>)
      reads this
    {
      key.Some? && key.value != "" && key.value in byKey
    }

    /**
     `create_run`: plan the goal and persist its rows, all pending; a key seen before gives the run it
     was first used for, whatever the goal now is.
     */
    method CreateRun(maxSteps: nat, goal: string, key: Option<string>)
      returns (r: Result<OrchestrationRun, Planner.PlanError>)
      modifies this`byKey
      ensures old(Known(key)) ==> r == Ok(old(byKey)[key.value]) && byKey == old(byKey)
      ensures !old(Known(key)) ==> (r.Ok? <==> Planner.Plannable(cfg.tools, maxSteps, goal))
      ensures !old(Known(key)) && r.Ok? ==> fresh(r.value) && exists plan ::
        Planner.Accepted(cfg.tools, plan) && Planner.Serves(cfg.tools, goal, plan) && r.value.State() == Create(plan)
      ensures !old(Known(key)) ==> (r == Err(Planner.UnknownGoal) <==> !Planner.Shipped(goal))
      ensures r.Err? ==> byKey == old(byKey)
      ensures r.Ok? ==> byKey == if key.Some? && key.value != "" then old(byKey)[key.value := r.value] else old(byKey)
    {
      if key.Some? && key.value != "" && key.value in byKey {
        return Ok(byKey[key.value]);
      }
      var planned := Planner.Plan(cfg.tools, maxSteps, goal);
      if planned.Err? {
        return Err(planned.error);
      }
      var run := new OrchestrationRun(planned.value);
      if key.Some? && key.value != "" {
        byKey := byKey[key.value := run];
      }
      return Ok(run);
    }

    // ---- helpers -------------------------------------------------------------------------

    method Emit(run: OrchestrationRun, kind: EventKind)
      modifies run`events
      ensures run.State() == RunModel.Emit(old(run.State()), kind)
    {
      var current := MaxSeq(run.events);
      run.events := run.events + [RunEvent(current + 1, kind)];
    }

    method FindRunnable(steps: seq<RunStep>) returns (r: Option<nat>)
      ensures r == NextRunnable(steps)
    {
      for i := 0 to |steps|
        invariant NextRunnable(steps) == NextRunnableFrom(steps, i)
      {
        if steps[i].status != StepPending {
          continue;
        }
        var ready := true;
        for k := 0 to |steps[i].dependsOn|
          invariant ready <==> forall j :: 0 <= j < k ==>
            var d := steps[i].dependsOn[j]; 0 <= d < |steps| && steps[d].status == StepCompleted
        {
          var d := steps[i].dependsOn[k];
          if !(0 <= d < |steps| && steps[d].status == StepCompleted) {
            ready := false;
          }
        }
        if ready {
          return Some(i);
        }
      }
      return None;
    }

    /** `_dependents`: a worklist over the reversed edges, popping from the end. */
    method Dependents(steps: seq<RunStep>, idx: nat) returns (result: set<nat>)
      requires Dag(steps)
      ensures result == DependentsOf(steps, idx)
    {
      result := {};
      var frontier: seq<int> := [idx];
      while frontier != []
        invariant forall c :: c in frontier ==> c == idx || c in result
        invariant result <= DependentsOf(steps, idx)
        invariant forall b: nat :: b < |steps| && Touches(steps, b, idx, result, frontier) ==> b in result
        decreases DependentsOf(steps, idx) - result, |frontier|
      {
        ghost var before, popped := result, frontier;
        var cur := frontier[|frontier| - 1];
        frontier := frontier[..|frontier| - 1];
        ghost var rest := frontier;
        result, frontier := Collect(steps, idx, cur, result, frontier);
        assert popped == rest + [cur];
        forall b: nat | b < |steps| && Touches(steps, b, idx, result, frontier)
          ensures b in result
        {
          var c :| c in steps[b].dependsOn && (c == idx || c in result) && c !in frontier;
          if c != cur {
            assert Touches(steps, b, idx, before, popped);
          }
        }
      }
      forall b | b in DependentsOf(steps, idx)
        ensures b in result
      {
        ClosureComplete(steps, idx, result, b);
      }
    }

    /** The inner loop: what depends directly on `cur` and is new is collected and put on the frontier. */
    method Collect(steps: seq<RunStep>, idx: nat, cur: int, before: set<nat>, rest: seq<int>)
      returns (result: set<nat>, frontier: seq<int>)
      requires Dag(steps) && before <= DependentsOf(steps, idx) && (cur == idx || cur in before)
      requires forall c :: c in rest ==> c == idx || c in before
      ensures before <= result <= DependentsOf(steps, idx)
      ensures forall c :: c in frontier ==> c == idx || c in result
      ensures forall c :: c in rest ==> c in frontier
      ensures result == before ==> frontier == rest
      ensures forall b: nat :: b < |steps| && cur in steps[b].dependsOn ==> b in result
      ensures forall c :: c in result && c !in before ==> c in frontier
    {
      result, frontier := before, rest;
      for j := 0 to |steps|
        invariant forall c :: c in frontier ==> c == idx || c in result
        invariant forall c :: c in rest ==> c in frontier
        invariant before <= result <= DependentsOf(steps, idx)
        invariant result == before ==> frontier == rest
        invariant forall b: nat :: b < j && cur in steps[b].dependsOn ==> b in result
        invariant forall c :: c in result && c !in before ==> c in frontier
      {
        if cur in steps[j].dependsOn && j !in result {
          assert cur == idx || Reaches(steps, cur, idx);
          assert j in DependentsOf(steps, idx);
          result := result + {j};
          frontier := frontier + [j];
        }
      }
    }

    /** `_cascade_skip`. The source walks a Python set, in no order the program fixes. */
    method CascadeSkip(run: OrchestrationRun, idx: nat)
      requires Dag(run.steps)
      modifies run`steps, run`events
      ensures run.State() == RunModel.CascadeSkip(old(run.State()), idx)
    {
      var todo := Dependents(run.steps, idx);
      ghost var all := todo;
      var skipped: set<nat> := {};
      while todo != {}
        invariant todo <= all == DependentsOf(old(run.steps), idx)
        invariant forall b :: b in skipped <==> b in all && b !in todo && old(run.steps)[b].status == StepPending
        invariant |run.steps| == |old(run.steps)| && run.events == old(run.events)
        invariant forall k :: 0 <= k < |run.steps| ==>
          run.steps[k] == if k in skipped then old(run.steps)[k].(status := StepSkipped) else old(run.steps)[k]
        decreases todo
      {
        var d :| d in todo;
        todo := todo - {d};
        if run.steps[d].status == StepPending {
          run.steps := run.steps[d := run.steps[d].(status := StepSkipped)];
          skipped := skipped + {d};
        }
      }
      assert skipped == SkipSet(old(run.steps), idx);
      assert run.steps == SkipAll(old(run.steps), skipped);
      if skipped != {} {
        Emit(run, StepsSkipped(skipped));
      } else {
        assert run.steps == old(run.steps);
      }
    }

    method Finalize(run: OrchestrationRun)
      modifies run`status, run`events
      ensures run.State() == RunModel.Finalize(old(run.State()))
    {
      var anyFailed, anyAwaiting, allTerminal := false, false, true;
      for k := 0 to |run.steps|
        invariant anyFailed <==> exists j :: 0 <= j < k && run.steps[j].status == StepFailed
        invariant anyAwaiting <==> exists j :: 0 <= j < k && run.steps[j].status == StepAwaiting
        invariant allTerminal <==> forall j :: 0 <= j < k ==> StepTerminal(run.steps[j].status)
      {
        anyFailed := anyFailed || run.steps[k].status == StepFailed;
        anyAwaiting := anyAwaiting || run.steps[k].status == StepAwaiting;
        allTerminal := allTerminal && StepTerminal(run.steps[k].status);
      }
      if anyFailed {
        run.status := Failed;
        Emit(run, RunFailedEvent);
      } else if anyAwaiting {
        run.status := AwaitingApproval;
      } else if allTerminal {
        run.status := Completed;
        Emit(run, RunCompletedEvent);
      } else {
        run.status := Running;
      }
    }

    // ---- execution -----------------------------------------------------------------------

    /** The retry loop of `_run_step`. */
    method RetryTool(run: OrchestrationRun, i: nat, tools: ToolOracle) returns (ok: bool)
      requires i < |run.steps| && run.steps[i].tool in cfg.tools
      modifies run`steps
      ensures run.steps == old(run.steps)[i := AfterTool(cfg, old(run.steps)[i], i, tools)]
      ensures ok == ToolSucceeds(cfg, old(run.steps)[i], i, tools)
    {
      ghost var row := run.steps[i];
      for attempt := 1 to cfg.maxAttempts + 1
        invariant |run.steps| == |old(run.steps)|
        invariant forall k :: 0 <= k < |run.steps| && k != i ==> run.steps[k] == old(run.steps)[k]
        invariant run.steps[i] == row.(attempts := if attempt == 1 then row.attempts else attempt - 1)
        invariant FirstSuccess(tools, i, 1, cfg.maxAttempts) == FirstSuccess(tools, i, attempt, cfg.maxAttempts)
      {
        run.steps := run.steps[i := run.steps[i].(attempts := attempt)];
        if tools(i, attempt) {
          run.steps := run.steps[i := run.steps[i].(status := StepCompleted)];
          return true;
        }
      }
      run.steps := run.steps[i := run.steps[i].(status := StepFailed)];
      return false;
    }

    /** `_run_step`. While the tool runs, the row reads "running". */
    method RunStepTool(run: OrchestrationRun, i: nat, tools: ToolOracle) returns (ok: bool)
      requires i < |run.steps|
      modifies run`steps, run`events
      ensures run.State() == RunTool(cfg, old(run.State()), i, tools)
      ensures ok == ToolSucceeds(cfg, old(run.steps)[i], i, tools)
    {
      hide MaxSeq, FirstSuccess;
      if run.steps[i].tool !in cfg.tools {
        run.steps := run.steps[i := run.steps[i].(status := StepFailed)];
        Emit(run, StepBroke(i));
        return false;
      }
      run.steps := run.steps[i := run.steps[i].(status := StepRunning)];
      Emit(run, StepStarted(i));
      ok := RetryTool(run, i, tools);
      assert run.steps == old(run.steps)[i := AfterTool(cfg, old(run.steps)[i], i, tools)];
      Emit(run, if ok then StepDone(i) else StepBroke(i));
    }

    method Park(run: OrchestrationRun, i: nat)
      requires i < |run.steps|
      modifies run
      ensures run.State() == RunModel.Park(old(run.State()), i)
    {
      var id := |run.approvals|;
      run.approvals := run.approvals + [Approval(i, ApprovalPending)];
      run.steps := run.steps[i := run.steps[i].(status := StepAwaiting, approvalId := Some(id))];
      run.status := AwaitingApproval;
      Emit(run, GateRequested(id, i));
    }

    /**
     `_drive`. Each turn of the loop that neither parks nor breaks uses up one pending step, so the
     loop turns at most `pending + 1` times and the runaway cap is never reached.
     */
    method Drive(run: OrchestrationRun, tools: ToolOracle) returns (iterations: nat)
      requires Dag(run.steps)
      modifies run
      ensures run.State() == RunModel.Drive(cfg, old(run.State()), tools)
      ensures 1 <= iterations <= PendingCount(old(run.steps)) + 1
    {
      var maxIterations := |run.steps| * 2 + 8;
      iterations := 0;
      while true
        invariant Dag(run.steps) && |run.steps| == |old(run.steps)|
        invariant RunModel.Drive(cfg, old(run.State()), tools) == RunModel.Drive(cfg, run.State(), tools)
        invariant iterations + PendingCount(run.steps) == PendingCount(old(run.steps))
        decreases PendingCount(run.steps)
      {
        hide MaxSeq, ToolLog, AfterTool, RunModel.Finalize, RunModel.CascadeSkip, RunModel.Park;
        iterations := iterations + 1;
        if iterations > maxIterations {
          // The backstop of the source: fail the next runnable step and stop.
          assert false;
        }
        var next := FindRunnable(run.steps);
        if next.None? {
          break;
        }
        var i := next.value;
        if run.steps[i].requiresApproval {
          Park(run, i);
          return;
        }
        ghost var before := run.State();
        RunToolShape(cfg, before, i, tools);
        AfterToolShape(cfg, before.steps[i], i, tools);
        RunToolPending(cfg, before, i, tools);
        var ok := RunStepTool(run, i, tools);
        if !ok {
          CascadeSkip(run, i);
          Finalize(run);
          return;
        }
      }
      Finalize(run);
    }

    method ExecuteRun(run: OrchestrationRun, tools: ToolOracle)
      requires Dag(run.steps)
      modifies run
      ensures run.State() == Execute(cfg, old(run.State()), tools)
    {
      if RunTerminal(run.status) {
        return;
      }
      run.status := Running;
      var _ := Drive(run, tools);
    }

    // ---- approval ------------------------------------------------------------------------

    method DecideApproval(run: OrchestrationRun, id: nat, decision: string, tools: ToolOracle)
      returns (error: Option<EngineError>)
      requires Dag(run.steps)
      modifies run
      ensures error == DecideError(old(run.State()), id, decision)
      ensures run.State() == Decide(cfg, old(run.State()), id, decision, tools)
    {
      if decision != "approve" && decision != "reject" {
        return Some(InvalidDecision);
      }
      if id >= |run.approvals| {
        return Some(ApprovalNotFound);
      }
      if run.approvals[id].status != ApprovalPending {
        return Some(AlreadyDecided);
      }
      var i := run.approvals[id].stepIdx;
      if i >= |run.steps| {
        return Some(StepNotFound);
      }
      hide MaxSeq, ToolLog, AfterTool, RunModel.Finalize, RunModel.CascadeSkip, RunModel.Drive, ToolSucceeds;
      ghost var before := run.State();
      if decision == "reject" {
        run.approvals := run.approvals[id := run.approvals[id].(status := ApprovalRejected)];
        run.steps := run.steps[i := run.steps[i].(status := StepRejected)];
        Emit(run, GateRejected(id, i));
        CascadeSkip(run, i);
        Finalize(run);
        return None;
      }
      run.approvals := run.approvals[id := run.approvals[id].(status := ApprovalApproved)];
      run.status := Running;
      Emit(run, GateApproved(id, i));
      assert run.State() == MarkApproved(before, id);
      RunToolShape(cfg, run.State(), i, tools);
      AfterToolShape(cfg, before.steps[i], i, tools);
      var ok := RunStepTool(run, i, tools);
      if !ok {
        CascadeSkip(run, i);
        Finalize(run);
      } else {
        var _ := Drive(run, tools);
      }
      return None;
    }

    /** `redraft`: the messaging agent rewrites the parked draft; the gate stays where it is. */
    method RedraftApproval(run: OrchestrationRun, id: nat, hasInstructions: bool, hasAccount: bool, agentOk: bool)
      returns (error: Option<EngineError>)
      modifies run`events
      ensures error == RedraftError(old(run.State()), id, hasInstructions, hasAccount, agentOk)
      ensures run.State() == Redraft(old(run.State()), id, hasInstructions, hasAccount, agentOk)
    {
      if !hasInstructions {
        return Some(NoInstructions);
      }
      if id >= |run.approvals| {
        return Some(ApprovalNotFound);
      }
      if run.approvals[id].status != ApprovalPending {
        return Some(AlreadyDecided);
      }
      if !hasAccount {
        return Some(NoAccount);
      }
      if !agentOk {
        return Some(RedraftFailed);
      }
      Emit(run, GateRedrafted(id));
      return None;
    }

    // ---- cancellation --------------------------------------------------------------------

    method CancelRun(run: OrchestrationRun)
      modifies run
      ensures run.State() == Cancel(old(run.State()))
    {
      if RunTerminal(run.status) {
        return;
      }
      ghost var steps0, approvals0 := run.steps, run.approvals;
      for k := 0 to |run.steps|
        invariant |run.steps| == |steps0| && |run.approvals| == |approvals0|
        invariant forall j :: 0 <= j < |steps0| ==>
          run.steps[j] == if j < k then CancelledStep(steps0[j]) else steps0[j]
        invariant forall a :: 0 <= a < |approvals0| ==>
          run.approvals[a] ==
            if approvals0[a].status == ApprovalPending && CancelRejects(steps0[..k], a)
            then approvals0[a].(status := ApprovalRejected) else approvals0[a]
        invariant run.status == old(run.status) && run.events == old(run.events)
      {
        assert steps0[..k + 1] == steps0[..k] + [steps0[k]];
        assert run.steps[k] == steps0[k];
        if run.steps[k].status == StepAwaiting && run.steps[k].approvalId.Some? {
          var id := run.steps[k].approvalId.value;
          if id < |run.approvals| && run.approvals[id].status == ApprovalPending {
            run.approvals := run.approvals[id := run.approvals[id].(status := ApprovalRejected)];
          }
        }
        CancelRejectsGrows(steps0, k);
        if run.steps[k].status in {StepPending, StepAwaiting} {
          run.steps := run.steps[k := run.steps[k].(status := StepSkipped)];
        }
      }
      assert steps0[..|steps0|] == steps0;
      run.status := Cancelled;
      Emit(run, RunCancelledEvent);
    }
  }

  lemma CancelRejectsGrows(steps: seq<RunStep>, k: nat)
    requires k < |steps|
    ensures forall a: nat :: CancelRejects(steps[..k + 1], a) <==>
      CancelRejects(steps[..k], a) || (steps[k].status == StepAwaiting && steps[k].approvalId == Some(a))
  {
    forall a: nat
      ensures CancelRejects(steps[..k + 1], a) <==>
        CancelRejects(steps[..k], a) || (steps[k].status == StepAwaiting && steps[k].approvalId == Some(a))
    {
      if CancelRejects(steps[..k], a) {
        var j :| 0 <= j < k && steps[..k][j].status == StepAwaiting && steps[..k][j].approvalId == Some(a);
        assert steps[..k + 1][j] == steps[j];
      }
      if steps[k].status == StepAwaiting && steps[k].approvalId == Some(a) {
        assert steps[..k + 1][k] == steps[k];
      }
      if CancelRejects(steps[..k + 1], a) {
        var j :| 0 <= j < k + 1 && steps[..k + 1][j].status == StepAwaiting && steps[..k + 1][j].approvalId == Some(a);
        assert j < k ==> steps[..k][j] == steps[j];
      }
    }
  }
}
