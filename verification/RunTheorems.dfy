/**
 What the joint invariant gives for whole runs: where an operation can stop, what a reviewer's gate
 guarantees, which rows are frozen, and exactly when a terminal run is final.
 */
module RunTheorems {
  import opened Wrappers
  import opened RunModel
  import opened RunInvariant
  import Planner

  // ---- Where an operation stops ----------------------------------------------------------

  /**
   Quiescence: whatever the tools do, executing a run that is not terminal leaves it completed,
   failed or waiting for a reviewer, with no step mid-flight; completed means every step is over
   and none failed.
   */
  lemma ExecuteQuiesces(cfg: Config, s: RunState, tools: ToolOracle)
    requires Inv(s) && !RunTerminal(s.status)
    ensures var r := Execute(cfg, s, tools);
      && r.status in {Completed, Failed, AwaitingApproval}
      && NoRunning(r.steps)
      && (r.status == Completed ==> Drained(r.steps) && !AnyStep(r.steps, StepFailed))
      && (r.status == Failed ==> AnyStep(r.steps, StepFailed))
      && (r.status == AwaitingApproval ==> AnyStep(r.steps, StepAwaiting))
  {
    hide MaxSeq, Drive;
    SettledStatus(s, Running);
    DriveInv(cfg, s.(status := Running), tools);
  }

  /** The same for an approval: it drives on, so it never leaves the run running either. */
  lemma ApproveQuiesces(cfg: Config, s: RunState, id: nat, tools: ToolOracle)
    requires Inv(s) && DecideError(s, id, "approve") == None
    ensures Decide(cfg, s, id, "approve", tools).status in {Completed, Failed, AwaitingApproval}
  {
    hide MaxSeq, Approve;
    ApproveInv(cfg, s, id, tools);
  }

  lemma SkipAllAt(steps: seq<RunStep>, hit: set<nat>, k: nat)
    requires k < |steps|
    ensures SkipAll(steps, hit)[k] == if k in hit then steps[k].(status := StepSkipped) else steps[k]
  {
  }

  /** The rows a rejection leaves behind. */
  lemma RejectRows(s: RunState, id: nat, k: nat)
    requires Inv(s) && DecideError(s, id, "reject") == None && k < |s.steps|
    ensures var i := s.approvals[id].stepIdx;
      var r := Reject(s, id);
      && |r.steps| == |s.steps|
      && r.steps[k].status ==
           if k == i then StepRejected
           else if s.steps[k].status == StepPending && Reaches(s.steps, k, i) then StepSkipped
           else s.steps[k].status
  {
    hide MaxSeq, CascadeSkip, Finalize, Linked, Gated, DepsDone, Unblocked, SkipsExplained;
    var i := s.approvals[id].stepIdx;
    var m := MarkRejected(s, id);
    CascadeShape(m, i);
    FinalizeShape(CascadeSkip(m, i));
    assert m.steps == s.steps[i := s.steps[i].(status := StepRejected)];
    ReachesSameShape(m.steps, s.steps, k, i);
    SkipAllAt(m.steps, SkipSet(m.steps, i), k);
  }

  /**
   A rejection rolls up without driving, so it can leave the run "running" with nothing in
   flight: exactly when no step has failed, no other gate is open, and a pending step does not
   depend on the rejected one.
   */
  lemma RejectLeavesRunning(s: RunState, id: nat)
    requires Inv(s) && DecideError(s, id, "reject") == None
    ensures var i := s.approvals[id].stepIdx;
      Reject(s, id).status == Running <==>
        && !AnyStep(s.steps, StepFailed)
        && (forall k :: 0 <= k < |s.steps| && k != i ==> s.steps[k].status != StepAwaiting)
        && (exists b :: 0 <= b < |s.steps| && s.steps[b].status == StepPending && !Reaches(s.steps, b, i))
  {
    hide Reject, Inv, Settled, Reaches;
    InvDag(s);
    var i := s.approvals[id].stepIdx;
    var r := Reject(s, id);
    RejectRollup(s, id);
    OldStatuses(s, id);
    forall k: nat | k < |s.steps|
      ensures r.steps[k].status ==
        if k == i then StepRejected
        else if s.steps[k].status == StepPending && Reaches(s.steps, k, i) then StepSkipped
        else s.steps[k].status
    {
      RejectRows(s, id, k);
    }
    assert AnyStep(r.steps, StepFailed) <==> AnyStep(s.steps, StepFailed) by {
      if k :| 0 <= k < |s.steps| && s.steps[k].status == StepFailed {
        assert r.steps[k].status == StepFailed;
      }
    }
    assert AnyStep(r.steps, StepAwaiting) <==>
      exists k :: 0 <= k < |s.steps| && k != i && s.steps[k].status == StepAwaiting by {
      if k :| 0 <= k < |s.steps| && k != i && s.steps[k].status == StepAwaiting {
        assert r.steps[k].status == StepAwaiting;
      }
    }
    if b :| 0 <= b < |s.steps| && s.steps[b].status == StepPending && !Reaches(s.steps, b, i) {
      assert r.steps[b].status == StepPending;
      assert !Drained(r.steps);
    }
    if !AnyStep(r.steps, StepAwaiting) && !Drained(r.steps) {
      var b :| 0 <= b < |r.steps| && !StepTerminal(r.steps[b].status);
      assert r.steps[b].status == StepPending;
    }
  }

  lemma RejectRollup(s: RunState, id: nat)
    requires Inv(s) && DecideError(s, id, "reject") == None
    ensures var r := Reject(s, id);
      && |r.steps| == |s.steps| && NoRunning(r.steps)
      && (r.status == Running <==>
            !AnyStep(r.steps, StepFailed) && !AnyStep(r.steps, StepAwaiting) && !Drained(r.steps))
  {
    hide MaxSeq, CascadeSkip, Finalize, Linked, Gated, DepsDone, Unblocked, SkipsExplained;
    var i := s.approvals[id].stepIdx;
    var m := MarkRejected(s, id);
    MarkRejectedInv(s, id);
    CascadeInv(m, i);
    CascadeShape(m, i);
    FinalizeInv(CascadeSkip(m, i));
  }

  lemma CoreDag(s: RunState)
    requires Core(s)
    ensures Dag(s.steps)
  {
  }

  lemma OldStatuses(s: RunState, id: nat)
    requires Inv(s) && DecideError(s, id, "reject") == None
    ensures s.steps[s.approvals[id].stepIdx].status == StepAwaiting
  {
  }

  // ---- What never changes again ----------------------------------------------------------

  /** Later rows of the same run: the log grows, and what was settled stays as it was. */
  predicate Evolves(s: RunState, r: RunState) {
    && |r.steps| == |s.steps|
    && s.events <= r.events
    && |s.approvals| <= |r.approvals|
    && (forall i :: 0 <= i < |s.steps| && StepTerminal(s.steps[i].status) ==> r.steps[i] == s.steps[i])
    && (forall a :: 0 <= a < |s.approvals| ==>
          && r.approvals[a].stepIdx == s.approvals[a].stepIdx
          && (s.approvals[a].status != ApprovalPending ==> r.approvals[a] == s.approvals[a]))
  }

  lemma EvolvesTrans(s: RunState, t: RunState, r: RunState)
    requires Evolves(s, t) && Evolves(t, r)
    ensures Evolves(s, r)
  {
  }

  lemma RunToolEvolves(cfg: Config, s: RunState, i: nat, tools: ToolOracle)
    requires i < |s.steps| && !StepTerminal(s.steps[i].status)
    ensures Evolves(s, RunTool(cfg, s, i, tools))
  {
    hide MaxSeq, AfterTool, ToolSucceeds;
  }

  lemma CascadeEvolves(s: RunState, i: nat)
    requires Dag(s.steps)
    ensures Evolves(s, CascadeSkip(s, i))
  {
    hide MaxSeq, Reaches;
  }

  lemma FinalizeEvolves(s: RunState)
    ensures Evolves(s, Finalize(s))
  {
    hide MaxSeq;
  }

  lemma WindDownEvolves(s: RunState, i: nat)
    requires Dag(s.steps)
    ensures Evolves(s, Finalize(CascadeSkip(s, i)))
  {
    hide MaxSeq, CascadeSkip, Finalize;
    CascadeEvolves(s, i);
    FinalizeEvolves(CascadeSkip(s, i));
  }

  lemma {:induction false} DriveEvolves(cfg: Config, s: RunState, tools: ToolOracle)
    requires Dag(s.steps)
    ensures Evolves(s, Drive(cfg, s, tools))
    decreases PendingCount(s.steps)
  {
    hide MaxSeq, ToolLog, AfterTool, RunTool, ToolSucceeds, CascadeSkip, Finalize, PendingCount;
    match NextRunnable(s.steps)
    case None => FinalizeEvolves(s);
    case Some(i) =>
      if !s.steps[i].requiresApproval {
        var r := RunTool(cfg, s, i, tools);
        RunToolEvolves(cfg, s, i, tools);
        RunToolPending(cfg, s, i, tools);
        RunToolShape(cfg, s, i, tools);
        AfterToolShape(cfg, s.steps[i], i, tools);
        if ToolSucceeds(cfg, s.steps[i], i, tools) {
          DriveEvolves(cfg, r, tools);
        } else {
          WindDownEvolves(r, i);
        }
      }
  }

  lemma ApproveEvolves(cfg: Config, s: RunState, id: nat, tools: ToolOracle)
    requires Inv(s) && DecideError(s, id, "approve") == None
    ensures Evolves(s, Approve(cfg, s, id, tools))
  {
    hide MaxSeq, ToolLog, AfterTool, RunTool, ToolSucceeds, CascadeSkip, Finalize, Drive;
    var i := s.approvals[id].stepIdx;
    var m := MarkApproved(s, id);
    var r := RunTool(cfg, m, i, tools);
    assert Evolves(s, m);
    RunToolEvolves(cfg, m, i, tools);
    RunToolShape(cfg, m, i, tools);
    AfterToolShape(cfg, s.steps[i], i, tools);
    if ToolSucceeds(cfg, s.steps[i], i, tools) {
      DriveEvolves(cfg, r, tools);
    } else {
      WindDownEvolves(r, i);
    }
  }

  lemma RejectEvolves(s: RunState, id: nat)
    requires Inv(s) && DecideError(s, id, "reject") == None
    ensures Evolves(s, Reject(s, id))
  {
    hide MaxSeq, CascadeSkip, Finalize;
    OldStatuses(s, id);
    var m := MarkRejected(s, id);
    assert Evolves(s, m);
    WindDownEvolves(m, s.approvals[id].stepIdx);
  }

  /** Every operation only appends to the log, and rewrites no finished step and no decided approval. */
  lemma ApplyEvolves(cfg: Config, s: RunState, op: Op)
    requires Inv(s)
    ensures Evolves(s, Apply(cfg, s, op))
  {
    hide MaxSeq, CascadeSkip, Finalize, Drive, Reject, Approve, Core, Rollup;
    InvDag(s);
    match op
    case OpExecute(tools) =>
      DriveEvolves(cfg, s.(status := Running), tools);
    case OpDecide(id, decision, tools) =>
      if DecideError(s, id, decision).None? {
        if decision == "reject" {
          RejectEvolves(s, id);
        } else {
          ApproveEvolves(cfg, s, id, tools);
        }
      }
    case OpRedraft(_, _, _, _) =>
    case OpCancel =>
  }

  /** Over any continuation of any run: an approval is decided at most once, a step finishes at most once. */
  lemma {:induction false} DecidedOnce(cfg: Config, s: RunState, ops: seq<Op>)
    requires Inv(s)
    ensures Inv(ApplyAll(cfg, s, ops)) && Evolves(s, ApplyAll(cfg, s, ops))
    decreases |ops|
  {
    hide Inv, Apply, Evolves;
    InvDag(s);
    if ops == [] {
      EvolvesRefl(s);
    } else {
      var t := ApplyAll(cfg, s, ops[..|ops| - 1]);
      DecidedOnce(cfg, s, ops[..|ops| - 1]);
      ApplyInv(cfg, t, ops[|ops| - 1]);
      ApplyEvolves(cfg, t, ops[|ops| - 1]);
      EvolvesTrans(s, t, ApplyAll(cfg, s, ops));
    }
  }

  lemma EvolvesRefl(s: RunState)
    ensures Evolves(s, s)
  {
  }

  lemma {:induction false} ApplyAllShape(cfg: Config, s: RunState, ops: seq<Op>)
    requires Dag(s.steps)
    ensures SameShape(s.steps, ApplyAll(cfg, s, ops).steps)
    decreases |ops|
  {
    hide Apply;
    if ops != [] {
      ApplyAllShape(cfg, s, ops[..|ops| - 1]);
      ApplyShape(cfg, ApplyAll(cfg, s, ops[..|ops| - 1]), ops[|ops| - 1]);
    }
  }

  // ---- The gate --------------------------------------------------------------------------

  /**
   Gate safety over all runs: a step of a gated tool has been attempted, or has ended, only when
   its approval row says approved; and an approval is pending exactly while its step waits.
   */
  lemma GateSafety(cfg: Config, plan: seq<Planner.PlanStep>, ops: seq<Op>, i: nat)
    requires Planner.Accepted(cfg.tools, plan) && i < |plan|
    requires cfg.tools[plan[i].tool] || plan[i].requiresApproval
    ensures Dag(Create(plan).steps)
    ensures var s := ApplyAll(cfg, Create(plan), ops);
      && |s.steps| == |plan|
      && (s.steps[i].attempts > 0 || s.steps[i].status in {StepRunning, StepCompleted, StepFailed} ==>
            exists a :: 0 <= a < |s.approvals| && s.approvals[a] == Approval(i, ApprovalApproved))
      && (s.steps[i].status == StepAwaiting <==>
            exists a :: 0 <= a < |s.approvals| && s.approvals[a] == Approval(i, ApprovalPending))
  {
    hide MaxSeq, ApplyAll, Reaches, DepsDone, Unblocked, SkipsExplained;
    CreateInv(cfg.tools, plan);
    InvHoldsInEveryRun(cfg, plan, ops);
    ApplyAllShape(cfg, Create(plan), ops);
    var s := ApplyAll(cfg, Create(plan), ops);
    assert s.steps[i].requiresApproval;
    if s.steps[i].approvalId.Some? {
      var a := s.steps[i].approvalId.value;
      assert s.approvals[a] == Approval(i, s.approvals[a].status);
    }
  }

  /** The shipped sender is such a tool: no run sends without a reviewer's approval of that step. */
  lemma SendNeedsApproval(maxAttempts: nat, plan: seq<Planner.PlanStep>, ops: seq<Op>, i: nat)
    requires Planner.Accepted(Planner.SHIPPED_TOOLS, plan) && i < |plan| && plan[i].tool == "send_message"
    ensures Dag(Create(plan).steps)
    ensures var s := ApplyAll(Config(Planner.SHIPPED_TOOLS, maxAttempts), Create(plan), ops);
      |s.steps| == |plan| && (s.steps[i].attempts > 0 ==>
        exists a :: 0 <= a < |s.approvals| && s.approvals[a] == Approval(i, ApprovalApproved))
  {
    hide Inv, Create, ApplyAll;
    GateSafety(Config(Planner.SHIPPED_TOOLS, maxAttempts), plan, ops, i);
  }

  // ---- Terminal runs ---------------------------------------------------------------------

  predicate AnyPendingApproval(s: RunState) {
    exists a :: 0 <= a < |s.approvals| && s.approvals[a].status == ApprovalPending
  }

  /**
   A terminal run is final, under every operation, exactly when no approval is still pending; only
   a failed run can have one.
   */
  lemma TerminalIsFinalIff(cfg: Config, s: RunState)
    requires Inv(s) && RunTerminal(s.status)
    ensures (forall op :: Apply(cfg, s, op) == s) <==> !AnyPendingApproval(s)
    ensures AnyPendingApproval(s) ==> s.status == Failed
  {
    hide MaxSeq, Drive, Approve, CascadeSkip, Finalize;
    if AnyPendingApproval(s) {
      var a :| 0 <= a < |s.approvals| && s.approvals[a].status == ApprovalPending;
      var op := OpDecide(a, "reject", (i, k) => false);
      RejectEvolves(s, a);
      RejectMarks(s, a);
      assert Apply(cfg, s, op).approvals[a] != s.approvals[a];
    } else {
      forall op
        ensures Apply(cfg, s, op) == s
      {
      }
    }
  }

  lemma RejectMarks(s: RunState, a: nat)
    requires Inv(s) && DecideError(s, a, "reject") == None
    ensures a < |Reject(s, a).approvals| && Reject(s, a).approvals[a].status == ApprovalRejected
  {
    hide MaxSeq, CascadeSkip, Finalize;
    var m := MarkRejected(s, a);
    CascadeShape(m, s.approvals[a].stepIdx);
    FinalizeShape(CascadeSkip(m, s.approvals[a].stepIdx));
  }

  /** Each step depends on the one before it. */
  predicate ChainSteps(steps: seq<RunStep>) {
    forall i :: 0 < i < |steps| ==> i - 1 in steps[i].dependsOn
  }

  lemma ShapeOfChain(plan: seq<Planner.PlanStep>, steps: seq<RunStep>)
    requires Planner.Chain(plan) && SameShape(Create(plan).steps, steps)
    ensures ChainSteps(steps)
  {
    forall i | 0 < i < |steps|
      ensures i - 1 in steps[i].dependsOn
    {
      assert steps[i].dependsOn == Create(plan).steps[i].dependsOn == plan[i].dependsOn;
    }
  }

  lemma {:induction false} ChainReaches(steps: seq<RunStep>, b: nat, a: nat)
    requires Dag(steps) && a < b < |steps|
    requires ChainSteps(steps)
    ensures Reaches(steps, b, a)
    decreases b
  {
    if a < b - 1 {
      ChainReaches(steps, b - 1, a);
    }
  }

  /** In a chain a failed step and an awaiting one exclude each other. */
  lemma NoParallelGates(s: RunState)
    requires Inv(s) && RunTerminal(s.status) && ChainSteps(s.steps)
    ensures !AnyPendingApproval(s) || s.status != Failed
  {
    hide MaxSeq, Unblocked, SkipsExplained;
    if AnyPendingApproval(s) && s.status == Failed {
      var a :| 0 <= a < |s.approvals| && s.approvals[a].status == ApprovalPending;
      var i := s.approvals[a].stepIdx;
      var f :| 0 <= f < |s.steps| && s.steps[f].status == StepFailed;
      assert s.steps[i].status == StepAwaiting;
      if f < i {
        ChainReaches(s.steps, i, f);
        ReachedDepsDone(s.steps, i, f);
      } else {
        ChainReaches(s.steps, f, i);
        ReachedDepsDone(s.steps, f, i);
      }
    }
  }

  /** In a plan without parallel branches a failed run has no open gate, so terminal is final. */
  lemma ChainRunsEnd(cfg: Config, plan: seq<Planner.PlanStep>, ops: seq<Op>, op: Op)
    requires Planner.Accepted(cfg.tools, plan) && Planner.Chain(plan)
    ensures Dag(Create(plan).steps)
    ensures var s := ApplyAll(cfg, Create(plan), ops);
      RunTerminal(s.status) ==> Apply(cfg, s, op) == s
  {
    hide MaxSeq, ApplyAll, Apply, Inv, Create, ChainSteps, SameShape, AnyPendingApproval;
    CreateInv(cfg.tools, plan);
    InvHoldsInEveryRun(cfg, plan, ops);
    ApplyAllShape(cfg, Create(plan), ops);
    var s := ApplyAll(cfg, Create(plan), ops);
    ShapeOfChain(plan, s.steps);
    if RunTerminal(s.status) {
      TerminalIsFinalIff(cfg, s);
      NoParallelGates(s);
    }
  }

  /** Two independent gates around an ungated step. */
  const PARALLEL: seq<Planner.PlanStep> :=
    [Planner.PlanStep(0, "send_message", [], true),
     Planner.PlanStep(1, "research", [], false),
     Planner.PlanStep(2, "send_message", [], true)]

  /**
   Without that restriction a failed run comes back: the ungated step fails while a gate is open,
   and approving the gate drives the run on to the next gate, out of its terminal status.
   */
  lemma FailedRunReopens(maxAttempts: nat)
    requires maxAttempts > 0
    ensures var cfg := Config(Planner.SHIPPED_TOOLS, maxAttempts);
      var fails: ToolOracle := (i, k) => i != 1;
      && Planner.Accepted(cfg.tools, PARALLEL)
      && var s := Create(PARALLEL);
         && Dag(s.steps)
         && var parked := Execute(cfg, s, fails);
            && Dag(parked.steps)
            && var failed := Execute(cfg, parked, fails);
               && Dag(failed.steps)
               && failed.status == Failed
               && Decide(cfg, failed, 0, "approve", fails).status == AwaitingApproval
  {
    var cfg := Config(Planner.SHIPPED_TOOLS, maxAttempts);
    var fails: ToolOracle := (i, k) => i != 1;
    ParksFirst(cfg, fails);
    hide Execute, Drive, Finalize, Park, MaxSeq;
    var parked := Execute(cfg, Create(PARALLEL), fails);
    ThenBreaks(cfg, parked, fails);
    ThenReopens(cfg, Execute(cfg, parked, fails), fails);
  }

  /** The rows of the three steps: the first gated and waiting, the second free, the third gated. */
  predicate ParallelRows(s: RunState, second: StepStatus) {
    && |s.steps| == 3 && |s.approvals| == 1 && s.approvals[0] == Approval(0, ApprovalPending)
    && (forall k :: 0 <= k < 3 ==> s.steps[k].dependsOn == [] && s.steps[k].tool in Planner.SHIPPED_TOOLS)
    && s.steps[0].requiresApproval && !s.steps[1].requiresApproval && s.steps[2].requiresApproval
    && s.steps[0].status == StepAwaiting && s.steps[1].status == second && s.steps[2].status == StepPending
  }

  lemma ParksFirst(cfg: Config, tools: ToolOracle)
    ensures Planner.Accepted(Planner.SHIPPED_TOOLS, PARALLEL) && Dag(Create(PARALLEL).steps)
    ensures var parked := Execute(cfg, Create(PARALLEL), tools);
      ParallelRows(parked, StepPending) && parked.status == AwaitingApproval
  {
    hide MaxSeq, Finalize;
    var s := Create(PARALLEL);
    assert s.steps == [FromPlan(PARALLEL[0]), FromPlan(PARALLEL[1]), FromPlan(PARALLEL[2])];
    assert NextRunnable(s.steps) == Some(0);
  }

  lemma ThenBreaks(cfg: Config, parked: RunState, tools: ToolOracle)
    requires ParallelRows(parked, StepPending) && parked.status == AwaitingApproval
    requires cfg.tools == Planner.SHIPPED_TOOLS && forall k: nat :: !tools(1, k)
    ensures Dag(parked.steps)
    ensures var failed := Execute(cfg, parked, tools);
      ParallelRows(failed, StepFailed) && failed.status == Failed
  {
    hide MaxSeq, Finalize;
    assert NextRunnableFrom(parked.steps, 0) == NextRunnableFrom(parked.steps, 1) == Some(1);
    SecondBreaks(RunTool(cfg, parked.(status := Running), 1, tools));
  }

  lemma ThenReopens(cfg: Config, failed: RunState, tools: ToolOracle)
    requires ParallelRows(failed, StepFailed) && failed.status == Failed
    requires cfg.tools == Planner.SHIPPED_TOOLS && cfg.maxAttempts > 0 && forall k: nat :: tools(0, k)
    ensures Dag(failed.steps) && Decide(cfg, failed, 0, "approve", tools).status == AwaitingApproval
  {
    hide MaxSeq, Finalize, CascadeSkip;
    var ran := RunTool(cfg, MarkApproved(failed, 0), 0, tools);
    assert FirstSuccess(tools, 0, 1, cfg.maxAttempts) == Some(1);
    assert NextRunnableFrom(ran.steps, 0) == NextRunnableFrom(ran.steps, 1) ==
      NextRunnableFrom(ran.steps, 2) == Some(2);
  }

  /** Nothing depends on the failed step, so nothing is skipped and the run is rolled up as failed. */
  lemma SecondBreaks(broke: RunState)
    requires |broke.steps| == 3 && Dag(broke.steps) && broke.steps[1].status == StepFailed
    requires forall k :: 0 <= k < 3 ==> broke.steps[k].dependsOn == []
    ensures CascadeSkip(broke, 1) == broke && Finalize(broke).status == Failed
    ensures Finalize(broke) == broke.(status := Failed, events := Finalize(broke).events)
  {
    assert SkipSet(broke.steps, 1) == {};
  }

  const ONE_GATE: seq<Planner.PlanStep> :=
    [Planner.PlanStep(0, "send_message", [], true), Planner.PlanStep(1, "research", [], false)]

  /** A reachable run that a rejection leaves running: a gate, and a step that does not depend on it. */
  lemma RejectedRunStaysRunning(maxAttempts: nat, tools: ToolOracle)
    ensures var cfg := Config(Planner.SHIPPED_TOOLS, maxAttempts);
      && Planner.Accepted(cfg.tools, ONE_GATE) && Dag(Create(ONE_GATE).steps)
      && var parked := Execute(cfg, Create(ONE_GATE), tools);
         && Dag(parked.steps) && DecideError(parked, 0, "reject") == None
         && Decide(cfg, parked, 0, "reject", tools).status == Running
  {
    hide MaxSeq;
    var cfg := Config(Planner.SHIPPED_TOOLS, maxAttempts);
    var s := Create(ONE_GATE);
    assert s.steps == [FromPlan(ONE_GATE[0]), FromPlan(ONE_GATE[1])];
    var parked := Execute(cfg, s, tools);
    assert NextRunnable(s.steps) == Some(0);
    assert parked == Park(s.(status := Running), 0);
    var m := MarkRejected(parked, 0);
    assert !Reaches(m.steps, 1, 0);
    assert SkipSet(m.steps, 0) == {};
    assert !StepTerminal(m.steps[1].status);
  }

  /** The row of an approved step is what its tool run left, whatever the drive does after it. */
  lemma ApprovedRow(cfg: Config, s: RunState, id: nat, tools: ToolOracle)
    requires Inv(s) && DecideError(s, id, "approve") == None
    ensures var i := s.approvals[id].stepIdx;
      && i < |s.steps| && |Approve(cfg, s, id, tools).steps| == |s.steps|
      && Approve(cfg, s, id, tools).steps[i] == AfterTool(cfg, s.steps[i], i, tools)
  {
    hide MaxSeq, ToolLog, AfterTool, RunTool, ToolSucceeds, CascadeSkip, Finalize, Drive;
    var i := s.approvals[id].stepIdx;
    var m := MarkApproved(s, id);
    var r := RunTool(cfg, m, i, tools);
    RunToolShape(cfg, m, i, tools);
    AfterToolShape(cfg, s.steps[i], i, tools);
    ApprovedStepEnds(s, id, r.steps[i]);
    if ToolSucceeds(cfg, s.steps[i], i, tools) {
      DriveEvolves(cfg, r, tools);
    } else {
      WindDownEvolves(r, i);
    }
  }
}
