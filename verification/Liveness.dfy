/**
 Liveness of the engine: when every tool returns and every gate is approved, a run completes, after
 exactly one decision per gated step (nexus/orchestration/engine.py:139-184, 313-339).
 */
module Liveness {
  import opened Wrappers
  import opened RunModel
  import opened RunInvariant
  import Planner

  /** An oracle under which no tool ever raises. */
  ghost predicate AllReturn(tools: ToolOracle) {
    forall i, k :: tools(i, k)
  }

  /** A favourable call: drive the run, or approve a gate that is open. */
  datatype Move = Drive(tools: ToolOracle) | ApproveGate(id: nat, tools: ToolOracle)

  function AsOp(m: Move): Op {
    match m
    case Drive(tools) => OpExecute(tools)
    case ApproveGate(id, tools) => OpDecide(id, "approve", tools)
  }

  ghost predicate Favourable(s: RunState, m: Move) {
    && AllReturn(m.tools)
    && (m.ApproveGate? ==> DecideError(s, m.id, "approve") == None)
  }

  /** The run after a list of moves, each favourable when it is made. */
  ghost function Play(cfg: Config, s: RunState, moves: seq<Move>): (r: RunState)
    requires Dag(s.steps)
    ensures Dag(r.steps)
  {
    if moves == [] then s
    else
      var before := Play(cfg, s, moves[..|moves| - 1]);
      ApplyShape(cfg, before, AsOp(moves[|moves| - 1]));
      Apply(cfg, before, AsOp(moves[|moves| - 1]))
  }

  ghost predicate AllFavourable(cfg: Config, s: RunState, moves: seq<Move>)
    requires Dag(s.steps)
  {
    moves == [] ||
    (&& AllFavourable(cfg, s, moves[..|moves| - 1])
     && Favourable(Play(cfg, s, moves[..|moves| - 1]), moves[|moves| - 1]))
  }

  function Approvals(moves: seq<Move>): nat {
    if moves == [] then 0
    else Approvals(moves[..|moves| - 1]) + if moves[|moves| - 1].ApproveGate? then 1 else 0
  }

  /** The gated steps that have not completed yet. */
  function GatesLeft(steps: seq<RunStep>): nat {
    if steps == [] then 0
    else
      var last := steps[|steps| - 1];
      GatesLeft(steps[..|steps| - 1]) + if last.requiresApproval && last.status != StepCompleted then 1 else 0
  }

  function GatedSteps(plan: seq<Planner.PlanStep>): nat {
    if plan == [] then 0
    else GatedSteps(plan[..|plan| - 1]) + if plan[|plan| - 1].requiresApproval then 1 else 0
  }

  /** Nothing has gone wrong so far. */
  predicate Healthy(steps: seq<RunStep>) {
    forall k :: 0 <= k < |steps| ==> steps[k].status in {StepPending, StepAwaiting, StepCompleted}
  }

  predicate KnownTools(cfg: Config, steps: seq<RunStep>) {
    cfg.maxAttempts > 0 && forall k :: 0 <= k < |steps| ==> steps[k].tool in cfg.tools
  }

  lemma {:induction false} GatesLeftUpdate(steps: seq<RunStep>, i: nat, row: RunStep)
    requires i < |steps| && row.requiresApproval == steps[i].requiresApproval
    ensures GatesLeft(steps[i := row]) == GatesLeft(steps)
      - (if row.requiresApproval && steps[i].status != StepCompleted then 1 else 0)
      + (if row.requiresApproval && row.status != StepCompleted then 1 else 0)
  {
    var n := |steps| - 1;
    if i == n {
      assert steps[i := row][..n] == steps[..n];
    } else {
      assert steps[i := row][..n] == steps[..n][i := row];
      GatesLeftUpdate(steps[..n], i, row);
    }
  }

  lemma {:induction false} NoGatesLeft(steps: seq<RunStep>)
    ensures GatesLeft(steps) == 0 <==>
      forall k :: 0 <= k < |steps| ==> !steps[k].requiresApproval || steps[k].status == StepCompleted
    decreases |steps|
  {
    if steps != [] {
      NoGatesLeft(steps[..|steps| - 1]);
    }
  }

  lemma {:induction false} CreateGates(plan: seq<Planner.PlanStep>)
    ensures GatesLeft(Create(plan).steps) == GatedSteps(plan)
    decreases |plan|
  {
    hide MaxSeq;
    if plan != [] {
      CreateGates(plan[..|plan| - 1]);
      assert Create(plan).steps[..|plan| - 1] == Create(plan[..|plan| - 1]).steps;
    }
  }

  lemma ToolReturns(cfg: Config, steps: seq<RunStep>, i: nat, tools: ToolOracle)
    requires KnownTools(cfg, steps) && i < |steps| && AllReturn(tools)
    ensures ToolSucceeds(cfg, steps[i], i, tools)
  {
    assert tools(i, 1);
  }

  /** What a drive of a healthy run reaches: a gate, or the end. */
  lemma {:induction false} DriveHealthy(cfg: Config, s: RunState, tools: ToolOracle)
    requires Settled(s) && Healthy(s.steps) && KnownTools(cfg, s.steps) && AllReturn(tools)
    ensures var r := RunModel.Drive(cfg, s, tools);
      && Settled(r) && Healthy(r.steps) && KnownTools(cfg, r.steps)
      && GatesLeft(r.steps) == GatesLeft(s.steps)
      && r.status == (if GatesLeft(s.steps) == 0 then Completed else AwaitingApproval)
      && (r.status == Completed ==> forall k :: 0 <= k < |r.steps| ==> r.steps[k].status == StepCompleted)
      && (r.status == AwaitingApproval ==> AnyStep(r.steps, StepAwaiting))
    decreases PendingCount(s.steps)
  {
    hide MaxSeq, ToolLog, AfterTool, RunTool, ToolSucceeds, CascadeSkip, Finalize, Settled, GatesLeft,
      PendingCount, Core;
    SettledDag(s);
    match NextRunnable(s.steps)
    case None => DrainedHealthy(s);
    case Some(i) =>
      if s.steps[i].requiresApproval {
        ParkInv(s, i);
        var row := s.steps[i].(status := StepAwaiting, approvalId := Some(|s.approvals|));
        GatesLeftUpdate(s.steps, i, row);
        NoGatesLeft(s.steps);
      } else {
        var r := RunTool(cfg, s, i, tools);
        ToolReturns(cfg, s.steps, i, tools);
        RunToolInv(cfg, s, i, tools);
        RunToolPending(cfg, s, i, tools);
        RunToolShape(cfg, s, i, tools);
        AfterToolShape(cfg, s.steps[i], i, tools);
        GatesLeftUpdate(s.steps, i, r.steps[i]);
        DriveHealthy(cfg, r, tools);
      }
  }

  lemma DrainedHealthy(s: RunState)
    requires Settled(s) && Healthy(s.steps) && NextRunnable(s.steps) == None
    ensures var r := Finalize(s);
      && Settled(r) && r.steps == s.steps
      && r.status == (if GatesLeft(s.steps) == 0 then Completed else AwaitingApproval)
      && (r.status == Completed ==> forall k :: 0 <= k < |s.steps| ==> s.steps[k].status == StepCompleted)
      && (r.status == AwaitingApproval ==> AnyStep(s.steps, StepAwaiting))
  {
    hide MaxSeq, Finalize, Unblocked, SkipsExplained, DepsDone, GatesLeft;
    NoGatesLeft(s.steps);
    NothingRunnable(s);
    FinalizeInv(s);
    if AnyStep(s.steps, StepAwaiting) {
      var k :| 0 <= k < |s.steps| && s.steps[k].status == StepAwaiting;
      assert s.steps[k].requiresApproval;
    } else {
      forall k | 0 <= k < |s.steps|
        ensures s.steps[k].status == StepCompleted
      {
        if s.steps[k].status == StepPending {
          var i := PendingIsDrivable(s, k);
        }
      }
    }
  }

  /** One favourable move on a healthy run. */
  lemma MoveHealthy(cfg: Config, s: RunState, m: Move)
    requires Inv(s) && Healthy(s.steps) && KnownTools(cfg, s.steps) && Favourable(s, m)
    requires s.status in {Planning, AwaitingApproval, Completed}
    requires s.status == Completed ==> GatesLeft(s.steps) == 0
    ensures var r := Apply(cfg, s, AsOp(m));
      && Inv(r) && Healthy(r.steps) && KnownTools(cfg, r.steps)
      && GatesLeft(r.steps) + (if m.ApproveGate? then 1 else 0) == GatesLeft(s.steps)
      && r.status == (if GatesLeft(r.steps) == 0 then Completed else AwaitingApproval)
  {
    hide MaxSeq, RunModel.Drive, CascadeSkip, Finalize, ToolSucceeds, AfterTool, RunTool, GatesLeft, Linked, Gated;
    ApplyInv(cfg, s, AsOp(m));
    match m
    case Drive(tools) =>
      if s.status != Completed {
        SettledStatus(s, Running);
        DriveHealthy(cfg, s.(status := Running), tools);
      }
    case ApproveGate(id, tools) => ApproveHealthy(cfg, s, id, tools);
  }

  lemma ApproveHealthy(cfg: Config, s: RunState, id: nat, tools: ToolOracle)
    requires Inv(s) && Healthy(s.steps) && KnownTools(cfg, s.steps) && AllReturn(tools)
    requires DecideError(s, id, "approve") == None
    ensures var r := Approve(cfg, s, id, tools);
      && Healthy(r.steps) && KnownTools(cfg, r.steps)
      && GatesLeft(r.steps) + 1 == GatesLeft(s.steps)
      && r.status == (if GatesLeft(r.steps) == 0 then Completed else AwaitingApproval)
  {
    hide MaxSeq, RunModel.Drive, CascadeSkip, Finalize, ToolSucceeds, AfterTool, RunTool, GatesLeft, DepsDone,
      Unblocked, SkipsExplained;
    var i := s.approvals[id].stepIdx;
    var m := MarkApproved(s, id);
    var r := RunTool(cfg, m, i, tools);
    ToolReturns(cfg, s.steps, i, tools);
    RunToolShape(cfg, m, i, tools);
    AfterToolShape(cfg, s.steps[i], i, tools);
    ApprovedStepEnds(s, id, r.steps[i]);
    GatesLeftUpdate(s.steps, i, r.steps[i]);
    RowsAlone(s.(steps := r.steps, approvals := r.approvals), r);
    DriveHealthy(cfg, r, tools);
  }

  lemma RowsAlone(s: RunState, r: RunState)
    requires Settled(s) && r.steps == s.steps && r.approvals == s.approvals
    ensures Settled(r)
  {
  }

  /**
   Liveness: along any favourable play of any accepted plan nothing fails, the gates still closed are
   the gated steps less the approvals given, and after the first move the run is completed exactly
   when every gated step has had its one approval.
   */
  lemma {:induction false} CompletesAfterOneApprovalPerGate(cfg: Config, plan: seq<Planner.PlanStep>, moves: seq<Move>)
    requires Planner.Accepted(cfg.tools, plan) && cfg.maxAttempts > 0
    ensures Dag(Create(plan).steps)
    ensures AllFavourable(cfg, Create(plan), moves) ==>
      var s := Play(cfg, Create(plan), moves);
      && Inv(s) && Healthy(s.steps) && KnownTools(cfg, s.steps)
      && Approvals(moves) + GatesLeft(s.steps) == GatedSteps(plan)
      && s.status ==
         (if moves == [] then Planning
          else if Approvals(moves) == GatedSteps(plan) then Completed
          else AwaitingApproval)
    decreases |moves|
  {
    hide Inv, Create, Apply, GatesLeft, GatedSteps, Favourable, Healthy, KnownTools;
    CreateInv(cfg.tools, plan);
    InvDag(Create(plan));
    if moves == [] {
      CreateGates(plan);
      CreateHealthy(cfg, plan);
    } else if AllFavourable(cfg, Create(plan), moves) {
      var before := Play(cfg, Create(plan), moves[..|moves| - 1]);
      CompletesAfterOneApprovalPerGate(cfg, plan, moves[..|moves| - 1]);
      MoveHealthy(cfg, before, moves[|moves| - 1]);
    }
  }

  lemma CreateHealthy(cfg: Config, plan: seq<Planner.PlanStep>)
    requires Planner.Accepted(cfg.tools, plan) && cfg.maxAttempts > 0
    ensures var s := Create(plan);
      Healthy(s.steps) && KnownTools(cfg, s.steps) && s.status == Planning
  {
    hide MaxSeq;
    forall k | 0 <= k < |plan|
      ensures plan[k].tool in cfg.tools
    {
      assert Planner.StepAccepted(cfg.tools, plan[k], k);
    }
  }

  /** Until then some gate is open, so the play can always be continued with an approval. */
  lemma SomeGateIsOpen(cfg: Config, plan: seq<Planner.PlanStep>, moves: seq<Move>) returns (id: nat)
    requires Planner.Accepted(cfg.tools, plan) && cfg.maxAttempts > 0 && moves != []
    requires Dag(Create(plan).steps) && AllFavourable(cfg, Create(plan), moves)
    requires Play(cfg, Create(plan), moves).status != Completed
    ensures DecideError(Play(cfg, Create(plan), moves), id, "approve") == None
  {
    hide Create, Apply, GatesLeft, GatedSteps, AllFavourable, Play, DepsDone, Unblocked, SkipsExplained;
    CompletesAfterOneApprovalPerGate(cfg, plan, moves);
    var s := Play(cfg, Create(plan), moves);
    var k :| 0 <= k < |s.steps| && s.steps[k].status == StepAwaiting;
    id := s.steps[k].approvalId.value;
  }

  /** And when it is completed, every step is. */
  lemma CompletedMeansAllSteps(cfg: Config, plan: seq<Planner.PlanStep>, moves: seq<Move>)
    requires Planner.Accepted(cfg.tools, plan) && cfg.maxAttempts > 0
    requires Dag(Create(plan).steps) && AllFavourable(cfg, Create(plan), moves)
    requires Play(cfg, Create(plan), moves).status == Completed
    ensures var s := Play(cfg, Create(plan), moves);
      forall k :: 0 <= k < |s.steps| ==> s.steps[k].status == StepCompleted
  {
    hide Create, Apply, GatesLeft, GatedSteps, AllFavourable, Play, Core;
    CompletesAfterOneApprovalPerGate(cfg, plan, moves);
  }
}
