/**
 The rows of one orchestration run and the meaning of every engine operation on them
 (nexus/models/orchestration.py, nexus/orchestration/engine.py).

 The functions here are the specification the engine's methods are proved against; the
 invariants and the theorems over whole runs are proved about these functions. A step's `idx`
 is its position in `steps`, which is what the planner guarantees.
 */
module RunModel {
  import opened Wrappers
  import Planner

  datatype StepStatus =
    | StepPending | StepRunning | StepAwaiting | StepCompleted | StepFailed | StepSkipped | StepRejected

  datatype RunStatus = Planning | Running | AwaitingApproval | Completed | Failed | Cancelled

  datatype ApprovalStatus = ApprovalPending | ApprovalApproved | ApprovalRejected

  datatype RunStep = RunStep(
    tool: string,
    dependsOn: seq<int>,
    requiresApproval: bool,
    status: StepStatus,
    attempts: nat,
    approvalId: Option<nat>)

  datatype Approval = Approval(stepIdx: nat, status: ApprovalStatus)

  datatype EventKind =
    | RunCreated(steps: nat)
    | StepStarted(idx: nat)
    | StepDone(idx: nat)
    | StepBroke(idx: nat)
    | GateRequested(approvalId: nat, idx: nat)
    | GateApproved(approvalId: nat, idx: nat)
    | GateRejected(approvalId: nat, idx: nat)
    | GateRedrafted(approvalId: nat)
    | StepsSkipped(idxs: set<nat>)
    | RunFailedEvent
    | RunCompletedEvent
    | RunCancelledEvent

  datatype RunEvent = RunEvent(seqNo: nat, kind: EventKind)

  datatype RunState = RunState(
    status: RunStatus,
    steps: seq<RunStep>,
    approvals: seq<Approval>,
    events: seq<RunEvent>)

  /** What the engine reads from its environment. */
  datatype Config = Config(tools: Planner.Registry, maxAttempts: nat)

  /** The outcome of the given attempt at a step's tool within one operation: did it return? */
  type ToolOracle = (nat, nat) -> bool

  datatype EngineError =
    | InvalidDecision | ApprovalNotFound | AlreadyDecided | StepNotFound
    | NoInstructions | NoAccount | RedraftFailed

  predicate RunTerminal(s: RunStatus) {
    s in {Completed, Failed, Cancelled}
  }

  predicate StepTerminal(s: StepStatus) {
    s in {StepCompleted, StepFailed, StepSkipped, StepRejected}
  }

  // ---- The dependency graph -------------------------------------------------------------

  /** Every edge points at an earlier step. */
  predicate Dag(steps: seq<RunStep>) {
    forall i :: 0 <= i < |steps| ==> Planner.DepsEarlier(steps[i].dependsOn, i)
  }

  /** b depends on a, directly or through other steps. */
  ghost predicate Reaches(steps: seq<RunStep>, b: int, a: int)
    requires Dag(steps) && 0 <= b < |steps|
    decreases b
  {
    || a in steps[b].dependsOn
    || exists c :: c in steps[b].dependsOn && Reaches(steps, c, a)
  }

  /** The transitive closure of the reversed edges from a. */
  ghost function DependentsOf(steps: seq<RunStep>, a: int): (r: set<nat>)
    requires Dag(steps)
  {
    set b: nat | b < |steps| && Reaches(steps, b, a)
  }

  predicate Runnable(steps: seq<RunStep>, i: nat)
    requires i < |steps|
  {
    && steps[i].status == StepPending
    && forall k :: 0 <= k < |steps[i].dependsOn| ==>
         var d := steps[i].dependsOn[k];
         0 <= d < |steps| && steps[d].status == StepCompleted
  }

  /** The first runnable step at position `from` or later. */
  function NextRunnableFrom(steps: seq<RunStep>, from: nat): (r: Option<nat>)
    requires from <= |steps|
    ensures r.Some? ==> from <= r.value < |steps| && Runnable(steps, r.value)
    ensures r.Some? ==> forall i: nat :: from <= i < r.value ==> !Runnable(steps, i)
    ensures r.None? ==> forall i: nat :: from <= i < |steps| ==> !Runnable(steps, i)
    decreases |steps| - from
  {
    if from == |steps| then None
    else if Runnable(steps, from) then Some(from)
    else NextRunnableFrom(steps, from + 1)
  }

  function NextRunnable(steps: seq<RunStep>): (r: Option<nat>) {
    NextRunnableFrom(steps, 0)
  }

  function PendingCount(steps: seq<RunStep>): (n: nat)
    ensures n <= |steps|
  {
    if steps == [] then 0
    else PendingCount(steps[..|steps| - 1]) + if steps[|steps| - 1].status == StepPending then 1 else 0
  }

  // ---- Single transitions ---------------------------------------------------------------

  function MaxSeq(events: seq<RunEvent>): nat {
    if events == [] then 0
    else
      var rest := MaxSeq(events[..|events| - 1]);
      var last := events[|events| - 1].seqNo;
      if last > rest then last else rest
  }

  function Emit(s: RunState, kind: EventKind): RunState {
    s.(events := s.events + [RunEvent(MaxSeq(s.events) + 1, kind)])
  }

  function SetStatus(s: RunState, i: nat, status: StepStatus): RunState
    requires i < |s.steps|
  {
    s.(steps := s.steps[i := s.steps[i].(status := status)])
  }

  /** The first attempt in [k, max] at which the tool returns. */
  function FirstSuccess(tools: ToolOracle, i: nat, k: nat, max: nat): (r: Option<nat>)
    ensures r.Some? ==> k <= r.value <= max && tools(i, r.value)
    ensures r.Some? ==> forall a: nat :: k <= a < r.value ==> !tools(i, a)
    ensures r.None? ==> forall a: nat :: k <= a <= max ==> !tools(i, a)
    decreases max + 1 - k
  {
    if k > max then None
    else if tools(i, k) then Some(k)
    else FirstSuccess(tools, i, k + 1, max)
  }

  predicate ToolSucceeds(cfg: Config, step: RunStep, i: nat, tools: ToolOracle) {
    step.tool in cfg.tools && FirstSuccess(tools, i, 1, cfg.maxAttempts).Some?
  }

  /** The row a tool run leaves behind. */
  function AfterTool(cfg: Config, step: RunStep, i: nat, tools: ToolOracle): RunStep {
    if step.tool !in cfg.tools then step.(status := StepFailed)
    else
      match FirstSuccess(tools, i, 1, cfg.maxAttempts)
      case Some(k) => step.(status := StepCompleted, attempts := k)
      case None =>
        step.(status := StepFailed, attempts := if cfg.maxAttempts == 0 then step.attempts else cfg.maxAttempts)
  }

  lemma AfterToolShape(cfg: Config, step: RunStep, i: nat, tools: ToolOracle)
    ensures var r := AfterTool(cfg, step, i, tools);
      && r == step.(status := r.status, attempts := r.attempts)
      && r.status == (if ToolSucceeds(cfg, step, i, tools) then StepCompleted else StepFailed)
  {
  }

  /** The events of a tool run. */
  function ToolLog(cfg: Config, s: RunState, i: nat, tools: ToolOracle): RunState
    requires i < |s.steps|
  {
    if s.steps[i].tool !in cfg.tools then Emit(s, StepBroke(i))
    else Emit(Emit(s, StepStarted(i)), if ToolSucceeds(cfg, s.steps[i], i, tools) then StepDone(i) else StepBroke(i))
  }

  /** `_run_step`: one tool with bounded retries. */
  function RunTool(cfg: Config, s: RunState, i: nat, tools: ToolOracle): RunState
    requires i < |s.steps|
  {
    ToolLog(cfg, s, i, tools).(steps := s.steps[i := AfterTool(cfg, s.steps[i], i, tools)])
  }

  /** `_park`: open the gate of step i and halt the run. */
  function Park(s: RunState, i: nat): RunState
    requires i < |s.steps|
  {
    var id := |s.approvals|;
    Emit(
      s.(approvals := s.approvals + [Approval(i, ApprovalPending)],
         steps := s.steps[i := s.steps[i].(status := StepAwaiting, approvalId := Some(id))],
         status := AwaitingApproval),
      GateRequested(id, i))
  }

  ghost function SkipSet(steps: seq<RunStep>, i: int): set<nat>
    requires Dag(steps)
  {
    set b: nat | b in DependentsOf(steps, i) && steps[b].status == StepPending
  }

  function SkipAll(steps: seq<RunStep>, hit: set<nat>): (r: seq<RunStep>)
    ensures |r| == |steps|
    ensures forall k :: 0 <= k < |steps| ==>
      r[k] == if k in hit then steps[k].(status := StepSkipped) else steps[k]
  {
    seq(|steps|, k requires 0 <= k < |steps| => if k in hit then steps[k].(status := StepSkipped) else steps[k])
  }

  /** `_cascade_skip`: every pending step that depends on i is skipped. */
  ghost function CascadeSkip(s: RunState, i: nat): RunState
    requires Dag(s.steps)
  {
    var hit := SkipSet(s.steps, i);
    if hit == {} then s else Emit(s.(steps := SkipAll(s.steps, hit)), StepsSkipped(hit))
  }

  predicate AnyStep(steps: seq<RunStep>, status: StepStatus) {
    exists k :: 0 <= k < |steps| && steps[k].status == status
  }

  /** `_finalize`: roll the step statuses up into the run's. */
  function Finalize(s: RunState): RunState {
    if AnyStep(s.steps, StepFailed) then Emit(s.(status := Failed), RunFailedEvent)
    else if AnyStep(s.steps, StepAwaiting) then s.(status := AwaitingApproval)
    else if forall k :: 0 <= k < |s.steps| ==> StepTerminal(s.steps[k].status) then
      Emit(s.(status := Completed), RunCompletedEvent)
    else s.(status := Running)
  }

  // ---- The drive loop --------------------------------------------------------------------

  lemma {:induction false} PendingCountUpdate(steps: seq<RunStep>, i: nat, step: RunStep)
    requires i < |steps|
    ensures PendingCount(steps[i := step]) ==
      PendingCount(steps)
        - (if steps[i].status == StepPending then 1 else 0)
        + (if step.status == StepPending then 1 else 0)
  {
    var n := |steps| - 1;
    if i == n {
      assert steps[i := step][..n] == steps[..n];
    } else {
      assert steps[i := step][..n] == steps[..n][i := step];
      PendingCountUpdate(steps[..n], i, step);
    }
  }

  /** A tool run touches one step row and the log. */
  lemma RunToolShape(cfg: Config, s: RunState, i: nat, tools: ToolOracle)
    requires i < |s.steps|
    ensures var r := RunTool(cfg, s, i, tools);
      && |r.steps| == |s.steps|
      && r == s.(steps := s.steps[i := r.steps[i]], events := r.events)
      && r.steps[i] == AfterTool(cfg, s.steps[i], i, tools)
  {
    AfterToolShape(cfg, s.steps[i], i, tools);
  }

  lemma RunToolPending(cfg: Config, s: RunState, i: nat, tools: ToolOracle)
    requires i < |s.steps| && s.steps[i].status == StepPending
    ensures PendingCount(RunTool(cfg, s, i, tools).steps) == PendingCount(s.steps) - 1
  {
    var r := RunTool(cfg, s, i, tools);
    AfterToolShape(cfg, s.steps[i], i, tools);
    PendingCountUpdate(s.steps, i, r.steps[i]);
  }

  /**
   `_drive`: run the first runnable step until a gate parks the run, a step fails, or nothing
   is runnable. The loop of the source carries an iteration cap; the engine's proof shows the
   cap is never reached, so it does not appear here.
   */
  ghost function Drive(cfg: Config, s: RunState, tools: ToolOracle): RunState
    requires Dag(s.steps)
    decreases PendingCount(s.steps)
  {
    match NextRunnable(s.steps)
    case None => Finalize(s)
    case Some(i) =>
      if s.steps[i].requiresApproval then Park(s, i)
      else
        RunToolPending(cfg, s, i, tools);
        AfterToolShape(cfg, s.steps[i], i, tools);
        var r := RunTool(cfg, s, i, tools);
        if ToolSucceeds(cfg, s.steps[i], i, tools) then Drive(cfg, r, tools)
        else Finalize(CascadeSkip(r, i))
  }

  // ---- The operations --------------------------------------------------------------------

  function FromPlan(step: Planner.PlanStep): RunStep {
    RunStep(step.tool, step.dependsOn, step.requiresApproval, StepPending, 0, None)
  }

  /** `create_run`, for a plan the planner returned. */
  function Create(plan: seq<Planner.PlanStep>): (s: RunState) {
    Emit(
      RunState(Planning, seq(|plan|, k requires 0 <= k < |plan| => FromPlan(plan[k])), [], []),
      RunCreated(|plan|))
  }

  ghost function Execute(cfg: Config, s: RunState, tools: ToolOracle): RunState
    requires Dag(s.steps)
  {
    if RunTerminal(s.status) then s else Drive(cfg, s.(status := Running), tools)
  }

  /** Why `decide` refuses, if it does. */
  function DecideError(s: RunState, id: nat, decision: string): Option<EngineError> {
    if decision != "approve" && decision != "reject" then Some(InvalidDecision)
    else if id >= |s.approvals| then Some(ApprovalNotFound)
    else if s.approvals[id].status != ApprovalPending then Some(AlreadyDecided)
    else if s.approvals[id].stepIdx >= |s.steps| then Some(StepNotFound)
    else None
  }

  /** The reviewer's verdict on the rows, before any rollup. */
  function MarkRejected(s: RunState, id: nat): RunState
    requires id < |s.approvals| && s.approvals[id].stepIdx < |s.steps|
  {
    var i := s.approvals[id].stepIdx;
    Emit(
      SetStatus(s, i, StepRejected).(approvals := s.approvals[id := s.approvals[id].(status := ApprovalRejected)]),
      GateRejected(id, i))
  }

  function MarkApproved(s: RunState, id: nat): RunState
    requires id < |s.approvals|
  {
    Emit(
      s.(approvals := s.approvals[id := s.approvals[id].(status := ApprovalApproved)], status := Running),
      GateApproved(id, s.approvals[id].stepIdx))
  }

  /** The body of an approval: run the gated tool at once, then drive on or wind down. */
  ghost function Approve(cfg: Config, s: RunState, id: nat, tools: ToolOracle): RunState
    requires Dag(s.steps) && id < |s.approvals| && s.approvals[id].stepIdx < |s.steps|
  {
    var i := s.approvals[id].stepIdx;
    AfterToolShape(cfg, s.steps[i], i, tools);
    var r := RunTool(cfg, MarkApproved(s, id), i, tools);
    if ToolSucceeds(cfg, s.steps[i], i, tools) then Drive(cfg, r, tools)
    else Finalize(CascadeSkip(r, i))
  }

  ghost function Reject(s: RunState, id: nat): RunState
    requires Dag(s.steps) && id < |s.approvals| && s.approvals[id].stepIdx < |s.steps|
  {
    Finalize(CascadeSkip(MarkRejected(s, id), s.approvals[id].stepIdx))
  }

  ghost function Decide(cfg: Config, s: RunState, id: nat, decision: string, tools: ToolOracle): RunState
    requires Dag(s.steps)
  {
    if DecideError(s, id, decision).Some? then s
    else if decision == "reject" then Reject(s, id)
    else Approve(cfg, s, id, tools)
  }

  function RedraftError(s: RunState, id: nat, hasInstructions: bool, hasAccount: bool,
      agentOk: bool): Option<EngineError> {
    if !hasInstructions then Some(NoInstructions)
    else if id >= |s.approvals| then Some(ApprovalNotFound)
    else if s.approvals[id].status != ApprovalPending then Some(AlreadyDecided)
    else if !hasAccount then Some(NoAccount)
    else if !agentOk then Some(RedraftFailed)
    else None
  }

  function Redraft(s: RunState, id: nat, hasInstructions: bool, hasAccount: bool, agentOk: bool): RunState {
    if RedraftError(s, id, hasInstructions, hasAccount, agentOk).Some? then s
    else Emit(s, GateRedrafted(id))
  }

  function CancelledStep(step: RunStep): RunStep {
    if step.status in {StepPending, StepAwaiting} then step.(status := StepSkipped) else step
  }

  /** A pending approval is rejected on cancel when an awaiting step still points at it. */
  predicate CancelRejects(steps: seq<RunStep>, id: nat) {
    exists k :: 0 <= k < |steps| && steps[k].status == StepAwaiting && steps[k].approvalId == Some(id)
  }

  function Cancel(s: RunState): RunState {
    if RunTerminal(s.status) then s
    else
      Emit(
        s.(status := Cancelled,
           steps := seq(|s.steps|, k requires 0 <= k < |s.steps| => CancelledStep(s.steps[k])),
           approvals := seq(|s.approvals|, a requires 0 <= a < |s.approvals| =>
             if s.approvals[a].status == ApprovalPending && CancelRejects(s.steps, a)
             then s.approvals[a].(status := ApprovalRejected) else s.approvals[a])),
        RunCancelledEvent)
  }

  // ---- Whole runs ------------------------------------------------------------------------

  /** One service call on a run, with everything it reads from outside. */
  datatype Op =
    | OpExecute(tools: ToolOracle)
    | OpDecide(approvalId: nat, decision: string, tools: ToolOracle)
    | OpRedraft(approvalId: nat, hasInstructions: bool, hasAccount: bool, agentOk: bool)
    | OpCancel

  ghost function Apply(cfg: Config, s: RunState, op: Op): RunState
    requires Dag(s.steps)
  {
    match op
    case OpExecute(tools) => Execute(cfg, s, tools)
    case OpDecide(id, decision, tools) => Decide(cfg, s, id, decision, tools)
    case OpRedraft(id, hasInstructions, hasAccount, agentOk) => Redraft(s, id, hasInstructions, hasAccount, agentOk)
    case OpCancel => Cancel(s)
  }

  // ---- The graph never changes -----------------------------------------------------------

  /** The columns of a step no operation writes. */
  predicate SameShape(s: seq<RunStep>, t: seq<RunStep>) {
    && |s| == |t|
    && forall k :: 0 <= k < |s| ==>
         && t[k].dependsOn == s[k].dependsOn
         && t[k].tool == s[k].tool
         && t[k].requiresApproval == s[k].requiresApproval
  }

  lemma {:induction false} ReachesSameShape(s: seq<RunStep>, t: seq<RunStep>, b: int, a: int)
    requires Dag(s) && Dag(t) && SameShape(s, t) && 0 <= b < |s|
    ensures Reaches(s, b, a) <==> Reaches(t, b, a)
    decreases b
  {
    forall c | c in s[b].dependsOn
      ensures Reaches(s, c, a) <==> Reaches(t, c, a)
    {
      ReachesSameShape(s, t, c, a);
    }
  }

  lemma CascadeShape(s: RunState, i: nat)
    requires Dag(s.steps)
    ensures SameShape(s.steps, CascadeSkip(s, i).steps) && Dag(CascadeSkip(s, i).steps)
    ensures CascadeSkip(s, i) == s.(steps := SkipAll(s.steps, SkipSet(s.steps, i)), events := CascadeSkip(s, i).events)
  {
    var hit := SkipSet(s.steps, i);
    if hit == {} {
      assert SkipAll(s.steps, hit) == s.steps;
    }
  }

  lemma FinalizeShape(s: RunState)
    ensures Finalize(s) == s.(status := Finalize(s).status, events := Finalize(s).events)
  {
  }

  lemma SameShapeTransitive(s: seq<RunStep>, t: seq<RunStep>, r: seq<RunStep>)
    requires SameShape(s, t) && SameShape(t, r)
    ensures SameShape(s, r)
  {
  }

  lemma ToolKeepsShape(cfg: Config, s: RunState, i: nat, tools: ToolOracle)
    requires Dag(s.steps) && i < |s.steps|
    ensures var r := RunTool(cfg, s, i, tools);
      SameShape(s.steps, r.steps) && Dag(r.steps)
  {
    RunToolShape(cfg, s, i, tools);
    AfterToolShape(cfg, s.steps[i], i, tools);
    hide RunTool, AfterTool, ToolSucceeds;
  }

  lemma ParkKeepsShape(s: RunState, i: nat)
    requires i < |s.steps|
    ensures SameShape(s.steps, Park(s, i).steps)
  {
    hide MaxSeq;
  }

  lemma SameShapeSelf(s: seq<RunStep>)
    ensures SameShape(s, s)
  {
  }

  lemma {:induction false} DriveShape(cfg: Config, s: RunState, tools: ToolOracle)
    requires Dag(s.steps)
    ensures SameShape(s.steps, Drive(cfg, s, tools).steps)
    decreases PendingCount(s.steps)
  {
    hide MaxSeq, RunTool, Park, ToolSucceeds, AfterTool, ToolLog, PendingCount, CascadeSkip, Finalize, SameShape;
    match NextRunnable(s.steps)
    case None =>
      FinalizeShape(s);
      SameShapeSelf(s.steps);
    case Some(i) =>
      if s.steps[i].requiresApproval {
        ParkKeepsShape(s, i);
      } else {
        var r := RunTool(cfg, s, i, tools);
        ToolKeepsShape(cfg, s, i, tools);
        RunToolPending(cfg, s, i, tools);
        if ToolSucceeds(cfg, s.steps[i], i, tools) {
          DriveShape(cfg, r, tools);
          SameShapeTransitive(s.steps, r.steps, Drive(cfg, r, tools).steps);
        } else {
          CascadeShape(r, i);
          FinalizeShape(CascadeSkip(r, i));
          SameShapeTransitive(s.steps, r.steps, CascadeSkip(r, i).steps);
        }
      }
  }

  lemma ApproveShape(cfg: Config, s: RunState, id: nat, tools: ToolOracle)
    requires Dag(s.steps) && id < |s.approvals| && s.approvals[id].stepIdx < |s.steps|
    ensures SameShape(s.steps, Approve(cfg, s, id, tools).steps)
  {
    var i := s.approvals[id].stepIdx;
    var m := MarkApproved(s, id);
    var r := RunTool(cfg, m, i, tools);
    AfterToolShape(cfg, m.steps[i], i, tools);
    if ToolSucceeds(cfg, s.steps[i], i, tools) {
      DriveShape(cfg, r, tools);
    } else {
      CascadeShape(r, i);
      FinalizeShape(CascadeSkip(r, i));
    }
  }

  lemma RejectShape(s: RunState, id: nat)
    requires Dag(s.steps) && id < |s.approvals| && s.approvals[id].stepIdx < |s.steps|
    ensures SameShape(s.steps, Reject(s, id).steps)
  {
    var r := MarkRejected(s, id);
    CascadeShape(r, s.approvals[id].stepIdx);
    FinalizeShape(CascadeSkip(r, s.approvals[id].stepIdx));
  }

  lemma ApplyShape(cfg: Config, s: RunState, op: Op)
    requires Dag(s.steps)
    ensures SameShape(s.steps, Apply(cfg, s, op).steps) && Dag(Apply(cfg, s, op).steps)
  {
    match op
    case OpExecute(tools) => DriveShape(cfg, s.(status := Running), tools);
    case OpDecide(id, decision, tools) =>
      if DecideError(s, id, decision).None? {
        if decision == "reject" {
          RejectShape(s, id);
        } else {
          ApproveShape(cfg, s, id, tools);
        }
      }
    case OpRedraft(_, _, _, _) =>
    case OpCancel =>
  }

  /** The state after a list of operations, in order. */
  ghost function ApplyAll(cfg: Config, s: RunState, ops: seq<Op>): (r: RunState)
    requires Dag(s.steps)
    ensures Dag(r.steps)
  {
    if ops == [] then s
    else
      var before := ApplyAll(cfg, s, ops[..|ops| - 1]);
      ApplyShape(cfg, before, ops[|ops| - 1]);
      Apply(cfg, before, ops[|ops| - 1])
  }
}
