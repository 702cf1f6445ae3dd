/**
 What the log of a run says about its ends (nexus/orchestration/engine.py): the last verdict it holds names
 the status of an ended run, a run completes or is cancelled once, every call that leaves a run failed says
 so, and no step ends without having started.
 */
module StatusLog {
  import opened Wrappers
  import opened RunModel
  import opened RunInvariant
  import EventLog
  import RunTheorems
  import Planner

  predicate IsVerdict(kind: EventKind) {
    kind in {RunCompletedEvent, RunFailedEvent, RunCancelledEvent}
  }

  /** The last event of the log that speaks of the run as a whole. */
  function LastVerdict(events: seq<RunEvent>): Option<EventKind> {
    if events == [] then None
    else if IsVerdict(events[|events| - 1].kind) then Some(events[|events| - 1].kind)
    else LastVerdict(events[..|events| - 1])
  }

  /** How often an event is logged. */
  function Count(events: seq<RunEvent>, kind: EventKind): nat {
    if events == [] then 0
    else Count(events[..|events| - 1], kind) + if events[|events| - 1].kind == kind then 1 else 0
  }

  function VerdictOn(status: RunStatus): Option<EventKind> {
    match status
    case Completed => Some(RunCompletedEvent)
    case Failed => Some(RunFailedEvent)
    case Cancelled => Some(RunCancelledEvent)
    case _ => None
  }

  /** An ended run is named by the last verdict; completions and cancellations are final and logged once. */
  predicate Told(s: RunState) {
    && (RunTerminal(s.status) ==> LastVerdict(s.events) == VerdictOn(s.status))
    && Count(s.events, RunCompletedEvent) == (if s.status == Completed then 1 else 0)
    && Count(s.events, RunCancelledEvent) == (if s.status == Cancelled then 1 else 0)
  }

  predicate EndOf(kind: EventKind, i: nat) {
    kind == StepDone(i) || kind == StepBroke(i)
  }

  /** The end of a tool run stands right behind its start. */
  ghost predicate Paired(events: seq<RunEvent>) {
    forall p, i | 0 <= p < |events| && EndOf(events[p].kind, i) :: p > 0 && events[p - 1].kind == StepStarted(i)
  }

  /** Every step's tool is registered. */
  predicate Known(cfg: Config, steps: seq<RunStep>) {
    forall i :: 0 <= i < |steps| ==> steps[i].tool in cfg.tools
  }

  lemma EmitCounts(s: RunState, kind: EventKind, k: EventKind)
    ensures Count(Emit(s, kind).events, k) == Count(s.events, k) + if kind == k then 1 else 0
    ensures LastVerdict(Emit(s, kind).events) == if IsVerdict(kind) then Some(kind) else LastVerdict(s.events)
  {
    hide MaxSeq;
    assert Emit(s, kind).events[..|s.events|] == s.events;
  }

  lemma EmitPaired(s: RunState, kind: EventKind)
    requires Paired(s.events)
    requires forall i: nat | EndOf(kind, i) :: |s.events| > 0 && s.events[|s.events| - 1].kind == StepStarted(i)
    ensures Paired(Emit(s, kind).events)
  {
    hide MaxSeq;
  }

  // ---- Transitions that say nothing about the run ----------------------------------------

  ghost predicate Quiet(s: RunState, r: RunState) {
    && LastVerdict(r.events) == LastVerdict(s.events)
    && Count(r.events, RunCompletedEvent) == Count(s.events, RunCompletedEvent)
    && Count(r.events, RunCancelledEvent) == Count(s.events, RunCancelledEvent)
    && Count(r.events, RunFailedEvent) == Count(s.events, RunFailedEvent)
    && (Paired(s.events) ==> Paired(r.events))
  }

  predicate Plain(kind: EventKind) {
    !IsVerdict(kind) && !kind.StepDone? && !kind.StepBroke?
  }

  lemma EmitQuiet(s: RunState, kind: EventKind)
    requires Plain(kind)
    ensures Quiet(s, Emit(s, kind))
  {
    hide MaxSeq, Emit, Paired, Count, LastVerdict;
    EmitCounts(s, kind, RunCompletedEvent);
    EmitCounts(s, kind, RunCancelledEvent);
    EmitCounts(s, kind, RunFailedEvent);
    if Paired(s.events) {
      EmitPaired(s, kind);
    }
  }

  /** A start and the end of the same tool run. */
  lemma RunQuiet(s: RunState, i: nat, kind: EventKind)
    requires EndOf(kind, i)
    ensures Quiet(s, Emit(Emit(s, StepStarted(i)), kind))
  {
    hide MaxSeq, Emit, Paired, Count, LastVerdict;
    var t := Emit(s, StepStarted(i));
    EmitQuiet(s, StepStarted(i));
    EmitCounts(t, kind, RunCompletedEvent);
    EmitCounts(t, kind, RunCancelledEvent);
    EmitCounts(t, kind, RunFailedEvent);
    EmitLast(s, StepStarted(i));
    if Paired(s.events) {
      EmitPaired(t, kind);
    }
  }

  lemma EmitLast(s: RunState, kind: EventKind)
    ensures var events := Emit(s, kind).events; |events| > 0 && events[|events| - 1].kind == kind
  {
    hide MaxSeq;
  }

  lemma ToolQuiet(cfg: Config, s: RunState, i: nat, tools: ToolOracle)
    requires i < |s.steps| && s.steps[i].tool in cfg.tools
    ensures Quiet(s, RunTool(cfg, s, i, tools))
  {
    hide MaxSeq, AfterTool, ToolSucceeds, Emit, Quiet;
    RunQuiet(s, i, if ToolSucceeds(cfg, s.steps[i], i, tools) then StepDone(i) else StepBroke(i));
    SameLogQuiet(s, ToolLog(cfg, s, i, tools), RunTool(cfg, s, i, tools));
  }

  lemma SameLogQuiet(s: RunState, t: RunState, r: RunState)
    requires Quiet(s, t) && r.events == t.events
    ensures Quiet(s, r)
  {
  }

  lemma CascadeQuiet(s: RunState, i: nat)
    requires Dag(s.steps)
    ensures Quiet(s, CascadeSkip(s, i))
  {
    hide MaxSeq, SkipAll, SkipSet;
    var hit := SkipSet(s.steps, i);
    EmitQuiet(s.(steps := SkipAll(s.steps, hit)), StepsSkipped(hit));
  }

  lemma ParkQuiet(s: RunState, i: nat)
    requires i < |s.steps|
    ensures Quiet(s, Park(s, i))
  {
    hide MaxSeq;
    var id := |s.approvals|;
    EmitQuiet(s, GateRequested(id, i));
    SameEvents(s, s.(
      approvals := s.approvals + [Approval(i, ApprovalPending)],
      steps := s.steps[i := s.steps[i].(status := StepAwaiting, approvalId := Some(id))],
      status := AwaitingApproval), GateRequested(id, i));
    SameLogQuiet(s, Emit(s, GateRequested(id, i)), Park(s, i));
  }

  lemma SameEvents(s: RunState, t: RunState, kind: EventKind)
    requires s.events == t.events
    ensures Emit(s, kind).events == Emit(t, kind).events
  {
  }

  // ---- Transitions that end the run ------------------------------------------------------

  /** Nothing in the log has ended the run for good. */
  predicate Open(events: seq<RunEvent>) {
    Count(events, RunCompletedEvent) == 0 && Count(events, RunCancelledEvent) == 0
  }

  /** From s to r the log tells what became of the run, once. */
  ghost predicate Tells(s: RunState, r: RunState) {
    && Told(r)
    && (Paired(s.events) ==> Paired(r.events))
    && Count(r.events, RunFailedEvent) == Count(s.events, RunFailedEvent) + if r.status == Failed then 1 else 0
  }

  lemma QuietTells(s: RunState, t: RunState, r: RunState)
    requires Quiet(s, t) && (Open(t.events) ==> Tells(t, r)) && Open(s.events)
    ensures Tells(s, r)
  {
  }

  lemma QuietOpen(s: RunState, t: RunState)
    requires Quiet(s, t) && Open(s.events)
    ensures Open(t.events)
  {
  }

  /** Nothing is said of a run that goes on. */
  lemma GoesOn(s: RunState, r: RunState)
    requires Quiet(s, r) && Open(s.events) && !RunTerminal(r.status)
    ensures Tells(s, r)
  {
  }

  lemma FinalizeTells(s: RunState)
    requires Open(s.events)
    ensures Tells(s, Finalize(s))
  {
    hide MaxSeq, Emit, Paired, Count, LastVerdict;
    var kind := if AnyStep(s.steps, StepFailed) then RunFailedEvent else RunCompletedEvent;
    var t := s.(status := if AnyStep(s.steps, StepFailed) then Failed else Completed);
    EmitCounts(t, kind, RunCompletedEvent);
    EmitCounts(t, kind, RunCancelledEvent);
    EmitCounts(t, kind, RunFailedEvent);
    EmitStatus(t, kind);
    if Paired(s.events) {
      EmitPaired(t, kind);
    }
  }

  lemma EmitStatus(s: RunState, kind: EventKind)
    ensures Emit(s, kind).status == s.status
  {
  }

  lemma WindDownTells(s: RunState, i: nat)
    requires Dag(s.steps) && Open(s.events)
    ensures Tells(s, Finalize(CascadeSkip(s, i)))
  {
    hide Tells, Quiet, Open, CascadeSkip, Finalize;
    CascadeQuiet(s, i);
    QuietOpen(s, CascadeSkip(s, i));
    FinalizeTells(CascadeSkip(s, i));
    QuietTells(s, CascadeSkip(s, i), Finalize(CascadeSkip(s, i)));
  }

  lemma ToolKeepsKnown(cfg: Config, s: RunState, i: nat, tools: ToolOracle)
    requires Dag(s.steps) && i < |s.steps| && Known(cfg, s.steps)
    ensures Dag(RunTool(cfg, s, i, tools).steps) && Known(cfg, RunTool(cfg, s, i, tools).steps)
  {
    hide RunTool;
    ToolKeepsShape(cfg, s, i, tools);
  }

  lemma {:induction false} DriveTells(cfg: Config, s: RunState, tools: ToolOracle)
    requires Dag(s.steps) && Known(cfg, s.steps) && Open(s.events)
    ensures Tells(s, Drive(cfg, s, tools))
    decreases PendingCount(s.steps)
  {
    hide MaxSeq, ToolLog, AfterTool, RunTool, ToolSucceeds, CascadeSkip, Finalize, Quiet, Tells, Open, PendingCount;
    match NextRunnable(s.steps)
    case None => FinalizeTells(s);
    case Some(i) =>
      if s.steps[i].requiresApproval {
        ParkQuiet(s, i);
        GoesOn(s, Park(s, i));
      } else {
        var r := RunTool(cfg, s, i, tools);
        ToolQuiet(cfg, s, i, tools);
        ToolKeepsKnown(cfg, s, i, tools);
        RunToolPending(cfg, s, i, tools);
        QuietOpen(s, r);
        if ToolSucceeds(cfg, s.steps[i], i, tools) {
          DriveTells(cfg, r, tools);
        } else {
          WindDownTells(r, i);
        }
        QuietTells(s, r, Drive(cfg, s, tools));
      }
  }

  // ---- The operations --------------------------------------------------------------------

  /** A run that is neither completed nor cancelled, and told so, is open. */
  lemma ToldOpen(s: RunState)
    requires Told(s) && s.status !in {Completed, Cancelled}
    ensures Open(s.events)
  {
  }

  /** A pending approval keeps a run from being over for good. */
  lemma DecidableIsOpen(s: RunState, id: nat)
    requires Inv(s) && Told(s) && id < |s.approvals| && s.approvals[id].status == ApprovalPending
    ensures Open(s.events)
  {
    hide MaxSeq, Unblocked, SkipsExplained, Told, Open, DepsDone, Gated;
    assert s.steps[s.approvals[id].stepIdx].status == StepAwaiting;
    ToldOpen(s);
  }

  lemma ApproveTells(cfg: Config, s: RunState, id: nat, tools: ToolOracle)
    requires Inv(s) && Told(s) && Known(cfg, s.steps) && DecideError(s, id, "approve") == None
    ensures Tells(s, Approve(cfg, s, id, tools))
  {
    hide MaxSeq, ToolLog, AfterTool, RunTool, ToolSucceeds, CascadeSkip, Finalize, Drive, Inv, Told, Quiet, Tells,
      Open, Count, LastVerdict, Paired, Emit;
    InvDag(s);
    DecidableIsOpen(s, id);
    var i := s.approvals[id].stepIdx;
    var m := MarkApproved(s, id);
    var kind := GateApproved(id, i);
    EmitQuiet(s, kind);
    var t := s.(approvals := s.approvals[id := s.approvals[id].(status := ApprovalApproved)], status := Running);
    SameEvents(s, t, kind);
    EventLog.EmitKeeps(t, kind);
    SameLogQuiet(s, Emit(s, kind), m);
    var r := RunTool(cfg, m, i, tools);
    ToolQuiet(cfg, m, i, tools);
    ToolKeepsKnown(cfg, m, i, tools);
    QuietOpen(s, m);
    QuietOpen(m, r);
    if ToolSucceeds(cfg, s.steps[i], i, tools) {
      DriveTells(cfg, r, tools);
    } else {
      WindDownTells(r, i);
    }
    QuietTells(m, r, Approve(cfg, s, id, tools));
    QuietTells(s, m, Approve(cfg, s, id, tools));
  }

  lemma RejectTells(s: RunState, id: nat)
    requires Inv(s) && Told(s) && DecideError(s, id, "reject") == None
    ensures Tells(s, Reject(s, id))
  {
    hide MaxSeq, CascadeSkip, Finalize, Inv, Told, Quiet, Tells, Open, Count, LastVerdict, Paired, Emit;
    InvDag(s);
    DecidableIsOpen(s, id);
    var i := s.approvals[id].stepIdx;
    var m := MarkRejected(s, id);
    var kind := GateRejected(id, i);
    EmitQuiet(s, kind);
    var t := SetStatus(s, i, StepRejected)
      .(approvals := s.approvals[id := s.approvals[id].(status := ApprovalRejected)]);
    SameEvents(s, t, kind);
    EventLog.EmitKeeps(t, kind);
    SameLogQuiet(s, Emit(s, kind), m);
    QuietOpen(s, m);
    WindDownTells(m, i);
    QuietTells(s, m, Reject(s, id));
  }

  lemma CancelTells(s: RunState)
    requires Told(s) && !RunTerminal(s.status)
    ensures Tells(s, Cancel(s))
  {
    hide MaxSeq, Count, LastVerdict, Paired, CancelRejects, CancelledStep;
    var kind := RunCancelledEvent;
    var t := Cancel(s).(events := s.events);
    assert Cancel(s) == Emit(t, kind);
    EmitCounts(t, kind, RunCompletedEvent);
    EmitCounts(t, kind, RunCancelledEvent);
    EmitCounts(t, kind, RunFailedEvent);
    if Paired(s.events) {
      EmitPaired(t, kind);
    }
  }

  /** The call passes its own checks and works on the run: the states it refuses, by the inputs. */
  predicate Accepts(s: RunState, op: Op) {
    match op
    case OpExecute(_) => !RunTerminal(s.status)
    case OpDecide(id, decision, _) =>
      (decision == "approve" || decision == "reject") && id < |s.approvals| && s.approvals[id].status == ApprovalPending
    case OpRedraft(id, hasInstructions, hasAccount, agentOk) =>
      && hasInstructions && hasAccount && agentOk
      && id < |s.approvals| && s.approvals[id].status == ApprovalPending
    case OpCancel => !RunTerminal(s.status)
  }

  lemma RefusedLeavesAlone(cfg: Config, s: RunState, op: Op)
    requires Dag(s.steps) && !Accepts(s, op)
    ensures Apply(cfg, s, op) == s
  {
    hide Drive, Approve, Reject, MaxSeq;
  }

  lemma DecisionFound(s: RunState, id: nat, decision: string, tools: ToolOracle)
    requires Inv(s) && Accepts(s, OpDecide(id, decision, tools))
    ensures DecideError(s, id, decision) == None
  {
    hide MaxSeq, Unblocked, SkipsExplained, DepsDone, Gated;
  }

  /** A working call adds its verdict, if it reaches one; a redraft adds none. */
  lemma ApplyTells(cfg: Config, s: RunState, op: Op)
    requires Inv(s) && Told(s) && Known(cfg, s.steps) && Accepts(s, op)
    ensures !op.OpRedraft? ==> Tells(s, Apply(cfg, s, op))
    ensures op.OpRedraft? ==> Apply(cfg, s, op) == Emit(s, GateRedrafted(op.approvalId))
  {
    hide MaxSeq, Drive, Reject, Approve, Inv, Told, Tells, Quiet, Open, Count, LastVerdict, Paired, Cancel, Emit;
    InvDag(s);
    match op
    case OpExecute(tools) =>
      var t := s.(status := Running);
      ToldOpen(s);
      DriveTells(cfg, t, tools);
      SameLogTells(t, s, Drive(cfg, t, tools));
    case OpDecide(id, decision, tools) =>
      DecisionFound(s, id, decision, tools);
      if decision == "reject" {
        RejectTells(s, id);
      } else {
        ApproveTells(cfg, s, id, tools);
      }
    case OpRedraft(_, _, _, _) =>
    case OpCancel => CancelTells(s);
  }

  lemma SameLogTells(t: RunState, s: RunState, r: RunState)
    requires Tells(t, r) && t.events == s.events
    ensures Tells(s, r)
  {
  }

  lemma ApplyTold(cfg: Config, s: RunState, op: Op)
    requires Inv(s) && Told(s) && Paired(s.events) && Known(cfg, s.steps)
    ensures Dag(s.steps) && Told(Apply(cfg, s, op)) && Paired(Apply(cfg, s, op).events)
  {
    hide Inv, Apply, Paired, Count, LastVerdict, Known, Accepts, Emit;
    InvDag(s);
    if !Accepts(s, op) {
      RefusedLeavesAlone(cfg, s, op);
    } else {
      ApplyTells(cfg, s, op);
      if op.OpRedraft? {
        EmitQuiet(s, GateRedrafted(op.approvalId));
        EventLog.EmitKeeps(s, GateRedrafted(op.approvalId));
      }
    }
  }

  lemma CreateTold(tools: Planner.Registry, plan: seq<Planner.PlanStep>)
    requires Planner.Accepted(tools, plan)
    ensures Told(Create(plan)) && Paired(Create(plan).events)
    ensures |Create(plan).events| == 1 && Create(plan).events[0].kind == RunCreated(|plan|)
    ensures forall k :: 0 <= k < |Create(plan).steps| ==> Create(plan).steps[k].tool in tools
  {
    forall k | 0 <= k < |plan|
      ensures Create(plan).steps[k].tool in tools
    {
      assert Planner.StepAccepted(tools, plan[k], k);
    }
  }

  lemma {:induction false} ToldEveryRun(cfg: Config, plan: seq<Planner.PlanStep>, ops: seq<Op>)
    requires Planner.Accepted(cfg.tools, plan)
    ensures Dag(Create(plan).steps) && Known(cfg, ApplyAll(cfg, Create(plan), ops).steps)
    ensures Told(ApplyAll(cfg, Create(plan), ops)) && Paired(ApplyAll(cfg, Create(plan), ops).events)
    decreases |ops|
  {
    hide Inv, Apply, Create, Paired, Told;
    InvHoldsInEveryRun(cfg, plan, []);
    CreateTold(cfg.tools, plan);
    if ops != [] {
      ToldEveryRun(cfg, plan, ops[..|ops| - 1]);
      InvHoldsInEveryRun(cfg, plan, ops[..|ops| - 1]);
      ApplyTold(cfg, ApplyAll(cfg, Create(plan), ops[..|ops| - 1]), ops[|ops| - 1]);
    }
    RunTheorems.ApplyAllShape(cfg, Create(plan), ops);
  }

  // ---- The theorems ----------------------------------------------------------------------

  /**
   Over every sequence of operations on every accepted plan: the log opens with the run's creation; an ended
   run is named by the last verdict in its log; the completion is logged once when the run is completed and
   never otherwise, and the cancellation likewise.
   */
  lemma StatusIsLogged(cfg: Config, plan: seq<Planner.PlanStep>, ops: seq<Op>)
    requires Planner.Accepted(cfg.tools, plan)
    ensures Dag(Create(plan).steps)
    ensures var s := ApplyAll(cfg, Create(plan), ops);
      && (s.status == Completed ==> LastVerdict(s.events) == Some(RunCompletedEvent))
      && (s.status == Failed ==> LastVerdict(s.events) == Some(RunFailedEvent))
      && (s.status == Cancelled ==> LastVerdict(s.events) == Some(RunCancelledEvent))
      && Count(s.events, RunCompletedEvent) == (if s.status == Completed then 1 else 0)
      && Count(s.events, RunCancelledEvent) == (if s.status == Cancelled then 1 else 0)
      && |s.events| > 0 && s.events[0].kind == RunCreated(|plan|)
  {
    hide Inv, ApplyAll, Create, Count, LastVerdict, Paired;
    ToldEveryRun(cfg, plan, ops);
    CreateTold(cfg.tools, plan);
    CreateInv(cfg.tools, plan);
    RunTheorems.DecidedOnce(cfg, Create(plan), ops);
  }

  /**
   After any history: a call that may not work on the run leaves it as it is; one that executes or decides
   adds to the log a failure of the run exactly when it leaves it failed, and then once; a redraft adds its
   own event and nothing else.
   */
  lemma FailuresAreLogged(cfg: Config, plan: seq<Planner.PlanStep>, ops: seq<Op>, op: Op)
    requires Planner.Accepted(cfg.tools, plan)
    ensures Dag(Create(plan).steps)
    ensures var s := ApplyAll(cfg, Create(plan), ops);
      var r := Apply(cfg, s, op);
      && (!Accepts(s, op) ==> r == s)
      && s.events <= r.events
      && (Accepts(s, op) && (op.OpExecute? || op.OpDecide?) ==>
            Count(r.events, RunFailedEvent) == Count(s.events, RunFailedEvent) + if r.status == Failed then 1 else 0)
      && (Accepts(s, op) && op.OpRedraft? ==>
            && r == s.(events := r.events) && |r.events| == |s.events| + 1
            && r.events[|s.events|].kind == GateRedrafted(op.approvalId))
  {
    hide Inv, ApplyAll, Create, Count, LastVerdict, Paired, Apply, Told, Accepts;
    ToldEveryRun(cfg, plan, ops);
    InvHoldsInEveryRun(cfg, plan, ops);
    var s := ApplyAll(cfg, Create(plan), ops);
    if !Accepts(s, op) {
      RefusedLeavesAlone(cfg, s, op);
    } else {
      ApplyTells(cfg, s, op);
    }
    RunTheorems.ApplyEvolves(cfg, s, op);
  }

  /**
   Why a decision or a redraft is refused, after any history: each reason exactly where no earlier one holds.
   A decision never fails to find its step.
   */
  lemma RefusalsAreExact(cfg: Config, plan: seq<Planner.PlanStep>, ops: seq<Op>, id: nat, decision: string,
      hasInstructions: bool, hasAccount: bool, agentOk: bool)
    requires Planner.Accepted(cfg.tools, plan)
    ensures Dag(Create(plan).steps)
    ensures var s := ApplyAll(cfg, Create(plan), ops);
      var decide := DecideError(s, id, decision);
      var redraft := RedraftError(s, id, hasInstructions, hasAccount, agentOk);
      var known := id < |s.approvals|;
      var open := known && s.approvals[id].status == ApprovalPending;
      && (decide == Some(InvalidDecision) <==> decision != "approve" && decision != "reject")
      && (decide == Some(ApprovalNotFound) <==> (decision == "approve" || decision == "reject") && !known)
      && (decide == Some(AlreadyDecided) <==> (decision == "approve" || decision == "reject") && known && !open)
      && (decide == None <==> (decision == "approve" || decision == "reject") && open)
      && (redraft == Some(NoInstructions) <==> !hasInstructions)
      && (redraft == Some(ApprovalNotFound) <==> hasInstructions && !known)
      && (redraft == Some(AlreadyDecided) <==> hasInstructions && known && !open)
      && (redraft == Some(NoAccount) <==> hasInstructions && open && !hasAccount)
      && (redraft == Some(RedraftFailed) <==> hasInstructions && open && hasAccount && !agentOk)
      && (redraft == None <==> hasInstructions && open && hasAccount && agentOk)
  {
    hide ApplyAll, Create, MaxSeq, Unblocked, SkipsExplained, DepsDone, Gated;
    InvHoldsInEveryRun(cfg, plan, ops);
  }

  /** In every history a step's end stands in the log right behind the start of the same step. */
  lemma EndsFollowStarts(cfg: Config, plan: seq<Planner.PlanStep>, ops: seq<Op>, p: nat, i: nat)
    requires Planner.Accepted(cfg.tools, plan)
    ensures Dag(Create(plan).steps)
    ensures var events := ApplyAll(cfg, Create(plan), ops).events;
      p < |events| && (events[p].kind == StepDone(i) || events[p].kind == StepBroke(i)) ==>
        p > 0 && events[p - 1].kind == StepStarted(i)
  {
    hide Inv, ApplyAll, Create, Told;
    ToldEveryRun(cfg, plan, ops);
    var events := ApplyAll(cfg, Create(plan), ops).events;
    if p < |events| && (events[p].kind == StepDone(i) || events[p].kind == StepBroke(i)) {
      assert EndOf(events[p].kind, i);
    }
  }

  // ---- The order of the stages -----------------------------------------------------------

  /** Before entry p of the log a step with this tool is logged as done. */
  ghost predicate DoneBefore(plan: seq<Planner.PlanStep>, events: seq<RunEvent>, p: nat, tool: string) {
    exists q: nat, j: nat :: q < p && q < |events| && events[q].kind == StepDone(j) &&
      j < |plan| && plan[j].tool == tool
  }

  /** A start of a step whose tool waits for another tool, in the log of any history. */
  lemma StartWaits(cfg: Config, plan: seq<Planner.PlanStep>, ops: seq<Op>, p: nat, i: nat, before: string)
    returns (q: nat, j: nat)
    requires Planner.Accepted(cfg.tools, plan)
    requires Dag(Create(plan).steps)
    requires p < |ApplyAll(cfg, Create(plan), ops).events|
    requires ApplyAll(cfg, Create(plan), ops).events[p].kind == StepStarted(i)
    requires i < |plan| ==> Planner.Behind(plan, plan[i].tool, before)
    ensures var events := ApplyAll(cfg, Create(plan), ops).events;
      && q + 1 < p && j < |plan| && plan[j].tool == before
      && events[q].kind == StepStarted(j) && events[q + 1].kind == StepDone(j)
  {
    hide ApplyAll, Create;
    EventLog.StartsAreOrdered(cfg, plan, ops, p, i);
    var events := ApplyAll(cfg, Create(plan), ops).events;
    var d :| d in plan[i].dependsOn && 0 <= d < |plan| && plan[d].tool == before;
    j := d;
    var e: nat :| e < p && events[e].kind == StepDone(j);
    EndsFollowStarts(cfg, plan, ops, e, j);
    q := e - 1;
  }

  /**
   In every history of a run created for a goal: a message is sent only after one was composed, and after
   an approval of that very step; composed only after the account was scored; scored only after it was
   researched.
   */
  lemma StagesInOrder(cfg: Config, goal: string, plan: seq<Planner.PlanStep>, ops: seq<Op>, p: nat, i: nat)
    requires Planner.Accepted(cfg.tools, plan) && Planner.Serves(cfg.tools, goal, plan)
    ensures Dag(Create(plan).steps)
    ensures var events := ApplyAll(cfg, Create(plan), ops).events;
      p < |events| && events[p].kind == StepStarted(i) ==>
        && i < |plan|
        && (plan[i].tool == "send_message" ==>
              && DoneBefore(plan, events, p, "compose_message")
              && exists q, a :: 0 <= q < p && events[q].kind == GateApproved(a, i))
        && (plan[i].tool in {"send_message", "compose_message"} ==> DoneBefore(plan, events, p, "scoring"))
        && (plan[i].tool in {"send_message", "compose_message", "scoring"} ==>
              DoneBefore(plan, events, p, "research"))
  {
    hide ApplyAll, Create, Planner.Accepted, Planner.Tooled;
    EventLog.StartsAreOrdered(cfg, plan, ops, p, i);
    var events := ApplyAll(cfg, Create(plan), ops).events;
    if p < |events| && events[p].kind == StepStarted(i) {
      var tool, r, k := plan[i].tool, p, i;
      if tool == "send_message" {
        r, k := StartWaits(cfg, plan, ops, p, i, "compose_message");
      }
      if tool == "send_message" || tool == "compose_message" {
        r, k := StartWaits(cfg, plan, ops, r, k, "scoring");
      }
      if tool == "send_message" || tool == "compose_message" || tool == "scoring" {
        r, k := StartWaits(cfg, plan, ops, r, k, "research");
      }
    }
  }
}
