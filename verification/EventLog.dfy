/**
 The run's event log (nexus/orchestration/engine.py `_emit`, replayed over server-sent events in
 nexus/api/routers/orchestration.py). Its numbers are exactly 1..n, folding it reconstructs every
 step's status, and every entry is legal where it stands: so the log alone shows that steps start
 in topological order, once, and behind an approval when gated.
 */
module EventLog {
  import opened Wrappers
  import opened RunModel
  import opened RunInvariant
  import RunTheorems
  import Planner

  /** What a client knows after folding a log: step statuses, and the steps approved so far. */
  datatype LogState = LogState(statuses: seq<StepStatus>, approved: set<nat>)

  function Initial(n: nat): LogState {
    LogState(seq(n, k => StepPending), {})
  }

  function Put(st: LogState, i: nat, status: StepStatus): LogState {
    if i < |st.statuses| then st.(statuses := st.statuses[i := status]) else st
  }

  function Effect(st: LogState, kind: EventKind): LogState {
    match kind
    case StepStarted(i) => Put(st, i, StepRunning)
    case StepDone(i) => Put(st, i, StepCompleted)
    case StepBroke(i) => Put(st, i, StepFailed)
    case GateRequested(_, i) => Put(st, i, StepAwaiting)
    case GateApproved(_, i) => st.(approved := st.approved + {i})
    case GateRejected(_, i) => Put(st, i, StepRejected)
    case StepsSkipped(idxs) =>
      st.(statuses := seq(|st.statuses|, k requires 0 <= k < |st.statuses| =>
        if k in idxs then StepSkipped else st.statuses[k]))
    case RunCancelledEvent =>
      st.(statuses := seq(|st.statuses|, k requires 0 <= k < |st.statuses| =>
        if st.statuses[k] in {StepPending, StepAwaiting} then StepSkipped else st.statuses[k]))
    case _ => st
  }

  function ReplayFrom(st: LogState, events: seq<RunEvent>): LogState {
    if events == [] then st
    else Effect(ReplayFrom(st, events[..|events| - 1]), events[|events| - 1].kind)
  }

  function Replay(n: nat, events: seq<RunEvent>): LogState {
    ReplayFrom(Initial(n), events)
  }

  predicate WellNumbered(events: seq<RunEvent>) {
    forall k :: 0 <= k < |events| ==> events[k].seqNo == k + 1
  }

  // ---- Legal logs ------------------------------------------------------------------------

  predicate DepsCompleted(steps: seq<RunStep>, st: LogState, i: nat)
    requires i < |steps|
  {
    forall k :: 0 <= k < |steps[i].dependsOn| ==>
      var d := steps[i].dependsOn[k];
      0 <= d < |st.statuses| && st.statuses[d] == StepCompleted
  }

  /** The tool of step i may start here. */
  predicate MayStart(steps: seq<RunStep>, st: LogState, i: nat) {
    && i < |steps| == |st.statuses|
    && DepsCompleted(steps, st, i)
    && if steps[i].requiresApproval then st.statuses[i] == StepAwaiting && i in st.approved
      else st.statuses[i] == StepPending
  }

  predicate MayDecide(st: LogState, i: nat) {
    i < |st.statuses| && st.statuses[i] == StepAwaiting && i !in st.approved
  }

  predicate BadAt(st: LogState, d: int) {
    0 <= d < |st.statuses| && Bad(st.statuses[d])
  }

  predicate MaySkip(steps: seq<RunStep>, st: LogState, idxs: set<nat>) {
    && idxs != {}
    && |steps| == |st.statuses|
    && forall i :: i in idxs ==>
         && i < |steps| && st.statuses[i] == StepPending
         && exists d :: d in steps[i].dependsOn && (d in idxs || BadAt(st, d))
  }

  predicate Legal(steps: seq<RunStep>, st: LogState, kind: EventKind) {
    match kind
    case RunCreated(n) => n == |steps| && st == Initial(n)
    case StepStarted(i) => MayStart(steps, st, i)
    case StepDone(i) => i < |st.statuses| && st.statuses[i] == StepRunning
    case StepBroke(i) => (i < |st.statuses| && st.statuses[i] == StepRunning) || MayStart(steps, st, i)
    case GateRequested(_, i) =>
      && i < |steps| == |st.statuses| && steps[i].requiresApproval
      && st.statuses[i] == StepPending && DepsCompleted(steps, st, i)
    case GateApproved(_, i) => MayDecide(st, i)
    case GateRejected(_, i) => MayDecide(st, i)
    case GateRedrafted(_) => true
    case StepsSkipped(idxs) => MaySkip(steps, st, idxs)
    case RunFailedEvent => StepFailed in st.statuses
    case RunCompletedEvent => StepFailed !in st.statuses && forall k :: 0 <= k < |st.statuses| ==>
      StepTerminal(st.statuses[k])
    case RunCancelledEvent => true
  }

  predicate LegalLog(steps: seq<RunStep>, events: seq<RunEvent>) {
    events == [] ||
    (&& LegalLog(steps, events[..|events| - 1])
     && Legal(steps, Replay(|steps|, events[..|events| - 1]), events[|events| - 1].kind))
  }

  // ---- The log agrees with the rows ------------------------------------------------------

  function ApprovedSteps(approvals: seq<Approval>): set<nat> {
    set a | 0 <= a < |approvals| && approvals[a].status == ApprovalApproved :: approvals[a].stepIdx
  }

  function Statuses(steps: seq<RunStep>): seq<StepStatus> {
    seq(|steps|, k requires 0 <= k < |steps| => steps[k].status)
  }

  function Rows(s: RunState): LogState {
    LogState(Statuses(s.steps), ApprovedSteps(s.approvals))
  }

  predicate Logged(s: RunState) {
    && WellNumbered(s.events)
    && LegalLog(s.steps, s.events)
    && Replay(|s.steps|, s.events) == Rows(s)
  }

  lemma {:induction false} MaxSeqWellNumbered(events: seq<RunEvent>)
    requires WellNumbered(events)
    ensures MaxSeq(events) == |events|
  {
    if events != [] {
      MaxSeqWellNumbered(events[..|events| - 1]);
    }
  }

  lemma {:induction false} LegalLogSameShape(s: seq<RunStep>, t: seq<RunStep>, events: seq<RunEvent>)
    requires SameShape(s, t) && LegalLog(s, events)
    ensures LegalLog(t, events)
    decreases |events|
  {
    hide Replay;
    if events != [] {
      LegalLogSameShape(s, t, events[..|events| - 1]);
    }
  }

  /** Appending a legal event to the log of s gives the log of any t with the rows it describes. */
  lemma EmitLogged(s: RunState, t: RunState, kind: EventKind)
    requires Logged(s) && SameShape(s.steps, t.steps) && t.events == s.events
    requires Legal(s.steps, Rows(s), kind) && Rows(t) == Effect(Rows(s), kind)
    ensures Logged(Emit(t, kind))
  {
    hide Legal, MaxSeq, Rows, Effect;
    MaxSeqWellNumbered(s.events);
    LegalLogSameShape(s.steps, t.steps, s.events);
    var events := Emit(t, kind).events;
    assert events[..|events| - 1] == s.events;
    LegalSameShape(s.steps, t.steps, Rows(s), kind);
    assert LegalLog(t.steps, events);
    assert Rows(Emit(t, kind)) == Rows(t) by {
      RowsOf(t, kind);
    }
  }

  lemma RowsOf(t: RunState, kind: EventKind)
    ensures Rows(Emit(t, kind)) == Rows(t)
  {
  }

  lemma LegalSameShape(s: seq<RunStep>, t: seq<RunStep>, st: LogState, kind: EventKind)
    requires SameShape(s, t) && Legal(s, st, kind)
    ensures Legal(t, st, kind)
  {
    match kind
    case StepsSkipped(idxs) =>
      forall i | i in idxs
        ensures exists d :: d in t[i].dependsOn && (d in idxs || BadAt(st, d))
      {
        var d :| d in s[i].dependsOn && (d in idxs || BadAt(st, d));
        assert d in t[i].dependsOn;
      }
    case _ =>
  }

  lemma RowsUpdate(s: RunState, i: nat, row: RunStep)
    requires i < |s.steps|
    ensures Rows(s.(steps := s.steps[i := row])) == Put(Rows(s), i, row.status)
  {
    assert Statuses(s.steps[i := row]) == Statuses(s.steps)[i := row.status];
  }

  lemma PutTwice(st: LogState, i: nat, a: StepStatus, b: StepStatus)
    requires i < |st.statuses|
    ensures Put(Put(st, i, a), i, b) == Put(st, i, b) && Put(st, i, a).statuses[i] == a
  {
    assert st.statuses[i := a][i := b] == st.statuses[i := b];
  }

  lemma RunToolLogged(cfg: Config, s: RunState, i: nat, tools: ToolOracle)
    requires Logged(s) && MayStart(s.steps, Rows(s), i)
    ensures Logged(RunTool(cfg, s, i, tools))
  {
    hide MaxSeq, AfterTool, ToolSucceeds, Logged, Rows, MayStart, Emit, Put;
    StartBound(s, i);
    var row := AfterTool(cfg, s.steps[i], i, tools);
    AfterToolShape(cfg, s.steps[i], i, tools);
    var end := s.(steps := s.steps[i := row]);
    RowsUpdate(s, i, row);
    if s.steps[i].tool !in cfg.tools {
      assert !ToolSucceeds(cfg, s.steps[i], i, tools) by {
        NoTool(cfg, s.steps[i], i, tools);
      }
      EmitLogged(s, end, StepBroke(i));
      EmitSteps(s, end.steps, StepBroke(i));
    } else {
      var mid := s.(steps := s.steps[i := s.steps[i].(status := StepRunning)]);
      RowsUpdate(s, i, mid.steps[i]);
      EmitLogged(s, mid, StepStarted(i));
      var started := Emit(mid, StepStarted(i));
      RowsOf(mid, StepStarted(i));
      PutTwice(Rows(s), i, StepRunning, row.status) by { RowsLength(s); }
      RowsLength(s);
      var kind := if ToolSucceeds(cfg, s.steps[i], i, tools) then StepDone(i) else StepBroke(i);
      EmitKeeps(mid, StepStarted(i));
      RowsLength(started);
      var done := started.(steps := end.steps);
      assert done.steps == started.steps[i := row];
      RowsUpdate(started, i, row);
      EmitLogged(started, done, kind);
      EmitSteps(s, mid.steps, StepStarted(i));
      EmitSteps(Emit(s, StepStarted(i)), end.steps, kind);
      EmitSteps(started, end.steps, kind);
    }
  }

  lemma NoTool(cfg: Config, step: RunStep, i: nat, tools: ToolOracle)
    requires step.tool !in cfg.tools
    ensures !ToolSucceeds(cfg, step, i, tools)
  {
  }

  lemma StartBound(s: RunState, i: nat)
    requires MayStart(s.steps, Rows(s), i)
    ensures i < |s.steps|
  {
  }

  lemma RowsLength(s: RunState)
    ensures |Rows(s).statuses| == |s.steps|
  {
  }

  lemma EmitKeeps(s: RunState, kind: EventKind)
    ensures Emit(s, kind) == s.(events := Emit(s, kind).events)
  {
  }

  lemma EmitSteps(s: RunState, steps: seq<RunStep>, kind: EventKind)
    ensures Emit(s.(steps := steps), kind) == Emit(s, kind).(steps := steps)
  {
  }

  /** A runnable ungated step, or an awaiting approved one, may start. */
  lemma RunnableMayStart(s: RunState, i: nat)
    requires i < |s.steps| && Runnable(s.steps, i) && !s.steps[i].requiresApproval
    ensures MayStart(s.steps, Rows(s), i)
  {
  }

  lemma FinalizeLogged(s: RunState)
    requires Logged(s)
    ensures Logged(Finalize(s))
  {
    hide MaxSeq, Replay, LegalLog;
    var st := Rows(s);
    if AnyStep(s.steps, StepFailed) {
      var k :| 0 <= k < |s.steps| && s.steps[k].status == StepFailed;
      assert st.statuses[k] == StepFailed;
      EmitLogged(s, s.(status := Failed), RunFailedEvent);
    } else if !AnyStep(s.steps, StepAwaiting) && forall k :: 0 <= k < |s.steps| ==> StepTerminal(s.steps[k].status) {
      EmitLogged(s, s.(status := Completed), RunCompletedEvent);
    }
  }

  lemma ParkLogged(s: RunState, i: nat)
    requires Logged(s) && i < |s.steps| && Runnable(s.steps, i) && s.steps[i].requiresApproval
    ensures Logged(Park(s, i))
  {
    hide MaxSeq, Replay, LegalLog, Logged;
    var id := |s.approvals|;
    var row := s.steps[i].(status := StepAwaiting, approvalId := Some(id));
    var t := s.(
      approvals := s.approvals + [Approval(i, ApprovalPending)],
      steps := s.steps[i := row],
      status := AwaitingApproval);
    RowsUpdate(s, i, row);
    ApprovedAppend(s.approvals, i);
    EmitLogged(s, t, GateRequested(id, i));
  }

  lemma ApprovedAppend(approvals: seq<Approval>, i: nat)
    ensures ApprovedSteps(approvals + [Approval(i, ApprovalPending)]) == ApprovedSteps(approvals)
  {
    var more := approvals + [Approval(i, ApprovalPending)];
    forall x | x in ApprovedSteps(approvals)
      ensures x in ApprovedSteps(more)
    {
      var a :| 0 <= a < |approvals| && approvals[a].status == ApprovalApproved && approvals[a].stepIdx == x;
      assert more[a] == approvals[a];
    }
  }

  lemma ApprovedUpdate(approvals: seq<Approval>, a: nat, verdict: ApprovalStatus)
    requires a < |approvals| && approvals[a].status == ApprovalPending
    ensures ApprovedSteps(approvals[a := approvals[a].(status := verdict)]) ==
      ApprovedSteps(approvals) + if verdict == ApprovalApproved then {approvals[a].stepIdx} else {}
  {
    var next := approvals[a := approvals[a].(status := verdict)];
    forall x | x in ApprovedSteps(approvals)
      ensures x in ApprovedSteps(next)
    {
      var k :| 0 <= k < |approvals| && approvals[k].status == ApprovalApproved && approvals[k].stepIdx == x;
      assert next[k] == approvals[k];
    }
    if verdict == ApprovalApproved {
      assert next[a].status == ApprovalApproved;
    }
  }

  lemma CascadeMaySkip(s: RunState, i: nat)
    requires Core(s) && i < |s.steps| && Bad(s.steps[i].status) && SkipSet(s.steps, i) != {}
    ensures MaySkip(s.steps, Rows(s), SkipSet(s.steps, i))
  {
    hide Linked, Gated, NoRunning, DepsDone;
    var hit := SkipSet(s.steps, i);
    var st := Rows(s);
    forall b | b in hit
      ensures exists d :: d in s.steps[b].dependsOn && (d in hit || BadAt(st, d))
    {
      var d := SkippedBehind(s, b, i);
      assert d in s.steps[b].dependsOn && (d in hit || BadAt(st, d));
    }
  }

  lemma SkipAllRows(s: RunState, hit: set<nat>)
    ensures Rows(s.(steps := SkipAll(s.steps, hit))) == Effect(Rows(s), StepsSkipped(hit))
  {
    assert Statuses(SkipAll(s.steps, hit)) == Effect(Rows(s), StepsSkipped(hit)).statuses;
  }

  lemma CascadeLogged(s: RunState, i: nat)
    requires Logged(s) && Core(s) && i < |s.steps| && Bad(s.steps[i].status)
    ensures Logged(CascadeSkip(s, i))
  {
    hide MaxSeq, Logged, Core, Reaches, Rows, MaySkip, SkipSet, Effect;
    RunTheorems.CoreDag(s);
    var hit := SkipSet(s.steps, i);
    if hit != {} {
      CascadeMaySkip(s, i);
      SkipAllRows(s, hit);
      EmitLogged(s, s.(steps := SkipAll(s.steps, hit)), StepsSkipped(hit));
    }
  }

  lemma WindDownLogged(s: RunState, i: nat)
    requires Logged(s) && Core(s) && i < |s.steps| && Bad(s.steps[i].status)
    ensures Logged(Finalize(CascadeSkip(s, i)))
  {
    hide MaxSeq, Logged, CascadeSkip, Finalize, Core;
    RunTheorems.CoreDag(s);
    CascadeLogged(s, i);
    FinalizeLogged(CascadeSkip(s, i));
  }

  lemma {:induction false} DriveLogged(cfg: Config, s: RunState, tools: ToolOracle)
    requires Settled(s) && Logged(s)
    ensures Logged(Drive(cfg, s, tools))
    decreases PendingCount(s.steps)
  {
    hide MaxSeq, ToolLog, AfterTool, RunTool, ToolSucceeds, CascadeSkip, Finalize, Park, Settled, Core, Logged,
      PendingCount;
    SettledDag(s);
    match NextRunnable(s.steps)
    case None => FinalizeLogged(s);
    case Some(i) =>
      if s.steps[i].requiresApproval {
        ParkLogged(s, i);
      } else {
        var r := RunTool(cfg, s, i, tools);
        RunnableMayStart(s, i);
        RunToolLogged(cfg, s, i, tools);
        RunToolInv(cfg, s, i, tools);
        RunToolPending(cfg, s, i, tools);
        RunToolShape(cfg, s, i, tools);
        AfterToolShape(cfg, s.steps[i], i, tools);
        if ToolSucceeds(cfg, s.steps[i], i, tools) {
          DriveLogged(cfg, r, tools);
        } else {
          WindDownLogged(r, i);
        }
      }
  }

  /** A pending approval's step: it waits, is not approved, and all it needs is completed. */
  lemma AwaitingRows(s: RunState, id: nat)
    requires Inv(s) && id < |s.approvals| && s.approvals[id].status == ApprovalPending
    ensures var i := s.approvals[id].stepIdx;
      && i < |s.steps| && s.steps[i].status == StepAwaiting && s.steps[i].requiresApproval
      && i !in ApprovedSteps(s.approvals)
      && MayDecide(Rows(s), i) && DepsCompleted(s.steps, Rows(s), i)
      && s.status != Cancelled
  {
    hide MaxSeq, Unblocked, SkipsExplained;
    var i := s.approvals[id].stepIdx;
    var deps := s.steps[i].dependsOn;
    forall k | 0 <= k < |deps|
      ensures 0 <= deps[k] < |s.steps| && s.steps[deps[k]].status == StepCompleted
    {
      assert deps[k] in deps;
    }
  }

  lemma ApproveLogged(cfg: Config, s: RunState, id: nat, tools: ToolOracle)
    requires Inv(s) && Logged(s) && DecideError(s, id, "approve") == None
    ensures Logged(Approve(cfg, s, id, tools))
  {
    hide MaxSeq, ToolLog, AfterTool, RunTool, ToolSucceeds, CascadeSkip, Finalize, Drive, Logged, Inv, Settled, Core,
      Replay, LegalLog;
    InvDag(s);
    AwaitingRows(s, id);
    var i := s.approvals[id].stepIdx;
    ApprovedUpdate(s.approvals, id, ApprovalApproved);
    var t := s.(approvals := s.approvals[id := s.approvals[id].(status := ApprovalApproved)], status := Running);
    EmitLogged(s, t, GateApproved(id, i));
    var m := MarkApproved(s, id);
    assert m == Emit(t, GateApproved(id, i));
    assert MayStart(m.steps, Rows(m), i);
    RunToolLogged(cfg, m, i, tools);
    var r := RunTool(cfg, m, i, tools);
    RunToolShape(cfg, m, i, tools);
    AfterToolShape(cfg, s.steps[i], i, tools);
    ApprovedEnds(s, id, r);
    if ToolSucceeds(cfg, s.steps[i], i, tools) {
      DriveLogged(cfg, r, tools);
    } else {
      WindDownLogged(r, i);
    }
  }

  lemma ApprovedEnds(s: RunState, id: nat, r: RunState)
    requires Inv(s) && s.status != Cancelled && id < |s.approvals| && s.approvals[id].status == ApprovalPending
    requires var i := s.approvals[id].stepIdx;
      && i < |s.steps| && |r.steps| == |s.steps|
      && r.steps[i] == s.steps[i].(status := r.steps[i].status, attempts := r.steps[i].attempts)
      && r.steps[i].status in {StepCompleted, StepFailed}
      && r.steps == s.steps[i := r.steps[i]]
      && r.approvals == s.approvals[id := s.approvals[id].(status := ApprovalApproved)]
    ensures Core(r)
    ensures r.steps[s.approvals[id].stepIdx].status == StepCompleted ==> Settled(r)
  {
    hide MaxSeq;
    ApprovedStepEnds(s, id, r.steps[s.approvals[id].stepIdx]);
  }

  lemma RejectLogged(s: RunState, id: nat)
    requires Inv(s) && Logged(s) && DecideError(s, id, "reject") == None
    ensures Logged(Reject(s, id))
  {
    hide MaxSeq, CascadeSkip, Finalize, Logged, Inv, Core, Replay, LegalLog;
    InvDag(s);
    AwaitingRows(s, id);
    var i := s.approvals[id].stepIdx;
    var row := s.steps[i].(status := StepRejected);
    ApprovedUpdate(s.approvals, id, ApprovalRejected);
    RowsUpdate(s, i, row);
    var t := s.(
      approvals := s.approvals[id := s.approvals[id].(status := ApprovalRejected)], steps := s.steps[i := row]);
    EmitLogged(s, t, GateRejected(id, i));
    MarkRejectedInv(s, id);
    assert MarkRejected(s, id) == Emit(t, GateRejected(id, i));
    WindDownLogged(MarkRejected(s, id), i);
  }

  lemma CancelLogged(s: RunState)
    requires Logged(s)
    ensures Logged(Cancel(s))
  {
    hide MaxSeq, Replay, LegalLog, Logged;
    if !RunTerminal(s.status) {
      var r := Cancel(s);
      var t := r.(events := s.events);
      assert Rows(t).statuses == Effect(Rows(s), RunCancelledEvent).statuses;
      assert ApprovedSteps(r.approvals) == ApprovedSteps(s.approvals) by {
        forall x | x in ApprovedSteps(s.approvals)
          ensures x in ApprovedSteps(r.approvals)
        {
          var a :| 0 <= a < |s.approvals| && s.approvals[a].status == ApprovalApproved && s.approvals[a].stepIdx == x;
          assert r.approvals[a] == s.approvals[a];
        }
      }
      EmitLogged(s, t, RunCancelledEvent);
    }
  }

  lemma ApplyLogged(cfg: Config, s: RunState, op: Op)
    requires Inv(s) && Logged(s)
    ensures Logged(Apply(cfg, s, op))
  {
    hide MaxSeq, CascadeSkip, Finalize, Drive, Reject, Approve, Core, Rollup, Replay, LegalLog, Cancel;
    InvDag(s);
    match op
    case OpExecute(tools) =>
      if !RunTerminal(s.status) {
        SettledStatus(s, Running);
        DriveLogged(cfg, s.(status := Running), tools);
      }
    case OpDecide(id, decision, tools) =>
      if DecideError(s, id, decision).None? {
        if decision == "reject" {
          RejectLogged(s, id);
        } else {
          ApproveLogged(cfg, s, id, tools);
        }
      }
    case OpRedraft(id, _, _, _) =>
      EmitLogged(s, s, GateRedrafted(id));
    case OpCancel => CancelLogged(s);
  }

  /** The rows before their first event. */
  lemma UnloggedLogged(plan: seq<Planner.PlanStep>)
    ensures var s := Create(plan).(events := []);
      Logged(s) && Rows(s) == Initial(|plan|) && |s.steps| == |plan|
  {
    hide MaxSeq;
  }

  lemma CreateLogged(plan: seq<Planner.PlanStep>)
    ensures Logged(Create(plan))
  {
    var s := Create(plan).(events := []);
    UnloggedLogged(plan);
    assert Emit(s, RunCreated(|plan|)) == Create(plan);
    hide Logged, Rows, Emit, Create, Initial;
    assert Effect(Rows(s), RunCreated(|plan|)) == Rows(s);
    EmitLogged(s, s, RunCreated(|plan|));
  }

  // ---- The theorems ----------------------------------------------------------------------

  /** Replay: in every run, the log is numbered 1..n and folding it gives every step's status. */
  lemma {:induction false} LogReplaysEveryRun(cfg: Config, plan: seq<Planner.PlanStep>, ops: seq<Op>)
    requires Planner.Accepted(cfg.tools, plan)
    ensures Dag(Create(plan).steps)
    ensures var s := ApplyAll(cfg, Create(plan), ops);
      && WellNumbered(s.events)
      && LegalLog(s.steps, s.events)
      && Replay(|plan|, s.events).statuses == Statuses(s.steps)
      && Replay(|plan|, s.events).approved == ApprovedSteps(s.approvals)
    decreases |ops|
  {
    hide Inv, Apply, Create, Replay, LegalLog, WellNumbered;
    LoggedEveryRun(cfg, plan, ops);
    RunTheorems.ApplyAllShape(cfg, Create(plan), ops);
    CreateSize(plan);
  }

  lemma CreateSize(plan: seq<Planner.PlanStep>)
    ensures |Create(plan).steps| == |plan|
  {
  }

  lemma {:induction false} LoggedEveryRun(cfg: Config, plan: seq<Planner.PlanStep>, ops: seq<Op>)
    requires Planner.Accepted(cfg.tools, plan)
    ensures Dag(Create(plan).steps) && Logged(ApplyAll(cfg, Create(plan), ops))
    decreases |ops|
  {
    hide Inv, Apply, Create, Logged;
    CreateInv(cfg.tools, plan);
    InvDag(Create(plan));
    if ops == [] {
      CreateLogged(plan);
    } else {
      LoggedEveryRun(cfg, plan, ops[..|ops| - 1]);
      InvHoldsInEveryRun(cfg, plan, ops[..|ops| - 1]);
      ApplyLogged(cfg, ApplyAll(cfg, Create(plan), ops[..|ops| - 1]), ops[|ops| - 1]);
    }
  }

  /** The events a client asks for with `Last-Event-ID: last`. */
  function Since(events: seq<RunEvent>, last: nat): seq<RunEvent> {
    if events == [] then []
    else
      Since(events[..|events| - 1], last) + if events[|events| - 1].seqNo > last then [events[|events| - 1]] else []
  }

  lemma SinceNext(front: seq<RunEvent>, e: RunEvent, last: nat)
    ensures Since(front + [e], last) == Since(front, last) + if e.seqNo > last then [e] else []
  {
    assert (front + [e])[..|front|] == front;
  }

  lemma {:induction false} SinceIsSuffix(events: seq<RunEvent>, last: nat)
    requires WellNumbered(events)
    ensures Since(events, last) == if last <= |events| then events[last..] else []
    decreases |events|
  {
    if events != [] {
      var front, e := events[..|events| - 1], events[|events| - 1];
      assert events == front + [e];
      SinceIsSuffix(front, last);
      SinceNext(front, e, last);
      hide Since;
      if last <= |front| {
        assert events[last..] == front[last..] + [e];
      }
    }
  }

  lemma {:induction false} ReplayConcat(st: LogState, xs: seq<RunEvent>, ys: seq<RunEvent>)
    ensures ReplayFrom(st, xs + ys) == ReplayFrom(ReplayFrom(st, xs), ys)
    decreases |ys|
  {
    hide Effect;
    if ys == [] {
      assert xs + ys == xs;
    } else {
      assert (xs + ys)[..|xs + ys| - 1] == xs + ys[..|ys| - 1];
      ReplayConcat(st, xs, ys[..|ys| - 1]);
    }
  }

  /** Resuming after any prefix, with the events the server then sends, loses and repeats nothing. */
  lemma ResumeReplay(n: nat, events: seq<RunEvent>, k: nat)
    requires WellNumbered(events) && k <= |events|
    ensures ReplayFrom(Replay(n, events[..k]), Since(events, k)) == Replay(n, events)
  {
    hide Effect, ReplayFrom, Initial, WellNumbered, Since;
    SinceIsSuffix(events, k);
    ReplayConcat(Initial(n), events[..k], events[k..]);
    assert events[..k] + events[k..] == events;
  }

  lemma {:induction false} LegalAt(steps: seq<RunStep>, events: seq<RunEvent>, p: nat)
    requires LegalLog(steps, events) && p < |events|
    ensures LegalLog(steps, events[..p]) && Legal(steps, Replay(|steps|, events[..p]), events[p].kind)
    decreases |events|
  {
    hide Legal, Replay;
    var front := events[..|events| - 1];
    if p < |front| {
      LegalAt(steps, front, p);
      assert front[..p] == events[..p];
    }
  }

  lemma {:induction false} ReplayLength(n: nat, events: seq<RunEvent>)
    ensures |Replay(n, events).statuses| == n
    decreases |events|
  {
    if events != [] {
      ReplayLength(n, events[..|events| - 1]);
    }
  }

  /** A status other than pending has an event that put it there. */
  lemma {:induction false} CompletedHasDone(steps: seq<RunStep>, events: seq<RunEvent>, d: nat)
    requires LegalLog(steps, events) && d < |steps|
    requires d < |Replay(|steps|, events).statuses| && Replay(|steps|, events).statuses[d] == StepCompleted
    ensures exists q :: 0 <= q < |events| && events[q].kind == StepDone(d)
    decreases |events|
  {
    hide Legal;
    var front := events[..|events| - 1];
    ReplayLength(|steps|, front);
    if events[|events| - 1].kind != StepDone(d) {
      CompletedHasDone(steps, front, d);
      var q :| 0 <= q < |front| && front[q].kind == StepDone(d);
      assert events[q] == front[q];
    }
  }

  lemma {:induction false} ApprovedHasEvent(steps: seq<RunStep>, events: seq<RunEvent>, i: nat)
    requires i in Replay(|steps|, events).approved
    ensures exists q, a :: 0 <= q < |events| && events[q].kind == GateApproved(a, i)
    decreases |events|
  {
    var last := events[|events| - 1].kind;
    var front := events[..|events| - 1];
    if last.GateApproved? && last.idx == i {
      assert events[|events| - 1].kind == GateApproved(last.approvalId, i);
    } else {
      ApprovedHasEvent(steps, front, i);
      var q, a :| 0 <= q < |front| && front[q].kind == GateApproved(a, i);
      assert events[q] == front[q];
    }
  }

  /** Once a step has left "pending" and "awaiting" it never goes back. */
  lemma {:induction false} LeftForGood(steps: seq<RunStep>, events: seq<RunEvent>, p: nat, i: nat)
    requires LegalLog(steps, events) && p < |events| && i < |steps|
    requires events[p].kind == StepStarted(i)
    ensures i < |Replay(|steps|, events).statuses|
    ensures Replay(|steps|, events).statuses[i] !in {StepPending, StepAwaiting}
    decreases |events|
  {
    var front := events[..|events| - 1];
    ReplayLength(|steps|, front);
    ReplayLength(|steps|, events);
    if p < |front| {
      LeftForGood(steps, front, p, i);
    }
  }

  /**
   What a log alone proves of the run behind it: a tool starts only after each of its dependencies
   is logged as done, only after an approval when its step is gated, and never twice.
   */
  lemma StartsAreOrdered(cfg: Config, plan: seq<Planner.PlanStep>, ops: seq<Op>, p: nat, i: nat)
    requires Planner.Accepted(cfg.tools, plan)
    ensures Dag(Create(plan).steps)
    ensures var events := ApplyAll(cfg, Create(plan), ops).events;
      p < |events| && events[p].kind == StepStarted(i) ==>
        && i < |plan|
        && (forall d :: d in plan[i].dependsOn ==> exists q :: 0 <= q < p && events[q].kind == StepDone(d))
        && (plan[i].requiresApproval ==> exists q, a :: 0 <= q < p && events[q].kind == GateApproved(a, i))
        && (forall q :: 0 <= q < p ==> events[q].kind != StepStarted(i))
  {
    hide Inv, Apply, Replay, LegalLog, WellNumbered;
    LogReplaysEveryRun(cfg, plan, ops);
    RunTheorems.ApplyAllShape(cfg, Create(plan), ops);
    var s := ApplyAll(cfg, Create(plan), ops);
    var events := s.events;
    if p < |events| && events[p].kind == StepStarted(i) {
      LegalAt(s.steps, events, p);
      var st := Replay(|s.steps|, events[..p]);
      assert s.steps[i].dependsOn == plan[i].dependsOn && s.steps[i].requiresApproval == plan[i].requiresApproval;
      forall d | d in plan[i].dependsOn
        ensures exists q :: 0 <= q < p && events[q].kind == StepDone(d)
      {
        var k :| 0 <= k < |plan[i].dependsOn| && plan[i].dependsOn[k] == d;
        assert s.steps[i].dependsOn[k] == d;
        CompletedHasDone(s.steps, events[..p], d);
        var q :| 0 <= q < p && events[..p][q].kind == StepDone(d);
        assert events[q].kind == StepDone(d);
      }
      if plan[i].requiresApproval {
        ApprovedHasEvent(s.steps, events[..p], i);
        var q, a :| 0 <= q < p && events[..p][q].kind == GateApproved(a, i);
        assert events[q].kind == GateApproved(a, i);
      }
      forall q | 0 <= q < p
        ensures events[q].kind != StepStarted(i)
      {
        if events[q].kind == StepStarted(i) {
          assert events[..p][q].kind == StepStarted(i);
          LeftForGood(s.steps, events[..p], q, i);
        }
      }
    }
  }
}
