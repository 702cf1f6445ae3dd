/**
 The joint invariant of a run over its dependency graph, steps, approvals and status, kept by every
 engine operation, and what follows from it for all runs.
 */
module RunInvariant {
  import opened Wrappers
  import opened RunModel
  import Planner

  predicate Bad(st: StepStatus) {
    st in {StepFailed, StepSkipped, StepRejected}
  }

  /** The step was reached: it ran, or was put before a reviewer. */
  predicate Reached(st: StepStatus) {
    st in {StepCompleted, StepFailed, StepAwaiting, StepRejected}
  }

  predicate NoRunning(steps: seq<RunStep>) {
    forall i :: 0 <= i < |steps| ==> steps[i].status != StepRunning
  }

  /** Whatever was reached had its dependencies completed. */
  ghost predicate DepsDone(steps: seq<RunStep>)
    requires Dag(steps)
  {
    forall b, d :: 0 <= b < |steps| && Reached(steps[b].status) && d in steps[b].dependsOn ==>
      steps[d].status == StepCompleted
  }

  /** No pending step waits for a bad one, `except` apart. */
  ghost predicate Unblocked(steps: seq<RunStep>, except: int)
    requires Dag(steps)
  {
    forall b, d :: 0 <= b < |steps| && steps[b].status == StepPending && d in steps[b].dependsOn && d != except ==>
      !Bad(steps[d].status)
  }

  ghost predicate SkipsExplained(steps: seq<RunStep>)
    requires Dag(steps)
  {
    forall b :: 0 <= b < |steps| && steps[b].status == StepSkipped ==>
      exists d :: d in steps[b].dependsOn && Bad(steps[d].status)
  }

  /** Approvals and steps point at each other, and agree on where the decision stands. */
  predicate Linked(steps: seq<RunStep>, approvals: seq<Approval>) {
    && (forall a :: 0 <= a < |approvals| ==>
          && approvals[a].stepIdx < |steps|
          && var step := steps[approvals[a].stepIdx];
             && step.approvalId == Some(a)
             && (approvals[a].status == ApprovalPending <==> step.status == StepAwaiting)
             && (approvals[a].status == ApprovalApproved <==> step.status in {StepCompleted, StepFailed})
             && (approvals[a].status == ApprovalRejected <==> step.status in {StepRejected, StepSkipped}))
    && (forall i :: 0 <= i < |steps| ==>
          match steps[i].approvalId
          case Some(a) => a < |approvals| && approvals[a].stepIdx == i
          case None => steps[i].status !in {StepAwaiting, StepRejected})
  }

  /** The gate itself: a gated step without an approval row has not run. */
  predicate Gated(steps: seq<RunStep>) {
    forall i :: 0 <= i < |steps| ==>
      && (steps[i].status in {StepPending, StepAwaiting, StepSkipped, StepRejected} ==> steps[i].attempts == 0)
      && (steps[i].requiresApproval && steps[i].approvalId.None? ==> steps[i].status in {StepPending, StepSkipped})
      && (steps[i].approvalId.Some? ==> steps[i].requiresApproval)
  }

  ghost predicate Core(s: RunState) {
    && Dag(s.steps)
    && NoRunning(s.steps)
    && DepsDone(s.steps)
    && Linked(s.steps, s.approvals)
    && Gated(s.steps)
  }

  predicate Drained(steps: seq<RunStep>) {
    forall i :: 0 <= i < |steps| ==> StepTerminal(steps[i].status)
  }

  /** What the run's own status says about its steps. */
  predicate Rollup(s: RunState) {
    match s.status
    case Planning => s.approvals == [] && forall i :: 0 <= i < |s.steps| ==> s.steps[i].status == StepPending
    case Running => !AnyStep(s.steps, StepFailed) && !AnyStep(s.steps, StepAwaiting) && !Drained(s.steps)
    case AwaitingApproval => AnyStep(s.steps, StepAwaiting)
    case Completed => Drained(s.steps) && !AnyStep(s.steps, StepFailed)
    case Failed => AnyStep(s.steps, StepFailed)
    case Cancelled => Drained(s.steps)
  }

  /** Core, and no pending step behind a bad one: all operations but a cancel leave a run so. */
  ghost predicate Settled(s: RunState) {
    Core(s) && Unblocked(s.steps, -1) && SkipsExplained(s.steps)
  }

  ghost predicate Inv(s: RunState) {
    && Core(s)
    && Rollup(s)
    && (s.status != Cancelled ==> Settled(s))
  }

  // ---- Consequences of the local clauses -------------------------------------------------

  lemma {:induction false} ReachedDepsDone(steps: seq<RunStep>, b: int, a: int)
    requires Dag(steps) && DepsDone(steps) && 0 <= b < |steps|
    requires Reached(steps[b].status) && Reaches(steps, b, a)
    ensures 0 <= a < b && steps[a].status == StepCompleted
    decreases b
  {
    if a !in steps[b].dependsOn {
      var c :| c in steps[b].dependsOn && Reaches(steps, c, a);
      ReachedDepsDone(steps, c, a);
    }
  }

  /** Below a bad step everything is bad: nothing there can still run. */
  lemma {:induction false} BadSpreads(s: RunState, b: int, a: int)
    requires Settled(s) && 0 <= b < |s.steps| && Reaches(s.steps, b, a)
    requires 0 <= a < |s.steps| && Bad(s.steps[a].status)
    ensures s.steps[b].status == StepSkipped
    decreases b
  {
    if Reached(s.steps[b].status) {
      ReachedDepsDone(s.steps, b, a);
    }
    if a !in s.steps[b].dependsOn {
      var c :| c in s.steps[b].dependsOn && Reaches(s.steps, c, a);
      BadSpreads(s, c, a);
    }
  }

  /** Every skip has a root cause. */
  lemma {:induction false} SkipRoot(s: RunState, b: int) returns (a: int)
    requires Settled(s) && 0 <= b < |s.steps| && s.steps[b].status == StepSkipped
    ensures 0 <= a < b && Reaches(s.steps, b, a) && s.steps[a].status in {StepFailed, StepRejected}
    decreases b
  {
    var d :| d in s.steps[b].dependsOn && Bad(s.steps[d].status);
    if s.steps[d].status == StepSkipped {
      a := SkipRoot(s, d);
      assert Reaches(s.steps, b, a);
    } else {
      a := d;
    }
  }

  /**
   The cascade is exact: in a run that was not cancelled, a step is skipped if and only if some
   step it depends on, directly or not, failed or was rejected.
   */
  lemma {:induction false} SkippedIffUpstreamBroke(s: RunState, b: nat)
    requires Inv(s) && s.status != Cancelled && b < |s.steps|
    ensures s.steps[b].status == StepSkipped <==>
      exists a :: 0 <= a < |s.steps| && Reaches(s.steps, b, a) && s.steps[a].status in {StepFailed, StepRejected}
  {
    if s.steps[b].status == StepSkipped {
      var a := SkipRoot(s, b);
    }
    forall a | 0 <= a < |s.steps| && Reaches(s.steps, b, a) && s.steps[a].status in {StepFailed, StepRejected}
      ensures s.steps[b].status == StepSkipped
    {
      BadSpreads(s, b, a);
    }
  }

  /** Execution is topological: a reached step has its whole upstream completed. */
  lemma {:induction false} UpstreamCompleted(s: RunState, b: nat)
    requires Inv(s) && b < |s.steps| && Reached(s.steps[b].status)
    ensures forall a :: Reaches(s.steps, b, a) ==> 0 <= a < b && s.steps[a].status == StepCompleted
  {
    forall a | Reaches(s.steps, b, a)
      ensures 0 <= a < b && s.steps[a].status == StepCompleted
    {
      ReachedDepsDone(s.steps, b, a);
    }
  }

  /** With no step awaiting, the least pending step of a settled run is runnable. */
  lemma {:induction false} PendingIsDrivable(s: RunState, b: nat) returns (i: nat)
    requires Settled(s) && b < |s.steps| && s.steps[b].status == StepPending
    requires !AnyStep(s.steps, StepAwaiting)
    ensures i <= b && Runnable(s.steps, i)
    decreases b
  {
    if Runnable(s.steps, b) {
      return b;
    }
    var deps := s.steps[b].dependsOn;
    var k :| 0 <= k < |deps| && !(0 <= deps[k] < |s.steps| && s.steps[deps[k]].status == StepCompleted);
    assert deps[k] in deps;
    assert s.steps[deps[k]].status == StepPending;
    i := PendingIsDrivable(s, deps[k]);
  }

  // ---- Single transitions ----------------------------------------------------------------

  lemma FinalizeInv(s: RunState)
    requires Settled(s)
    ensures Settled(Finalize(s)) && Rollup(Finalize(s)) && Finalize(s).status !in {Planning, Cancelled}
    ensures Finalize(s).steps == s.steps && Finalize(s).approvals == s.approvals
    ensures Finalize(s).status == Failed <==> AnyStep(s.steps, StepFailed)
    ensures Finalize(s).status == Running <==>
      !AnyStep(s.steps, StepFailed) && !AnyStep(s.steps, StepAwaiting) && !Drained(s.steps)
  {
    hide MaxSeq;
  }

  /** Running an ungated runnable step to its end. */
  lemma RunToolInv(cfg: Config, s: RunState, i: nat, tools: ToolOracle)
    requires Settled(s) && i < |s.steps| && Runnable(s.steps, i) && !s.steps[i].requiresApproval
    ensures var r := RunTool(cfg, s, i, tools);
      Core(r) && Unblocked(r.steps, i) && SkipsExplained(r.steps)
    ensures ToolSucceeds(cfg, s.steps[i], i, tools) ==> Settled(RunTool(cfg, s, i, tools))
  {
    hide MaxSeq, ToolLog, AfterTool, RunTool, ToolSucceeds, Linked;
    RunToolShape(cfg, s, i, tools);
    AfterToolShape(cfg, s.steps[i], i, tools);
    PendingUnlinked(s.steps, s.approvals, i);
    RunnableDeps(s.steps, i);
    var row := RunTool(cfg, s, i, tools).steps[i];
    GraphMove(s.steps, i, row);
    LinkUngated(s.steps, s.approvals, i, row);
  }

  /** Step i is reached: what the move keeps of the clauses about the graph. */
  lemma GraphMove(steps: seq<RunStep>, i: nat, row: RunStep)
    requires Dag(steps) && DepsDone(steps) && Unblocked(steps, -1) && SkipsExplained(steps)
    requires i < |steps| && steps[i].status in {StepPending, StepAwaiting} && Reached(row.status)
    requires row.dependsOn == steps[i].dependsOn
    requires forall d :: d in row.dependsOn ==> steps[d].status == StepCompleted
    ensures var t := steps[i := row];
      && Dag(t) && DepsDone(t) && Unblocked(t, i) && SkipsExplained(t)
      && (row.status in {StepCompleted, StepAwaiting} ==> Unblocked(t, -1))
  {
    var t := steps[i := row];
    forall b | 0 <= b < |t| && t[b].status == StepSkipped
      ensures exists d :: d in t[b].dependsOn && Bad(t[d].status)
    {
      var d :| d in steps[b].dependsOn && Bad(steps[d].status);
      assert d in t[b].dependsOn && Bad(t[d].status);
    }
  }

  lemma RunnableDeps(steps: seq<RunStep>, i: nat)
    requires i < |steps| && Runnable(steps, i)
    ensures forall d :: d in steps[i].dependsOn ==> 0 <= d < |steps| && steps[d].status == StepCompleted
  {
  }

  /** A decision on approval a, and the row it moves its step to. */
  lemma LinkDecided(steps: seq<RunStep>, approvals: seq<Approval>, a: nat, row: RunStep, verdict: ApprovalStatus)
    requires Linked(steps, approvals) && a < |approvals| && approvals[a].status == ApprovalPending
    requires var step := steps[approvals[a].stepIdx];
      row == step.(status := row.status, attempts := row.attempts)
    requires
      || (verdict == ApprovalApproved && row.status in {StepCompleted, StepFailed})
      || (verdict == ApprovalRejected && row.status == StepRejected)
    ensures Linked(steps[approvals[a].stepIdx := row], approvals[a := approvals[a].(status := verdict)])
  {
  }

  lemma LinkUngated(steps: seq<RunStep>, approvals: seq<Approval>, i: nat, row: RunStep)
    requires Linked(steps, approvals) && i < |steps| && steps[i].approvalId == None
    requires row == steps[i].(status := row.status, attempts := row.attempts)
    requires row.status in {StepCompleted, StepFailed, StepSkipped}
    ensures Linked(steps[i := row], approvals)
  {
  }

  lemma LinkParked(steps: seq<RunStep>, approvals: seq<Approval>, i: nat, row: RunStep)
    requires Linked(steps, approvals) && i < |steps| && steps[i].approvalId == None
    requires row == steps[i].(status := StepAwaiting, approvalId := Some(|approvals|))
    ensures Linked(steps[i := row], approvals + [Approval(i, ApprovalPending)])
  {
  }

  /** The approved step i goes from awaiting to completed or failed. */
  lemma ApprovedStepEnds(s: RunState, id: nat, row: RunStep)
    requires Settled(s) && id < |s.approvals| && s.approvals[id].status == ApprovalPending
    requires var step := s.steps[s.approvals[id].stepIdx];
      row == step.(status := row.status, attempts := row.attempts)
    requires row.status in {StepCompleted, StepFailed}
    ensures var i := s.approvals[id].stepIdx;
      var r := s.(
        steps := s.steps[i := row], approvals := s.approvals[id := s.approvals[id].(status := ApprovalApproved)]);
      && Core(r) && Unblocked(r.steps, i) && SkipsExplained(r.steps)
      && (row.status == StepCompleted ==> Settled(r))
  {
    var i := s.approvals[id].stepIdx;
    GraphMove(s.steps, i, row);
    LinkDecided(s.steps, s.approvals, id, row, ApprovalApproved);
  }

  lemma ParkInv(s: RunState, i: nat)
    requires Settled(s) && i < |s.steps| && Runnable(s.steps, i) && s.steps[i].requiresApproval
    ensures Settled(Park(s, i)) && Rollup(Park(s, i)) && Park(s, i).status == AwaitingApproval
  {
    hide MaxSeq, Linked;
    var row := s.steps[i].(status := StepAwaiting, approvalId := Some(|s.approvals|));
    PendingUnlinked(s.steps, s.approvals, i);
    RunnableDeps(s.steps, i);
    GraphMove(s.steps, i, row);
    LinkParked(s.steps, s.approvals, i, row);
    assert Park(s, i).steps[i].status == StepAwaiting;
  }

  lemma PendingUnlinked(steps: seq<RunStep>, approvals: seq<Approval>, i: nat)
    requires Linked(steps, approvals) && i < |steps| && steps[i].status == StepPending
    ensures steps[i].approvalId == None
  {
  }

  /** The cascade restores the clause the failure of step i broke. */
  lemma CascadeInv(s: RunState, i: nat)
    requires Core(s) && Unblocked(s.steps, i) && SkipsExplained(s.steps)
    requires i < |s.steps| && Bad(s.steps[i].status)
    ensures Settled(CascadeSkip(s, i))
  {
    hide MaxSeq, Linked, CascadeSkip;
    var hit := SkipSet(s.steps, i);
    CascadeShape(s, i);
    CascadeGraph(s, i);
    CascadeCore(s, hit);
    CascadeLinked(s.steps, s.approvals, hit);
  }

  lemma BehindReaches(steps: seq<RunStep>, b: nat, d: int, a: int)
    requires Dag(steps) && b < |steps| && d in steps[b].dependsOn
    requires d == a || (0 <= d < |steps| && Reaches(steps, d, a))
    ensures Reaches(steps, b, a)
  {
  }

  lemma CascadeGraph(s: RunState, i: nat)
    requires Core(s) && Unblocked(s.steps, i) && SkipsExplained(s.steps)
    requires i < |s.steps| && Bad(s.steps[i].status)
    ensures var steps := SkipAll(s.steps, SkipSet(s.steps, i));
      Dag(steps) && Unblocked(steps, -1) && SkipsExplained(steps)
  {
    hide Linked, Gated, Reaches;
    var hit := SkipSet(s.steps, i);
    var steps := SkipAll(s.steps, hit);
    forall b: nat, d |
      b < |steps| && s.steps[b].status == StepPending && d in s.steps[b].dependsOn && (d == i || d in hit)
      ensures b in hit
    {
      BehindReaches(s.steps, b, d, i);
    }
    forall b | 0 <= b < |steps| && steps[b].status == StepSkipped
      ensures exists d :: d in steps[b].dependsOn && Bad(steps[d].status)
    {
      if b in hit {
        var d := SkippedBehind(s, b, i);
        assert d in steps[b].dependsOn && Bad(steps[d].status);
      } else {
        var d :| d in s.steps[b].dependsOn && Bad(s.steps[d].status);
        assert d in steps[b].dependsOn && Bad(steps[d].status);
      }
    }
  }

  lemma CascadeLinked(steps: seq<RunStep>, approvals: seq<Approval>, hit: set<nat>)
    requires Linked(steps, approvals)
    requires forall k :: k in hit ==> k < |steps| && steps[k].status == StepPending
    ensures Linked(SkipAll(steps, hit), approvals)
  {
  }

  lemma CascadeCore(s: RunState, hit: set<nat>)
    requires Core(s) && forall k :: k in hit ==> k < |s.steps| && s.steps[k].status == StepPending
    ensures var steps := SkipAll(s.steps, hit);
      Dag(steps) && NoRunning(steps) && DepsDone(steps) && Gated(steps)
  {
    hide Linked;
    var steps := SkipAll(s.steps, hit);
    forall b, d | 0 <= b < |steps| && Reached(steps[b].status) && d in steps[b].dependsOn
      ensures steps[d].status == StepCompleted
    {
      assert s.steps[d].status == StepCompleted;
    }
  }

  /** A pending step behind i has, one edge away, i itself or another step that is pending or skipped. */
  lemma SkippedBehind(s: RunState, b: nat, i: nat) returns (d: int)
    requires Core(s) && i < |s.steps| && s.steps[i].status != StepCompleted
    requires b in SkipSet(s.steps, i) && Bad(s.steps[i].status)
    ensures d in s.steps[b].dependsOn && (d in SkipSet(s.steps, i) || Bad(s.steps[d].status))
  {
    if i in s.steps[b].dependsOn {
      d := i;
    } else {
      d :| d in s.steps[b].dependsOn && Reaches(s.steps, d, i);
      if Reached(s.steps[d].status) {
        ReachedDepsDone(s.steps, d, i);
      }
    }
  }

  // ---- The operations --------------------------------------------------------------------

  /** Driving settles the run and never leaves it running. */
  lemma {:induction false} DriveInv(cfg: Config, s: RunState, tools: ToolOracle)
    requires Settled(s)
    ensures var r := Drive(cfg, s, tools);
      Settled(r) && Rollup(r) && r.status in {Completed, Failed, AwaitingApproval}
    decreases PendingCount(s.steps)
  {
    hide MaxSeq, ToolLog, AfterTool, RunTool, ToolSucceeds, CascadeSkip, Finalize, Park, Core, Settled, Rollup,
      PendingCount;
    match NextRunnable(s.steps)
    case None =>
      NothingRunnable(s);
    case Some(i) =>
      SettledDag(s);
      if s.steps[i].requiresApproval {
        ParkInv(s, i);
      } else {
        RunToolInv(cfg, s, i, tools);
        RunToolPending(cfg, s, i, tools);
        RunToolShape(cfg, s, i, tools);
        AfterToolShape(cfg, s.steps[i], i, tools);
        var r := RunTool(cfg, s, i, tools);
        if ToolSucceeds(cfg, s.steps[i], i, tools) {
          DriveInv(cfg, r, tools);
        } else {
          WindDown(r, i);
        }
      }
  }

  lemma SettledDag(s: RunState)
    requires Settled(s)
    ensures Dag(s.steps)
  {
  }

  lemma NothingRunnable(s: RunState)
    requires Settled(s) && NextRunnable(s.steps) == None
    ensures var r := Finalize(s);
      Settled(r) && Rollup(r) && r.status in {Completed, Failed, AwaitingApproval}
  {
    hide MaxSeq;
    FinalizeInv(s);
    if Finalize(s).status == Running {
      var b :| 0 <= b < |s.steps| && !StepTerminal(s.steps[b].status);
      var i := PendingIsDrivable(s, b);
    }
  }

  /** After a failure or a rejection of step i: cascade, then roll up. */
  lemma WindDown(s: RunState, i: nat)
    requires Core(s) && Unblocked(s.steps, i) && SkipsExplained(s.steps)
    requires i < |s.steps| && Bad(s.steps[i].status)
    ensures var r := Finalize(CascadeSkip(s, i));
      && Settled(r) && Rollup(r) && r.status !in {Planning, Cancelled}
      && (s.steps[i].status == StepFailed ==> r.status == Failed)
  {
    hide MaxSeq, Finalize;
    CascadeInv(s, i);
    CascadeShape(s, i);
    var c := CascadeSkip(s, i);
    FinalizeInv(c);
    if s.steps[i].status == StepFailed {
      assert i !in SkipSet(s.steps, i);
      assert c.steps[i].status == StepFailed;
    }
  }

  lemma ApproveInv(cfg: Config, s: RunState, id: nat, tools: ToolOracle)
    requires Inv(s) && DecideError(s, id, "approve") == None
    ensures var r := Approve(cfg, s, id, tools);
      Settled(r) && Rollup(r) && r.status in {Completed, Failed, AwaitingApproval}
  {
    hide MaxSeq, ToolLog, AfterTool, RunTool, ToolSucceeds, CascadeSkip, Finalize, Drive;
    assert s.status != Cancelled;
    var i := s.approvals[id].stepIdx;
    var m := MarkApproved(s, id);
    var r := RunTool(cfg, m, i, tools);
    RunToolShape(cfg, m, i, tools);
    AfterToolShape(cfg, s.steps[i], i, tools);
    ApprovedStepEnds(s, id, r.steps[i]);
    if ToolSucceeds(cfg, s.steps[i], i, tools) {
      DriveInv(cfg, r, tools);
    } else {
      WindDown(r, i);
    }
  }

  lemma MarkRejectedInv(s: RunState, id: nat)
    requires Inv(s) && DecideError(s, id, "reject") == None
    ensures var r := MarkRejected(s, id);
      && Core(r) && Unblocked(r.steps, s.approvals[id].stepIdx) && SkipsExplained(r.steps)
      && |r.steps| == |s.steps| && r.steps[s.approvals[id].stepIdx].status == StepRejected
  {
    hide MaxSeq;
    assert s.status != Cancelled;
    var i := s.approvals[id].stepIdx;
    var row := s.steps[i].(status := StepRejected);
    GraphMove(s.steps, i, row);
    LinkDecided(s.steps, s.approvals, id, row, ApprovalRejected);
    assert MarkRejected(s, id).steps == s.steps[i := row];
  }

  lemma RejectInv(s: RunState, id: nat)
    requires Inv(s) && DecideError(s, id, "reject") == None
    ensures Settled(Reject(s, id)) && Rollup(Reject(s, id)) && Reject(s, id).status !in {Planning, Cancelled}
  {
    hide MaxSeq, CascadeSkip, Finalize, MarkRejected;
    MarkRejectedInv(s, id);
    WindDown(MarkRejected(s, id), s.approvals[id].stepIdx);
  }

  lemma CancelInv(s: RunState)
    requires Inv(s)
    ensures Inv(Cancel(s))
    ensures !RunTerminal(s.status) ==> Cancel(s).status == Cancelled
  {
    hide MaxSeq;
    if RunTerminal(s.status) {
      return;
    }
    var r := Cancel(s);
    CancelLinked(s.steps, s.approvals);
    assert DepsDone(r.steps) by {
      hide Linked, Gated;
      forall b, d | 0 <= b < |r.steps| && Reached(r.steps[b].status) && d in r.steps[b].dependsOn
        ensures r.steps[d].status == StepCompleted
      {
        assert s.steps[d].status == StepCompleted;
      }
    }
  }

  lemma CancelLinked(steps: seq<RunStep>, approvals: seq<Approval>)
    requires Linked(steps, approvals)
    ensures var s := Cancel(RunState(Running, steps, approvals, []));
      Linked(s.steps, s.approvals)
  {
    hide MaxSeq;
    var s := Cancel(RunState(Running, steps, approvals, []));
    forall a | 0 <= a < |approvals|
      ensures s.approvals[a] ==
        if approvals[a].status == ApprovalPending then approvals[a].(status := ApprovalRejected) else approvals[a]
    {
      var i := approvals[a].stepIdx;
      if approvals[a].status == ApprovalPending {
        assert steps[i].status == StepAwaiting && steps[i].approvalId == Some(a);
        assert CancelRejects(steps, a);
      }
    }
  }

  lemma ApplyInv(cfg: Config, s: RunState, op: Op)
    requires Inv(s)
    ensures Inv(Apply(cfg, s, op))
  {
    hide MaxSeq, CascadeSkip, Finalize, MarkRejected, MarkApproved, RunTool, Drive, Core, Cancel, Reject, Approve;
    match op
    case OpExecute(tools) =>
      if !RunTerminal(s.status) {
        SettledStatus(s, Running);
        DriveInv(cfg, s.(status := Running), tools);
      }
    case OpDecide(id, decision, tools) =>
      if DecideError(s, id, decision).None? {
        if decision == "reject" {
          RejectInv(s, id);
        } else {
          ApproveInv(cfg, s, id, tools);
        }
      }
    case OpRedraft(id, _, _, _) => EmitInv(s, GateRedrafted(id));
    case OpCancel => CancelInv(s);
  }

  lemma SettledStatus(s: RunState, status: RunStatus)
    requires Settled(s)
    ensures Settled(s.(status := status))
  {
  }

  lemma EmitInv(s: RunState, kind: EventKind)
    requires Inv(s)
    ensures Inv(Emit(s, kind))
  {
    hide MaxSeq;
  }

  lemma CreateInv(tools: Planner.Registry, plan: seq<Planner.PlanStep>)
    requires Planner.Accepted(tools, plan)
    ensures Inv(Create(plan))
  {
    hide MaxSeq;
    var s := Create(plan);
    assert forall k :: 0 <= k < |plan| ==> s.steps[k] == FromPlan(plan[k]);
    assert forall k :: 0 <= k < |plan| ==> Planner.StepAccepted(tools, plan[k], k);
  }

  /** The joint invariant holds in every run of every plan the validator accepts. */
  lemma {:induction false} InvHoldsInEveryRun(cfg: Config, plan: seq<Planner.PlanStep>, ops: seq<Op>)
    requires Planner.Accepted(cfg.tools, plan)
    ensures Dag(Create(plan).steps) && Inv(ApplyAll(cfg, Create(plan), ops))
    decreases |ops|
  {
    hide Inv, Apply, Create;
    CreateInv(cfg.tools, plan);
    InvDag(Create(plan));
    if ops != [] {
      InvHoldsInEveryRun(cfg, plan, ops[..|ops| - 1]);
      ApplyInv(cfg, ApplyAll(cfg, Create(plan), ops[..|ops| - 1]), ops[|ops| - 1]);
    }
  }

  lemma InvDag(s: RunState)
    requires Inv(s)
    ensures Dag(s.steps)
  {
  }
}
