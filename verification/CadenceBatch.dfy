/**
 A claimed batch of enrollments over the tenant's shared tables: outcomes and call tasks
 (nexus/cadences/service.py:146-252, 359-397, 426-441; nexus/calling/service.py:42-69).
 */
module CadenceBatch {
  import opened Wrappers
  import opened Sequences
  import opened CadenceModel

  datatype Stage = SentStage | RepliedStage | MeetingStage | WonStage | LostStage

  datatype Outcome = Outcome(contactId: Option<string>, stage: Stage, createdAt: int)

  /** A call task; the account and contact of a cadence call are those of its enrollment. */
  datatype CallTask = CallTask(enrollment: Option<nat>, step: nat, open: bool)

  predicate PositiveStage(s: Stage) {
    s in {RepliedStage, MeetingStage, WonStage}
  }

  predicate IsReply(o: Outcome, contactId: Option<string>, startedAt: int) {
    contactId.Some? && o.contactId == contactId && PositiveStage(o.stage) && o.createdAt >= startedAt
  }

  /** `_has_reply`. */
  predicate HasReply(outcomes: seq<Outcome>, contactId: Option<string>, startedAt: int) {
    exists k :: 0 <= k < |outcomes| && IsReply(outcomes[k], contactId, startedAt)
  }

  predicate HasOpenCall(tasks: seq<CallTask>, enrollment: nat, step: nat) {
    exists k :: 0 <= k < |tasks| && tasks[k].open && tasks[k].enrollment == Some(enrollment) && tasks[k].step == step
  }

  /** One enrollment and the rows it is processed under. */
  datatype Member = Member(cfg: Config, contactId: Option<string>, state: EnrollState)

  datatype World = World(members: map<nat, Member>, outcomes: seq<Outcome>, tasks: seq<CallTask>)

  /** What the tick sees, with the reply test answered by the outcome table. */
  function Seen(w: World, id: nat, input: TickInput): TickInput
    requires id in w.members
  {
    input.(replied := HasReply(w.outcomes, w.members[id].contactId, w.members[id].state.startedAt))
  }

  /** The outcome row of a tick that sent an email and got as far as recording it. */
  function NewOutcomes(m: Member, now: int, input: TickInput): seq<Outcome> {
    var (r, action) := RunTouch(m.cfg, m.state, now, input);
    if action == Advance && JustSent(m.state.messages, r.messages) then [Outcome(m.contactId, SentStage, now)] else []
  }

  /** The call task of a tick that ran a call step, unless that step has an open one. */
  function NewTasks(m: Member, id: nat, tasks: seq<CallTask>, now: int, input: TickInput): seq<CallTask> {
    var (r, _) := RunTouch(m.cfg, m.state, now, input);
    if r.calls != m.state.calls && !HasOpenCall(tasks, id, m.state.index)
      then [CallTask(Some(id), m.state.index, true)] else []
  }

  function ProcessMember(w: World, id: nat, now: int, inputs: nat -> TickInput): World
    requires id in w.members
  {
    var m := w.members[id];
    var input := Seen(w, id, inputs(id));
    World(
      w.members[id := m.(state := Process(m.cfg, m.state, now, input))],
      w.outcomes + NewOutcomes(m, now, input),
      w.tasks + NewTasks(m, id, w.tasks, now, input))
  }

  /** `advance_due_for_tenant` on the ids it claimed, in order. */
  function Batch(w: World, ids: seq<nat>, now: int, inputs: nat -> TickInput): (r: World)
    requires forall k :: 0 <= k < |ids| ==> ids[k] in w.members
    ensures r.members.Keys == w.members.Keys
  {
    if ids == [] then w
    else ProcessMember(Batch(w, ids[..|ids| - 1], now, inputs), ids[|ids| - 1], now, inputs)
  }

  predicate Distinct(ids: seq<nat>) {
    forall a, b :: 0 <= a < b < |ids| ==> ids[a] != ids[b]
  }

  // ---- Independence ----------------------------------------------------------------------

  /** Rows an enrollment never looks at: "sent" outcomes, and call tasks of other enrollments. */
  predicate Grown(w: World, r: World, ids: seq<nat>) {
    && w.outcomes <= r.outcomes && w.tasks <= r.tasks
    && (forall k :: |w.outcomes| <= k < |r.outcomes| ==> r.outcomes[k].stage == SentStage)
    && (forall k :: |w.tasks| <= k < |r.tasks| ==> r.tasks[k].enrollment.Some? && r.tasks[k].enrollment.value in ids)
  }

  /** The outcomes a cadence writes satisfy no enrollment's reply test. */
  lemma SentIsNoReply(before: seq<Outcome>, after: seq<Outcome>, contactId: Option<string>, startedAt: int)
    requires before <= after
    requires forall k :: |before| <= k < |after| ==> after[k].stage == SentStage
    ensures HasReply(after, contactId, startedAt) <==> HasReply(before, contactId, startedAt)
  {
    if k :| 0 <= k < |before| && IsReply(before[k], contactId, startedAt) {
      assert after[k] == before[k];
    }
    if k :| 0 <= k < |after| && IsReply(after[k], contactId, startedAt) {
      assert k < |before|;
      assert before[k] == after[k];
    }
  }

  lemma OtherCalls(before: seq<CallTask>, after: seq<CallTask>, id: nat, step: nat)
    requires before <= after
    requires forall k :: |before| <= k < |after| ==> after[k].enrollment != Some(id)
    ensures HasOpenCall(after, id, step) <==> HasOpenCall(before, id, step)
  {
    if k :| 0 <= k < |before| && before[k].open && before[k].enrollment == Some(id) && before[k].step == step {
      assert after[k] == before[k];
    }
    if k :| 0 <= k < |after| && after[k].open && after[k].enrollment == Some(id) && after[k].step == step {
      assert k < |before|;
      assert before[k] == after[k];
    }
  }

  /** What one enrollment's tick leaves, computed as if it were processed alone. */
  function OutcomesOf(w: World, now: int, inputs: nat -> TickInput): nat -> seq<Outcome> {
    (id: nat) => if id in w.members then NewOutcomes(w.members[id], now, Seen(w, id, inputs(id))) else []
  }

  function TasksOf(w: World, now: int, inputs: nat -> TickInput): nat -> seq<CallTask> {
    (id: nat) => if id in w.members then NewTasks(w.members[id], id, w.tasks, now, Seen(w, id, inputs(id))) else []
  }

  function StateOf(w: World, now: int, inputs: nat -> TickInput, id: nat): EnrollState
    requires id in w.members
  {
    Process(w.members[id].cfg, w.members[id].state, now, Seen(w, id, inputs(id)))
  }

  function Flat<T>(ids: seq<nat>, f: nat -> seq<T>): seq<T> {
    if ids == [] then [] else Flat(ids[..|ids| - 1], f) + f(ids[|ids| - 1])
  }

  /** What a processed prefix of the batch has done, and has left alone. */
  ghost predicate Done(w: World, r: World, ids: seq<nat>, now: int, inputs: nat -> TickInput) {
    && r.members.Keys == w.members.Keys
    && (forall id :: id in w.members ==>
          r.members[id] == if id in ids then w.members[id].(state := StateOf(w, now, inputs, id)) else w.members[id])
    && r.outcomes == w.outcomes + Flat(ids, OutcomesOf(w, now, inputs))
    && r.tasks == w.tasks + Flat(ids, TasksOf(w, now, inputs))
    && Grown(w, r, ids)
  }

  /** The next enrollment sees, in the rows that matter to it, what it would have seen first. */
  lemma NextSeesTheSame(w: World, mid: World, ids: seq<nat>, id: nat, now: int, inputs: nat -> TickInput)
    requires Grown(w, mid, ids) && id !in ids && id in w.members
    requires id in mid.members && mid.members[id] == w.members[id]
    ensures Seen(mid, id, inputs(id)) == Seen(w, id, inputs(id))
    ensures NewTasks(w.members[id], id, mid.tasks, now, Seen(w, id, inputs(id))) == TasksOf(w, now, inputs)(id)
  {
    hide RunTouch;
    SentIsNoReply(w.outcomes, mid.outcomes, w.members[id].contactId, w.members[id].state.startedAt);
    OtherCalls(w.tasks, mid.tasks, id, w.members[id].state.index);
  }

  lemma RowsAt(w: World, id: nat, now: int, inputs: nat -> TickInput)
    requires id in w.members
    ensures OutcomesOf(w, now, inputs)(id) == NewOutcomes(w.members[id], now, Seen(w, id, inputs(id)))
    ensures TasksOf(w, now, inputs)(id) == NewTasks(w.members[id], id, w.tasks, now, Seen(w, id, inputs(id)))
  {
  }

  lemma FlatNext<T>(ids: seq<nat>, id: nat, f: nat -> seq<T>)
    ensures Flat(ids + [id], f) == Flat(ids, f) + f(id)
  {
    assert (ids + [id])[..|ids|] == ids;
  }

  lemma ProcessStep(w: World, mid: World, ids: seq<nat>, id: nat, now: int, inputs: nat -> TickInput)
    requires Done(w, mid, ids, now, inputs) && id !in ids && id in w.members
    ensures Done(w, ProcessMember(mid, id, now, inputs), ids + [id], now, inputs)
  {
    hide RunTouch, Process, HasReply, HasOpenCall, Seen, Flat, OutcomesOf, TasksOf;
    NextSeesTheSame(w, mid, ids, id, now, inputs);
    var r := ProcessMember(mid, id, now, inputs);
    var f, g := OutcomesOf(w, now, inputs), TasksOf(w, now, inputs);
    RowsAt(w, id, now, inputs);
    assert r.outcomes == mid.outcomes + f(id);
    assert r.tasks == mid.tasks + g(id);
    FlatNext(ids, id, f);
    FlatNext(ids, id, g);
  }

  lemma {:induction false} BatchDone(w: World, ids: seq<nat>, now: int, inputs: nat -> TickInput)
    requires Distinct(ids) && forall k :: 0 <= k < |ids| ==> ids[k] in w.members
    ensures Done(w, Batch(w, ids, now, inputs), ids, now, inputs)
    decreases |ids|
  {
    hide ProcessMember, StateOf, OutcomesOf, TasksOf;
    if ids != [] {
      var front := ids[..|ids| - 1];
      BatchDone(w, front, now, inputs);
      ProcessStep(w, Batch(w, front, now, inputs), front, ids[|ids| - 1], now, inputs);
      assert ids == front + [ids[|ids| - 1]];
    }
  }

  /**
   A batch is pointwise: every claimed enrollment ends as if it had been processed alone, steps that
   raise included, the others are untouched, and the shared tables gain exactly each one's own rows.
   */
  lemma BatchIsPointwise(w: World, ids: seq<nat>, now: int, inputs: nat -> TickInput)
    requires Distinct(ids) && forall k :: 0 <= k < |ids| ==> ids[k] in w.members
    ensures var r := Batch(w, ids, now, inputs);
      && (forall id :: id in w.members && id in ids ==> r.members[id] == ProcessMember(w, id, now, inputs).members[id])
      && (forall id :: id in w.members && id !in ids ==> r.members[id] == w.members[id])
      && r.outcomes == w.outcomes + Flat(ids, OutcomesOf(w, now, inputs))
      && r.tasks == w.tasks + Flat(ids, TasksOf(w, now, inputs))
  {
    hide Batch, NewOutcomes, NewTasks, Seen, OutcomesOf, TasksOf, Process;
    BatchDone(w, ids, now, inputs);
  }

  // ---- Order -----------------------------------------------------------------------------

  lemma FlatBag<T>(ids: seq<nat>, f: nat -> seq<T>)
    requires ids != []
    ensures multiset(Flat(ids, f)) == multiset(Flat(ids[..|ids| - 1], f)) + multiset(f(ids[|ids| - 1]))
  {
  }

  lemma {:induction false} FlatRemove<T>(ids: seq<nat>, at: nat, f: nat -> seq<T>)
    requires at < |ids|
    ensures multiset(Flat(ids, f)) == multiset(Flat(Removed(ids, at), f)) + multiset(f(ids[at]))
    decreases |ids|
  {
    hide Flat;
    var n := |ids| - 1;
    FlatBag(ids, f);
    if at == n {
      assert Removed(ids, at) == ids[..n];
    } else {
      FlatRemove(ids[..n], at, f);
      RemovedBeforeLast(ids, at);
      FlatBag(Removed(ids, at), f);
    }
  }

  lemma {:induction false} FlatAnyOrder<T>(xs: seq<nat>, ys: seq<nat>, f: nat -> seq<T>)
    requires multiset(xs) == multiset(ys)
    ensures multiset(Flat(xs, f)) == multiset(Flat(ys, f))
    decreases |xs|
  {
    if xs == [] {
      assert |multiset(ys)| == 0;
    } else {
      hide Flat, Removed;
      var at := MatchLast(xs, ys);
      FlatAnyOrder(xs[..|xs| - 1], Removed(ys, at), f);
      FlatRemove(ys, at, f);
      FlatBag(xs, f);
    }
  }

  /** So the order in which a batch is claimed does not matter: same enrollments, same rows. */
  lemma BatchAnyOrder(w: World, xs: seq<nat>, ys: seq<nat>, now: int, inputs: nat -> TickInput)
    requires Distinct(xs) && Distinct(ys) && multiset(xs) == multiset(ys)
    requires forall k :: 0 <= k < |xs| ==> xs[k] in w.members
    ensures forall k :: 0 <= k < |ys| ==> ys[k] in w.members
    ensures var a, b := Batch(w, xs, now, inputs), Batch(w, ys, now, inputs);
      && a.members == b.members
      && multiset(a.outcomes) == multiset(b.outcomes)
      && multiset(a.tasks) == multiset(b.tasks)
  {
    hide ProcessMember, StateOf, OutcomesOf, TasksOf, Flat, Batch;
    SameElements(xs, ys);
    BatchDone(w, xs, now, inputs);
    BatchDone(w, ys, now, inputs);
    FlatAnyOrder(xs, ys, OutcomesOf(w, now, inputs));
    FlatAnyOrder(xs, ys, TasksOf(w, now, inputs));
  }

  lemma SameElements(xs: seq<nat>, ys: seq<nat>)
    requires multiset(xs) == multiset(ys)
    ensures forall x :: x in ys <==> x in xs
    ensures forall k :: 0 <= k < |ys| ==> ys[k] in xs
  {
    assert forall x :: x in ys <==> x in multiset(ys);
    assert forall x :: x in xs <==> x in multiset(xs);
  }

  // ---- Calls -----------------------------------------------------------------------------

  /** How many open calls the queue holds for a step of an enrollment. */
  function OpenCalls(tasks: seq<CallTask>, id: nat, step: nat): nat {
    if tasks == [] then 0
    else
      var last := tasks[|tasks| - 1];
      OpenCalls(tasks[..|tasks| - 1], id, step) + if last.open && last.enrollment == Some(id) && last.step == step
        then 1 else 0
  }

  lemma {:induction false} NoOpenCalls(tasks: seq<CallTask>, id: nat, step: nat)
    ensures OpenCalls(tasks, id, step) == 0 <==> !HasOpenCall(tasks, id, step)
    decreases |tasks|
  {
    if tasks != [] {
      var front := tasks[..|tasks| - 1];
      NoOpenCalls(front, id, step);
      if k :| 0 <= k < |front| && front[k].open && front[k].enrollment == Some(id) && front[k].step == step {
        assert tasks[k] == front[k];
      }
      if k :| 0 <= k < |tasks| && tasks[k].open && tasks[k].enrollment == Some(id) && tasks[k].step == step {
        assert k < |front| ==> front[k] == tasks[k];
      }
    }
  }

  /** Processing never queues a second open call for the same step of the same enrollment. */
  lemma OneOpenCallAStep(w: World, id: nat, now: int, inputs: nat -> TickInput)
    requires id in w.members
    requires forall e, k: nat :: OpenCalls(w.tasks, e, k) <= 1
    ensures forall e, k: nat :: OpenCalls(ProcessMember(w, id, now, inputs).tasks, e, k) <= 1
  {
    hide RunTouch, Process, HasReply;
    var r := ProcessMember(w, id, now, inputs);
    if r.tasks != w.tasks {
      var t := r.tasks[|w.tasks|];
      assert r.tasks == w.tasks + [t];
      assert r.tasks[..|w.tasks|] == w.tasks;
      NoOpenCalls(w.tasks, id, t.step);
    }
  }

  /** What happens to the shared tables over time; any other operation may leave any enrollment in its place. */
  datatype TableOp =
    | RunBatch(ids: seq<nat>, now: int, inputs: nat -> TickInput)
    | CloseCall(task: nat)
    | PutMember(id: nat, member: Member)

  function Do(w: World, op: TableOp): World {
    match op
    case RunBatch(ids, now, inputs) =>
      if forall k :: 0 <= k < |ids| ==> ids[k] in w.members then Batch(w, ids, now, inputs) else w
    case CloseCall(k) => if k < |w.tasks| then w.(tasks := w.tasks[k := w.tasks[k].(open := false)]) else w
    case PutMember(id, m) => w.(members := w.members[id := m])
  }

  function DoAll(w: World, ops: seq<TableOp>): World {
    if ops == [] then w else Do(DoAll(w, ops[..|ops| - 1]), ops[|ops| - 1])
  }

  ghost predicate OneCallEach(tasks: seq<CallTask>) {
    forall e, k: nat :: OpenCalls(tasks, e, k) <= 1
  }

  lemma {:induction false} CloseCalls(tasks: seq<CallTask>, at: nat, e: nat, k: nat)
    requires at < |tasks|
    ensures OpenCalls(tasks[at := tasks[at].(open := false)], e, k) <= OpenCalls(tasks, e, k)
  {
    var n := |tasks| - 1;
    var closed := tasks[at := tasks[at].(open := false)];
    if at < n {
      assert closed[..n] == tasks[..n][at := tasks[at].(open := false)];
      CloseCalls(tasks[..n], at, e, k);
    } else {
      assert closed[..n] == tasks[..n];
    }
  }

  lemma CloseKeepsOneCall(tasks: seq<CallTask>, at: nat)
    requires at < |tasks| && OneCallEach(tasks)
    ensures OneCallEach(tasks[at := tasks[at].(open := false)])
  {
    var closed := tasks[at := tasks[at].(open := false)];
    forall e: nat, k: nat
      ensures OpenCalls(closed, e, k) <= 1
    {
      CloseCalls(tasks, at, e, k);
    }
  }

  lemma {:induction false} BatchKeepsOneCall(w: World, ids: seq<nat>, now: int, inputs: nat -> TickInput)
    requires (forall k :: 0 <= k < |ids| ==> ids[k] in w.members) && OneCallEach(w.tasks)
    ensures OneCallEach(Batch(w, ids, now, inputs).tasks)
    decreases |ids|
  {
    hide ProcessMember;
    if ids != [] {
      BatchKeepsOneCall(w, ids[..|ids| - 1], now, inputs);
      OneOpenCallAStep(Batch(w, ids[..|ids| - 1], now, inputs), ids[|ids| - 1], now, inputs);
    }
  }

  /** So in every history that starts with an empty queue there is at most one open call a step. */
  lemma OneOpenCallEveryRun(w: World, ops: seq<TableOp>, id: nat, step: nat)
    requires w.tasks == []
    ensures OpenCalls(DoAll(w, ops).tasks, id, step) <= 1
  {
    CallsEveryRun(w, ops);
  }

  lemma {:induction false} CallsEveryRun(w: World, ops: seq<TableOp>)
    requires w.tasks == []
    ensures OneCallEach(DoAll(w, ops).tasks)
    decreases |ops|
  {
    hide Batch;
    if ops != [] {
      var mid := DoAll(w, ops[..|ops| - 1]);
      CallsEveryRun(w, ops[..|ops| - 1]);
      match ops[|ops| - 1]
      case RunBatch(ids, now, inputs) =>
        if forall k :: 0 <= k < |ids| ==> ids[k] in mid.members {
          BatchKeepsOneCall(mid, ids, now, inputs);
        }
      case CloseCall(at) =>
        if at < |mid.tasks| {
          CloseKeepsOneCall(mid.tasks, at);
        }
      case PutMember(_, _) =>
    }
  }
}
