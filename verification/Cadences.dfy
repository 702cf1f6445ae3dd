/**
 The cadence service (nexus/cadences/service.py): methods over mutable enrollments and the tenant's
 tables, each proved equal to its specification in `CadenceModel` and `CadenceBatch`. An exception
 inside a step is an action the caller gets back.
 */
module Cadences {
  import opened Wrappers
  import opened Outbound
  import opened CadenceModel
  import opened CadenceBatch
  import opened CadenceRuns

  class Enrollment {
    const id: nat
    const cfg: Config
    const contactId: Option<string>
    var status: EnrollStatus
    var index: nat
    var nextTouchAt: int
    var startedAt: int
    var stopReason: Option<StopReason>
    var completedAt: Option<int>
    var touches: seq<Touch>
    var messages: seq<Message>
    var calls: seq<nat>

    ghost function State(): EnrollState
      reads this
    {
      EnrollState(status, index, nextTouchAt, startedAt, stopReason, completedAt, touches, messages, calls)
    }

    ghost function AsMember(): CadenceBatch.Member
      reads this
    {
      CadenceBatch.Member(cfg, contactId, State())
    }

    /** `enroll`. */
    constructor (id: nat, cfg: Config, contactId: Option<string>, now: int)
      requires cfg.steps != []
      ensures this.id == id && this.cfg == cfg && this.contactId == contactId
      ensures State() == Enroll(cfg, now)
    {
      this.id := id;
      this.cfg := cfg;
      this.contactId := contactId;
      status := Active;
      index := 0;
      nextTouchAt := now + cfg.steps[0].delayDays * DAY;
      startedAt := now;
      stopReason := None;
      completedAt := None;
      touches := [];
      messages := [];
      calls := [];
    }
  }

  class Tables {
    var outcomes: seq<Outcome>
    var tasks: seq<CallTask>
  }

  /** The tick's view of an enrollment once the reply query has run. */
  ghost function SeenBy(e: Enrollment, tables: Tables, input: TickInput): TickInput
    reads e, tables
  {
    input.(replied := HasReply(tables.outcomes, e.contactId, e.startedAt))
  }

  ghost predicate DistinctRows(due: seq<Enrollment>) {
    forall a, b :: 0 <= a < b < |due| ==> due[a] != due[b] && due[a].id != due[b].id
  }

  function Ids(due: seq<Enrollment>): (ids: seq<nat>)
    ensures |ids| == |due|
  {
    seq(|due|, k requires 0 <= k < |due| => due[k].id)
  }

  /** The rows of a batch, and the tables, as one value. */
  ghost function WorldOf(due: seq<Enrollment>, tables: Tables): World
    requires DistinctRows(due)
    reads due, tables
  {
    World(map k | 0 <= k < |due| :: due[k].id := due[k].AsMember(), tables.outcomes, tables.tasks)
  }

  lemma DistinctIds(due: seq<Enrollment>)
    requires DistinctRows(due)
    ensures Distinct(Ids(due))
  {
  }

  class CadenceService {

    method SaveTouch(e: Enrollment, t: Touch)
      modifies e`touches
      ensures e.touches == PutTouch(old(e.touches), t)
    {
      var at := FindTouch(e.touches, t.stepIndex);
      if at.Some? {
        e.touches := e.touches[at.value := t];
      } else {
        e.touches := e.touches + [t];
      }
    }

    method QueryReply(e: Enrollment, tables: Tables) returns (replied: bool)
      ensures replied == HasReply(tables.outcomes, e.contactId, e.startedAt)
    {
      if e.contactId.None? {
        return false;
      }
      for k := 0 to |tables.outcomes|
        invariant forall j :: 0 <= j < k ==> !IsReply(tables.outcomes[j], e.contactId, e.startedAt)
      {
        var o := tables.outcomes[k];
        if o.contactId == e.contactId && PositiveStage(o.stage) && o.createdAt >= e.startedAt {
          return true;
        }
      }
      return false;
    }

    /** `enqueue`: reuse an open task of the same step, else add one. */
    method Enqueue(tables: Tables, enrollment: nat, step: nat)
      modifies tables`tasks
      ensures tables.tasks == old(tables.tasks) +
        if HasOpenCall(old(tables.tasks), enrollment, step) then [] else [CallTask(Some(enrollment), step, true)]
    {
      for k := 0 to |tables.tasks|
        invariant tables.tasks == old(tables.tasks)
        invariant forall j :: 0 <= j < k ==>
          !(tables.tasks[j].open && tables.tasks[j].enrollment == Some(enrollment) && tables.tasks[j].step == step)
      {
        var t := tables.tasks[k];
        if t.open && t.enrollment == Some(enrollment) && t.step == step {
          return;
        }
      }
      tables.tasks := tables.tasks + [CallTask(Some(enrollment), step, true)];
    }

    /** `_send`: replay the draft through the send tool, then record the outcome. */
    method SendStep(e: Enrollment, tables: Tables, touch: Touch, draft: Draft, env: SendEnv, recordRaises: bool,
        now: int)
      returns (action: Action)
      modifies e`touches, e`messages, tables`outcomes
      ensures (e.State(), action) == SendTouch(old(e.State()), touch, draft, env, recordRaises, now)
      ensures tables.outcomes == old(tables.outcomes) +
        if action == Advance && JustSent(old(e.messages), e.messages)
          then [Outcome(e.contactId, SentStage, now)] else []
    {
      var result, pushed := Send(Some(draft), env);
      if pushed || result.SavedToDrafts? {
        e.messages := e.messages + [Message(touch.stepIndex, draft, env)];
      }
      assert e.messages == old(e.messages) + MessageFor(touch, draft, env);
      match result {
        case Refused(error) =>
          if SaysUndeliverable(error) {
            SaveTouch(e, touch.(status := TouchSkipped, skipReason := Some(SkipUndeliverable)));
            return Stop(Undeliverable);
          }
          var reason := if SaysUngrounded(error) then SkipUngrounded else SkipNoContact;
          SaveTouch(e, touch.(status := TouchSkipped, skipReason := Some(reason)));
          return Advance;
        case Crashed =>
          SaveTouch(e, touch);
          return Raise;
        case _ =>
          SaveTouch(e, touch.(status := TouchSent, sentAt := Some(now)));
          if recordRaises {
            return Raise;
          }
          tables.outcomes := tables.outcomes + [Outcome(e.contactId, SentStage, now)];
          return Advance;
      }
    }

    method RunEmailStep(e: Enrollment, tables: Tables, now: int, input: TickInput) returns (action: Action)
      modifies e`touches, e`messages, tables`outcomes
      ensures (e.State(), action) == EmailStep(e.cfg, old(e.State()), now, input)
      ensures tables.outcomes == old(tables.outcomes) +
        if action == Advance && JustSent(old(e.messages), e.messages)
          then [Outcome(e.contactId, SentStage, now)] else []
    {
      hide PutTouch, SendPolicy, SendTouch;
      if input.compose.ComposeRaised? {
        return Raise;
      }
      var draft := DraftOf(input.compose.staged);
      var existing := FindTouch(e.touches, e.index);
      var touch := if existing.Some? then e.touches[existing.value]
        else Touch(e.index, TouchSent, true, NO_DRAFT, None, None);
      if !draft.grounded {
        SaveTouch(e, touch.(status := TouchSkipped, skipReason := Some(SkipUngrounded)));
        return Advance;
      }
      var hold := SendPolicy(draft, e.cfg.sendRisky, e.cfg.bar);
      if hold.Some? {
        SaveTouch(e, touch.(status := TouchSkipped, skipReason := hold));
        if hold == Some(SkipUndeliverable) {
          return Stop(Undeliverable);
        }
        return Advance;
      }
      if e.cfg.review {
        SaveTouch(e, touch.(status := TouchAwaiting, draft := draft));
        return Park;
      }
      action := SendStep(e, tables, touch, draft, input.env, input.recordRaises, now);
    }

    method RunCurrentTouch(e: Enrollment, tables: Tables, now: int, input: TickInput) returns (action: Action)
      modifies e`touches, e`messages, e`calls, tables
      ensures (e.State(), action) == RunTouch(e.cfg, old(e.State()), now, old(SeenBy(e, tables, input)))
      ensures tables.outcomes == old(tables.outcomes) +
        if action == Advance && JustSent(old(e.messages), e.messages)
          then [Outcome(e.contactId, SentStage, now)] else []
      ensures tables.tasks == old(tables.tasks) +
        if e.calls != old(e.calls) && !HasOpenCall(old(tables.tasks), e.id, old(e.index))
          then [CallTask(Some(e.id), old(e.index), true)] else []
    {
      hide PutTouch, HasReply, HasOpenCall, EmailStep;
      if !input.campaignExists {
        return Complete;
      }
      if e.index >= |e.cfg.steps| {
        return Complete;
      }
      var replied := QueryReply(e, tables);
      if replied {
        return Stop(Replied);
      }
      if now - e.startedAt > e.cfg.maxDays * DAY {
        return Stop(MaxTouches);
      }
      var existing := FindTouch(e.touches, e.index);
      if existing.Some? && e.touches[existing.value].status == TouchSent {
        return Advance;
      }
      if e.cfg.steps[e.index].channel == Call {
        if input.enqueueRaises {
          return Raise;
        }
        Enqueue(tables, e.id, e.index);
        var call := if existing.Some? then e.touches[existing.value]
          else Touch(e.index, TouchSent, false, NO_DRAFT, None, None);
        SaveTouch(e, call.(status := TouchSent));
        e.calls := e.calls + [e.index];
        return Advance;
      }
      ReplyUnread(e.cfg, e.State(), now, input, false);
      action := RunEmailStep(e, tables, now, input);
    }

    method AdvanceEnrollment(e: Enrollment, now: int)
      modifies e`status, e`index, e`nextTouchAt, e`completedAt
      ensures e.State() == AdvanceIt(e.cfg, old(e.State()), now)
    {
      var nextIndex := e.index + 1;
      if nextIndex >= |e.cfg.steps| {
        e.status := Completed;
        e.completedAt := Some(now);
        return;
      }
      e.index := nextIndex;
      e.nextTouchAt := now + e.cfg.steps[nextIndex].delayDays * DAY;
      e.status := Active;
    }

    method StopEnrollment(e: Enrollment, reason: StopReason, now: int)
      modifies e`status, e`stopReason, e`completedAt
      ensures e.State() == StopIt(old(e.State()), reason, now)
    {
      e.status := Stopped;
      e.stopReason := Some(reason);
      e.completedAt := Some(now);
    }

    /** `_process_enrollment`: run one step; a step that raised is recorded as failed and passed. */
    method ProcessEnrollment(e: Enrollment, tables: Tables, now: int, input: TickInput)
      modifies e, tables
      ensures e.State() == Process(e.cfg, old(e.State()), now, old(SeenBy(e, tables, input)))
      ensures tables.outcomes ==
        old(tables.outcomes) + NewOutcomes(old(e.AsMember()), now, old(SeenBy(e, tables, input)))
      ensures tables.tasks ==
        old(tables.tasks) + NewTasks(old(e.AsMember()), e.id, old(tables.tasks), now, old(SeenBy(e, tables, input)))
    {
      hide RunTouch, HasReply, HasOpenCall, FindTouch, PutTouch;
      var action := RunCurrentTouch(e, tables, now, input);
      match action {
        case Raise =>
          var at := FindTouch(e.touches, e.index);
          var touch := if at.Some? then e.touches[at.value] else Touch(e.index, TouchSent, false, NO_DRAFT, None, None);
          SaveTouch(e, touch.(status := TouchFailed));
          AdvanceEnrollment(e, now);
        case Advance => AdvanceEnrollment(e, now);
        case Complete =>
          e.status := Completed;
          e.completedAt := Some(now);
        case Stop(reason) => StopEnrollment(e, reason, now);
        case Park => e.status := Paused;
      }
    }

    /** One row of a batch: its own columns change, and the tables gain its rows. */
    method ProcessDue(due: seq<Enrollment>, k: nat, tables: Tables, now: int, inputs: nat -> TickInput)
      requires DistinctRows(due) && k < |due|
      modifies due[k], tables
      ensures WorldOf(due, tables) == ProcessMember(old(WorldOf(due, tables)), due[k].id, now, inputs)
    {
      hide Process, HasReply, NewOutcomes, NewTasks;
      ghost var w := WorldOf(due, tables);
      ghost var e := due[k];
      assert w.members[e.id] == e.AsMember();
      ProcessEnrollment(due[k], tables, now, inputs(due[k].id));
      ghost var r := WorldOf(due, tables);
      assert r.members.Keys == w.members.Keys;
      forall j | 0 <= j < |due|
        ensures r.members[due[j].id] == if j == k then e.AsMember() else w.members[due[j].id]
      {
        assert due[j].AsMember() == if j == k then e.AsMember() else old(due[j].AsMember());
        assert w.members[due[j].id] == old(due[j].AsMember());
      }
      assert r.members == w.members[e.id := e.AsMember()];
    }

    /**
     `advance_due_for_tenant` on the rows the claim query returned, one after the other: rows and tables
     are those of the batch. So each enrollment ends as if it had been processed alone against the tables
     the batch started with, whatever raised in between.
     */
    method AdvanceDue(due: seq<Enrollment>, tables: Tables, now: int, inputs: nat -> TickInput) returns (claimed: nat)
      requires DistinctRows(due)
      modifies due, tables
      ensures claimed == |due|
      ensures WorldOf(due, tables) == Batch(old(WorldOf(due, tables)), Ids(due), now, inputs)
      ensures forall k :: 0 <= k < |due| ==>
        due[k].State() == Process(due[k].cfg, old(due[k].State()), now, old(SeenBy(due[k], tables, inputs(due[k].id))))
    {
      hide Process, HasReply, NewOutcomes, NewTasks, Batch, ProcessMember, Seen;
      ghost var ids := Ids(due);
      ghost var start := WorldOf(due, tables);
      BatchNone(start, now, inputs);
      assert ids[..0] == [];
      for k := 0 to |due|
        invariant WorldOf(due, tables) == Batch(start, ids[..k], now, inputs)
      {
        ProcessDue(due, k, tables, now, inputs);
        BatchNext(start, ids, k, now, inputs);
      }
      assert ids[..|due|] == ids;
      DistinctIds(due);
      forall k | 0 <= k < |due|
        ensures due[k].State() ==
          Process(due[k].cfg, old(due[k].State()), now, old(SeenBy(due[k], tables, inputs(due[k].id))))
      {
        assert ids[k] == due[k].id;
        BatchState(start, ids, now, inputs, due[k].id);
        assert WorldOf(due, tables).members[due[k].id] == due[k].AsMember();
        assert start.members[due[k].id] == old(due[k].AsMember());
        SeenIs(start, due[k].id, inputs(due[k].id));
      }
      return |due|;
    }

    // ---- Manual controls and reviews -------------------------------------------------------

    method PauseEnrollment(e: Enrollment)
      modifies e`status
      ensures e.State() == CadenceModel.Apply(e.cfg, old(e.State()), Pause)
    {
      if e.status == Active {
        e.status := Paused;
      }
    }

    method ResumeEnrollment(e: Enrollment, now: int)
      modifies e`status, e`nextTouchAt
      ensures e.State() == CadenceModel.Apply(e.cfg, old(e.State()), Resume(now))
    {
      if e.status == Paused {
        e.status := Active;
        e.nextTouchAt := now;
      }
    }

    method StopManually(e: Enrollment, now: int)
      modifies e`status, e`stopReason, e`completedAt
      ensures e.State() == CadenceModel.Apply(e.cfg, old(e.State()), StopOp(now))
    {
      if !Terminal(e.status) {
        StopEnrollment(e, Manual, now);
      }
    }

    /** `approve_touch`, with the roll-back its request does when an exception escapes. */
    method ApproveTouch(e: Enrollment, tables: Tables, step: nat, now: int, input: ApproveInput)
      returns (error: Option<CadenceError>)
      modifies e, tables`outcomes
      ensures (e.State(), error) == Approve(e.cfg, old(e.State()), step, now, input)
      ensures tables.outcomes == old(tables.outcomes) +
        if error.None? && JustSent(old(e.messages), e.messages) then [Outcome(e.contactId, SentStage, now)] else []
    {
      hide PutTouch, SendTouch;
      var at := FindTouch(e.touches, step);
      if at.None? || e.touches[at.value].status != TouchAwaiting {
        return Some(NothingAwaiting);
      }
      var touch := e.touches[at.value];
      if !input.campaignExists || !touch.hasRun || !input.runExists {
        return Some(LostCampaignOrRun);
      }
      var draft := touch.draft;
      if input.editedBody.Some? {
        draft := draft.(body := input.editedBody.value);
      }
      var touchesBefore, outcomesBefore := e.touches, tables.outcomes;
      SendKeepsColumns(e.State(), touch, draft, input.env, input.recordRaises, now);
      StopIsUnsent(e.State(), touch, draft, input.env, input.recordRaises, now);
      var action := SendStep(e, tables, touch, draft, input.env, input.recordRaises, now);
      if action == Raise {
        e.touches := touchesBefore;
        tables.outcomes := outcomesBefore;
        return Some(RequestRaised);
      }
      if action.Stop? {
        StopEnrollment(e, action.reason, now);
      } else {
        AdvanceEnrollment(e, now);
      }
      return None;
    }

    method RejectTouch(e: Enrollment, step: nat, now: int, stop: bool) returns (error: Option<CadenceError>)
      modifies e
      ensures (e.State(), error) == Reject(e.cfg, old(e.State()), step, now, stop)
    {
      hide PutTouch;
      var at := FindTouch(e.touches, step);
      if at.None? || e.touches[at.value].status != TouchAwaiting {
        return Some(NothingAwaiting);
      }
      SaveTouch(e, e.touches[at.value].(status := TouchSkipped, skipReason := Some(SkipRejected)));
      if stop {
        StopEnrollment(e, Manual, now);
      } else {
        AdvanceEnrollment(e, now);
      }
      return None;
    }
  }

  /** Past the reply test, the answer to it is not looked at again. */
  lemma ReplyUnread(cfg: Config, s: EnrollState, now: int, input: TickInput, replied: bool)
    ensures EmailStep(cfg, s, now, input.(replied := replied)) == EmailStep(cfg, s, now, input)
  {
    hide SendTouch, SendPolicy, PutTouch, TouchFor;
  }

  lemma BatchNone(w: World, now: int, inputs: nat -> TickInput)
    ensures Batch(w, [], now, inputs) == w
  {
  }

  lemma BatchNext(w: World, ids: seq<nat>, k: nat, now: int, inputs: nat -> TickInput)
    requires k < |ids| && forall j :: 0 <= j < |ids| ==> ids[j] in w.members
    ensures Batch(w, ids[..k + 1], now, inputs) == ProcessMember(Batch(w, ids[..k], now, inputs), ids[k], now, inputs)
  {
    assert ids[..k + 1][..k] == ids[..k];
  }

  /** The state a batch leaves an enrollment in. */
  lemma BatchState(w: World, ids: seq<nat>, now: int, inputs: nat -> TickInput, id: nat)
    requires Distinct(ids) && (forall k :: 0 <= k < |ids| ==> ids[k] in w.members) && id in ids && id in w.members
    ensures Batch(w, ids, now, inputs).members[id].state ==
      Process(w.members[id].cfg, w.members[id].state, now, Seen(w, id, inputs(id)))
  {
    hide Process, Batch, Seen;
    BatchIsPointwise(w, ids, now, inputs);
  }

  lemma SeenIs(w: World, id: nat, input: TickInput)
    requires id in w.members
    ensures Seen(w, id, input) ==
      input.(replied := HasReply(w.outcomes, w.members[id].contactId, w.members[id].state.startedAt))
  {
  }

  /** A send that stops the enrollment was refused. */
  lemma StopIsUnsent(s: EnrollState, touch: Touch, draft: Draft, env: SendEnv, recordRaises: bool, now: int)
    ensures var (r, action) := SendTouch(s, touch, draft, env, recordRaises, now);
      action.Stop? ==> !JustSent(s.messages, r.messages)
  {
    hide PutTouch;
  }
}
