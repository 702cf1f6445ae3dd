/**
 One enrollment walking through a cadence, and the meaning of every operation on it
 (nexus/cadences/service.py, nexus/models/cadence.py). Time is an explicit argument, in seconds.
 */
module CadenceModel {
  import opened Wrappers
  import opened Outbound

  datatype EnrollStatus = Active | Paused | Completed | Stopped

  datatype StopReason = Replied | Undeliverable | Manual | MaxTouches

  datatype TouchStatus = TouchSent | TouchSkipped | TouchFailed | TouchAwaiting

  datatype Channel = Email | Call

  const DAY: int := 86400

  datatype CadenceStep = CadenceStep(delayDays: nat, channel: Channel)

  datatype Touch = Touch(
    stepIndex: nat,
    status: TouchStatus,
    hasRun: bool,
    draft: Draft,
    skipReason: Option<SkipReason>,
    sentAt: Option<int>)

  /** A message the send tool handed over, whatever became of the call: the step, the draft, what the tool met. */
  datatype Message = Message(stepIndex: nat, draft: Draft, env: SendEnv)

  datatype EnrollState = EnrollState(
    status: EnrollStatus,
    index: nat,
    nextTouchAt: int,
    startedAt: int,
    stopReason: Option<StopReason>,
    completedAt: Option<int>,
    touches: seq<Touch>,
    messages: seq<Message>,
    calls: seq<nat>)

  /** The cadence, the campaign's columns and the settings; none of them changes under an enrollment. */
  datatype Config = Config(
    steps: seq<CadenceStep>,
    review: bool,
    sendRisky: bool,
    bar: real,
    maxDays: int)

  predicate Terminal(s: EnrollStatus) {
    s in {Completed, Stopped}
  }

  /** `enroll`: the first step is due after its own delay. */
  function Enroll(cfg: Config, now: int): EnrollState
    requires cfg.steps != []
  {
    EnrollState(Active, 0, now + cfg.steps[0].delayDays * DAY, now, None, None, [], [], [])
  }

  // ---- Touch rows ------------------------------------------------------------------------

  /** The first touch row of a step. */
  function FindTouch(touches: seq<Touch>, step: nat): (r: Option<nat>)
    ensures r.Some? ==> r.value < |touches| && touches[r.value].stepIndex == step
    ensures r.None? ==> forall k :: 0 <= k < |touches| ==> touches[k].stepIndex != step
  {
    if touches == [] then None
    else
      var front := FindTouch(touches[..|touches| - 1], step);
      if front.Some? then front
      else
        assert forall k :: 0 <= k < |touches| - 1 ==> touches[k] == touches[..|touches| - 1][k];
        if touches[|touches| - 1].stepIndex == step then Some(|touches| - 1) else None
  }

  /** Overwrite the step's row, or add one. */
  function PutTouch(touches: seq<Touch>, t: Touch): seq<Touch> {
    var at := FindTouch(touches, t.stepIndex);
    if at.Some? then touches[at.value := t] else touches + [t]
  }

  /** The row a step writes to: its own, or a fresh one. */
  function TouchFor(s: EnrollState, hasRun: bool): Touch {
    var at := FindTouch(s.touches, s.index);
    if at.Some? then s.touches[at.value] else Touch(s.index, TouchSent, hasRun, NO_DRAFT, None, None)
  }

  // ---- One tick --------------------------------------------------------------------------

  datatype ComposeOutcome = ComposeRaised | Composed(staged: Option<Composition>)

  /** All a claimed tick reads from outside the enrollment. */
  datatype TickInput = TickInput(
    campaignExists: bool,
    replied: bool,
    enqueueRaises: bool,
    compose: ComposeOutcome,
    env: SendEnv,
    recordRaises: bool)

  datatype Action = Advance | Complete | Stop(reason: StopReason) | Park | Raise

  /** The message of a send, if it came as far as handing one over. */
  function MessageFor(touch: Touch, draft: Draft, env: SendEnv): seq<Message> {
    if HandedOver(draft, env) then [Message(touch.stepIndex, draft, env)] else []
  }

  /** The tool reported the message as sent. */
  predicate Reported(m: Message) {
    Returned(SendOutcome(Some(m.draft), m.env))
  }

  /** A message was added, and reported as sent. */
  predicate JustSent(before: seq<Message>, after: seq<Message>) {
    |before| < |after| && Reported(after[|after| - 1])
  }

  /** `_send`: the touch it leaves, and what the caller does next. */
  function SendTouch(s: EnrollState, touch: Touch, draft: Draft, env: SendEnv, recordRaises: bool,
      now: int): (EnrollState, Action) {
    var s1 := s.(messages := s.messages + MessageFor(touch, draft, env));
    match SendOutcome(Some(draft), env)
    case Refused(e) =>
      if SaysUndeliverable(e) then
        (s1.(touches := PutTouch(s.touches, touch.(status := TouchSkipped, skipReason := Some(SkipUndeliverable)))),
          Stop(Undeliverable))
      else
        var reason := if SaysUngrounded(e) then SkipUngrounded else SkipNoContact;
        (s1.(touches := PutTouch(s.touches, touch.(status := TouchSkipped, skipReason := Some(reason)))), Advance)
    case Crashed => (s1.(touches := PutTouch(s.touches, touch)), Raise)
    case _ =>
      (s1.(touches := PutTouch(s.touches, touch.(status := TouchSent, sentAt := Some(now)))),
        if recordRaises then Raise else Advance)
  }

  predicate ExceededDuration(cfg: Config, s: EnrollState, now: int) {
    now - s.startedAt > cfg.maxDays * DAY
  }

  /** An email step: compose, then the grounded gate, the policy, the reviewer or the send. */
  function EmailStep(cfg: Config, s: EnrollState, now: int, input: TickInput): (EnrollState, Action) {
    if input.compose.ComposeRaised? then (s, Raise)
    else
      var draft := DraftOf(input.compose.staged);
      var touch := TouchFor(s, true);
      var hold := SendPolicy(draft, cfg.sendRisky, cfg.bar);
      if !draft.grounded then
        (s.(touches := PutTouch(s.touches, touch.(status := TouchSkipped, skipReason := Some(SkipUngrounded)))),
          Advance)
      else if hold.Some? then
        (s.(touches := PutTouch(s.touches, touch.(status := TouchSkipped, skipReason := hold))),
         if hold == Some(SkipUndeliverable) then Stop(Undeliverable) else Advance)
      else if cfg.review then
        (s.(touches := PutTouch(s.touches, touch.(status := TouchAwaiting, draft := draft))), Park)
      else SendTouch(s, touch, draft, input.env, input.recordRaises, now)
  }

  /** `_run_touch`: run the current step, once. */
  function RunTouch(cfg: Config, s: EnrollState, now: int, input: TickInput): (EnrollState, Action) {
    if !input.campaignExists then (s, Complete)
    else if s.index >= |cfg.steps| then (s, Complete)
    else if input.replied then (s, Stop(Replied))
    else if ExceededDuration(cfg, s, now) then (s, Stop(MaxTouches))
    else
      var existing := FindTouch(s.touches, s.index);
      if existing.Some? && s.touches[existing.value].status == TouchSent then (s, Advance)
      else if cfg.steps[s.index].channel == Call then
        if input.enqueueRaises then (s, Raise)
        else
          (s.(touches := PutTouch(s.touches, TouchFor(s, false).(status := TouchSent)),
              calls := s.calls + [s.index]),
            Advance)
      else EmailStep(cfg, s, now, input)
  }

  function CompleteIt(s: EnrollState, now: int): EnrollState {
    s.(status := Completed, completedAt := Some(now))
  }

  function StopIt(s: EnrollState, reason: StopReason, now: int): EnrollState {
    s.(status := Stopped, stopReason := Some(reason), completedAt := Some(now))
  }

  /** `_advance`. */
  function AdvanceIt(cfg: Config, s: EnrollState, now: int): EnrollState {
    if s.index + 1 >= |cfg.steps| then CompleteIt(s, now)
    else s.(index := s.index + 1, nextTouchAt := now + cfg.steps[s.index + 1].delayDays * DAY, status := Active)
  }

  /** `_record_failed_touch`. */
  function RecordFailed(s: EnrollState): EnrollState {
    s.(touches := PutTouch(s.touches, TouchFor(s, false).(status := TouchFailed)))
  }

  /** `_process_enrollment`. */
  function Process(cfg: Config, s: EnrollState, now: int, input: TickInput): EnrollState {
    var (r, action) := RunTouch(cfg, s, now, input);
    match action
    case Advance => AdvanceIt(cfg, r, now)
    case Complete => CompleteIt(r, now)
    case Stop(reason) => StopIt(r, reason, now)
    case Park => r.(status := Paused)
    case Raise => AdvanceIt(cfg, RecordFailed(r), now)
  }

  /** The claim query: active and due. */
  predicate Due(s: EnrollState, now: int) {
    s.status == Active && s.nextTouchAt <= now
  }

  // ---- Reviews and manual controls -------------------------------------------------------

  datatype CadenceError = NothingAwaiting | LostCampaignOrRun | RequestRaised

  datatype ApproveInput = ApproveInput(
    campaignExists: bool,
    runExists: bool,
    editedBody: Option<string>,
    env: SendEnv,
    recordRaises: bool)

  predicate AwaitsAt(s: EnrollState, step: nat) {
    var at := FindTouch(s.touches, step);
    at.Some? && s.touches[at.value].status == TouchAwaiting
  }

  function ReviewedDraft(t: Touch, input: ApproveInput): Draft {
    if input.editedBody.Some? then t.draft.(body := input.editedBody.value) else t.draft
  }

  /**
   `approve_touch`. An exception escapes to the request, whose rows are then rolled back; a message
   already handed over stays handed over. Whether the enrollment is terminal is not looked at.
   */
  function Approve(cfg: Config, s: EnrollState, step: nat, now: int,
      input: ApproveInput): (EnrollState, Option<CadenceError>) {
    if !AwaitsAt(s, step) then (s, Some(NothingAwaiting))
    else
      var touch := s.touches[FindTouch(s.touches, step).value];
      if !input.campaignExists || !touch.hasRun || !input.runExists then (s, Some(LostCampaignOrRun))
      else
        var draft := ReviewedDraft(touch, input);
        var (r, action) := SendTouch(s, touch, draft, input.env, input.recordRaises, now);
        match action
        case Raise => (s.(messages := r.messages), Some(RequestRaised))
        case Stop(reason) => (StopIt(r, reason, now), None)
        case _ => (AdvanceIt(cfg, r, now), None)
  }

  function Reject(cfg: Config, s: EnrollState, step: nat, now: int, stop: bool): (EnrollState, Option<CadenceError>) {
    if !AwaitsAt(s, step) then (s, Some(NothingAwaiting))
    else
      var touch := s.touches[FindTouch(s.touches, step).value];
      var r := s.(touches := PutTouch(s.touches, touch.(status := TouchSkipped, skipReason := Some(SkipRejected))));
      (if stop then StopIt(r, Manual, now) else AdvanceIt(cfg, r, now), None)
  }

  datatype Op =
    | Tick(now: int, input: TickInput)
    | Pause
    | Resume(now: int)
    | StopOp(now: int)
    | ApproveOp(step: nat, now: int, approval: ApproveInput)
    | RejectOp(step: nat, now: int, stop: bool)

  function Apply(cfg: Config, s: EnrollState, op: Op): EnrollState {
    match op
    case Tick(now, input) => if Due(s, now) then Process(cfg, s, now, input) else s
    case Pause => if s.status == Active then s.(status := Paused) else s
    case Resume(now) => if s.status == Paused then s.(status := Active, nextTouchAt := now) else s
    case StopOp(now) => if !Terminal(s.status) then StopIt(s, Manual, now) else s
    case ApproveOp(step, now, input) => Approve(cfg, s, step, now, input).0
    case RejectOp(step, now, stop) => Reject(cfg, s, step, now, stop).0
  }

  function ApplyAll(cfg: Config, s: EnrollState, ops: seq<Op>): EnrollState {
    if ops == [] then s else Apply(cfg, ApplyAll(cfg, s, ops[..|ops| - 1]), ops[|ops| - 1])
  }
}
