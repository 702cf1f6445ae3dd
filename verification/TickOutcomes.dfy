/**
 What a tick or a review makes of an enrollment, read off its inputs (nexus/cadences/service.py): when it
 stops and why, when it parks, completes or goes on, and the row the step is left with.
 */
module TickOutcomes {
  import opened Wrappers
  import opened Outbound
  import opened CadenceModel
  import opened CadenceTheorems

  predicate StoppedFor(s: EnrollState, reason: StopReason) {
    s.status == Stopped && s.stopReason == Some(reason)
  }

  predicate SkippedFor(t: Touch, reason: SkipReason) {
    t.status == TouchSkipped && t.skipReason == Some(reason)
  }

  /** None of the stop conditions that come before the step's own work. */
  predicate Works(cfg: Config, s: EnrollState, now: int, input: TickInput) {
    input.campaignExists && !input.replied && now - s.startedAt <= cfg.maxDays * 86400
  }

  predicate OnCall(cfg: Config, s: EnrollState) {
    s.index < |cfg.steps| && cfg.steps[s.index].channel == Call
  }

  /** An email step whose composing returned. */
  predicate Emails(cfg: Config, s: EnrollState, now: int, input: TickInput) {
    Works(cfg, s, now, input) && !OnCall(cfg, s) && input.compose.Composed?
  }

  /** An email step that has a draft to send: grounded, and let through by the policy. */
  predicate HasDraft(cfg: Config, s: EnrollState, now: int, input: TickInput) {
    Emails(cfg, s, now, input) && Sendable(DraftOf(input.compose.staged), cfg.sendRisky, cfg.bar)
  }

  /** The tool refuses the draft, in words that say undeliverable. */
  predicate ToolUndeliverable(d: Draft, env: SendEnv) {
    var r := SendOutcome(Some(d), env);
    r.Refused? && SaysUndeliverable(r.error)
  }

  predicate ToolUngrounded(d: Draft, env: SendEnv) {
    var r := SendOutcome(Some(d), env);
    r.Refused? && !SaysUndeliverable(r.error) && SaysUngrounded(r.error)
  }

  predicate ToolRefusesOtherwise(d: Draft, env: SendEnv) {
    var r := SendOutcome(Some(d), env);
    r.Refused? && !SaysUndeliverable(r.error) && !SaysUngrounded(r.error)
  }

  // ---- One send --------------------------------------------------------------------------

  /** A send, by what the tool answered: what the caller does next, and the row it leaves. */
  lemma SendEnds(s: EnrollState, touch: Touch, d: Draft, env: SendEnv, recordRaises: bool, now: int)
    requires Unique(s.touches) && touch.stepIndex == s.index && !d.draftMode
    ensures var (r, action) := SendTouch(s, touch, d, env, recordRaises, now);
      var t := TouchAt(r.touches, s.index);
      && t.Some? && Unique(r.touches)
      && action in {Advance, Raise, Stop(Undeliverable)}
      && (action == Stop(Undeliverable) <==> ToolUndeliverable(d, env))
      && (action == Raise <==> RaisesAfter(d, env, recordRaises))
      && (SendOutcome(Some(d), env) == Sent ==> t == Some(touch.(status := TouchSent, sentAt := Some(now))))
      && (ToolUndeliverable(d, env) ==> SkippedFor(t.value, SkipUndeliverable))
      && (ToolUngrounded(d, env) ==> SkippedFor(t.value, SkipUngrounded))
      && (ToolRefusesOtherwise(d, env) ==> SkippedFor(t.value, SkipNoContact))
      && r == s.(touches := r.touches, messages := r.messages)
  {
    hide PutTouch, FindTouch, SendOutcome, Unique, Pushed, TouchAt, HandedOver;
    SendGates(Some(d), env);
    PutTouchAt(s.touches, touch);
    PutTouchAt(s.touches, touch.(status := TouchSkipped, skipReason := Some(SkipUndeliverable)));
    PutTouchAt(s.touches, touch.(status := TouchSkipped, skipReason := Some(SkipUngrounded)));
    PutTouchAt(s.touches, touch.(status := TouchSkipped, skipReason := Some(SkipNoContact)));
    PutTouchAt(s.touches, touch.(status := TouchSent, sentAt := Some(now)));
  }

  // ---- One email step --------------------------------------------------------------------

  /** What the policy holds a composed draft back for: composing never marks a draft as sourced. */
  lemma ComposedPolicy(staged: Option<Composition>, sendRisky: bool, bar: real)
    ensures var d := DraftOf(staged);
      && SendPolicy(d, sendRisky, bar) ==
           (if d.emailStatus == Some(Invalid) then Some(SkipUndeliverable)
            else if d.emailStatus == Some(Risky) && !sendRisky then Some(SkipRisky) else None)
      && (Sendable(d, sendRisky, bar) <==> d.grounded && SendPolicy(d, sendRisky, bar) == None)
      && !d.draftMode
  {
  }

  /** An email step, by its draft and the tool's answer. */
  ghost predicate EmailEnded(cfg: Config, s: EnrollState, d: Draft, input: TickInput, now: int, r: EnrollState,
      action: Action) {
    var t := TouchAt(r.touches, s.index);
    && t.Some? && Unique(r.touches)
    && r == s.(touches := r.touches, messages := r.messages)
    && (if !d.grounded then action == Advance && SkippedFor(t.value, SkipUngrounded)
        else if d.emailStatus == Some(Invalid) then
          action == Stop(Undeliverable) && SkippedFor(t.value, SkipUndeliverable)
        else if d.emailStatus == Some(Risky) && !cfg.sendRisky then
          action == Advance && SkippedFor(t.value, SkipRisky)
        else if cfg.review then action == Park && t.value.status == TouchAwaiting && t.value.draft == d
        else if ToolUndeliverable(d, input.env) then
          action == Stop(Undeliverable) && SkippedFor(t.value, SkipUndeliverable)
        else if ToolUngrounded(d, input.env) then action == Advance && SkippedFor(t.value, SkipUngrounded)
        else if ToolRefusesOtherwise(d, input.env) then action == Advance && SkippedFor(t.value, SkipNoContact)
        else if RaisesAfter(d, input.env, input.recordRaises) then action == Raise
        else action == Advance && t.value.status == TouchSent && t.value.sentAt == Some(now))
  }

  lemma EmailEnds(cfg: Config, s: EnrollState, now: int, input: TickInput)
    requires Unique(s.touches) && input.compose.Composed?
    ensures var (r, action) := EmailStep(cfg, s, now, input);
      EmailEnded(cfg, s, DraftOf(input.compose.staged), input, now, r, action)
  {
    hide PutTouch, FindTouch, SendOutcome, Sendable, SendPolicy, SendTouch, DraftOf, Unique, TouchAt, TouchFor,
      RaisesAfter, ToolUngrounded, ToolUndeliverable, ToolRefusesOtherwise;
    var d := DraftOf(input.compose.staged);
    var touch := TouchFor(s, true);
    TouchForIndex(s, true);
    ComposedPolicy(input.compose.staged, cfg.sendRisky, cfg.bar);
    PutTouchAt(s.touches, touch.(status := TouchSkipped, skipReason := Some(SkipUngrounded)));
    PutTouchAt(s.touches, touch.(status := TouchSkipped, skipReason := Some(SkipUndeliverable)));
    PutTouchAt(s.touches, touch.(status := TouchSkipped, skipReason := Some(SkipRisky)));
    PutTouchAt(s.touches, touch.(status := TouchAwaiting, draft := d));
    SendEnds(s, touch, d, input.env, input.recordRaises, now);
    OneAnswer(d, input.env, input.recordRaises);
  }

  /** The tool's answers, told apart. */
  lemma OneAnswer(d: Draft, env: SendEnv, recordRaises: bool)
    requires !d.draftMode
    ensures ToolUndeliverable(d, env) ==>
      !ToolUngrounded(d, env) && !ToolRefusesOtherwise(d, env) && !RaisesAfter(d, env, recordRaises)
    ensures ToolUngrounded(d, env) ==>
      !ToolRefusesOtherwise(d, env) && !RaisesAfter(d, env, recordRaises)
    ensures ToolRefusesOtherwise(d, env) ==> !RaisesAfter(d, env, recordRaises)
    ensures SendOutcome(Some(d), env) == Sent <==>
      && !ToolUndeliverable(d, env) && !ToolUngrounded(d, env) && !ToolRefusesOtherwise(d, env)
      && SendOutcome(Some(d), env) != Crashed
    ensures SendOutcome(Some(d), env) == Crashed ==> RaisesAfter(d, env, recordRaises)
  {
  }

  lemma ComposingRaised(cfg: Config, s: EnrollState, now: int, input: TickInput)
    requires input.compose.ComposeRaised?
    ensures EmailStep(cfg, s, now, input) == (s, Raise)
  {
  }

  // ---- One tick --------------------------------------------------------------------------

  /** The draft of an email step makes it stop: a dead address, found by the verifier or by the tool. */
  predicate DeadAddress(cfg: Config, d: Draft, env: SendEnv) {
    && d.grounded
    && (|| d.emailStatus == Some(Invalid)
        || (!cfg.review && Sendable(d, cfg.sendRisky, cfg.bar) && ToolUndeliverable(d, env)))
  }

  /** The stop conditions and the parking, by the inputs. */
  lemma WorkStops(cfg: Config, s: EnrollState, now: int, input: TickInput)
    requires Inv(cfg, s) && !Terminal(s.status)
    ensures var (r, action) := RunTouch(cfg, s, now, input);
      && r == s.(touches := r.touches, messages := r.messages, calls := r.calls)
      && (action == Complete <==> !input.campaignExists)
      && (action == Stop(Replied) <==> input.campaignExists && input.replied)
      && (action == Stop(MaxTouches) <==>
            input.campaignExists && !input.replied && now - s.startedAt > cfg.maxDays * 86400)
      && (action == Stop(Undeliverable) <==>
            Emails(cfg, s, now, input) && DeadAddress(cfg, DraftOf(input.compose.staged), input.env))
      && (action == Park <==> HasDraft(cfg, s, now, input) && cfg.review)
      && action != Stop(Manual)
  {
    hide PutTouch, FindTouch, Sendable, SendPolicy, EmailStep, DraftOf, TouchAt, TouchFor, Inv, RaisesAfter,
      ToolUngrounded, ToolUndeliverable, ToolRefusesOtherwise;
    OpenIsUnsent(cfg, s);
    if input.compose.Composed? {
      EmailEnds(cfg, s, now, input);
      ComposedPolicy(input.compose.staged, cfg.sendRisky, cfg.bar);
      OneAnswer(DraftOf(input.compose.staged), input.env, input.recordRaises);
    } else {
      ComposingRaised(cfg, s, now, input);
    }
  }

  /** The draft of an email step goes to the tool at once. */
  predicate Tries(cfg: Config, s: EnrollState, now: int, input: TickInput) {
    HasDraft(cfg, s, now, input) && !cfg.review
  }

  /** The row an email step is left with, by the inputs. */
  ghost predicate EmailRow(cfg: Config, s: EnrollState, now: int, input: TickInput, t: Touch)
    requires input.compose.Composed?
  {
    var d := DraftOf(input.compose.staged);
    && (t.status == TouchSent <==>
          Tries(cfg, s, now, input) && SendOutcome(Some(d), input.env) == Sent && !input.recordRaises)
    && (t.status == TouchSent ==> t.sentAt == Some(now))
    && (t.status == TouchAwaiting <==> HasDraft(cfg, s, now, input) && cfg.review)
    && (t.status == TouchAwaiting ==> t.draft == d)
    && (t.status == TouchFailed <==>
          Tries(cfg, s, now, input) && RaisesAfter(d, input.env, input.recordRaises))
    && (SkippedFor(t, SkipUngrounded) <==>
          !d.grounded || (Tries(cfg, s, now, input) && ToolUngrounded(d, input.env)))
    && (SkippedFor(t, SkipUndeliverable) <==> DeadAddress(cfg, d, input.env))
    && (SkippedFor(t, SkipRisky) <==> d.grounded && d.emailStatus == Some(Risky) && !cfg.sendRisky)
    && (SkippedFor(t, SkipNoContact) <==> Tries(cfg, s, now, input) && ToolRefusesOtherwise(d, input.env))
  }

  /** The row after the recording of a failure, if there was one. */
  function RowOf(r: EnrollState, action: Action): Option<Touch> {
    TouchAt(if action == Raise then RecordFailed(r).touches else r.touches, r.index)
  }

  lemma EmailLeaves(cfg: Config, s: EnrollState, now: int, input: TickInput)
    requires Unique(s.touches) && Emails(cfg, s, now, input)
    ensures var (r, action) := EmailStep(cfg, s, now, input);
      RowOf(r, action).Some? && EmailRow(cfg, s, now, input, RowOf(r, action).value)
  {
    hide PutTouch, FindTouch, SendOutcome, Sendable, SendPolicy, EmailStep, DraftOf, TouchAt, TouchFor, Unique,
      ToolUngrounded, ToolUndeliverable, ToolRefusesOtherwise, RecordFailed, Works, OnCall;
    var (r, action) := EmailStep(cfg, s, now, input);
    var d := DraftOf(input.compose.staged);
    EmailEnds(cfg, s, now, input);
    ComposedPolicy(input.compose.staged, cfg.sendRisky, cfg.bar);
    OneAnswer(d, input.env, input.recordRaises);
    if action == Raise {
      FailTouch(cfg, r);
    }
  }

  /** The row and the call of a step of work. */
  lemma WorkLeaves(cfg: Config, s: EnrollState, now: int, input: TickInput)
    requires Inv(cfg, s) && !Terminal(s.status)
    ensures var (r, action) := RunTouch(cfg, s, now, input);
      var row := RowOf(r, action);
      && (!Works(cfg, s, now, input) ==> r == s && action != Raise)
      && (Works(cfg, s, now, input) && OnCall(cfg, s) ==>
            && row.Some? && row.value.status == (if input.enqueueRaises then TouchFailed else TouchSent)
            && r.calls == s.calls + if input.enqueueRaises then [] else [s.index])
      && (Works(cfg, s, now, input) && !OnCall(cfg, s) ==>
            && row.Some? && r.calls == s.calls
            && (input.compose.ComposeRaised? ==> row.value.status == TouchFailed))
      && (Emails(cfg, s, now, input) ==> EmailRow(cfg, s, now, input, row.value))
  {
    hide PutTouch, FindTouch, EmailStep, EmailRow, TouchAt, TouchFor, Inv, RecordFailed, Unique;
    OpenIsUnsent(cfg, s);
    TouchForIndex(s, false);
    PutTouchAt(s.touches, TouchFor(s, false).(status := TouchSent));
    FailTouch(cfg, s);
    if Emails(cfg, s, now, input) {
      EmailLeaves(cfg, s, now, input);
      EmailEnds(cfg, s, now, input);
    } else if input.compose.ComposeRaised? {
      ComposingRaised(cfg, s, now, input);
    }
  }

  // ---- The theorems ----------------------------------------------------------------------

  /**
   When a due tick stops an enrollment, and why: the contact replied; or else the cadence has run longer
   than its days; or else its email has a dead address. It completes when its campaign is gone or nothing
   stops or parks its last step; it parks when a draft may go and touches are reviewed; and otherwise it
   goes on to the next step, at that step's delay from now.
   */
  lemma TickStops(cfg: Config, s: EnrollState, now: int, input: TickInput)
    requires Inv(cfg, s) && Due(s, now)
    ensures s.index < |cfg.steps|
    ensures var r := Apply(cfg, s, Tick(now, input));
      var dead := Emails(cfg, s, now, input) && DeadAddress(cfg, DraftOf(input.compose.staged), input.env);
      var parked := HasDraft(cfg, s, now, input) && cfg.review;
      && (StoppedFor(r, Replied) <==> input.campaignExists && input.replied)
      && (StoppedFor(r, MaxTouches) <==>
            input.campaignExists && !input.replied && now - s.startedAt > cfg.maxDays * 86400)
      && (StoppedFor(r, Undeliverable) <==> dead)
      && (r.status == Stopped ==> r.stopReason.Some? && r.stopReason.value != Manual)
      && (r.status == Paused <==> parked)
      && (r.status == Completed <==>
            || !input.campaignExists
            || (Works(cfg, s, now, input) && !dead && !parked && s.index + 1 == |cfg.steps|))
      && (r.status == Active ==>
            && r.index == s.index + 1 < |cfg.steps|
            && r.nextTouchAt == now + cfg.steps[r.index].delayDays * 86400)
      && (Terminal(r.status) ==> r.completedAt == Some(now))
  {
    hide RunTouch, Inv, Sendable, DeadAddress, PutTouch, FindTouch, TouchFor, DraftOf;
    OpenIsUnsent(cfg, s);
    WorkStops(cfg, s, now, input);
  }

  /**
   The row a due tick leaves for its step: none without work; for a call, that it was queued or not; for an
   email, each status and each reason to skip exactly under its condition. No other step's row changes.
   */
  lemma TickRow(cfg: Config, s: EnrollState, now: int, input: TickInput)
    requires Inv(cfg, s) && Due(s, now)
    ensures var r := Apply(cfg, s, Tick(now, input));
      var row := TouchAt(r.touches, s.index);
      && (!Works(cfg, s, now, input) ==> r.touches == s.touches && r.calls == s.calls)
      && (Works(cfg, s, now, input) ==> row.Some?)
      && (Works(cfg, s, now, input) && OnCall(cfg, s) ==>
            && row.value.status == (if input.enqueueRaises then TouchFailed else TouchSent)
            && r.calls == s.calls + if input.enqueueRaises then [] else [s.index])
      && (Works(cfg, s, now, input) && !OnCall(cfg, s) ==> r.calls == s.calls)
      && (Works(cfg, s, now, input) && !OnCall(cfg, s) && input.compose.ComposeRaised? ==>
            row.value.status == TouchFailed)
      && (Emails(cfg, s, now, input) ==> EmailRow(cfg, s, now, input, row.value))
  {
    hide RunTouch, Inv, Emails, Works, OnCall, EmailRow, PutTouch, FindTouch, TouchFor, TouchAt, DraftOf;
    WorkLeaves(cfg, s, now, input);
    WorkStops(cfg, s, now, input);
  }

  /** The step after the one just settled: the next one, due after its delay, or the end. */
  predicate MovedOn(cfg: Config, s: EnrollState, now: int, r: EnrollState) {
    if s.index + 1 < |cfg.steps| then
      r.status == Active && r.index == s.index + 1 && r.nextTouchAt == now + cfg.steps[r.index].delayDays * 86400
    else r.status == Completed && r.index == s.index && r.completedAt == Some(now)
  }

  /**
   An approved touch: what it is refused for, when the request fails without a trace in the rows, when it
   stops the enrollment, and the row it leaves when it does not.
   */
  lemma ApprovalOutcome(cfg: Config, s: EnrollState, step: nat, now: int, input: ApproveInput)
    requires Inv(cfg, s)
    ensures var (r, error) := Approve(cfg, s, step, now, input);
      && (error == Some(NothingAwaiting) <==> !AwaitsAt(s, step))
      && (error == Some(LostCampaignOrRun) <==> AwaitsAt(s, step) && !(input.campaignExists && input.runExists))
      && (error.Some? ==> r == s.(messages := r.messages))
    ensures AwaitsAt(s, step) && input.campaignExists && input.runExists ==>
      var (r, error) := Approve(cfg, s, step, now, input);
      var draft := s.touches[FindTouch(s.touches, step).value].draft;
      var d := if input.editedBody.Some? then draft.(body := input.editedBody.value) else draft;
      var row := TouchAt(r.touches, step);
      && row.Some?
      && (error == Some(RequestRaised) <==> RaisesAfter(d, input.env, input.recordRaises))
      && (error == None ==>
            && (if ToolUndeliverable(d, input.env) then StoppedFor(r, Undeliverable) && r.completedAt == Some(now)
                else MovedOn(cfg, s, now, r))
            && (row.value.status == TouchSent <==> SendOutcome(Some(d), input.env) == Sent)
            && (row.value.status == TouchSent ==> row.value.sentAt == Some(now))
            && (SkippedFor(row.value, SkipUndeliverable) <==> ToolUndeliverable(d, input.env))
            && (SkippedFor(row.value, SkipUngrounded) <==> ToolUngrounded(d, input.env))
            && (SkippedFor(row.value, SkipNoContact) <==> ToolRefusesOtherwise(d, input.env)))
  {
    hide PutTouch, FindTouch, Sendable, SendTouch, TouchAt, Inv, Unique, RaisesAfter,
      ToolUngrounded, ToolUndeliverable, ToolRefusesOtherwise, Pushed, SendOutcome;
    if AwaitsAt(s, step) {
      AwaitingIsCurrent(cfg, s, step);
      InvPrefix(cfg, s);
      var touch := s.touches[FindTouch(s.touches, step).value];
      var d := ReviewedDraft(touch, input);
      SendEnds(s, touch, d, input.env, input.recordRaises, now);
      OneAnswer(d, input.env, input.recordRaises);
    }
  }

  /** A rejected touch is skipped as rejected; the enrollment stops by hand if asked to, or goes on. */
  lemma RejectionOutcome(cfg: Config, s: EnrollState, step: nat, now: int, stop: bool)
    requires Inv(cfg, s)
    ensures var (r, error) := Reject(cfg, s, step, now, stop);
      && (error == Some(NothingAwaiting) <==> !AwaitsAt(s, step))
      && (error.Some? ==> r == s)
      && (error == None ==>
            && TouchAt(r.touches, step).Some? && SkippedFor(TouchAt(r.touches, step).value, SkipRejected)
            && r.messages == s.messages
            && if stop then StoppedFor(r, Manual) && r.completedAt == Some(now) else MovedOn(cfg, s, now, r))
  {
    hide PutTouch, FindTouch, Sendable, TouchAt, Inv, Unique;
    if AwaitsAt(s, step) {
      AwaitingIsCurrent(cfg, s, step);
      InvPrefix(cfg, s);
      var touch := s.touches[FindTouch(s.touches, step).value];
      PutTouchAt(s.touches, touch.(status := TouchSkipped, skipReason := Some(SkipRejected)));
    }
  }

  /**
   Pausing holds an enrollment: no tick changes it. Resuming makes it due at that time and changes nothing
   else, so that the next tick then runs the step that was current.
   */
  lemma PauseHolds(cfg: Config, s: EnrollState, later: int, now: int, input: TickInput)
    requires s.status == Active
    ensures var paused := Apply(cfg, s, Pause);
      && Apply(cfg, paused, Tick(later, input)) == paused
      && Apply(cfg, paused, Resume(now)) == s.(nextTouchAt := now)
      && Due(Apply(cfg, paused, Resume(now)), now)
    ensures Apply(cfg, s, Resume(now)) == s
  {
    hide Process;
  }

  /** Stopping by hand ends any enrollment that is not over, and leaves one that is. */
  lemma StoppingEnds(cfg: Config, s: EnrollState, now: int)
    ensures var r := Apply(cfg, s, StopOp(now));
      && Terminal(r.status)
      && (Terminal(s.status) ==> r == s)
      && (!Terminal(s.status) ==> StoppedFor(r, Manual) && r.completedAt == Some(now))
      && r.touches == s.touches && r.messages == s.messages && r.calls == s.calls && r.index == s.index
  {
  }
}
