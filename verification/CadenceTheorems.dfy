/**
 Properties of one enrollment over every interleaving of ticks, pauses, resumes, stops, approvals and
 rejections.
 */
module CadenceTheorems {
  import opened Wrappers
  import opened Outbound
  import opened CadenceModel

  // ---- Touch rows ------------------------------------------------------------------------

  function TouchAt(touches: seq<Touch>, step: nat): Option<Touch> {
    var at := FindTouch(touches, step);
    if at.Some? then Some(touches[at.value]) else None
  }

  predicate Unique(touches: seq<Touch>) {
    forall a, b :: 0 <= a < b < |touches| ==> touches[a].stepIndex != touches[b].stepIndex
  }

  lemma {:induction false} FindOnly(touches: seq<Touch>, k: nat)
    requires Unique(touches) && k < |touches|
    ensures FindTouch(touches, touches[k].stepIndex) == Some(k)
    decreases |touches|
  {
    var front := touches[..|touches| - 1];
    if k < |front| {
      FindOnly(front, k);
    }
  }

  /** Writing a step's row changes that row and no other, and keeps one row a step. */
  lemma PutTouchAt(touches: seq<Touch>, t: Touch)
    requires Unique(touches)
    ensures Unique(PutTouch(touches, t))
    ensures forall k: nat ::
      TouchAt(PutTouch(touches, t), k) == if k == t.stepIndex then Some(t) else TouchAt(touches, k)
  {
    var next := PutTouch(touches, t);
    assert Unique(next);
    forall k: nat
      ensures TouchAt(next, k) == if k == t.stepIndex then Some(t) else TouchAt(touches, k)
    {
      if k == t.stepIndex {
        var at := FindTouch(touches, k);
        FindOnly(next, if at.Some? then at.value else |touches|);
      } else {
        var at := FindTouch(touches, k);
        if at.Some? {
          assert next[at.value] == touches[at.value];
          FindOnly(next, at.value);
        }
      }
    }
  }

  // ---- The invariant ---------------------------------------------------------------------

  predicate Settled(t: Option<Touch>) {
    t.Some? && t.value.status in {TouchSent, TouchSkipped, TouchFailed}
  }

  /** No row yet, or one in front of a reviewer. */
  predicate Open(t: Option<Touch>) {
    t.None? || t.value.status == TouchAwaiting
  }

  predicate Passed(cfg: Config, d: Draft) {
    Sendable(d, cfg.sendRisky, cfg.bar) && !d.draftMode
  }

  /** The touches are a prefix: settled below the current index, nothing above it. */
  ghost predicate Prefix(cfg: Config, s: EnrollState) {
    && Unique(s.touches)
    && s.index < |cfg.steps|
    && (forall k: nat :: k < s.index ==> Settled(TouchAt(s.touches, k)))
    && (forall k: nat :: k > s.index ==> TouchAt(s.touches, k) == None)
    && (!Terminal(s.status) ==> Open(TouchAt(s.touches, s.index)))
    && (var t := TouchAt(s.touches, s.index);
        t.Some? && t.value.status == TouchAwaiting ==>
          Passed(cfg, t.value.draft) && t.value.hasRun && cfg.review && cfg.steps[s.index].channel == Email)
  }

  /** Every message was handed over grounded, past the policy and the gates, on an email step. */
  predicate MessageOk(cfg: Config, s: EnrollState, m: Message) {
    && m.stepIndex <= s.index && m.stepIndex < |cfg.steps| && cfg.steps[m.stepIndex].channel == Email
    && Passed(cfg, m.draft)
    && Pushed(Some(m.draft), m.env)
  }

  predicate MessagesOk(cfg: Config, s: EnrollState) {
    forall a :: 0 <= a < |s.messages| ==> MessageOk(cfg, s, s.messages[a])
  }

  predicate SentEmail(cfg: Config, touches: seq<Touch>, k: nat) {
    && k < |cfg.steps| && cfg.steps[k].channel == Email
    && TouchAt(touches, k).Some? && TouchAt(touches, k).value.status == TouchSent
  }

  predicate SentFor(m: Message, k: nat) {
    m.stepIndex == k && SendOutcome(Some(m.draft), m.env) == Sent
  }

  /** A sent email touch has its message, and the tool reported that as sent. */
  ghost predicate SentHasMessage(cfg: Config, s: EnrollState) {
    forall k: nat :: SentEmail(cfg, s.touches, k) ==>
      exists a :: 0 <= a < |s.messages| && SentFor(s.messages[a], k)
  }

  ghost predicate Inv(cfg: Config, s: EnrollState) {
    Prefix(cfg, s) && MessagesOk(cfg, s) && SentHasMessage(cfg, s)
  }

  lemma EnrollInv(cfg: Config, now: int)
    requires cfg.steps != []
    ensures Inv(cfg, Enroll(cfg, now))
  {
  }

  // ---- What a step of work leaves behind ---------------------------------------------------

  /**
   The shape of every touch-writing step at the current index: only that row changed, and the messages
   grew by at most one, of this step.
   */
  ghost predicate Worked(cfg: Config, s: EnrollState, r: EnrollState, t: Touch) {
    && s.index < |cfg.steps|
    && r == s.(touches := r.touches, messages := r.messages, calls := r.calls)
    && t.stepIndex == s.index
    && Unique(r.touches)
    && (forall k: nat :: TouchAt(r.touches, k) == if k == s.index then Some(t) else TouchAt(s.touches, k))
    && (r.messages == s.messages || (|r.messages| == |s.messages| + 1 && s.messages <= r.messages
          && r.messages[|s.messages|].stepIndex == s.index && MessageOk(cfg, s, r.messages[|s.messages|])))
    && (t.status == TouchSent && cfg.steps[s.index].channel == Email ==>
          r.messages != s.messages && SentFor(r.messages[|s.messages|], s.index))
    && (r.messages != s.messages ==> cfg.steps[s.index].channel == Email && Settled(Some(t)))
  }

  /** An exception other than the tool's own error leaves `_send`. */
  predicate RaisesAfter(draft: Draft, env: SendEnv, recordRaises: bool) {
    SendOutcome(Some(draft), env) == Crashed || (SendOutcome(Some(draft), env) == Sent && recordRaises)
  }

  lemma SendTouchWorks(cfg: Config, s: EnrollState, touch: Touch, draft: Draft, env: SendEnv, recordRaises: bool,
      now: int)
    requires Prefix(cfg, s) && touch.stepIndex == s.index && cfg.steps[s.index].channel == Email
    requires Passed(cfg, draft)
    ensures var (r, action) := SendTouch(s, touch, draft, env, recordRaises, now);
      var t := TouchAt(r.touches, s.index);
      && t.Some?
      && (action != Raise ==> Worked(cfg, s, r, t.value) && Settled(t))
      && (action == Raise ==> Worked(cfg, s, RecordFailed(r), t.value.(status := TouchFailed)))
      && (action in {Advance, Raise} || action == Stop(Undeliverable))
      && (action == Raise ==> r.index == s.index)
      && r.messages == s.messages + (if Pushed(Some(draft), env) then [Message(s.index, draft, env)] else [])
      && (action == Raise <==> RaisesAfter(draft, env, recordRaises))
  {
    hide PutTouch, FindTouch, SendOutcome, Sendable, Pushed, FailsAfterPush;
    SendGates(Some(draft), env);
    var (r, action) := SendTouch(s, touch, draft, env, recordRaises, now);
    var outcome := SendOutcome(Some(draft), env);
    PutTouchAt(s.touches, touch);
    PutTouchAt(s.touches, touch.(status := TouchSkipped, skipReason := Some(SkipUndeliverable)));
    PutTouchAt(s.touches, touch.(status := TouchSkipped, skipReason := Some(SkipUngrounded)));
    PutTouchAt(s.touches, touch.(status := TouchSkipped, skipReason := Some(SkipNoContact)));
    PutTouchAt(s.touches, touch.(status := TouchSent, sentAt := Some(now)));
    if action == Raise {
      FailTouch(cfg, r);
    }
  }

  lemma FailTouch(cfg: Config, s: EnrollState)
    requires Unique(s.touches)
    ensures var r := RecordFailed(s);
      && r == s.(touches := r.touches) && Unique(r.touches)
      && TouchAt(r.touches, s.index) == Some(TouchFor(s, false).(status := TouchFailed))
      && (forall k: nat :: k != s.index ==> TouchAt(r.touches, k) == TouchAt(s.touches, k))
      && (TouchAt(s.touches, s.index).Some? ==> TouchFor(s, false) == TouchAt(s.touches, s.index).value)
      && TouchFor(s, false).stepIndex == s.index
  {
    PutTouchAt(s.touches, TouchFor(s, false).(status := TouchFailed));
  }

  /** A tick, case by case. */
  lemma RunTouchWorks(cfg: Config, s: EnrollState, now: int, input: TickInput)
    requires Prefix(cfg, s) && !Terminal(s.status)
    ensures var (r, action) := RunTouch(cfg, s, now, input);
      match action
      case Complete => r == s
      case Advance => exists t :: Worked(cfg, s, r, t) && Settled(Some(t))
      case Stop(reason) => r == s || exists t :: Worked(cfg, s, r, t) && Settled(Some(t))
      case Park => cfg.review && cfg.steps[s.index].channel == Email &&
        exists t :: Worked(cfg, s, r, t) && t.status == TouchAwaiting && Passed(cfg, t.draft) && t.hasRun
      case Raise => r.index == s.index && exists t :: Worked(cfg, s, RecordFailed(r), t) && Settled(Some(t))
  {
    hide PutTouch, FindTouch, SendOutcome, SendPolicy, Sendable, RecordFailed, SendTouch, Staged;
    var (r, action) := RunTouch(cfg, s, now, input);
    var touch := TouchFor(s, true);
    TouchForIndex(s, true);
    TouchForIndex(s, false);
    FailTouch(cfg, s);
    if !input.campaignExists || input.replied || ExceededDuration(cfg, s, now) {
    } else if cfg.steps[s.index].channel == Call {
      if input.enqueueRaises {
        assert Worked(cfg, s, RecordFailed(r), TouchFor(s, false).(status := TouchFailed));
      } else {
        var t := TouchFor(s, false).(status := TouchSent);
        PutTouchAt(s.touches, t);
        assert Worked(cfg, s, r, t);
      }
    } else if input.compose.ComposeRaised? {
      assert Worked(cfg, s, RecordFailed(r), TouchFor(s, false).(status := TouchFailed));
    } else {
      EmailStepWorks(cfg, s, now, input);
    }
  }

  lemma TouchForIndex(s: EnrollState, hasRun: bool)
    ensures TouchFor(s, hasRun).stepIndex == s.index
    ensures TouchAt(s.touches, s.index).Some? ==> TouchFor(s, hasRun) == TouchAt(s.touches, s.index).value
    ensures TouchAt(s.touches, s.index).None? ==>
      TouchFor(s, hasRun) == Touch(s.index, TouchSent, hasRun, NO_DRAFT, None, None)
  {
  }

  lemma FreshIsNotDraftMode(staged: Option<Composition>)
    ensures !DraftOf(staged).draftMode
  {
  }

  lemma EmailStepWorks(cfg: Config, s: EnrollState, now: int, input: TickInput)
    requires Prefix(cfg, s) && !Terminal(s.status) && cfg.steps[s.index].channel == Email
    requires input.campaignExists && !input.replied && !ExceededDuration(cfg, s, now) && input.compose.Composed?
    ensures var (r, action) := RunTouch(cfg, s, now, input);
      match action
      case Complete => false
      case Advance => exists t :: Worked(cfg, s, r, t) && Settled(Some(t))
      case Stop(reason) => exists t :: Worked(cfg, s, r, t) && Settled(Some(t))
      case Park => cfg.review && cfg.steps[s.index].channel == Email &&
        exists t :: Worked(cfg, s, r, t) && t.status == TouchAwaiting && Passed(cfg, t.draft) && t.hasRun
      case Raise => r.index == s.index && exists t :: Worked(cfg, s, RecordFailed(r), t) && Settled(Some(t))
  {
    hide PutTouch, FindTouch, SendOutcome, SendPolicy, Sendable, RecordFailed, SendTouch, DraftOf;
    var (r, action) := RunTouch(cfg, s, now, input);
    var touch := TouchFor(s, true);
    TouchForIndex(s, true);
    var draft := DraftOf(input.compose.staged);
    FreshIsNotDraftMode(input.compose.staged);
    PolicyMeansSendable(draft, cfg.sendRisky, cfg.bar);
    var hold := SendPolicy(draft, cfg.sendRisky, cfg.bar);
    if !draft.grounded {
      var t := touch.(status := TouchSkipped, skipReason := Some(SkipUngrounded));
      PutTouchAt(s.touches, t);
      assert Worked(cfg, s, r, t);
    } else if hold.Some? {
      var t := touch.(status := TouchSkipped, skipReason := hold);
      PutTouchAt(s.touches, t);
      assert Worked(cfg, s, r, t);
    } else if cfg.review {
      var t := touch.(status := TouchAwaiting, draft := draft);
      PutTouchAt(s.touches, t);
      assert Worked(cfg, s, r, t);
    } else {
      SendTouchWorks(cfg, s, touch, draft, input.env, input.recordRaises, now);
    }
  }

  /** Work that settled the current touch, then an advance. */
  lemma AdvanceInv(cfg: Config, s: EnrollState, r: EnrollState, t: Touch, now: int)
    requires Inv(cfg, s) && Worked(cfg, s, r, t) && Settled(Some(t))
    ensures Inv(cfg, AdvanceIt(cfg, r, now))
  {
    hide Sendable, SendOutcome, Pushed, FindTouch, TouchAt;
    WorkedMessages(cfg, s, r, t);
  }

  lemma WorkedMessages(cfg: Config, s: EnrollState, r: EnrollState, t: Touch)
    requires Inv(cfg, s) && Worked(cfg, s, r, t)
    ensures MessagesOk(cfg, r) && SentHasMessage(cfg, r)
  {
    hide Sendable, SendOutcome, Pushed, FindTouch, TouchAt;
    forall k: nat | SentEmail(cfg, r.touches, k)
      ensures exists a :: 0 <= a < |r.messages| && SentFor(r.messages[a], k)
    {
      if k == s.index {
        assert SentFor(r.messages[|s.messages|], k);
      } else {
        assert SentEmail(cfg, s.touches, k);
        var a :| 0 <= a < |s.messages| && SentFor(s.messages[a], k);
        assert SentFor(r.messages[a], k);
      }
    }
    forall a | 0 <= a < |r.messages|
      ensures MessageOk(cfg, r, r.messages[a])
    {
      if a < |s.messages| {
        assert r.messages[a] == s.messages[a] && MessageOk(cfg, s, s.messages[a]);
      }
    }
  }

  /** Work that settled the current touch, then the end. */
  lemma EndInv(cfg: Config, s: EnrollState, r: EnrollState, t: Touch, end: EnrollState)
    requires Inv(cfg, s) && Worked(cfg, s, r, t) && Settled(Some(t))
    requires Terminal(end.status) && end.index == r.index && end.touches == r.touches && end.messages == r.messages
    ensures Inv(cfg, end)
  {
    hide Sendable, SendOutcome, Pushed, FindTouch, TouchAt;
    WorkedMessages(cfg, s, r, t);
  }

  lemma SameRowsInv(cfg: Config, s: EnrollState, r: EnrollState)
    requires Inv(cfg, s)
    requires r.index == s.index && r.touches == s.touches && r.messages == s.messages
    requires Terminal(r.status) || !Terminal(s.status)
    ensures Inv(cfg, r)
  {
  }

  lemma ParkInv(cfg: Config, s: EnrollState, r: EnrollState, t: Touch)
    requires Inv(cfg, s) && Worked(cfg, s, r, t) && !Terminal(s.status)
    requires t.status == TouchAwaiting && Passed(cfg, t.draft) && t.hasRun
    requires cfg.review && cfg.steps[s.index].channel == Email
    ensures Inv(cfg, r.(status := Paused))
  {
    hide Sendable, SendOutcome, Pushed, FindTouch, TouchAt;
    WorkedMessages(cfg, s, r, t);
  }

  lemma ProcessInv(cfg: Config, s: EnrollState, now: int, input: TickInput)
    requires Inv(cfg, s) && !Terminal(s.status)
    ensures Inv(cfg, Process(cfg, s, now, input))
  {
    hide RunTouch, Worked, Inv, Settled, AdvanceIt, RecordFailed, Passed;
    InvPrefix(cfg, s);
    RunTouchWorks(cfg, s, now, input);
    var (r, action) := RunTouch(cfg, s, now, input);
    match action
    case Complete => SameRowsInv(cfg, s, CompleteIt(r, now));
    case Advance =>
      var t :| Worked(cfg, s, r, t) && Settled(Some(t));
      AdvanceInv(cfg, s, r, t, now);
    case Stop(reason) =>
      if r == s {
        SameRowsInv(cfg, s, StopIt(r, reason, now));
      } else {
        var t :| Worked(cfg, s, r, t) && Settled(Some(t));
        EndInv(cfg, s, r, t, StopIt(r, reason, now));
      }
    case Park =>
      var t :| Worked(cfg, s, r, t) && t.status == TouchAwaiting && Passed(cfg, t.draft) && t.hasRun;
      ParkInv(cfg, s, r, t);
    case Raise =>
      var t :| Worked(cfg, s, RecordFailed(r), t) && Settled(Some(t));
      AdvanceInv(cfg, s, RecordFailed(r), t, now);
  }

  lemma InvPrefix(cfg: Config, s: EnrollState)
    requires Inv(cfg, s)
    ensures Prefix(cfg, s)
  {
  }

  /** The row the current step would write is not one already sent. */
  lemma OpenIsUnsent(cfg: Config, s: EnrollState)
    requires Inv(cfg, s) && !Terminal(s.status)
    ensures s.index < |cfg.steps| && Unique(s.touches)
    ensures var at := FindTouch(s.touches, s.index);
      at.Some? ==> s.touches[at.value].status == TouchAwaiting
  {
    InvPrefix(cfg, s);
  }

  // ---- Reviews ---------------------------------------------------------------------------

  /** A touch that awaits sits at the current index. */
  lemma AwaitingIsCurrent(cfg: Config, s: EnrollState, step: nat)
    requires Inv(cfg, s) && AwaitsAt(s, step)
    ensures step == s.index
    ensures var t := s.touches[FindTouch(s.touches, step).value];
      TouchAt(s.touches, s.index) == Some(t) && Passed(cfg, t.draft) && t.hasRun && t.stepIndex == s.index
        && cfg.review && cfg.steps[s.index].channel == Email
  {
    assert TouchAt(s.touches, step).Some?;
    assert !Settled(TouchAt(s.touches, step));
  }

  lemma EditedStillPasses(cfg: Config, t: Touch, input: ApproveInput)
    requires Passed(cfg, t.draft)
    ensures Passed(cfg, ReviewedDraft(t, input))
  {
  }

  lemma ApproveInv(cfg: Config, s: EnrollState, step: nat, now: int, input: ApproveInput)
    requires Inv(cfg, s)
    ensures Inv(cfg, Approve(cfg, s, step, now, input).0)
  {
    hide Worked, Sendable, SendOutcome, SendTouch, FindTouch, AdvanceIt, RecordFailed;
    if AwaitsAt(s, step) {
      AwaitingIsCurrent(cfg, s, step);
      var touch := s.touches[FindTouch(s.touches, step).value];
      if input.campaignExists && touch.hasRun && input.runExists {
        var draft := ReviewedDraft(touch, input);
        EditedStillPasses(cfg, touch, input);
        SendTouchWorks(cfg, s, touch, draft, input.env, input.recordRaises, now);
        var (r, action) := SendTouch(s, touch, draft, input.env, input.recordRaises, now);
        if action == Raise {
          MoreMessages(cfg, s, r.messages, draft, input.env);
        } else if action.Stop? {
          EndInv(cfg, s, r, TouchAt(r.touches, s.index).value, StopIt(r, action.reason, now));
        } else {
          AdvanceInv(cfg, s, r, TouchAt(r.touches, s.index).value, now);
        }
      }
    }
  }

  /** A message on record whose rows were rolled back. */
  lemma MoreMessages(cfg: Config, s: EnrollState, messages: seq<Message>, draft: Draft, env: SendEnv)
    requires Inv(cfg, s) && Passed(cfg, draft) && cfg.steps[s.index].channel == Email
    requires messages != s.messages ==>
      messages == s.messages + [Message(s.index, draft, env)] && Pushed(Some(draft), env)
    ensures Inv(cfg, s.(messages := messages))
  {
    hide Sendable, SendOutcome, Pushed, FindTouch, TouchAt;
    var r := s.(messages := messages);
    forall a | 0 <= a < |r.messages|
      ensures MessageOk(cfg, r, r.messages[a])
    {
      if a < |s.messages| {
        assert r.messages[a] == s.messages[a] && MessageOk(cfg, s, s.messages[a]);
      }
    }
    forall k: nat | SentEmail(cfg, r.touches, k)
      ensures exists a :: 0 <= a < |r.messages| && SentFor(r.messages[a], k)
    {
      assert SentEmail(cfg, s.touches, k);
      var a :| 0 <= a < |s.messages| && SentFor(s.messages[a], k);
      assert SentFor(r.messages[a], k);
    }
  }

  lemma RejectWorks(cfg: Config, s: EnrollState, step: nat, now: int, stop: bool)
    requires Inv(cfg, s) && AwaitsAt(s, step)
    ensures var touch := s.touches[FindTouch(s.touches, step).value];
      var t := touch.(status := TouchSkipped, skipReason := Some(SkipRejected));
      Worked(cfg, s, s.(touches := PutTouch(s.touches, t)), t)
  {
    hide PutTouch, Sendable, SendOutcome;
    AwaitingIsCurrent(cfg, s, step);
    var touch := s.touches[FindTouch(s.touches, step).value];
    PutTouchAt(s.touches, touch.(status := TouchSkipped, skipReason := Some(SkipRejected)));
  }

  lemma RejectInv(cfg: Config, s: EnrollState, step: nat, now: int, stop: bool)
    requires Inv(cfg, s)
    ensures Inv(cfg, Reject(cfg, s, step, now, stop).0)
  {
    hide PutTouch, Worked, FindTouch, Inv, AdvanceIt;
    if AwaitsAt(s, step) {
      RejectWorks(cfg, s, step, now, stop);
      var touch := s.touches[FindTouch(s.touches, step).value];
      var t := touch.(status := TouchSkipped, skipReason := Some(SkipRejected));
      var r := s.(touches := PutTouch(s.touches, t));
      if stop {
        EndInv(cfg, s, r, t, StopIt(r, Manual, now));
      } else {
        AdvanceInv(cfg, s, r, t, now);
      }
    }
  }
}
