/**
 Whole runs of an enrollment: safety of what is sent, at most once a step, the lifecycle columns,
 progress and spacing in time.
 */
module CadenceRuns {
  import opened Wrappers
  import opened Outbound
  import opened CadenceModel
  import opened CadenceTheorems

  lemma ApplyInv(cfg: Config, s: EnrollState, op: Op)
    requires Inv(cfg, s)
    ensures Inv(cfg, Apply(cfg, s, op))
  {
    hide Inv, Process, Approve, Reject;
    match op
    case Tick(now, input) =>
      if Due(s, now) {
        ProcessInv(cfg, s, now, input);
      }
    case Pause => SameRowsInv(cfg, s, Apply(cfg, s, op));
    case Resume(now) => SameRowsInv(cfg, s, Apply(cfg, s, op));
    case StopOp(now) => SameRowsInv(cfg, s, Apply(cfg, s, op));
    case ApproveOp(step, now, input) => ApproveInv(cfg, s, step, now, input);
    case RejectOp(step, now, stop) => RejectInv(cfg, s, step, now, stop);
  }

  /** The prefix invariant over every interleaving. */
  lemma {:induction false} InvEveryRun(cfg: Config, start: int, ops: seq<Op>)
    requires cfg.steps != []
    ensures Inv(cfg, ApplyAll(cfg, Enroll(cfg, start), ops))
    decreases |ops|
  {
    hide Inv, Apply, Enroll;
    EnrollInv(cfg, start);
    if ops != [] {
      InvEveryRun(cfg, start, ops[..|ops| - 1]);
      ApplyInv(cfg, ApplyAll(cfg, Enroll(cfg, start), ops[..|ops| - 1]), ops[|ops| - 1]);
    }
  }

  predicate SettledRow(touches: seq<Touch>, k: nat) {
    exists a :: 0 <= a < |touches| && touches[a].stepIndex == k && touches[a].status != TouchAwaiting
  }

  /**
   A message reported sent for the step that was grounded, past the policy, and not to an address found
   invalid at the send.
   */
  ghost predicate SafelySent(cfg: Config, messages: seq<Message>, step: nat) {
    exists a ::
      && 0 <= a < |messages| && SentFor(messages[a], step)
      && Sendable(messages[a].draft, cfg.sendRisky, cfg.bar)
      && !(HasAddress(messages[a].env) && messages[a].env.verdict == Invalid)
  }

  /**
   What the invariant says of the rows: one touch a step; every index below the current one settled;
   none above; a touch waits only at the current index; and behind every sent email touch there is a
   safely sent message.
   */
  lemma PrefixEveryRun(cfg: Config, start: int, ops: seq<Op>)
    requires cfg.steps != []
    ensures var s := ApplyAll(cfg, Enroll(cfg, start), ops);
      && (forall a, b :: 0 <= a < b < |s.touches| ==> s.touches[a].stepIndex != s.touches[b].stepIndex)
      && (forall k: nat :: k < s.index ==> SettledRow(s.touches, k))
      && (forall a :: 0 <= a < |s.touches| ==> s.touches[a].stepIndex <= s.index < |cfg.steps|)
      && (forall a :: 0 <= a < |s.touches| && s.touches[a].status == TouchAwaiting ==>
        s.touches[a].stepIndex == s.index)
      && (forall a :: 0 <= a < |s.touches| && s.touches[a].status == TouchSent ==>
            cfg.steps[s.touches[a].stepIndex].channel == Call || SafelySent(cfg, s.messages, s.touches[a].stepIndex))
  {
    hide ApplyAll, Enroll, Sendable, SendOutcome;
    InvEveryRun(cfg, start, ops);
    var s := ApplyAll(cfg, Enroll(cfg, start), ops);
    forall a | 0 <= a < |s.touches|
      ensures TouchAt(s.touches, s.touches[a].stepIndex) == Some(s.touches[a])
    {
      FindOnly(s.touches, a);
    }
    forall k: nat | k < s.index
      ensures SettledRow(s.touches, k)
    {
      assert Settled(TouchAt(s.touches, k));
      var a := FindTouch(s.touches, k).value;
      assert s.touches[a].stepIndex == k;
    }
    forall a | 0 <= a < |s.touches| && s.touches[a].status == TouchSent
      ensures s.touches[a].stepIndex < |cfg.steps|
      ensures cfg.steps[s.touches[a].stepIndex].channel == Call || SafelySent(cfg, s.messages, s.touches[a].stepIndex)
    {
      var k := s.touches[a].stepIndex;
      assert TouchAt(s.touches, k).Some?;
      if cfg.steps[k].channel == Email {
        assert SentEmail(cfg, s.touches, k);
        var i :| 0 <= i < |s.messages| && SentFor(s.messages[i], k);
        assert MessageOk(cfg, s, s.messages[i]);
        SendGates(Some(s.messages[i].draft), s.messages[i].env);
      }
    }
  }

  // ---- At most once ------------------------------------------------------------------------

  function Times(messages: seq<Message>, step: nat): nat {
    if messages == [] then 0
    else Times(messages[..|messages| - 1], step) + if messages[|messages| - 1].stepIndex == step then 1 else 0
  }

  /**
   An approval that gets as far as the push and then raises: after the push in the tool, or, with the
   message sent, on recording the outcome.
   */
  predicate Loses(s: EnrollState, step: nat, input: ApproveInput) {
    && AwaitsAt(s, step)
    && var touch := s.touches[FindTouch(s.touches, step).value];
       && input.campaignExists && touch.hasRun && input.runExists
       && Pushed(Some(ReviewedDraft(touch, input)), input.env)
       && (if FailsAfterPush(input.env) then input.env.crash == AfterPush else input.recordRaises)
  }

  /** How often this operation loses the step's message. */
  function LostIn(s: EnrollState, op: Op, step: nat): nat {
    if op.ApproveOp? && op.step == step && Loses(s, step, op.approval) then 1 else 0
  }

  function Lost(cfg: Config, s: EnrollState, ops: seq<Op>, step: nat): nat {
    if ops == [] then 0
    else
      Lost(cfg, s, ops[..|ops| - 1], step) + LostIn(ApplyAll(cfg, s, ops[..|ops| - 1]), ops[|ops| - 1], step)
  }

  /** An open step accounts for no message, a sent one for one, a skipped or failed one for at most one. */
  ghost predicate AccountedAt(cfg: Config, s: EnrollState, lost: nat, k: nat) {
    && Times(s.messages, k) >= lost + (if SentEmail(cfg, s.touches, k) then 1 else 0)
    && Times(s.messages, k) <= lost + (if Settled(TouchAt(s.touches, k)) then 1 else 0)
  }

  ghost predicate Accounted(cfg: Config, s: EnrollState, lost: nat -> nat) {
    forall k: nat :: AccountedAt(cfg, s, lost(k), k)
  }

  lemma TimesAppend(messages: seq<Message>, m: Message, k: nat)
    ensures Times(messages + [m], k) == Times(messages, k) + if m.stepIndex == k then 1 else 0
  {
    assert (messages + [m])[..|messages|] == messages;
  }

  lemma WorkedAccounted(cfg: Config, s: EnrollState, r: EnrollState, t: Touch, end: EnrollState, lost: nat -> nat)
    requires Accounted(cfg, s, lost) && Worked(cfg, s, r, t) && Open(TouchAt(s.touches, s.index))
    requires end.touches == r.touches && end.messages == r.messages
    ensures Accounted(cfg, end, lost)
  {
    hide TouchAt;
    forall k: nat
      ensures AccountedAt(cfg, end, lost(k), k)
    {
      assert AccountedAt(cfg, s, lost(k), k);
      if r.messages != s.messages {
        assert r.messages == s.messages + [r.messages[|s.messages|]];
        TimesAppend(s.messages, r.messages[|s.messages|], k);
      }
    }
  }

  lemma ProcessAccounted(cfg: Config, s: EnrollState, now: int, input: TickInput, lost: nat -> nat)
    requires Inv(cfg, s) && !Terminal(s.status) && Accounted(cfg, s, lost)
    ensures Accounted(cfg, Process(cfg, s, now, input), lost)
  {
    hide RunTouch, Worked, Accounted, RecordFailed, TouchAt, Passed;
    RunTouchWorks(cfg, s, now, input);
    var (r, action) := RunTouch(cfg, s, now, input);
    var end := Process(cfg, s, now, input);
    match action
    case Complete => SameAccounted(cfg, s, end, lost);
    case Advance =>
      var t :| Worked(cfg, s, r, t) && Settled(Some(t));
      WorkedAccounted(cfg, s, r, t, end, lost);
    case Stop(reason) =>
      if r == s {
        SameAccounted(cfg, s, end, lost);
      } else {
        var t :| Worked(cfg, s, r, t) && Settled(Some(t));
        WorkedAccounted(cfg, s, r, t, end, lost);
      }
    case Park =>
      var t :| Worked(cfg, s, r, t) && t.status == TouchAwaiting && Passed(cfg, t.draft) && t.hasRun;
      AwaitingUnsent(cfg, s, r, t);
      WorkedAccounted(cfg, s, r, t, end, lost);
    case Raise =>
      var t :| Worked(cfg, s, RecordFailed(r), t) && Settled(Some(t));
      WorkedAccounted(cfg, s, RecordFailed(r), t, end, lost);
  }

  lemma AwaitingUnsent(cfg: Config, s: EnrollState, r: EnrollState, t: Touch)
    requires Worked(cfg, s, r, t) && t.status == TouchAwaiting
    ensures r.messages == s.messages
  {
  }

  lemma SameAccounted(cfg: Config, s: EnrollState, end: EnrollState, lost: nat -> nat)
    requires Accounted(cfg, s, lost) && end.touches == s.touches && end.messages == s.messages
    ensures Accounted(cfg, end, lost)
  {
  }

  lemma ApplyAccounted(cfg: Config, s: EnrollState, op: Op, before: nat -> nat, after: nat -> nat)
    requires Inv(cfg, s) && Accounted(cfg, s, before)
    requires forall k: nat :: after(k) == before(k) + LostIn(s, op, k)
    ensures Accounted(cfg, Apply(cfg, s, op), after)
  {
    hide Process, Inv, Approve, Reject;
    if !op.ApproveOp? {
      match op
      case Tick(now, input) =>
        if Due(s, now) {
          ProcessAccounted(cfg, s, now, input, after);
        }
      case RejectOp(step, now, stop) => RejectAccounted(cfg, s, step, now, stop, after);
      case _ =>
    } else {
      ApproveAccounted(cfg, s, op, before, after);
    }
  }

  lemma RejectAccounted(cfg: Config, s: EnrollState, step: nat, now: int, stop: bool, lost: nat -> nat)
    requires Inv(cfg, s) && Accounted(cfg, s, lost)
    ensures Accounted(cfg, Reject(cfg, s, step, now, stop).0, lost)
  {
    hide PutTouch, Worked, FindTouch, Inv, Accounted;
    if AwaitsAt(s, step) {
      RejectWorks(cfg, s, step, now, stop);
      AwaitingIsCurrent(cfg, s, step);
      var touch := s.touches[FindTouch(s.touches, step).value];
      var t := touch.(status := TouchSkipped, skipReason := Some(SkipRejected));
      WorkedAccounted(cfg, s, s.(touches := PutTouch(s.touches, t)), t, Reject(cfg, s, step, now, stop).0, lost);
    }
  }

  lemma SameLost(cfg: Config, s: EnrollState, before: nat -> nat, after: nat -> nat)
    requires Accounted(cfg, s, before) && forall k: nat :: after(k) == before(k)
    ensures Accounted(cfg, s, after)
  {
    forall k: nat
      ensures AccountedAt(cfg, s, after(k), k)
    {
      assert AccountedAt(cfg, s, before(k), k);
    }
  }

  lemma ApproveAccounted(cfg: Config, s: EnrollState, op: Op, before: nat -> nat, after: nat -> nat)
    requires op.ApproveOp? && Inv(cfg, s) && Accounted(cfg, s, before)
    requires forall k: nat :: after(k) == before(k) + LostIn(s, op, k)
    ensures Accounted(cfg, Apply(cfg, s, op), after)
  {
    hide Worked, Sendable, SendOutcome, Pushed, FailsAfterPush, SendTouch, FindTouch, RecordFailed, Inv, TouchAt;
    hide Process, RunTouch, EmailStep, Reject, ReviewedDraft, Prefix, Accounted;
    var input := op.approval;
    var end := Apply(cfg, s, op);
    if !Loses(s, op.step, input) {
      SameLost(cfg, s, before, after);
    }
    if !AwaitsAt(s, op.step) {
      NothingToApprove(cfg, s, op.step, op.now, input);
      SameAccounted(cfg, s, end, after);
    } else {
      AwaitingIsCurrent(cfg, s, op.step);
      var touch := s.touches[FindTouch(s.touches, op.step).value];
      if !input.campaignExists || !touch.hasRun || !input.runExists {
        SameAccounted(cfg, s, end, after);
      } else {
        var draft := ReviewedDraft(touch, input);
        EditedStillPasses(cfg, touch, input);
        InvPrefix(cfg, s);
        SendTouchWorks(cfg, s, touch, draft, input.env, input.recordRaises, op.now);
        LosesIff(s, op.step, touch, input);
        var (r, action) := SendTouch(s, touch, draft, input.env, input.recordRaises, op.now);
        if action == Raise {
          RolledBackAccounted(cfg, s, end, Message(s.index, draft, input.env), Pushed(Some(draft), input.env),
            before, after);
        } else {
          WorkedAccounted(cfg, s, r, TouchAt(r.touches, s.index).value, end, after);
        }
      }
    }
  }

  /** The rows are back where they were; a message that was handed over is lost. */
  lemma RolledBackAccounted(cfg: Config, s: EnrollState, end: EnrollState, m: Message, lost: bool, before: nat -> nat,
      after: nat -> nat)
    requires Accounted(cfg, s, before) && end.touches == s.touches
    requires end.messages == s.messages + if lost then [m] else []
    requires forall k: nat :: after(k) == before(k) + if lost && k == m.stepIndex then 1 else 0
    ensures Accounted(cfg, end, after)
  {
    forall k: nat
      ensures AccountedAt(cfg, end, after(k), k)
    {
      assert AccountedAt(cfg, s, before(k), k);
      TimesAppend(s.messages, m, k);
      assert s.messages + [] == s.messages;
    }
  }

  lemma LosesIff(s: EnrollState, step: nat, touch: Touch, input: ApproveInput)
    requires AwaitsAt(s, step) && touch == s.touches[FindTouch(s.touches, step).value]
    requires input.campaignExists && touch.hasRun && input.runExists && !touch.draft.draftMode
    ensures var draft := ReviewedDraft(touch, input);
      Loses(s, step, input) <==> Pushed(Some(draft), input.env) && RaisesAfter(draft, input.env, input.recordRaises)
  {
  }

  /**
   At most once. While a step is open its message has been handed over exactly as often as an approval
   of it lost one; once its touch is sent, exactly once more; and a touch that was skipped or failed
   adds one at most. `Lost` counts, from the inputs alone, the approvals that raised after the push.
   */
  lemma SentAtMostOnce(cfg: Config, start: int, ops: seq<Op>, k: nat)
    requires cfg.steps != []
    ensures var s := ApplyAll(cfg, Enroll(cfg, start), ops);
      var n, lost := Times(s.messages, k), Lost(cfg, Enroll(cfg, start), ops, k);
      && (!Settled(TouchAt(s.touches, k)) ==> n == lost)
      && (SentEmail(cfg, s.touches, k) ==> n == lost + 1)
      && lost <= n <= lost + 1
  {
    RunAccounted(cfg, start, ops);
    var lost := (i: nat) => Lost(cfg, Enroll(cfg, start), ops, i);
    assert AccountedAt(cfg, ApplyAll(cfg, Enroll(cfg, start), ops), lost(k), k);
  }

  lemma {:induction false} RunAccounted(cfg: Config, start: int, ops: seq<Op>)
    requires cfg.steps != []
    ensures Accounted(cfg, ApplyAll(cfg, Enroll(cfg, start), ops), (k: nat) => Lost(cfg, Enroll(cfg, start), ops, k))
    decreases |ops|
  {
    hide Apply, LostIn, TouchAt, Inv;
    if ops != [] {
      var s0 := Enroll(cfg, start);
      var t := ApplyAll(cfg, s0, ops[..|ops| - 1]);
      RunAccounted(cfg, start, ops[..|ops| - 1]);
      InvEveryRun(cfg, start, ops[..|ops| - 1]);
      ApplyAccounted(cfg, t, ops[|ops| - 1],
        (k: nat) => Lost(cfg, s0, ops[..|ops| - 1], k), (k: nat) => Lost(cfg, s0, ops, k));
    } else {
      StartAccounted(cfg, start);
    }
  }

  lemma StartAccounted(cfg: Config, start: int)
    requires cfg.steps != []
    ensures Accounted(cfg, Enroll(cfg, start), (k: nat) => Lost(cfg, Enroll(cfg, start), [], k))
  {
  }

  const ONE_MAIL: Config := Config([CadenceStep(0, Email)], true, false, 0.0, 30)

  const GOOD: Composition := Composition(Some("c"), "s", "b", 1, Some((Valid, 1.0)))

  const CALM: SendEnv := SendEnv(Some("a"), Valid, Text(false, false), NoAccount, None, None, NoCrash)

  const WAITING: Touch := Touch(0, TouchAwaiting, true, Staged(GOOD), None, None)

  lemma FirstTickWaits()
    ensures Apply(ONE_MAIL, Enroll(ONE_MAIL, 0),
      Tick(0, TickInput(true, false, false, Composed(Some(GOOD)), CALM, false)))
      == Enroll(ONE_MAIL, 0).(status := Paused, touches := [WAITING])
  {
    assert FindTouch([], 0) == None;
  }

  lemma WaitingFound()
    ensures FindTouch([WAITING], 0) == Some(0)
  {
    assert [WAITING][..0] == [];
  }

  lemma RaisingApproval(s: EnrollState, crash: Crash, raises: bool)
    requires s.touches == [WAITING]
    requires crash == AfterPush || (crash == NoCrash && raises)
    ensures Apply(ONE_MAIL, s, ApproveOp(0, 0, ApproveInput(true, true, None, CALM.(crash := crash), raises)))
      == s.(messages := s.messages + [Message(0, Staged(GOOD), CALM.(crash := crash))])
  {
    WaitingFound();
    hide FindTouch, PutTouch;
  }

  lemma FineApproval(s: EnrollState)
    requires s.touches == [WAITING]
    ensures Apply(ONE_MAIL, s, ApproveOp(0, 0, ApproveInput(true, true, None, CALM, false))).messages
      == s.messages + [Message(0, Staged(GOOD), CALM)]
  {
    WaitingFound();
    hide FindTouch, PutTouch;
  }

  /**
   The allowance is real, in both its forms: an approval that raises after the push, in the tool or on
   recording the outcome, is rolled back and repeated, and two messages were handed over.
   */
  lemma RepeatedApprovalSendsTwice(crash: Crash, raises: bool)
    requires crash == AfterPush || (crash == NoCrash && raises)
    ensures var waiting :=
      Apply(ONE_MAIL, Enroll(ONE_MAIL, 0), Tick(0, TickInput(true, false, false, Composed(Some(GOOD)), CALM, false)));
      var raising := ApproveOp(0, 0, ApproveInput(true, true, None, CALM.(crash := crash), raises));
      var fine := ApproveOp(0, 0, ApproveInput(true, true, None, CALM, false));
      Times(Apply(ONE_MAIL, Apply(ONE_MAIL, waiting, raising), fine).messages, 0) == 2
  {
    FirstTickWaits();
    var s := Enroll(ONE_MAIL, 0).(status := Paused, touches := [WAITING]);
    var m, m' := Message(0, Staged(GOOD), CALM.(crash := crash)), Message(0, Staged(GOOD), CALM);
    assert s.messages == [];
    RaisingApproval(s, crash, raises);
    FineApproval(s.(messages := [m]));
    TimesAppend([], m, 0);
    TimesAppend([m], m', 0);
    assert [] + [m] == [m] && Times([], 0) == 0;
    hide Apply, Enroll, Times, Staged;
  }

  // ---- Lifecycle -------------------------------------------------------------------------

  /** `stop_reason` is set iff stopped, `completed_at` iff terminal. */
  predicate Lifecycle(s: EnrollState) {
    && (s.stopReason.Some? <==> s.status == Stopped)
    && (s.completedAt.Some? <==> Terminal(s.status))
  }

  predicate ReviewsTerminal(s: EnrollState, op: Op) {
    (op.ApproveOp? || op.RejectOp?) && Terminal(s.status)
  }

  lemma WorkKeepsColumns(cfg: Config, s: EnrollState, now: int, input: TickInput)
    requires Prefix(cfg, s) && !Terminal(s.status)
    ensures var (r, action) := RunTouch(cfg, s, now, input);
      r == s.(touches := r.touches, messages := r.messages, calls := r.calls)
  {
    hide PutTouch, FindTouch, SendOutcome, SendPolicy, Sendable, Staged;
  }

  lemma SendKeepsColumns(s: EnrollState, touch: Touch, draft: Draft, env: SendEnv, recordRaises: bool, now: int)
    ensures var r := SendTouch(s, touch, draft, env, recordRaises, now).0;
      r == s.(touches := r.touches, messages := r.messages)
    ensures SendTouch(s, touch, draft, env, recordRaises, now).1 in {Advance, Raise, Stop(Undeliverable)}
  {
    hide PutTouch, SendOutcome;
  }

  /** Reviews apart, the two columns always agree with the status, and a terminal enrollment is final. */
  lemma LifecycleKept(cfg: Config, s: EnrollState, op: Op)
    requires Inv(cfg, s) && Lifecycle(s) && !ReviewsTerminal(s, op)
    ensures Lifecycle(Apply(cfg, s, op))
    ensures Terminal(s.status) ==> Apply(cfg, s, op) == s
  {
    hide RunTouch, SendTouch, FindTouch, PutTouch, RecordFailed, Inv;
    match op
    case Tick(now, input) =>
      if Due(s, now) {
        InvPrefix(cfg, s);
        WorkKeepsColumns(cfg, s, now, input);
        FailKeepsColumns(RunTouch(cfg, s, now, input).0);
      }
    case ApproveOp(step, now, input) =>
      if AwaitsAt(s, step) {
        var touch := s.touches[FindTouch(s.touches, step).value];
        SendKeepsColumns(s, touch, ReviewedDraft(touch, input), input.env, input.recordRaises, now);
      }
    case _ =>
  }

  lemma FailKeepsColumns(s: EnrollState)
    ensures RecordFailed(s) == s.(touches := RecordFailed(s).touches)
  {
  }

  /** So in every run that reviews no terminal enrollment. */
  predicate NoTerminalReview(cfg: Config, s: EnrollState, ops: seq<Op>) {
    ops == [] ||
    (&& NoTerminalReview(cfg, s, ops[..|ops| - 1])
     && !ReviewsTerminal(ApplyAll(cfg, s, ops[..|ops| - 1]), ops[|ops| - 1]))
  }

  lemma {:induction false} LifecycleEveryRun(cfg: Config, start: int, ops: seq<Op>)
    requires cfg.steps != [] && NoTerminalReview(cfg, Enroll(cfg, start), ops)
    ensures Lifecycle(ApplyAll(cfg, Enroll(cfg, start), ops))
    decreases |ops|
  {
    hide Apply, Inv;
    if ops != [] {
      LifecycleEveryRun(cfg, start, ops[..|ops| - 1]);
      InvEveryRun(cfg, start, ops[..|ops| - 1]);
      LifecycleKept(cfg, ApplyAll(cfg, Enroll(cfg, start), ops[..|ops| - 1]), ops[|ops| - 1]);
    }
  }

  /**
   Under every operation, reviews included, a terminal enrollment is final exactly when no touch of it
   is still waiting for a reviewer.
   */
  lemma TerminalIsFinalIff(cfg: Config, s: EnrollState)
    requires Inv(cfg, s) && Terminal(s.status)
    ensures (forall op :: Apply(cfg, s, op) == s) <==> (forall k: nat :: !AwaitsAt(s, k))
  {
    hide Process, SendTouch, PutTouch;
    if k: nat :| AwaitsAt(s, k) {
      AwaitingIsCurrent(cfg, s, k);
      RejectWorks(cfg, s, k, 0, false);
      var op := RejectOp(k, 0, false);
      var t := Apply(cfg, s, op);
      assert TouchAt(t.touches, k) != TouchAt(s.touches, k);
    } else {
      forall op
        ensures Apply(cfg, s, op) == s
      {
      }
    }
  }

  /**
   A stop while a touch waits, then its approval: the message leaves after the stop, and with a step to
   come the enrollment is active again, its stop reason kept.
   */
  lemma StoppedEnrollmentRevives(cfg: Config, s: EnrollState, now: int, later: int, input: ApproveInput)
    requires Inv(cfg, s) && !Terminal(s.status) && AwaitsAt(s, s.index)
    requires input.campaignExists && input.runExists && !input.recordRaises
    requires var touch := s.touches[FindTouch(s.touches, s.index).value];
      SendOutcome(Some(ReviewedDraft(touch, input)), input.env) == Sent
    ensures var stopped := Apply(cfg, s, StopOp(now));
      var revived := Apply(cfg, stopped, ApproveOp(s.index, later, input));
      && stopped.status == Stopped
      && |revived.messages| == |s.messages| + 1
      && revived.stopReason == Some(Manual)
      && (if s.index + 1 < |cfg.steps|
        then revived.status == Active && revived.index == s.index + 1 && revived.completedAt == Some(now)
          else revived.status == Completed)
      && !Lifecycle(revived)
  {
    AwaitingIsCurrent(cfg, s, s.index);
    SendGates(Some(ReviewedDraft(s.touches[FindTouch(s.touches, s.index).value], input)), input.env);
    hide PutTouch, Sendable, SendOutcome, Pushed, FailsAfterPush;
  }

  /** A rejection revives it as well, without a message. */
  lemma RejectionRevives(cfg: Config, s: EnrollState, now: int, later: int)
    requires Inv(cfg, s) && !Terminal(s.status) && AwaitsAt(s, s.index) && s.index + 1 < |cfg.steps|
    ensures var stopped := Apply(cfg, s, StopOp(now));
      var revived := Apply(cfg, stopped, RejectOp(s.index, later, false));
      && stopped.status == Stopped
      && revived.status == Active && revived.index == s.index + 1 && revived.messages == s.messages
      && revived.stopReason == Some(Manual) && revived.completedAt == Some(now) && !Lifecycle(revived)
  {
    hide PutTouch, Sendable, SendOutcome;
  }

  // ---- Progress --------------------------------------------------------------------------

  /** One processed tick moves the index up by one, parks at it, or ends the enrollment. */
  lemma TickProgress(cfg: Config, s: EnrollState, now: int, input: TickInput)
    requires Inv(cfg, s) && Due(s, now)
    ensures var r := Process(cfg, s, now, input);
      || (r.status == Active && r.index == s.index + 1)
      || (r.status == Paused && r.index == s.index && AwaitsAt(r, r.index) && cfg.review)
      || (Terminal(r.status) && r.index == s.index)
  {
    hide RunTouch, RecordFailed, Passed, Inv, FindTouch;
    InvPrefix(cfg, s);
    WorkKeepsColumns(cfg, s, now, input);
    RunTouchWorks(cfg, s, now, input);
    var (r, action) := RunTouch(cfg, s, now, input);
    FailKeepsColumns(r);
    if action == Park {
      var t :| Worked(cfg, s, r, t) && t.status == TouchAwaiting && Passed(cfg, t.draft) && t.hasRun;
      assert TouchAt(r.touches, s.index) == Some(t);
    }
  }

  /** The processed ticks of a run: the index each one ran, and when. */
  function Marks(cfg: Config, s: EnrollState, ops: seq<Op>): seq<(nat, int)> {
    if ops == [] then []
    else
      var before := ApplyAll(cfg, s, ops[..|ops| - 1]);
      var op := ops[|ops| - 1];
      Marks(cfg, s, ops[..|ops| - 1]) + if op.Tick? && Due(before, op.now) then [(before.index, op.now)] else []
  }

  lemma NoReviewNoAwaiting(cfg: Config, s: EnrollState, step: nat)
    requires Inv(cfg, s) && !cfg.review
    ensures !AwaitsAt(s, step)
  {
    if AwaitsAt(s, step) {
      AwaitingIsCurrent(cfg, s, step);
    }
  }

  /**
   Progress: without review, whatever is paused, resumed or tried in between, the processed ticks
   number at most the steps, and once they are as many the enrollment is over.
   */
  lemma {:induction false} TerminalWithinSteps(cfg: Config, start: int, ops: seq<Op>)
    requires cfg.steps != [] && !cfg.review
    ensures var s := ApplyAll(cfg, Enroll(cfg, start), ops);
      var n := |Marks(cfg, Enroll(cfg, start), ops)|;
      && (if Terminal(s.status) then n <= s.index + 1 else n == s.index)
      && n <= |cfg.steps| && (n == |cfg.steps| ==> Terminal(s.status))
    decreases |ops|
  {
    hide Process, Inv, Approve, Reject, FindTouch;
    InvEveryRun(cfg, start, ops);
    InvPrefix(cfg, ApplyAll(cfg, Enroll(cfg, start), ops));
    if ops != [] {
      var s0 := Enroll(cfg, start);
      var before := ApplyAll(cfg, s0, ops[..|ops| - 1]);
      var op := ops[|ops| - 1];
      TerminalWithinSteps(cfg, start, ops[..|ops| - 1]);
      InvEveryRun(cfg, start, ops[..|ops| - 1]);
      match op
      case Tick(now, input) =>
        if Due(before, now) {
          TickProgress(cfg, before, now, input);
        }
      case ApproveOp(step, now, input) =>
        NoReviewNoAwaiting(cfg, before, step);
        NothingToApprove(cfg, before, step, now, input);
      case RejectOp(step, now, stop) =>
        NoReviewNoAwaiting(cfg, before, step);
        NothingToReject(cfg, before, step, now, stop);
      case _ =>
    }
  }

  lemma NothingToApprove(cfg: Config, s: EnrollState, step: nat, now: int, input: ApproveInput)
    requires !AwaitsAt(s, step)
    ensures Approve(cfg, s, step, now, input) == (s, Some(NothingAwaiting))
  {
    hide SendTouch;
  }

  lemma NothingToReject(cfg: Config, s: EnrollState, step: nat, now: int, stop: bool)
    requires !AwaitsAt(s, step)
    ensures Reject(cfg, s, step, now, stop) == (s, Some(NothingAwaiting))
  {
  }

  // ---- Spacing ---------------------------------------------------------------------------

  function TimeOf(op: Op): Option<int> {
    match op
    case Pause => None
    case Tick(now, _) => Some(now)
    case Resume(now) => Some(now)
    case StopOp(now) => Some(now)
    case ApproveOp(_, now, _) => Some(now)
    case RejectOp(_, now, _) => Some(now)
  }

  /** The clock after the operations, and that it never ran backwards. */
  function Clock(start: int, ops: seq<Op>): int {
    if ops == [] then start
    else
      match TimeOf(ops[|ops| - 1])
      case Some(t) => t
      case None => Clock(start, ops[..|ops| - 1])
  }

  predicate ClockForward(start: int, ops: seq<Op>) {
    ops == [] ||
    (&& ClockForward(start, ops[..|ops| - 1])
     && Clock(start, ops[..|ops| - 1]) <= Clock(start, ops))
  }

  predicate NoResume(ops: seq<Op>) {
    forall k :: 0 <= k < |ops| ==> !ops[k].Resume?
  }

  /** The next touch waits out the current step's delay after any tick of the step before it. */
  predicate Spaced(cfg: Config, s: EnrollState, marks: seq<(nat, int)>, clock: int)
    requires s.index < |cfg.steps|
  {
    && (forall p :: 0 <= p < |marks| ==> marks[p].0 <= s.index && marks[p].1 <= clock)
    && (forall p :: 0 <= p < |marks| && marks[p].0 + 1 == s.index ==>
          s.nextTouchAt >= marks[p].1 + cfg.steps[s.index].delayDays * DAY)
  }

  /** An operation other than a resume leaves index and due time alone, or advances from its own time. */
  lemma ApplyMoves(cfg: Config, s: EnrollState, op: Op)
    requires Inv(cfg, s) && !op.Resume?
    ensures var r := Apply(cfg, s, op);
      || (r.index == s.index && r.nextTouchAt == s.nextTouchAt)
      || (TimeOf(op).Some? && r.index == s.index + 1 < |cfg.steps|
          && r.nextTouchAt == TimeOf(op).value + cfg.steps[r.index].delayDays * DAY)
  {
    hide RunTouch, SendTouch, FindTouch, PutTouch, RecordFailed, Inv;
    match op
    case Tick(now, input) =>
      if Due(s, now) {
        InvPrefix(cfg, s);
        WorkKeepsColumns(cfg, s, now, input);
        FailKeepsColumns(RunTouch(cfg, s, now, input).0);
      }
    case ApproveOp(step, now, input) =>
      if AwaitsAt(s, step) {
        var touch := s.touches[FindTouch(s.touches, step).value];
        SendKeepsColumns(s, touch, ReviewedDraft(touch, input), input.env, input.recordRaises, now);
      }
    case _ =>
  }

  /**
   Spacing: with a clock that does not run backwards and no resume, the tick that runs step k+1 comes
   at least that step's delay after every tick that ran step k, reviews in between included.
   */
  lemma {:induction false} StepsAreSpaced(cfg: Config, start: int, ops: seq<Op>)
    requires cfg.steps != [] && ClockForward(start, ops) && NoResume(ops)
    ensures var s := ApplyAll(cfg, Enroll(cfg, start), ops);
      var marks := Marks(cfg, Enroll(cfg, start), ops);
      && s.index < |cfg.steps| && Spaced(cfg, s, marks, Clock(start, ops))
      && (forall p, q :: 0 <= p < q < |marks| && marks[p].0 + 1 == marks[q].0 ==>
            marks[q].0 < |cfg.steps| && marks[q].1 >= marks[p].1 + cfg.steps[marks[q].0].delayDays * DAY)
    decreases |ops|
  {
    hide Apply, Inv;
    InvEveryRun(cfg, start, ops);
    InvPrefix(cfg, ApplyAll(cfg, Enroll(cfg, start), ops));
    if ops != [] {
      var front := ops[..|ops| - 1];
      var op := ops[|ops| - 1];
      var s0 := Enroll(cfg, start);
      var before := ApplyAll(cfg, s0, front);
      StepsAreSpaced(cfg, start, front);
      InvEveryRun(cfg, start, front);
      ApplyMoves(cfg, before, op);
      var marks := Marks(cfg, s0, ops);
      assert forall p :: 0 <= p < |Marks(cfg, s0, front)| ==> marks[p] == Marks(cfg, s0, front)[p];
    }
  }

  /** The first step waits out its own delay from the enrollment on, reviews and pauses in between included. */
  lemma {:induction false} FirstTouchWaits(cfg: Config, start: int, ops: seq<Op>)
    requires cfg.steps != [] && NoResume(ops)
    ensures var s := ApplyAll(cfg, Enroll(cfg, start), ops);
      var due := start + cfg.steps[0].delayDays * 86400;
      && s.startedAt == start
      && (s.index == 0 ==> s.nextTouchAt == due)
      && (forall p :: 0 <= p < |Marks(cfg, Enroll(cfg, start), ops)| ==>
            Marks(cfg, Enroll(cfg, start), ops)[p].0 == 0 ==> Marks(cfg, Enroll(cfg, start), ops)[p].1 >= due)
    decreases |ops|
  {
    hide Apply, Inv;
    if ops != [] {
      var front, op := ops[..|ops| - 1], ops[|ops| - 1];
      var before := ApplyAll(cfg, Enroll(cfg, start), front);
      FirstTouchWaits(cfg, start, front);
      InvEveryRun(cfg, start, front);
      ApplyMoves(cfg, before, op);
      StartStays(cfg, before, op);
    }
  }

  lemma StartStays(cfg: Config, s: EnrollState, op: Op)
    requires Inv(cfg, s)
    ensures Apply(cfg, s, op).startedAt == s.startedAt
  {
    hide RunTouch, SendTouch, FindTouch, PutTouch, RecordFailed, Inv;
    match op
    case Tick(now, input) =>
      if Due(s, now) {
        InvPrefix(cfg, s);
        WorkKeepsColumns(cfg, s, now, input);
        FailKeepsColumns(RunTouch(cfg, s, now, input).0);
      }
    case ApproveOp(step, now, input) =>
      if AwaitsAt(s, step) {
        var touch := s.touches[FindTouch(s.touches, step).value];
        SendKeepsColumns(s, touch, ReviewedDraft(touch, input), input.env, input.recordRaises, now);
      }
    case _ =>
  }
}
