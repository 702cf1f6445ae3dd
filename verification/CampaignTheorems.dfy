/**
 Properties of campaigns over every sequence of draft jobs, approvals, send jobs and cancels: targets
 only climb, each is sent or enrolled at most once, what is sent passed every gate, and the final
 report adds up.
 */
module CampaignTheorems {
  import opened Wrappers
  import opened Outbound
  import opened CampaignModel

  /** A target the draft phase let through: classified sendable, and its run is known. */
  predicate Classified(t: Target) {
    Classify(t.draft) == None && t.runId.Some? && !t.draft.draftMode
  }

  predicate TargetOk(t: Target) {
    && t.status != TargetDrafting
    && (t.status in {TargetDrafted, TargetApproved, TargetSent} ==> Classified(t))
    && (t.status == TargetSkipped ==> t.skipReason.Some?)
  }

  predicate TargetsOk(targets: seq<Target>) {
    forall k :: 0 <= k < |targets| ==> TargetOk(targets[k])
  }

  /** The tool reported the message as sent. */
  predicate ReportedSent(d: Delivery) {
    SendOutcome(Some(d.draft), d.env) == Sent
  }

  /**
   A delivery on record: of a target the send loop is done with, of its draft, past the policy and every
   gate of the tool; the target is sent exactly if the tool said so.
   */
  predicate DeliveryOk(cfg: Config, targets: seq<Target>, d: Delivery) {
    && d.target < |targets|
    && targets[d.target].status in {TargetSent, TargetSkipped, TargetFailed}
    && d.draft == targets[d.target].draft && Classified(targets[d.target])
    && SendPolicy(d.draft, cfg.sendRisky, cfg.bar) == None
    && Pushed(Some(d.draft), d.env)
    && (ReportedSent(d) <==> targets[d.target].status == TargetSent)
  }

  ghost predicate DeliveriesOk(cfg: Config, s: CampaignState) {
    && (forall a :: 0 <= a < |s.deliveries| ==> DeliveryOk(cfg, s.targets, s.deliveries[a]))
    && (forall a, b :: 0 <= a < b < |s.deliveries| ==> s.deliveries[a].target != s.deliveries[b].target)
    && (forall k :: 0 <= k < |s.targets| && s.targets[k].status == TargetSent ==>
          exists a :: 0 <= a < |s.deliveries| && s.deliveries[a].target == k)
  }

  ghost predicate EnrollmentsOk(s: CampaignState) {
    && (forall a :: 0 <= a < |s.enrollments| ==>
          s.enrollments[a] < |s.targets| && s.targets[s.enrollments[a]].status == TargetApproved)
    && (forall a, b :: 0 <= a < b < |s.enrollments| ==> s.enrollments[a] != s.enrollments[b])
    && (forall k :: 0 <= k < |s.targets| && s.targets[k].status == TargetApproved ==> k in s.enrollments)
  }

  predicate NoneIs(targets: seq<Target>, status: TargetStatus) {
    forall k :: 0 <= k < |targets| ==> targets[k].status != status
  }

  /** Which statuses a campaign's phase allows its targets. */
  predicate Phase(cfg: Config, s: CampaignState) {
    && s.status in {DraftPending, AwaitingReview, Sending, CampCompleted, CampCancelled}
    && (s.status in {AwaitingReview, Sending, CampCompleted} ==> NoneIs(s.targets, TargetPending))
    && (s.status in {Sending, CampCompleted} ==> NoneIs(s.targets, TargetDrafted))
    && (s.status == Sending ==> cfg.hasCadence)
    && (s.status == CampCompleted ==> !cfg.hasCadence)
    && (!cfg.hasCadence ==> NoneIs(s.targets, TargetApproved))
    && (s.status != DraftPending ==> s.report == Some(BuildReport(s.targets)))
  }

  ghost predicate Rows(cfg: Config, s: CampaignState) {
    TargetsOk(s.targets) && DeliveriesOk(cfg, s) && EnrollmentsOk(s)
  }

  ghost predicate Inv(cfg: Config, s: CampaignState) {
    Rows(cfg, s) && Phase(cfg, s)
  }

  function Rank(s: TargetStatus): nat {
    match s
    case TargetPending => 0
    case TargetDrafting => 1
    case TargetDrafted => 2
    case TargetApproved => 3
    case TargetSent => 4
    case TargetSkipped => 4
    case TargetFailed => 4
  }

  /** A target only climbs, and at the top it is frozen. */
  predicate Climbs(t: Target, u: Target) {
    && Rank(t.status) <= Rank(u.status)
    && (Rank(t.status) == 4 ==> u == t)
  }

  predicate AllClimb(s: CampaignState, r: CampaignState) {
    |r.targets| == |s.targets| && forall k :: 0 <= k < |s.targets| ==> Climbs(s.targets[k], r.targets[k])
  }

  // ---- One target ------------------------------------------------------------------------

  lemma DraftOneOk(cfg: Config, t: Target, input: DraftInput)
    requires t.status == TargetPending
    ensures var u := DraftOne(cfg, t, input);
      TargetOk(u) && u.status in {TargetDrafted, TargetSkipped, TargetFailed}
  {
  }

  lemma SendOneOk(cfg: Config, t: Target, input: SendInput)
    requires t.status == TargetDrafted && TargetOk(t)
    ensures var u := SendOne(cfg, t, input);
      && TargetOk(u) && u.status in {TargetSent, TargetSkipped, TargetFailed} && u.draft == t.draft
      && (u.status == TargetSent <==> Goes(cfg, t, input)) && u.runId == t.runId
      && (Goes(cfg, t, input) ==> Hands(cfg, t, input))
      && (Hands(cfg, t, input) ==>
            && Pushed(Some(t.draft), input.env)
            && (SendOutcome(Some(t.draft), input.env) == Sent <==> u.status == TargetSent))
  {
  }

  // ---- The phases ------------------------------------------------------------------------

  lemma DraftPhaseOk(cfg: Config, s: CampaignState, inputs: nat -> DraftInput)
    requires Rows(cfg, s)
    ensures var r := DraftPhase(cfg, s, inputs);
      && Rows(cfg, r) && AllClimb(s, r) && NoneIs(r.targets, TargetPending)
      && (NoneIs(s.targets, TargetApproved) ==> NoneIs(r.targets, TargetApproved))
  {
    hide DraftOne, BuildReport, TargetOk;
    var r := DraftPhase(cfg, s, inputs);
    forall k: nat | k < |s.targets|
      ensures s.targets[k].status != TargetPending ==> r.targets[k] == s.targets[k]
      ensures s.targets[k].status == TargetPending ==>
        r.targets[k].status in {TargetDrafted, TargetSkipped, TargetFailed}
      ensures TargetOk(r.targets[k])
    {
      if s.targets[k].status == TargetPending {
        DraftOneOk(cfg, s.targets[k], inputs(k));
      }
    }
    forall k | 0 <= k < |r.targets| && r.targets[k].status == TargetSent
      ensures exists a :: 0 <= a < |r.deliveries| && r.deliveries[a].target == k
    {
      assert s.targets[k].status == TargetSent;
    }
  }

  /** One turn of the send loop. */
  lemma SendTurn(cfg: Config, s: CampaignState, k: nat, input: SendInput)
    requires Rows(cfg, s) && k < |s.targets| && s.targets[k].status == TargetDrafted
    ensures var t := s.targets[k];
      var s1 := s.(targets := s.targets[k := SendOne(cfg, t, input)]);
      var r := if Hands(cfg, t, input)
        then s1.(deliveries := s1.deliveries + [Delivery(k, t.draft, input.env)]) else s1;
      Rows(cfg, r)
  {
    hide SendOne, Goes, Hands, SendOutcome, Pushed, SendPolicy, Classify;
    var t := s.targets[k];
    SendOneOk(cfg, t, input);
    if Hands(cfg, t, input) {
      HandsPolicy(cfg, t, input);
    }
    var s1 := s.(targets := s.targets[k := SendOne(cfg, t, input)]);
    var r := if Hands(cfg, t, input) then s1.(deliveries := s1.deliveries + [Delivery(k, t.draft, input.env)]) else s1;
    forall j | 0 <= j < |r.targets| && r.targets[j].status == TargetSent
      ensures exists a :: 0 <= a < |r.deliveries| && r.deliveries[a].target == j
    {
      if j == k {
        assert r.deliveries[|s.deliveries|].target == k;
      } else {
        var a :| 0 <= a < |s.deliveries| && s.deliveries[a].target == j;
        assert r.deliveries[a].target == j;
      }
    }
    forall a | 0 <= a < |r.deliveries|
      ensures DeliveryOk(cfg, r.targets, r.deliveries[a])
    {
      if a < |s.deliveries| {
        assert r.deliveries[a] == s.deliveries[a] && DeliveryOk(cfg, s.targets, s.deliveries[a]);
      }
    }
  }

  lemma HandsPolicy(cfg: Config, t: Target, input: SendInput)
    requires Hands(cfg, t, input)
    ensures SendPolicy(t.draft, cfg.sendRisky, cfg.bar) == None
  {
  }

  lemma {:induction false} SendFromOk(cfg: Config, s: CampaignState, k: nat, inputs: nat -> SendInput)
    requires Rows(cfg, s) && k <= |s.targets|
    ensures var r := SendFrom(cfg, s, k, inputs);
      && Rows(cfg, r) && AllClimb(s, r) && r.enrollments == s.enrollments
      && (forall j :: 0 <= j < |s.targets| && (j < k || s.targets[j].status != TargetDrafted) ==>
        r.targets[j] == s.targets[j])
      && (forall j :: k <= j < |r.targets| && s.targets[j].status == TargetDrafted ==>
            r.targets[j].status in {TargetSent, TargetSkipped, TargetFailed})
    decreases |s.targets| - k
  {
    hide SendOne, Goes, Hands, Rows;
    if k < |s.targets| {
      if s.targets[k].status != TargetDrafted {
        SendFromOk(cfg, s, k + 1, inputs);
      } else {
        var t := s.targets[k];
        SendTurn(cfg, s, k, inputs(k));
        RowsTarget(cfg, s, k);
        SendOneOk(cfg, t, inputs(k));
        var s1 := s.(targets := s.targets[k := SendOne(cfg, t, inputs(k))]);
        var s2 := if Hands(cfg, t, inputs(k))
          then s1.(deliveries := s1.deliveries + [Delivery(k, t.draft, inputs(k).env)]) else s1;
        SendFromOk(cfg, s2, k + 1, inputs);
      }
    }
  }

  lemma RowsTarget(cfg: Config, s: CampaignState, k: nat)
    requires Rows(cfg, s) && k < |s.targets|
    ensures TargetOk(s.targets[k])
  {
  }

  lemma {:induction false} EnrollFromOk(cfg: Config, s: CampaignState, k: nat)
    requires Rows(cfg, s) && k <= |s.targets|
    ensures var r := EnrollFrom(s, k);
      && Rows(cfg, r) && AllClimb(s, r) && r.deliveries == s.deliveries
      && (forall j :: 0 <= j < |s.targets| && (j < k || s.targets[j].status != TargetDrafted) ==>
        r.targets[j] == s.targets[j])
      && (forall j :: k <= j < |r.targets| && s.targets[j].status == TargetDrafted ==>
        r.targets[j].status == TargetApproved)
    decreases |s.targets| - k
  {
    hide TargetsOk, DeliveriesOk, EnrollmentsOk;
    if k < |s.targets| {
      if s.targets[k].status != TargetDrafted {
        EnrollFromOk(cfg, s, k + 1);
      } else {
        var s1 := s.(
          targets := s.targets[k := s.targets[k].(status := TargetApproved)], enrollments := s.enrollments + [k]);
        EnrollTurn(cfg, s, k);
        hide Rows;
        EnrollFromOk(cfg, s1, k + 1);
      }
    }
  }

  lemma EnrollTurn(cfg: Config, s: CampaignState, k: nat)
    requires Rows(cfg, s) && k < |s.targets| && s.targets[k].status == TargetDrafted
    ensures Rows(cfg, s.(
      targets := s.targets[k := s.targets[k].(status := TargetApproved)], enrollments := s.enrollments + [k]))
  {
    hide SendOutcome, SendPolicy;
    var r := s.(targets := s.targets[k := s.targets[k].(status := TargetApproved)], enrollments := s.enrollments + [k]);
    forall j | 0 <= j < |r.targets| && r.targets[j].status == TargetSent
      ensures exists a :: 0 <= a < |r.deliveries| && r.deliveries[a].target == j
    {
      assert s.targets[j].status == TargetSent;
    }
    assert r.enrollments[|s.enrollments|] == k;
  }

  // ---- Every run -------------------------------------------------------------------------

  lemma ApplyOk(cfg: Config, s: CampaignState, op: Op)
    requires Inv(cfg, s)
    ensures Inv(cfg, Apply(cfg, s, op)) && AllClimb(s, Apply(cfg, s, op))
  {
    hide Rows, SendFrom, EnrollFrom, BuildReport, DraftAll;
    match op
    case DraftJob(drafts) => DraftPhaseOk(cfg, s, drafts);
    case ApproveRequest(sends, _) =>
      if s.status == AwaitingReview {
        if cfg.hasCadence {
          EnrollFromOk(cfg, s, 0);
          RowsStatus(cfg, EnrollFrom(s, 0), EnrollPhase(s));
        } else {
          SendFromOk(cfg, s, 0, sends);
          RowsStatus(cfg, SendFrom(cfg, s, 0, sends), SendPhase(cfg, s, sends));
        }
      }
    case SendJob(_) =>
    case CancelRequest => RowsStatus(cfg, s, Apply(cfg, s, op));
  }

  lemma RowsStatus(cfg: Config, s: CampaignState, r: CampaignState)
    requires Rows(cfg, s)
    requires r.targets == s.targets && r.deliveries == s.deliveries && r.enrollments == s.enrollments
    ensures Rows(cfg, r)
  {
  }

  lemma CreateOk(cfg: Config, accounts: nat)
    ensures Inv(cfg, Create(accounts))
  {
  }

  lemma {:induction false} InvEveryRun(cfg: Config, accounts: nat, ops: seq<Op>)
    ensures Inv(cfg, ApplyAll(cfg, Create(accounts), ops))
    decreases |ops|
  {
    hide Inv, Apply, Create;
    CreateOk(cfg, accounts);
    if ops != [] {
      InvEveryRun(cfg, accounts, ops[..|ops| - 1]);
      ApplyOk(cfg, ApplyAll(cfg, Create(accounts), ops[..|ops| - 1]), ops[|ops| - 1]);
    }
  }

  lemma {:induction false} ClimbsEveryRun(cfg: Config, s: CampaignState, ops: seq<Op>)
    requires Inv(cfg, s)
    ensures Inv(cfg, ApplyAll(cfg, s, ops)) && AllClimb(s, ApplyAll(cfg, s, ops))
    decreases |ops|
  {
    hide Inv, Apply;
    if ops != [] {
      var t := ApplyAll(cfg, s, ops[..|ops| - 1]);
      ClimbsEveryRun(cfg, s, ops[..|ops| - 1]);
      ApplyOk(cfg, t, ops[|ops| - 1]);
    }
  }

  /** How often target k went out: sent, or handed to a cadence. */
  function TimesOut(s: CampaignState, k: nat): nat {
    TimesSent(s.deliveries, k) + TimesEnrolled(s.enrollments, k)
  }

  function TimesSent(deliveries: seq<Delivery>, k: nat): nat {
    if deliveries == [] then 0
    else TimesSent(deliveries[..|deliveries| - 1], k) + if deliveries[|deliveries| - 1].target == k then 1 else 0
  }

  function TimesEnrolled(enrollments: seq<nat>, k: nat): nat {
    if enrollments == [] then 0
    else TimesEnrolled(enrollments[..|enrollments| - 1], k) + if enrollments[|enrollments| - 1] == k then 1 else 0
  }

  lemma {:induction false} SentCount(deliveries: seq<Delivery>, k: nat)
    requires forall a, b :: 0 <= a < b < |deliveries| ==> deliveries[a].target != deliveries[b].target
    ensures TimesSent(deliveries, k) == if exists a :: 0 <= a < |deliveries| && deliveries[a].target == k then 1 else 0
    decreases |deliveries|
  {
    if deliveries != [] {
      var front := deliveries[..|deliveries| - 1];
      SentCount(front, k);
      if a :| 0 <= a < |front| && front[a].target == k {
        assert deliveries[a].target == k;
      }
      if a :| 0 <= a < |deliveries| && deliveries[a].target == k {
        assert a < |front| ==> front[a].target == k;
      }
    }
  }

  lemma {:induction false} EnrolledCount(enrollments: seq<nat>, k: nat)
    requires forall a, b :: 0 <= a < b < |enrollments| ==> enrollments[a] != enrollments[b]
    ensures TimesEnrolled(enrollments, k) == if k in enrollments then 1 else 0
    decreases |enrollments|
  {
    if enrollments != [] {
      var front := enrollments[..|enrollments| - 1];
      EnrolledCount(front, k);
      assert k in enrollments <==> k in front || enrollments[|enrollments| - 1] == k;
      if k in front {
        var a :| 0 <= a < |front| && front[a] == k;
        assert enrollments[a] == k;
      }
    }
  }

  /**
   At most once: whatever jobs are re-run and whatever is approved or cancelled, in whatever order, a
   target has gone out once if it is sent or approved, not yet if it is still to be decided, and at most
   once if it was skipped or failed, which a send can still be after the push.
   */
  lemma OutAtMostOnce(cfg: Config, accounts: nat, ops: seq<Op>, k: nat)
    ensures var s := ApplyAll(cfg, Create(accounts), ops);
      && TimesOut(s, k) <= 1
      && (k < |s.targets| && s.targets[k].status in {TargetSent, TargetApproved} ==> TimesOut(s, k) == 1)
      && (k >= |s.targets| || s.targets[k].status in {TargetPending, TargetDrafting, TargetDrafted} ==>
        TimesOut(s, k) == 0)
  {
    hide ApplyAll, Create, SendPolicy, SendOutcome, Pushed, BuildReport, Classify;
    InvEveryRun(cfg, accounts, ops);
    var s := ApplyAll(cfg, Create(accounts), ops);
    SentCount(s.deliveries, k);
    EnrolledCount(s.enrollments, k);
    if a :| 0 <= a < |s.deliveries| && s.deliveries[a].target == k {
      assert DeliveryOk(cfg, s.targets, s.deliveries[a]);
    }
  }

  /**
   Send safety: every message a campaign handed over went to a contact with a verdict, from a grounded
   draft the send policy let through, to an address that was not invalid when it was checked again; its
   target is sent exactly if nothing failed after the push.
   */
  lemma SentIsSafe(cfg: Config, accounts: nat, ops: seq<Op>, a: nat)
    ensures var s := ApplyAll(cfg, Create(accounts), ops);
      a < |s.deliveries| ==>
        var d := s.deliveries[a];
        && d.target < |s.targets| && s.targets[d.target].draft == d.draft
        && (s.targets[d.target].status == TargetSent <==> !FailsAfterPush(d.env))
        && Sendable(d.draft, cfg.sendRisky, cfg.bar)
        && d.draft.contactId.Some? && d.draft.emailStatus.Some?
        && !(HasAddress(d.env) && d.env.verdict == Invalid)
  {
    hide ApplyAll, Create, BuildReport;
    InvEveryRun(cfg, accounts, ops);
    var s := ApplyAll(cfg, Create(accounts), ops);
    if a < |s.deliveries| {
      var d := s.deliveries[a];
      assert DeliveryOk(cfg, s.targets, d);
      SendGates(Some(d.draft), d.env);
      PolicyMeansSendable(d.draft, cfg.sendRisky, cfg.bar);
    }
  }

  // ---- Conservation ----------------------------------------------------------------------

  function Entry(table: map<SkipReason, nat>, reason: SkipReason): nat {
    if reason in table then table[reason] else 0
  }

  function TableSum(table: map<SkipReason, nat>): nat {
    Entry(table, SkipNoContact) + Entry(table, SkipUngrounded) + Entry(table, SkipUndeliverable)
    + Entry(table, SkipResearchFailed) + Entry(table, SkipUnverified) + Entry(table, SkipRisky)
    + Entry(table, SkipRejected)
  }

  lemma {:induction false} CountsAddUp(targets: seq<Target>)
    requires forall k :: 0 <= k < |targets| ==> targets[k].status in {TargetSent, TargetSkipped, TargetFailed}
    ensures |targets| == Count(targets, TargetSent) + Count(targets, TargetSkipped) + Count(targets, TargetFailed)
    ensures Count(targets, TargetDrafted) == 0
    decreases |targets|
  {
    if targets != [] {
      CountsAddUp(targets[..|targets| - 1]);
    }
  }

  lemma {:induction false} ReasonsAddUp(targets: seq<Target>)
    requires forall k :: 0 <= k < |targets| && targets[k].status == TargetSkipped ==> targets[k].skipReason.Some?
    ensures Count(targets, TargetSkipped) ==
      CountReason(targets, SkipNoContact) + CountReason(targets, SkipUngrounded)
      + CountReason(targets, SkipUndeliverable) + CountReason(targets, SkipResearchFailed)
      + CountReason(targets, SkipUnverified) + CountReason(targets, SkipRisky)
      + CountReason(targets, SkipRejected)
    decreases |targets|
  {
    if targets != [] {
      ReasonsAddUp(targets[..|targets| - 1]);
      var last := targets[|targets| - 1];
      if last.status == TargetSkipped {
        match last.skipReason.value {
          case SkipNoContact => case SkipUngrounded => case SkipUndeliverable => case SkipResearchFailed =>
          case SkipUnverified => case SkipRisky => case SkipRejected =>
        }
      }
    }
  }

  /** Whatever the run, a report's reason table adds up to its skip count. */
  lemma SkipsAddUp(cfg: Config, accounts: nat, ops: seq<Op>)
    ensures var s := ApplyAll(cfg, Create(accounts), ops);
      s.report.Some? ==> TableSum(s.report.value.skips) == s.report.value.skipped
  {
    hide ApplyAll, Create, Rows, Count, CountReason;
    InvEveryRun(cfg, accounts, ops);
    var s := ApplyAll(cfg, Create(accounts), ops);
    if s.report.Some? {
      ReportIsCurrent(cfg, accounts, ops);
      RowsReasons(cfg, s);
      ReasonsAddUp(s.targets);
    }
  }

  lemma RowsReasons(cfg: Config, s: CampaignState)
    requires Rows(cfg, s)
    ensures forall k :: 0 <= k < |s.targets| && s.targets[k].status == TargetSkipped ==> s.targets[k].skipReason.Some?
  {
  }

  lemma {:induction false} ReportIsCurrent(cfg: Config, accounts: nat, ops: seq<Op>)
    ensures var s := ApplyAll(cfg, Create(accounts), ops);
      s.report.Some? ==> s.report == Some(BuildReport(s.targets))
    decreases |ops|
  {
    hide SendFrom, EnrollFrom, DraftAll, BuildReport;
    if ops != [] {
      ReportIsCurrent(cfg, accounts, ops[..|ops| - 1]);
    }
  }

  /** After a plain campaign completes, every target is accounted for. */
  lemma CompletedReportAddsUp(cfg: Config, accounts: nat, ops: seq<Op>)
    ensures var s := ApplyAll(cfg, Create(accounts), ops);
      s.status == CampCompleted ==>
        && s.report.Some?
        && s.report.value.total == s.report.value.sent + s.report.value.skipped + s.report.value.failed
        && s.report.value.drafted == 0
        && s.report.value.sent == |Reported(s.deliveries)|
  {
    hide ApplyAll, Create, CountReason, SendPolicy, SendOutcome, Pushed, Count;
    InvEveryRun(cfg, accounts, ops);
    var s := ApplyAll(cfg, Create(accounts), ops);
    if s.status == CampCompleted {
      forall k | 0 <= k < |s.targets|
        ensures s.targets[k].status in {TargetSent, TargetSkipped, TargetFailed}
      {
        assert TargetOk(s.targets[k]);
      }
      CountsAddUp(s.targets);
      ReportedAreSent(cfg, s);
    }
  }

  /** The deliveries the tool reported as sent. */
  function Reported(deliveries: seq<Delivery>): (r: seq<Delivery>)
    ensures forall a :: 0 <= a < |r| ==> r[a] in deliveries && ReportedSent(r[a])
  {
    if deliveries == [] then []
    else
      var last := deliveries[|deliveries| - 1];
      Reported(deliveries[..|deliveries| - 1]) + if ReportedSent(last) then [last] else []
  }

  lemma {:induction false} ReportedAll(deliveries: seq<Delivery>, a: nat)
    requires a < |deliveries| && ReportedSent(deliveries[a])
    ensures deliveries[a] in Reported(deliveries)
    decreases |deliveries|
  {
    if a < |deliveries| - 1 {
      ReportedAll(deliveries[..|deliveries| - 1], a);
    }
  }

  lemma {:induction false} ReportedDistinct(deliveries: seq<Delivery>)
    requires forall a, b :: 0 <= a < b < |deliveries| ==> deliveries[a].target != deliveries[b].target
    ensures forall a, b :: 0 <= a < b < |Reported(deliveries)| ==>
      Reported(deliveries)[a].target != Reported(deliveries)[b].target
    decreases |deliveries|
  {
    hide ReportedSent;
    if deliveries != [] {
      var n := |deliveries| - 1;
      var front := Reported(deliveries[..n]);
      ReportedDistinct(deliveries[..n]);
      forall a | 0 <= a < |front|
        ensures front[a].target != deliveries[n].target
      {
        var b :| 0 <= b < n && deliveries[..n][b] == front[a];
        assert deliveries[b] == front[a];
      }
    }
  }

  lemma ReportedTarget(cfg: Config, s: CampaignState, a: nat)
    requires Rows(cfg, s) && a < |Reported(s.deliveries)|
    ensures var d := Reported(s.deliveries)[a];
      d.target < |s.targets| && s.targets[d.target].status == TargetSent
  {
    hide SendPolicy, Pushed, Classified, ReportedSent, TargetOk, Reported;
    var d := Reported(s.deliveries)[a];
    var b :| 0 <= b < |s.deliveries| && s.deliveries[b] == d;
    assert DeliveryOk(cfg, s.targets, s.deliveries[b]);
  }

  lemma SentTarget(cfg: Config, s: CampaignState, k: nat) returns (a: nat)
    requires Rows(cfg, s) && k < |s.targets| && s.targets[k].status == TargetSent
    ensures a < |Reported(s.deliveries)| && Reported(s.deliveries)[a].target == k
  {
    hide SendPolicy, Pushed, Classified, ReportedSent, TargetOk, Reported;
    var b: nat :| b < |s.deliveries| && s.deliveries[b].target == k;
    assert DeliveryOk(cfg, s.targets, s.deliveries[b]);
    ReportedAll(s.deliveries, b);
    a :| a < |Reported(s.deliveries)| && Reported(s.deliveries)[a] == s.deliveries[b];
  }

  lemma DeliveredOnce(cfg: Config, s: CampaignState)
    requires Rows(cfg, s)
    ensures forall a, b :: 0 <= a < b < |s.deliveries| ==> s.deliveries[a].target != s.deliveries[b].target
  {
    hide DeliveryOk, TargetOk;
  }

  lemma ReportedAreSent(cfg: Config, s: CampaignState)
    requires Rows(cfg, s)
    ensures Count(s.targets, TargetSent) == |Reported(s.deliveries)|
  {
    DeliveredOnce(cfg, s);
    ReportedDistinct(s.deliveries);
    hide Rows, Reported, Count;
    var sent := Reported(s.deliveries);
    forall a | 0 <= a < |sent|
      ensures sent[a].target < |s.targets| && s.targets[sent[a].target].status == TargetSent
    {
      ReportedTarget(cfg, s, a);
    }
    forall k | 0 <= k < |s.targets| && s.targets[k].status == TargetSent
      ensures exists a :: 0 <= a < |sent| && sent[a].target == k
    {
      var a := SentTarget(cfg, s, k);
    }
    SentAreDelivered(cfg, s.targets, sent);
  }

  function DeliveryTargets(deliveries: seq<Delivery>): set<nat> {
    set a | 0 <= a < |deliveries| :: deliveries[a].target
  }

  function SentTargets(targets: seq<Target>): set<nat> {
    set k: nat | k < |targets| && targets[k].status == TargetSent
  }

  /** As many sent targets as deliveries. */
  lemma SentAreDelivered(cfg: Config, targets: seq<Target>, deliveries: seq<Delivery>)
    requires forall a :: 0 <= a < |deliveries| ==>
      deliveries[a].target < |targets| && targets[deliveries[a].target].status == TargetSent
    requires forall a, b :: 0 <= a < b < |deliveries| ==> deliveries[a].target != deliveries[b].target
    requires forall k :: 0 <= k < |targets| && targets[k].status == TargetSent ==>
      exists a :: 0 <= a < |deliveries| && deliveries[a].target == k
    ensures Count(targets, TargetSent) == |deliveries|
  {
    DeliveryTargetsSize(deliveries);
    SentTargetsSize(targets);
    assert DeliveryTargets(deliveries) == SentTargets(targets);
  }

  lemma DeliveryTargetsNext(front: seq<Delivery>, d: Delivery)
    ensures DeliveryTargets(front + [d]) == DeliveryTargets(front) + {d.target}
  {
    var all := front + [d];
    forall x | x in DeliveryTargets(front) + {d.target}
      ensures x in DeliveryTargets(all)
    {
      if x == d.target {
        assert all[|front|].target == x;
      } else {
        var a :| 0 <= a < |front| && front[a].target == x;
        assert all[a].target == x;
      }
    }
  }

  lemma {:induction false} DeliveryTargetsSize(deliveries: seq<Delivery>)
    requires forall a, b :: 0 <= a < b < |deliveries| ==> deliveries[a].target != deliveries[b].target
    ensures |DeliveryTargets(deliveries)| == |deliveries|
    decreases |deliveries|
  {
    if deliveries != [] {
      var n := |deliveries| - 1;
      DeliveryTargetsSize(deliveries[..n]);
      DeliveryTargetsNext(deliveries[..n], deliveries[n]);
      assert deliveries == deliveries[..n] + [deliveries[n]];
      assert deliveries[n].target !in DeliveryTargets(deliveries[..n]);
    }
  }

  lemma SentTargetsNext(front: seq<Target>, t: Target)
    ensures SentTargets(front + [t]) ==
      if t.status == TargetSent then SentTargets(front) + {|front|} else SentTargets(front)
  {
    assert forall k :: 0 <= k < |front| ==> (front + [t])[k] == front[k];
  }

  lemma {:induction false} SentTargetsSize(targets: seq<Target>)
    ensures |SentTargets(targets)| == Count(targets, TargetSent)
    decreases |targets|
  {
    if targets == [] {
      assert SentTargets(targets) == {};
    } else {
      var n := |targets| - 1;
      SentTargetsSize(targets[..n]);
      SentTargetsNext(targets[..n], targets[n]);
      assert targets == targets[..n] + [targets[n]];
      assert n !in SentTargets(targets[..n]);
    }
  }

  lemma {:induction false} TerminalStays(cfg: Config, s: CampaignState, ops: seq<Op>)
    requires CampTerminal(s.status)
    ensures ApplyAll(cfg, s, ops) == s
    decreases |ops|
  {
    hide DraftPhase, SendPhase, EnrollPhase, BuildReport;
    if ops != [] {
      TerminalStays(cfg, s, ops[..|ops| - 1]);
    }
  }

  /** No jobs and requests, in any number and order, change a campaign exactly when it is terminal. */
  lemma TerminalCampaignFrozen(cfg: Config, s: CampaignState)
    ensures (forall ops :: ApplyAll(cfg, s, ops) == s) <==> CampTerminal(s.status)
  {
    if CampTerminal(s.status) {
      forall ops
        ensures ApplyAll(cfg, s, ops) == s
      {
        TerminalStays(cfg, s, ops);
      }
    } else {
      assert [CancelRequest][..0] == [];
      assert ApplyAll(cfg, s, []) == s;
      assert ApplyAll(cfg, s, [CancelRequest]).status == CampCancelled;
      assert ApplyAll(cfg, s, [CancelRequest]) != s;
    }
  }

  /** Once drafted, a campaign is left alone by another draft job exactly unless it is sending. */
  lemma DraftJobLeavesAloneIff(cfg: Config, accounts: nat, ops: seq<Op>, drafts: nat -> DraftInput)
    ensures var s := ApplyAll(cfg, Create(accounts), ops);
      s.status != DraftPending ==> (Apply(cfg, s, DraftJob(drafts)) == s <==> s.status != Sending)
  {
    hide ApplyAll, Create, Rows, BuildReport, DraftAll;
    InvEveryRun(cfg, accounts, ops);
  }

  /**
   A campaign that is sending has its review reopened by it; yet approving it again enrolls nobody a
   second time.
   */
  lemma RedraftReopensReview(cfg: Config, accounts: nat, ops: seq<Op>, drafts: nat -> DraftInput,
      sends: nat -> SendInput)
    ensures var s := ApplyAll(cfg, Create(accounts), ops);
      s.status == Sending ==>
        var again := Apply(cfg, s, DraftJob(drafts));
        && again.status == AwaitingReview && again.targets == s.targets
        && Apply(cfg, again, ApproveRequest(sends, true)).enrollments == s.enrollments
        && Apply(cfg, again, ApproveRequest(sends, true)).targets == s.targets
  {
    hide ApplyAll, Create, Rows, BuildReport, DraftOne;
    InvEveryRun(cfg, accounts, ops);
    var s := ApplyAll(cfg, Create(accounts), ops);
    if s.status == Sending {
      var again := Apply(cfg, s, DraftJob(drafts));
      assert again.targets == s.targets;
      EnrollNobody(again, 0);
    }
  }

  /** Such a campaign: drafted and approved with a cadence, for any drafts. */
  lemma SendingIsReached(cfg: Config, accounts: nat, drafts: nat -> DraftInput, sends: nat -> SendInput)
    requires cfg.hasCadence
    ensures var ops := [DraftJob(drafts), ApproveRequest(sends, true)];
      && ApplyAll(cfg, Create(accounts), ops).status == Sending
      && ApplyAll(cfg, Create(accounts), ops + [DraftJob(drafts)]).status == AwaitingReview
  {
    var s0 := Create(accounts);
    TwoOps(cfg, s0, DraftJob(drafts), ApproveRequest(sends, true));
    var ops := [DraftJob(drafts), ApproveRequest(sends, true)];
    assert (ops + [DraftJob(drafts)])[..2] == ops;
  }

  lemma TwoOps(cfg: Config, s: CampaignState, a: Op, b: Op)
    ensures ApplyAll(cfg, s, [a, b]) == Apply(cfg, Apply(cfg, s, a), b)
  {
    hide Apply;
    assert [a, b][..1] == [a] && [a][..0] == [];
    assert ApplyAll(cfg, s, []) == s;
    assert ApplyAll(cfg, s, [a]) == Apply(cfg, s, a);
  }

  lemma {:induction false} EnrollNobody(s: CampaignState, k: nat)
    requires k <= |s.targets| && NoneIs(s.targets, TargetDrafted)
    ensures EnrollFrom(s, k) == s
    decreases |s.targets| - k
  {
    if k < |s.targets| {
      EnrollNobody(s, k + 1);
    }
  }
}
