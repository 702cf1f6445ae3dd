/**
 One campaign, its targets, and the meaning of every job and request on them
 (nexus/campaigns/service.py, nexus/models/campaign.py, nexus/workers/tasks.py).
 */
module CampaignModel {
  import opened Wrappers
  import opened Outbound

  datatype CampaignStatus =
    | DraftPending | CampDrafting | AwaitingReview | CampApproved | Sending | CampCompleted | CampCancelled | CampFailed

  datatype TargetStatus =
    | TargetPending | TargetDrafting | TargetDrafted | TargetApproved | TargetSent | TargetSkipped | TargetFailed

  datatype Target = Target(
    status: TargetStatus,
    runId: Option<nat>,
    draft: Draft,
    skipReason: Option<SkipReason>)

  /** What was handed over, in order, whatever became of the call: the target, the draft, what the tool met. */
  datatype Delivery = Delivery(target: nat, draft: Draft, env: SendEnv)

  datatype Report = Report(
    total: nat, drafted: nat, sent: nat, skipped: nat, failed: nat,
    skips: map<SkipReason, nat>)

  datatype CampaignState = CampaignState(
    status: CampaignStatus,
    targets: seq<Target>,
    report: Option<Report>,
    deliveries: seq<Delivery>,
    enrollments: seq<nat>)

  /** Settings and the campaign's own columns no operation writes. */
  datatype Config = Config(sendRisky: bool, hasCadence: bool, sourcingEnabled: bool, bar: real)

  predicate CampTerminal(s: CampaignStatus) {
    s in {CampCompleted, CampCancelled, CampFailed}
  }

  // ---- The draft phase -------------------------------------------------------------------

  /** How a research-and-compose run went. A completed run may, in principle, stage no draft. */
  datatype RunOutcome = RunRaised | RunNotCompleted(runId: nat) | RunStaged(runId: nat, staged: Option<Composition>)

  datatype Sourcing = SourcingRaised | NothingSourced | SourcedRun(outcome: RunOutcome)

  datatype DraftInput = DraftInput(first: RunOutcome, sourcing: Sourcing)

  function Settle(t: Target, reason: Option<SkipReason>): Target {
    if reason.None? then t.(status := TargetDrafted) else t.(status := TargetSkipped, skipReason := reason)
  }

  /** `_draft_one`: compose, classify, and once try to source a missing contact. */
  function DraftOne(cfg: Config, t: Target, input: DraftInput): Target {
    match input.first
    case RunRaised => t.(status := TargetFailed)
    case RunNotCompleted(id) => t.(runId := Some(id), status := TargetSkipped, skipReason := Some(SkipResearchFailed))
    case RunStaged(id, staged) =>
      var d := DraftOf(staged);
      var t1 := t.(runId := Some(id), draft := d);
      if Classify(d) == Some(SkipNoContact) && cfg.sourcingEnabled then
        match input.sourcing
        case SourcingRaised => t1.(status := TargetFailed)
        case NothingSourced => Settle(t1, Classify(d))
        case SourcedRun(RunRaised) => t1.(status := TargetFailed)
        case SourcedRun(RunNotCompleted(id2)) => Settle(t1.(runId := Some(id2)), Classify(d))
        case SourcedRun(RunStaged(id2, staged2)) =>
          var d2 := DraftOf(staged2).(sourced := true);
          Settle(t1.(runId := Some(id2), draft := d2), Classify(d2))
      else Settle(t1, Classify(d))
  }

  function DraftAll(cfg: Config, targets: seq<Target>, inputs: nat -> DraftInput): (r: seq<Target>)
    ensures |r| == |targets|
  {
    seq(|targets|, k requires 0 <= k < |targets| =>
      if targets[k].status == TargetPending then DraftOne(cfg, targets[k], inputs(k)) else targets[k])
  }

  function DraftPhase(cfg: Config, s: CampaignState, inputs: nat -> DraftInput): CampaignState {
    var targets := DraftAll(cfg, s.targets, inputs);
    s.(targets := targets, status := AwaitingReview, report := Some(BuildReport(targets)))
  }

  // ---- The send phase --------------------------------------------------------------------

  /** Whether the target's compose run is still there, and what the send tool meets. */
  datatype SendInput = SendInput(runExists: bool, env: SendEnv)

  function RefusalReason(e: ToolError): SkipReason {
    if SaysUngrounded(e) then SkipUngrounded
    else if SaysUndeliverable(e) then SkipUndeliverable
    else SkipNoContact
  }

  predicate Goes(cfg: Config, t: Target, input: SendInput) {
    && SendPolicy(t.draft, cfg.sendRisky, cfg.bar) == None
    && t.runId.Some? && input.runExists
    && Returned(SendOutcome(Some(t.draft), input.env))
  }

  /** The send tool is reached and comes as far as handing the draft over. */
  predicate Hands(cfg: Config, t: Target, input: SendInput) {
    && SendPolicy(t.draft, cfg.sendRisky, cfg.bar) == None
    && t.runId.Some? && input.runExists
    && HandedOver(t.draft, input.env)
  }

  /** `_send_one`. */
  function SendOne(cfg: Config, t: Target, input: SendInput): Target {
    var hold := SendPolicy(t.draft, cfg.sendRisky, cfg.bar);
    if hold.Some? then t.(status := TargetSkipped, skipReason := hold)
    else if t.runId.None? || !input.runExists then t.(status := TargetFailed)
    else
      match SendOutcome(Some(t.draft), input.env)
      case Refused(e) => t.(status := TargetSkipped, skipReason := Some(RefusalReason(e)))
      case Crashed => t.(status := TargetFailed)
      case _ => t.(status := TargetSent)
  }

  /** The send loop from target k on. */
  function SendFrom(cfg: Config, s: CampaignState, k: nat, inputs: nat -> SendInput): (r: CampaignState)
    requires k <= |s.targets|
    ensures |r.targets| == |s.targets|
    decreases |s.targets| - k
  {
    if k == |s.targets| then s
    else if s.targets[k].status != TargetDrafted then SendFrom(cfg, s, k + 1, inputs)
    else
      var t := s.targets[k];
      var s1 := s.(targets := s.targets[k := SendOne(cfg, t, inputs(k))]);
      SendFrom(cfg,
        if Hands(cfg, t, inputs(k))
          then s1.(deliveries := s1.deliveries + [Delivery(k, t.draft, inputs(k).env)]) else s1,
        k + 1, inputs)
  }

  function SendPhase(cfg: Config, s: CampaignState, inputs: nat -> SendInput): CampaignState {
    var r := SendFrom(cfg, s, 0, inputs);
    r.(status := CampCompleted, report := Some(BuildReport(r.targets)))
  }

  /** The cadence path: enroll every drafted target. */
  function EnrollFrom(s: CampaignState, k: nat): (r: CampaignState)
    requires k <= |s.targets|
    ensures |r.targets| == |s.targets|
    decreases |s.targets| - k
  {
    if k == |s.targets| then s
    else if s.targets[k].status != TargetDrafted then EnrollFrom(s, k + 1)
    else
      EnrollFrom(
        s.(targets := s.targets[k := s.targets[k].(status := TargetApproved)], enrollments := s.enrollments + [k]),
        k + 1)
  }

  predicate AnyDrafted(targets: seq<Target>) {
    exists k :: 0 <= k < |targets| && targets[k].status == TargetDrafted
  }

  function EnrollPhase(s: CampaignState): CampaignState {
    var r := EnrollFrom(s, 0);
    r.(status := Sending, report := Some(BuildReport(r.targets)))
  }

  // ---- The report ------------------------------------------------------------------------

  function Count(targets: seq<Target>, status: TargetStatus): nat {
    if targets == [] then 0
    else Count(targets[..|targets| - 1], status) + if targets[|targets| - 1].status == status then 1 else 0
  }

  predicate SkippedFor(t: Target, reason: SkipReason) {
    t.status == TargetSkipped && t.skipReason == Some(reason)
  }

  function CountReason(targets: seq<Target>, reason: SkipReason): nat {
    if targets == [] then 0
    else CountReason(targets[..|targets| - 1], reason) + if SkippedFor(targets[|targets| - 1], reason) then 1 else 0
  }

  const REASONS: set<SkipReason> :=
    {SkipNoContact, SkipUngrounded, SkipUndeliverable, SkipResearchFailed, SkipUnverified, SkipRisky, SkipRejected}

  /** The report's reason table lists exactly the reasons that occur. */
  function ReasonTable(targets: seq<Target>): map<SkipReason, nat> {
    map reason | reason in REASONS && CountReason(targets, reason) > 0 :: CountReason(targets, reason)
  }

  function BuildReport(targets: seq<Target>): Report {
    Report(|targets|, Count(targets, TargetDrafted), Count(targets, TargetSent),
      Count(targets, TargetSkipped), Count(targets, TargetFailed), ReasonTable(targets))
  }

  // ---- The operations --------------------------------------------------------------------

  datatype CampaignError = NotAwaiting | CadenceHasNoStep

  /**
   One job or request. Enrolling raises when the cadence has no step 0; the request is then rolled
   back.
   */
  datatype Op =
    | DraftJob(drafts: nat -> DraftInput)
    | ApproveRequest(sends: nat -> SendInput, cadenceHasStep: bool)
    | SendJob(sends: nat -> SendInput)
    | CancelRequest

  function ApproveError(cfg: Config, s: CampaignState, cadenceHasStep: bool): Option<CampaignError> {
    if s.status != AwaitingReview then Some(NotAwaiting)
    else if cfg.hasCadence && AnyDrafted(s.targets) && !cadenceHasStep then Some(CadenceHasNoStep)
    else None
  }

  function Apply(cfg: Config, s: CampaignState, op: Op): CampaignState {
    match op
    case DraftJob(drafts) =>
      if CampTerminal(s.status) || s.status == AwaitingReview then s else DraftPhase(cfg, s, drafts)
    case ApproveRequest(sends, cadenceHasStep) =>
      if ApproveError(cfg, s, cadenceHasStep).Some? then s
      else if cfg.hasCadence then EnrollPhase(s)
      else SendPhase(cfg, s, sends)
    case SendJob(sends) =>
      if s.status == CampApproved then SendPhase(cfg, s, sends) else s
    case CancelRequest =>
      if CampTerminal(s.status) then s
      else s.(status := CampCancelled, report := Some(BuildReport(s.targets)))
  }

  function ApplyAll(cfg: Config, s: CampaignState, ops: seq<Op>): CampaignState {
    if ops == [] then s else Apply(cfg, ApplyAll(cfg, s, ops[..|ops| - 1]), ops[|ops| - 1])
  }

  /** `create`: one pending target per distinct account of the list. */
  function Create(accounts: nat): CampaignState {
    CampaignState(DraftPending, seq(accounts, k => Target(TargetPending, None, NO_DRAFT, None)), None, [], [])
  }
}
