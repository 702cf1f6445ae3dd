/**
 Where a campaign target's draft and status come from, over every history (nexus/campaigns/service.py): the
 runs that composed for it, whether a contact was sourced, and what a send made of it. All of it is read off
 the inputs of the job that drafted it, or of the request that sent it.
 */
module TargetOrigins {
  import opened Wrappers
  import opened Outbound
  import opened CampaignModel
  import opened CampaignTheorems

  /** What the job that took target k out of "pending" met there; none while it is pending. */
  function DraftedBy(cfg: Config, accounts: nat, ops: seq<Op>, k: nat): Option<DraftInput> {
    if ops == [] then None
    else
      var front, last := ops[..|ops| - 1], ops[|ops| - 1];
      var before, after := ApplyAll(cfg, Create(accounts), front), ApplyAll(cfg, Create(accounts), ops);
      if last.DraftJob? && IsPending(before, k) && !IsPending(after, k) then Some(last.drafts(k))
      else DraftedBy(cfg, accounts, front, k)
  }

  predicate IsPending(s: CampaignState, k: nat) {
    k < |s.targets| && s.targets[k].status == TargetPending
  }

  /** The draft rests on facts, but names nobody with an address that was looked at. */
  predicate LacksContact(d: Draft) {
    d.grounded && (d.contactId.None? || d.contactId.value == "" || d.emailStatus.None?)
  }

  /** A contact is looked for: the settings allow it, and the first compose left none. */
  predicate Seeks(cfg: Config, i: DraftInput) {
    cfg.sourcingEnabled && i.first.RunStaged? && LacksContact(DraftOf(i.first.staged))
  }

  /** A contact was sourced, and the run for it completed. */
  predicate Found(cfg: Config, i: DraftInput) {
    Seeks(cfg, i) && i.sourcing.SourcedRun? && i.sourcing.outcome.RunStaged?
  }

  predicate Raised(cfg: Config, i: DraftInput) {
    || i.first.RunRaised?
    || (Seeks(cfg, i) && (i.sourcing.SourcingRaised? || i.sourcing == SourcedRun(RunRaised)))
  }

  /** A second run was made, for a sourced contact. */
  predicate RanTwice(cfg: Config, i: DraftInput) {
    Seeks(cfg, i) && i.sourcing.SourcedRun? && !i.sourcing.outcome.RunRaised?
  }

  /** The draft and the run of a target, by what its drafting met. */
  predicate Origin(cfg: Config, i: DraftInput, t: Target) {
    && (t.draft.sourced <==> Found(cfg, i))
    && (Found(cfg, i) ==> t.draft == DraftOf(i.sourcing.outcome.staged).(sourced := true))
    && (!Found(cfg, i) ==> t.draft == if i.first.RunStaged? then DraftOf(i.first.staged) else NO_DRAFT)
    && (t.runId ==
          if i.first.RunRaised? then None
          else if RanTwice(cfg, i) then Some(i.sourcing.outcome.runId) else Some(i.first.runId))
  }

  /** A target the drafting gave up on. */
  predicate GivenUp(cfg: Config, i: DraftInput, t: Target) {
    || Raised(cfg, i) || i.first.RunNotCompleted?
    || !t.draft.grounded || LacksContact(t.draft) || t.draft.emailStatus == Some(Invalid)
  }

  /** The status of a target the drafting gave up on, and the reason if it was skipped. */
  predicate Verdict(cfg: Config, i: DraftInput, t: Target) {
    if Raised(cfg, i) then t.status == TargetFailed
    else if i.first.RunNotCompleted? then SkippedFor(t, SkipResearchFailed)
    else if !t.draft.grounded then SkippedFor(t, SkipUngrounded)
    else if LacksContact(t.draft) then SkippedFor(t, SkipNoContact)
    else t.draft.emailStatus == Some(Invalid) ==> SkippedFor(t, SkipUndeliverable)
  }

  const FRESH: Target := Target(TargetPending, None, NO_DRAFT, None)

  lemma DraftOneOrigin(cfg: Config, i: DraftInput)
    ensures var t := DraftOne(cfg, FRESH, i);
      && Origin(cfg, i, t) && Verdict(cfg, i, t)
      && (t.status == TargetDrafted <==> !GivenUp(cfg, i, t))
      && t.status in {TargetDrafted, TargetSkipped, TargetFailed}
  {
    if i.first.RunStaged? {
      Unmarked(i.first.staged);
    }
    hide Staged;
  }

  lemma Unmarked(staged: Option<Composition>)
    ensures !DraftOf(staged).sourced
  {
  }

  // ---- What later operations keep --------------------------------------------------------

  /** Once drafted, a target's draft and run stay, and a target that was given up stays as it is. */
  predicate Keeps(t: Target, u: Target) {
    && u.draft == t.draft && u.runId == t.runId && u.status != TargetPending
    && (t.status in {TargetSkipped, TargetFailed} ==> u == t)
  }

  lemma {:induction false} SendFromAt(cfg: Config, s: CampaignState, from: nat, inputs: nat -> SendInput, k: nat)
    requires from <= |s.targets| && k < |s.targets|
    ensures SendFrom(cfg, s, from, inputs).targets[k] ==
      if from <= k && s.targets[k].status == TargetDrafted then SendOne(cfg, s.targets[k], inputs(k)) else s.targets[k]
    decreases |s.targets| - from
  {
    hide SendOne, Hands;
    if from < |s.targets| {
      if s.targets[from].status != TargetDrafted {
        SendFromAt(cfg, s, from + 1, inputs, k);
      } else {
        var t := s.targets[from];
        var s1 := s.(targets := s.targets[from := SendOne(cfg, t, inputs(from))]);
        var s2 := if Hands(cfg, t, inputs(from))
          then s1.(deliveries := s1.deliveries + [Delivery(from, t.draft, inputs(from).env)]) else s1;
        SendFromAt(cfg, s2, from + 1, inputs, k);
      }
    }
  }

  lemma {:induction false} EnrollFromAt(s: CampaignState, from: nat, k: nat)
    requires from <= |s.targets| && k < |s.targets|
    ensures EnrollFrom(s, from).targets[k] ==
      if from <= k && s.targets[k].status == TargetDrafted then s.targets[k].(status := TargetApproved)
        else s.targets[k]
    decreases |s.targets| - from
  {
    if from < |s.targets| {
      if s.targets[from].status != TargetDrafted {
        EnrollFromAt(s, from + 1, k);
      } else {
        var s1 := s.(
          targets := s.targets[from := s.targets[from].(status := TargetApproved)],
          enrollments := s.enrollments + [from]);
        EnrollFromAt(s1, from + 1, k);
      }
    }
  }

  lemma SendOneKeeps(cfg: Config, t: Target, input: SendInput)
    requires t.status == TargetDrafted
    ensures Keeps(t, SendOne(cfg, t, input))
  {
    hide SendPolicy, SendOutcome;
  }

  lemma ApplyKeeps(cfg: Config, s: CampaignState, op: Op, k: nat)
    requires k < |s.targets| && s.targets[k].status != TargetPending
    ensures |Apply(cfg, s, op).targets| == |s.targets|
    ensures Keeps(s.targets[k], Apply(cfg, s, op).targets[k])
  {
    hide SendFrom, EnrollFrom, BuildReport, SendOne, DraftOne;
    match op
    case DraftJob(drafts) =>
    case ApproveRequest(sends, _) =>
      SendFromAt(cfg, s, 0, sends, k);
      EnrollFromAt(s, 0, k);
      if s.targets[k].status == TargetDrafted {
        SendOneKeeps(cfg, s.targets[k], sends(k));
      }
    case SendJob(sends) =>
      SendFromAt(cfg, s, 0, sends, k);
      if s.targets[k].status == TargetDrafted {
        SendOneKeeps(cfg, s.targets[k], sends(k));
      }
    case CancelRequest =>
  }

  /** A pending target is drafted by a job that runs, and left alone by everything else. */
  lemma ApplyPending(cfg: Config, s: CampaignState, op: Op, k: nat)
    requires IsPending(s, k)
    ensures |Apply(cfg, s, op).targets| == |s.targets|
    ensures Apply(cfg, s, op).targets[k] ==
      if op.DraftJob? && !CampTerminal(s.status) && s.status != AwaitingReview
        then DraftOne(cfg, s.targets[k], op.drafts(k)) else s.targets[k]
  {
    hide SendFrom, EnrollFrom, BuildReport, SendOne, DraftOne;
    match op
    case DraftJob(drafts) =>
    case ApproveRequest(sends, _) =>
      SendFromAt(cfg, s, 0, sends, k);
      EnrollFromAt(s, 0, k);
    case SendJob(sends) => SendFromAt(cfg, s, 0, sends, k);
    case CancelRequest =>
  }

  lemma KeepsOrigin(cfg: Config, i: DraftInput, t: Target, u: Target)
    requires Origin(cfg, i, t) && Verdict(cfg, i, t) && Keeps(t, u)
    ensures Origin(cfg, i, u) && Verdict(cfg, i, u) && u.status != TargetPending
  {
    hide Found, RanTwice, Raised, LacksContact, Staged;
  }

  // ---- The theorems ----------------------------------------------------------------------

  /**
   Over every history of every campaign: a target no job has drafted is as it was made. Any other has the
   draft and the run of its first compose, unless a contact was looked for and found; its draft carries the
   mark exactly then. And a target the drafting gave up on has kept the status and the reason for it.
   */
  lemma {:induction false} OriginEveryRun(cfg: Config, accounts: nat, ops: seq<Op>, k: nat)
    requires k < accounts
    ensures var s := ApplyAll(cfg, Create(accounts), ops);
      && |s.targets| == accounts
      && match DraftedBy(cfg, accounts, ops, k)
         case None => s.targets[k] == FRESH
         case Some(i) =>
           s.targets[k].status != TargetPending && Origin(cfg, i, s.targets[k]) && Verdict(cfg, i, s.targets[k])
    decreases |ops|
  {
    hide Apply, Origin, Verdict, Keeps, DraftOne;
    if ops != [] {
      var front, last := ops[..|ops| - 1], ops[|ops| - 1];
      var s := ApplyAll(cfg, Create(accounts), front);
      OriginEveryRun(cfg, accounts, front, k);
      if IsPending(s, k) {
        ApplyPending(cfg, s, last, k);
        if last.DraftJob? {
          DraftOneOrigin(cfg, last.drafts(k));
        }
      } else {
        ApplyKeeps(cfg, s, last, k);
        KeepsOrigin(cfg, DraftedBy(cfg, accounts, front, k).value, s.targets[k], Apply(cfg, s, last).targets[k]);
      }
    }
  }

  /**
   A draft job on a campaign that is neither over nor under review, after any history: each pending target
   is drafted with a draft of its own input, exactly unless the drafting gives it up.
   */
  lemma JobDrafts(cfg: Config, accounts: nat, ops: seq<Op>, drafts: nat -> DraftInput, k: nat)
    requires k < accounts && IsPending(ApplyAll(cfg, Create(accounts), ops), k)
    requires var status := ApplyAll(cfg, Create(accounts), ops).status;
      !CampTerminal(status) && status != AwaitingReview
    ensures var r := Apply(cfg, ApplyAll(cfg, Create(accounts), ops), DraftJob(drafts));
      && r.status == AwaitingReview && |r.targets| == accounts
      && var t := r.targets[k];
         && Origin(cfg, drafts(k), t) && Verdict(cfg, drafts(k), t)
         && (t.status == TargetDrafted <==> !GivenUp(cfg, drafts(k), t))
  {
    hide Apply, Origin, Verdict, GivenUp, DraftOne;
    var s := ApplyAll(cfg, Create(accounts), ops);
    OriginEveryRun(cfg, accounts, ops, k);
    ApplyPending(cfg, s, DraftJob(drafts), k);
    DraftOneOrigin(cfg, drafts(k));
    JobEndsInReview(cfg, s, drafts);
  }

  lemma JobEndsInReview(cfg: Config, s: CampaignState, drafts: nat -> DraftInput)
    requires !CampTerminal(s.status) && s.status != AwaitingReview
    ensures Apply(cfg, s, DraftJob(drafts)).status == AwaitingReview
  {
  }

  /**
   The setting that forbids sourcing is kept to, over every history: no draft carries the mark, a target's
   draft and run are those of its first compose, and one whose first draft lacks a contact is skipped for it.
   */
  lemma NothingSourcedWhenOff(cfg: Config, accounts: nat, ops: seq<Op>, k: nat)
    requires k < accounts && !cfg.sourcingEnabled
    ensures var s := ApplyAll(cfg, Create(accounts), ops);
      && |s.targets| == accounts && !s.targets[k].draft.sourced
      && match DraftedBy(cfg, accounts, ops, k)
         case None => true
         case Some(i) =>
           i.first.RunStaged? ==>
             && s.targets[k].draft == DraftOf(i.first.staged)
             && s.targets[k].runId == Some(i.first.runId)
             && (LacksContact(DraftOf(i.first.staged)) ==> SkippedFor(s.targets[k], SkipNoContact))
  {
    hide ApplyAll, Create, DraftedBy, Staged;
    OriginEveryRun(cfg, accounts, ops, k);
  }

  // ---- The send --------------------------------------------------------------------------

  /** The policy holds a risky address back. */
  predicate HeldRisky(cfg: Config, d: Draft) {
    d.emailStatus == Some(Risky) && !cfg.sendRisky
  }

  predicate HeldUnverified(cfg: Config, d: Draft) {
    && d.emailStatus in {None, Some(Unknown)} && d.sourced
    && (if d.emailConfidence.Some? then d.emailConfidence.value else 0.0) < cfg.bar
  }

  /** What a send makes of a drafted target. */
  predicate SendVerdict(cfg: Config, t: Target, input: SendInput, u: Target) {
    var answer := SendOutcome(Some(t.draft), input.env);
    && u == t.(status := u.status, skipReason := u.skipReason)
    && if HeldRisky(cfg, t.draft) then SkippedFor(u, SkipRisky)
       else if HeldUnverified(cfg, t.draft) then SkippedFor(u, SkipUnverified)
       else if !input.runExists || answer.Crashed? then u.status == TargetFailed
       else if !answer.Refused? then u.status == TargetSent
       else if SaysUngrounded(answer.error) then SkippedFor(u, SkipUngrounded)
       else if SaysUndeliverable(answer.error) then SkippedFor(u, SkipUndeliverable)
       else SkippedFor(u, SkipNoContact)
  }

  lemma SendOneVerdict(cfg: Config, t: Target, input: SendInput)
    requires TargetOk(t) && t.status == TargetDrafted
    ensures SendVerdict(cfg, t, input, SendOne(cfg, t, input))
  {
    hide SendOutcome;
  }

  /**
   An approval without a cadence sends each drafted target by itself: what becomes of it depends on its own
   draft and its own input, and a target that is not drafted stays as it is.
   */
  lemma ApprovalSends(cfg: Config, accounts: nat, ops: seq<Op>, sends: nat -> SendInput, hasStep: bool, k: nat)
    requires k < accounts && !cfg.hasCadence
    requires ApplyAll(cfg, Create(accounts), ops).status == AwaitingReview
    ensures var s := ApplyAll(cfg, Create(accounts), ops);
      var r := Apply(cfg, s, ApproveRequest(sends, hasStep));
      && |s.targets| == |r.targets| == accounts && r.status == CampCompleted
      && if s.targets[k].status == TargetDrafted then SendVerdict(cfg, s.targets[k], sends(k), r.targets[k])
         else r.targets[k] == s.targets[k]
  {
    hide ApplyAll, Create, SendVerdict, SendOne, SendFrom, Origin, Verdict;
    var s := ApplyAll(cfg, Create(accounts), ops);
    OriginEveryRun(cfg, accounts, ops, k);
    InvEveryRun(cfg, accounts, ops);
    SendFromAt(cfg, s, 0, sends, k);
    if s.targets[k].status == TargetDrafted {
      SendOneVerdict(cfg, s.targets[k], sends(k));
    }
  }

  /**
   Why an approval is refused, and that a refused one changes nothing: the campaign is not under review, or
   somebody is drafted for a cadence without a first step.
   */
  lemma ApprovalRefusedIff(cfg: Config, s: CampaignState, sends: nat -> SendInput, hasStep: bool)
    ensures var error := ApproveError(cfg, s, hasStep);
      && (error == Some(NotAwaiting) <==> s.status != AwaitingReview)
      && (error == Some(CadenceHasNoStep) <==>
            && s.status == AwaitingReview && cfg.hasCadence && !hasStep
            && exists k :: 0 <= k < |s.targets| && s.targets[k].status == TargetDrafted)
      && (error.Some? ==> Apply(cfg, s, ApproveRequest(sends, hasStep)) == s)
      && (error.None? ==> Apply(cfg, s, ApproveRequest(sends, hasStep)).status in {Sending, CampCompleted})
  {
    hide SendFrom, EnrollFrom, BuildReport;
  }
}
