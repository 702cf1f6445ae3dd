/**
 The campaign service (nexus/campaigns/service.py) and its job handler (nexus/workers/tasks.py):
 methods over a mutable campaign, each proved equal to its specification in `CampaignModel`.
 `deliveries` and `enrollments` record what the send tool and the cadence service were asked to do.
 */
module Campaigns {
  import opened Wrappers
  import opened Outbound
  import opened CampaignModel

  class Campaign {
    /** The account of each target. */
    const accounts: seq<string>
    var status: CampaignStatus
    var targets: seq<Target>
    var report: Option<Report>
    var deliveries: seq<Delivery>
    var enrollments: seq<nat>

    ghost function State(): CampaignState
      reads this
    {
      CampaignState(status, targets, report, deliveries, enrollments)
    }

    /** `create`: dedupe the list's accounts, in the list's order; one pending target each. */
    constructor (items: seq<string>)
      ensures State() == Create(|accounts|)
      ensures accounts == FirstOf(items)
    {
      var seen: set<string> := {};
      var rows: seq<Target> := [];
      var names: seq<string> := [];
      for k := 0 to |items|
        invariant names == FirstOf(items[..k])
        invariant forall x :: x in seen <==> x in names
        invariant rows == Create(|names|).targets
      {
        assert items[..k + 1][..k] == items[..k];
        if items[k] !in seen {
          seen := seen + {items[k]};
          names := names + [items[k]];
          rows := rows + [Target(TargetPending, None, NO_DRAFT, None)];
        }
      }
      assert items[..|items|] == items;
      accounts := names;
      status := DraftPending;
      targets := rows;
      report := None;
      deliveries := [];
      enrollments := [];
    }
  }

  /** A list without repetitions: each item where it first occurs. */
  function FirstOf(items: seq<string>): seq<string> {
    if items == [] then []
    else
      var front, last := FirstOf(items[..|items| - 1]), items[|items| - 1];
      if last in front then front else front + [last]
  }

  /** Every account of the list has one target, and no other account has. */
  lemma {:induction false} OneTargetAnAccount(items: seq<string>)
    ensures forall x :: x in FirstOf(items) <==> x in items
    ensures forall a, b :: 0 <= a < b < |FirstOf(items)| ==> FirstOf(items)[a] != FirstOf(items)[b]
  {
    if items != [] {
      OneTargetAnAccount(items[..|items| - 1]);
      assert items == items[..|items| - 1] + [items[|items| - 1]];
    }
  }

  lemma CountReasonGrows(targets: seq<Target>, t: Target, reason: SkipReason)
    ensures CountReason(targets + [t], reason) == CountReason(targets, reason) + if SkippedFor(t, reason) then 1 else 0
  {
    assert (targets + [t])[..|targets|] == targets;
  }

  lemma EveryReason(reason: SkipReason)
    ensures reason in REASONS
  {
    match reason {
      case SkipNoContact => case SkipUngrounded => case SkipUndeliverable => case SkipResearchFailed =>
      case SkipUnverified => case SkipRisky => case SkipRejected =>
    }
  }

  /** The report's table, entry by entry. */
  lemma ReasonEntry(targets: seq<Target>, reason: SkipReason)
    ensures reason in ReasonTable(targets) <==> CountReason(targets, reason) > 0
    ensures reason in ReasonTable(targets) ==> ReasonTable(targets)[reason] == CountReason(targets, reason)
  {
    EveryReason(reason);
    hide CountReason;
  }

  lemma ReasonTableGrows(targets: seq<Target>, t: Target)
    ensures ReasonTable(targets + [t]) ==
      if t.status == TargetSkipped && t.skipReason.Some?
      then ReasonTable(targets)[t.skipReason.value := CountReason(targets, t.skipReason.value) + 1]
      else ReasonTable(targets)
  {
    hide CountReason, ReasonTable;
    forall reason: SkipReason
      ensures CountReason(targets + [t], reason) ==
        CountReason(targets, reason) + if SkippedFor(t, reason) then 1 else 0
      ensures reason in ReasonTable(targets) <==> CountReason(targets, reason) > 0
      ensures reason in ReasonTable(targets) ==> ReasonTable(targets)[reason] == CountReason(targets, reason)
      ensures reason in ReasonTable(targets + [t]) <==> CountReason(targets + [t], reason) > 0
      ensures reason in ReasonTable(targets + [t]) ==>
        ReasonTable(targets + [t])[reason] == CountReason(targets + [t], reason)
    {
      CountReasonGrows(targets, t, reason);
      ReasonEntry(targets, reason);
      ReasonEntry(targets + [t], reason);
    }
  }

  class CampaignService {
    const cfg: Config

    constructor (cfg: Config)
      ensures this.cfg == cfg
    {
      this.cfg := cfg;
    }

    /** `_build_report`: one pass with counters and a dictionary of reasons. */
    method MakeReport(targets: seq<Target>) returns (r: Report)
      ensures r == BuildReport(targets)
    {
      var skips: map<SkipReason, nat> := map[];
      var drafted, sent, skipped, failed := 0, 0, 0, 0;
      for k := 0 to |targets|
        invariant drafted == Count(targets[..k], TargetDrafted) && sent == Count(targets[..k], TargetSent)
        invariant skipped == Count(targets[..k], TargetSkipped) && failed == Count(targets[..k], TargetFailed)
        invariant skips == ReasonTable(targets[..k])
      {
        assert targets[..k + 1] == targets[..k] + [targets[k]];
        assert targets[..k + 1][..k] == targets[..k];
        ReasonTableGrows(targets[..k], targets[k]);
        var t := targets[k];
        if t.status == TargetDrafted {
          drafted := drafted + 1;
        } else if t.status == TargetSent {
          sent := sent + 1;
        } else if t.status == TargetSkipped {
          skipped := skipped + 1;
          if t.skipReason.Some? {
            var reason := t.skipReason.value;
            skips := skips[reason := (if reason in skips then skips[reason] else 0) + 1];
          }
        } else if t.status == TargetFailed {
          failed := failed + 1;
        }
      }
      assert targets[..|targets|] == targets;
      return Report(|targets|, drafted, sent, skipped, failed, skips);
    }

    /** `_draft_one` on target k, with its exceptions turned into a failed target. */
    method DraftTarget(campaign: Campaign, k: nat, input: DraftInput)
      requires k < |campaign.targets|
      modifies campaign`targets
      ensures campaign.targets == old(campaign.targets)[k := DraftOne(cfg, old(campaign.targets)[k], input)]
    {
      var t := campaign.targets[k].(status := TargetDrafting);
      campaign.targets := campaign.targets[k := t];
      if input.first.RunRaised? {
        campaign.targets := campaign.targets[k := t.(status := TargetFailed)];
        return;
      }
      t := t.(runId := Some(input.first.runId));
      if input.first.RunNotCompleted? {
        campaign.targets := campaign.targets[k := t.(status := TargetSkipped, skipReason := Some(SkipResearchFailed))];
        return;
      }
      var draft := DraftOf(input.first.staged);
      t := t.(draft := draft);
      var reason := Classify(draft);
      if reason == Some(SkipNoContact) && cfg.sourcingEnabled {
        // One bounded attempt to source a contact and compose for it.
        match input.sourcing {
          case SourcingRaised =>
            campaign.targets := campaign.targets[k := t.(status := TargetFailed)];
            return;
          case NothingSourced =>
          case SourcedRun(outcome) =>
            if outcome.RunRaised? {
              campaign.targets := campaign.targets[k := t.(status := TargetFailed)];
              return;
            }
            t := t.(runId := Some(outcome.runId));
            if outcome.RunStaged? {
              draft := DraftOf(outcome.staged).(sourced := true);
              t := t.(draft := draft);
              reason := Classify(draft);
            }
        }
      }
      if reason.None? {
        t := t.(status := TargetDrafted);
      } else {
        t := t.(status := TargetSkipped, skipReason := reason);
      }
      campaign.targets := campaign.targets[k := t];
    }

    method RunDraftPhase(campaign: Campaign, inputs: nat -> DraftInput)
      modifies campaign
      ensures campaign.State() == DraftPhase(cfg, old(campaign.State()), inputs)
    {
      campaign.status := CampDrafting;
      ghost var was := campaign.targets;
      for k := 0 to |campaign.targets|
        invariant |campaign.targets| == |was|
        invariant forall j :: 0 <= j < |was| ==>
          campaign.targets[j] == if j < k then DraftAll(cfg, was, inputs)[j] else was[j]
        invariant campaign.deliveries == old(campaign.deliveries) && campaign.enrollments == old(campaign.enrollments)
      {
        if campaign.targets[k].status != TargetPending {
          continue;
        }
        DraftTarget(campaign, k, inputs(k));
      }
      assert campaign.targets == DraftAll(cfg, was, inputs);
      var report := MakeReport(campaign.targets);
      campaign.report := Some(report);
      campaign.status := AwaitingReview;
    }

    /** `_send_one` on target k: policy first, then the send tool with all its gates. */
    method SendTarget(campaign: Campaign, k: nat, input: SendInput)
      requires k < |campaign.targets| && campaign.targets[k].status == TargetDrafted
      modifies campaign`targets, campaign`deliveries
      ensures campaign.targets == old(campaign.targets)[k := SendOne(cfg, old(campaign.targets)[k], input)]
      ensures campaign.deliveries == old(campaign.deliveries) +
        if Hands(cfg, old(campaign.targets)[k], input)
          then [Delivery(k, old(campaign.targets)[k].draft, input.env)] else []
    {
      var t := campaign.targets[k];
      var hold := SendPolicy(t.draft, cfg.sendRisky, cfg.bar);
      if hold.Some? {
        campaign.targets := campaign.targets[k := t.(status := TargetSkipped, skipReason := hold)];
        return;
      }
      campaign.targets := campaign.targets[k := t.(status := TargetApproved)];
      if t.runId.None? || !input.runExists {
        campaign.targets := campaign.targets[k := t.(status := TargetFailed)];
        return;
      }
      var result, pushed := Send(Some(t.draft), input.env);
      if pushed || result.SavedToDrafts? {
        campaign.deliveries := campaign.deliveries + [Delivery(k, t.draft, input.env)];
      }
      match result {
        case Refused(e) =>
          var reason := SkipNoContact;
          if SaysUngrounded(e) {
            reason := SkipUngrounded;
          } else if SaysUndeliverable(e) {
            reason := SkipUndeliverable;
          }
          campaign.targets := campaign.targets[k := t.(status := TargetSkipped, skipReason := Some(reason))];
        case Crashed =>
          campaign.targets := campaign.targets[k := t.(status := TargetFailed)];
        case _ =>
          campaign.targets := campaign.targets[k := t.(status := TargetSent)];
      }
    }

    method RunSendPhase(campaign: Campaign, inputs: nat -> SendInput)
      modifies campaign
      ensures campaign.State() == SendPhase(cfg, old(campaign.State()), inputs)
    {
      hide SendOne, Hands, BuildReport;
      ghost var was := campaign.State();
      campaign.status := Sending;
      for k := 0 to |campaign.targets|
        invariant |campaign.targets| == |was.targets|
        invariant SendFrom(cfg, was, 0, inputs) == SendFrom(cfg, campaign.State().(status := was.status), k, inputs)
        invariant campaign.report == was.report
      {
        if campaign.targets[k].status != TargetDrafted {
          continue;
        }
        ghost var before := campaign.State().(status := was.status);
        ghost var t := campaign.targets[k];
        SendTarget(campaign, k, inputs(k));
        ghost var next := before.(targets := before.targets[k := SendOne(cfg, t, inputs(k))]);
        assert campaign.State().(status := was.status) ==
          if Hands(cfg, t, inputs(k))
            then next.(deliveries := next.deliveries + [Delivery(k, t.draft, inputs(k).env)]) else next;
      }
      var report := MakeReport(campaign.targets);
      campaign.report := Some(report);
      campaign.status := CampCompleted;
    }

    /** `_enroll_drafted`. */
    method EnrollDrafted(campaign: Campaign)
      modifies campaign
      ensures campaign.State() == EnrollPhase(old(campaign.State()))
    {
      hide BuildReport;
      ghost var was := campaign.State();
      campaign.status := Sending;
      for k := 0 to |campaign.targets|
        invariant |campaign.targets| == |was.targets|
        invariant campaign.status == Sending
        invariant EnrollFrom(was, 0) == EnrollFrom(campaign.State().(status := was.status), k)
        invariant campaign.report == was.report
      {
        if campaign.targets[k].status != TargetDrafted {
          continue;
        }
        campaign.enrollments := campaign.enrollments + [k];
        campaign.targets := campaign.targets[k := campaign.targets[k].(status := TargetApproved)];
      }
      var report := MakeReport(campaign.targets);
      campaign.report := Some(report);
    }

    /** The one human decision: enroll into the cadence, or send. */
    method ApproveAndSend(campaign: Campaign, inputs: nat -> SendInput, cadenceHasStep: bool)
      returns (error: Option<CampaignError>)
      modifies campaign
      ensures error == ApproveError(cfg, old(campaign.State()), cadenceHasStep)
      ensures campaign.State() == Apply(cfg, old(campaign.State()), ApproveRequest(inputs, cadenceHasStep))
    {
      hide BuildReport;
      if campaign.status != AwaitingReview {
        return Some(NotAwaiting);
      }
      if cfg.hasCadence && !cadenceHasStep {
        for k := 0 to |campaign.targets|
          invariant forall j :: 0 <= j < k ==> campaign.targets[j].status != TargetDrafted
        {
          if campaign.targets[k].status == TargetDrafted {
            // The first enrollment raises, and the request is rolled back.
            return Some(CadenceHasNoStep);
          }
        }
      }
      ghost var was := campaign.State();
      campaign.status := CampApproved;
      if cfg.hasCadence {
        EnrollDrafted(campaign);
        EnrollIgnoresStatus(was, CampApproved, 0);
      } else {
        RunSendPhase(campaign, inputs);
        SendIgnoresStatus(cfg, was, CampApproved, 0, inputs);
      }
      return None;
    }

    method CancelCampaign(campaign: Campaign)
      modifies campaign
      ensures campaign.State() == Apply(cfg, old(campaign.State()), CancelRequest)
    {
      if CampTerminal(campaign.status) {
        return;
      }
      campaign.status := CampCancelled;
      var report := MakeReport(campaign.targets);
      campaign.report := Some(report);
    }

    /** `handle_run_campaign`. */
    method HandleDraftJob(campaign: Campaign, drafts: nat -> DraftInput)
      modifies campaign
      ensures campaign.State() == Apply(cfg, old(campaign.State()), DraftJob(drafts))
    {
      if !CampTerminal(campaign.status) && campaign.status != AwaitingReview {
        RunDraftPhase(campaign, drafts);
      }
    }

    method HandleSendJob(campaign: Campaign, sends: nat -> SendInput)
      modifies campaign
      ensures campaign.State() == Apply(cfg, old(campaign.State()), SendJob(sends))
    {
      if campaign.status == CampApproved {
        RunSendPhase(campaign, sends);
      }
    }
  }

  lemma {:induction false} SendIgnoresStatus(cfg: Config, s: CampaignState, status: CampaignStatus, k: nat,
      inputs: nat -> SendInput)
    requires k <= |s.targets|
    ensures SendFrom(cfg, s.(status := status), k, inputs) == SendFrom(cfg, s, k, inputs).(status := status)
    decreases |s.targets| - k
  {
    hide SendOne, Hands;
    if k < |s.targets| {
      if s.targets[k].status != TargetDrafted {
        SendIgnoresStatus(cfg, s, status, k + 1, inputs);
      } else {
        var t := s.targets[k];
        var s1 := s.(targets := s.targets[k := SendOne(cfg, t, inputs(k))]);
        var s2 := if Hands(cfg, t, inputs(k))
          then s1.(deliveries := s1.deliveries + [Delivery(k, t.draft, inputs(k).env)]) else s1;
        SendIgnoresStatus(cfg, s2, status, k + 1, inputs);
      }
    }
  }

  lemma {:induction false} EnrollIgnoresStatus(s: CampaignState, status: CampaignStatus, k: nat)
    requires k <= |s.targets|
    ensures EnrollFrom(s.(status := status), k) == EnrollFrom(s, k).(status := status)
    decreases |s.targets| - k
  {
    if k < |s.targets| {
      if s.targets[k].status != TargetDrafted {
        EnrollIgnoresStatus(s, status, k + 1);
      } else {
        var s1 := s.(
          targets := s.targets[k := s.targets[k].(status := TargetApproved)], enrollments := s.enrollments + [k]);
        EnrollIgnoresStatus(s1, status, k + 1);
      }
    }
  }
}
