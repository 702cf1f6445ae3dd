/**
 The confidence bar on sourced addresses, through both ways a campaign can go out: sending its targets
 itself (nexus/campaigns/service.py), or enrolling them into a cadence (nexus/cadences/service.py).
 */
module SourcedBar {
  import opened Wrappers
  import opened Outbound
  import CampaignModel
  import CampaignTheorems
  import CadenceModel

  /** A research run that finds facts but no contact. */
  const NOBODY: Composition := Composition(None, "", "", 1, None)

  /** The account has no contact; one is sourced, and the draft is composed again for it. */
  function SourcedDraft(c: Composition): nat -> CampaignModel.DraftInput {
    k => CampaignModel.DraftInput(
      CampaignModel.RunStaged(0, Some(NOBODY)),
      CampaignModel.SourcedRun(CampaignModel.RunStaged(1, Some(c))))
  }

  function Sends(env: SendEnv): nat -> CampaignModel.SendInput {
    k => CampaignModel.SendInput(true, env)
  }

  /** One target, drafted from the sourced contact and approved. */
  function CampaignRun(c: Composition, sendRisky: bool, bar: real, hasCadence: bool,
      env: SendEnv): CampaignModel.CampaignState {
    CampaignModel.ApplyAll(CampaignModel.Config(sendRisky, hasCadence, true, bar), CampaignModel.Create(1),
      [CampaignModel.DraftJob(SourcedDraft(c)), CampaignModel.ApproveRequest(Sends(env), true)])
  }

  /** The first tick of a one-step email cadence, which composes for the same contact once more. */
  function CadenceRun(c: Composition, sendRisky: bool, bar: real, env: SendEnv): CadenceModel.EnrollState {
    var cfg := CadenceModel.Config([CadenceModel.CadenceStep(0, CadenceModel.Email)], false, sendRisky, bar, 30);
    CadenceModel.Apply(cfg, CadenceModel.Enroll(cfg, 0),
      CadenceModel.Tick(0, CadenceModel.TickInput(true, false, false, CadenceModel.Composed(Some(c)), env, false)))
  }

  /** What keeps a message back for any other reason than the bar does not. */
  predicate OtherwiseFine(c: Composition, sendRisky: bool, env: SendEnv) {
    && Classify(Staged(c)) == None
    && (c.address.Some? && c.address.value.0 == Risky ==> sendRisky)
    && Pushed(Some(Staged(c)), env)
  }

  lemma DraftedTarget(c: Composition, sendRisky: bool, bar: real, hasCadence: bool)
    requires Classify(Staged(c)) == None
    ensures var cfg := CampaignModel.Config(sendRisky, hasCadence, true, bar);
      var s := CampaignModel.Apply(cfg, CampaignModel.Create(1), CampaignModel.DraftJob(SourcedDraft(c)));
      && s.status == CampaignModel.AwaitingReview && s.deliveries == [] && s.enrollments == []
      && s.targets == [CampaignModel.Target(CampaignModel.TargetDrafted, Some(1), Staged(c).(sourced := true), None)]
  {
    hide CampaignModel.BuildReport;
    assert Classify(Staged(c).(sourced := true)) == None;
    assert Classify(Staged(NOBODY)) == Some(SkipNoContact);
  }

  lemma SourcedPushed(c: Composition, env: SendEnv)
    ensures Pushed(Some(Staged(c).(sourced := true)), env) == Pushed(Some(Staged(c)), env)
    ensures SendOutcome(Some(Staged(c).(sourced := true)), env) == SendOutcome(Some(Staged(c)), env)
  {
  }

  /**
   The same sourced contact, the same composition, the same settings. A plain campaign hands the message
   over exactly when it meets the bar, and else skips the target as unverified; with a cadence the target
   is enrolled, and the first tick hands the message over, whether it meets the bar or not.
   */
  lemma BarHoldsOnlyWithoutCadence(c: Composition, sendRisky: bool, bar: real, env: SendEnv)
    requires OtherwiseFine(c, sendRisky, env)
    ensures var plain := CampaignRun(c, sendRisky, bar, false, env);
      && |plain.targets| == 1
      && (BelowBar(c, bar) ==> plain.deliveries == [] && plain.targets[0].skipReason == Some(SkipUnverified))
      && (!BelowBar(c, bar) ==> |plain.deliveries| == 1 && plain.deliveries[0].draft == Staged(c).(sourced := true))
    ensures CampaignRun(c, sendRisky, bar, true, env).enrollments == [0]
    ensures CadenceRun(c, sendRisky, bar, env).messages == [CadenceModel.Message(0, Staged(c), env)]
  {
    PlainRun(c, sendRisky, bar, env);
    EnrolledRun(c, sendRisky, bar, env);
    TickRun(c, sendRisky, bar, env);
  }

  lemma PlainRun(c: Composition, sendRisky: bool, bar: real, env: SendEnv)
    requires OtherwiseFine(c, sendRisky, env)
    ensures var plain := CampaignRun(c, sendRisky, bar, false, env);
      && |plain.targets| == 1
      && (BelowBar(c, bar) ==> plain.deliveries == [] && plain.targets[0].skipReason == Some(SkipUnverified))
      && (!BelowBar(c, bar) ==> |plain.deliveries| == 1 && plain.deliveries[0].draft == Staged(c).(sourced := true))
  {
    var cfg := CampaignModel.Config(sendRisky, false, true, bar);
    var first, second := CampaignModel.DraftJob(SourcedDraft(c)), CampaignModel.ApproveRequest(Sends(env), true);
    CampaignTheorems.TwoOps(cfg, CampaignModel.Create(1), first, second);
    DraftedTarget(c, sendRisky, bar, false);
    MarkDecidesIffBelowBar(c, sendRisky, bar);
    SourcedPushed(c, env);
    assert SendPolicy(Staged(c).(sourced := true), sendRisky, bar) ==
      if BelowBar(c, bar) then Some(SkipUnverified) else None;
    var s := CampaignModel.Apply(cfg, CampaignModel.Create(1), first);
    hide CampaignModel.BuildReport, CampaignModel.DraftPhase, SendPolicy, Pushed, SendOutcome, Staged, Classify;
    SendSingle(cfg, s, Sends(env));
    assert CampaignModel.Apply(cfg, s, second) == CampaignModel.SendPhase(cfg, s, Sends(env));
  }

  lemma SendSingle(cfg: CampaignModel.Config, s: CampaignModel.CampaignState, inputs: nat -> CampaignModel.SendInput)
    requires |s.targets| == 1 && s.targets[0].status == CampaignModel.TargetDrafted
    ensures var r := CampaignModel.SendFrom(cfg, s, 0, inputs);
      && r.targets == [CampaignModel.SendOne(cfg, s.targets[0], inputs(0))]
      && r.deliveries == s.deliveries +
           if CampaignModel.Hands(cfg, s.targets[0], inputs(0))
             then [CampaignModel.Delivery(0, s.targets[0].draft, inputs(0).env)] else []
  {
    hide CampaignModel.SendOne, CampaignModel.Hands;
    var s1 := s.(targets := s.targets[0 := CampaignModel.SendOne(cfg, s.targets[0], inputs(0))]);
    var s2 := s1.(deliveries := s1.deliveries + [CampaignModel.Delivery(0, s.targets[0].draft, inputs(0).env)]);
    assert CampaignModel.SendFrom(cfg, s1, 1, inputs) == s1;
    assert CampaignModel.SendFrom(cfg, s2, 1, inputs) == s2;
  }

  lemma EnrolledRun(c: Composition, sendRisky: bool, bar: real, env: SendEnv)
    requires Classify(Staged(c)) == None
    ensures CampaignRun(c, sendRisky, bar, true, env).enrollments == [0]
  {
    var cfg := CampaignModel.Config(sendRisky, true, true, bar);
    var first, second := CampaignModel.DraftJob(SourcedDraft(c)), CampaignModel.ApproveRequest(Sends(env), true);
    CampaignTheorems.TwoOps(cfg, CampaignModel.Create(1), first, second);
    DraftedTarget(c, sendRisky, bar, true);
    hide CampaignModel.BuildReport, CampaignModel.DraftPhase, Staged, Classify;
    var s := CampaignModel.Apply(cfg, CampaignModel.Create(1), first);
    assert CampaignModel.EnrollFrom(s, 0).enrollments == [0];
  }

  lemma TickRun(c: Composition, sendRisky: bool, bar: real, env: SendEnv)
    requires OtherwiseFine(c, sendRisky, env)
    ensures CadenceRun(c, sendRisky, bar, env).messages == [CadenceModel.Message(0, Staged(c), env)]
  {
    assert Staged(c).grounded;
    assert SendPolicy(Staged(c), sendRisky, bar) == None;
    hide Pushed, SendOutcome, SendPolicy, Staged;
  }

  /** In every history of every campaign, what it hands over itself from a sourced contact meets the bar. */
  lemma SourcedDeliveriesMeetTheBar(cfg: CampaignModel.Config, accounts: nat, ops: seq<CampaignModel.Op>, a: nat)
    ensures var s := CampaignModel.ApplyAll(cfg, CampaignModel.Create(accounts), ops);
      a < |s.deliveries| && s.deliveries[a].draft.sourced && s.deliveries[a].draft.emailStatus == Some(Unknown) ==>
        var confidence := s.deliveries[a].draft.emailConfidence;
        (if confidence.Some? then confidence.value else 0.0) >= cfg.bar
  {
    hide CampaignModel.ApplyAll, CampaignModel.Create;
    CampaignTheorems.SentIsSafe(cfg, accounts, ops, a);
  }
}
