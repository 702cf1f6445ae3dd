/**
 A campaign together with the enrollments its approval made (nexus/campaigns/service.py:128-190,
 nexus/cadences/service.py:177-285). A step of an enrollment looks the campaign up, but not at its status.
 */
module CancelledCadence {
  import opened Wrappers
  import opened Outbound
  import CampaignModel
  import CampaignTheorems
  import CadenceModel
  import CadenceTheorems
  import CadenceRuns

  datatype Setting = Setting(campaign: CampaignModel.Config, cadence: CadenceModel.Config)

  /** `members` are the enrollments, by target. */
  datatype World = World(campaign: CampaignModel.CampaignState, members: map<nat, CadenceModel.EnrollState>)

  datatype Event =
    | OfCampaign(campaignOp: CampaignModel.Op, now: int)
    | OfMember(target: nat, cadenceOp: CadenceModel.Op)

  predicate Usable(setup: Setting) {
    setup.cadence.steps != []
  }

  function WithEnrolled(setup: Setting, w: World, c: CampaignModel.CampaignState, now: int): World
    requires Usable(setup)
  {
    World(c, w.members + map k | k in c.enrollments && k !in w.members :: CadenceModel.Enroll(setup.cadence, now))
  }

  function Do(setup: Setting, w: World, e: Event): World
    requires Usable(setup)
  {
    match e
    case OfCampaign(op, now) => WithEnrolled(setup, w, CampaignModel.Apply(setup.campaign, w.campaign, op), now)
    case OfMember(k, op) =>
      if k in w.members then w.(members := w.members[k := CadenceModel.Apply(setup.cadence, w.members[k], op)]) else w
  }

  function DoAll(setup: Setting, w: World, events: seq<Event>): World
    requires Usable(setup)
  {
    if events == [] then w else Do(setup, DoAll(setup, w, events[..|events| - 1]), events[|events| - 1])
  }

  function NewWorld(accounts: nat): World {
    World(CampaignModel.Create(accounts), map[])
  }

  /** The operations on one enrollment among the events. */
  function OwnOps(events: seq<Event>, k: nat): seq<CadenceModel.Op> {
    if events == [] then []
    else
      var last := events[|events| - 1];
      OwnOps(events[..|events| - 1], k) + if last.OfMember? && last.target == k then [last.cadenceOp] else []
  }

  lemma ApplyNext(cfg: CadenceModel.Config, s: CadenceModel.EnrollState, ops: seq<CadenceModel.Op>, op: CadenceModel.Op)
    ensures CadenceModel.ApplyAll(cfg, s, ops + [op]) == CadenceModel.Apply(cfg, CadenceModel.ApplyAll(cfg, s, ops), op)
  {
    assert (ops + [op])[..|ops|] == ops;
    hide CadenceModel.Apply;
  }

  lemma DoMember(setup: Setting, w: World, e: Event, k: nat)
    requires Usable(setup) && k in w.members
    ensures k in Do(setup, w, e).members
    ensures Do(setup, w, e).members[k] ==
      if e.OfMember? && e.target == k then CadenceModel.Apply(setup.cadence, w.members[k], e.cadenceOp)
        else w.members[k]
  {
    hide CadenceModel.Apply, CampaignModel.Apply, CadenceModel.Enroll;
  }

  /**
   An enrollment follows its own operations only. Nothing that is done to the campaign in between,
   cancelling it included, makes a difference to it.
   */
  lemma {:induction false} CampaignMakesNoDifference(setup: Setting, w: World, events: seq<Event>, k: nat)
    requires Usable(setup) && k in w.members
    ensures var t := DoAll(setup, w, events);
      k in t.members && t.members[k] == CadenceModel.ApplyAll(setup.cadence, w.members[k], OwnOps(events, k))
    decreases |events|
  {
    hide CadenceModel.Apply, Do;
    if events != [] {
      var front, last := events[..|events| - 1], events[|events| - 1];
      CampaignMakesNoDifference(setup, w, front, k);
      DoMember(setup, DoAll(setup, w, front), last, k);
      if last.OfMember? && last.target == k {
        ApplyNext(setup.cadence, w.members[k], OwnOps(front, k), last.cadenceOp);
      } else {
        assert OwnOps(events, k) == OwnOps(front, k);
      }
    }
  }

  ghost predicate MembersOk(setup: Setting, w: World) {
    forall k :: k in w.members ==> CadenceTheorems.Inv(setup.cadence, w.members[k])
  }

  lemma DoKeepsMembers(setup: Setting, w: World, e: Event)
    requires Usable(setup) && MembersOk(setup, w)
    ensures MembersOk(setup, Do(setup, w, e))
  {
    match e
    case OfCampaign(_, now) =>
      CadenceTheorems.EnrollInv(setup.cadence, now);
      hide CadenceTheorems.Inv, CampaignModel.Apply, CadenceModel.Enroll;
    case OfMember(k, op) =>
      if k in w.members {
        CadenceRuns.ApplyInv(setup.cadence, w.members[k], op);
      }
      hide CadenceTheorems.Inv, CadenceModel.Apply;
  }

  lemma {:induction false} MembersEveryRun(setup: Setting, accounts: nat, events: seq<Event>)
    requires Usable(setup)
    ensures MembersOk(setup, DoAll(setup, NewWorld(accounts), events))
    decreases |events|
  {
    hide Do, MembersOk;
    if events == [] {
      NobodyYet(setup, accounts);
    } else {
      MembersEveryRun(setup, accounts, events[..|events| - 1]);
      DoKeepsMembers(setup, DoAll(setup, NewWorld(accounts), events[..|events| - 1]), events[|events| - 1]);
    }
  }

  lemma NobodyYet(setup: Setting, accounts: nat)
    ensures MembersOk(setup, NewWorld(accounts))
  {
  }

  // ---- When a tick hands a message over ------------------------------------------------------------

  /** The current step is an email to be sent now, and nothing the tick reads keeps it back. */
  predicate Reaches(cfg: CadenceModel.Config, s: CadenceModel.EnrollState, now: int, input: CadenceModel.TickInput) {
    && CadenceModel.Due(s, now) && s.index < |cfg.steps| && cfg.steps[s.index].channel == CadenceModel.Email
    && input.campaignExists && !input.replied && !CadenceModel.ExceededDuration(cfg, s, now)
    && input.compose.Composed? && !cfg.review
  }

  predicate TickHandsOver(cfg: CadenceModel.Config, s: CadenceModel.EnrollState, now: int,
      input: CadenceModel.TickInput) {
    && Reaches(cfg, s, now, input)
    && Sendable(DraftOf(input.compose.staged), cfg.sendRisky, cfg.bar)
    && Pushed(Some(DraftOf(input.compose.staged)), input.env)
  }

  function HandedNow(cfg: CadenceModel.Config, s: CadenceModel.EnrollState, now: int,
      input: CadenceModel.TickInput): seq<CadenceModel.Message> {
    if TickHandsOver(cfg, s, now, input)
      then [CadenceModel.Message(s.index, DraftOf(input.compose.staged), input.env)] else []
  }

  lemma EmailHandsOver(cfg: CadenceModel.Config, s: CadenceModel.EnrollState, now: int, input: CadenceModel.TickInput)
    requires s.index < |cfg.steps| && input.compose.Composed?
    ensures var d := DraftOf(input.compose.staged);
      CadenceModel.EmailStep(cfg, s, now, input).0.messages == s.messages +
        if !cfg.review && Sendable(d, cfg.sendRisky, cfg.bar) && Pushed(Some(d), input.env)
          then [CadenceModel.Message(s.index, d, input.env)] else []
  {
    var d := DraftOf(input.compose.staged);
    PolicyMeansSendable(d, cfg.sendRisky, cfg.bar);
    CadenceTheorems.FreshIsNotDraftMode(input.compose.staged);
    CadenceTheorems.TouchForIndex(s, true);
    NotSaved(d, input.env);
    hide SendPolicy, Sendable, Pushed, SendOutcome, DraftOf, CadenceModel.PutTouch, CadenceModel.TouchFor, HandedOver;
    assert s.messages + [] == s.messages;
  }

  lemma NotSaved(d: Draft, env: SendEnv)
    requires !d.draftMode
    ensures HandedOver(d, env) <==> Pushed(Some(d), env)
  {
    SendGates(Some(d), env);
  }

  lemma StepMessages(cfg: CadenceModel.Config, s: CadenceModel.EnrollState, now: int, input: CadenceModel.TickInput)
    requires CadenceTheorems.Inv(cfg, s) && CadenceModel.Due(s, now)
    ensures CadenceModel.RunTouch(cfg, s, now, input).0.messages == s.messages + HandedNow(cfg, s, now, input)
  {
    CadenceTheorems.OpenIsUnsent(cfg, s);
    RaisedSendsNothing(cfg, s, now, input);
    if input.compose.Composed? {
      EmailHandsOver(cfg, s, now, input);
    }
    hide CadenceTheorems.Inv, CadenceModel.EmailStep, CadenceModel.PutTouch, CadenceModel.TouchFor,
      CadenceModel.FindTouch;
    hide Sendable, Pushed, DraftOf, CadenceModel.ExceededDuration;
    assert s.messages + [] == s.messages;
  }

  lemma ProcessMessages(cfg: CadenceModel.Config, s: CadenceModel.EnrollState, now: int, input: CadenceModel.TickInput)
    ensures CadenceModel.Process(cfg, s, now, input).messages == CadenceModel.RunTouch(cfg, s, now, input).0.messages
  {
    hide CadenceModel.RunTouch, CadenceModel.PutTouch, CadenceModel.TouchFor;
  }

  /** The messages after a tick, exactly. */
  lemma TickMessages(cfg: CadenceModel.Config, s: CadenceModel.EnrollState, now: int, input: CadenceModel.TickInput)
    requires CadenceTheorems.Inv(cfg, s)
    ensures CadenceModel.Apply(cfg, s, CadenceModel.Tick(now, input)).messages ==
      s.messages + HandedNow(cfg, s, now, input)
  {
    hide CadenceTheorems.Inv, CadenceModel.RunTouch, CadenceModel.Process, CadenceModel.ExceededDuration, Sendable,
      Pushed, DraftOf;
    if CadenceModel.Due(s, now) {
      StepMessages(cfg, s, now, input);
      ProcessMessages(cfg, s, now, input);
    } else {
      assert s.messages + [] == s.messages;
    }
  }

  lemma RaisedSendsNothing(cfg: CadenceModel.Config, s: CadenceModel.EnrollState, now: int,
      input: CadenceModel.TickInput)
    ensures input.compose.ComposeRaised? ==> CadenceModel.EmailStep(cfg, s, now, input).0 == s
  {
  }

  // ---- Cancelled, and still sending ------------------------------------------------------------------

  lemma DoTwo(setup: Setting, w: World, a: Event, b: Event)
    requires Usable(setup)
    ensures DoAll(setup, w, [a, b]) == Do(setup, Do(setup, w, a), b)
  {
    hide Do;
    assert [a, b][..1] == [a] && [a][..0] == [];
    assert DoAll(setup, w, []) == w;
    assert DoAll(setup, w, [a]) == Do(setup, w, a);
  }

  lemma CancelIsTerminal(setup: Setting, w: World, now: int)
    requires Usable(setup)
    ensures CampaignModel.CampTerminal(Do(setup, w, OfCampaign(CampaignModel.CancelRequest, now)).campaign.status)
  {
    hide CampaignModel.BuildReport, CadenceModel.Enroll;
  }

  /**
   In every history: a campaign that is cancelled has its enrollments go on. The next tick hands a message
   over exactly when it would have done so without the cancel, which the status of the campaign has no part in.
   */
  lemma CancelledStillHandsOverIff(setup: Setting, accounts: nat, events: seq<Event>, k: nat, now: int,
      input: CadenceModel.TickInput)
    requires Usable(setup)
    ensures var w := DoAll(setup, NewWorld(accounts), events);
      k in w.members ==>
        var t := DoAll(setup, w,
          [OfCampaign(CampaignModel.CancelRequest, now), OfMember(k, CadenceModel.Tick(now, input))]);
        && CampaignModel.CampTerminal(t.campaign.status) && k in t.members
        && t.members[k].messages == w.members[k].messages + HandedNow(setup.cadence, w.members[k], now, input)
  {
    MembersEveryRun(setup, accounts, events);
    hide DoAll, CadenceTheorems.Inv, HandedNow, NewWorld, CadenceModel.Apply, CampaignModel.Apply,
      CampaignModel.CampTerminal;
    var w := DoAll(setup, NewWorld(accounts), events);
    if k in w.members {
      var cancel, tick := OfCampaign(CampaignModel.CancelRequest, now), OfMember(k, CadenceModel.Tick(now, input));
      DoTwo(setup, w, cancel, tick);
      CancelIsTerminal(setup, w, now);
      DoMember(setup, w, cancel, k);
      DoMember(setup, Do(setup, w, cancel), tick, k);
      TickMessages(setup.cadence, w.members[k], now, input);
    }
  }

  /** One target with a contact of its own. */
  function DraftFor(c: Composition): nat -> CampaignModel.DraftInput {
    k => CampaignModel.DraftInput(CampaignModel.RunStaged(0, Some(c)), CampaignModel.NothingSourced)
  }

  function NoSends(env: SendEnv): nat -> CampaignModel.SendInput {
    k => CampaignModel.SendInput(true, env)
  }

  const PLAIN: Setting := Setting(
    CampaignModel.Config(false, true, false, 0.0),
    CadenceModel.Config([CadenceModel.CadenceStep(0, CadenceModel.Email)], false, false, 0.0, 30))

  lemma DraftedOne(c: Composition)
    requires Classify(Staged(c)) == None
    ensures var s := CampaignModel.Apply(PLAIN.campaign, CampaignModel.Create(1), CampaignModel.DraftJob(DraftFor(c)));
      && s.status == CampaignModel.AwaitingReview && s.enrollments == []
      && |s.targets| == 1 && s.targets[0].status == CampaignModel.TargetDrafted
  {
    hide CampaignModel.BuildReport;
  }

  lemma ApprovedOne(s: CampaignModel.CampaignState, env: SendEnv)
    requires s.status == CampaignModel.AwaitingReview && s.enrollments == []
    requires |s.targets| == 1 && s.targets[0].status == CampaignModel.TargetDrafted
    ensures var t := CampaignModel.Apply(PLAIN.campaign, s, CampaignModel.ApproveRequest(NoSends(env), true));
      t.status == CampaignModel.Sending && t.enrollments == [0]
  {
    hide CampaignModel.BuildReport;
    var s1 := s.(
      targets := s.targets[0 := s.targets[0].(status := CampaignModel.TargetApproved)],
      enrollments := s.enrollments + [0]);
    assert CampaignModel.EnrollFrom(s1, 1) == s1;
    assert CampaignModel.EnrollFrom(s, 0) == s1;
  }

  /** It is reached: drafted, approved, cancelled while sending, and then the first message leaves. */
  lemma CancelledCampaignSends(c: Composition, env: SendEnv)
    requires Classify(Staged(c)) == None && Sendable(Staged(c), false, 0.0) && Pushed(Some(Staged(c)), env)
    ensures var w := DoAll(PLAIN, NewWorld(1),
        [OfCampaign(CampaignModel.DraftJob(DraftFor(c)), 0),
          OfCampaign(CampaignModel.ApproveRequest(NoSends(env), true), 0)]);
      var input := CadenceModel.TickInput(true, false, false, CadenceModel.Composed(Some(c)), env, false);
      var t := DoAll(PLAIN, w, [OfCampaign(CampaignModel.CancelRequest, 0), OfMember(0, CadenceModel.Tick(0, input))]);
      && w.campaign.status == CampaignModel.Sending
      && CampaignModel.CampTerminal(t.campaign.status)
      && 0 in t.members && t.members[0].messages == [CadenceModel.Message(0, Staged(c), env)]
  {
    var draft := OfCampaign(CampaignModel.DraftJob(DraftFor(c)), 0);
    var approve := OfCampaign(CampaignModel.ApproveRequest(NoSends(env), true), 0);
    var input := CadenceModel.TickInput(true, false, false, CadenceModel.Composed(Some(c)), env, false);
    DoTwo(PLAIN, NewWorld(1), draft, approve);
    EnrolledOne(c, env);
    CancelledStillHandsOverIff(PLAIN, 1, [draft, approve], 0, 0, input);
    FirstTickHandsOver(c, env, input);
    hide *;
    assert CadenceModel.Enroll(PLAIN.cadence, 0).messages + [CadenceModel.Message(0, Staged(c), env)]
      == [CadenceModel.Message(0, Staged(c), env)] by {
      NothingSentYet();
    }
  }

  lemma NothingSentYet()
    ensures CadenceModel.Enroll(PLAIN.cadence, 0).messages == []
  {
  }

  lemma EnrolledOne(c: Composition, env: SendEnv)
    requires Classify(Staged(c)) == None
    ensures var draft := OfCampaign(CampaignModel.DraftJob(DraftFor(c)), 0);
      var approve := OfCampaign(CampaignModel.ApproveRequest(NoSends(env), true), 0);
      var w := Do(PLAIN, Do(PLAIN, NewWorld(1), draft), approve);
      && w.campaign.status == CampaignModel.Sending
      && 0 in w.members && w.members[0] == CadenceModel.Enroll(PLAIN.cadence, 0)
  {
    DraftedOne(c);
    var drafted := CampaignModel.Apply(PLAIN.campaign, CampaignModel.Create(1), CampaignModel.DraftJob(DraftFor(c)));
    ApprovedOne(drafted, env);
    hide CampaignModel.Apply, CadenceModel.Enroll, Staged, Classify, CampaignModel.Create;
    assert WithEnrolled(PLAIN, NewWorld(1), drafted, 0).members == map[];
  }

  lemma FirstTickHandsOver(c: Composition, env: SendEnv, input: CadenceModel.TickInput)
    requires Sendable(Staged(c), false, 0.0) && Pushed(Some(Staged(c)), env)
    requires input == CadenceModel.TickInput(true, false, false, CadenceModel.Composed(Some(c)), env, false)
    ensures HandedNow(PLAIN.cadence, CadenceModel.Enroll(PLAIN.cadence, 0), 0, input) ==
      [CadenceModel.Message(0, Staged(c), env)]
  {
    hide Sendable, Pushed, Staged;
  }
}
