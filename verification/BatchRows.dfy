/**
 The shared rows one enrollment of a batch reads and writes (nexus/cadences/service.py:272-285, 359-397,
 426-441): the outcomes that stop it and those it adds, and the call tasks it queues.
 */
module BatchRows {
  import opened Wrappers
  import opened Outbound
  import opened CadenceModel
  import opened CadenceTheorems
  import opened CadenceBatch
  import opened TickOutcomes
  import CancelledCadence

  /** The contact answered: replied, took a meeting or bought, since the enrollment. */
  ghost predicate Answered(outcomes: seq<Outcome>, contactId: Option<string>, since: int) {
    exists k :: 0 <= k < |outcomes| && AnswerOf(outcomes[k], contactId, since)
  }

  predicate AnswerOf(o: Outcome, contactId: Option<string>, since: int) {
    && contactId.Some? && o.contactId.Some? && o.contactId.value == contactId.value
    && (o.stage == RepliedStage || o.stage == MeetingStage || o.stage == WonStage)
    && since <= o.createdAt
  }

  lemma ReplyIsAnswer(outcomes: seq<Outcome>, contactId: Option<string>, since: int)
    ensures HasReply(outcomes, contactId, since) <==> Answered(outcomes, contactId, since)
  {
    if k :| 0 <= k < |outcomes| && AnswerOf(outcomes[k], contactId, since) {
      assert IsReply(outcomes[k], contactId, since);
    }
    if k :| 0 <= k < |outcomes| && IsReply(outcomes[k], contactId, since) {
      assert AnswerOf(outcomes[k], contactId, since);
    }
  }

  /** The email of this tick is sent, and put on record. */
  predicate SendsNow(m: Member, now: int, input: TickInput) {
    && Tries(m.cfg, m.state, now, input)
    && SendOutcome(Some(DraftOf(input.compose.staged)), input.env) == Sent
    && !input.recordRaises
  }

  lemma TriesHandsOver(m: Member, now: int, input: TickInput)
    requires Inv(m.cfg, m.state) && Due(m.state, now)
    ensures CancelledCadence.TickHandsOver(m.cfg, m.state, now, input) <==>
      Tries(m.cfg, m.state, now, input) && Pushed(Some(DraftOf(input.compose.staged)), input.env)
  {
    OpenIsUnsent(m.cfg, m.state);
    hide Sendable, Pushed, DraftOf;
  }

  lemma EmailTells(cfg: Config, s: EnrollState, now: int, input: TickInput)
    requires Inv(cfg, s) && Due(s, now) && Emails(cfg, s, now, input)
    ensures var (r, action) := RunTouch(cfg, s, now, input);
      EmailEnded(cfg, s, DraftOf(input.compose.staged), input, now, r, action)
  {
    OpenIsUnsent(cfg, s);
    EmailEnds(cfg, s, now, input);
    hide EmailStep, EmailEnded, PutTouch, FindTouch, DraftOf;
  }

  /** What a message just added says: it was handed over by this tick, and reported as sent. */
  lemma JustSentIff(m: Member, now: int, input: TickInput)
    requires Inv(m.cfg, m.state) && Due(m.state, now)
    ensures JustSent(m.state.messages, RunTouch(m.cfg, m.state, now, input).0.messages) <==>
      && Tries(m.cfg, m.state, now, input)
      && SendOutcome(Some(DraftOf(input.compose.staged)), input.env) == Sent
  {
    hide RunTouch, Tries, Inv, CancelledCadence.TickHandsOver, DraftOf, SendOutcome, Pushed;
    CancelledCadence.StepMessages(m.cfg, m.state, now, input);
    TriesHandsOver(m, now, input);
    if Tries(m.cfg, m.state, now, input) {
      TriesComposed(m, now, input);
      var d := DraftOf(input.compose.staged);
      SendGates(Some(d), input.env);
      FreshIsNotDraftMode(input.compose.staged);
    }
  }

  lemma TriesComposed(m: Member, now: int, input: TickInput)
    requires Tries(m.cfg, m.state, now, input)
    ensures input.compose.Composed? && Emails(m.cfg, m.state, now, input)
    ensures Sendable(DraftOf(input.compose.staged), m.cfg.sendRisky, m.cfg.bar) && !m.cfg.review
  {
  }

  /** A tick adds one "sent" outcome of its contact when its email was sent and put on record, and else none. */
  lemma SentIsRecorded(m: Member, now: int, input: TickInput)
    requires Inv(m.cfg, m.state) && Due(m.state, now)
    ensures NewOutcomes(m, now, input) ==
      if SendsNow(m, now, input) then [Outcome(m.contactId, SentStage, now)] else []
  {
    hide RunTouch, Tries, Inv, DraftOf, SendOutcome, Sendable, JustSent;
    JustSentIff(m, now, input);
    if JustSent(m.state.messages, RunTouch(m.cfg, m.state, now, input).0.messages) {
      SentAdvances(m, now, input);
    }
  }

  lemma SentAdvances(m: Member, now: int, input: TickInput)
    requires Inv(m.cfg, m.state) && Due(m.state, now) && Tries(m.cfg, m.state, now, input)
    requires SendOutcome(Some(DraftOf(input.compose.staged)), input.env) == Sent
    ensures RunTouch(m.cfg, m.state, now, input).1 == if input.recordRaises then Raise else Advance
  {
    TriesComposed(m, now, input);
    var d := DraftOf(input.compose.staged);
    EmailTells(m.cfg, m.state, now, input);
    ComposedPolicy(input.compose.staged, m.cfg.sendRisky, m.cfg.bar);
    OneAnswer(d, input.env, input.recordRaises);
    hide RunTouch, Inv, DraftOf, SendOutcome, Sendable, SendPolicy, TouchAt, ToolUngrounded, ToolUndeliverable,
      ToolRefusesOtherwise;
  }

  /** A tick queues a call when its step is a call that can be queued, and has no open task yet. */
  lemma CallIsQueued(m: Member, id: nat, tasks: seq<CallTask>, now: int, input: TickInput)
    requires Inv(m.cfg, m.state) && Due(m.state, now)
    ensures var open := exists k :: 0 <= k < |tasks| && tasks[k] == CallTask(Some(id), m.state.index, true);
      NewTasks(m, id, tasks, now, input) ==
        if Works(m.cfg, m.state, now, input) && OnCall(m.cfg, m.state) && !input.enqueueRaises && !open
          then [CallTask(Some(id), m.state.index, true)] else []
  {
    hide RunTouch, Inv, Emails, Works, OnCall, EmailRow;
    WorkLeaves(m.cfg, m.state, now, input);
  }

  /**
   An enrollment of a batch whose campaign is there stops as replied exactly when the outcomes of that moment
   hold an answer of its contact.
   */
  lemma BatchStopsOnAnswer(w: World, id: nat, now: int, inputs: nat -> TickInput)
    requires id in w.members && inputs(id).campaignExists
    requires Inv(w.members[id].cfg, w.members[id].state) && Due(w.members[id].state, now)
    ensures var m := w.members[id];
      StoppedFor(ProcessMember(w, id, now, inputs).members[id].state, Replied) <==>
        Answered(w.outcomes, m.contactId, m.state.startedAt)
  {
    hide Process, Inv, Answered, HasReply, Emails, HasDraft, DeadAddress, Works, NewOutcomes, NewTasks;
    var m := w.members[id];
    var input := Seen(w, id, inputs(id));
    ReplyIsAnswer(w.outcomes, m.contactId, m.state.startedAt);
    TickStops(m.cfg, m.state, now, input);
    assert ProcessMember(w, id, now, inputs).members[id].state == Apply(m.cfg, m.state, Tick(now, input));
  }
}
