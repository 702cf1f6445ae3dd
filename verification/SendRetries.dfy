/**
 The send step inside the engine's retry loop (nexus/orchestration/engine.py:203-229,
 nexus/orchestration/tools.py:178-227): how often one approval can hand the same message over.
 */
module SendRetries {
  import opened Wrappers
  import opened Outbound
  import opened RunModel
  import opened RunInvariant
  import opened RunTheorems

  /** Attempt k of step i sends the draft in the environment `envs(k)`; the other steps' tools are anything. */
  function SendingAt(i: nat, draft: Option<Draft>, envs: nat -> SendEnv, others: ToolOracle): ToolOracle {
    (j: nat, k: nat) => if j == i then Returned(SendOutcome(draft, envs(k))) else others(j, k)
  }

  /** How many of the first n attempts push the message. */
  function Pushes(draft: Option<Draft>, envs: nat -> SendEnv, n: nat): nat {
    if n == 0 then 0 else Pushes(draft, envs, n - 1) + if Pushed(draft, envs(n)) then 1 else 0
  }

  predicate FirstPush(draft: Option<Draft>, envs: nat -> SendEnv, a: nat) {
    1 <= a && Pushed(draft, envs(a)) && forall k: nat :: 1 <= k < a ==> !Pushed(draft, envs(k))
  }

  /** How many attempts the loop makes. */
  function Attempts(draft: Option<Draft>, envs: nat -> SendEnv, max: nat): nat {
    match FirstSuccess((j: nat, k: nat) => Returned(SendOutcome(draft, envs(k))), 0, 1, max)
    case Some(k) => k
    case None => max
  }

  lemma {:induction false} SameSuccess(t: ToolOracle, u: ToolOracle, i: nat, j: nat, k: nat, max: nat)
    requires forall a: nat :: t(i, a) == u(j, a)
    ensures FirstSuccess(t, i, k, max) == FirstSuccess(u, j, k, max)
    decreases max + 1 - k
  {
    if k <= max && !t(i, k) {
      SameSuccess(t, u, i, j, k + 1, max);
    }
  }

  lemma {:induction false} PushesBounded(draft: Option<Draft>, envs: nat -> SendEnv, n: nat)
    ensures Pushes(draft, envs, n) <= n
  {
    if n > 0 {
      PushesBounded(draft, envs, n - 1);
    }
  }

  lemma {:induction false} NoPushes(draft: Option<Draft>, envs: nat -> SendEnv, n: nat)
    ensures Pushes(draft, envs, n) == 0 <==> forall k: nat :: 1 <= k <= n ==> !Pushed(draft, envs(k))
  {
    if n > 0 {
      NoPushes(draft, envs, n - 1);
    }
  }

  /** More than one push: a first one, and another after it. */
  lemma {:induction false} SeveralPushes(draft: Option<Draft>, envs: nat -> SendEnv, n: nat)
    ensures Pushes(draft, envs, n) > 1 <==>
      exists a: nat, b: nat :: a < b <= n && FirstPush(draft, envs, a) && Pushed(draft, envs(b))
  {
    if n > 0 {
      SeveralPushes(draft, envs, n - 1);
      NoPushes(draft, envs, n - 1);
      if Pushes(draft, envs, n - 1) == 1 && Pushed(draft, envs(n)) {
        var a := EarliestPush(draft, envs, n - 1);
        assert a < n && FirstPush(draft, envs, a);
      }
      if Pushes(draft, envs, n - 1) == 0 {
        assert forall a: nat :: a < n ==> !FirstPush(draft, envs, a);
      }
    }
  }

  lemma {:induction false} EarliestPush(draft: Option<Draft>, envs: nat -> SendEnv, n: nat) returns (a: nat)
    requires Pushes(draft, envs, n) > 0
    ensures a <= n && FirstPush(draft, envs, a)
  {
    if Pushes(draft, envs, n - 1) > 0 {
      a := EarliestPush(draft, envs, n - 1);
    } else {
      NoPushes(draft, envs, n - 1);
      a := n;
    }
  }

  lemma StopsAtSuccess(draft: Option<Draft>, envs: nat -> SendEnv, max: nat, a: nat)
    requires 1 <= a <= max && Returned(SendOutcome(draft, envs(a)))
    ensures Attempts(draft, envs, max) <= a
  {
    hide SendOutcome;
    var tools := (j: nat, k: nat) => Returned(SendOutcome(draft, envs(k)));
    assert tools(0, a);
  }

  /** In draft mode nothing is ever pushed. */
  lemma DraftsAreNotPushed(draft: Option<Draft>, envs: nat -> SendEnv, n: nat)
    requires draft.Some? && draft.value.draftMode
    ensures Pushes(draft, envs, n) == 0
  {
    NoPushes(draft, envs, n);
  }

  /**
   In the retry loop the message is pushed again exactly when the first push failed after it, and a later
   attempt gets as far.
   */
  lemma LoopPushesAgainIff(draft: Option<Draft>, envs: nat -> SendEnv, max: nat)
    ensures var n := Attempts(draft, envs, max);
      && Pushes(draft, envs, n) <= n <= max
      && (Pushes(draft, envs, n) > 1 <==>
           exists a: nat, b: nat ::
             a < b <= max && FirstPush(draft, envs, a) && FailsAfterPush(envs(a)) && Pushed(draft, envs(b)))
  {
    var n := Attempts(draft, envs, max);
    PushesBounded(draft, envs, n);
    if draft.Some? && draft.value.draftMode {
      DraftsAreNotPushed(draft, envs, n);
    } else {
      MailsPushedAgainIff(draft, envs, max);
    }
  }

  lemma MailsPushedAgainIff(draft: Option<Draft>, envs: nat -> SendEnv, max: nat)
    requires draft.None? || !draft.value.draftMode
    ensures Pushes(draft, envs, Attempts(draft, envs, max)) > 1 <==>
      exists a: nat, b: nat ::
        a < b <= max && FirstPush(draft, envs, a) && FailsAfterPush(envs(a)) && Pushed(draft, envs(b))
  {
    var n := Attempts(draft, envs, max);
    SeveralPushes(draft, envs, n);
    forall k: nat
      ensures SendOutcome(draft, envs(k)) == Sent <==> Pushed(draft, envs(k)) && !FailsAfterPush(envs(k))
      ensures Returned(SendOutcome(draft, envs(k))) ==> SendOutcome(draft, envs(k)) == Sent
    {
      SendGates(draft, envs(k));
    }
    hide Pushed, FailsAfterPush, SendOutcome, Pushes;
    if a: nat, b: nat :| a < b <= n && FirstPush(draft, envs, a) && Pushed(draft, envs(b)) {
      if !FailsAfterPush(envs(a)) {
        StopsAtSuccess(draft, envs, max, a);
        assert false;
      }
    }
    if a: nat, b: nat :|
      a < b <= max && FirstPush(draft, envs, a) && FailsAfterPush(envs(a)) && Pushed(draft, envs(b))
    {
      if n < b {
        assert Returned(SendOutcome(draft, envs(n)));
        assert a < n;
        assert Pushed(draft, envs(n));
      }
    }
  }

  /**
   One approval of a send step, whatever the rest of the run does: the attempts recorded are those of the
   loop, they push the message at most as often as the attempts allowed, and more than once exactly when
   the first push failed after it, by a failed delivery or a raised exception, and a later attempt pushes.
   */
  lemma ApprovalPushesAgainIff(cfg: Config, s: RunState, id: nat, draft: Option<Draft>, envs: nat -> SendEnv,
      others: ToolOracle)
    requires Inv(s) && DecideError(s, id, "approve") == None
    requires s.approvals[id].stepIdx < |s.steps| && s.steps[s.approvals[id].stepIdx].tool in cfg.tools
    ensures var i := s.approvals[id].stepIdx;
      var r := Approve(cfg, s, id, SendingAt(i, draft, envs, others));
      && i < |r.steps|
      && var pushes := Pushes(draft, envs, r.steps[i].attempts);
         && pushes <= cfg.maxAttempts
         && (pushes > 1 <==>
              exists a: nat, b: nat ::
                && a < b <= cfg.maxAttempts && FirstPush(draft, envs, a)
                && FailsAfterPush(envs(a)) && Pushed(draft, envs(b)))
  {
    var i := s.approvals[id].stepIdx;
    var tools := SendingAt(i, draft, envs, others);
    ApprovedRow(cfg, s, id, tools);
    GateUntried(s, id);
    SameSuccess(tools, (j: nat, k: nat) => Returned(SendOutcome(draft, envs(k))), i, 0, 1, cfg.maxAttempts);
    assert AfterTool(cfg, s.steps[i], i, tools).attempts == Attempts(draft, envs, cfg.maxAttempts);
    LoopPushesAgainIff(draft, envs, cfg.maxAttempts);
  }

  lemma GateUntried(s: RunState, id: nat)
    requires Inv(s) && DecideError(s, id, "approve") == None && s.approvals[id].stepIdx < |s.steps|
    ensures s.steps[s.approvals[id].stepIdx].attempts == 0
  {
  }

  /** The bound is reached: a mailbox that refuses every delivery has the message pushed at every attempt. */
  lemma {:induction false} EveryAttemptPushes(draft: Option<Draft>, envs: nat -> SendEnv, max: nat)
    requires forall k: nat :: 1 <= k <= max ==> Pushed(draft, envs(k)) && FailsAfterPush(envs(k))
    ensures Attempts(draft, envs, max) == max && Pushes(draft, envs, max) == max
  {
    forall k: nat | 1 <= k <= max
      ensures !Returned(SendOutcome(draft, envs(k)))
    {
      SendGates(draft, envs(k));
    }
    AllPush(draft, envs, max);
    hide Pushes;
  }

  lemma {:induction false} AllPush(draft: Option<Draft>, envs: nat -> SendEnv, n: nat)
    requires forall k: nat :: 1 <= k <= n ==> Pushed(draft, envs(k))
    ensures Pushes(draft, envs, n) == n
  {
    if n > 0 {
      AllPush(draft, envs, n - 1);
    }
  }
}
