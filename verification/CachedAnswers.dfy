/**
 Which answers of handlers a keyed request may keep (nexus/core/middleware.py:150-182): JSON, and no server
 error. Over every interleaving of requests on the shared store of `Idempotency`.
 */
module CachedAnswers {
  import opened Idempotency

  /** In the history, the handler of r answered with this response: as JSON, and not with a server error. */
  ghost predicate Made(keys: map<nat, string>, steps: seq<Step>, r: nat, response: Response) {
    && response.status < 500
    && exists k :: 0 <= k < |steps| && steps[k] == Return(r, response, true) && HandlingAt(keys, steps, k, r)
  }

  predicate HandlingAt(keys: map<nat, string>, steps: seq<Step>, k: nat, r: nat)
    requires k <= |steps|
  {
    var s := Run(Start(keys), steps[..k]);
    r in s.phases && s.phases[r] == Handling
  }

  ghost predicate MadeUnder(keys: map<nat, string>, steps: seq<Step>, key: string, response: Response) {
    exists r :: r in keys && keys[r] == key && Made(keys, steps, r, response)
  }

  /** Whatever is stored, about to be, given as own or replayed was made so. */
  ghost predicate AllMade(keys: map<nat, string>, steps: seq<Step>, s: Sys) {
    && Carried(s) && s.keys == keys
    && (forall key :: key in s.store && s.store[key].Stored? ==> MadeUnder(keys, steps, key, s.store[key].response))
    && (forall r :: r in keys && s.phases[r].Storing? ==> Made(keys, steps, r, s.phases[r].response))
    && (forall r :: r in keys && OwnDone(s.phases[r]) ==> Made(keys, steps, r, s.phases[r].ending.response))
    && (forall r :: r in keys && Answered(s.phases[r]) ==>
          MadeUnder(keys, steps, keys[r], s.phases[r].ending.response))
  }

  lemma MadeStays(keys: map<nat, string>, steps: seq<Step>, r: nat, response: Response)
    requires steps != [] && Made(keys, steps[..|steps| - 1], r, response)
    ensures Made(keys, steps, r, response)
  {
    hide Run, Next;
    var front := steps[..|steps| - 1];
    var k :| 0 <= k < |front| && front[k] == Return(r, response, true) && HandlingAt(keys, front, k, r);
    assert front[..k] == steps[..k];
    assert HandlingAt(keys, steps, k, r);
  }

  lemma MadeNow(keys: map<nat, string>, steps: seq<Step>, r: nat, response: Response)
    requires steps != [] && steps[|steps| - 1] == Return(r, response, true) && response.status < 500
    requires HandlingAt(keys, steps, |steps| - 1, r)
    ensures Made(keys, steps, r, response)
  {
  }

  /** What was made stays made, so the facts about s hold of the longer history too. */
  lemma AllMadeLonger(keys: map<nat, string>, steps: seq<Step>, s: Sys)
    requires steps != [] && AllMade(keys, steps[..|steps| - 1], s)
    ensures AllMade(keys, steps, s)
  {
    var front := steps[..|steps| - 1];
    forall r, response | Made(keys, front, r, response)
      ensures Made(keys, steps, r, response)
    {
      MadeStays(keys, steps, r, response);
    }
    hide Made;
    forall key, response | MadeUnder(keys, front, key, response)
      ensures MadeUnder(keys, steps, key, response)
    {
      var r :| r in keys && keys[r] == key && Made(keys, front, r, response);
      assert Made(keys, steps, r, response);
    }
  }

  lemma CarriedStep(s: Sys, step: Step)
    requires Carried(s)
    ensures Carried(Next(s, step)) && WellFormed(s)
    ensures Enabled(s, step) && (step.ReadClaim? || step.DeleteClaim?) ==>
      s.phases[step.r].ending.PassedThrough? || s.phases[step.r].ending.HandlerRaised?
  {
  }

  /** One request moves on to a phase that keeps only what was made. */
  lemma MoveMakes(keys: map<nat, string>, steps: seq<Step>, s: Sys, t: Sys, r: nat)
    requires AllMade(keys, steps, s) && Carried(t) && t.keys == keys
    requires r in t.phases && t.phases == s.phases[r := t.phases[r]]
    requires forall key :: key in t.store && t.store[key].Stored? ==> MadeUnder(keys, steps, key, t.store[key].response)
    requires r in keys && t.phases[r].Storing? ==> Made(keys, steps, r, t.phases[r].response)
    requires r in keys && OwnDone(t.phases[r]) ==> Made(keys, steps, r, t.phases[r].ending.response)
    requires r in keys && Answered(t.phases[r]) ==> MadeUnder(keys, steps, keys[r], t.phases[r].ending.response)
    ensures AllMade(keys, steps, t)
  {
    hide Made, MadeUnder, OwnDone, Answered;
  }

  /** What a step leaves in the store was there, or is the response its request was storing. */
  lemma StepStores(s: Sys, step: Step, key: string)
    requires key in Next(s, step).store && Next(s, step).store[key].Stored?
    ensures
      || (key in s.store && s.store[key] == Next(s, step).store[key])
      || (step.Complete? && Enabled(s, step) && s.keys[step.r] == key
          && Next(s, step).store[key] == Stored(s.phases[step.r].response))
  {
  }

  /** Where a step takes its request, as far as responses are concerned. */
  lemma StepPhases(s: Sys, step: Step)
    requires Carried(s) && Enabled(s, step) && !step.Expire?
    ensures var r, t := step.r, Next(s, step);
      && r in s.keys && r in t.phases
      && (t.phases[r].Storing? ==> step == Return(r, t.phases[r].response, true) && t.phases[r].response.status < 500)
      && (OwnDone(t.phases[r]) ==> s.phases[r] == Storing(t.phases[r].ending.response))
      && (Answered(t.phases[r]) && !OwnDone(t.phases[r]) ==>
            s.keys[r] in s.store && s.store[s.keys[r]] == Stored(t.phases[r].ending.response))
      && (step.Return? ==> s.phases[r] == Handling)
      && (step.Complete? ==> s.phases[r].Storing?)
  {
  }

  lemma MadeUnderOwn(keys: map<nat, string>, steps: seq<Step>, r: nat, response: Response)
    requires r in keys && Made(keys, steps, r, response)
    ensures MadeUnder(keys, steps, keys[r], response)
  {
    hide Made;
  }

  lemma StepMakes(keys: map<nat, string>, steps: seq<Step>, s: Sys)
    requires steps != [] && s == Run(Start(keys), steps[..|steps| - 1]) && AllMade(keys, steps, s)
    ensures AllMade(keys, steps, Next(s, steps[|steps| - 1]))
  {
    var step := steps[|steps| - 1];
    var t := Next(s, step);
    CarriedStep(s, step);
    if Enabled(s, step) && !step.Expire? {
      StepPhases(s, step);
      NextShape(s, step);
      if t.phases[step.r].Storing? {
        MadeNow(keys, steps, step.r, t.phases[step.r].response);
      }
    }
    hide Made, MadeUnder, Run, Carried, Next, OwnDone, Answered, Enabled;
    forall key | key in t.store && t.store[key].Stored?
      ensures MadeUnder(keys, steps, key, t.store[key].response)
    {
      StepStores(s, step, key);
      if step.Complete? && Enabled(s, step) && s.keys[step.r] == key {
        MadeUnderOwn(keys, steps, step.r, s.phases[step.r].response);
      }
    }
    if Enabled(s, step) && !step.Expire? {
      if OwnDone(t.phases[step.r]) {
        MadeUnderOwn(keys, steps, step.r, t.phases[step.r].ending.response);
      }
      MoveMakes(keys, steps, s, t, step.r);
    } else {
      StillMade(keys, steps, s, step);
    }
  }

  lemma StillMade(keys: map<nat, string>, steps: seq<Step>, s: Sys, step: Step)
    requires AllMade(keys, steps, s) && (!Enabled(s, step) || step.Expire?)
    ensures AllMade(keys, steps, Next(s, step))
  {
    hide Made, MadeUnder, OwnDone, Answered;
  }

  lemma {:induction false} AllMadeEveryRun(keys: map<nat, string>, steps: seq<Step>)
    ensures AllMade(keys, steps, Run(Start(keys), steps))
    decreases |steps|
  {
    hide AllMade, Next;
    if steps == [] {
      NothingMade(keys);
    } else {
      AllMadeEveryRun(keys, steps[..|steps| - 1]);
      AllMadeLonger(keys, steps, Run(Start(keys), steps[..|steps| - 1]));
      StepMakes(keys, steps, Run(Start(keys), steps[..|steps| - 1]));
    }
  }

  lemma NothingMade(keys: map<nat, string>)
    ensures AllMade(keys, [], Start(keys))
  {
  }

  /**
   In every history, expiries included: a response that is stored was made by a handler under that key, and
   so was one given as a request's own, by its own handler, and one that is replayed; and what a handler
   made was JSON and no server error.
   */
  lemma OnlyJsonBelow500IsKept(keys: map<nat, string>, steps: seq<Step>, key: string, r: nat)
    ensures var s := Run(Start(keys), steps);
      && WellFormed(s) && s.keys == keys
      && (key in s.store && s.store[key].Stored? ==> MadeUnder(keys, steps, key, s.store[key].response))
      && (r in keys && s.phases[r].Finished? && s.phases[r].ending.Own? ==>
            Made(keys, steps, r, s.phases[r].ending.response))
      && (r in keys && s.phases[r].Finished? && s.phases[r].ending.Replayed? ==>
            MadeUnder(keys, steps, keys[r], s.phases[r].ending.response))
  {
    hide Run, Made, MadeUnder;
    AllMadeEveryRun(keys, steps);
  }

  /** The ways of a request whose answer is passed through. */
  predicate PassesThrough(p: Phase, response: Response) {
    p in {Releasing(PassedThrough(response)), Deleting(PassedThrough(response)), Finished(PassedThrough(response))}
  }

  lemma PassingStep(s: Sys, step: Step, r: nat, response: Response)
    requires r in s.keys && r in s.phases && PassesThrough(s.phases[r], response)
    ensures r in Next(s, step).phases && PassesThrough(Next(s, step).phases[r], response)
  {
  }

  lemma {:induction false} PassesOn(s: Sys, steps: seq<Step>, r: nat, response: Response)
    requires r in s.keys && r in s.phases && PassesThrough(s.phases[r], response)
    ensures r in Run(s, steps).phases && PassesThrough(Run(s, steps).phases[r], response)
    decreases |steps|
  {
    hide Next, PassesThrough;
    if steps != [] {
      PassesOn(s, steps[..|steps| - 1], r, response);
      KeysKept(s, steps[..|steps| - 1]);
      PassingStep(Run(s, steps[..|steps| - 1]), steps[|steps| - 1], r, response);
    }
  }

  lemma {:induction false} InvStays(s: Sys, steps: seq<Step>)
    requires Inv(s) && NoExpiry(steps)
    ensures Inv(Run(s, steps))
    decreases |steps|
  {
    hide Inv, Next;
    if steps != [] {
      InvStays(s, steps[..|steps| - 1]);
      NextInv(Run(s, steps[..|steps| - 1]), steps[|steps| - 1]);
    }
  }

  lemma UncachedStep(s: Sys, r: nat, response: Response, json: bool)
    requires Inv(s) && Enabled(s, Return(r, response, json)) && (response.status >= 500 || !json)
    ensures var t := Next(s, Return(r, response, json));
      Inv(t) && t.keys == s.keys && t.store == s.store && r in t.phases
        && t.phases[r] == Releasing(PassedThrough(response))
  {
    NextInv(s, Return(r, response, json));
    hide Inv;
  }

  /** A request past its release: what its key holds is another's. */
  lemma FinishedLeavesKey(t: Sys, r: nat, response: Response)
    requires Inv(t) && r in t.keys && t.phases[r] == Finished(PassedThrough(response))
    ensures t.keys[r] in t.store ==> exists q :: q != r && (OwnerOf(t, q, t.keys[r]) || StoredBy(t, q, t.keys[r]))
  {
    if t.keys[r] in t.store {
      if t.store[t.keys[r]].Stored? {
        var q :| StoredBy(t, q, t.keys[r]);
      } else {
        var q :| OwnerOf(t, q, t.keys[r]);
      }
    }
  }

  /**
   A handler that answers with a server error, or not as JSON, in a history without expiry: whatever
   follows, its answer is only passed through. On the way its claim is still there, and its delete frees the
   key; once it has finished, whatever its key holds is claimed or was stored by another request.
   */
  lemma UncachedReleasesTheKey(s: Sys, r: nat, response: Response, json: bool, steps: seq<Step>)
    requires Inv(s) && Enabled(s, Return(r, response, json)) && (response.status >= 500 || !json) && NoExpiry(steps)
    ensures var t := Run(Next(s, Return(r, response, json)), steps);
      var key := s.keys[r];
      && t.keys == s.keys && r in t.phases && PassesThrough(t.phases[r], response)
      && (t.phases[r].Releasing? ==> Next(t, ReadClaim(r)) == Move(t, r, Deleting(PassedThrough(response))))
      && (t.phases[r].Deleting? ==> Free(Next(t, DeleteClaim(r)), key))
      && (t.phases[r].Finished? && key in t.store ==>
            exists q :: q != r && (OwnerOf(t, q, key) || StoredBy(t, q, key)))
  {
    var u := Next(s, Return(r, response, json));
    UncachedStep(s, r, response, json);
    hide Run, Next, Inv, Free, OwnerOf, StoredBy;
    InvStays(u, steps);
    KeysKept(u, steps);
    PassesOn(u, steps, r, response);
    PassingWays(Run(u, steps), r, response);
  }

  lemma PassingWays(t: Sys, r: nat, response: Response)
    requires Inv(t) && r in t.keys && r in t.phases && PassesThrough(t.phases[r], response)
    ensures t.phases[r].Releasing? ==> Next(t, ReadClaim(r)) == Move(t, r, Deleting(PassedThrough(response)))
    ensures t.phases[r].Deleting? ==> Free(Next(t, DeleteClaim(r)), t.keys[r])
    ensures t.phases[r].Finished? && t.keys[r] in t.store ==>
      exists q :: q != r && (OwnerOf(t, q, t.keys[r]) || StoredBy(t, q, t.keys[r]))
  {
    InvWellFormed(t);
    if t.phases[r].Releasing? {
      OwnerHoldsClaim(t, r);
      hide Inv, Claims, Answers, Carried, Started, Next, Free, OwnerOf, StoredBy;
      ReadingWay(t, r);
    } else if t.phases[r].Deleting? {
      hide Inv, Claims, Answers, Carried, Started, Next, Free, OwnerOf, StoredBy;
      ReleaseFrees(t, r);
    } else {
      hide Inv, Claims, Answers, Carried, Started, Next, Free, OwnerOf, StoredBy;
      FinishedLeavesKey(t, r, response);
    }
  }

  /** A release that finds its claim goes on to delete it. */
  lemma ReadingWay(t: Sys, r: nat)
    requires WellFormed(t) && r in t.keys && t.phases[r].Releasing?
    requires t.keys[r] in t.store && t.store[t.keys[r]] == InProgress
    ensures Next(t, ReadClaim(r)) == Move(t, r, Deleting(t.phases[r].ending))
  {
  }

  lemma CacheableStep(s: Sys, r: nat, response: Response)
    requires Inv(s) && Enabled(s, Return(r, response, true)) && response.status < 500
    ensures var t := Next(s, Return(r, response, true));
      Inv(t) && t.keys == s.keys && r in t.keys && r in t.phases && t.phases[r] == Storing(response)
  {
    NextInv(s, Return(r, response, true));
    hide Inv, Claims, Answers, Carried, Started;
  }

  lemma CachedStep(s: Sys, step: Step, r: nat, response: Response)
    requires r in s.keys && r in s.phases
    requires s.phases[r] in {Storing(response), Finished(Own(response)), Finished(ClaimLost)}
    ensures r in Next(s, step).phases
    ensures Next(s, step).phases[r] in {Storing(response), Finished(Own(response)), Finished(ClaimLost)}
  {
  }

  lemma {:induction false} CachedOn(s: Sys, steps: seq<Step>, r: nat, response: Response)
    requires r in s.keys && r in s.phases
    requires s.phases[r] in {Storing(response), Finished(Own(response)), Finished(ClaimLost)}
    ensures r in Run(s, steps).phases
    ensures Run(s, steps).phases[r] in {Storing(response), Finished(Own(response)), Finished(ClaimLost)}
    decreases |steps|
  {
    hide Next;
    if steps != [] {
      CachedOn(s, steps[..|steps| - 1], r, response);
      KeysKept(s, steps[..|steps| - 1]);
      CachedStep(Run(s, steps[..|steps| - 1]), steps[|steps| - 1], r, response);
    }
  }

  /** Any other answer is on its way to the store, and in it once the request has it as its own. */
  lemma CachedIsStored(s: Sys, r: nat, response: Response, steps: seq<Step>)
    requires Inv(s) && Enabled(s, Return(r, response, true)) && response.status < 500 && NoExpiry(steps)
    ensures var t := Run(Next(s, Return(r, response, true)), steps);
      && t.keys == s.keys && r in t.phases
      && t.phases[r] in {Storing(response), Finished(Own(response)), Finished(ClaimLost)}
      && (t.phases[r] == Finished(Own(response)) ==> s.keys[r] in t.store && t.store[s.keys[r]] == Stored(response))
      && (t.phases[r].Storing? ==> Next(t, Complete(r)).phases == t.phases[r := Finished(Own(response))])
  {
    hide Run, Next, Inv;
    var u := Next(s, Return(r, response, true));
    CacheableStep(s, r, response);
    InvStays(u, steps);
    KeysKept(u, steps);
    CachedOn(u, steps, r, response);
    CachedWays(Run(u, steps), r, response);
  }

  lemma CachedWays(t: Sys, r: nat, response: Response)
    requires Inv(t) && r in t.keys && r in t.phases
    ensures t.phases[r] == Finished(Own(response)) ==>
      t.keys[r] in t.store && t.store[t.keys[r]] == Stored(response)
    ensures t.phases[r] == Storing(response) ==>
      Next(t, Complete(r)).phases == t.phases[r := Finished(Own(response))]
  {
    InvWellFormed(t);
    if t.phases[r] == Finished(Own(response)) {
      assert Answered(t.phases[r]);
    }
    hide Claims, Carried, Started;
  }

  // ---- Who takes a response away -----------------------------------------------------------

  /** Before entry k of the history the key of r is claimed in the store. */
  predicate ClaimedAt(keys: map<nat, string>, steps: seq<Step>, k: nat, r: nat)
    requires k <= |steps|
  {
    var s := Run(Start(keys), steps[..k]);
    r in s.keys && s.keys[r] in s.store && s.store[s.keys[r]] == InProgress
  }

  ghost predicate FoundClaim(keys: map<nat, string>, steps: seq<Step>, r: nat) {
    exists k :: 0 <= k < |steps| && steps[k] == ReadClaim(r) && ClaimedAt(keys, steps, k, r)
  }

  lemma FoundStays(keys: map<nat, string>, steps: seq<Step>, r: nat)
    requires steps != [] && FoundClaim(keys, steps[..|steps| - 1], r)
    ensures FoundClaim(keys, steps, r)
  {
    hide Run, Next;
    var front := steps[..|steps| - 1];
    var k :| 0 <= k < |front| && front[k] == ReadClaim(r) && ClaimedAt(keys, front, k, r);
    assert front[..k] == steps[..k];
    assert ClaimedAt(keys, steps, k, r);
  }

  /** A request comes to delete by reading a claim, and by nothing else. */
  lemma DeletingStep(s: Sys, step: Step, r: nat)
    requires r in s.phases && r in Next(s, step).phases && Next(s, step).phases[r].Deleting?
    ensures
      || s.phases[r].Deleting?
      || (step == ReadClaim(r) && r in s.keys && s.keys[r] in s.store && s.store[s.keys[r]] == InProgress)
  {
  }

  lemma {:induction false} DeletesFoundAClaim(keys: map<nat, string>, steps: seq<Step>, r: nat)
    requires r in Run(Start(keys), steps).phases && Run(Start(keys), steps).phases[r].Deleting?
    ensures FoundClaim(keys, steps, r)
    decreases |steps|
  {
    hide Next;
    if steps != [] {
      var n := |steps| - 1;
      var s := Run(Start(keys), steps[..n]);
      PhasesStay(s, steps[n], r);
      DeletingStep(s, steps[n], r);
      if s.phases[r].Deleting? {
        DeletesFoundAClaim(keys, steps[..n], r);
        FoundStays(keys, steps, r);
      } else {
        assert ClaimedAt(keys, steps, n, r);
      }
    }
  }

  lemma PhasesStay(s: Sys, step: Step, r: nat)
    ensures r in Next(s, step).phases <==> r in s.phases
  {
  }

  lemma LosingStep(s: Sys, step: Step, key: string)
    requires key in s.store && s.store[key].Stored?
    requires key !in Next(s, step).store || Next(s, step).store[key] != s.store[key]
    ensures
      || step == Expire(key)
      || (step.Complete? && step.r in s.keys && s.keys[step.r] == key)
      || (step.DeleteClaim? && step.r in s.keys && s.keys[step.r] == key
          && step.r in s.phases && s.phases[step.r].Deleting?)
  {
  }

  /**
   In every history a stored response goes away only by expiring, by being overwritten by a request of its key
   that completes, or by a release that had found a claim under the key before. A release that finds none, or
   a response, takes nothing away.
   */
  lemma ResponsesGoBy(keys: map<nat, string>, steps: seq<Step>, step: Step, key: string)
    requires var s := Run(Start(keys), steps);
      && key in s.store && s.store[key].Stored?
      && (key !in Next(s, step).store || Next(s, step).store[key] != s.store[key])
    ensures
      || step == Expire(key)
      || (step.Complete? && step.r in keys && keys[step.r] == key)
      || (step.DeleteClaim? && step.r in keys && keys[step.r] == key && FoundClaim(keys, steps, step.r))
  {
    var s := Run(Start(keys), steps);
    KeysKept(Start(keys), steps);
    LosingStep(s, step, key);
    hide Next, Run, FoundClaim;
    if step.DeleteClaim? {
      DeletesFoundAClaim(keys, steps, step.r);
    }
  }
}
