/**
 The idempotency-key protocol (nexus/core/middleware.py:114-182, nexus/core/idempotency.py): any number
 of concurrent requests, each a sequence of separate store operations around its handler, over a
 store shared by all workers. A Redis release is two operations, a read and a delete.
 */
module Idempotency {
  import opened Wrappers

  datatype Response = Response(status: int, body: string)

  /** What the store holds for a key. */
  datatype Entry = InProgress | Stored(response: Response)

  datatype Ending =
    | Replayed(response: Response)
    | Conflict
    | Own(response: Response)
    | PassedThrough(response: Response)
    | HandlerRaised
    | ClaimLost

  /** Where a request stands. From `Handling` to `Deleting` it holds the claim. */
  datatype Phase =
    | Arrived
    | Checking
    | Handling
    | Storing(response: Response)
    | Releasing(ending: Ending)
    | Deleting(ending: Ending)
    | Finished(ending: Ending)

  /** `keys` is the composite key of each request; `runs` the requests whose handler was started. */
  datatype Sys = Sys(
    keys: map<nat, string>,
    phases: map<nat, Phase>,
    store: map<string, Entry>,
    runs: seq<nat>)

  /** `Abandon` is what no handler catches: a cancelled request, or a body that cannot be read. */
  datatype Step =
    | Claim(r: nat)
    | Get(r: nat)
    | Return(r: nat, response: Response, json: bool)
    | RaiseInHandler(r: nat)
    | Complete(r: nat)
    | Abandon(r: nat)
    | ReadClaim(r: nat)
    | DeleteClaim(r: nat)
    | Expire(key: string)

  predicate WellFormed(s: Sys) {
    s.keys.Keys == s.phases.Keys
  }

  predicate Cacheable(response: Response, json: bool) {
    response.status < 500 && json
  }

  predicate Enabled(s: Sys, step: Step) {
    && WellFormed(s)
    && match step
       case Claim(r) => r in s.keys && s.phases[r] == Arrived
       case Get(r) => r in s.keys && s.phases[r] == Checking
       case Return(r, _, _) => r in s.keys && s.phases[r] == Handling
       case RaiseInHandler(r) => r in s.keys && s.phases[r] == Handling
       case Complete(r) => r in s.keys && s.phases[r].Storing?
       case Abandon(r) => r in s.keys && (s.phases[r] == Handling || s.phases[r].Storing?)
       case ReadClaim(r) => r in s.keys && s.phases[r].Releasing?
       case DeleteClaim(r) => r in s.keys && s.phases[r].Deleting?
       case Expire(key) => key in s.store
  }

  function Move(s: Sys, r: nat, p: Phase): Sys {
    s.(phases := s.phases[r := p])
  }

  /** One step of one request; a step that is not enabled does nothing. */
  function Next(s: Sys, step: Step): Sys {
    if !Enabled(s, step) then s
    else
      match step
      case Claim(r) =>
        if s.keys[r] in s.store then Move(s, r, Checking)
        else Move(s, r, Handling).(store := s.store[s.keys[r] := InProgress], runs := s.runs + [r])
      case Get(r) =>
        var key := s.keys[r];
        Move(s, r, Finished(
          if key in s.store && s.store[key].Stored? then Replayed(s.store[key].response) else Conflict))
      case Return(r, response, json) =>
        Move(s, r, if Cacheable(response, json) then Storing(response) else Releasing(PassedThrough(response)))
      case RaiseInHandler(r) => Move(s, r, Releasing(HandlerRaised))
      case Complete(r) =>
        var response := s.phases[r].response;
        Move(s, r, Finished(Own(response))).(store := s.store[s.keys[r] := Stored(response)])
      case Abandon(r) => Move(s, r, Finished(ClaimLost))
      case ReadClaim(r) =>
        var key := s.keys[r];
        if key in s.store && s.store[key] == InProgress then Move(s, r, Deleting(s.phases[r].ending))
        else Move(s, r, Finished(s.phases[r].ending))
      case DeleteClaim(r) =>
        Move(s, r, Finished(s.phases[r].ending)).(store := s.store - {s.keys[r]})
      case Expire(key) => s.(store := s.store - {key})
  }

  function Run(s: Sys, steps: seq<Step>): Sys {
    if steps == [] then s else Next(Run(s, steps[..|steps| - 1]), steps[|steps| - 1])
  }

  predicate NoExpiry(steps: seq<Step>) {
    forall k :: 0 <= k < |steps| ==> !steps[k].Expire?
  }

  function Start(keys: map<nat, string>): Sys {
    Sys(keys, map r | r in keys :: Arrived, map[], [])
  }

  // ---- The invariant ---------------------------------------------------------------------

  /** The request holds the claim of its key; an abandoned claim is held for ever. */
  predicate Owns(p: Phase) {
    p.Handling? || p.Storing? || p.Releasing? || p.Deleting? || p == Finished(ClaimLost)
  }

  predicate OwnerOf(s: Sys, r: nat, key: string) {
    r in s.keys && r in s.phases && s.keys[r] == key && Owns(s.phases[r])
  }

  predicate OwnDone(p: Phase) {
    p.Finished? && p.ending.Own?
  }

  predicate Answered(p: Phase) {
    p.Finished? && (p.ending.Own? || p.ending.Replayed?)
  }

  /** A key is claimed exactly while one request owns it. */
  ghost predicate Claims(s: Sys) {
    && WellFormed(s)
    && (forall r, q ::
          r in s.keys && q in s.keys && s.keys[r] == s.keys[q] && Owns(s.phases[r]) && Owns(s.phases[q]) ==> r == q)
    && (forall r :: r in s.keys && Owns(s.phases[r]) ==> s.keys[r] in s.store && s.store[s.keys[r]] == InProgress)
    && (forall key :: key in s.store && s.store[key] == InProgress ==> exists r :: OwnerOf(s, r, key))
  }

  /** What was answered is what is stored, by one request. */
  ghost predicate Answers(s: Sys) {
    && WellFormed(s)
    && (forall r :: r in s.keys && Answered(s.phases[r]) ==>
          s.keys[r] in s.store && s.store[s.keys[r]] == Stored(s.phases[r].ending.response))
    && (forall r, q ::
          r in s.keys && q in s.keys && s.keys[r] == s.keys[q] && OwnDone(s.phases[r]) && OwnDone(s.phases[q]) ==>
            r == q)
    && (forall key :: key in s.store && s.store[key].Stored? ==> exists r :: StoredBy(s, r, key))
  }

  /** Endings carried through a release are the two a release can have. */
  ghost predicate Carried(s: Sys) {
    && WellFormed(s)
    && forall r :: r in s.keys && (s.phases[r].Releasing? || s.phases[r].Deleting?) ==>
         s.phases[r].ending.PassedThrough? || s.phases[r].ending.HandlerRaised?
  }

  /** A handler is started at most once a request, by the requests that are past the claim. */
  ghost predicate Started(s: Sys) {
    && WellFormed(s)
    && (forall a :: 0 <= a < |s.runs| ==> s.runs[a] in s.keys && s.phases[s.runs[a]] !in {Arrived, Checking})
    && (forall a, b :: 0 <= a < b < |s.runs| ==> s.runs[a] != s.runs[b])
  }

  ghost predicate Inv(s: Sys) {
    Claims(s) && Answers(s) && Carried(s) && Started(s)
  }

  predicate StoredBy(s: Sys, r: nat, key: string) {
    && r in s.keys && r in s.phases && s.keys[r] == key && key in s.store && s.store[key].Stored?
    && s.phases[r] == Finished(Own(s.store[key].response))
  }

  lemma StartInv(keys: map<nat, string>)
    ensures Inv(Start(keys))
  {
  }

  /** A request that moves on without touching the store. */
  lemma MoveInv(s: Sys, r: nat, p: Phase)
    requires Inv(s) && r in s.keys
    requires Owns(p) == Owns(s.phases[r])
    requires !OwnDone(s.phases[r]) && !OwnDone(p)
    requires Answered(p) ==> s.keys[r] in s.store && s.store[s.keys[r]] == Stored(p.ending.response)
    requires p.Releasing? || p.Deleting? ==> p.ending.PassedThrough? || p.ending.HandlerRaised?
    requires p in {Arrived, Checking} ==> s.phases[r] == Arrived
    ensures Inv(Move(s, r, p))
  {
    MoveClaims(s, r, p);
    MoveAnswers(s, r, p);
    MoveCarried(s, r, p);
    hide Claims, Answers, Carried, Started, Owns, OwnDone, Answered;
  }

  lemma MoveCarried(s: Sys, r: nat, p: Phase)
    requires Carried(s) && Started(s) && r in s.keys
    requires p.Releasing? || p.Deleting? ==> p.ending.PassedThrough? || p.ending.HandlerRaised?
    requires p in {Arrived, Checking} ==> s.phases[r] == Arrived
    ensures Carried(Move(s, r, p)) && Started(Move(s, r, p))
  {
  }

  lemma MoveClaims(s: Sys, r: nat, p: Phase)
    requires Claims(s) && r in s.keys && Owns(p) == Owns(s.phases[r])
    ensures Claims(Move(s, r, p))
  {
    var t := Move(s, r, p);
    forall key | key in t.store && t.store[key] == InProgress
      ensures exists q :: OwnerOf(t, q, key)
    {
      var q :| OwnerOf(s, q, key);
      assert OwnerOf(t, q, key);
    }
  }

  lemma MoveAnswers(s: Sys, r: nat, p: Phase)
    requires Answers(s) && r in s.keys && !OwnDone(s.phases[r]) && !OwnDone(p)
    requires Answered(p) ==> s.keys[r] in s.store && s.store[s.keys[r]] == Stored(p.ending.response)
    ensures Answers(Move(s, r, p))
  {
    hide Owns;
    var t := Move(s, r, p);
    forall key | key in t.store && t.store[key].Stored?
      ensures exists q :: StoredBy(t, q, key)
    {
      var q :| StoredBy(s, q, key);
      assert StoredBy(t, q, key);
    }
  }

  ghost predicate SameElsewhere(a: map<string, Entry>, b: map<string, Entry>, key: string) {
    forall k :: k != key ==> (k in a <==> k in b) && (k in a && k in b ==> a[k] == b[k])
  }

  /** What a write of r's own key, with r's move, does to the other keys: nothing. */
  lemma WriteClaims(s: Sys, t: Sys, r: nat, p: Phase)
    requires Claims(s) && r in s.keys && s.phases[r] != Finished(ClaimLost)
    requires t.keys == s.keys && t.phases == s.phases[r := p]
    requires SameElsewhere(s.store, t.store, s.keys[r])
    requires s.keys[r] !in s.store || Owns(s.phases[r])
    requires Owns(p) <==> s.keys[r] in t.store && t.store[s.keys[r]] == InProgress
    ensures Claims(t)
  {
    forall key | key in t.store && t.store[key] == InProgress
      ensures exists q :: OwnerOf(t, q, key)
    {
      if key == s.keys[r] {
        assert OwnerOf(t, r, key);
      } else {
        var q :| OwnerOf(s, q, key);
        assert OwnerOf(t, q, key);
      }
    }
    forall q | q in t.keys && Owns(t.phases[q])
      ensures t.keys[q] in t.store && t.store[t.keys[q]] == InProgress
    {
      if q != r {
        assert t.keys[q] != s.keys[r];
      }
    }
  }

  lemma WriteStored(s: Sys, t: Sys, r: nat, p: Phase)
    requires Answers(s) && r in s.keys && !OwnDone(s.phases[r])
    requires s.keys[r] !in s.store || s.store[s.keys[r]] == InProgress
    requires t.keys == s.keys && t.phases == s.phases[r := p]
    requires SameElsewhere(s.store, t.store, s.keys[r])
    requires s.keys[r] in t.store && t.store[s.keys[r]].Stored? ==> p == Finished(Own(t.store[s.keys[r]].response))
    requires Answered(p) ==> s.keys[r] in t.store && t.store[s.keys[r]].Stored?
    ensures forall key :: key in t.store && t.store[key].Stored? ==> exists q :: StoredBy(t, q, key)
  {
    hide Owns;
    forall key | key in t.store && t.store[key].Stored?
      ensures exists q :: StoredBy(t, q, key)
    {
      if key == s.keys[r] {
        assert StoredBy(t, r, key);
      } else {
        var q :| StoredBy(s, q, key);
        assert StoredBy(t, q, key);
      }
    }
  }

  lemma WriteAnswered(s: Sys, t: Sys, r: nat, p: Phase)
    requires Answers(s) && r in s.keys && !OwnDone(s.phases[r])
    requires s.keys[r] !in s.store || s.store[s.keys[r]] == InProgress
    requires t.keys == s.keys && t.phases == s.phases[r := p]
    requires SameElsewhere(s.store, t.store, s.keys[r])
    requires s.keys[r] in t.store && t.store[s.keys[r]].Stored? ==> p == Finished(Own(t.store[s.keys[r]].response))
    requires Answered(p) ==> s.keys[r] in t.store && t.store[s.keys[r]].Stored?
    ensures forall q :: q in t.keys && Answered(t.phases[q]) ==>
      t.keys[q] in t.store && t.store[t.keys[q]] == Stored(t.phases[q].ending.response)
  {
    hide Owns;
    forall q | q in t.keys && Answered(t.phases[q])
      ensures t.keys[q] in t.store && t.store[t.keys[q]] == Stored(t.phases[q].ending.response)
    {
      if q != r {
        assert t.keys[q] != s.keys[r];
      }
    }
  }

  lemma WriteAnswers(s: Sys, t: Sys, r: nat, p: Phase)
    requires Answers(s) && r in s.keys && !OwnDone(s.phases[r])
    requires s.keys[r] !in s.store || s.store[s.keys[r]] == InProgress
    requires t.keys == s.keys && t.phases == s.phases[r := p]
    requires SameElsewhere(s.store, t.store, s.keys[r])
    requires s.keys[r] in t.store && t.store[s.keys[r]].Stored? ==> p == Finished(Own(t.store[s.keys[r]].response))
    requires Answered(p) ==> s.keys[r] in t.store && t.store[s.keys[r]].Stored?
    ensures Answers(t)
  {
    WriteStored(s, t, r, p);
    WriteAnswered(s, t, r, p);
    hide Owns, StoredBy, Answered, SameElsewhere;
    NoSecondOwn(s, r);
  }

  /** Nobody has answered under a key that is free or claimed. */
  lemma NoSecondOwn(s: Sys, r: nat)
    requires Answers(s) && r in s.keys && (s.keys[r] !in s.store || s.store[s.keys[r]] == InProgress)
    ensures forall q :: q in s.keys && s.keys[q] == s.keys[r] ==> !OwnDone(s.phases[q])
  {
    assert forall q :: q in s.keys && OwnDone(s.phases[q]) ==> Answered(s.phases[q]);
  }

  lemma ClaimKeeps(s: Sys, r: nat)
    requires Carried(s) && Started(s) && Enabled(s, Claim(r)) && s.keys[r] !in s.store
    ensures var t := Next(s, Claim(r));
      && Carried(t) && Started(t) && SameElsewhere(s.store, t.store, s.keys[r])
      && t.keys == s.keys && t.phases == s.phases[r := Handling] && t.store == s.store[s.keys[r] := InProgress]
  {
  }

  lemma ClaimInv(s: Sys, r: nat)
    requires Inv(s) && Enabled(s, Claim(r)) && s.keys[r] !in s.store
    ensures Inv(Next(s, Claim(r)))
  {
    ClaimKeeps(s, r);
    hide Next, Claims, Answers, SameElsewhere;
    WriteClaims(s, Next(s, Claim(r)), r, Handling);
    WriteAnswers(s, Next(s, Claim(r)), r, Handling);
  }

  lemma ReadInv(s: Sys, r: nat)
    requires Inv(s) && Enabled(s, ReadClaim(r))
    ensures Inv(Next(s, ReadClaim(r)))
  {
    OwnerHoldsClaim(s, r);
    CarriedEnding(s, r);
    hide Claims, Answers, Carried, Started, Inv;
    MoveInv(s, r, Deleting(s.phases[r].ending));
  }

  lemma CarriedEnding(s: Sys, r: nat)
    requires Carried(s) && r in s.keys && s.phases[r].Releasing?
    ensures s.phases[r].ending.PassedThrough? || s.phases[r].ending.HandlerRaised?
  {
  }

  lemma CompleteInv(s: Sys, r: nat)
    requires Inv(s) && Enabled(s, Complete(r))
    ensures Inv(Next(s, Complete(r)))
  {
    var t := Next(s, Complete(r));
    OwnerHoldsClaim(s, r);
    WriteKeeps(s, Complete(r));
    hide Next, Claims, Answers, SameElsewhere;
    WriteClaims(s, t, r, t.phases[r]);
    WriteAnswers(s, t, r, t.phases[r]);
  }

  lemma DeleteInv(s: Sys, r: nat)
    requires Inv(s) && Enabled(s, DeleteClaim(r))
    ensures Inv(Next(s, DeleteClaim(r)))
  {
    var t := Next(s, DeleteClaim(r));
    OwnerHoldsClaim(s, r);
    WriteKeeps(s, DeleteClaim(r));
    hide Next, Claims, Answers, SameElsewhere;
    WriteClaims(s, t, r, t.phases[r]);
    WriteAnswers(s, t, r, t.phases[r]);
  }

  lemma OwnerHoldsClaim(s: Sys, r: nat)
    requires Claims(s) && r in s.keys && Owns(s.phases[r])
    ensures s.keys[r] in s.store && s.store[s.keys[r]] == InProgress
  {
  }

  lemma WriteKeeps(s: Sys, step: Step)
    requires Carried(s) && Started(s) && Enabled(s, step) && (step.Complete? || step.DeleteClaim?)
    ensures var t := Next(s, step);
      && Carried(t) && Started(t) && SameElsewhere(s.store, t.store, s.keys[step.r])
      && t.keys == s.keys && t.phases == s.phases[step.r := t.phases[step.r]]
      && (step.Complete? ==> t.phases[step.r] == Finished(Own(s.phases[step.r].response)))
      && (step.Complete? ==> t.store == s.store[s.keys[step.r] := Stored(s.phases[step.r].response)])
      && (step.DeleteClaim? ==> t.phases[step.r] == Finished(s.phases[step.r].ending))
      && (step.DeleteClaim? ==> t.store == s.store - {s.keys[step.r]})
      && (step.DeleteClaim? ==> s.phases[step.r].ending.PassedThrough? || s.phases[step.r].ending.HandlerRaised?)
  {
  }

  lemma NextInv(s: Sys, step: Step)
    requires Inv(s) && !step.Expire?
    ensures Inv(Next(s, step))
  {
    hide Inv, Claims, Answers, Carried, Started;
    if Enabled(s, step) {
      match step
      case Claim(r) =>
        if s.keys[r] in s.store {
          MoveInv(s, r, Checking);
        } else {
          ClaimInv(s, r);
        }
      case Get(r) =>
        var key := s.keys[r];
        MoveInv(s, r, Finished(
          if key in s.store && s.store[key].Stored? then Replayed(s.store[key].response) else Conflict));
      case Return(r, response, json) =>
        MoveInv(s, r, if Cacheable(response, json) then Storing(response) else Releasing(PassedThrough(response)));
      case RaiseInHandler(r) => MoveInv(s, r, Releasing(HandlerRaised));
      case Complete(r) => CompleteInv(s, r);
      case Abandon(r) => MoveInv(s, r, Finished(ClaimLost));
      case ReadClaim(r) => ReadInv(s, r);
      case DeleteClaim(r) => DeleteInv(s, r);
    }
  }

  lemma {:induction false} RunInv(keys: map<nat, string>, steps: seq<Step>)
    requires NoExpiry(steps)
    ensures Inv(Run(Start(keys), steps))
    decreases |steps|
  {
    hide Inv, Next;
    StartInv(keys);
    if steps != [] {
      RunInv(keys, steps[..|steps| - 1]);
      NextInv(Run(Start(keys), steps[..|steps| - 1]), steps[|steps| - 1]);
    }
  }

  // ---- The theorems ----------------------------------------------------------------------

  /**
   Under every interleaving: two requests with the same key never have their handlers in flight
   together; all answers given under a key, first or replayed, are the one stored response; and at
   most one request of a key has its own response stored.
   */
  lemma OneHandlerOneAnswer(keys: map<nat, string>, steps: seq<Step>, r: nat, q: nat)
    requires NoExpiry(steps) && r in keys && q in keys && r != q && keys[r] == keys[q]
    ensures var s := Run(Start(keys), steps);
      && s.keys == keys && WellFormed(s)
      && !(s.phases[r] == Handling && s.phases[q] == Handling)
      && !(s.phases[r].Finished? && s.phases[r].ending.Own? && s.phases[q].Finished? && s.phases[q].ending.Own?)
      && (s.phases[r].Finished? && (s.phases[r].ending.Own? || s.phases[r].ending.Replayed?)
          && s.phases[q].Finished? && (s.phases[q].ending.Own? || s.phases[q].ending.Replayed?) ==>
            s.phases[r].ending.response == s.phases[q].ending.response)
  {
    hide Next, Run;
    RunInv(keys, steps);
    KeysKept(Start(keys), steps);
  }

  lemma {:induction false} KeysKept(s: Sys, steps: seq<Step>)
    ensures Run(s, steps).keys == s.keys
    decreases |steps|
  {
    if steps != [] {
      KeysKept(s, steps[..|steps| - 1]);
    }
  }

  /** Only the owner of a claim writes its key, from the claim to the completion or the delete. */
  lemma OnlyTheOwnerWrites(s: Sys, step: Step, key: string)
    requires !step.Expire? && key in s.store && s.store[key] == InProgress
    requires key !in Next(s, step).store || Next(s, step).store[key] != InProgress
    ensures (step.Complete? || step.DeleteClaim?) && OwnerOf(s, step.r, key)
  {
  }

  /** Once a response is stored it stays, and no handler of that key is started again. */
  lemma {:induction false} StoredForGood(s: Sys, steps: seq<Step>, key: string)
    requires Inv(s) && NoExpiry(steps) && key in s.store && s.store[key].Stored?
    ensures var t := Run(s, steps);
      && Inv(t) && t.keys == s.keys
      && key in t.store && t.store[key] == s.store[key]
      && s.runs <= t.runs
      && (forall a :: |s.runs| <= a < |t.runs| ==> t.runs[a] in t.keys && t.keys[t.runs[a]] != key)
    decreases |steps|
  {
    hide Inv;
    if steps != [] {
      var mid := Run(s, steps[..|steps| - 1]);
      StoredForGood(s, steps[..|steps| - 1], key);
      NextInv(mid, steps[|steps| - 1]);
      StoredStays(mid, steps[|steps| - 1], key);
    }
  }

  lemma StoredStays(s: Sys, step: Step, key: string)
    requires Inv(s) && !step.Expire? && key in s.store && s.store[key].Stored?
    ensures var t := Next(s, step);
      && t.keys == s.keys && key in t.store && t.store[key] == s.store[key]
      && (t.runs == s.runs || (|t.runs| == |s.runs| + 1 && t.runs[..|s.runs|] == s.runs
            && t.runs[|s.runs|] in t.keys && t.keys[t.runs[|s.runs|]] != key))
  {
    RunsGrow(s, step, key);
    StoredValueStays(s, step, key);
    hide Next, Inv;
  }

  lemma RunsGrow(s: Sys, step: Step, key: string)
    requires key in s.store
    ensures var t := Next(s, step);
      && t.keys == s.keys
      && (t.runs == s.runs || (|t.runs| == |s.runs| + 1 && t.runs[..|s.runs|] == s.runs
            && t.runs[|s.runs|] in t.keys && t.keys[t.runs[|s.runs|]] != key))
  {
    hide Cacheable;
  }

  lemma StoredValueStays(s: Sys, step: Step, key: string)
    requires Inv(s) && !step.Expire? && key in s.store && s.store[key].Stored?
    ensures key in Next(s, step).store && Next(s, step).store[key] == s.store[key]
  {
    if Enabled(s, step) && (step.Complete? || step.DeleteClaim?) {
      OwnerHoldsClaim(s, step.r);
    }
    hide Inv, Claims, Answers, Carried, Started, Owns, Cacheable;
  }

  lemma LateStep(s: Sys, step: Step, r: nat)
    requires r in s.keys && r in s.phases && s.keys[r] in s.store && s.store[s.keys[r]].Stored?
    requires s.phases[r] in {Arrived, Checking} || s.phases[r] == Finished(Replayed(s.store[s.keys[r]].response))
    ensures var t := Next(s, step);
      && r in t.phases
      && (t.phases[r] in {Arrived, Checking} || t.phases[r] == Finished(Replayed(s.store[s.keys[r]].response)))
  {
  }

  /** And every request that arrives after that, and ends, ends with exactly that response. */
  lemma {:induction false} LateRequestReplays(s: Sys, steps: seq<Step>, r: nat)
    requires Inv(s) && NoExpiry(steps) && r in s.keys && s.phases[r] in {Arrived, Checking}
    requires s.keys[r] in s.store && s.store[s.keys[r]].Stored?
    ensures var t := Run(s, steps);
      && r in t.phases
      && (t.phases[r] in {Arrived, Checking} || t.phases[r] == Finished(Replayed(s.store[s.keys[r]].response)))
    decreases |steps|
  {
    InvWellFormed(s);
    hide Inv, Next;
    if steps != [] {
      LateRequestReplays(s, steps[..|steps| - 1], r);
      StoredForGood(s, steps[..|steps| - 1], s.keys[r]);
      LateStep(Run(s, steps[..|steps| - 1]), steps[|steps| - 1], r);
    }
  }

  lemma InvWellFormed(s: Sys)
    requires Inv(s)
    ensures WellFormed(s)
  {
  }

  /** At work on a claim; an abandoned claim has nobody at work on it. */
  predicate AtWork(p: Phase) {
    p.Handling? || p.Storing? || p.Releasing? || p.Deleting?
  }

  // ---- After a release ---------------------------------------------------------------------

  /** Nobody holds the key, in the store or on the way to it. */
  ghost predicate Free(s: Sys, key: string) {
    && WellFormed(s) && key !in s.store
    && forall r :: r in s.keys && s.keys[r] == key ==> !AtWork(s.phases[r])
  }

  /** The step is an attempt to claim the key. */
  predicate ClaimsKey(s: Sys, step: Step, key: string) {
    step.Claim? && step.r in s.keys && s.keys[step.r] == key
  }

  lemma ReleaseFrees(s: Sys, r: nat)
    requires Inv(s) && Enabled(s, DeleteClaim(r))
    ensures Free(Next(s, DeleteClaim(r)), s.keys[r]) && Next(s, DeleteClaim(r)).keys == s.keys
    ensures forall q :: q in s.phases && s.phases[q] == Arrived ==> Next(s, DeleteClaim(r)).phases[q] == Arrived
  {
    OwnerIsUnique(s, r);
    hide Inv, Claims, Answers, Carried, Started, Owns;
  }

  lemma OwnerIsUnique(s: Sys, r: nat)
    requires Claims(s) && r in s.keys && Owns(s.phases[r])
    ensures forall q :: q in s.keys && s.keys[q] == s.keys[r] && q != r ==> !Owns(s.phases[q])
  {
  }

  lemma StaysFree(s: Sys, step: Step, key: string)
    requires Free(s, key) && !ClaimsKey(s, step, key)
    ensures Free(Next(s, step), key) && Next(s, step).keys == s.keys
    ensures forall q :: q in s.keys && s.keys[q] == key && s.phases[q] == Arrived ==> Next(s, step).phases[q] == Arrived
  {
  }

  lemma {:induction false} FreeThroughout(s: Sys, steps: seq<Step>, key: string, q: nat)
    requires Free(s, key) && (forall k :: 0 <= k < |steps| ==> !ClaimsKey(s, steps[k], key))
    requires q in s.keys && s.keys[q] == key && s.phases[q] == Arrived
    ensures var t := Run(s, steps);
      Free(t, key) && t.keys == s.keys && t.phases[q] == Arrived
    decreases |steps|
  {
    hide Next;
    if steps != [] {
      var n := |steps| - 1;
      FreeThroughout(s, steps[..n], key, q);
      StaysFree(Run(s, steps[..n]), steps[n], key);
    }
  }

  /**
   After a release, whatever any requests do in between (expiries included), the first request to claim
   the key gets it.
   */
  lemma ReleaseReopensTheKey(s: Sys, r: nat, steps: seq<Step>, q: nat)
    requires Inv(s) && Enabled(s, DeleteClaim(r)) && q in s.keys && s.keys[q] == s.keys[r] && s.phases[q] == Arrived
    requires forall k :: 0 <= k < |steps| ==> !ClaimsKey(s, steps[k], s.keys[r])
    ensures var t := Run(Next(s, DeleteClaim(r)), steps);
      && Enabled(t, Claim(q)) && Next(t, Claim(q)).phases[q] == Handling
  {
    ReleaseFrees(s, r);
    FreeThroughout(Next(s, DeleteClaim(r)), steps, s.keys[r], q);
    FreeIsClaimed(Run(Next(s, DeleteClaim(r)), steps), s.keys[r], q);
    hide Inv, Run, Free, Next;
  }

  lemma FreeIsClaimed(s: Sys, key: string, q: nat)
    requires Free(s, key) && q in s.keys && s.keys[q] == key && s.phases[q] == Arrived
    ensures Enabled(s, Claim(q)) && Next(s, Claim(q)).phases[q] == Handling
  {
  }

  /** A key stays claimed only while its owner works, or after it abandoned the claim. */
  lemma ClaimedMeansOwned(keys: map<nat, string>, steps: seq<Step>, key: string)
    requires NoExpiry(steps)
    ensures var s := Run(Start(keys), steps);
      key in s.store && s.store[key] == InProgress ==>
        exists r :: OwnerOf(s, r, key) && forall q :: OwnerOf(s, q, key) ==> q == r
  {
    hide Next, Run;
    RunInv(keys, steps);
  }

  // ---- Expiry -------------------------------------------------------------------------------

  ghost predicate LiveOwner(s: Sys, key: string) {
    WellFormed(s) && exists r :: r in s.keys && s.keys[r] == key && AtWork(s.phases[r])
  }

  /** At most one request is at work under a key, and its claim is in the store. */
  ghost predicate LiveClaims(s: Sys) {
    && WellFormed(s)
    && (forall r, q ::
          r in s.keys && q in s.keys && s.keys[r] == s.keys[q] && AtWork(s.phases[r]) && AtWork(s.phases[q]) ==>
            r == q)
    && (forall r :: r in s.keys && AtWork(s.phases[r]) ==> s.keys[r] in s.store && s.store[s.keys[r]] == InProgress)
  }

  /** The invariant of the protocol survives an expiry exactly when what expires is a stored response. */
  lemma ExpiryKeepsClaimsIff(s: Sys, key: string)
    requires Claims(s) && key in s.store
    ensures Claims(Next(s, Expire(key))) <==> s.store[key].Stored?
  {
    var t := Next(s, Expire(key));
    if s.store[key].Stored? {
      forall k | k in t.store && t.store[k] == InProgress
        ensures exists r :: OwnerOf(t, r, k)
      {
        var r :| OwnerOf(s, r, k);
        assert OwnerOf(t, r, k);
      }
    } else {
      var r :| OwnerOf(s, r, key);
      assert r in t.keys && Owns(t.phases[r]) && t.keys[r] !in t.store;
    }
  }

  /** Exclusion alone survives it exactly when nobody is at work under the key. */
  lemma ExpiryKeepsExclusionIff(s: Sys, key: string)
    requires LiveClaims(s) && key in s.store
    ensures LiveClaims(Next(s, Expire(key))) <==> !LiveOwner(s, key)
  {
    var t := Next(s, Expire(key));
    if LiveOwner(s, key) {
      var r :| r in s.keys && s.keys[r] == key && AtWork(s.phases[r]);
      assert r in t.keys && AtWork(t.phases[r]) && t.keys[r] !in t.store;
    }
  }

  /** A request that moves on without touching the store, and does not start work. */
  lemma MoveKeepsExclusion(s: Sys, r: nat, p: Phase)
    requires LiveClaims(s) && r in s.keys && (AtWork(p) ==> AtWork(s.phases[r]))
    ensures LiveClaims(Move(s, r, p))
  {
    hide AtWork;
  }

  /** A request that writes its own key, which no other request is at work under. */
  lemma WriteKeepsExclusion(s: Sys, t: Sys, r: nat, p: Phase)
    requires LiveClaims(s) && r in s.keys && t.keys == s.keys && t.phases == s.phases[r := p]
    requires SameElsewhere(s.store, t.store, s.keys[r])
    requires s.keys[r] !in s.store || AtWork(s.phases[r])
    requires AtWork(p) ==> s.keys[r] in t.store && t.store[s.keys[r]] == InProgress
    ensures LiveClaims(t)
  {
    hide AtWork;
    forall q | q in t.keys && AtWork(t.phases[q])
      ensures t.keys[q] in t.store && t.store[t.keys[q]] == InProgress
    {
      if q != r {
        assert AtWork(s.phases[q]) && t.keys[q] != s.keys[r];
      }
    }
  }

  lemma StepKeepsExclusion(s: Sys, step: Step)
    requires LiveClaims(s) && (step.Expire? ==> !LiveOwner(s, step.key))
    ensures LiveClaims(Next(s, step))
  {
    hide LiveClaims, LiveOwner, SameElsewhere;
    if Enabled(s, step) {
      match step
      case Claim(r) =>
        if s.keys[r] in s.store {
          MoveKeepsExclusion(s, r, Checking);
        } else {
          ElsewhereSame(s.store, s.store[s.keys[r] := InProgress], s.keys[r]);
          WriteKeepsExclusion(s, Next(s, step), r, Handling);
        }
      case Get(r) => MoveKeepsExclusion(s, r, Next(s, step).phases[r]);
      case Return(r, _, _) => MoveKeepsExclusion(s, r, Next(s, step).phases[r]);
      case RaiseInHandler(r) => MoveKeepsExclusion(s, r, Next(s, step).phases[r]);
      case Abandon(r) => MoveKeepsExclusion(s, r, Finished(ClaimLost));
      case Complete(r) =>
        ElsewhereSame(s.store, Next(s, step).store, s.keys[r]);
        WriteKeepsExclusion(s, Next(s, step), r, Next(s, step).phases[r]);
      case ReadClaim(r) => MoveKeepsExclusion(s, r, Next(s, step).phases[r]);
      case DeleteClaim(r) =>
        ElsewhereSame(s.store, Next(s, step).store, s.keys[r]);
        WriteKeepsExclusion(s, Next(s, step), r, Next(s, step).phases[r]);
      case Expire(key) => ExpiryKeepsExclusionIff(s, key);
    }
  }

  lemma ElsewhereSame(a: map<string, Entry>, b: map<string, Entry>, key: string)
    requires b == a - {key} || (key in b && b == a[key := b[key]])
    ensures SameElsewhere(a, b, key)
  {
  }

  /** Every expiry hits a key nobody is at work under. */
  ghost predicate IdleExpiries(s: Sys, steps: seq<Step>) {
    steps == [] ||
    (&& IdleExpiries(s, steps[..|steps| - 1])
     && (steps[|steps| - 1].Expire? ==> !LiveOwner(Run(s, steps[..|steps| - 1]), steps[|steps| - 1].key)))
  }

  lemma {:induction false} ExclusionThroughout(keys: map<nat, string>, steps: seq<Step>)
    requires IdleExpiries(Start(keys), steps)
    ensures LiveClaims(Run(Start(keys), steps))
    decreases |steps|
  {
    hide LiveClaims, Next, LiveOwner;
    if steps == [] {
      StartIsExclusive(keys);
    } else {
      var n := |steps| - 1;
      ExclusionThroughout(keys, steps[..n]);
      StepKeepsExclusion(Run(Start(keys), steps[..n]), steps[n]);
    }
  }

  lemma StartIsExclusive(keys: map<nat, string>)
    ensures LiveClaims(Start(keys))
  {
  }

  ghost predicate TwoHandlers(s: Sys, key: string) {
    && WellFormed(s)
    && exists r, q :: r in s.keys && q in s.keys && r != q && s.keys[r] == key && s.keys[q] == key
         && s.phases[r] == Handling && s.phases[q] == Handling
  }

  /** With such expiries, in any number and at any time, no two handlers of a key are ever in flight. */
  lemma OneHandlerDespiteExpiries(keys: map<nat, string>, steps: seq<Step>, key: string)
    requires IdleExpiries(Start(keys), steps)
    ensures !TwoHandlers(Run(Start(keys), steps), key)
  {
    hide Run, Next, IdleExpiries;
    ExclusionThroughout(keys, steps);
  }

  /**
   And with any other they can be: when a key expires and another request claims it, two handlers of it
   are in flight exactly if one was before.
   */
  lemma ExpiryLetsSecondInIff(s: Sys, key: string, q: nat)
    requires LiveClaims(s) && key in s.store && q in s.keys && s.keys[q] == key && s.phases[q] == Arrived
    ensures TwoHandlers(Next(Next(s, Expire(key)), Claim(q)), key) <==>
      exists r :: r in s.keys && s.keys[r] == key && s.phases[r] == Handling
  {
    ExpireThenClaim(s, key, q);
    hide Next, LiveClaims;
    var t := Next(Next(s, Expire(key)), Claim(q));
    if r :| r in s.keys && s.keys[r] == key && s.phases[r] == Handling {
      assert r in t.keys && q in t.keys && r != q && t.phases[r] == Handling && t.phases[q] == Handling;
    }
    if TwoHandlers(t, key) {
      var a, b :|
        && a in t.keys && b in t.keys && a != b && t.keys[a] == key && t.keys[b] == key
        && t.phases[a] == Handling && t.phases[b] == Handling;
      assert s.phases[if a == q then b else a] == Handling;
    }
  }

  lemma ExpireThenClaim(s: Sys, key: string, q: nat)
    requires WellFormed(s) && key in s.store && q in s.keys && s.keys[q] == key && s.phases[q] == Arrived
    ensures var t := Next(Next(s, Expire(key)), Claim(q));
      WellFormed(t) && t.keys == s.keys && t.phases == s.phases[q := Handling]
  {
  }

  lemma BothAnswer(s: Sys, r: nat, q: nat, response: Response)
    requires WellFormed(s) && r in s.keys && q in s.keys
    requires s.phases[r].Storing? && s.phases[q] == Handling && response.status < 500
    ensures var t := Next(Next(Next(s, Complete(r)), Return(q, response, true)), Complete(q));
      t.phases == s.phases[r := Finished(Own(s.phases[r].response))][q := Finished(Own(response))]
  {
    var a := Next(s, Complete(r));
    assert WellFormed(a) && a.keys == s.keys && a.phases == s.phases[r := Finished(Own(s.phases[r].response))];
    var b := Next(a, Return(q, response, true));
    assert WellFormed(b) && b.keys == s.keys && b.phases == a.phases[q := Storing(response)];
  }

  /** An expiry while the owner is about to store its response gives out two different answers. */
  lemma ExpiryGivesTwoAnswers(s: Sys, key: string, r: nat, q: nat, response: Response)
    requires LiveClaims(s) && key in s.store && response.status < 500
    requires r in s.keys && s.keys[r] == key && s.phases[r].Storing?
    requires q in s.keys && s.keys[q] == key && s.phases[q] == Arrived
    ensures var t := Next(Next(Next(Next(Next(s, Expire(key)), Claim(q)), Complete(r)), Return(q, response, true)),
      Complete(q));
      t.phases == s.phases[r := Finished(Own(s.phases[r].response))][q := Finished(Own(response))]
  {
    ExpireThenClaim(s, key, q);
    hide Next, LiveClaims;
    var t := Next(Next(s, Expire(key)), Claim(q));
    BothAnswer(t, r, q, response);
    assert t.phases[r] == s.phases[r];
  }

  /** A run in which a second handler starts. */
  lemma SecondHandlerIsReached()
    ensures TwoHandlers(Run(Start(map[0 := "k", 1 := "k"]), [Claim(0), Expire("k"), Claim(1)]), "k")
  {
    var s := Start(map[0 := "k", 1 := "k"]);
    var claimed := Next(s, Claim(0));
    assert claimed.keys == s.keys && claimed.phases == map[0 := Handling, 1 := Arrived] && "k" in claimed.store;
    ExpireThenClaim(claimed, "k", 1);
    RunOfThree(s, Claim(0), Expire("k"), Claim(1));
    hide Next, Run;
    var t := Next(Next(claimed, Expire("k")), Claim(1));
    assert 0 in t.keys && 1 in t.keys && t.phases[0] == Handling && t.phases[1] == Handling;
  }

  lemma RunNext(s: Sys, steps: seq<Step>, step: Step)
    ensures Run(s, steps + [step]) == Next(Run(s, steps), step)
  {
    assert (steps + [step])[..|steps|] == steps;
    hide Next;
  }

  lemma RunOfOne(s: Sys, a: Step)
    ensures Run(s, [a]) == Next(s, a)
  {
    assert [a][..0] == [] && Run(s, []) == s;
    hide Next;
  }

  lemma RunOfThree(s: Sys, a: Step, b: Step, c: Step)
    ensures Run(s, [a, b, c]) == Next(Next(Next(s, a), b), c)
  {
    hide *;
    RunOfOne(s, a);
    RunNext(s, [a], b);
    RunNext(s, [a, b], c);
    assert [a] + [b] == [a, b] && [a, b] + [c] == [a, b, c];
  }

  lemma RunOfFour(s: Sys, a: Step, b: Step, c: Step, d: Step)
    ensures Run(s, [a, b, c, d]) == Next(Next(Next(Next(s, a), b), c), d)
  {
    hide *;
    RunOfThree(s, a, b, c);
    RunNext(s, [a, b, c], d);
    assert [a, b, c] + [d] == [a, b, c, d];
  }

  /** May the request still have its handler run, or take back a claim? One that is storing can do neither. */
  predicate Disturbs(p: Phase) {
    p.Handling? || p.Releasing? || p.Deleting?
  }

  ghost predicate DisturbedBy(s: Sys, key: string, r: nat) {
    r in s.keys && r in s.phases && s.keys[r] == key && Disturbs(s.phases[r])
  }

  /** Some course of events without another expiry has two handlers of the key in flight. */
  ghost predicate CanDouble(s: Sys, key: string) {
    exists steps :: NoExpiry(steps) && TwoHandlers(Run(s, steps), key)
  }

  /** A handler that goes on beside the next one. */
  lemma DoubledByHandler(s: Sys, key: string, r: nat, q: nat)
    requires LiveClaims(s) && key in s.store && DisturbedBy(s, key, r) && s.phases[r] == Handling
    requires q in s.keys && s.keys[q] == key && s.phases[q] == Arrived
    ensures CanDouble(Next(s, Expire(key)), key)
  {
    ExpiryLetsSecondInIff(s, key, q);
    var t := Next(s, Expire(key));
    RunOfOne(t, Claim(q));
    hide Next, Run, LiveClaims, TwoHandlers;
    assert NoExpiry([Claim(q)]) && TwoHandlers(Run(t, [Claim(q)]), key);
  }

  /** A request about to delete its claim deletes the next one's. */
  lemma DeletesAnothers(s: Sys, key: string, r: nat, q: nat, p: nat)
    requires WellFormed(s) && r in s.keys && s.keys[r] == key && s.phases[r].Deleting?
    requires q in s.keys && s.keys[q] == key && s.phases[q] == Handling
    requires p in s.keys && s.keys[p] == key && s.phases[p] == Arrived
    ensures TwoHandlers(Next(Next(s, DeleteClaim(r)), Claim(p)), key)
  {
    var t := Next(s, DeleteClaim(r));
    assert WellFormed(t) && t.keys == s.keys && key !in t.store && t.phases[q] == Handling && t.phases[p] == Arrived;
    var u := Next(t, Claim(p));
    assert u.keys == s.keys && u.phases[q] == Handling && u.phases[p] == Handling;
  }

  lemma ReadsAnothers(s: Sys, r: nat)
    requires WellFormed(s) && r in s.keys && s.phases[r].Releasing?
    requires s.keys[r] in s.store && s.store[s.keys[r]] == InProgress
    ensures var t := Next(s, ReadClaim(r));
      WellFormed(t) && t.keys == s.keys && t.phases == s.phases[r := Deleting(s.phases[r].ending)]
  {
  }

  lemma ExpireThenClaimStore(s: Sys, key: string, q: nat)
    requires WellFormed(s) && key in s.store && q in s.keys && s.keys[q] == key && s.phases[q] == Arrived
    ensures var t := Next(Next(s, Expire(key)), Claim(q));
      key in t.store && t.store[key] == InProgress
  {
  }

  lemma ThisDoubles(s: Sys, steps: seq<Step>, key: string)
    requires NoExpiry(steps) && TwoHandlers(Run(s, steps), key)
    ensures CanDouble(s, key)
  {
    hide Run, TwoHandlers;
  }

  lemma DoubledByDelete(s: Sys, key: string, r: nat, q: nat, p: nat)
    requires WellFormed(s) && key in s.store && DisturbedBy(s, key, r) && s.phases[r].Deleting?
    requires q in s.keys && s.keys[q] == key && s.phases[q] == Arrived
    requires p in s.keys && s.keys[p] == key && s.phases[p] == Arrived && p != q
    ensures CanDouble(Next(s, Expire(key)), key)
  {
    ExpireThenClaim(s, key, q);
    hide Next, Run, TwoHandlers, CanDouble, Disturbs;
    var t := Next(s, Expire(key));
    assert r != q && r != p;
    DeletesAnothers(Next(t, Claim(q)), key, r, q, p);
    RunOfThree(t, Claim(q), DeleteClaim(r), Claim(p));
    ThisDoubles(t, [Claim(q), DeleteClaim(r), Claim(p)], key);
  }

  /** A request that takes its claim back takes the next one's, and the one after starts a second handler. */
  lemma DoubledByRelease(s: Sys, key: string, r: nat, q: nat, p: nat)
    requires WellFormed(s) && key in s.store && DisturbedBy(s, key, r) && s.phases[r].Releasing?
    requires q in s.keys && s.keys[q] == key && s.phases[q] == Arrived
    requires p in s.keys && s.keys[p] == key && s.phases[p] == Arrived && p != q
    ensures CanDouble(Next(s, Expire(key)), key)
  {
    ExpireThenClaim(s, key, q);
    ExpireThenClaimStore(s, key, q);
    hide Next, Run, TwoHandlers, CanDouble, Disturbs;
    var t := Next(s, Expire(key));
    var u := Next(t, Claim(q));
    assert r != q && r != p;
    ReadsAnothers(u, r);
    DeletesAnothers(Next(u, ReadClaim(r)), key, r, q, p);
    RunOfFour(t, Claim(q), ReadClaim(r), DeleteClaim(r), Claim(p));
    ThisDoubles(t, [Claim(q), ReadClaim(r), DeleteClaim(r), Claim(p)], key);
  }

  /** At most one request is at work under the key, beside one that is storing its response or has. */
  ghost predicate Solo(s: Sys, key: string, beside: Option<nat>) {
    && WellFormed(s)
    && (forall a, b :: OthersAtWork(s, key, beside, a) && OthersAtWork(s, key, beside, b) ==> a == b)
    && (forall a :: OthersAtWork(s, key, beside, a) ==> key in s.store)
    && (beside.Some? && beside.value in s.keys ==> s.phases[beside.value].Storing? || s.phases[beside.value].Finished?)
  }

  predicate OthersAtWork(s: Sys, key: string, beside: Option<nat>, a: nat) {
    a in s.keys && a in s.phases && s.keys[a] == key && Some(a) != beside && AtWork(s.phases[a])
  }

  lemma SoloStays(s: Sys, step: Step, key: string, beside: Option<nat>)
    requires Solo(s, key, beside) && !step.Expire?
    ensures Solo(Next(s, step), key, beside)
  {
    if Enabled(s, step) {
      var r, t := step.r, Next(s, step);
      NextShape(s, step);
      NextWork(s, step, key);
      hide Next, Enabled, AtWork;
      if step.DeleteClaim? && s.keys[r] == key {
        assert OthersAtWork(s, key, beside, r);
      }
      forall a | OthersAtWork(t, key, beside, a)
        ensures key in t.store
        ensures OthersAtWork(s, key, beside, a) || (a == r && forall b :: !OthersAtWork(s, key, beside, b))
      {
        if a != r || AtWork(s.phases[r]) {
          assert OthersAtWork(s, key, beside, a);
        }
      }
    }
  }

  /** When a step takes up or ends work, and what it leaves in the store. */
  lemma NextWork(s: Sys, step: Step, key: string)
    requires Enabled(s, step) && !step.Expire?
    ensures var r, t := step.r, Next(s, step);
      && r in t.phases && !s.phases[r].Finished? && (s.phases[r].Storing? ==> t.phases[r].Finished?)
      && (AtWork(t.phases[r]) && !AtWork(s.phases[r]) ==> s.keys[r] !in s.store && s.keys[r] in t.store)
      && (step.DeleteClaim? ==> AtWork(s.phases[r]) && s.phases[r].Deleting? && !AtWork(t.phases[r]))
      && (key in s.store && !(step.DeleteClaim? && s.keys[r] == key) ==> key in t.store)
  {
  }

  /** What a step does to the request that makes it, and to the store. */
  lemma NextShape(s: Sys, step: Step)
    requires Enabled(s, step) && !step.Expire?
    ensures var r, t := step.r, Next(s, step);
      && WellFormed(t) && t.keys == s.keys && r in s.keys && t.phases == s.phases[r := t.phases[r]]
  {
  }

  lemma {:induction false} SoloThroughout(s: Sys, steps: seq<Step>, key: string, beside: Option<nat>)
    requires Solo(s, key, beside) && NoExpiry(steps)
    ensures Solo(Run(s, steps), key, beside)
    decreases |steps|
  {
    hide Solo, Next;
    if steps != [] {
      var n := |steps| - 1;
      SoloThroughout(s, steps[..n], key, beside);
      SoloStays(Run(s, steps[..n]), steps[n], key, beside);
    }
  }

  lemma SoloIsSingle(s: Sys, key: string, beside: Option<nat>)
    requires Solo(s, key, beside)
    ensures !TwoHandlers(s, key)
  {
    if TwoHandlers(s, key) {
      var r, q :|
        && r in s.keys && q in s.keys && r != q && s.keys[r] == key && s.keys[q] == key
        && s.phases[r] == Handling && s.phases[q] == Handling;
      assert OthersAtWork(s, key, beside, r) && OthersAtWork(s, key, beside, q);
      assert false;
    }
  }

  lemma ExpiredIsSolo(s: Sys, key: string) returns (beside: Option<nat>)
    requires LiveClaims(s) && key in s.store && forall r :: !DisturbedBy(s, key, r)
    ensures Solo(Next(s, Expire(key)), key, beside)
  {
    if r :| r in s.keys && s.keys[r] == key && AtWork(s.phases[r]) {
      beside := Some(r);
      assert !DisturbedBy(s, key, r);
    } else {
      beside := None;
    }
    var t := Next(s, Expire(key));
    assert t.keys == s.keys && t.phases == s.phases;
  }

  /**
   An expiry can let two handlers of a key run at once, whatever happens next but another expiry, exactly
   when its owner has its handler running or is about to take the claim back. Two more requests must be
   waiting: of an owner that takes it back, the next one's claim is the one deleted.
   */
  lemma ExpiryCanDoubleIff(s: Sys, key: string, q: nat, p: nat)
    requires LiveClaims(s) && key in s.store && p != q
    requires q in s.keys && s.keys[q] == key && s.phases[q] == Arrived
    requires p in s.keys && s.keys[p] == key && s.phases[p] == Arrived
    ensures CanDouble(Next(s, Expire(key)), key) <==> exists r :: DisturbedBy(s, key, r)
  {
    if r :| DisturbedBy(s, key, r) {
      if s.phases[r] == Handling {
        DoubledByHandler(s, key, r, q);
      } else if s.phases[r].Deleting? {
        DoubledByDelete(s, key, r, q, p);
      } else {
        DoubledByRelease(s, key, r, q, p);
      }
    } else {
      var beside := ExpiredIsSolo(s, key);
      hide Next, Run, Solo, TwoHandlers, LiveClaims;
      var t := Next(s, Expire(key));
      forall steps | NoExpiry(steps)
        ensures !TwoHandlers(Run(t, steps), key)
      {
        SoloThroughout(t, steps, key, beside);
        SoloIsSingle(Run(t, steps), key, beside);
      }
    }
  }

  // ---- The in-memory store -----------------------------------------------------------------

  /** `MemoryIdempotencyStore`: a dictionary with expiry times, purged on touch. */
  class MemoryStore {
    var data: map<string, (Entry, int)>

    constructor ()
      ensures data == map[]
    {
      data := map[];
    }

    /** What the store amounts to at a time: the entries not yet expired. */
    ghost function Live(now: int): map<string, Entry>
      reads this
    {
      map key | key in data && data[key].1 > now :: data[key].0
    }

    method PurgeIfExpired(key: string, now: int)
      modifies this
      ensures forall t :: t >= now ==> Live(t) == old(Live(t))
      ensures key in data <==> key in Live(now)
      ensures data.Keys <= old(data.Keys) && forall k :: k in data ==> data[k] == old(data)[k]
      ensures forall k :: k in old(data) && k != key ==> k in data
    {
      if key in data && data[key].1 <= now {
        data := data - {key};
      }
    }

    method TryClaim(key: string, ttl: nat, now: int) returns (won: bool)
      requires ttl > 0
      modifies this
      ensures won <==> key !in old(Live(now))
      ensures forall t :: t >= now + ttl || (t >= now && !won) ==> Live(t) == old(Live(t))
      ensures forall t :: won && now <= t < now + ttl ==> Live(t) == old(Live(t))[key := InProgress]
    {
      PurgeIfExpired(key, now);
      if key in data {
        return false;
      }
      data := data[key := (InProgress, now + ttl)];
      return true;
    }

    method Fetch(key: string, now: int) returns (r: Option<Response>)
      modifies this
      ensures r == if key in old(Live(now)) && old(Live(now))[key].Stored?
        then Some(old(Live(now))[key].response) else None
      ensures forall t :: t >= now ==> Live(t) == old(Live(t))
    {
      PurgeIfExpired(key, now);
      if key !in data || data[key].0 == InProgress {
        return None;
      }
      return Some(data[key].0.response);
    }

    method Put(key: string, response: Response, ttl: nat, now: int)
      requires ttl > 0
      modifies this
      ensures Live(now) == old(Live(now))[key := Stored(response)]
    {
      data := data[key := (Stored(response), now + ttl)];
    }

    method Release(key: string, now: int)
      modifies this
      ensures Live(now) == Unclaimed(old(Live(now)), key)
    {
      if key in data && data[key].0 == InProgress {
        data := data - {key};
      }
    }
  }

  /** What the handler does when it is called. */
  datatype HandlerResult = Raises | Returns(response: Response, json: bool)

  /**
   `IdempotencyMiddleware.dispatch` for a keyed request, alone on the store: claim, else replay or
   refuse; run the handler, which takes until `end`; then store what can be cached and release the rest.
   What is left is the store of that moment, whether the claim has expired meanwhile or not.
   */
  method Dispatch(store: MemoryStore, key: string, ttl: nat, now: int, end: int, handler: HandlerResult)
    returns (ending: Ending, ran: bool)
    requires ttl > 0 && now <= end
    modifies store
    ensures ran <==> key !in old(store.Live(now))
    ensures !ran ==> store.Live(end) == old(store.Live(end))
    ensures !ran ==>
      var entry := old(store.Live(now))[key];
      ending == if entry.Stored? then Replayed(entry.response) else Conflict
    ensures ran ==>
      match handler
      case Raises => ending == HandlerRaised && store.Live(end) == old(store.Live(end))
      case Returns(response, json) =>
        if response.status < 500 && json
          then ending == Own(response) && store.Live(end) == old(store.Live(end))[key := Stored(response)]
        else ending == PassedThrough(response) && store.Live(end) == old(store.Live(end))
  {
    var won := store.TryClaim(key, ttl, now);
    if !won {
      var cached := store.Fetch(key, now);
      if cached.Some? {
        return Replayed(cached.value), false;
      }
      return Conflict, false;
    }
    ending := Settle(store, key, ttl, end, handler);
    return ending, true;
  }

  /** The part of it that owns the claim: the handler has run until `end`. */
  method Settle(store: MemoryStore, key: string, ttl: nat, end: int, handler: HandlerResult) returns (ending: Ending)
    requires ttl > 0
    modifies store
    ensures handler.Returns? && handler.response.status < 500 && handler.json ==>
      ending == Own(handler.response) && store.Live(end) == old(store.Live(end))[key := Stored(handler.response)]
    ensures handler.Returns? && (handler.response.status >= 500 || !handler.json) ==>
      ending == PassedThrough(handler.response)
    ensures handler.Raises? ==> ending == HandlerRaised
    ensures handler.Raises? || handler.response.status >= 500 || !handler.json ==>
      store.Live(end) == Unclaimed(old(store.Live(end)), key)
  {
    match handler {
      case Raises =>
        store.Release(key, end);
        return HandlerRaised;
      case Returns(response, json) =>
        if response.status >= 500 || !json {
          store.Release(key, end);
          return PassedThrough(response);
        }
        store.Put(key, response, ttl, end);
        return Own(response);
    }
  }

  /** The entries without a claim of the key. */
  function Unclaimed(live: map<string, Entry>, key: string): map<string, Entry> {
    if key in live && live[key] == InProgress then live - {key} else live
  }
}
