/**
 A release is to "never clobber a stored response" (nexus/core/idempotency.py:116-119). On Redis it reads the
 key and then deletes it, in two operations; so it keeps that promise exactly as far as is shown here.
 */
module LostResponses {
  import opened Idempotency

  /** The next operation of r deletes a response somebody stored. */
  predicate Clobbers(s: Sys, r: nat, key: string) {
    && r in s.keys && r in s.phases && s.keys[r] == key && s.phases[r].Deleting?
    && key in s.store && s.store[key].Stored?
  }

  /** Some course of events without another expiry comes to that. */
  ghost predicate CanClobber(s: Sys, key: string) {
    exists steps, r :: NoExpiry(steps) && Clobbers(Run(s, steps), r, key)
  }

  lemma {:induction false} RunAfter(s: Sys, step: Step, steps: seq<Step>)
    ensures Run(s, [step] + steps) == Run(Next(s, step), steps)
    decreases |steps|
  {
    hide Next;
    if steps == [] {
      RunOfOne(s, step);
      assert [step] + steps == [step];
    } else {
      var front := steps[..|steps| - 1];
      RunAfter(s, step, front);
      RunNext(s, [step] + front, steps[|steps| - 1]);
      assert [step] + front + [steps[|steps| - 1]] == [step] + steps;
    }
  }

  /** One step closer. */
  lemma ClobbersLater(s: Sys, step: Step, key: string)
    requires !step.Expire? && CanClobber(Next(s, step), key)
    ensures CanClobber(s, key)
  {
    hide Next, Run, Clobbers;
    var steps, r :| NoExpiry(steps) && Clobbers(Run(Next(s, step), steps), r, key);
    RunAfter(s, step, steps);
    assert NoExpiry([step] + steps) && Clobbers(Run(s, [step] + steps), r, key);
  }

  lemma ClobbersNow(s: Sys, r: nat, key: string)
    requires Clobbers(s, r, key)
    ensures CanClobber(s, key)
  {
    hide Clobbers;
    assert NoExpiry([]) && Clobbers(Run(s, []), r, key);
  }

  /** Two requests past the claim of one key. */
  predicate Two(s: Sys, key: string, r: nat, q: nat) {
    && WellFormed(s) && r != q && r in s.keys && q in s.keys && s.keys[r] == key && s.keys[q] == key
    && s.phases[q] == Handling
  }

  const GOOD: Response := Response(200, "")

  /** A delete that is due while the next handler finishes. */
  lemma DeleteComesLate(s: Sys, key: string, r: nat, q: nat)
    requires Two(s, key, r, q) && s.phases[r].Deleting?
    ensures CanClobber(s, key)
  {
    var t := Next(s, Return(q, GOOD, true));
    assert t.keys == s.keys && t.phases == s.phases[q := Storing(GOOD)];
    var u := Next(t, Complete(q));
    assert Clobbers(u, r, key);
    hide Next, Clobbers, CanClobber;
    ClobbersNow(u, r, key);
    ClobbersLater(t, Complete(q), key);
    ClobbersLater(s, Return(q, GOOD, true), key);
  }

  /** A release that reads the claim of the next request for its own. */
  lemma ReadsTheNext(s: Sys, key: string, r: nat, q: nat)
    requires Two(s, key, r, q) && s.phases[r].Releasing? && key in s.store && s.store[key] == InProgress
    ensures CanClobber(s, key)
  {
    ReadsAnothers(s, r);
    hide Next, CanClobber;
    DeleteComesLate(Next(s, ReadClaim(r)), key, r, q);
    ClobbersLater(s, ReadClaim(r), key);
  }

  /** A handler that raises after its claim is gone. */
  lemma RaisesLate(s: Sys, key: string, r: nat, q: nat)
    requires Two(s, key, r, q) && s.phases[r] == Handling && key in s.store && s.store[key] == InProgress
    ensures CanClobber(s, key)
  {
    var t := Next(s, RaiseInHandler(r));
    assert t.keys == s.keys && t.store == s.store && t.phases == s.phases[r := Releasing(HandlerRaised)];
    hide Next, CanClobber;
    ReadsTheNext(t, key, r, q);
    ClobbersLater(s, RaiseInHandler(r), key);
  }

  /** A response stored while the next request is taking its claim back. */
  lemma StoresLate(s: Sys, key: string, r: nat, q: nat)
    requires Two(s, key, r, q) && s.phases[r].Storing? && key in s.store && s.store[key] == InProgress
    ensures CanClobber(s, key)
  {
    var t := Next(s, RaiseInHandler(q));
    assert t.keys == s.keys && t.store == s.store && t.phases == s.phases[q := Releasing(HandlerRaised)];
    ReadsAnothers(t, q);
    var u := Next(t, ReadClaim(q));
    var v := Next(u, Complete(r));
    assert Clobbers(v, q, key);
    hide Next, Clobbers, CanClobber;
    ClobbersNow(v, q, key);
    ClobbersLater(u, Complete(r), key);
    ClobbersLater(t, ReadClaim(q), key);
    ClobbersLater(s, RaiseInHandler(q), key);
  }

  lemma {:induction false} ExclusionStays(s: Sys, steps: seq<Step>)
    requires LiveClaims(s) && NoExpiry(steps)
    ensures LiveClaims(Run(s, steps))
    decreases |steps|
  {
    hide LiveClaims, Next, LiveOwner;
    if steps != [] {
      ExclusionStays(s, steps[..|steps| - 1]);
      StepKeepsExclusion(Run(s, steps[..|steps| - 1]), steps[|steps| - 1]);
    }
  }

  lemma ExclusionSpares(s: Sys, r: nat, key: string)
    requires LiveClaims(s)
    ensures !Clobbers(s, r, key)
  {
  }

  /** While every claim at work is in the store, nothing is clobbered whatever happens, but for an expiry. */
  lemma NeverWithoutExpiry(s: Sys, key: string)
    requires LiveClaims(s)
    ensures !CanClobber(s, key)
  {
    hide LiveClaims, Clobbers, Run;
    forall steps, r | NoExpiry(steps)
      ensures !Clobbers(Run(s, steps), r, key)
    {
      ExclusionStays(s, steps);
      ExclusionSpares(Run(s, steps), r, key);
    }
  }

  /**
   When a key expires with another request waiting for it, some course of events without another expiry has a
   release delete a stored response exactly if a request was at work under the key: with its handler running,
   its response on the way to the store, or its claim on the way out.
   */
  lemma ExpiryCanClobberIff(s: Sys, key: string, q: nat)
    requires LiveClaims(s) && key in s.store
    requires q in s.keys && s.keys[q] == key && s.phases[q] == Arrived
    ensures CanClobber(Next(s, Expire(key)), key) <==>
      exists r :: r in s.keys && s.keys[r] == key && AtWork(s.phases[r])
  {
    var t := Next(s, Expire(key));
    if r :| r in s.keys && s.keys[r] == key && AtWork(s.phases[r]) {
      ExpireThenClaim(s, key, q);
      ExpireThenClaimStore(s, key, q);
      hide LiveClaims, Next, CanClobber;
      var u := Next(t, Claim(q));
      match s.phases[r] {
        case Handling => RaisesLate(u, key, r, q);
        case Storing(_) => StoresLate(u, key, r, q);
        case Releasing(_) => ReadsTheNext(u, key, r, q);
        case Deleting(_) => DeleteComesLate(u, key, r, q);
      }
      ClobbersLater(t, Claim(q), key);
    } else {
      ExpiryKeepsExclusionIff(s, key);
      hide LiveClaims, Next, CanClobber;
      NeverWithoutExpiry(t, key);
    }
  }

  /** It is reached: a claim expires under its handler while a second request waits. */
  lemma ClobberIsReached()
    ensures var claimed := Run(Start(map[0 := "k", 1 := "k"]), [Claim(0)]);
      CanClobber(Next(claimed, Expire("k")), "k")
  {
    var s := Start(map[0 := "k", 1 := "k"]);
    var claimed := Next(s, Claim(0));
    assert claimed.keys == s.keys && claimed.phases == map[0 := Handling, 1 := Arrived] && "k" in claimed.store;
    RunOfOne(s, Claim(0));
    StartIsExclusive(s.keys);
    hide Next, Run, LiveClaims, CanClobber, Start;
    StepKeepsExclusion(s, Claim(0));
    ExpiryCanClobberIff(claimed, "k", 1);
    assert AtWork(claimed.phases[0]);
  }
}
