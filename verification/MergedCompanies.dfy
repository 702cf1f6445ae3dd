/**
 What a search of the company sources returns (nexus/integrations/registry.py:117-126, 196-223), said of the
 candidates found: one company a domain, and in each of its fields the first thing any source had to say.
 */
module MergedCompanies {
  import opened Wrappers
  import opened Text
  import opened Registry

  /** The candidate has a domain, and it is this one in lower case. */
  predicate Of(c: Candidate, d: string) {
    c.domain.Some? && c.domain.value != "" && Lower(c.domain.value) == d
  }

  /** The candidate says something in the field: a number, or a text that is not empty. */
  predicate Says(c: Candidate, f: Field) {
    f in c.fields && (c.fields[f].Number? || (c.fields[f].Text? && c.fields[f].text != ""))
  }

  ghost predicate FirstToSay(found: seq<Candidate>, d: string, f: Field, k: nat) {
    && k < |found| && Of(found[k], d) && Says(found[k], f)
    && forall i :: 0 <= i < k && Of(found[i], d) ==> !Says(found[i], f)
  }

  ghost predicate NobodySays(found: seq<Candidate>, d: string, f: Field) {
    forall i :: 0 <= i < |found| && Of(found[i], d) ==> !Says(found[i], f)
  }

  /** The company holds what was first said in the field, and from whom; or nothing. */
  ghost predicate HoldsFirst(c: Candidate, found: seq<Candidate>, d: string, f: Field) {
    && (forall k: nat :: FirstToSay(found, d, f, k) ==>
          && f in c.fields && c.fields[f] == found[k].fields[f]
          && f in c.provenance && c.provenance[f] == found[k].source)
    && (NobodySays(found, d, f) ==> !Says(c, f) && f !in c.provenance)
  }

  lemma SaysIsFilled(c: Candidate, f: Field)
    ensures Says(c, f) <==> !Blank(Read(c, f))
    ensures Says(c, f) ==> f in c.fields && Read(c, f) == c.fields[f]
  {
  }

  lemma OfIsDomain(c: Candidate, d: string)
    requires d != ""
    ensures Of(c, d) <==> DomainOf(c) == d
  {
  }

  lemma GroupGrows(found: seq<Candidate>, c: Candidate, d: string)
    requires d != ""
    ensures Group(found + [c], d) == Group(found, d) + if Of(c, d) then [c] else []
  {
    OfIsDomain(c, d);
    assert (found + [c])[..|found|] == found;
  }

  lemma {:induction false} NobodyInGroup(found: seq<Candidate>, d: string, f: Field)
    requires d != "" && NobodySays(found, d, f)
    ensures FirstFilled(Group(found, d), f) == |Group(found, d)|
    decreases |found|
  {
    hide Of, Says, FirstFilled, Group;
    if found == [] {
      EmptyGroup(d, f);
    } else {
      var n := |found| - 1;
      var init, c := found[..n], found[n];
      assert forall i :: 0 <= i < n ==> init[i] == found[i];
      NobodyInGroup(init, d, f);
      GroupStep(init, c, d, f);
      assert found == init + [c];
    }
  }

  lemma GroupStep(init: seq<Candidate>, c: Candidate, d: string, f: Field)
    requires d != ""
    ensures var g, g' := Group(init, d), Group(init + [c], d);
      && (FirstFilled(g, f) < |g| ==>
            FirstFilled(g', f) == FirstFilled(g, f) < |g'| && g'[FirstFilled(g, f)] == g[FirstFilled(g, f)])
      && (FirstFilled(g, f) == |g| && Of(c, d) && Says(c, f) ==> FirstFilled(g', f) == |g| < |g'| && g'[|g|] == c)
      && (FirstFilled(g, f) == |g| && !(Of(c, d) && Says(c, f)) ==> FirstFilled(g', f) == |g'|)
  {
    hide Of, Says, FirstFilled, Group, Blank, Read;
    GroupGrows(init, c, d);
    FirstFilledExtend(Group(init, d), c, f);
    SaysIsFilled(c, f);
    assert Group(init, d) + [] == Group(init, d);
  }

  /** The first of a domain's candidates to say something, in the group and among all. */
  lemma {:induction false} FirstInGroup(found: seq<Candidate>, d: string, f: Field, k: nat)
    requires d != "" && FirstToSay(found, d, f, k)
    ensures var g := Group(found, d);
      FirstFilled(g, f) < |g| && g[FirstFilled(g, f)] == found[k]
    decreases |found|
  {
    hide Of, Says, FirstFilled, Group;
    var n := |found| - 1;
    var init, c := found[..n], found[n];
    assert forall i :: 0 <= i < n ==> init[i] == found[i];
    assert found == init + [c];
    GroupStep(init, c, d, f);
    if k < n {
      FirstInGroup(init, d, f, k);
    } else {
      NobodyInGroup(init, d, f);
    }
  }

  lemma EmptyGroup(d: string, f: Field)
    ensures Group([], d) == [] && FirstFilled([], f) == 0
  {
  }

  // ---- The theorem -------------------------------------------------------------------------

  lemma PoolMerged(found: seq<Candidate>, d: string)
    requires d in MergeAll(found).byDomain && d != ""
    ensures IsMergeOf(MergeAll(found).byDomain[d], Group(found, d)) && Group(found, d) != []
  {
    hide MergeAll, Group, IsFirstSeenOrder;
    MergeAllIsMerge(found);
    assert GroupMerged(MergeAll(found).byDomain, found, d);
  }

  /** The company of a domain in the pool of all that was found. */
  lemma PoolHolds(found: seq<Candidate>, d: string, f: Field)
    requires d in MergeAll(found).byDomain && d != "" && f != Name
    ensures HoldsFirst(MergeAll(found).byDomain[d], found, d, f)
  {
    hide Of, MergeAll, Group, FirstFilled, Blank, Read, IsMergeOf;
    var c := MergeAll(found).byDomain[d];
    PoolMerged(found, d);
    FieldOfMerge(c, Group(found, d), f);
    SaysIsFilled(c, f);
    forall k: nat | FirstToSay(found, d, f, k)
      ensures f in c.fields && c.fields[f] == found[k].fields[f]
      ensures f in c.provenance && c.provenance[f] == found[k].source
    {
      FirstInGroup(found, d, f, k);
      SaysIsFilled(found[k], f);
    }
    if NobodySays(found, d, f) {
      NobodyInGroup(found, d, f);
    }
  }

  lemma FieldOfMerge(c: Candidate, group: seq<Candidate>, f: Field)
    requires IsMergeOf(c, group) && f != Name
    ensures var k := FirstFilled(group, f);
      if k < |group| then Read(c, f) == Read(group[k], f) && f in c.provenance && c.provenance[f] == group[k].source
      else Read(c, f) == Read(group[0], f) && Blank(Read(c, f)) && f !in c.provenance
  {
    assert f in MERGEABLE by {
      FieldIsMergeable(f);
    }
    assert FieldIsFirst(c, group, f);
    hide Blank, Read;
  }

  lemma FieldIsMergeable(f: Field)
    requires f != Name
    ensures f in MERGEABLE
  {
    assert MERGEABLE[0] == Url && MERGEABLE[1] == Industry && MERGEABLE[2] == Country && MERGEABLE[3] == Headcount
      && MERGEABLE[4] == Snippet;
  }

  lemma {:induction false} GroupIsOf(found: seq<Candidate>, d: string, k: nat)
    requires d != "" && k < |Group(found, d)|
    ensures Of(Group(found, d)[k], d)
    decreases |found|
  {
    hide Of;
    if found != [] {
      var n := |found| - 1;
      var init, c := found[..n], found[n];
      OfIsDomain(c, d);
      if k < |Group(init, d)| {
        GroupIsOf(init, d, k);
      }
    }
  }

  /** A company of the pool is of its domain. */
  lemma PoolIsOf(found: seq<Candidate>, d: string)
    requires d in MergeAll(found).byDomain && d != ""
    ensures Of(MergeAll(found).byDomain[d], d)
  {
    hide MergeAll, Group;
    PoolMerged(found, d);
    GroupIsOf(found, d, 0);
  }

  lemma PoolDomains(found: seq<Candidate>, a: nat)
    requires a < |MergeAll(found).order|
    ensures MergeAll(found).order[a] != "" && MergeAll(found).order[a] in MergeAll(found).byDomain
  {
    MergeAllIsMerge(found);
    assert MergeAll(found).order[a] in Listed(MergeAll(found).order);
    hide MergeAll, AllMerged, InSeenOrder, CoversAll;
  }

  /**
   The companies of a search: each has a domain, and in every field but the name what was first said of it by
   any of the candidates of that domain, with the source that said it, or nothing if none did.
   */
  lemma CompaniesHoldFirst(found: seq<Candidate>, a: nat, f: Field)
    requires a < |Companies(found)| && f != Name
    ensures var c := Companies(found)[a];
      && c.domain.Some? && c.domain.value != ""
      && HoldsFirst(c, found, Lower(c.domain.value), f)
  {
    var d := MergeAll(found).order[a];
    PoolDomains(found, a);
    PoolIsOf(found, d);
    PoolHolds(found, d, f);
    hide HoldsFirst, MergeAll;
  }

  lemma CompanyIsOf(found: seq<Candidate>, a: nat, d: string)
    requires a < |Companies(found)|
    ensures |Companies(found)| == |MergeAll(found).order| && MergeAll(found).order[a] != ""
    ensures Of(Companies(found)[a], d) <==> MergeAll(found).order[a] == d
  {
    var o := MergeAll(found).order[a];
    PoolDomains(found, a);
    PoolIsOf(found, o);
    hide MergeAll;
  }

  /** A domain is in the order of the pool exactly if it is that of some candidate. */
  lemma OrderedIffFound(order: seq<string>, found: seq<Candidate>, d: string)
    requires IsFirstSeenOrder(order, found) && d != ""
    ensures d in order <==> exists i :: 0 <= i < |found| && Of(found[i], d)
  {
    hide Of, DomainOf, InSeenOrder;
    if i :| 0 <= i < |found| && Of(found[i], d) {
      OfIsDomain(found[i], d);
    }
    if d in order {
      var a :| 0 <= a < |order| && order[a] == d;
      assert WasSeen(found, order[a]);
      var k: nat :| FirstSeenAt(found, d, k);
      OfIsDomain(found[k], d);
    }
  }

  lemma SeenOnce(order: seq<string>, found: seq<Candidate>)
    requires IsFirstSeenOrder(order, found)
    ensures forall a, b :: 0 <= a < b < |order| ==> order[a] != order[b]
  {
    forall a, b | 0 <= a < b < |order|
      ensures order[a] != order[b]
    {
      assert WasSeen(found, order[a]);
      var k :| FirstSeenAt(found, order[a], k);
    }
  }

  /** There is one company a domain, whatever its case: for every domain among the candidates and no other. */
  lemma OneCompanyADomain(found: seq<Candidate>, d: string)
    requires d != ""
    ensures var cs := Companies(found);
      && ((exists i :: 0 <= i < |found| && Of(found[i], d)) <==> exists a :: 0 <= a < |cs| && Of(cs[a], d))
      && (forall a, b :: 0 <= a < b < |cs| && Of(cs[a], d) ==> !Of(cs[b], d))
  {
    var order, cs := MergeAll(found).order, Companies(found);
    MergeAllIsMerge(found);
    OrderedIffFound(order, found, d);
    SeenOnce(order, found);
    assert |cs| == |order|;
    forall a: nat | a < |cs|
      ensures Of(cs[a], d) <==> order[a] == d
    {
      CompanyIsOf(found, a, d);
    }
    hide *;
    if d in order {
      var a :| 0 <= a < |order| && order[a] == d;
      assert Of(cs[a], d);
    }
  }
}
