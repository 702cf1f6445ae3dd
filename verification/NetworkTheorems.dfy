/** What holds of the relationship graph. */
module NetworkTheorems {
  import opened Wrappers
  import opened Upserts
  import opened NetworkModel

  // ---- Finding a person again -----------------------------------------------------------------------

  function Emailless(persons: seq<Person>): nat {
    if persons == [] then 0 else Emailless(persons[1..]) + if persons[0].email.None? then 1 else 0
  }

  predicate SameIdentity(p: Person, q: Person) {
    p.email == q.email && p.fullName == q.fullName && p.company == q.company
  }

  /** Persons are only added; what they are recognized by does not change. */
  ghost predicate Extends(q: seq<Person>, p: seq<Person>) {
    |p| <= |q| && forall i :: 0 <= i < |p| ==> SameIdentity(p[i], q[i])
  }

  predicate Matches(p: Person, c: Contact) {
    if HasEmail(c) then SameEmail(p, c) else HasName(c) && p.email.None? && SameName(p, c)
  }

  ghost predicate IsFirstMatch(persons: seq<Person>, c: Contact, i: nat) {
    && i <= |persons|
    && (i < |persons| ==> Matches(persons[i], c))
    && (forall j :: 0 <= j < i ==> !Matches(persons[j], c))
  }

  function FirstMatch(persons: seq<Person>, c: Contact): (i: nat)
    ensures IsFirstMatch(persons, c, i)
  {
    if persons == [] || Matches(persons[0], c) then 0
    else
      var i := 1 + FirstMatch(persons[1..], c);
      assert forall j :: 1 <= j < |persons| ==> persons[j] == persons[1..][j - 1];
      i
  }

  /** The bounded scan stops at the first match, unless too many persons without an email come before it. */
  lemma {:induction false} ScanIs(persons: seq<Person>, c: Contact, budget: nat)
    requires !HasEmail(c) && HasName(c)
    ensures var i := FirstMatch(persons, c);
      FindByName(persons, c, budget) == if i < |persons| && Emailless(persons[..i]) < budget then i else |persons|
    decreases |persons|
  {
    hide SameName, HasEmail, HasName;
    if persons != [] && budget > 0 {
      if !Matches(persons[0], c) {
        var i := FirstMatch(persons[1..], c);
        ScanIs(persons[1..], c, if persons[0].email.None? then budget - 1 else budget);
        assert persons[..i + 1][1..] == persons[1..][..i] && persons[..i + 1][0] == persons[0];
      } else {
        assert persons[..0] == [];
      }
    }
  }

  /** The contact's person can be recognized, and the scan gets as far as place i. */
  predicate InSight(persons: seq<Person>, c: Contact, i: nat) {
    HasEmail(c) || (HasName(c) && i <= |persons| && Emailless(persons[..i]) < 500)
  }

  /** What is found is the first match, if it is in sight. */
  lemma FindIs(persons: seq<Person>, c: Contact)
    ensures var i := FirstMatch(persons, c);
      Find(persons, c) == if i < |persons| && InSight(persons, c, i) then i else |persons|
  {
    if HasEmail(c) {
      EmailMatch(persons, c);
    } else if HasName(c) {
      ScanIs(persons, c, SCAN_LIMIT);
    }
    hide Matches, HasEmail, HasName, FindByEmail, FindByName;
  }

  lemma EmailMatch(persons: seq<Person>, c: Contact)
    requires HasEmail(c)
    ensures FindByEmail(persons, c) == FirstMatch(persons, c)
  {
    var i := FindByEmail(persons, c);
    hide SameEmail, HasEmail, FirstMatch, FindByEmail;
  }

  lemma {:induction false} EmaillessGrows(q: seq<Person>, p: seq<Person>)
    requires Extends(q, p)
    ensures Emailless(p) <= Emailless(q)
    decreases |p|
  {
    if p != [] {
      assert SameIdentity(p[0], q[0]);
      forall i | 0 <= i < |p[1..]|
        ensures SameIdentity(p[1..][i], q[1..][i])
      {
        assert SameIdentity(p[i + 1], q[i + 1]);
      }
      EmaillessGrows(q[1..], p[1..]);
    }
  }

  lemma {:induction false} EmaillessSame(q: seq<Person>, p: seq<Person>, k: nat)
    requires Extends(q, p) && k <= |p|
    ensures Emailless(q[..k]) == Emailless(p[..k])
    decreases k
  {
    if k > 0 {
      assert SameIdentity(p[0], q[0]);
      forall i | 0 <= i < |p[1..]|
        ensures SameIdentity(p[1..][i], q[1..][i])
      {
        assert SameIdentity(p[i + 1], q[i + 1]);
      }
      EmaillessSame(q[1..], p[1..], k - 1);
      assert q[..k][1..] == q[1..][..k - 1] && p[..k][1..] == p[1..][..k - 1];
    }
  }

  lemma EmaillessPrefix(p: seq<Person>, j: nat, k: nat)
    requires j <= k <= |p|
    ensures Emailless(p[..j]) <= Emailless(p[..k])
  {
    assert forall i :: 0 <= i < j ==> SameIdentity(p[..j][i], p[..k][i]);
    EmaillessGrows(p[..k], p[..j]);
  }

  /** A person just added for a clamped contact matches it. */
  lemma NewPersonMatches(c: Contact)
    requires Recognizable(Clamped(c))
    ensures Matches(NewPerson(Clamped(c)), Clamped(c))
  {
  }

  lemma MatchesSameIdentity(p: Person, q: Person, c: Contact)
    requires SameIdentity(p, q)
    ensures Matches(p, c) <==> Matches(q, c)
  {
  }

  /** A first match stays the first in every longer table. */
  lemma FirstMatchStays(q: seq<Person>, p: seq<Person>, c: Contact)
    requires Extends(q, p)
    ensures FirstMatch(p, c) < |p| ==> FirstMatch(q, c) == FirstMatch(p, c)
    ensures FirstMatch(p, c) == |p| ==> FirstMatch(q, c) >= |p|
  {
    hide Matches, FirstMatch;
    var i, k := FirstMatch(p, c), FirstMatch(q, c);
    forall j | 0 <= j < |p|
      ensures Matches(p[j], c) <==> Matches(q[j], c)
    {
      assert SameIdentity(p[j], q[j]);
      MatchesSameIdentity(p[j], q[j], c);
    }
  }

  lemma ResolvedExtends(p: seq<Person>, c: Contact)
    ensures var r := Resolved(p, c);
      Extends(r, p) && |p| <= |r| && Find(p, c) < |r| && (Find(p, c) < |p| ==> r[Find(p, c)] == p[Find(p, c)])
  {
    hide Find, NewPerson;
  }

  lemma ExtendsLength(q: seq<Person>, p: seq<Person>)
    requires Extends(q, p)
    ensures |p| <= |q|
  {
  }

  lemma FirstMatchIs(p: seq<Person>, c: Contact, i: nat)
    requires i < |p|
    ensures Matches(p[i], c) ==> FirstMatch(p, c) <= i
    ensures FirstMatch(p, c) <= |p| && (FirstMatch(p, c) == i ==> Matches(p[i], c))
  {
    hide Matches, FirstMatch;
  }

  lemma ResolvedIsNew(p: seq<Person>, raw: Contact)
    requires Recognizable(Clamped(raw)) && Find(p, Clamped(raw)) == |p|
    ensures Matches(Resolved(p, Clamped(raw))[|p|], Clamped(raw))
  {
    NewPersonMatches(raw);
    hide Find, Matches, NewPerson, Clamped;
  }

  /** Where a contact was resolved, it matches first or is out of sight. */
  lemma ResolvedMatch(p: seq<Person>, raw: Contact)
    requires Recognizable(Clamped(raw))
    ensures var c := Clamped(raw); var r, i := Resolved(p, c), Find(p, c);
      && Matches(r[i], c)
      && FirstMatch(r, c) <= i
      && (FirstMatch(r, c) < i ==> i == |p| && !InSight(p, c, FirstMatch(r, c)))
  {
    hide *;
    var c := Clamped(raw);
    var r, i := Resolved(p, c), Find(p, c);
    ResolvedExtends(p, c);
    FindIs(p, c);
    FirstMatchStays(r, p, c);
    if i < |p| {
      FirstMatchIs(p, c, i);
    } else {
      ResolvedIsNew(p, raw);
    }
    FirstMatchIs(r, c, i);
    if p != [] {
      FirstMatchIs(p, c, 0);
    }
  }

  lemma InSightEarlier(persons: seq<Person>, c: Contact, f: nat, i: nat)
    requires InSight(persons, c, i) && f <= i <= |persons|
    ensures InSight(persons, c, f)
  {
    EmaillessPrefix(persons, f, i);
  }

  lemma InSightSame(q: seq<Person>, p: seq<Person>, c: Contact, f: nat)
    requires Extends(q, p) && f <= |p|
    ensures InSight(q, c, f) <==> InSight(p, c, f)
  {
    EmaillessSame(q, p, f);
  }

  lemma UnrecognizableUnseen(persons: seq<Person>, c: Contact, i: nat)
    requires InSight(persons, c, i)
    ensures Recognizable(c)
  {
  }

  /**
   A contact once resolved is found again, in every later graph, exactly if its person is in sight there;
   and if it is not, nobody is found.
   */
  lemma FoundAgainIff(p: seq<Person>, q: seq<Person>, raw: Contact)
    requires Extends(q, Resolved(p, Clamped(raw)))
    ensures var c := Clamped(raw);
      Find(q, c) == if InSight(q, c, Find(p, c)) then Find(p, c) else |q|
    ensures Find(p, Clamped(raw)) < |q|
  {
    var c := Clamped(raw);
    var r, i := Resolved(p, c), Find(p, c);
    hide *;
    ResolvedExtends(p, c);
    ExtendsLength(q, r);
    FindIs(q, c);
    if Recognizable(c) {
      ResolvedMatch(p, raw);
      FirstMatchStays(q, r, c);
      var f := FirstMatch(r, c);
      InSightSame(q, r, c, f);
      if f < i {
        InSightSame(r, p, c, f);
        if InSight(q, c, i) {
          InSightEarlier(q, c, f, i);
        }
      }
    } else {
      if InSight(q, c, i) {
        UnrecognizableUnseen(q, c, i);
      }
      if InSight(q, c, FirstMatch(q, c)) {
        UnrecognizableUnseen(q, c, FirstMatch(q, c));
      }
    }
  }

  // ---- A batch is a list of upserts --------------------------------------------------------------

  /** The persons the identities of a batch resolve to. */
  function People(g: Graph, x: Context, raws: seq<RawIdentity>): (ids: seq<nat>)
    ensures |ids| == |raws|
    decreases |raws|
  {
    if raws == [] then []
    else [Find(g.persons, Clamped(raws[0].contact))] + People(IngestOne(g, x, raws[0]), x, raws[1..])
  }

  function IdentityUps(x: Context, raws: seq<RawIdentity>, ids: seq<nat>): (r: seq<IdentityRow>)
    requires |ids| == |raws|
    ensures |r| == |raws|
  {
    seq(|raws|, k requires 0 <= k < |raws| => IdentityUp(x, raws[k], ids[k]))
  }

  function EdgeUps(x: Context, raws: seq<RawIdentity>, ids: seq<nat>): (r: seq<EdgeRow>)
    requires |ids| == |raws|
    ensures |r| == |raws|
  {
    seq(|raws|, k requires 0 <= k < |raws| => EdgeUp(x, raws[k], ids[k]))
  }

  lemma {:induction false} IngestIsUpserts(g: Graph, x: Context, raws: seq<RawIdentity>)
    ensures var ids, t := People(g, x, raws), Ingest(g, x, raws);
      && t.identities == UpsertAll(g.identities, IdentityUps(x, raws, ids))
      && t.edges == UpsertAll(g.edges, EdgeUps(x, raws, ids))
    decreases |raws|
  {
    hide Find, Resolved, Counted, Upsert, IdentityFor, EdgeFor;
    if raws != [] {
      IngestIsUpserts(IngestOne(g, x, raws[0]), x, raws[1..]);
      var ids := People(g, x, raws);
      assert ids[1..] == People(IngestOne(g, x, raws[0]), x, raws[1..]);
      assert IdentityUps(x, raws, ids)[1..] == IdentityUps(x, raws[1..], ids[1..]);
      assert EdgeUps(x, raws, ids)[1..] == EdgeUps(x, raws[1..], ids[1..]);
    }
  }

  lemma OneExtends(g: Graph, x: Context, raw: RawIdentity)
    ensures Extends(IngestOne(g, x, raw).persons, g.persons)
    ensures Extends(IngestOne(g, x, raw).persons, Resolved(g.persons, Clamped(raw.contact)))
  {
    hide Find, EdgeFor, IdentityFor, NewPerson, Clamped;
  }

  lemma ExtendsTransitive(r: seq<Person>, q: seq<Person>, p: seq<Person>)
    requires Extends(r, q) && Extends(q, p)
    ensures Extends(r, p)
  {
    forall i | 0 <= i < |p|
      ensures SameIdentity(p[i], r[i])
    {
      assert SameIdentity(p[i], q[i]) && SameIdentity(q[i], r[i]);
    }
  }

  lemma {:induction false} IngestExtends(g: Graph, x: Context, raws: seq<RawIdentity>)
    ensures Extends(Ingest(g, x, raws).persons, g.persons)
    decreases |raws|
  {
    if raws != [] {
      var h := IngestOne(g, x, raws[0]);
      OneExtends(g, x, raws[0]);
      IngestExtends(h, x, raws[1..]);
      hide IngestOne, Extends;
      ExtendsTransitive(Ingest(g, x, raws).persons, h.persons, g.persons);
    }
  }

  // ---- Ingesting is a fixed point ----------------------------------------------------------------

  ghost predicate AllRecognizable(raws: seq<RawIdentity>) {
    forall k :: 0 <= k < |raws| ==> Recognizable(Clamped(raws[k].contact))
  }

  predicate UnderScanLimit(g: Graph) {
    Emailless(g.persons) <= 500
  }

  /** In a graph where the identity resolves, its rows are there and its person is found, nothing is added. */
  ghost predicate Known(g: Graph, x: Context, raw: RawIdentity, person: nat) {
    && person < |g.persons|
    && Find(g.persons, Clamped(raw.contact)) == person
    && Has(g.identities, IdentityUp(x, raw, person).key)
    && Has(g.edges, EdgeUp(x, raw, person).key)
  }

  ghost predicate AllKnown(g: Graph, x: Context, raws: seq<RawIdentity>, ids: seq<nat>)
    requires |ids| == |raws|
  {
    forall k :: 0 <= k < |raws| ==> Known(g, x, raws[k], ids[k])
  }

  lemma KnownStays(g: Graph, x: Context, raw: RawIdentity, person: nat, u: RawIdentity, other: nat)
    requires Known(g, x, raw, person) && Known(g, x, u, other)
    ensures IngestOne(g, x, u).persons == g.persons
    ensures Known(IngestOne(g, x, u), x, raw, person)
  {
    hide Find, Clamped;
    UpsertKeepsLookups(g.identities, IdentityUp(x, u, other), IdentityUp(x, raw, person).key);
    UpsertKeepsLookups(g.edges, EdgeUp(x, u, other), EdgeUp(x, raw, person).key);
    assert Counted(g.persons, other, false, false) == g.persons;
  }

  lemma KnownRest(g: Graph, x: Context, raws: seq<RawIdentity>, ids: seq<nat>)
    requires |ids| == |raws| && raws != [] && AllKnown(g, x, raws, ids)
    ensures IngestOne(g, x, raws[0]).persons == g.persons
    ensures AllKnown(IngestOne(g, x, raws[0]), x, raws[1..], ids[1..])
  {
    var h := IngestOne(g, x, raws[0]);
    assert Known(g, x, raws[0], ids[0]);
    KnownStays(g, x, raws[0], ids[0], raws[0], ids[0]);
    hide Known, IngestOne;
    forall k | 0 <= k < |raws[1..]|
      ensures Known(h, x, raws[1..][k], ids[1..][k])
    {
      assert Known(g, x, raws[k + 1], ids[k + 1]);
      KnownStays(g, x, raws[k + 1], ids[k + 1], raws[0], ids[0]);
    }
  }

  lemma {:induction false} KnownPass(g: Graph, x: Context, raws: seq<RawIdentity>, ids: seq<nat>)
    requires |ids| == |raws| && AllKnown(g, x, raws, ids)
    ensures Ingest(g, x, raws).persons == g.persons && People(g, x, raws) == ids
    decreases |raws|
  {
    hide Known, IngestOne, Find;
    if raws != [] {
      KnownRest(g, x, raws, ids);
      KnownPass(IngestOne(g, x, raws[0]), x, raws[1..], ids[1..]);
      assert ids == [ids[0]] + ids[1..];
      assert Known(g, x, raws[0], ids[0]);
      KnownFound(g, x, raws[0], ids[0]);
    }
  }

  lemma KnownFound(g: Graph, x: Context, raw: RawIdentity, person: nat)
    requires Known(g, x, raw, person)
    ensures Find(g.persons, Clamped(raw.contact)) == person < |g.persons|
  {
  }

  ghost predicate AllInSight(persons: seq<Person>, raws: seq<RawIdentity>, ids: seq<nat>)
    requires |ids| == |raws|
  {
    forall k :: 0 <= k < |raws| ==> InSight(persons, Clamped(raws[k].contact), ids[k])
  }

  lemma {:induction false} FoundAfterwards(g: Graph, x: Context, raws: seq<RawIdentity>, k: nat)
    requires k < |raws|
    ensures var t, c, i := Ingest(g, x, raws), Clamped(raws[k].contact), People(g, x, raws)[k];
      i < |t.persons| && Find(t.persons, c) == if InSight(t.persons, c, i) then i else |t.persons|
    decreases |raws|
  {
    var h, t := IngestOne(g, x, raws[0]), Ingest(g, x, raws);
    assert t == Ingest(h, x, raws[1..]);
    if k == 0 {
      IngestExtends(h, x, raws[1..]);
      OneExtends(g, x, raws[0]);
      hide IngestOne, Extends, Ingest, Find, InSight;
      ExtendsTransitive(t.persons, h.persons, Resolved(g.persons, Clamped(raws[0].contact)));
      FoundAgainIff(g.persons, t.persons, raws[0].contact);
    } else {
      hide IngestOne, Find, InSight;
      FoundAfterwards(h, x, raws[1..], k - 1);
    }
  }

  lemma KnownAfterwards(g: Graph, x: Context, raws: seq<RawIdentity>)
    requires AllInSight(Ingest(g, x, raws).persons, raws, People(g, x, raws))
    ensures AllKnown(Ingest(g, x, raws), x, raws, People(g, x, raws))
  {
    var ids, t := People(g, x, raws), Ingest(g, x, raws);
    IngestIsUpserts(g, x, raws);
    var identities, edges := IdentityUps(x, raws, ids), EdgeUps(x, raws, ids);
    UpsertAllSettles(g.identities, identities);
    UpsertAllSettles(g.edges, edges);
    hide Ingest, People, UpsertAll, Find, IdentityFor, EdgeFor, InSight;
    forall k | 0 <= k < |raws|
      ensures Known(t, x, raws[k], ids[k])
    {
      FoundAfterwards(g, x, raws, k);
      assert Writes(identities, identities[k].key);
      assert Writes(edges, edges[k].key);
      assert SettledAt(t.identities, identities, identities[k].key);
      assert SettledAt(t.edges, edges, edges[k].key);
    }
  }

  /** The last identity of a batch for a person, or under an external id, decides the row. */
  ghost predicate IsLast<K(!new), F, V>(us: Table<K, F, V>, k: nat)
    requires k < |us|
  {
    forall j :: k < j < |us| ==> us[j].key != us[k].key
  }

  lemma {:induction false} LastIsLastValue<K(!new), F, V>(us: Table<K, F, V>, k: nat)
    requires k < |us| && IsLast(us, k)
    ensures Writes(us, us[k].key) && LastValue(us, us[k].key) == us[k].value
    decreases |us|
  {
    if k > 0 {
      assert us[1..][k - 1] == us[k];
      forall j | k - 1 < j < |us[1..]|
        ensures us[1..][j].key != us[1..][k - 1].key
      {
        assert us[1..][j] == us[j + 1];
      }
      LastIsLastValue(us[1..], k - 1);
      assert Writes(us[1..], us[k].key);
    } else {
      forall j | 0 <= j < |us[1..]|
        ensures us[1..][j].key != us[k].key
      {
        assert us[1..][j] == us[j + 1];
      }
      assert us[k] == us[0] && Writes(us, us[k].key);
    }
  }

  /**
   After a batch the edge of the last identity that resolved to a person has the statistics, relation,
   strength and pooling of that identity, and the last row under an external id points to its person.
   */
  lemma LastIdentityWins(g: Graph, x: Context, raws: seq<RawIdentity>, k: nat)
    requires k < |raws|
    ensures var t, i := Ingest(g, x, raws), People(g, x, raws)[k];
      var edge, identity := EdgeUp(x, raws[k], i), IdentityUp(x, raws[k], i);
      && Has(t.edges, edge.key) && Has(t.identities, identity.key)
      && (IsLast(EdgeUps(x, raws, People(g, x, raws)), k) ==> t.edges[Lookup(t.edges, edge.key)].value == edge.value)
      && (IsLast(IdentityUps(x, raws, People(g, x, raws)), k) ==>
        t.identities[Lookup(t.identities, identity.key)].value == i)
  {
    var ids := People(g, x, raws);
    var identities, edges := IdentityUps(x, raws, ids), EdgeUps(x, raws, ids);
    IngestIsUpserts(g, x, raws);
    UpsertAllSettles(g.identities, identities);
    UpsertAllSettles(g.edges, edges);
    assert IdentityUp(x, raws[k], ids[k]).value == ids[k];
    hide Ingest, People, UpsertAll, Find, IdentityFor, EdgeFor, IsLast;
    assert Writes(identities, identities[k].key) && Writes(edges, edges[k].key);
    assert SettledAt(UpsertAll(g.identities, identities), identities, identities[k].key);
    assert SettledAt(UpsertAll(g.edges, edges), edges, edges[k].key);
    if IsLast(edges, k) {
      LastIsLastValue(edges, k);
    }
    if IsLast(identities, k) {
      LastIsLastValue(identities, k);
    }
  }

  lemma InSightBatchIsFixed(g: Graph, x: Context, raws: seq<RawIdentity>)
    requires AllInSight(Ingest(g, x, raws).persons, raws, People(g, x, raws))
    ensures Ingest(Ingest(g, x, raws), x, raws) == Ingest(g, x, raws)
  {
    var ids, t := People(g, x, raws), Ingest(g, x, raws);
    KnownAfterwards(g, x, raws);
    KnownPass(t, x, raws, ids);
    IngestIsUpserts(g, x, raws);
    IngestIsUpserts(t, x, raws);
    UpsertTwice(g.identities, IdentityUps(x, raws, ids));
    UpsertTwice(g.edges, EdgeUps(x, raws, ids));
  }

  lemma FindSameTable(q: seq<Person>, p: seq<Person>, c: Contact)
    requires Extends(q, p) && |q| == |p|
    ensures Find(q, c) == Find(p, c)
  {
    FindIs(q, c);
    FindIs(p, c);
    FirstMatchStays(q, p, c);
    if FirstMatch(p, c) < |p| {
      EmaillessSame(q, p, FirstMatch(p, c));
    }
  }

  lemma OneUnfoundAdds(g: Graph, x: Context, raw: RawIdentity)
    requires Find(g.persons, Clamped(raw.contact)) == |g.persons|
    ensures |IngestOne(g, x, raw).persons| > |g.persons|
  {
    hide EdgeFor, IdentityFor, Find, Clamped, NewPerson;
  }

  /** An identity nobody is found for becomes another person. */
  lemma {:induction false} UnfoundAdds(g: Graph, x: Context, raws: seq<RawIdentity>, k: nat)
    requires k < |raws| && Find(g.persons, Clamped(raws[k].contact)) == |g.persons|
    ensures |Ingest(g, x, raws).persons| > |g.persons|
    decreases |raws|
  {
    hide *;
    var h := IngestOne(g, x, raws[0]);
    BatchHead(g, x, raws);
    OneExtends(g, x, raws[0]);
    ExtendsLength(h.persons, g.persons);
    IngestExtends(h, x, raws[1..]);
    ExtendsLength(Ingest(h, x, raws[1..]).persons, h.persons);
    if k == 0 {
      OneUnfoundAdds(g, x, raws[0]);
    } else if |h.persons| == |g.persons| {
      FindSameTable(h.persons, g.persons, Clamped(raws[k].contact));
      UnfoundAdds(h, x, raws[1..], k - 1);
    }
  }

  /**
   A second sync of the same batch changes nothing exactly when every identity in it has an email, or has
   a name and fewer than 500 persons without an email come before its person. The others become another
   person each time.
   */
  lemma IngestTwiceIffInSight(g: Graph, x: Context, raws: seq<RawIdentity>)
    ensures Ingest(Ingest(g, x, raws), x, raws) == Ingest(g, x, raws) <==>
      AllInSight(Ingest(g, x, raws).persons, raws, People(g, x, raws))
  {
    var t, ids := Ingest(g, x, raws), People(g, x, raws);
    if AllInSight(t.persons, raws, ids) {
      InSightBatchIsFixed(g, x, raws);
    } else {
      hide Ingest, People, InSight, Find, Clamped;
      var k :| 0 <= k < |raws| && !InSight(t.persons, Clamped(raws[k].contact), ids[k]);
      FoundAfterwards(g, x, raws, k);
      UnfoundAdds(t, x, raws, k);
    }
  }

  lemma NamedResolved(p: seq<Person>, raw: Contact)
    requires !HasEmail(Clamped(raw)) && HasName(Clamped(raw))
    ensures Resolved(p, Clamped(raw))[Find(p, Clamped(raw))].email.None?
  {
    ResolvedMatch(p, raw);
    hide Find, Resolved, Clamped, HasEmail, HasName, SameName;
  }

  lemma BatchHead(g: Graph, x: Context, raws: seq<RawIdentity>)
    requires raws != []
    ensures Ingest(g, x, raws) == Ingest(IngestOne(g, x, raws[0]), x, raws[1..])
    ensures People(g, x, raws) ==
      [Find(g.persons, Clamped(raws[0].contact))] + People(IngestOne(g, x, raws[0]), x, raws[1..])
  {
  }

  lemma SameEmailless(q: seq<Person>, p: seq<Person>, i: nat)
    requires Extends(q, p) && i < |p| && p[i].email.None?
    ensures i < |q| && q[i].email.None?
  {
    assert SameIdentity(p[i], q[i]);
  }

  /** A person resolved by name has no email. */
  lemma {:induction false} NamedIsEmailless(g: Graph, x: Context, raws: seq<RawIdentity>, k: nat)
    requires k < |raws| && !HasEmail(Clamped(raws[k].contact)) && HasName(Clamped(raws[k].contact))
    ensures var t, i := Ingest(g, x, raws), People(g, x, raws)[k];
      i < |t.persons| && t.persons[i].email.None?
    decreases |raws|
  {
    hide *;
    var h, t := IngestOne(g, x, raws[0]), Ingest(g, x, raws);
    BatchHead(g, x, raws);
    if k == 0 {
      var c := Clamped(raws[0].contact);
      NamedResolved(g.persons, raws[0].contact);
      ResolvedExtends(g.persons, c);
      IngestExtends(h, x, raws[1..]);
      OneExtends(g, x, raws[0]);
      ExtendsTransitive(t.persons, h.persons, Resolved(g.persons, c));
      SameEmailless(t.persons, Resolved(g.persons, c), Find(g.persons, c));
    } else {
      NamedIsEmailless(h, x, raws[1..], k - 1);
    }
  }

  lemma CountedBefore(p: seq<Person>, i: nat)
    requires i < |p| && p[i].email.None?
    ensures Emailless(p[..i]) < Emailless(p)
  {
    EmaillessNext(p[..i + 1], i);
    assert p[..i + 1][..i] == p[..i];
    EmaillessPrefix(p, i + 1, |p|);
    assert p[..|p|] == p;
  }

  lemma {:induction false} EmaillessNext(p: seq<Person>, i: nat)
    requires |p| == i + 1 && p[i].email.None?
    ensures Emailless(p) == Emailless(p[..i]) + 1
  {
    if i > 0 {
      EmaillessNext(p[1..], i - 1);
      assert p[..i][1..] == p[1..][..i - 1];
    }
  }

  /** So with up to 500 persons without an email it is enough, and needed, that every identity has one or a name. */
  lemma IngestTwiceIffRecognizable(g: Graph, x: Context, raws: seq<RawIdentity>)
    requires UnderScanLimit(Ingest(g, x, raws))
    ensures Ingest(Ingest(g, x, raws), x, raws) == Ingest(g, x, raws) <==> AllRecognizable(raws)
  {
    var t, ids := Ingest(g, x, raws), People(g, x, raws);
    IngestTwiceIffInSight(g, x, raws);
    hide Ingest, People, Clamped;
    forall k | 0 <= k < |raws|
      ensures InSight(t.persons, Clamped(raws[k].contact), ids[k]) <==> Recognizable(Clamped(raws[k].contact))
    {
      var c := Clamped(raws[k].contact);
      if !HasEmail(c) && HasName(c) {
        NamedIsEmailless(g, x, raws, k);
        CountedBefore(t.persons, ids[k]);
      }
    }
  }
}
