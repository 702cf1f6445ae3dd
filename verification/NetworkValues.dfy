/**
 What one identity leaves in the relationship graph (nexus/network/service.py, nexus/network/resolution.py,
 nexus/network/strength.py): the values in its edge, in its own row and in a person made for it, with the
 strength of an edge as a table of points.
 */
module NetworkValues {
  import opened Wrappers
  import opened Text
  import opened Upserts
  import opened NetworkModel
  import opened NetworkRuns
  import NetworkTheorems

  // ---- Strength --------------------------------------------------------------------------------

  /** The points a kind of relation brings by itself. */
  function RelationPoints(r: Relation): nat {
    if r == Linkedin1st then 40 else if r == FromContacts then 30 else if r == Calendar then 25
    else if r == ByEmail then 20 else if r == OtherRelation then 15 else 10
  }

  /** The points for a last touch less than 31, 91 or 366 times 86400 seconds ago, or still to come. */
  function RecencyPoints(last: Option<int>, now: int): nat {
    if last.None? then 0
    else if now - last.value < 31 * 86400 then 30
    else if now - last.value < 91 * 86400 then 20
    else if now - last.value < 366 * 86400 then 10
    else 0
  }

  /** Two points a mail and five a meeting, up to 25; and 15 for mail both ways. */
  function ContactPoints(sent: nat, received: nat, meetings: nat): nat {
    var points := 2 * sent + 2 * received + 5 * meetings;
    (if points <= 25 then points else 25) + if sent == 0 || received == 0 then 0 else 15
  }

  /** An edge is as strong as its points, and never more than 100. */
  lemma StrengthIsPoints(r: Relation, a: Stats, now: int)
    ensures var points :=
      RelationPoints(r) + RecencyPoints(a.last, now) + ContactPoints(a.sent, a.received, a.meetings);
      Strength(r, a, now) == if points <= 100 then points else 100
  {
  }

  // ---- The edge --------------------------------------------------------------------------------

  /** How many touchpoints of a kind a batch has for an external id. */
  function Number(ts: seq<Touchpoint>, id: string, kind: Kind): nat {
    |OfKind(ts, id, kind)|
  }

  /** Mail counts before meetings, and both before what the provider said. */
  function RelationOf(x: Context, raw: RawIdentity): Relation {
    var id := raw.externalId;
    if Number(x.touchpoints, id, EmailSent) > 0 || Number(x.touchpoints, id, EmailReceived) > 0 then ByEmail
    else if Number(x.touchpoints, id, Meeting) > 0 then Calendar
    else raw.relation
  }

  /** The points of an edge, from the touchpoints and the relation it gets. */
  function PointsOf(x: Context, raw: RawIdentity): nat {
    var id := raw.externalId;
    RelationPoints(RelationOf(x, raw))
      + RecencyPoints(StatsOf(x.touchpoints, id).last, x.now)
      + ContactPoints(Number(x.touchpoints, id, EmailSent), Number(x.touchpoints, id, EmailReceived),
                      Number(x.touchpoints, id, Meeting))
  }

  predicate HoldsValues(x: Context, raw: RawIdentity, value: EdgeValue) {
    && value.relation == RelationOf(x, raw)
    && value.strength == (if PointsOf(x, raw) <= 100 then PointsOf(x, raw) else 100)
    && value.stats == StatsOf(x.touchpoints, raw.externalId)
    && value.pooled == x.pooled
  }

  lemma EdgeUpHolds(x: Context, raw: RawIdentity, person: nat)
    ensures HoldsValues(x, raw, EdgeUp(x, raw, person).value)
    ensures EdgeUp(x, raw, person).key == EdgeKey(x.owner.member, person, x.owner.provider)
  {
    var a := StatsOf(x.touchpoints, raw.externalId);
    CountsAreNumbers(x.touchpoints, raw.externalId, EmailSent);
    CountsAreNumbers(x.touchpoints, raw.externalId, EmailReceived);
    CountsAreNumbers(x.touchpoints, raw.externalId, Meeting);
    hide OfKind, StatsOf, Strength, RecencyPoints, RelationPoints, ContactPoints;
    StrengthIsPoints(RelationOf(x, raw), a, x.now);
  }

  /** After a batch, the edge of the last identity of a person has the values its touchpoints give it. */
  lemma BatchLeavesValues(g: Graph, x: Context, raws: seq<RawIdentity>, k: nat)
    requires k < |raws|
    ensures var t, i := Ingest(g, x, raws), NetworkTheorems.People(g, x, raws)[k];
      var key := EdgeKey(x.owner.member, i, x.owner.provider);
      && Has(t.edges, key)
      && (NetworkTheorems.IsLast(NetworkTheorems.EdgeUps(x, raws, NetworkTheorems.People(g, x, raws)), k) ==>
            HoldsValues(x, raws[k], t.edges[Lookup(t.edges, key)].value))
  {
    hide Ingest, NetworkTheorems.People, HoldsValues, EdgeUp, IdentityUp, NetworkTheorems.IsLast;
    NetworkTheorems.LastIdentityWins(g, x, raws, k);
    EdgeUpHolds(x, raws[k], NetworkTheorems.People(g, x, raws)[k]);
  }

  // ---- The person ------------------------------------------------------------------------------

  /** The first n characters, or all of them. */
  predicate FirstOf(p: string, s: string, n: nat) {
    p <= s && |p| == if |s| <= n then |s| else n
  }

  /** The words that are not empty, with a blank between any two. */
  function Spaced(words: seq<string>): string {
    if words == [] then ""
    else
      var front, w := Spaced(words[..|words| - 1]), words[|words| - 1];
      if w == "" then front else if front == "" then w else front + " " + w
  }

  /** The domain is what follows the first at-sign of the address. */
  ghost predicate DomainIs(domain: string, address: string) {
    if '@' in address then
      exists local, rest :: address == local + "@" + rest && '@' !in local && FirstOf(domain, rest, 200)
    else domain == ""
  }

  /** A person as made for a contact: its columns, and the text it is searched by. */
  ghost predicate MadeFor(p: Person, c: Contact) {
    var address := Lower(Strip(OrEmpty(c.email)));
    var words := [Strip(OrEmpty(c.name)), Strip(OrEmpty(c.title)), Strip(OrEmpty(c.company))];
    && (p.email.None? <==> address == "")
    && (p.email.Some? ==> FirstOf(p.email.value, address, 255))
    && FirstOf(p.fullName, OrEmpty(c.name), 200)
    && FirstOf(p.title, OrEmpty(c.title), 200)
    && FirstOf(p.company, OrEmpty(c.company), 200)
    && DomainIs(p.companyDomain, address)
    && FirstOf(p.searchText, Lower(Spaced(words)), 600)
  }

  lemma {:induction false} IndexOfIs(s: string, c: char)
    ensures c !in s[..IndexOf(s, c)]
    ensures IndexOf(s, c) < |s| ==> s[IndexOf(s, c)] == c
    ensures c in s ==> IndexOf(s, c) < |s|
  {
    if s != "" && s[0] != c {
      IndexOfIs(s[1..], c);
      assert s[..IndexOf(s, c)] == [s[0]] + s[1..][..IndexOf(s[1..], c)];
    }
  }

  lemma DomainOfIs(email: Option<string>)
    ensures DomainIs(Prefix(DomainOf(email), 200), NormalizeEmail(email))
  {
    var e := NormalizeEmail(email);
    var at := IndexOf(e, '@');
    hide NormalizeEmail;
    IndexOfIs(e, '@');
    if at < |e| {
      assert e == e[..at] + "@" + e[at + 1..];
      assert FirstOf(Prefix(e[at + 1..], 200), e[at + 1..], 200);
    }
  }

  lemma SpacedThree(a: string, b: string, c: string)
    ensures Spaced([a, b, c]) == Joined(Joined(a, b), c)
  {
    assert [a, b, c][..2] == [a, b] && [a, b][..1] == [a] && [a][..0] == [];
    assert Spaced([]) == "" && Spaced([a]) == a;
    assert Spaced([a, b]) == Joined(a, b);
  }

  lemma NewPersonIsMade(c: Contact)
    ensures MadeFor(NewPerson(c), c)
  {
    DomainOfIs(c.email);
    SpacedThree(Strip(OrEmpty(c.name)), Strip(OrEmpty(c.title)), Strip(OrEmpty(c.company)));
    hide Strip, Lower, DomainOf, DomainIs, Spaced, Joined;
  }

  /** The contact of an identity, cut to the columns. */
  predicate CutTo(p: Option<string>, s: Option<string>, n: nat) {
    (p.None? <==> s.None?) && (p.Some? && s.Some? ==> FirstOf(p.value, s.value, n))
  }

  predicate CutContact(c: Contact, raw: Contact) {
    CutTo(c.email, raw.email, 255) && CutTo(c.name, raw.name, 200) && CutTo(c.title, raw.title, 200)
      && CutTo(c.company, raw.company, 200)
  }

  /** The edge to person i after an identity, and whose it is. */
  predicate EdgeHolds(g: Graph, t: Graph, x: Context, raw: RawIdentity, i: nat) {
    var key := EdgeKey(x.owner.member, i, x.owner.provider);
    && Has(t.edges, key)
    && HoldsValues(x, raw, t.edges[Lookup(t.edges, key)].value)
    && t.edges[Lookup(t.edges, key)].fixed ==
         if Has(g.edges, key) then g.edges[Lookup(g.edges, key)].fixed else EdgeInfo(x.owner.user, x.owner.account)
  }

  lemma EdgeLeft(g: Graph, x: Context, raw: RawIdentity)
    ensures EdgeHolds(g, IngestOne(g, x, raw), x, raw, Find(g.persons, Clamped(raw.contact)))
  {
    var edge := EdgeUp(x, raw, Find(g.persons, Clamped(raw.contact)));
    assert IngestOne(g, x, raw).edges == Upsert(g.edges, edge);
    assert edge.fixed == EdgeInfo(x.owner.user, x.owner.account);
    EdgeUpHolds(x, raw, Find(g.persons, Clamped(raw.contact)));
    hide IngestOne, Clamped, Find, Upsert, Lookup, Has, HoldsValues, EdgeUp;
    UpsertedRow(g.edges, edge);
  }

  /**
   One identity: the person it resolves to keeps its columns, or is made for it, last; nobody else changes. A
   new row holds what the provider said, cut to the columns, and an old row what it held; the row points to
   the person. The edge to the person is its owner's, or the one there was, with the values of the batch.
   */
  lemma IdentityLeaves(g: Graph, x: Context, raw: RawIdentity)
    ensures var t, c := IngestOne(g, x, raw), Clamped(raw.contact);
      var i := Find(g.persons, c);
      var key := IdentityKey(x.owner.account, raw.externalId);
      && CutContact(c, raw.contact)
      && |t.persons| == (if i == |g.persons| then i + 1 else |g.persons|)
      && (i == |g.persons| ==> MadeFor(t.persons[i], c))
      && (i < |g.persons| ==> t.persons[i] == g.persons[i].(
            identityCount := t.persons[i].identityCount, edgeCount := t.persons[i].edgeCount))
      && (forall j :: 0 <= j < |g.persons| && j != i ==> t.persons[j] == g.persons[j])
      && Has(t.identities, key)
      && (var row := t.identities[Lookup(t.identities, key)];
          && row.value == i
          && (Has(g.identities, key) ==> row.fixed == g.identities[Lookup(g.identities, key)].fixed)
          && (!Has(g.identities, key) ==>
                && row.fixed.provider == x.owner.provider && row.fixed.contact == c
                && CutTo(row.fixed.handle, raw.handle, 100) && row.fixed.payload == raw.payload
                && row.fixed.resolutionKey == KeyFor(c)))
    ensures EdgeHolds(g, IngestOne(g, x, raw), x, raw, Find(g.persons, Clamped(raw.contact)))
  {
    PersonLeft(g, x, raw);
    RowLeft(g, x, raw);
    EdgeLeft(g, x, raw);
    ClampedIsCut(raw.contact);
    hide *;
  }

  lemma ClampedIsCut(raw: Contact)
    ensures CutContact(Clamped(raw), raw)
  {
  }

  lemma PersonLeft(g: Graph, x: Context, raw: RawIdentity)
    ensures var t, c := IngestOne(g, x, raw), Clamped(raw.contact);
      var i := Find(g.persons, c);
      && |t.persons| == (if i == |g.persons| then i + 1 else |g.persons|)
      && (i == |g.persons| ==> MadeFor(t.persons[i], c))
      && (i < |g.persons| ==> t.persons[i] == g.persons[i].(
            identityCount := t.persons[i].identityCount, edgeCount := t.persons[i].edgeCount))
      && (forall j :: 0 <= j < |g.persons| && j != i ==> t.persons[j] == g.persons[j])
  {
    NewPersonIsMade(Clamped(raw.contact));
    hide Clamped, Find, NewPerson, EdgeUp, IdentityUp, Lookup, Upsert, Has, FirstOf, DomainIs, Lower, Strip, Spaced;
  }

  lemma RowLeft(g: Graph, x: Context, raw: RawIdentity)
    ensures var t, c := IngestOne(g, x, raw), Clamped(raw.contact);
      var i := Find(g.persons, c);
      var key := IdentityKey(x.owner.account, raw.externalId);
      && Has(t.identities, key)
      && var row := t.identities[Lookup(t.identities, key)];
         && row.value == i
         && (Has(g.identities, key) ==> row.fixed == g.identities[Lookup(g.identities, key)].fixed)
         && (!Has(g.identities, key) ==>
               && row.fixed.provider == x.owner.provider && row.fixed.contact == c
               && CutTo(row.fixed.handle, raw.handle, 100) && row.fixed.payload == raw.payload
               && row.fixed.resolutionKey == KeyFor(c))
  {
    var identity := IdentityUp(x, raw, Find(g.persons, Clamped(raw.contact)));
    assert IngestOne(g, x, raw).identities == Upsert(g.identities, identity);
    hide IngestOne, Clamped, Find, Upsert, KeyFor, Lookup, Has;
    UpsertedRow(g.identities, identity);
  }

  lemma UpsertedRow<K, F, V>(rows: Table<K, F, V>, u: Row<K, F, V>)
    ensures var t := Upsert(rows, u);
      && Has(t, u.key)
      && t[Lookup(t, u.key)].value == u.value
      && t[Lookup(t, u.key)].fixed == if Has(rows, u.key) then rows[Lookup(rows, u.key)].fixed else u.fixed
  {
    var t := Upsert(rows, u);
    if Has(rows, u.key) {
      LookupIs(t, u.key, Lookup(rows, u.key));
    } else {
      LookupIs(t, u.key, |rows|);
    }
  }

  // ---- The resolution key ----------------------------------------------------------------------

  predicate Fits(c: Contact) {
    |OrEmpty(c.email)| <= 255 && |OrEmpty(c.name)| <= 200 && |OrEmpty(c.company)| <= 200
  }

  /**
   The resolution key says what the matching does: for contacts cut to the columns, a person made for one
   matches the other, by email or, where neither has one, by name and company, exactly if their keys are equal.
   */
  lemma KeyIsMatch(c: Contact, d: Contact)
    requires Fits(c) && Fits(d)
    ensures KeyFor(c) == KeyFor(d) <==>
      if HasEmail(d) then SameEmail(NewPerson(c), d) else !HasEmail(c) && SameName(NewPerson(c), d)
  {
    NormalizedFits(c.email);
    hide Strip, Lower, Collapse, Norm, DomainOf, SearchTextFor;
  }

  lemma NormalizedFits(email: Option<string>)
    ensures |NormalizeEmail(email)| <= |OrEmpty(email)|
  {
  }
}
