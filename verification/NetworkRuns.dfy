/** The counters, the strengths and the privacy switch of the relationship graph, over whole histories. */
module NetworkRuns {
  import opened Wrappers
  import opened Sequences
  import opened Text
  import opened Upserts
  import opened NetworkModel
  import opened NetworkTheorems

  // ---- Touchpoints -----------------------------------------------------------------------------------

  lemma BumpsCommute(a: Stats, t: Touchpoint, u: Touchpoint)
    ensures Bump(Bump(a, t), u) == Bump(Bump(a, u), t)
  {
  }

  lemma {:induction false} StatsWithout(ts: seq<Touchpoint>, i: nat, id: string)
    requires i < |ts|
    ensures StatsOf(ts, id) ==
      if ts[i].externalId == id then Bump(StatsOf(Removed(ts, i), id), ts[i]) else StatsOf(Removed(ts, i), id)
    decreases |ts|
  {
    hide Bump;
    var n := |ts| - 1;
    if i == n {
      assert Removed(ts, i) == ts[..n];
    } else {
      StatsWithout(ts[..n], i, id);
      RemovedBeforeLast(ts, i);
      BumpsCommute(StatsOf(Removed(ts[..n], i), id), ts[i], ts[n]);
    }
  }

  /** The order of the touchpoints does not matter. */
  lemma {:induction false} TouchpointOrderIrrelevant(p: seq<Touchpoint>, q: seq<Touchpoint>, id: string)
    requires multiset(p) == multiset(q)
    ensures StatsOf(p, id) == StatsOf(q, id)
    decreases |p|
  {
    hide Bump;
    if p == [] {
      assert |multiset(q)| == 0;
    } else {
      var i := MatchLast(p, q);
      TouchpointOrderIrrelevant(p[..|p| - 1], Removed(q, i), id);
      StatsWithout(q, i, id);
    }
  }

  /** `first` and `last` are the earliest and the latest of the person's touchpoints. */
  lemma {:induction false} FirstAndLast(ts: seq<Touchpoint>, id: string, k: nat)
    requires k < |ts| && ts[k].externalId == id
    ensures var a := StatsOf(ts, id);
      && a.first.Some? && a.last.Some? && a.first.value <= ts[k].at <= a.last.value
      && (exists j :: 0 <= j < |ts| && ts[j].externalId == id && ts[j].at == a.first.value)
      && (exists j :: 0 <= j < |ts| && ts[j].externalId == id && ts[j].at == a.last.value)
    decreases |ts|
  {
    var n := |ts| - 1;
    var init, t := ts[..n], ts[n];
    if exists j :: 0 <= j < n && init[j].externalId == id {
      var j :| 0 <= j < n && init[j].externalId == id;
      FirstAndLast(init, id, if k < n then k else j);
      var a := StatsOf(init, id);
      var f :| 0 <= f < |init| && init[f].externalId == id && init[f].at == a.first.value;
      var l :| 0 <= l < |init| && init[l].externalId == id && init[l].at == a.last.value;
      assert ts[f] == init[f] && ts[l] == init[l];
    } else {
      assert k == n;
      NoTouchpoints(init, id);
    }
  }

  lemma {:induction false} NoTouchpoints(ts: seq<Touchpoint>, id: string)
    requires forall j :: 0 <= j < |ts| ==> ts[j].externalId != id
    ensures StatsOf(ts, id) == NO_STATS
  {
    if ts != [] {
      NoTouchpoints(ts[..|ts| - 1], id);
    }
  }

  function CountFor(a: Stats, kind: Kind): nat {
    match kind
    case EmailSent => a.sent
    case EmailReceived => a.received
    case Meeting => a.meetings
    case OtherKind => 0
  }

  function OfKind(ts: seq<Touchpoint>, id: string, kind: Kind): set<nat> {
    set k: nat | k < |ts| && ts[k].externalId == id && ts[k].kind == kind
  }

  lemma StatsNext(ts: seq<Touchpoint>, t: Touchpoint, id: string)
    ensures StatsOf(ts + [t], id) == if t.externalId == id then Bump(StatsOf(ts, id), t) else StatsOf(ts, id)
  {
    assert (ts + [t])[..|ts|] == ts;
    hide Bump;
  }

  lemma OfKindNext(ts: seq<Touchpoint>, t: Touchpoint, id: string, kind: Kind)
    ensures OfKind(ts + [t], id, kind) ==
      if t.externalId == id && t.kind == kind then OfKind(ts, id, kind) + {|ts|} else OfKind(ts, id, kind)
  {
    assert forall k :: 0 <= k < |ts| ==> (ts + [t])[k] == ts[k];
  }

  /** The counts are the numbers of the person's touchpoints of each kind. */
  lemma {:induction false} CountsAreNumbers(ts: seq<Touchpoint>, id: string, kind: Kind)
    requires kind != OtherKind
    ensures CountFor(StatsOf(ts, id), kind) == |OfKind(ts, id, kind)|
  {
    if ts == [] {
      assert OfKind(ts, id, kind) == {};
    } else {
      var n := |ts| - 1;
      assert ts == ts[..n] + [ts[n]];
      CountsAreNumbers(ts[..n], id, kind);
      StatsNext(ts[..n], ts[n], id);
      OfKindNext(ts[..n], ts[n], id, kind);
      assert n !in OfKind(ts[..n], id, kind);
      hide StatsOf, OfKind;
    }
  }

  // ---- Several syncs ---------------------------------------------------------------------------------

  function MinTime(a: Option<int>, b: Option<int>): Option<int> {
    if a.None? then b else if b.None? then a else if a.value <= b.value then a else b
  }

  function MaxTime(a: Option<int>, b: Option<int>): Option<int> {
    if a.None? then b else if b.None? then a else if a.value >= b.value then a else b
  }

  /** The statistics of two lists of touchpoints together. */
  function Together(a: Stats, b: Stats): Stats {
    Stats(a.sent + b.sent, a.received + b.received, a.meetings + b.meetings, MinTime(a.first, b.first),
      MaxTime(a.last, b.last))
  }

  lemma BumpTogether(a: Stats, b: Stats, t: Touchpoint)
    ensures Together(a, Bump(b, t)) == Bump(Together(a, b), t)
  {
  }

  lemma TogetherWithNone(a: Stats)
    ensures Together(a, NO_STATS) == a
  {
  }

  lemma NoneTogether(early: seq<Touchpoint>, id: string)
    ensures Together(StatsOf(early, id), StatsOf([], id)) == StatsOf(early, id)
  {
    TogetherWithNone(StatsOf(early, id));
    NoTouchpoints([], id);
    hide StatsOf, Together;
  }

  lemma {:induction false} StatsTogether(early: seq<Touchpoint>, late: seq<Touchpoint>, id: string)
    ensures StatsOf(early + late, id) == Together(StatsOf(early, id), StatsOf(late, id))
    decreases |late|
  {
    hide *;
    if late == [] {
      assert early + late == early;
      NoneTogether(early, id);
    } else {
      var front, last := late[..|late| - 1], late[|late| - 1];
      assert late == front + [last];
      assert early + late == early + front + [last];
      StatsTogether(early, front, id);
      StatsNext(early + front, last, id);
      StatsNext(front, last, id);
      BumpTogether(StatsOf(early, id), StatsOf(front, id), last);
    }
  }

  /** The person's touchpoints are of no kind that is counted. */
  predicate Uncounted(ts: seq<Touchpoint>, id: string) {
    forall k :: 0 <= k < |ts| && ts[k].externalId == id ==> ts[k].kind == OtherKind
  }

  /** The person's touchpoints lie between the first and the last one of the statistics. */
  predicate Covered(ts: seq<Touchpoint>, late: Stats, id: string) {
    forall k :: 0 <= k < |ts| && ts[k].externalId == id ==>
      late.first.Some? && late.last.Some? && late.first.value <= ts[k].at <= late.last.value
  }

  /** What the earlier touchpoints say of the person is also said by the later ones. */
  predicate NothingLost(early: seq<Touchpoint>, late: Stats, id: string) {
    Uncounted(early, id) && Covered(early, late, id)
  }

  lemma NoneOfKind(ts: seq<Touchpoint>, id: string, kind: Kind)
    requires kind != OtherKind
    ensures CountFor(StatsOf(ts, id), kind) == 0 <==> Lacks(ts, id, kind)
  {
    CountsAreNumbers(ts, id, kind);
    hide StatsOf, CountFor;
    var s := OfKind(ts, id, kind);
    if k :| 0 <= k < |ts| && ts[k].externalId == id && ts[k].kind == kind {
      assert k in s;
    }
    if |s| > 0 {
      var k :| k in s;
      assert ts[k].externalId == id && ts[k].kind == kind;
    }
  }

  /** The person has no touchpoint of the kind. */
  predicate Lacks(ts: seq<Touchpoint>, id: string, kind: Kind) {
    forall k :: 0 <= k < |ts| && ts[k].externalId == id ==> ts[k].kind != kind
  }

  lemma UncountedLacks(ts: seq<Touchpoint>, id: string)
    ensures Uncounted(ts, id) <==> Lacks(ts, id, EmailSent) && Lacks(ts, id, EmailReceived) && Lacks(ts, id, Meeting)
  {
    if Lacks(ts, id, EmailSent) && Lacks(ts, id, EmailReceived) && Lacks(ts, id, Meeting) {
      forall k | 0 <= k < |ts| && ts[k].externalId == id
        ensures ts[k].kind == OtherKind
      {
        assert ts[k].kind != EmailSent && ts[k].kind != EmailReceived && ts[k].kind != Meeting;
      }
    }
  }

  lemma CountsAreZero(ts: seq<Touchpoint>, id: string)
    ensures var a := StatsOf(ts, id);
      a.sent == 0 && a.received == 0 && a.meetings == 0 <==> Uncounted(ts, id)
  {
    NoneOfKind(ts, id, EmailSent);
    NoneOfKind(ts, id, EmailReceived);
    NoneOfKind(ts, id, Meeting);
    UncountedLacks(ts, id);
    hide StatsOf, Lacks, Uncounted;
  }

  /** The times of `a` lie within those of `b`. */
  predicate TimesWithin(a: Stats, b: Stats) {
    && (a.first.Some? ==> b.first.Some? && b.first.value <= a.first.value)
    && (a.last.Some? ==> b.last.Some? && a.last.value <= b.last.value)
  }

  lemma TimesCovered(early: seq<Touchpoint>, late: Stats, id: string)
    ensures TimesWithin(StatsOf(early, id), late) <==> Covered(early, late, id)
  {
    hide StatsOf;
    if k :| 0 <= k < |early| && early[k].externalId == id {
      forall k | 0 <= k < |early| && early[k].externalId == id
        ensures var a := StatsOf(early, id);
          a.first.Some? && a.last.Some? && a.first.value <= early[k].at <= a.last.value
      {
        FirstAndLast(early, id, k);
      }
      FirstAndLast(early, id, k);
    } else {
      NoTouchpoints(early, id);
    }
  }

  lemma TogetherIsSecond(a: Stats, b: Stats)
    ensures Together(a, b) == b <==> a.sent == 0 && a.received == 0 && a.meetings == 0 && TimesWithin(a, b)
  {
  }

  /** So the statistics of the later ones alone are those of all, exactly then. */
  lemma LateStatsAreAllIff(early: seq<Touchpoint>, late: seq<Touchpoint>, id: string)
    ensures StatsOf(late, id) == StatsOf(early + late, id) <==> NothingLost(early, StatsOf(late, id), id)
  {
    StatsTogether(early, late, id);
    CountsAreZero(early, id);
    TimesCovered(early, StatsOf(late, id), id);
    TogetherIsSecond(StatsOf(early, id), StatsOf(late, id));
    hide StatsOf, Together, TimesWithin, Uncounted, Covered;
  }

  /**
   A sync overwrites the statistics of an edge with those of its own touchpoints. So after it they are the
   statistics of these and any earlier touchpoints together exactly when the earlier ones held no mail and
   no meeting with the person, and nothing outside the new first and last touch.
   */
  lemma SyncedStatsAreAllIff(g: Graph, x: Context, raws: seq<RawIdentity>, k: nat, early: seq<Touchpoint>)
    requires k < |raws| && IsLast(EdgeUps(x, raws, People(g, x, raws)), k)
    ensures var t, edge := Ingest(g, x, raws), EdgeUp(x, raws[k], People(g, x, raws)[k]);
      var id := raws[k].externalId;
      && Has(t.edges, edge.key)
      && (t.edges[Lookup(t.edges, edge.key)].value.stats == StatsOf(early + x.touchpoints, id) <==>
           NothingLost(early, StatsOf(x.touchpoints, id), id))
  {
    LastIdentityWins(g, x, raws, k);
    EdgeUpStats(x, raws[k], People(g, x, raws)[k]);
    LateStatsAreAllIff(early, x.touchpoints, raws[k].externalId);
    hide Ingest, People, StatsOf, EdgeFor, IdentityFor, IsLast;
  }

  lemma EdgeUpStats(x: Context, raw: RawIdentity, i: nat)
    ensures EdgeUp(x, raw, i).value.stats == StatsOf(x.touchpoints, raw.externalId)
  {
  }

  // ---- Strength ------------------------------------------------------------------------------------

  predicate AtLeastAsMuch(b: Stats, a: Stats) {
    && a.sent <= b.sent && a.received <= b.received && a.meetings <= b.meetings
    && (a.last.Some? ==> b.last.Some? && a.last.value <= b.last.value)
  }

  lemma YoungerAge(at: int, later: int, now: int, after: int)
    requires at <= later && now <= after
    ensures AgeDays(later, now) <= AgeDays(at, after)
  {
  }

  /** Under one relation, more or later contact never lowers the strength, and time never raises it. */
  lemma StrengthIsMonotone(r: Relation, a: Stats, b: Stats, now: int, after: int)
    requires AtLeastAsMuch(b, a) && now <= after
    ensures Strength(r, a, after) <= Strength(r, b, now) <= 100
  {
    if a.last.Some? {
      YoungerAge(a.last.value, b.last.value, now, after);
    }
  }

  /** How many points the contact itself brings: its frequency, and the bonus for going both ways. */
  function ContactPoints(a: Stats): nat {
    Frequency(a) + if a.sent > 0 && a.received > 0 then 15 else 0
  }

  /**
   What the provider said of the person outweighs the contact: how many points the contact must at least
   bring, by the relation it replaces and by the age of the last touch.
   */
  predicate Outweighs(given: Relation, a: Stats, days: nat) {
    var n := ContactPoints(a);
    if a.sent + a.received > 0 then
      || (given == Linkedin1st && ((days > 365 && n < 20) || (90 < days <= 365 && n < 10)))
      || (given == FromContacts && days > 365 && n < 10)
      || (given == Calendar && days > 365 && n < 5)
    else
      || (given == Linkedin1st && ((days > 365 && n < 15) || (90 < days <= 365 && n < 5)))
      || (given == FromContacts && days > 365 && n < 5)
  }

  /**
   Contact replaces the relation the provider gave, and with it the tier. So an edge gets weaker by its
   contact exactly when the given relation outweighs it; never within 90 days of the last touch.
   */
  lemma ContactWeakensIff(given: Relation, a: Stats, now: int)
    requires a.sent + a.received + a.meetings > 0 && a.last.Some?
    ensures Strength(RelationFor(given, a), a, now) < Strength(given, NO_STATS, now) <==>
      Outweighs(given, a, AgeDays(a.last.value, now))
  {
  }

  /** One mail of 100 days ago turns a first-degree connection of 40 into a mail contact of 32. */
  lemma OneOldMail(now: int)
    ensures var a := Stats(1, 0, 0, Some(now - 100 * DAY), Some(now - 100 * DAY));
      Strength(RelationFor(Linkedin1st, a), a, now) == 32 && Strength(Linkedin1st, NO_STATS, now) == 40
  {
    assert (now - (now - 100 * DAY)) / DAY == 100;
  }

  // ---- Counters ------------------------------------------------------------------------------------

  function EdgesOf(edges: seq<EdgeRow>, i: nat): nat {
    if edges == [] then 0 else EdgesOf(edges[..|edges| - 1], i) + if edges[|edges| - 1].key.person == i then 1 else 0
  }

  function IdentitiesOf(rows: seq<IdentityRow>, i: nat): nat {
    if rows == [] then 0 else IdentitiesOf(rows[..|rows| - 1], i) + if rows[|rows| - 1].value == i then 1 else 0
  }

  function TotalIdentityCount(persons: seq<Person>): nat {
    if persons == [] then 0 else TotalIdentityCount(persons[..|persons| - 1]) + persons[|persons| - 1].identityCount
  }

  lemma EdgesAppend(edges: seq<EdgeRow>, e: EdgeRow, i: nat)
    ensures EdgesOf(edges + [e], i) == EdgesOf(edges, i) + if e.key.person == i then 1 else 0
  {
    assert (edges + [e])[..|edges|] == edges;
  }

  lemma {:induction false} EdgesSameKeys(edges: seq<EdgeRow>, other: seq<EdgeRow>, i: nat)
    requires |edges| == |other| && forall k :: 0 <= k < |edges| ==> edges[k].key == other[k].key
    ensures EdgesOf(edges, i) == EdgesOf(other, i)
  {
    if edges != [] {
      EdgesSameKeys(edges[..|edges| - 1], other[..|edges| - 1], i);
    }
  }

  lemma {:induction false} EdgesOutOfRange(edges: seq<EdgeRow>, n: nat)
    requires forall k :: 0 <= k < |edges| ==> edges[k].key.person < n
    ensures EdgesOf(edges, n) == 0
  {
    if edges != [] {
      EdgesOutOfRange(edges[..|edges| - 1], n);
    }
  }

  lemma {:induction false} IdentitiesOutOfRange(rows: seq<IdentityRow>, n: nat)
    requires forall k :: 0 <= k < |rows| ==> rows[k].value < n
    ensures IdentitiesOf(rows, n) == 0
  {
    if rows != [] {
      IdentitiesOutOfRange(rows[..|rows| - 1], n);
    }
  }

  lemma IdentitiesAppend(rows: seq<IdentityRow>, r: IdentityRow, i: nat)
    ensures IdentitiesOf(rows + [r], i) == IdentitiesOf(rows, i) + if r.value == i then 1 else 0
  {
    assert (rows + [r])[..|rows|] == rows;
  }

  lemma {:induction false} IdentitiesReplace(rows: seq<IdentityRow>, k: nat, v: nat, i: nat)
    requires k < |rows|
    ensures IdentitiesOf(rows[k := rows[k].(value := v)], i) + (if rows[k].value == i then 1 else 0) ==
      IdentitiesOf(rows, i) + (if v == i then 1 else 0)
  {
    var n := |rows| - 1;
    var t := rows[k := rows[k].(value := v)];
    if k < n {
      assert t[..n] == rows[..n][k := rows[k].(value := v)];
      IdentitiesReplace(rows[..n], k, v, i);
    } else {
      assert t[..n] == rows[..n];
    }
  }

  lemma {:induction false} TotalReplace(persons: seq<Person>, k: nat, p: Person)
    requires k < |persons|
    ensures TotalIdentityCount(persons[k := p]) + persons[k].identityCount ==
      TotalIdentityCount(persons) + p.identityCount
  {
    var n := |persons| - 1;
    if k < n {
      assert persons[k := p][..n] == persons[..n][k := p];
      TotalReplace(persons[..n], k, p);
    } else {
      assert persons[k := p][..n] == persons[..n];
    }
  }

  lemma TotalAppend(persons: seq<Person>, p: Person)
    ensures TotalIdentityCount(persons + [p]) == TotalIdentityCount(persons) + p.identityCount
  {
    assert (persons + [p])[..|persons|] == persons;
  }

  ghost predicate InRange(g: Graph) {
    && (forall k :: 0 <= k < |g.identities| ==> g.identities[k].value < |g.persons|)
    && (forall k :: 0 <= k < |g.edges| ==> g.edges[k].key.person < |g.persons|)
  }

  ghost predicate OneEach(g: Graph) {
    && Unique(g.identities) && Unique(g.edges)
    && (forall i, j :: 0 <= i < j < |g.persons| && g.persons[i].email.Some? ==>
      g.persons[i].email != g.persons[j].email)
  }

  ghost predicate EdgesCounted(g: Graph) {
    forall i :: 0 <= i < |g.persons| ==> g.persons[i].edgeCount == EdgesOf(g.edges, i)
  }

  ghost predicate IdentitiesCounted(g: Graph) {
    forall i :: 0 <= i < |g.persons| ==> g.persons[i].identityCount == IdentitiesOf(g.identities, i)
  }

  /**
   One person an email, one identity an account and external id, one edge an owner, person and
   provider; each person's edge count is the number of its edges; the identity counts add up.
   */
  ghost predicate Valid(g: Graph) {
    InRange(g) && OneEach(g) && EdgesCounted(g) && TotalIdentityCount(g.persons) == |g.identities|
  }

  lemma OneKeepsRange(g: Graph, x: Context, raw: RawIdentity)
    requires InRange(g)
    ensures InRange(IngestOne(g, x, raw))
  {
    hide Find, EdgeFor, IdentityFor, NewPerson, Clamped;
    var i := Find(g.persons, Clamped(raw.contact));
    EdgeUpKey(x, raw, i);
    IdentityUpValue(x, raw, i);
    UpsertKeepsLookups(g.edges, EdgeUp(x, raw, i), EdgeUp(x, raw, i).key);
  }

  lemma EdgeUpKey(x: Context, raw: RawIdentity, i: nat)
    ensures EdgeUp(x, raw, i).key == EdgeKey(x.owner.member, i, x.owner.provider)
    ensures EdgeUp(x, raw, i).fixed == EdgeInfo(x.owner.user, x.owner.account)
    ensures EdgeUp(x, raw, i).value.pooled == x.pooled
  {
  }

  lemma IdentityUpValue(x: Context, raw: RawIdentity, i: nat)
    ensures IdentityUp(x, raw, i).value == i
    ensures IdentityUp(x, raw, i).key == IdentityKey(x.owner.account, raw.externalId)
  {
  }

  lemma OneKeepsOneEach(g: Graph, x: Context, raw: RawIdentity)
    requires OneEach(g)
    ensures OneEach(IngestOne(g, x, raw))
  {
    var c := Clamped(raw.contact);
    var i := Find(g.persons, c);
    UpsertUnique(g.identities, IdentityUp(x, raw, i));
    UpsertUnique(g.edges, EdgeUp(x, raw, i));
    ResolvedEmails(g.persons, raw.contact);
    hide Find, Resolved, EdgeFor, IdentityFor, Upsert, Unique;
  }

  lemma ResolvedEmails(persons: seq<Person>, raw: Contact)
    requires forall i, j :: 0 <= i < j < |persons| && persons[i].email.Some? ==> persons[i].email != persons[j].email
    ensures var r := Resolved(persons, Clamped(raw));
      forall i, j :: 0 <= i < j < |r| && r[i].email.Some? ==> r[i].email != r[j].email
  {
    var c := Clamped(raw);
    if HasEmail(c) {
      NewPersonMatches(raw);
    }
    hide FindByName, NormalizeEmail, SearchTextFor;
  }

  lemma CountedAt(persons: seq<Person>, i: nat, newIdentity: bool, newEdge: bool, k: nat)
    requires i < |persons| && k < |persons|
    ensures var t := Counted(persons, i, newIdentity, newEdge);
      && |t| == |persons|
      && t[k].edgeCount == persons[k].edgeCount + (if newEdge && i == k then 1 else 0)
      && t[k].identityCount == persons[k].identityCount + (if newIdentity && i == k then 1 else 0)
  {
  }

  lemma ResolvedCounts(persons: seq<Person>, c: Contact, k: nat)
    requires k < |Resolved(persons, c)|
    ensures var r := Resolved(persons, c);
      if k < |persons| then r[k] == persons[k]
      else k == |persons| && r[k].edgeCount == 0 && r[k].identityCount == 0
  {
    hide Find;
  }

  lemma EdgesAfter(edges: seq<EdgeRow>, e: EdgeRow, k: nat)
    ensures EdgesOf(Upsert(edges, e), k) ==
      EdgesOf(edges, k) + (if !Has(edges, e.key) && e.key.person == k then 1 else 0)
  {
    if Has(edges, e.key) {
      EdgesSameKeys(Upsert(edges, e), edges, k);
    } else {
      EdgesAppend(edges, e, k);
    }
  }

  lemma OneCountsEdges(g: Graph, x: Context, raw: RawIdentity)
    requires InRange(g) && EdgesCounted(g)
    ensures EdgesCounted(IngestOne(g, x, raw))
  {
    var c := Clamped(raw.contact);
    var i := Find(g.persons, c);
    var r, u, e, t := Resolved(g.persons, c), IdentityUp(x, raw, i), EdgeUp(x, raw, i), IngestOne(g, x, raw);
    EdgeUpKey(x, raw, i);
    EdgesOutOfRange(g.edges, |g.persons|);
    hide Find, Resolved, EdgeFor, IdentityFor, NewPerson, Clamped, Upsert, Has, Counted;
    forall k | 0 <= k < |t.persons|
      ensures t.persons[k].edgeCount == EdgesOf(t.edges, k)
    {
      CountedAt(r, i, !Has(g.identities, u.key), !Has(g.edges, e.key), if k < |r| then k else 0);
      ResolvedCounts(g.persons, c, k);
      EdgesAfter(g.edges, e, k);
    }
  }

  lemma OneCountsIdentities(g: Graph, x: Context, raw: RawIdentity)
    requires TotalIdentityCount(g.persons) == |g.identities|
    ensures var t := IngestOne(g, x, raw); TotalIdentityCount(t.persons) == |t.identities|
  {
    var c := Clamped(raw.contact);
    var i := Find(g.persons, c);
    var r, t := Resolved(g.persons, c), IngestOne(g, x, raw);
    TotalAppend(g.persons, NewPerson(c));
    assert TotalIdentityCount(r) == TotalIdentityCount(g.persons);
    TotalReplace(r, i, t.persons[i]);
  }

  lemma OneKeepsValid(g: Graph, x: Context, raw: RawIdentity)
    requires Valid(g)
    ensures Valid(IngestOne(g, x, raw))
  {
    OneKeepsRange(g, x, raw);
    OneKeepsOneEach(g, x, raw);
    OneCountsEdges(g, x, raw);
    OneCountsIdentities(g, x, raw);
  }

  lemma {:induction false} IngestKeepsValid(g: Graph, x: Context, raws: seq<RawIdentity>)
    requires Valid(g)
    ensures Valid(Ingest(g, x, raws))
    decreases |raws|
  {
    hide Valid, IngestOne;
    if raws != [] {
      OneKeepsValid(g, x, raws[0]);
      IngestKeepsValid(IngestOne(g, x, raws[0]), x, raws[1..]);
    }
  }

  /**
   A person's identity count is the number of its identities until an identity seen before resolves
   to another person: the row moves, the counts do not.
   */
  lemma CountsStayExactIff(g: Graph, x: Context, raw: RawIdentity)
    requires InRange(g) && IdentitiesCounted(g)
    ensures var i := Find(g.persons, Clamped(raw.contact)); var key := IdentityUp(x, raw, i).key;
      IdentitiesCounted(IngestOne(g, x, raw)) <==>
        (Has(g.identities, key) ==> g.identities[Lookup(g.identities, key)].value == i)
  {
    var c := Clamped(raw.contact);
    var i := Find(g.persons, c);
    var r, u, e, t := Resolved(g.persons, c), IdentityUp(x, raw, i), EdgeUp(x, raw, i), IngestOne(g, x, raw);
    IdentityUpValue(x, raw, i);
    IdentitiesOutOfRange(g.identities, |g.persons|);
    hide Find, Resolved, EdgeFor, IdentityFor, NewPerson, Clamped, Upsert, Has, Counted;
    forall k | 0 <= k < |t.persons|
      ensures t.persons[k].identityCount - IdentitiesOf(t.identities, k) == Moved(g.identities, u, k)
    {
      CountedAt(r, i, !Has(g.identities, u.key), !Has(g.edges, e.key), if k < |r| then k else 0);
      ResolvedCounts(g.persons, c, k);
      IdentitiesAfter(g.identities, u, k);
    }
    CountedAt(r, i, !Has(g.identities, u.key), !Has(g.edges, e.key), i);
    MovedAt(g.identities, u, i);
  }

  /** By how much a count is too large once a known row points elsewhere. */
  function Moved(rows: seq<IdentityRow>, u: IdentityRow, k: nat): int {
    var j := Lookup(rows, u.key);
    if j < |rows| then (if rows[j].value == k then 1 else 0) - (if u.value == k then 1 else 0) else 0
  }

  lemma MovedAt(rows: seq<IdentityRow>, u: IdentityRow, k: nat)
    requires k == u.value
    ensures Moved(rows, u, k) == 0 <==> (Has(rows, u.key) ==> rows[Lookup(rows, u.key)].value == u.value)
    ensures Moved(rows, u, k) == 0 ==> forall j: nat :: Moved(rows, u, j) == 0
  {
  }

  lemma IdentitiesAfter(rows: seq<IdentityRow>, u: IdentityRow, k: nat)
    ensures IdentitiesOf(Upsert(rows, u), k) ==
      IdentitiesOf(rows, k) - Moved(rows, u, k) + (if !Has(rows, u.key) && u.value == k then 1 else 0)
  {
    var j := Lookup(rows, u.key);
    if j < |rows| {
      IdentitiesReplace(rows, j, u.value, k);
    } else {
      IdentitiesAppend(rows, u, k);
    }
  }

  // ---- Who sees an edge ------------------------------------------------------------------------------

  /** Accounts are connected once; their switches change. */
  type Owners = map<string, Owner>

  datatype World = World(graph: Graph, pooled: map<string, bool>)

  datatype Op =
    | Sync(account: string, touchpoints: seq<Touchpoint>, now: int, raws: seq<RawIdentity>)
    | Pool(account: string, on: bool)

  predicate Connected(owners: Owners) {
    forall a :: a in owners ==> owners[a].account == a
  }

  function StartWorld(owners: Owners): World {
    World(Graph([], [], []), map a | a in owners :: false)
  }

  function Do(owners: Owners, w: World, op: Op): World {
    if op.account !in owners || op.account !in w.pooled then w
    else
      match op
      case Sync(account, touchpoints, now, raws) =>
        w.(graph := Ingest(w.graph, Context(owners[account], w.pooled[account], touchpoints, now), raws))
      case Pool(account, on) =>
        World(w.graph.(edges := SetPooling(w.graph.edges, account, on)), w.pooled[account := on])
  }

  function DoAll(owners: Owners, ops: seq<Op>): World {
    if ops == [] then StartWorld(owners) else Do(owners, DoAll(owners, ops[..|ops| - 1]), ops[|ops| - 1])
  }

  /** The edge follows the switch of the account that brought it. */
  predicate Follows(pooled: map<string, bool>, e: EdgeRow) {
    e.fixed.account in pooled && e.value.pooled == pooled[e.fixed.account]
  }

  predicate Mirrored(w: World) {
    forall k :: 0 <= k < |w.graph.edges| ==> Follows(w.pooled, w.graph.edges[k])
  }

  predicate OwnedBy(owners: Owners, e: EdgeRow) {
    && e.fixed.account in owners
    && owners[e.fixed.account].member == e.key.member && owners[e.fixed.account].provider == e.key.provider
  }

  ghost predicate AllOwned(owners: Owners, edges: seq<EdgeRow>) {
    forall k :: 0 <= k < |edges| ==> OwnedBy(owners, edges[k])
  }

  ghost predicate AllFollow(pooled: map<string, bool>, edges: seq<EdgeRow>) {
    forall k :: 0 <= k < |edges| ==> Follows(pooled, edges[k])
  }

  predicate SharesProvider(owners: Owners, a: string, b: string) {
    && a in owners && b in owners && a != b
    && owners[a].member == owners[b].member && owners[a].provider == owners[b].provider
  }

  lemma OneFollows(owners: Owners, pooled: map<string, bool>, g: Graph, x: Context, raw: RawIdentity)
    requires AllOwned(owners, g.edges) && x.owner.account in owners && owners[x.owner.account] == x.owner
    requires x.owner.account in pooled && pooled[x.owner.account] == x.pooled
    ensures AllOwned(owners, IngestOne(g, x, raw).edges)
    ensures (forall a, b :: !SharesProvider(owners, a, b)) && AllFollow(pooled, g.edges) ==>
      AllFollow(pooled, IngestOne(g, x, raw).edges)
  {
    var i := Find(g.persons, Clamped(raw.contact));
    var e := EdgeUp(x, raw, i);
    EdgeUpKey(x, raw, i);
    var k := Lookup(g.edges, e.key);
    hide Find, EdgeFor, IdentityFor, NewPerson, Clamped, Resolved;
    if k < |g.edges| {
      assert OwnedBy(owners, g.edges[k]);
      var account := g.edges[k].fixed.account;
      assert account == x.owner.account || SharesProvider(owners, account, x.owner.account);
    }
  }

  lemma {:induction false} SyncFollows(owners: Owners, pooled: map<string, bool>, g: Graph, x: Context,
      raws: seq<RawIdentity>)
    requires AllOwned(owners, g.edges) && x.owner.account in owners && owners[x.owner.account] == x.owner
    requires x.owner.account in pooled && pooled[x.owner.account] == x.pooled
    ensures AllOwned(owners, Ingest(g, x, raws).edges)
    ensures (forall a, b :: !SharesProvider(owners, a, b)) && AllFollow(pooled, g.edges) ==>
      AllFollow(pooled, Ingest(g, x, raws).edges)
    decreases |raws|
  {
    hide AllOwned, AllFollow, IngestOne;
    if raws != [] {
      OneFollows(owners, pooled, g, x, raws[0]);
      SyncFollows(owners, pooled, IngestOne(g, x, raws[0]), x, raws[1..]);
    }
  }

  lemma PoolFollows(owners: Owners, pooled: map<string, bool>, edges: seq<EdgeRow>, account: string, on: bool)
    ensures AllOwned(owners, edges) ==> AllOwned(owners, SetPooling(edges, account, on))
    ensures AllFollow(pooled, edges) ==> AllFollow(pooled[account := on], SetPooling(edges, account, on))
  {
  }

  lemma {:induction false} MirroredWhenSeparate(owners: Owners, ops: seq<Op>)
    requires Connected(owners)
    ensures var w := DoAll(owners, ops);
      w.pooled.Keys == owners.Keys && AllOwned(owners, w.graph.edges)
      && ((forall a, b :: !SharesProvider(owners, a, b)) ==> AllFollow(w.pooled, w.graph.edges))
  {
    hide Ingest, SetPooling, SharesProvider;
    if ops != [] {
      var w, op := DoAll(owners, ops[..|ops| - 1]), ops[|ops| - 1];
      MirroredWhenSeparate(owners, ops[..|ops| - 1]);
      if op.account in owners {
        match op
        case Sync(account, touchpoints, now, raws) =>
          SyncFollows(owners, w.pooled, w.graph, Context(owners[account], w.pooled[account], touchpoints, now), raws);
        case Pool(account, on) =>
          PoolFollows(owners, w.pooled, w.graph.edges, account, on);
      }
    }
  }

  /** One contact, mailed by nobody. */
  const SOMEONE: RawIdentity :=
    RawIdentity("1", Contact(Some("a@b"), None, None, None), None, FromContacts, "")

  /** Two accounts of one member and provider share their edges, but only one of the switches counts. */
  function Crossing(a: string, b: string): seq<Op> {
    [Sync(a, [], 0, [SOMEONE]), Pool(b, true), Sync(b, [], 0, [SOMEONE])]
  }

  lemma IngestSingle(g: Graph, x: Context, raw: RawIdentity)
    ensures Ingest(g, x, [raw]) == IngestOne(g, x, raw)
  {
    assert [raw][1..] == [];
    assert Ingest(IngestOne(g, x, raw), x, []) == IngestOne(g, x, raw);
  }

  lemma SomeoneEmail()
    ensures NormalizeEmail(Clamped(SOMEONE.contact).email) == "a@b"
  {
    assert StripLeft("a@b") == "a@b";
    assert StripRight("a@b") == "a@b";
    assert Lower("a@b") == "a@b";
  }

  lemma FirstSync(x: Context)
    ensures var g := IngestOne(Graph([], [], []), x, SOMEONE);
      && |g.edges| == 1 && g.edges[0].fixed.account == x.owner.account && g.edges[0].value.pooled == x.pooled
      && g.edges[0].key == EdgeKey(x.owner.member, 0, x.owner.provider)
      && |g.persons| == 1 && SameEmail(g.persons[0], Clamped(SOMEONE.contact))
  {
    SomeoneEmail();
    EdgeUpKey(x, SOMEONE, 0);
    hide EdgeFor, IdentityFor, SearchTextFor, DomainOf;
  }

  lemma SecondSync(g: Graph, x: Context)
    requires |g.edges| == 1 && |g.persons| == 1 && SameEmail(g.persons[0], Clamped(SOMEONE.contact))
    requires g.edges[0].key == EdgeKey(x.owner.member, 0, x.owner.provider)
    ensures var t := IngestOne(g, x, SOMEONE);
      |t.edges| == 1 && t.edges[0].fixed == g.edges[0].fixed && t.edges[0].value.pooled == x.pooled
  {
    SomeoneEmail();
    EdgeUpKey(x, SOMEONE, 0);
    hide EdgeFor, IdentityFor, SearchTextFor, DomainOf;
  }

  lemma ThreeOps(owners: Owners, o: Op, p: Op, q: Op)
    ensures DoAll(owners, [o, p, q]) == Do(owners, Do(owners, Do(owners, StartWorld(owners), o), p), q)
  {
    hide Do;
    assert [o, p, q][..2] == [o, p] && [o, p][..1] == [o] && [o][..0] == [];
    assert DoAll(owners, []) == StartWorld(owners);
    assert DoAll(owners, [o]) == Do(owners, StartWorld(owners), o);
    assert DoAll(owners, [o, p]) == Do(owners, DoAll(owners, [o]), p);
  }

  lemma CrossingBreaks(owners: Owners, a: string, b: string)
    requires Connected(owners) && SharesProvider(owners, a, b)
    ensures !Mirrored(DoAll(owners, Crossing(a, b)))
  {
    var ops := Crossing(a, b);
    ThreeOps(owners, ops[0], ops[1], ops[2]);
    var w0 := StartWorld(owners);
    var w1, w2, w3 := Do(owners, w0, ops[0]), Do(owners, Do(owners, w0, ops[0]), ops[1]), DoAll(owners, ops);
    hide DoAll;
    var xa, xb := Context(owners[a], false, [], 0), Context(owners[b], true, [], 0);
    hide IngestOne, Ingest;
    IngestSingle(w0.graph, xa, SOMEONE);
    FirstSync(xa);
    assert w1.graph == IngestOne(w0.graph, xa, SOMEONE);
    IngestSingle(w2.graph, xb, SOMEONE);
    SecondSync(w2.graph, xb);
    assert w3.graph == IngestOne(w2.graph, xb, SOMEONE);
    assert !Follows(w3.pooled, w3.graph.edges[0]);
  }

  /**
   Every edge follows the switch of the account that brought it, in every history, exactly when no
   member has connected two accounts of the same provider.
   */
  lemma MirroredEveryRunIff(owners: Owners)
    requires Connected(owners)
    ensures (forall ops :: Mirrored(DoAll(owners, ops))) <==> (forall a, b :: !SharesProvider(owners, a, b))
  {
    if a, b :| SharesProvider(owners, a, b) {
      CrossingBreaks(owners, a, b);
    } else {
      forall ops
        ensures Mirrored(DoAll(owners, ops))
      {
        MirroredWhenSeparate(owners, ops);
      }
    }
  }

  /** So what an account brought in while its switch is off is seen by its owner only. */
  lemma PrivateUnlessPooled(owners: Owners, ops: seq<Op>, k: nat, member: string)
    requires Connected(owners) && forall a, b :: !SharesProvider(owners, a, b)
    requires k < |DoAll(owners, ops).graph.edges|
    ensures var w := DoAll(owners, ops); var e := w.graph.edges[k];
      && e.fixed.account in w.pooled
      && (Visible(e, member) <==> e.key.member == member || w.pooled[e.fixed.account])
  {
    MirroredWhenSeparate(owners, ops);
    assert Follows(DoAll(owners, ops).pooled, DoAll(owners, ops).graph.edges[k]);
  }

  lemma PoolKeepsValid(g: Graph, account: string, on: bool)
    requires Valid(g)
    ensures Valid(g.(edges := SetPooling(g.edges, account, on)))
  {
    var t := SetPooling(g.edges, account, on);
    forall i | 0 <= i < |g.persons|
      ensures g.persons[i].edgeCount == EdgesOf(t, i)
    {
      EdgesSameKeys(t, g.edges, i);
    }
  }

  /** In every history. */
  lemma {:induction false} ValidEveryRun(owners: Owners, ops: seq<Op>)
    ensures Valid(DoAll(owners, ops).graph)
  {
    hide Valid, Ingest, SetPooling;
    if ops == [] {
      EmptyIsValid();
    } else {
      var w, op := DoAll(owners, ops[..|ops| - 1]), ops[|ops| - 1];
      ValidEveryRun(owners, ops[..|ops| - 1]);
      if op.account in owners && op.account in w.pooled {
        match op
        case Sync(account, touchpoints, now, raws) =>
          IngestKeepsValid(w.graph, Context(owners[account], w.pooled[account], touchpoints, now), raws);
        case Pool(account, on) => PoolKeepsValid(w.graph, account, on);
      }
    }
  }

  lemma EmptyIsValid()
    ensures Valid(Graph([], [], []))
  {
  }

  /** The same contact under another address. */
  const MOVED: RawIdentity :=
    RawIdentity("1", Contact(Some("c@d"), None, None, None), None, FromContacts, "")

  lemma MovedEmail()
    ensures NormalizeEmail(Clamped(MOVED.contact).email) == "c@d"
  {
    assert StripLeft("c@d") == "c@d";
    assert StripRight("c@d") == "c@d";
    assert Lower("c@d") == "c@d";
  }

  lemma MovedIsNobody(persons: seq<Person>)
    requires |persons| == 1 && SameEmail(persons[0], Clamped(SOMEONE.contact))
    ensures Find(persons, Clamped(MOVED.contact)) == 1
  {
    SomeoneEmail();
    MovedEmail();
    hide Clamped, NormalizeEmail;
    assert persons[0].email == Some("a@b");
    assert FindByEmail(persons[1..], Clamped(MOVED.contact)) == 0;
  }

  lemma FirstIdentity(x: Context)
    ensures var g := IngestOne(Graph([], [], []), x, SOMEONE);
      && |g.identities| == 1 && g.identities[0].key == IdentityKey(x.owner.account, "1") && g.identities[0].value == 0
      && IdentitiesCounted(g) && InRange(g)
  {
    var empty := Graph([], [], []);
    IdentityUpValue(x, SOMEONE, 0);
    OneKeepsRange(empty, x, SOMEONE);
    CountsStayExactIff(empty, x, SOMEONE);
    hide EdgeFor, IdentityFor, NewPerson, Clamped, Counted, IdentitiesCounted;
  }

  /** Two syncs after which a count is wrong: the contact comes back under another address. */
  lemma CountsGoWrong(owners: Owners, a: string)
    requires Connected(owners) && a in owners
    ensures !IdentitiesCounted(DoAll(owners, [Sync(a, [], 0, [SOMEONE]), Sync(a, [], 0, [MOVED])]).graph)
  {
    var x := Context(owners[a], false, [], 0);
    var empty := Graph([], [], []);
    TwoOps(owners, Sync(a, [], 0, [SOMEONE]), Sync(a, [], 0, [MOVED]));
    IngestSingle(empty, x, SOMEONE);
    var g := IngestOne(empty, x, SOMEONE);
    IngestSingle(g, x, MOVED);
    FirstSync(x);
    FirstIdentity(x);
    MovedIsNobody(g.persons);
    IdentityUpValue(x, MOVED, 1);
    CountsStayExactIff(g, x, MOVED);
    hide IngestOne, Ingest, IdentitiesCounted, InRange, Find, IdentityFor, EdgeFor;
    assert Lookup(g.identities, IdentityKey(a, "1")) == 0;
  }

  lemma TwoOps(owners: Owners, o: Op, p: Op)
    ensures DoAll(owners, [o, p]) == Do(owners, Do(owners, StartWorld(owners), o), p)
  {
    hide Do;
    assert [o, p][..1] == [o] && [o][..0] == [];
    assert DoAll(owners, []) == StartWorld(owners);
    assert DoAll(owners, [o]) == Do(owners, StartWorld(owners), o);
  }
}
