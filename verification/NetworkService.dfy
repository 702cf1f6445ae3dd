/** The graph as a service updates it, row by row (nexus/network/service.py, nexus/network/resolution.py). */
module NetworkService {
  import opened Wrappers
  import opened Upserts
  import opened NetworkModel

  class SourceAccount {
    const owner: Owner
    var pooled: bool
    var cursor: Option<string>
    var lastSyncedAt: Option<int>
    var connected: bool

    constructor (owner: Owner)
      ensures this.owner == owner && !pooled && cursor == None && lastSyncedAt == None
    {
      this.owner := owner;
      pooled, cursor, lastSyncedAt, connected := false, None, None, true;
    }
  }

  class NetworkGraph {
    var persons: seq<Person>
    var identities: seq<IdentityRow>
    var edges: seq<EdgeRow>

    constructor ()
      ensures Contents() == Graph([], [], [])
    {
      persons, identities, edges := [], [], [];
    }

    function Contents(): Graph
      reads this
    {
      Graph(persons, identities, edges)
    }

    /** `resolve_person`: by email, else by name and company, else a new person. */
    method ResolvePerson(c: Contact) returns (i: nat)
      modifies this`persons
      ensures i == Find(old(persons), c)
      ensures persons == Resolved(old(persons), c)
    {
      if NormalizeEmail(c.email) != "" {
        i := FindByEmail(persons, c);
        if i < |persons| {
          return;
        }
      } else if Norm(OrEmpty(c.name)) != "" {
        i := ScanByName(persons, c);
        if i < |persons| {
          return;
        }
      }
      i := |persons|;
      persons := persons + [NewPerson(c)];
    }

    /** The bounded scan over the persons without an email. */
    method ScanByName(persons: seq<Person>, c: Contact) returns (i: nat)
      ensures i == FindByName(persons, c, SCAN_LIMIT)
    {
      hide SameName, FindByName;
      var k, scanned := 0, 0;
      assert persons[0..] == persons;
      while k < |persons| && scanned < SCAN_LIMIT
        invariant k <= |persons| && scanned <= SCAN_LIMIT
        invariant FindByName(persons, c, SCAN_LIMIT) == k + FindByName(persons[k..], c, SCAN_LIMIT - scanned)
      {
        ScanNext(persons, c, k, SCAN_LIMIT - scanned);
        if persons[k].email.None? {
          if SameName(persons[k], c) {
            return k;
          }
          scanned := scanned + 1;
        }
        k := k + 1;
      }
      ScanEnds(persons[k..], c, SCAN_LIMIT - scanned);
      return |persons|;
    }

    /** `ingest_batch` */
    method IngestBatch(account: SourceAccount, batch: Batch, now: int) returns (newPersons: nat, newEdges: nat)
      modifies this, account
      ensures Contents() ==
        Ingest(old(Contents()), Context(account.owner, old(account.pooled), batch.touchpoints, now), batch.identities)
      ensures newPersons == |identities| - |old(identities)| && newEdges == |edges| - |old(edges)|
      ensures account.cursor == batch.nextCursor && account.lastSyncedAt == Some(now) && account.connected
      ensures account.pooled == old(account.pooled)
    {
      hide Ingest, IngestOne, StatsOf;
      newPersons, newEdges := 0, 0;
      var agg := AggregateTouchpoints(batch.touchpoints);
      ghost var x := Context(account.owner, account.pooled, batch.touchpoints, now);
      assert batch.identities[0..] == batch.identities;
      for n := 0 to |batch.identities|
        invariant account.pooled == old(account.pooled)
        invariant Ingest(old(Contents()), x, batch.identities) == Ingest(Contents(), x, batch.identities[n..])
        invariant newPersons == |identities| - |old(identities)| && newEdges == |edges| - |old(edges)|
      {
        var raw := batch.identities[n];
        IngestNext(Contents(), x, batch.identities, n);
        var stats := if raw.externalId in agg then agg[raw.externalId] else NO_STATS;
        assert stats == StatsOf(batch.touchpoints, raw.externalId);
        var newIdentity, newEdge := IngestIdentity(account, raw, stats, now, x);
        newPersons := newPersons + if newIdentity then 1 else 0;
        newEdges := newEdges + if newEdge then 1 else 0;
      }
      IngestNothing(Contents(), x, batch.identities[|batch.identities|..]);
      account.cursor, account.lastSyncedAt, account.connected := batch.nextCursor, Some(now), true;
    }

    /** The body of the loop over a batch's identities. */
    method IngestIdentity(account: SourceAccount, raw: RawIdentity, stats: Stats, now: int, ghost x: Context)
      returns (newIdentity: bool, newEdge: bool)
      requires x == Context(account.owner, account.pooled, x.touchpoints, now)
      requires stats == StatsOf(x.touchpoints, raw.externalId)
      modifies this
      ensures Contents() == IngestOne(old(Contents()), x, raw)
      ensures |identities| == |old(identities)| + (if newIdentity then 1 else 0)
      ensures |edges| == |old(edges)| + (if newEdge then 1 else 0)
    {
      hide Find, Resolved, NewPerson, StatsOf, Strength, Norm, NormalizeEmail;
      var c := Clamped(raw.contact);
      var owner := account.owner;
      var i := ResolvePerson(c);
      newIdentity := PutIdentity(owner, raw, i);
      if newIdentity {
        persons := persons[i := persons[i].(identityCount := persons[i].identityCount + 1)];
      }
      var relation :=
        if stats.sent + stats.received > 0 then ByEmail else if stats.meetings > 0 then Calendar else raw.relation;
      var value := EdgeValue(relation, Strength(relation, stats, now), stats, account.pooled);
      assert EdgeUp(x, raw, i) ==
        Row(EdgeKey(owner.member, i, owner.provider), EdgeInfo(owner.user, owner.account), value);
      newEdge := PutEdge(owner, i, value);
      if newEdge {
        persons := persons[i := persons[i].(edgeCount := persons[i].edgeCount + 1)];
      }
      assert persons == Counted(Resolved(old(persons), c), i, newIdentity, newEdge);
    }

    /** The identity row of an external id: found and pointed at the person, or added. */
    method PutIdentity(owner: Owner, raw: RawIdentity, person: nat) returns (added: bool)
      modifies this`identities
      ensures identities == Upsert(old(identities), IdentityFor(owner, raw, person))
      ensures added <==> !Has(old(identities), IdentityKey(owner.account, raw.externalId))
      ensures |identities| == |old(identities)| + if added then 1 else 0
    {
      var k := Lookup(identities, IdentityKey(owner.account, raw.externalId));
      if k == |identities| {
        var c := Clamped(raw.contact);
        identities := identities + [Row(
          IdentityKey(owner.account, raw.externalId),
          IdentityInfo(owner.provider, c, Clamp(raw.handle, 100), raw.payload, KeyFor(c)),
          person)];
        return true;
      }
      identities := identities[k := identities[k].(value := person)];
      return false;
    }

    /** The edge of an owner, person and provider: found and overwritten, or added. */
    method PutEdge(owner: Owner, person: nat, value: EdgeValue) returns (added: bool)
      modifies this`edges
      ensures edges == Upsert(old(edges),
        Row(EdgeKey(owner.member, person, owner.provider), EdgeInfo(owner.user, owner.account), value))
      ensures added <==> !Has(old(edges), EdgeKey(owner.member, person, owner.provider))
      ensures |edges| == |old(edges)| + if added then 1 else 0
    {
      var key := EdgeKey(owner.member, person, owner.provider);
      var k := Lookup(edges, key);
      if k == |edges| {
        edges := edges + [Row(key, EdgeInfo(owner.user, owner.account), value)];
        return true;
      }
      edges := edges[k := edges[k].(value := value)];
      return false;
    }

    /** `set_pooling` */
    method SetAccountPooling(account: SourceAccount, on: bool)
      modifies account`pooled, this`edges
      ensures account.pooled == on
      ensures edges == SetPooling(old(edges), account.owner.account, on)
    {
      account.pooled := on;
      for k := 0 to |edges|
        invariant account.pooled == on && |edges| == |old(edges)|
        invariant forall j :: 0 <= j < k ==> edges[j] == SetPooling(old(edges), account.owner.account, on)[j]
        invariant forall j :: k <= j < |edges| ==> edges[j] == old(edges)[j]
      {
        if edges[k].fixed.account == account.owner.account {
          edges := edges[k := edges[k].(value := edges[k].value.(pooled := on))];
        }
      }
    }
  }

  /** One turn of the scan. */
  lemma ScanNext(persons: seq<Person>, c: Contact, k: nat, budget: nat)
    requires k < |persons| && budget > 0
    ensures FindByName(persons[k..], c, budget) ==
      if persons[k].email.Some? then 1 + FindByName(persons[k + 1..], c, budget)
      else if SameName(persons[k], c) then 0
      else 1 + FindByName(persons[k + 1..], c, budget - 1)
  {
    hide SameName;
    assert persons[k..][1..] == persons[k + 1..] && persons[k..][0] == persons[k];
  }

  lemma ScanEnds(persons: seq<Person>, c: Contact, budget: nat)
    requires persons == [] || budget == 0
    ensures FindByName(persons, c, budget) == |persons|
  {
  }

  lemma IngestNext(g: Graph, x: Context, raws: seq<RawIdentity>, n: nat)
    requires n < |raws|
    ensures Ingest(g, x, raws[n..]) == Ingest(IngestOne(g, x, raws[n]), x, raws[n + 1..])
  {
    assert raws[n..][0] == raws[n] && raws[n..][1..] == raws[n + 1..];
  }

  lemma IngestNothing(g: Graph, x: Context, raws: seq<RawIdentity>)
    requires raws == []
    ensures Ingest(g, x, raws) == g
  {
  }

  /** `_aggregate_touchpoints`: one record an external id, made when the id is first seen. */
  method AggregateTouchpoints(ts: seq<Touchpoint>) returns (agg: map<string, Stats>)
    ensures forall id: string :: StatsOf(ts, id) == if id in agg then agg[id] else NO_STATS
  {
    agg := map[];
    for n := 0 to |ts|
      invariant forall id: string :: StatsOf(ts[..n], id) == if id in agg then agg[id] else NO_STATS
    {
      assert ts[..n + 1][..n] == ts[..n];
      var t := ts[n];
      var a := if t.externalId in agg then agg[t.externalId] else NO_STATS;
      match t.kind {
        case EmailSent => a := a.(sent := a.sent + 1);
        case EmailReceived => a := a.(received := a.received + 1);
        case Meeting => a := a.(meetings := a.meetings + 1);
        case OtherKind =>
      }
      a := a.(first := if a.first.None? || t.at <= a.first.value then Some(t.at) else a.first);
      a := a.(last := if a.last.None? || t.at >= a.last.value then Some(t.at) else a.last);
      agg := agg[t.externalId := a];
    }
    assert ts[..|ts|] == ts;
  }
}
