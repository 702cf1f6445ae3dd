/**
 The relationship graph and the meaning of ingesting a batch (nexus/network/resolution.py,
 nexus/network/service.py, nexus/network/strength.py). A person's id is its place in the table.
 Rows are found in the order they were added.
 */
module NetworkModel {
  import opened Wrappers
  import opened Text
  import opened Upserts

  // ---- Persons --------------------------------------------------------------------------------

  datatype Contact = Contact(email: Option<string>, name: Option<string>, title: Option<string>,
      company: Option<string>)

  datatype Person = Person(
    email: Option<string>,
    fullName: string,
    title: string,
    company: string,
    companyDomain: string,
    searchText: string,
    identityCount: nat,
    edgeCount: nat)

  const SCAN_LIMIT: nat := 500

  function OrEmpty(s: Option<string>): string {
    if s.Some? then s.value else ""
  }

  function NormalizeEmail(email: Option<string>): string {
    Lower(Strip(OrEmpty(email)))
  }

  function Norm(s: string): string {
    Collapse(Lower(Strip(s)))
  }

  function IndexOf(s: string, c: char): (i: nat)
    ensures i <= |s|
  {
    if s == "" || s[0] == c then 0 else 1 + IndexOf(s[1..], c)
  }

  function DomainOf(email: Option<string>): string {
    var e := NormalizeEmail(email);
    var at := IndexOf(e, '@');
    if at < |e| then e[at + 1..] else ""
  }

  function Joined(a: string, b: string): string {
    if a == "" then b else if b == "" then a else a + " " + b
  }

  function SearchTextFor(name: string, title: string, company: string): string {
    Prefix(Lower(Joined(Joined(Strip(name), Strip(title)), Strip(company))), 600)
  }

  function NewPerson(c: Contact): Person {
    var e := NormalizeEmail(c.email);
    Person(
      if e == "" then None else Some(Prefix(e, 255)),
      Prefix(OrEmpty(c.name), 200),
      Prefix(OrEmpty(c.title), 200),
      Prefix(OrEmpty(c.company), 200),
      Prefix(DomainOf(c.email), 200),
      SearchTextFor(OrEmpty(c.name), OrEmpty(c.title), OrEmpty(c.company)),
      0, 0)
  }

  predicate HasEmail(c: Contact) {
    NormalizeEmail(c.email) != ""
  }

  predicate HasName(c: Contact) {
    Norm(OrEmpty(c.name)) != ""
  }

  /** A contact that a later one can be recognized by. */
  predicate Recognizable(c: Contact) {
    HasEmail(c) || HasName(c)
  }

  predicate SameEmail(p: Person, c: Contact) {
    p.email == Some(NormalizeEmail(c.email))
  }

  predicate SameName(p: Person, c: Contact) {
    Norm(p.fullName) == Norm(OrEmpty(c.name)) && Norm(p.company) == Norm(OrEmpty(c.company))
  }

  /** The first person with the contact's email; the length if there is none. */
  function FindByEmail(persons: seq<Person>, c: Contact): (i: nat)
    ensures i <= |persons|
    ensures i < |persons| ==> SameEmail(persons[i], c)
    ensures forall j :: 0 <= j < i ==> !SameEmail(persons[j], c)
  {
    if persons == [] || SameEmail(persons[0], c) then 0 else 1 + FindByEmail(persons[1..], c)
  }

  /** The same by name and company, among the first `budget` persons without an email. */
  function FindByName(persons: seq<Person>, c: Contact, budget: nat): (i: nat)
    ensures i <= |persons|
    ensures i < |persons| ==> persons[i].email.None? && SameName(persons[i], c)
  {
    if persons == [] || budget == 0 then |persons|
    else if persons[0].email.Some? then 1 + FindByName(persons[1..], c, budget)
    else if SameName(persons[0], c) then 0
    else 1 + FindByName(persons[1..], c, budget - 1)
  }

  function Find(persons: seq<Person>, c: Contact): (i: nat)
    ensures i <= |persons|
  {
    if HasEmail(c) then FindByEmail(persons, c)
    else if HasName(c) then FindByName(persons, c, SCAN_LIMIT)
    else |persons|
  }

  /** The persons after a contact is resolved; it is the one `Find` finds, or a new last one. */
  function Resolved(persons: seq<Person>, c: Contact): (r: seq<Person>)
    ensures Find(persons, c) < |r|
  {
    if Find(persons, c) < |persons| then persons else persons + [NewPerson(c)]
  }

  // ---- Touchpoints and strength -----------------------------------------------------------------

  datatype Kind = EmailSent | EmailReceived | Meeting | OtherKind

  datatype Touchpoint = Touchpoint(externalId: string, kind: Kind, at: int)

  datatype Stats = Stats(sent: nat, received: nat, meetings: nat, first: Option<int>, last: Option<int>)

  const NO_STATS: Stats := Stats(0, 0, 0, None, None)

  function Earlier(a: Option<int>, t: int): Option<int> {
    if a.None? || t <= a.value then Some(t) else a
  }

  function Later(a: Option<int>, t: int): Option<int> {
    if a.None? || t >= a.value then Some(t) else a
  }

  function Bump(a: Stats, t: Touchpoint): Stats {
    Stats(
      if t.kind == EmailSent then a.sent + 1 else a.sent,
      if t.kind == EmailReceived then a.received + 1 else a.received,
      if t.kind == Meeting then a.meetings + 1 else a.meetings,
      Earlier(a.first, t.at), Later(a.last, t.at))
  }

  /** What the touchpoints say about one external id. */
  function StatsOf(ts: seq<Touchpoint>, id: string): Stats {
    if ts == [] then NO_STATS
    else
      var a, t := StatsOf(ts[..|ts| - 1], id), ts[|ts| - 1];
      if t.externalId == id then Bump(a, t) else a
  }

  datatype Relation = Linkedin1st | FromContacts | Calendar | ByEmail | Follower | OtherRelation

  function Tier(r: Relation): nat {
    match r
    case Linkedin1st => 40
    case FromContacts => 30
    case Calendar => 25
    case ByEmail => 20
    case Follower => 10
    case OtherRelation => 15
  }

  const DAY: int := 86400

  function AgeDays(at: int, now: int): nat {
    var days := (now - at) / DAY;
    if days < 0 then 0 else days
  }

  function RecencyBonus(last: Option<int>, now: int): nat {
    if last.None? then 0
    else
      var days := AgeDays(last.value, now);
      if days <= 30 then 30 else if days <= 90 then 20 else if days <= 365 then 10 else 0
  }

  function Frequency(a: Stats): nat {
    var f := 2 * (a.sent + a.received) + 5 * a.meetings;
    if f > 25 then 25 else f
  }

  function Strength(r: Relation, a: Stats, now: int): nat {
    var score := Tier(r) + RecencyBonus(a.last, now) + Frequency(a) + if a.sent > 0 && a.received > 0 then 15 else 0;
    if score > 100 then 100 else score
  }

  /** The relation an edge gets: contact by email or in meetings replaces what the provider said. */
  function RelationFor(given: Relation, a: Stats): Relation {
    if a.sent + a.received > 0 then ByEmail else if a.meetings > 0 then Calendar else given
  }

  // ---- The graph ---------------------------------------------------------------------------------

  datatype RawIdentity = RawIdentity(
    externalId: string,
    contact: Contact,
    handle: Option<string>,
    relation: Relation,
    payload: string)

  datatype Batch = Batch(identities: seq<RawIdentity>, touchpoints: seq<Touchpoint>, nextCursor: Option<string>)

  datatype Owner = Owner(account: string, member: string, user: string, provider: string)

  datatype ResolutionKey = EmailKey(email: string) | NameKey(name: string, company: string)

  datatype IdentityKey = IdentityKey(account: string, externalId: string)

  datatype IdentityInfo = IdentityInfo(
    provider: string,
    contact: Contact,
    handle: Option<string>,
    payload: string,
    resolutionKey: ResolutionKey)

  /** The value of an identity row is its person. */
  type IdentityRow = Row<IdentityKey, IdentityInfo, nat>

  datatype EdgeKey = EdgeKey(member: string, person: nat, provider: string)

  datatype EdgeInfo = EdgeInfo(user: string, account: string)

  datatype EdgeValue = EdgeValue(relation: Relation, strength: nat, stats: Stats, pooled: bool)

  type EdgeRow = Row<EdgeKey, EdgeInfo, EdgeValue>

  datatype Graph = Graph(persons: seq<Person>, identities: seq<IdentityRow>, edges: seq<EdgeRow>)

  function Clamp(s: Option<string>, limit: nat): Option<string> {
    if s.Some? then Some(Prefix(s.value, limit)) else None
  }

  function Clamped(c: Contact): Contact {
    Contact(Clamp(c.email, 255), Clamp(c.name, 200), Clamp(c.title, 200), Clamp(c.company, 200))
  }

  function KeyFor(c: Contact): ResolutionKey {
    if HasEmail(c) then EmailKey(NormalizeEmail(c.email)) else NameKey(Norm(OrEmpty(c.name)), Norm(OrEmpty(c.company)))
  }

  function IdentityFor(o: Owner, raw: RawIdentity, person: nat): IdentityRow {
    var c := Clamped(raw.contact);
    Row(IdentityKey(o.account, raw.externalId),
      IdentityInfo(o.provider, c, Clamp(raw.handle, 100), raw.payload, KeyFor(c)), person)
  }

  function EdgeFor(o: Owner, pooled: bool, ts: seq<Touchpoint>, now: int, raw: RawIdentity, person: nat): EdgeRow {
    var a := StatsOf(ts, raw.externalId);
    var r := RelationFor(raw.relation, a);
    Row(EdgeKey(o.member, person, o.provider), EdgeInfo(o.user, o.account),
      EdgeValue(r, Strength(r, a, now), a, pooled))
  }

  function Counted(persons: seq<Person>, i: nat, newIdentity: bool, newEdge: bool): seq<Person>
    requires i < |persons|
  {
    var p := persons[i];
    persons[i := p.(
      identityCount := p.identityCount + if newIdentity then 1 else 0,
      edgeCount := p.edgeCount + if newEdge then 1 else 0)]
  }

  /** Everything a batch brings besides its identities. */
  datatype Context = Context(owner: Owner, pooled: bool, touchpoints: seq<Touchpoint>, now: int)

  function IdentityUp(x: Context, raw: RawIdentity, person: nat): IdentityRow {
    IdentityFor(x.owner, raw, person)
  }

  function EdgeUp(x: Context, raw: RawIdentity, person: nat): EdgeRow {
    EdgeFor(x.owner, x.pooled, x.touchpoints, x.now, raw, person)
  }

  function IngestOne(g: Graph, x: Context, raw: RawIdentity): Graph {
    var i := Find(g.persons, Clamped(raw.contact));
    var identity, edge := IdentityUp(x, raw, i), EdgeUp(x, raw, i);
    Graph(
      Counted(Resolved(g.persons, Clamped(raw.contact)), i, !Has(g.identities, identity.key), !Has(g.edges, edge.key)),
      Upsert(g.identities, identity),
      Upsert(g.edges, edge))
  }

  function Ingest(g: Graph, x: Context, raws: seq<RawIdentity>): Graph
    decreases |raws|
  {
    if raws == [] then g else Ingest(IngestOne(g, x, raws[0]), x, raws[1..])
  }

  /** `set_pooling`: the edges the account brought in follow its switch. */
  function SetPooling(edges: seq<EdgeRow>, account: string, pooled: bool): (r: seq<EdgeRow>)
    ensures |r| == |edges|
  {
    seq(|edges|, i requires 0 <= i < |edges| =>
      if edges[i].fixed.account == account then edges[i].(value := edges[i].value.(pooled := pooled)) else edges[i])
  }

  /** `visible_edges_where` */
  predicate Visible(e: EdgeRow, member: string) {
    e.key.member == member || e.value.pooled
  }
}
