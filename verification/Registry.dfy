/**
 The registry in front of the company sources (nexus/integrations/registry.py): a budget and a
 circuit breaker per source, the merge of what the sources found, and the cache of whole searches.
 What a provider answers is an input.
 */
module Registry {
  import opened Wrappers
  import opened Text

  // ---- Budgets and breakers ---------------------------------------------------------------

  datatype SourceState = SourceState(calls: nat, failures: nat, open: bool)

  datatype Limits = Limits(budget: int, threshold: int)

  type States = map<string, SourceState>

  /** What one provider call does. */
  datatype Outcome<T> = Raised | Found(value: T)

  function StateOf(states: States, name: string): SourceState {
    if name in states then states[name] else SourceState(0, 0, false)
  }

  predicate Allowed(limits: Limits, s: SourceState) {
    !s.open && (limits.budget == 0 || s.calls < limits.budget)
  }

  function Charged(limits: Limits, s: SourceState, ok: bool): SourceState {
    if ok then s.(calls := s.calls + 1, failures := 0)
    else SourceState(s.calls + 1, s.failures + 1, s.open || s.failures + 1 >= limits.threshold)
  }

  /** The states after one attempt to call a source; a skipped attempt still gives it an entry. */
  function Attempt(limits: Limits, states: States, name: string, ok: bool): States {
    var s := StateOf(states, name);
    states[name := if Allowed(limits, s) then Charged(limits, s, ok) else s]
  }

  class Policy {
    const limits: Limits
    var states: States

    constructor (limits: Limits)
      ensures this.limits == limits && states == map[]
    {
      this.limits := limits;
      states := map[];
    }

    method Get(name: string) returns (s: SourceState)
      modifies this
      ensures s == StateOf(old(states), name) && states == old(states)[name := s]
    {
      if name !in states {
        states := states[name := SourceState(0, 0, false)];
      }
      s := states[name];
      assert states == old(states)[name := s];
    }

    method Allow(name: string) returns (allowed: bool)
      modifies this
      ensures allowed <==> Allowed(limits, StateOf(old(states), name))
      ensures states == old(states)[name := StateOf(old(states), name)]
    {
      var s := Get(name);
      if s.open {
        return false;
      }
      if limits.budget != 0 && s.calls >= limits.budget {
        return false;
      }
      return true;
    }

    method Call<T>(name: string, provider: Outcome<T>) returns (r: Option<T>, called: bool)
      modifies this
      ensures called <==> Allowed(limits, StateOf(old(states), name))
      ensures states == Attempt(limits, old(states), name, provider.Found?)
      ensures r == if called && provider.Found? then Some(provider.value) else None
    {
      var allowed := Allow(name);
      if !allowed {
        return None, false;
      }
      var s := Get(name);
      assert Allowed(limits, s) && states == old(states)[name := s];
      hide Allowed, StateOf;
      s := s.(calls := s.calls + 1);
      states := states[name := s];
      assert states == old(states)[name := s];
      match provider {
        case Raised =>
          s := s.(failures := s.failures + 1);
          if s.failures >= limits.threshold {
            s := s.(open := true);
          }
          states := states[name := s];
          assert states == old(states)[name := s];
          return None, true;
        case Found(value) =>
          states := states[name := s.(failures := 0)];
          assert states == old(states)[name := s.(failures := 0)];
          return Some(value), true;
      }
    }
  }

  /** An attempt to use a source, and what its provider would do. */
  datatype Use = Use(name: string, ok: bool)

  function StatesAfter(limits: Limits, uses: seq<Use>): States {
    if uses == [] then map[]
    else
      var past, last := uses[..|uses| - 1], uses[|uses| - 1];
      Attempt(limits, StatesAfter(limits, past), last.name, last.ok)
  }

  /** The calls the source's provider really got, in order: did each succeed? */
  function CallLog(limits: Limits, uses: seq<Use>, name: string): seq<bool> {
    if uses == [] then []
    else
      var past, last := uses[..|uses| - 1], uses[|uses| - 1];
      CallLog(limits, past, name) +
      if last.name == name && Allowed(limits, StateOf(StatesAfter(limits, past), name)) then [last.ok] else []
  }

  function FailuresAtEnd(log: seq<bool>): nat {
    if log == [] || log[|log| - 1] then 0 else 1 + FailuresAtEnd(log[..|log| - 1])
  }

  predicate Tripped(limits: Limits, log: seq<bool>) {
    FailuresAtEnd(log) >= 1 && FailuresAtEnd(log) >= limits.threshold
  }

  lemma FailuresExtend(log: seq<bool>, ok: bool)
    ensures FailuresAtEnd(log + [ok]) == if ok then 0 else FailuresAtEnd(log) + 1
  {
    assert (log + [ok])[..|log|] == log;
  }

  /** The state kept for a source is what its calls amount to. */
  lemma {:induction false} StateIsLog(limits: Limits, uses: seq<Use>, name: string)
    ensures var log := CallLog(limits, uses, name);
      StateOf(StatesAfter(limits, uses), name) == SourceState(|log|, FailuresAtEnd(log), Tripped(limits, log))
  {
    if uses != [] {
      var past, last := uses[..|uses| - 1], uses[|uses| - 1];
      var log := CallLog(limits, past, name);
      StateIsLog(limits, past, name);
      FailuresExtend(log, last.ok);
      if last.name == name && Allowed(limits, StateOf(StatesAfter(limits, past), name)) {
        assert CallLog(limits, uses, name) == log + [last.ok];
      } else {
        assert CallLog(limits, uses, name) == log;
      }
    }
  }

  /**
   A source is called exactly when its log has room in the budget and does not end in as many
   failures as trip the breaker. So no log is longer than the budget, and the failures that trip it
   are the last calls a source ever gets.
   */
  lemma {:induction false} CalledIff(limits: Limits, uses: seq<Use>, name: string, more: seq<Use>)
    ensures var log := CallLog(limits, uses, name);
      && (Allowed(limits, StateOf(StatesAfter(limits, uses), name)) <==>
           !Tripped(limits, log) && (limits.budget == 0 || |log| < limits.budget))
      && (limits.budget > 0 ==> |log| <= limits.budget)
      && log <= CallLog(limits, uses + more, name)
      && (Tripped(limits, log) ==> CallLog(limits, uses + more, name) == log)
  {
    StateIsLog(limits, uses, name);
    WithinBudget(limits, uses, name);
    LogGrows(limits, uses, name, more);
  }

  lemma {:induction false} WithinBudget(limits: Limits, uses: seq<Use>, name: string)
    ensures limits.budget > 0 ==> |CallLog(limits, uses, name)| <= limits.budget
  {
    if uses != [] {
      WithinBudget(limits, uses[..|uses| - 1], name);
      StateIsLog(limits, uses[..|uses| - 1], name);
    }
  }

  lemma {:induction false} LogGrows(limits: Limits, uses: seq<Use>, name: string, more: seq<Use>)
    ensures var log, longer := CallLog(limits, uses, name), CallLog(limits, uses + more, name);
      log <= longer && (Tripped(limits, log) ==> longer == log)
    decreases |more|
  {
    if more == [] {
      assert uses + more == uses;
    } else {
      var init := more[..|more| - 1];
      LogGrows(limits, uses, name, init);
      assert (uses + more)[..|uses + more| - 1] == uses + init;
      StateIsLog(limits, uses + init, name);
    }
  }

  // ---- Merging candidates -----------------------------------------------------------------

  datatype Field = Name | Url | Industry | Country | Headcount | Snippet

  datatype Value = Nothing | Text(text: string) | Number(number: int)

  datatype Candidate = Candidate(
    domain: Option<string>,
    fields: map<Field, Value>,
    source: string,
    confidence: real,
    provenance: map<Field, string>)

  const MERGEABLE: seq<Field> := [Url, Industry, Country, Headcount, Snippet]

  function Read(c: Candidate, f: Field): Value {
    if f in c.fields then c.fields[f] else Nothing
  }

  predicate Blank(v: Value) {
    v == Nothing || v == Value.Text("")
  }

  function DomainOf(c: Candidate): string {
    if c.domain.Some? then Lower(c.domain.value) else ""
  }

  function Max(a: real, b: real): real {
    if a >= b then a else b
  }

  function Anchored(c: Candidate): Candidate {
    c.(provenance := map f: Field | f in [Name] + MERGEABLE && !Blank(Read(c, f)) :: c.source)
  }

  predicate Fills(anchor: Candidate, incoming: Candidate, f: Field) {
    Blank(Read(anchor, f)) && !Blank(Read(incoming, f))
  }

  /** The anchor with its first `n` mergeable fields filled where they were empty. */
  function FilledTo(anchor: Candidate, incoming: Candidate, n: nat): Candidate
    requires n <= |MERGEABLE|
  {
    if n == 0 then anchor
    else
      var c, f := FilledTo(anchor, incoming, n - 1), MERGEABLE[n - 1];
      if Fills(c, incoming, f)
      then c.(fields := c.fields[f := Read(incoming, f)], provenance := c.provenance[f := incoming.source])
      else c
  }

  function MergeInto(anchor: Candidate, incoming: Candidate): Candidate {
    FilledTo(anchor, incoming, |MERGEABLE|).(confidence := Max(anchor.confidence, incoming.confidence))
  }

  lemma FieldsBefore(n: nat)
    requires n < |MERGEABLE|
    ensures MERGEABLE[n] !in MERGEABLE[..n]
    ensures MERGEABLE[..n + 1] == MERGEABLE[..n] + [MERGEABLE[n]]
  {
    assert n == 0 || n == 1 || n == 2 || n == 3 || n == 4;
  }

  /** What filling leaves in a field. */
  ghost predicate FilledField(r: Candidate, r': Candidate, c: Candidate, f: Field, fill: bool) {
    if fill then Read(r', f) == Read(c, f) && f in r'.provenance && r'.provenance[f] == c.source
    else
      && Read(r', f) == Read(r, f) && (f in r'.provenance <==> f in r.provenance)
      && (f in r.provenance && f in r'.provenance ==> r'.provenance[f] == r.provenance[f])
  }

  lemma {:induction false} FilledReads(r: Candidate, c: Candidate, n: nat, f: Field)
    requires n <= |MERGEABLE|
    ensures var r' := FilledTo(r, c, n);
      && FilledField(r, r', c, f, f in MERGEABLE[..n] && Fills(r, c, f))
      && r'.domain == r.domain && r'.source == r.source && r'.confidence == r.confidence
  {
    if n > 0 {
      FilledReads(r, c, n - 1, f);
      FilledReads(r, c, n - 1, MERGEABLE[n - 1]);
      FieldsBefore(n - 1);
    }
  }

  method MergeCompany(anchor: Candidate, incoming: Candidate) returns (c: Candidate)
    ensures c == MergeInto(anchor, incoming)
  {
    c := anchor;
    assert c == FilledTo(anchor, incoming, 0);
    for n := 0 to |MERGEABLE|
      invariant c == FilledTo(anchor, incoming, n)
    {
      var f := MERGEABLE[n];
      if Blank(Read(c, f)) && !Blank(Read(incoming, f)) {
        c := c.(fields := c.fields[f := Read(incoming, f)], provenance := c.provenance[f := incoming.source]);
      }
    }
    FilledReads(anchor, incoming, |MERGEABLE|, Name);
    c := c.(confidence := if c.confidence >= incoming.confidence then c.confidence else incoming.confidence);
  }

  /** The companies merged so far, and their domains in the order they came. */
  datatype Pool = Pool(byDomain: map<string, Candidate>, order: seq<string>)

  function Absorb(pool: Pool, c: Candidate): Pool {
    var d := DomainOf(c);
    if d == "" then pool
    else if d in pool.byDomain then pool.(byDomain := pool.byDomain[d := MergeInto(pool.byDomain[d], c)])
    else Pool(pool.byDomain[d := Anchored(c)], pool.order + [d])
  }

  function MergeAll(found: seq<Candidate>): Pool {
    if found == [] then Pool(map[], [])
    else Absorb(MergeAll(found[..|found| - 1]), found[|found| - 1])
  }

  // ---- What a merge is ----------------------------------------------------------------------

  /** The candidates of a domain, in the order found. */
  function Group(found: seq<Candidate>, d: string): seq<Candidate> {
    if found == [] then []
    else Group(found[..|found| - 1], d) + if DomainOf(found[|found| - 1]) == d then [found[|found| - 1]] else []
  }

  /** The first of a group with something in the field; the length if there is none. */
  function FirstFilled(group: seq<Candidate>, f: Field): (k: nat)
    ensures k <= |group|
    ensures k < |group| ==> !Blank(Read(group[k], f))
    ensures forall i :: 0 <= i < k ==> Blank(Read(group[i], f))
  {
    if group == [] || !Blank(Read(group[0], f)) then 0 else 1 + FirstFilled(group[1..], f)
  }

  ghost predicate FieldIsFirst(c: Candidate, group: seq<Candidate>, f: Field)
    requires group != []
  {
    var k := FirstFilled(group, f);
    if k < |group| then Read(c, f) == Read(group[k], f) && f in c.provenance && c.provenance[f] == group[k].source
    else Read(c, f) == Read(group[0], f) && f !in c.provenance
  }

  ghost predicate IsMergeOf(c: Candidate, group: seq<Candidate>) {
    && group != []
    && c.domain == group[0].domain && c.source == group[0].source && Read(c, Name) == Read(group[0], Name)
    && (Name in c.provenance <==> !Blank(Read(c, Name)))
    && (Name in c.provenance ==> c.provenance[Name] == group[0].source)
    && (forall f :: f in MERGEABLE ==> FieldIsFirst(c, group, f))
    && (forall i :: 0 <= i < |group| ==> group[i].confidence <= c.confidence)
    && (exists i :: 0 <= i < |group| && group[i].confidence == c.confidence)
  }

  lemma FirstFilledExtend(group: seq<Candidate>, c: Candidate, f: Field)
    ensures FirstFilled(group + [c], f) ==
      if FirstFilled(group, f) < |group| then FirstFilled(group, f)
      else if Blank(Read(c, f)) then |group| + 1
      else |group|
  {
    var k, k' := FirstFilled(group, f), FirstFilled(group + [c], f);
    assert forall i :: 0 <= i < |group| ==> (group + [c])[i] == group[i];
    if k < |group| {
      assert !Blank(Read((group + [c])[k], f));
    } else {
      assert (group + [c])[|group|] == c;
    }
  }

  lemma AnchorIsMerge(c: Candidate)
    ensures IsMergeOf(Anchored(c), [c])
  {
    var a := Anchored(c);
    assert [c][0].confidence == a.confidence;
    forall f | f in MERGEABLE
      ensures FieldIsFirst(a, [c], f)
    {
      assert FirstFilled([c], f) == if Blank(Read(c, f)) then 1 else 0;
    }
  }

  lemma MergeExtends(r: Candidate, group: seq<Candidate>, c: Candidate)
    requires IsMergeOf(r, group)
    ensures IsMergeOf(MergeInto(r, c), group + [c])
  {
    var r', group' := MergeInto(r, c), group + [c];
    forall f | f in MERGEABLE
      ensures FieldIsFirst(r', group', f)
    {
      FirstFilledExtend(group, c, f);
      MergeReads(r, c, f);
    }
    MergeReads(r, c, Name);
    var i :| 0 <= i < |group| && group[i].confidence == r.confidence;
    assert group'[i].confidence == r.confidence && group'[|group|].confidence == c.confidence;
  }

  lemma MergeReads(r: Candidate, c: Candidate, f: Field)
    ensures var r' := MergeInto(r, c);
      && FilledField(r, r', c, f, f in MERGEABLE && Fills(r, c, f))
      && r'.domain == r.domain && r'.source == r.source && r'.confidence == Max(r.confidence, c.confidence)
  {
    FilledReads(r, c, |MERGEABLE|, f);
    assert MERGEABLE[..|MERGEABLE|] == MERGEABLE;
  }

  /** Where a domain was first seen. */
  ghost predicate FirstSeenAt(found: seq<Candidate>, d: string, k: nat) {
    k < |found| && DomainOf(found[k]) == d && forall i :: 0 <= i < k ==> DomainOf(found[i]) != d
  }

  ghost predicate CoversAll(order: seq<string>, found: seq<Candidate>) {
    forall k :: 0 <= k < |found| && DomainOf(found[k]) != "" ==> DomainOf(found[k]) in order
  }

  ghost predicate WasSeen(found: seq<Candidate>, d: string) {
    exists k :: FirstSeenAt(found, d, k)
  }

  ghost predicate EachSeen(order: seq<string>, found: seq<Candidate>) {
    forall a :: 0 <= a < |order| ==> order[a] != "" && WasSeen(found, order[a])
  }

  ghost predicate InSeenOrder(order: seq<string>, found: seq<Candidate>) {
    forall a, b, i, k ::
      0 <= a < b < |order| && FirstSeenAt(found, order[a], i) && FirstSeenAt(found, order[b], k) ==> i < k
  }

  /** The domains found, each once, in the order first seen. */
  ghost predicate IsFirstSeenOrder(order: seq<string>, found: seq<Candidate>) {
    CoversAll(order, found) && EachSeen(order, found) && InSeenOrder(order, found)
  }

  ghost predicate GroupMerged(byDomain: map<string, Candidate>, found: seq<Candidate>, d: string) {
    if d in byDomain then IsMergeOf(byDomain[d], Group(found, d)) else Group(found, d) == []
  }

  ghost predicate AllMerged(byDomain: map<string, Candidate>, found: seq<Candidate>) {
    forall d: string :: d != "" ==> GroupMerged(byDomain, found, d)
  }

  function Listed(order: seq<string>): set<string> {
    set d | d in order
  }

  /** One company a domain, each the merge of all that was found for the domain. */
  ghost predicate IsMergedPool(pool: Pool, found: seq<Candidate>) {
    && IsFirstSeenOrder(pool.order, found)
    && pool.byDomain.Keys == Listed(pool.order)
    && AllMerged(pool.byDomain, found)
  }

  lemma GroupNext(found: seq<Candidate>, c: Candidate, d: string)
    ensures Group(found + [c], d) == if DomainOf(c) == d then Group(found, d) + [c] else Group(found, d)
  {
    assert (found + [c])[..|found|] == found;
  }

  lemma FirstSeenKept(found: seq<Candidate>, c: Candidate, d: string, k: nat)
    ensures k < |found| ==> (FirstSeenAt(found + [c], d, k) <==> FirstSeenAt(found, d, k))
    ensures FirstSeenAt(found + [c], d, |found|) ==>
      DomainOf(c) == d && forall i :: 0 <= i < |found| ==> DomainOf(found[i]) != d
  {
    assert forall i :: 0 <= i < |found| ==> (found + [c])[i] == found[i];
  }

  lemma StillSeen(found: seq<Candidate>, c: Candidate, d: string)
    requires WasSeen(found, d)
    ensures WasSeen(found + [c], d)
  {
    var k :| FirstSeenAt(found, d, k);
    FirstSeenKept(found, c, d, k);
    assert FirstSeenAt(found + [c], d, k);
  }

  lemma OrderKept(order: seq<string>, found: seq<Candidate>, c: Candidate)
    requires IsFirstSeenOrder(order, found) && (DomainOf(c) == "" || DomainOf(c) in order)
    ensures IsFirstSeenOrder(order, found + [c])
  {
    var more := found + [c];
    hide DomainOf, FirstSeenAt, WasSeen;
    forall a | 0 <= a < |order|
      ensures WasSeen(more, order[a])
    {
      StillSeen(found, c, order[a]);
    }
    forall a, b, i, k | 0 <= a < b < |order| && FirstSeenAt(more, order[a], i) && FirstSeenAt(more, order[b], k)
      ensures i < k
    {
      SeenEarlier(order, found, c, a, i);
      SeenEarlier(order, found, c, b, k);
    }
  }

  lemma SeenEarlier(order: seq<string>, found: seq<Candidate>, c: Candidate, a: nat, i: nat)
    requires IsFirstSeenOrder(order, found) && a < |order| && FirstSeenAt(found + [c], order[a], i)
    ensures FirstSeenAt(found, order[a], i)
  {
    var k :| FirstSeenAt(found, order[a], k);
    FirstSeenKept(found, c, order[a], k);
    FirstSeenKept(found, c, order[a], i);
  }

  lemma OrderKeepsGrowing(order: seq<string>, found: seq<Candidate>, c: Candidate, a: nat, b: nat, i: nat, k: nat)
    requires IsFirstSeenOrder(order, found) && a < b <= |order|
    requires var d := if b < |order| then order[b] else DomainOf(c); FirstSeenAt(found + [c], d, k)
    requires FirstSeenAt(found + [c], order[a], i) && DomainOf(c) != "" && DomainOf(c) !in order
    ensures i < k
  {
    SeenEarlier(order, found, c, a, i);
    if b < |order| {
      SeenEarlier(order, found, c, b, k);
    } else {
      FirstSeenKept(found, c, DomainOf(c), k);
    }
  }

  lemma CoverGrows(order: seq<string>, found: seq<Candidate>, c: Candidate)
    requires CoversAll(order, found)
    ensures CoversAll(order + [DomainOf(c)], found + [c])
  {
    var more, order' := found + [c], order + [DomainOf(c)];
    hide DomainOf;
    forall k | 0 <= k < |more| && DomainOf(more[k]) != ""
      ensures DomainOf(more[k]) in order'
    {
      if k < |found| {
        assert more[k] == found[k];
      } else {
        assert more[k] == c && order'[|order|] == DomainOf(c);
      }
    }
  }

  lemma SeenGrows(order: seq<string>, found: seq<Candidate>, c: Candidate)
    requires CoversAll(order, found) && EachSeen(order, found) && DomainOf(c) != "" && DomainOf(c) !in order
    ensures EachSeen(order + [DomainOf(c)], found + [c])
  {
    NewIsSeen(order, found, c);
    assert WasSeen(found + [c], DomainOf(c));
    hide DomainOf, FirstSeenAt, WasSeen, CoversAll;
    forall a | 0 <= a < |order|
      ensures WasSeen(found + [c], order[a])
    {
      StillSeen(found, c, order[a]);
    }
  }

  lemma NewIsSeen(order: seq<string>, found: seq<Candidate>, c: Candidate)
    requires CoversAll(order, found) && DomainOf(c) != "" && DomainOf(c) !in order
    ensures FirstSeenAt(found + [c], DomainOf(c), |found|)
  {
    var more := found + [c];
    hide DomainOf;
    forall i | 0 <= i < |found|
      ensures DomainOf(more[i]) != DomainOf(c)
    {
      assert more[i] == found[i] && (DomainOf(found[i]) == "" || DomainOf(found[i]) in order);
    }
  }

  lemma OrderGrows(order: seq<string>, found: seq<Candidate>, c: Candidate)
    requires IsFirstSeenOrder(order, found) && DomainOf(c) != "" && DomainOf(c) !in order
    ensures IsFirstSeenOrder(order + [DomainOf(c)], found + [c])
  {
    CoverGrows(order, found, c);
    SeenGrows(order, found, c);
    var more, order' := found + [c], order + [DomainOf(c)];
    hide DomainOf, FirstSeenAt, CoversAll, EachSeen;
    forall a, b, i, k | 0 <= a < b < |order'| && FirstSeenAt(more, order'[a], i) && FirstSeenAt(more, order'[b], k)
      ensures i < k
    {
      OrderKeepsGrowing(order, found, c, a, b, i, k);
    }
  }

  lemma NoEmptyDomain(order: seq<string>, found: seq<Candidate>)
    requires EachSeen(order, found)
    ensures "" !in Listed(order)
  {
  }

  lemma OwnGroup(byDomain: map<string, Candidate>, found: seq<Candidate>, c: Candidate)
    requires AllMerged(byDomain, found) && DomainOf(c) != ""
    ensures var d := DomainOf(c);
      IsMergeOf(if d in byDomain then MergeInto(byDomain[d], c) else Anchored(c), Group(found + [c], d))
  {
    var d := DomainOf(c);
    assert GroupMerged(byDomain, found, d);
    GroupNext(found, c, d);
    hide IsMergeOf, Group, MergeInto, Anchored, DomainOf, AllMerged;
    if d in byDomain {
      MergeExtends(byDomain[d], Group(found, d), c);
    } else {
      AnchorIsMerge(c);
      assert Group(found, d) + [c] == [c];
    }
  }

  /** One more candidate changes the company of its own domain only. */
  lemma GroupsAfter(byDomain: map<string, Candidate>, after: map<string, Candidate>, found: seq<Candidate>,
      c: Candidate)
    requires AllMerged(byDomain, found)
    requires forall d: string :: d != DomainOf(c) && d != "" ==>
      (d in after <==> d in byDomain) && (d in after && d in byDomain ==> after[d] == byDomain[d])
    requires DomainOf(c) != "" ==> GroupMerged(after, found + [c], DomainOf(c))
    ensures AllMerged(after, found + [c])
  {
    hide IsMergeOf, Group, DomainOf;
    forall d: string | d != ""
      ensures GroupMerged(after, found + [c], d)
    {
      if d != DomainOf(c) {
        assert GroupMerged(byDomain, found, d);
        GroupNext(found, c, d);
      }
    }
  }

  lemma AbsorbMerges(pool: Pool, found: seq<Candidate>, c: Candidate)
    requires IsMergedPool(pool, found)
    ensures IsMergedPool(Absorb(pool, c), found + [c])
  {
    NoEmptyDomain(pool.order, found);
    hide IsFirstSeenOrder, IsMergeOf, MergeInto, Anchored, DomainOf, Group, AllMerged;
    var d0, pool' := DomainOf(c), Absorb(pool, c);
    if d0 == "" || d0 in pool.byDomain {
      OrderKept(pool.order, found, c);
    } else {
      OrderGrows(pool.order, found, c);
      assert Listed(pool.order + [d0]) == Listed(pool.order) + {d0};
    }
    if d0 != "" {
      OwnGroup(pool.byDomain, found, c);
    }
    GroupsAfter(pool.byDomain, pool'.byDomain, found, c);
  }

  /** The merge of any list of candidates is one company a domain, in first-seen order. */
  lemma {:induction false} MergeAllIsMerge(found: seq<Candidate>)
    ensures IsMergedPool(MergeAll(found), found)
  {
    if found != [] {
      var init, last := found[..|found| - 1], found[|found| - 1];
      MergeAllIsMerge(init);
      AbsorbMerges(MergeAll(init), init, last);
      assert init + [last] == found;
    }
  }

  lemma MergeAllNext(found: seq<Candidate>, c: Candidate)
    ensures MergeAll(found + [c]) == Absorb(MergeAll(found), c)
  {
    assert (found + [c])[..|found|] == found;
  }

  // ---- A search -----------------------------------------------------------------------------

  /** The normalized query: the excluded domains are a set without the empty one. */
  datatype Query = Query(icp: string, limit: int, excluded: set<string>)

  type Answers = seq<Outcome<seq<Candidate>>>

  /** One pass over the sources: the states left, what was found, and the sources really called. */
  datatype Pass = Pass(states: States, found: seq<Candidate>, called: seq<string>)

  function Waterfall(limits: Limits, states: States, sources: seq<string>, answers: Answers): Pass
    requires |sources| == |answers|
  {
    if sources == [] then Pass(states, [], [])
    else
      var n := |sources| - 1;
      var before := Waterfall(limits, states, sources[..n], answers[..n]);
      var allowed := Allowed(limits, StateOf(before.states, sources[n]));
      Pass(
        Attempt(limits, before.states, sources[n], answers[n].Found?),
        before.found + (if allowed && answers[n].Found? then answers[n].value else []),
        before.called + (if allowed then [sources[n]] else []))
  }

  lemma WaterfallNext(limits: Limits, states: States, sources: seq<string>, answers: Answers, n: nat)
    requires |sources| == |answers| && n < |sources|
    ensures var before := Waterfall(limits, states, sources[..n], answers[..n]);
      var allowed := Allowed(limits, StateOf(before.states, sources[n]));
      Waterfall(limits, states, sources[..n + 1], answers[..n + 1]) == Pass(
        Attempt(limits, before.states, sources[n], answers[n].Found?),
        before.found + (if allowed && answers[n].Found? then answers[n].value else []),
        before.called + (if allowed then [sources[n]] else []))
  {
    assert sources[..n + 1][..n] == sources[..n] && answers[..n + 1][..n] == answers[..n];
  }

  lemma PoolCloses(pool: Pool, found: seq<Candidate>)
    requires IsMergedPool(pool, found)
    ensures forall a :: 0 <= a < |pool.order| ==> pool.order[a] in pool.byDomain
  {
  }

  function Companies(found: seq<Candidate>): seq<Candidate> {
    MergeAllIsMerge(found);
    var pool := MergeAll(found);
    seq(|pool.order|, a requires 0 <= a < |pool.order| => pool.byDomain[pool.order[a]])
  }

  datatype State = State(states: States, cache: map<Query, seq<Candidate>>)

  /** The meaning of a search: a cached answer, or a pass over the sources, merged and cut. */
  function Searched(limits: Limits, caching: bool, s: State, sources: seq<string>, q: Query,
      answers: Answers): (State, seq<Candidate>, seq<string>)
    requires |sources| == |answers|
  {
    if caching && q in s.cache then (s, s.cache[q], [])
    else
      var pass := Waterfall(limits, s.states, sources, answers);
      var result := Prefix(Companies(pass.found), q.limit);
      (State(pass.states, if caching then s.cache[q := result] else s.cache), result, pass.called)
  }

  class DataSourceRegistry {
    const sources: seq<string>
    const caching: bool
    const policy: Policy
    var cache: map<Query, seq<Candidate>>

    constructor (sources: seq<string>, limits: Limits, caching: bool)
      ensures this.sources == sources && this.caching == caching && this.policy.limits == limits
      ensures cache == map[] && fresh(this.policy) && this.policy.states == map[]
    {
      this.sources, this.caching, this.cache := sources, caching, map[];
      this.policy := new Policy(limits);
    }

    function Contents(): State
      reads this, policy
    {
      State(policy.states, cache)
    }

    method CompanySearch(icp: string, limit: int, exclude: seq<string>, answers: Answers)
      returns (result: seq<Candidate>, called: seq<string>)
      requires |answers| == |sources|
      modifies this, policy
      ensures var q := Query(icp, limit, set d | d in exclude && d != "");
        (Contents(), result, called) == Searched(policy.limits, caching, old(Contents()), sources, q, answers)
    {
      var q := Query(icp, limit, set d | d in exclude && d != "");
      if caching && q in cache {
        return cache[q], [];
      }
      var merged: map<string, Candidate>, order: seq<string> := map[], [];
      ghost var found: seq<Candidate> := [];
      called := [];
      for i := 0 to |sources|
        invariant cache == old(cache)
        invariant Pass(policy.states, found, called) ==
          Waterfall(policy.limits, old(policy.states), sources[..i], answers[..i])
        invariant Pool(merged, order) == MergeAll(found)
      {
        hide Waterfall, MergeAll, Attempt, Allowed, StateOf, Companies, Searched;
        WaterfallNext(policy.limits, old(policy.states), sources, answers, i);
        var r, wasCalled := policy.Call(sources[i], answers[i]);
        if wasCalled {
          called := called + [sources[i]];
        }
        if r.Some? {
          merged, order := AddAll(merged, order, found, r.value);
          found := found + r.value;
        }
      }
      assert sources[..|sources|] == sources && answers[..|sources|] == answers;
      MergeAllIsMerge(found);
      var companies := seq(|order|, a requires 0 <= a < |order| => merged[order[a]]);
      assert companies == Companies(found);
      result := Prefix(companies, limit);
      if caching {
        cache := cache[q := result];
      }
      assert Waterfall(policy.limits, old(policy.states), sources, answers) == Pass(policy.states, found, called);
      assert old(Contents()).cache == old(cache);
    }

    /** The inner loop: one source's candidates go into the pool. */
    method AddAll(
      start: map<string, Candidate>, startOrder: seq<string>, ghost found: seq<Candidate>, candidates: seq<Candidate>)
      returns (merged: map<string, Candidate>, order: seq<string>)
      requires Pool(start, startOrder) == MergeAll(found)
      ensures Pool(merged, order) == MergeAll(found + candidates)
    {
      hide MergeAll, Absorb;
      merged, order := start, startOrder;
      assert found + candidates[..0] == found;
      for k := 0 to |candidates|
        invariant Pool(merged, order) == MergeAll(found + candidates[..k])
      {
        assert found + candidates[..k + 1] == found + candidates[..k] + [candidates[k]];
        MergeAllNext(found + candidates[..k], candidates[k]);
        merged, order := AddOne(merged, order, candidates[k]);
      }
      assert candidates[..|candidates|] == candidates;
    }

    /** One turn of it: an anchor for a new domain, a merge for a known one. */
    method AddOne(start: map<string, Candidate>, startOrder: seq<string>, c: Candidate)
      returns (merged: map<string, Candidate>, order: seq<string>)
      ensures Pool(merged, order) == Absorb(Pool(start, startOrder), c)
    {
      hide MergeInto, Anchored, DomainOf;
      merged, order := start, startOrder;
      var domain := DomainOf(c);
      if domain == "" {
        return;
      }
      if domain !in merged {
        merged := merged[domain := Anchored(c)];
        order := order + [domain];
      } else {
        var m := MergeCompany(merged[domain], c);
        merged := merged[domain := m];
      }
    }
  }

  /**
   What a search that is not answered from the cache returns: the distinct domains in first-seen
   order cut to the limit, each company the merge of all its candidates.
   */
  lemma SearchIsMerge(limits: Limits, caching: bool, s: State, sources: seq<string>, q: Query, answers: Answers)
    requires |sources| == |answers| && !(caching && q in s.cache)
    ensures var (_, result, _) := Searched(limits, caching, s, sources, q, answers);
      var found := Waterfall(limits, s.states, sources, answers).found;
      var order := MergeAll(found).order;
      && IsFirstSeenOrder(order, found)
      && |result| == |Prefix(order, q.limit)|
      && (q.limit >= 0 ==> |result| <= q.limit)
      && forall a :: 0 <= a < |result| ==> IsMergeOf(result[a], Group(found, order[a]))
  {
    var found := Waterfall(limits, s.states, sources, answers).found;
    MergeAllIsMerge(found);
    PoolCloses(MergeAll(found), found);
    hide MergeAll, IsMergeOf, Group, IsFirstSeenOrder, Waterfall;
    forall a | 0 <= a < |MergeAll(found).order|
      ensures IsMergeOf(Companies(found)[a], Group(found, MergeAll(found).order[a]))
    {
      CompanyAt(found, a);
    }
  }

  lemma CompanyAt(found: seq<Candidate>, a: nat)
    requires a < |MergeAll(found).order|
    ensures |Companies(found)| == |MergeAll(found).order|
    ensures IsMergeOf(Companies(found)[a], Group(found, MergeAll(found).order[a]))
  {
    MergeAllIsMerge(found);
    var pool := MergeAll(found);
    NoEmptyDomain(pool.order, found);
    assert pool.order[a] in Listed(pool.order);
    assert GroupMerged(pool.byDomain, found, pool.order[a]);
  }

  /** A search and what its sources would answer. */
  datatype Search = Search(query: Query, answers: Answers)

  function After(limits: Limits, s: State, sources: seq<string>, searches: seq<Search>): State
    requires forall i :: 0 <= i < |searches| ==> |searches[i].answers| == |sources|
  {
    if searches == [] then s
    else
      var n := |searches| - 1;
      Searched(limits, true, After(limits, s, sources, searches[..n]), sources, searches[n].query,
        searches[n].answers).0
  }

  lemma {:induction false} CacheKept(limits: Limits, s: State, sources: seq<string>, searches: seq<Search>, q: Query)
    requires (forall i :: 0 <= i < |searches| ==> |searches[i].answers| == |sources|) && q in s.cache
    ensures var t := After(limits, s, sources, searches); q in t.cache && t.cache[q] == s.cache[q]
    decreases |searches|
  {
    hide Waterfall, Companies;
    if searches != [] {
      CacheKept(limits, s, sources, searches[..|searches| - 1], q);
    }
  }

  /**
   The same query asked again, however much later and whatever the sources would now say, gets the
   same companies, calls no source and changes nothing.
   */
  lemma RepeatedQueryIsFree(limits: Limits, s: State, sources: seq<string>, q: Query, first: Answers,
      between: seq<Search>, second: Answers)
    requires |first| == |sources| && |second| == |sources|
    requires forall i :: 0 <= i < |between| ==> |between[i].answers| == |sources|
    ensures var (s1, r1, _) := Searched(limits, true, s, sources, q, first);
      var s2 := After(limits, s1, sources, between);
      Searched(limits, true, s2, sources, q, second) == (s2, r1, [])
  {
    hide Waterfall, Companies;
    CacheKept(limits, Searched(limits, true, s, sources, q, first).0, sources, between, q);
  }

  /** The attempts of a pass, as the policy sees them. */
  function Uses(sources: seq<string>, answers: Answers): (uses: seq<Use>)
    requires |sources| == |answers|
    ensures |uses| == |sources|
  {
    seq(|sources|, i requires 0 <= i < |sources| => Use(sources[i], answers[i].Found?))
  }

  /** The attempts made by a history of searches, with the cache on. */
  function UsesOf(limits: Limits, sources: seq<string>, searches: seq<Search>): seq<Use>
    requires forall i :: 0 <= i < |searches| ==> |searches[i].answers| == |sources|
  {
    if searches == [] then []
    else
      var n := |searches| - 1;
      var s := After(limits, State(map[], map[]), sources, searches[..n]);
      UsesOf(limits, sources, searches[..n]) + if searches[n].query in s.cache then []
        else Uses(sources, searches[n].answers)
  }

  lemma StatesNext(limits: Limits, uses: seq<Use>, use: Use)
    ensures StatesAfter(limits, uses + [use]) == Attempt(limits, StatesAfter(limits, uses), use.name, use.ok)
  {
    assert (uses + [use])[..|uses|] == uses;
    hide Attempt;
  }

  lemma UsesNext(sources: seq<string>, answers: Answers, past: seq<Use>)
    requires |sources| == |answers| && sources != []
    ensures var n := |sources| - 1;
      past + Uses(sources, answers) == past + Uses(sources[..n], answers[..n]) + [Use(sources[n], answers[n].Found?)]
  {
    var n := |sources| - 1;
    assert Uses(sources, answers) == Uses(sources[..n], answers[..n]) + [Use(sources[n], answers[n].Found?)];
  }

  lemma PassNext(limits: Limits, states: States, sources: seq<string>, answers: Answers)
    requires |sources| == |answers| && sources != []
    ensures var n := |sources| - 1;
      Waterfall(limits, states, sources, answers).states ==
        Attempt(limits, Waterfall(limits, states, sources[..n], answers[..n]).states, sources[n], answers[n].Found?)
  {
    hide Attempt, Allowed, StateOf;
  }

  lemma PassOfNone(limits: Limits, past: seq<Use>)
    ensures Waterfall(limits, StatesAfter(limits, past), [], []).states == StatesAfter(limits, past)
    ensures past + Uses([], []) == past
  {
    hide StatesAfter;
  }

  lemma {:induction false} PassIsUses(limits: Limits, past: seq<Use>, sources: seq<string>, answers: Answers)
    requires |sources| == |answers|
    ensures Waterfall(limits, StatesAfter(limits, past), sources, answers).states ==
      StatesAfter(limits, past + Uses(sources, answers))
    decreases |sources|
  {
    hide *;
    if sources == [] {
      PassOfNone(limits, past);
    } else {
      var n := |sources| - 1;
      PassIsUses(limits, past, sources[..n], answers[..n]);
      PassNext(limits, StatesAfter(limits, past), sources, answers);
      UsesNext(sources, answers, past);
      StatesNext(limits, past + Uses(sources[..n], answers[..n]), Use(sources[n], answers[n].Found?));
    }
  }

  /** Over any history of searches the states are those of its attempts, so the budget and the breaker hold. */
  lemma {:induction false} SearchesKeepThePolicy(limits: Limits, sources: seq<string>, searches: seq<Search>,
      name: string)
    requires forall i :: 0 <= i < |searches| ==> |searches[i].answers| == |sources|
    ensures var s, uses := After(limits, State(map[], map[]), sources, searches), UsesOf(limits, sources, searches);
      && s.states == StatesAfter(limits, uses)
      && StateOf(s.states, name).calls == |CallLog(limits, uses, name)|
      && (limits.budget > 0 ==> StateOf(s.states, name).calls <= limits.budget)
      && (StateOf(s.states, name).open <==> Tripped(limits, CallLog(limits, uses, name)))
    decreases |searches|
  {
    hide Companies, Tripped;
    var uses := UsesOf(limits, sources, searches);
    if searches != [] {
      var n := |searches| - 1;
      SearchesKeepThePolicy(limits, sources, searches[..n], name);
      assert UsesOf(limits, sources, searches[..n]) + [] == UsesOf(limits, sources, searches[..n]);
      PassIsUses(limits, UsesOf(limits, sources, searches[..n]), sources, searches[n].answers);
    }
    StateIsLog(limits, uses, name);
    WithinBudget(limits, uses, name);
  }
}
