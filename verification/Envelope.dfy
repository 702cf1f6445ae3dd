/**
 The token budget of a chat turn and the merge of the working profile
 (nexus/orchestration/intake.py:230-315). The profile, target and slots reach the envelope as one
 serialized text.
 */
module Envelope {
  import opened Text

  datatype Message = Message(role: string, content: string)

  datatype Limits = Limits(budget: int, window: int, summaryCap: int)

  datatype Payload = Payload(summary: string, recent: seq<Message>, tokenEstimate: int)

  function ApproxTokens(s: string): (n: nat)
    ensures n >= 1
    ensures |s| <= 4 * n && (s != "" ==> 4 * (n - 1) < |s|)
  {
    var n := (|s| + 3) / 4;
    if n < 1 then 1 else n
  }

  function Tokens(ms: seq<Message>): nat {
    if ms == [] then 0 else ApproxTokens(ms[0].content) + Tokens(ms[1..])
  }

  function Total(structured: string, ms: seq<Message>, summary: string): nat {
    ApproxTokens(structured) + ApproxTokens(summary) + Tokens(ms)
  }

  /** Python's `s[-w:]`: with a zero this is all of `s`, with a negative `w` all but the first ones. */
  function Window<T>(s: seq<T>, w: int): seq<T> {
    if w > 0 then (if w >= |s| then s else s[|s| - w..])
    else if -w <= |s| then s[-w..]
    else []
  }

  function Capped(summary: string, cap: int): string {
    if ApproxTokens(summary) > cap then Prefix(summary, cap * 4) else summary
  }

  /** How many of the oldest messages must go. */
  function Dropped(structured: string, ms: seq<Message>, summary: string, budget: int): (k: nat)
    ensures k <= |ms|
  {
    if ms == [] || Total(structured, ms, summary) <= budget then 0
    else 1 + Dropped(structured, ms[1..], summary, budget)
  }

  /** What is left fits, and any more would not. */
  lemma {:induction false} DroppedIsLeast(structured: string, ms: seq<Message>, summary: string, budget: int)
    ensures var k := Dropped(structured, ms, summary, budget);
      && (k < |ms| ==> Total(structured, ms[k..], summary) <= budget)
      && (forall j :: 0 <= j < k ==> Total(structured, ms[j..], summary) > budget)
    decreases |ms|
  {
    hide Total;
    assert ms[0..] == ms;
    if ms != [] && Total(structured, ms, summary) > budget {
      DroppedIsLeast(structured, ms[1..], summary, budget);
      var k := Dropped(structured, ms, summary, budget);
      assert ms[1..][k - 1..] == ms[k..];
      forall j | 0 <= j < k
        ensures Total(structured, ms[j..], summary) > budget
      {
        if j > 0 {
          assert ms[1..][j - 1..] == ms[j..];
        }
      }
    }
  }

  function Kept(structured: string, summary: string, messages: seq<Message>, limits: Limits): seq<Message> {
    var ms := Window(messages, limits.window);
    ms[Dropped(structured, ms, Capped(summary, limits.summaryCap), limits.budget)..]
  }

  function Room(structured: string, kept: seq<Message>, budget: int): nat {
    var room := budget - ApproxTokens(structured) - Tokens(kept);
    if room < 0 then 0 else room
  }

  function FinalSummary(structured: string, summary: string, kept: seq<Message>, limits: Limits): string {
    var capped := Capped(summary, limits.summaryCap);
    if Total(structured, kept, capped) > limits.budget
      then Prefix(capped, Room(structured, kept, limits.budget) * 4) else capped
  }

  function Built(structured: string, summary: string, messages: seq<Message>, limits: Limits): Payload {
    var kept := Kept(structured, summary, messages, limits);
    var final := FinalSummary(structured, summary, kept, limits);
    Payload(final, kept, Total(structured, kept, final))
  }

  method Build(structured: string, contextSummary: string, messages: seq<Message>, limits: Limits) returns (p: Payload)
    ensures p == Built(structured, contextSummary, messages, limits)
  {
    var summary := contextSummary;
    if ApproxTokens(summary) > limits.summaryCap {
      summary := Prefix(summary, limits.summaryCap * 4);
    }
    assert summary == Capped(contextSummary, limits.summaryCap);
    hide Capped, Window, Total, Prefix, Dropped, ApproxTokens, Tokens;
    var recent := TrimOldest(structured, Window(messages, limits.window), summary, limits.budget);
    if Total(structured, recent, summary) > limits.budget {
      var room := limits.budget - ApproxTokens(structured) - Tokens(recent);
      if room < 0 {
        room := 0;
      }
      summary := Prefix(summary, room * 4);
    }
    p := Payload(summary, recent, Total(structured, recent, summary));
  }

  /** The trimming loop: the oldest message goes while the total is over the budget. */
  method TrimOldest(structured: string, ms: seq<Message>, summary: string, budget: int) returns (recent: seq<Message>)
    ensures recent == ms[Dropped(structured, ms, summary, budget)..]
  {
    hide Total;
    recent := ms;
    ghost var gone := 0;
    while recent != [] && Total(structured, recent, summary) > budget
      invariant gone <= |ms| && recent == ms[gone..]
      invariant Dropped(structured, ms, summary, budget) == gone + Dropped(structured, recent, summary, budget)
      decreases |recent|
    {
      recent := recent[1..];
      gone := gone + 1;
    }
  }

  // ---- What an envelope is --------------------------------------------------------------------

  lemma {:induction false} TokensOfSuffix(ms: seq<Message>, k: nat)
    requires k <= |ms|
    ensures Tokens(ms[k..]) <= Tokens(ms)
    ensures k > 0 ==> Tokens(ms[k..]) < Tokens(ms)
  {
    if k > 0 {
      assert ms[1..][k - 1..] == ms[k..];
      TokensOfSuffix(ms[1..], k - 1);
    }
  }

  /** Messages are only kept when they fit. */
  lemma KeptFit(structured: string, summary: string, messages: seq<Message>, limits: Limits)
    ensures var kept := Kept(structured, summary, messages, limits);
      kept != [] ==> Total(structured, kept, Capped(summary, limits.summaryCap)) <= limits.budget
  {
    DroppedIsLeast(structured, Window(messages, limits.window), Capped(summary, limits.summaryCap), limits.budget);
  }

  /**
   The messages kept are the longest end of the window that fits beside the capped summary; the
   summary is cut below its cap only when no message is kept.
   */
  lemma LongestSuffixThatFits(structured: string, summary: string, messages: seq<Message>, limits: Limits, j: nat)
    requires j < |Window(messages, limits.window)|
    ensures var p, ms := Built(structured, summary, messages, limits), Window(messages, limits.window);
      var capped := Capped(summary, limits.summaryCap);
      && p.recent <= ms[|ms| - |p.recent|..] && |p.recent| <= |ms|
      && (Total(structured, ms[j..], capped) <= limits.budget <==> |ms| - |p.recent| <= j)
      && p.summary <= capped && (p.recent != [] ==> p.summary == capped)
  {
    var ms, capped := Window(messages, limits.window), Capped(summary, limits.summaryCap);
    DroppedIsLeast(structured, ms, capped, limits.budget);
    var k := Dropped(structured, ms, capped, limits.budget);
    if k <= j {
      assert ms[k..][j - k..] == ms[j..];
      TokensOfSuffix(ms[k..], j - k);
    }
  }

  /** The estimate is over the budget exactly when the structured part alone leaves no room. */
  lemma OverBudgetIff(structured: string, summary: string, messages: seq<Message>, limits: Limits)
    ensures var p := Built(structured, summary, messages, limits);
      && (p.tokenEstimate > limits.budget <==> limits.budget <= ApproxTokens(structured))
      && (p.tokenEstimate > limits.budget ==>
        p.tokenEstimate == ApproxTokens(structured) + 1 && p.recent == [] && p.summary == "")
  {
    KeptFit(structured, summary, messages, limits);
  }

  /** The summary is a prefix, within its cap unless that is negative. */
  lemma CapHolds(structured: string, summary: string, messages: seq<Message>, limits: Limits)
    ensures Built(structured, summary, messages, limits).summary <= summary
    ensures limits.summaryCap >= 0 ==>
      ApproxTokens(Built(structured, summary, messages, limits).summary) <= AtLeastOne(limits.summaryCap)
  {
  }

  /** No text counts for less than one token. */
  function AtLeastOne(n: int): int {
    if n < 1 then 1 else n
  }

  predicate WithinCap(p: Payload, cap: int) {
    ApproxTokens(p.summary) <= AtLeastOne(cap)
  }

  function Repeat(n: nat): string {
    seq(n, i => 'x')
  }

  /** A cap bounds every summary exactly when it is not negative: a negative one only takes off the end. */
  lemma CapBoundsIff(cap: int)
    ensures cap >= 0 <==>
      forall structured, summary, messages, limits: Limits :: limits.summaryCap == cap ==>
        WithinCap(Built(structured, summary, messages, limits), cap)
  {
    hide Built, WithinCap, Repeat;
    if cap >= 0 {
      forall structured, summary, messages, limits: Limits | limits.summaryCap == cap
        ensures WithinCap(Built(structured, summary, messages, limits), cap)
      {
        CapMet(structured, summary, messages, limits);
      }
    } else {
      NegativeCapFails(cap);
    }
  }

  lemma CapMet(structured: string, summary: string, messages: seq<Message>, limits: Limits)
    requires limits.summaryCap >= 0
    ensures WithinCap(Built(structured, summary, messages, limits), limits.summaryCap)
  {
    CapHolds(structured, summary, messages, limits);
  }

  lemma NegativeCapFails(cap: int)
    requires cap < 0
    ensures !WithinCap(Built("", Repeat(5 - 4 * cap), [], Limits(100, 1, cap)), cap)
  {
    hide *;
    LongSummary(cap, 1, 5);
    FiveAreTwo(Built("", Repeat(5 - 4 * cap), [], Limits(100, 1, cap)), cap);
  }

  lemma FiveAreTwo(p: Payload, cap: int)
    requires cap < 0 && p.summary == Repeat(5)
    ensures !WithinCap(p, cap)
  {
  }

  lemma CappedRepeat(cap: int, n: nat)
    requires cap < 0
    ensures Capped(Repeat(n - 4 * cap), cap) == Repeat(n)
  {
    var long := Repeat(n - 4 * cap);
    assert |long| + cap * 4 == n;
    assert Prefix(long, cap * 4) == long[..n];
    assert long[..n] == Repeat(n);
  }

  lemma NothingKept(structured: string, summary: string, limits: Limits)
    ensures Kept(structured, summary, [], limits) == []
  {
    hide Capped, Dropped;
    assert Window<Message>([], limits.window) == [];
  }

  /** With a negative cap and room to spare, what is left of a long summary is what exceeds four times the cap. */
  lemma LongSummary(cap: int, window: int, n: nat)
    requires cap < 0 && n <= 8
    ensures var p := Built("", Repeat(n - 4 * cap), [], Limits(100, window, cap));
      p.recent == [] && p.summary == Repeat(n)
  {
    var limits := Limits(100, window, cap);
    CappedRepeat(cap, n);
    NothingKept("", Repeat(n - 4 * cap), limits);
    assert Total("", [], Repeat(n)) <= 100;
    hide Capped, Kept, Repeat, Total;
  }

  /** Building from an envelope's own messages and summary gives the envelope back. */
  lemma RebuildChangesNothing(structured: string, summary: string, messages: seq<Message>, limits: Limits)
    requires limits.window >= 0 && limits.summaryCap >= 0
    ensures var p := Built(structured, summary, messages, limits);
      Built(structured, p.summary, p.recent, limits) == p
  {
    var p := Built(structured, summary, messages, limits);
    KeptFit(structured, summary, messages, limits);
    CapHolds(structured, summary, messages, limits);
    assert Capped(p.summary, limits.summaryCap) == p.summary;
    assert Window(p.recent, limits.window) == p.recent;
    OverBudgetIff(structured, summary, messages, limits);
    assert p.recent[0..] == p.recent;
  }

  lemma MoreBudgetDropsLess(structured: string, ms: seq<Message>, summary: string, budget: int, more: int)
    requires budget <= more
    ensures Dropped(structured, ms, summary, more) <= Dropped(structured, ms, summary, budget)
  {
    hide Total;
    DroppedIsLeast(structured, ms, summary, budget);
    DroppedIsLeast(structured, ms, summary, more);
    var k, l := Dropped(structured, ms, summary, budget), Dropped(structured, ms, summary, more);
    assert k < |ms| ==> Total(structured, ms[k..], summary) <= more;
  }

  /** What is over the smaller budget and cut, is cut at least as short. */
  lemma MoreBudgetCutsLess(structured: string, capped: string, kept: seq<Message>, all: seq<Message>, budget: int,
      more: int)
    requires budget <= more && Tokens(kept) <= Tokens(all)
    requires all != [] ==> Total(structured, all, capped) <= more
    requires kept != [] ==> Total(structured, kept, capped) <= budget
    ensures var p := if Total(structured, kept, capped) > budget then Prefix(capped, Room(structured, kept, budget) * 4)
      else capped;
      var q := if Total(structured, all, capped) > more then Prefix(capped, Room(structured, all, more) * 4)
        else capped;
      p <= q
  {
    hide ApproxTokens;
  }

  predicate RebuildsTo(structured: string, p: Payload, limits: Limits) {
    Built(structured, p.summary, p.recent, limits) == p
  }

  /** Rebuilding never changes anything exactly when neither the window nor the cap is negative. */
  lemma RebuildIff(window: int, cap: int)
    ensures window >= 0 && cap >= 0 <==>
      forall structured, summary, messages, limits: Limits :: limits.window == window && limits.summaryCap == cap ==>
        RebuildsTo(structured, Built(structured, summary, messages, limits), limits)
  {
    hide *;
    if window >= 0 && cap >= 0 {
      forall structured, summary, messages, limits: Limits | limits.window == window && limits.summaryCap == cap
        ensures RebuildsTo(structured, Built(structured, summary, messages, limits), limits)
      {
        RebuildMet(structured, summary, messages, limits);
      }
    } else if cap < 0 {
      ShrinkingSummary(window, cap);
    } else {
      ShrinkingWindow(window, cap);
    }
  }

  lemma RebuildMet(structured: string, summary: string, messages: seq<Message>, limits: Limits)
    requires limits.window >= 0 && limits.summaryCap >= 0
    ensures RebuildsTo(structured, Built(structured, summary, messages, limits), limits)
  {
    RebuildChangesNothing(structured, summary, messages, limits);
    hide Built;
  }

  /** A negative cap takes the rest off the second time. */
  lemma ShrinkingSummary(window: int, cap: int)
    requires cap < 0
    ensures var limits := Limits(100, window, cap);
      !RebuildsTo("", Built("", Repeat(1 - 4 * cap), [], limits), limits)
  {
    LongSummary(cap, window, 1);
    CappedRepeat(cap, 0);
    CappedShort(cap);
    hide Capped, Kept, Total, Window, Dropped, ApproxTokens, Prefix, Room;
    var limits := Limits(100, window, cap);
    var p := Built("", Repeat(1 - 4 * cap), [], limits);
    assert FinalSummary("", p.summary, Kept("", p.summary, p.recent, limits), limits) <= Capped(p.summary, cap);
    assert |Repeat(1)| == 1;
  }

  lemma CappedShort(cap: int)
    requires cap < 0
    ensures Capped(Repeat(1), cap) == []
  {
  }

  /** So does a negative window. */
  lemma ShrinkingWindow(window: int, cap: int)
    requires window < 0 <= cap
    ensures var limits, ms := Limits(100, window, cap), seq(1 - window, i => Message("user", ""));
      !RebuildsTo("", Built("", "", ms, limits), limits)
  {
    var limits, ms := Limits(100, window, cap), seq(1 - window, i => Message("user", ""));
    assert Window(ms, window) == [Message("user", "")];
    assert [Message("user", "")][0..] == [Message("user", "")];
    assert Tokens([Message("user", "")]) == 1;
    assert Capped("", cap) == "";
    assert Kept("", "", ms, limits) == [Message("user", "")];
    assert Window([Message("user", "")], window) == [];
  }

  /** A larger budget never loses anything a smaller one kept. */
  lemma MoreBudgetKeepsMore(structured: string, summary: string, messages: seq<Message>, limits: Limits, more: Limits)
    requires more == limits.(budget := more.budget) && limits.budget <= more.budget
    ensures var p, q := Built(structured, summary, messages, limits), Built(structured, summary, messages, more);
      && |p.recent| <= |q.recent| && p.recent == q.recent[|q.recent| - |p.recent|..]
      && p.summary <= q.summary
  {
    hide Window, Capped, Dropped, Total, Prefix, Room, Tokens, ApproxTokens;
    var ms, capped := Window(messages, limits.window), Capped(summary, limits.summaryCap);
    var k, l := Dropped(structured, ms, capped, limits.budget), Dropped(structured, ms, capped, more.budget);
    MoreBudgetDropsLess(structured, ms, capped, limits.budget, more.budget);
    assert ms[k..] == ms[l..][k - l..];
    TokensOfSuffix(ms[l..], k - l);
    KeptFit(structured, summary, messages, more);
    KeptFit(structured, summary, messages, limits);
    MoreBudgetCutsLess(structured, capped, ms[k..], ms[l..], limits.budget, more.budget);
  }

  /**
   The window bounds the number of messages exactly when it is at least one: a window of 0 keeps
   every message, and a negative one all but the first few.
   */
  lemma WindowBoundsIff(w: int)
    ensures w >= 1 <==> forall ms: seq<Message> :: |Window(ms, w)| <= if w < 0 then 0 else w
  {
    if w < 1 {
      var ms := seq(1 - w, i => Message("user", ""));
      assert |Window(ms, w)| == 1;
    }
  }

  // ---- The working profile --------------------------------------------------------------------

  /** Is the word there already, whatever its case? */
  predicate Seen(words: seq<string>, w: string) {
    exists i :: 0 <= i < |words| && Lower(words[i]) == Lower(w)
  }

  function Add(words: seq<string>, w: string): seq<string> {
    if Seen(words, w) then words else words + [w]
  }

  function Union(existing: seq<string>, incoming: seq<string>): seq<string> {
    if incoming == [] then existing
    else Add(Union(existing, incoming[..|incoming| - 1]), incoming[|incoming| - 1])
  }

  method UnionCi(existing: seq<string>, incoming: seq<string>) returns (out: seq<string>)
    ensures out == Union(existing, incoming)
  {
    out := existing;
    var seen := set i | 0 <= i < |out| :: Lower(out[i]);
    for k := 0 to |incoming|
      invariant out == Union(existing, incoming[..k])
      invariant forall w :: w in seen <==> exists i :: 0 <= i < |out| && Lower(out[i]) == w
    {
      assert incoming[..k + 1][..k] == incoming[..k];
      var x := incoming[k];
      if Lower(x) !in seen {
        ghost var before := out;
        out := out + [x];
        seen := seen + {Lower(x)};
        assert forall i :: 0 <= i < |before| ==> out[i] == before[i];
        assert out[|before|] == x;
      }
    }
    assert incoming[..|incoming|] == incoming;
  }

  lemma SeenAfterAdd(words: seq<string>, x: string, w: string)
    ensures Seen(Add(words, x), w) <==> Seen(words, w) || Lower(x) == Lower(w)
  {
    if !Seen(words, x) {
      assert (words + [x])[|words|] == x;
      if Seen(words, w) {
        var i :| 0 <= i < |words| && Lower(words[i]) == Lower(w);
        assert (words + [x])[i] == words[i];
      }
    }
  }

  lemma SeenExtend(words: seq<string>, x: string, w: string)
    ensures Seen(words + [x], w) <==> Seen(words, w) || Lower(x) == Lower(w)
  {
    assert (words + [x])[|words|] == x;
    if Seen(words, w) {
      var i :| 0 <= i < |words| && Lower(words[i]) == Lower(w);
      assert (words + [x])[i] == words[i];
    }
  }

  /** A union has the words of both and no others, and starts with the existing ones. */
  lemma {:induction false} UnionHasBoth(a: seq<string>, b: seq<string>, w: string)
    ensures a <= Union(a, b)
    ensures Seen(Union(a, b), w) <==> Seen(a, w) || Seen(b, w)
    decreases |b|
  {
    if b != [] {
      var init, x := b[..|b| - 1], b[|b| - 1];
      UnionHasBoth(a, init, w);
      SeenAfterAdd(Union(a, init), x, w);
      SeenExtend(init, x, w);
      assert init + [x] == b;
    }
  }

  /** What is new in a union is there once. */
  lemma {:induction false} UnionAddsOnce(a: seq<string>, b: seq<string>, i: nat, j: nat)
    requires |a| <= j < |Union(a, b)| && i < j
    ensures Lower(Union(a, b)[i]) != Lower(Union(a, b)[j])
    decreases |b|
  {
    if b != [] {
      var init := b[..|b| - 1];
      UnionHasBoth(a, init, "");
      if j < |Union(a, init)| {
        UnionAddsOnce(a, init, i, j);
      }
    }
  }

  lemma UnionExtend(a: seq<string>, b: seq<string>, x: string)
    ensures Union(a, b + [x]) == Add(Union(a, b), x)
  {
    assert (b + [x])[..|b|] == b;
  }

  /** Merging turn by turn is merging what the turns merge to. */
  lemma {:induction false} UnionAssociates(a: seq<string>, b: seq<string>, c: seq<string>)
    ensures Union(Union(a, b), c) == Union(a, Union(b, c))
    decreases |c|
  {
    if c != [] {
      var init, x := c[..|c| - 1], c[|c| - 1];
      UnionAssociates(a, b, init);
      UnionHasBoth(a, Union(b, init), x);
      if !Seen(Union(b, init), x) {
        UnionExtend(a, Union(b, init), x);
      }
    }
  }

  /** The same words again add nothing. */
  lemma {:induction false} UnionAbsorbs(a: seq<string>, b: seq<string>)
    requires forall k :: 0 <= k < |b| ==> Seen(a, b[k])
    ensures Union(a, b) == a
    decreases |b|
  {
    if b != [] {
      UnionAbsorbs(a, b[..|b| - 1]);
    }
  }

  /** The profile: list slots and the others. */
  datatype Profile = Profile(lists: map<string, seq<string>>, scalars: map<string, string>)

  function ListOf(p: Profile, slot: string): seq<string> {
    if slot in p.lists then p.lists[slot] else []
  }

  function MergeIcp(p: Profile, delta: Profile): Profile {
    Profile(
      p.lists + map slot | slot in delta.lists :: Union(ListOf(p, slot), delta.lists[slot]),
      p.scalars + delta.scalars)
  }

  lemma SeenSelf(b: seq<string>, k: nat)
    requires k < |b|
    ensures Seen(b, b[k])
  {
    assert Lower(b[k]) == Lower(b[k]);
  }

  lemma MergedSlot(p: Profile, d: Profile, slot: string)
    ensures ListOf(MergeIcp(p, d), slot) == Union(ListOf(p, slot), ListOf(d, slot))
    ensures MergeIcp(p, d).lists.Keys == p.lists.Keys + d.lists.Keys
  {
    assert Union(ListOf(p, slot), []) == ListOf(p, slot);
  }

  lemma UnionIdempotent(a: seq<string>, b: seq<string>)
    ensures Union(Union(a, b), b) == Union(a, b)
  {
    forall k | 0 <= k < |b|
      ensures Seen(Union(a, b), b[k])
    {
      SeenSelf(b, k);
      UnionHasBoth(a, b, b[k]);
    }
    UnionAbsorbs(Union(a, b), b);
  }

  ghost predicate SameLists(p: Profile, q: Profile) {
    p.lists.Keys == q.lists.Keys && forall slot :: slot in p.lists ==> ListOf(p, slot) == ListOf(q, slot)
  }

  lemma SameProfile(p: Profile, q: Profile)
    requires SameLists(p, q) && p.scalars == q.scalars
    ensures p == q
  {
    forall slot | slot in p.lists
      ensures slot in q.lists && p.lists[slot] == q.lists[slot]
    {
      assert slot in q.lists.Keys && ListOf(p, slot) == ListOf(q, slot);
    }
    assert p.lists == q.lists;
  }

  /** Saying the same thing twice is saying it once. */
  lemma MergeIdempotent(p: Profile, d: Profile)
    ensures MergeIcp(MergeIcp(p, d), d) == MergeIcp(p, d)
  {
    var once := MergeIcp(p, d);
    forall slot: string
      ensures ListOf(MergeIcp(once, d), slot) == ListOf(once, slot)
    {
      MergedSlot(p, d, slot);
      MergedSlot(once, d, slot);
      UnionIdempotent(ListOf(p, slot), ListOf(d, slot));
    }
    MergedSlot(once, d, "");
    MergedSlot(p, d, "");
    SameProfile(MergeIcp(once, d), once);
  }

  /** Turns can be merged in any grouping. */
  lemma MergeAssociates(p: Profile, d: Profile, e: Profile)
    ensures MergeIcp(MergeIcp(p, d), e) == MergeIcp(p, MergeIcp(d, e))
  {
    hide MergeIcp, ListOf, Union;
    var pd, de := MergeIcp(p, d), MergeIcp(d, e);
    forall slot: string
      ensures ListOf(MergeIcp(pd, e), slot) == ListOf(MergeIcp(p, de), slot)
    {
      MergedSlots(p, d, e, slot);
      UnionAssociates(ListOf(p, slot), ListOf(d, slot), ListOf(e, slot));
    }
    MergedSlots(p, d, e, "");
    MergedScalars(p, d, e);
    SameProfile(MergeIcp(pd, e), MergeIcp(p, de));
  }

  lemma MergedScalars(p: Profile, d: Profile, e: Profile)
    ensures MergeIcp(MergeIcp(p, d), e).scalars == MergeIcp(p, MergeIcp(d, e)).scalars
  {
  }

  lemma MergedSlots(p: Profile, d: Profile, e: Profile, slot: string)
    ensures var pd, de := MergeIcp(p, d), MergeIcp(d, e);
      && ListOf(MergeIcp(pd, e), slot) == Union(Union(ListOf(p, slot), ListOf(d, slot)), ListOf(e, slot))
      && ListOf(MergeIcp(p, de), slot) == Union(ListOf(p, slot), Union(ListOf(d, slot), ListOf(e, slot)))
      && MergeIcp(pd, e).lists.Keys == MergeIcp(p, de).lists.Keys
  {
    hide ListOf, Union;
    MergedSlot(p, d, slot);
    MergedSlot(d, e, slot);
    MergedSlot(MergeIcp(p, d), e, slot);
    MergedSlot(p, MergeIcp(d, e), slot);
  }

  /** The profile after a list of turns. */
  function MergeTurns(p: Profile, turns: seq<Profile>): Profile {
    if turns == [] then p else MergeIcp(MergeTurns(p, turns[..|turns| - 1]), turns[|turns| - 1])
  }

  lemma MergedScalar(p: Profile, d: Profile, slot: string)
    ensures slot in MergeIcp(p, d).scalars <==> slot in p.scalars || slot in d.scalars
    ensures slot in d.scalars ==> MergeIcp(p, d).scalars[slot] == d.scalars[slot]
    ensures slot in p.scalars && slot !in d.scalars ==> MergeIcp(p, d).scalars[slot] == p.scalars[slot]
  {
  }

  /** The turn at k gives the slot a value, and no later one does. */
  predicate GivesLast(turns: seq<Profile>, k: nat, slot: string) {
    k < |turns| && slot in turns[k].scalars && forall j :: k < j < |turns| ==> slot !in turns[j].scalars
  }

  /**
   Over any list of turns, the last one to give a single-valued slot decides it, and a slot no turn gives
   keeps what it had.
   */
  lemma {:induction false} LastTurnDecides(p: Profile, turns: seq<Profile>, slot: string, k: nat)
    ensures var m := MergeTurns(p, turns);
      && (GivesLast(turns, k, slot) ==> slot in m.scalars && m.scalars[slot] == turns[k].scalars[slot])
      && ((forall j :: 0 <= j < |turns| ==> slot !in turns[j].scalars) ==>
            (slot in m.scalars <==> slot in p.scalars)
              && (slot in p.scalars ==> m.scalars[slot] == p.scalars[slot]))
    decreases |turns|
  {
    hide MergeIcp;
    if turns != [] {
      var front, last := turns[..|turns| - 1], turns[|turns| - 1];
      LastTurnDecides(p, front, slot, k);
      MergedScalar(MergeTurns(p, front), last, slot);
      assert forall j :: 0 <= j < |front| ==> front[j] == turns[j];
    }
  }

  /** Over any list of turns, a list slot has the words it had and those of every turn, and no others. */
  lemma {:induction false} EveryTurnCounts(p: Profile, turns: seq<Profile>, slot: string, w: string)
    ensures Seen(ListOf(MergeTurns(p, turns), slot), w) <==>
      Seen(ListOf(p, slot), w) || exists k :: 0 <= k < |turns| && Seen(ListOf(turns[k], slot), w)
    decreases |turns|
  {
    hide MergeIcp, ListOf, Union, Seen;
    if turns != [] {
      var front, last := turns[..|turns| - 1], turns[|turns| - 1];
      var before := MergeTurns(p, front);
      EveryTurnCounts(p, front, slot, w);
      MergedSlot(before, last, slot);
      UnionHasBoth(ListOf(before, slot), ListOf(last, slot), w);
      assert forall k :: 0 <= k < |front| ==> front[k] == turns[k];
      if k :| 0 <= k < |front| && Seen(ListOf(front[k], slot), w) {
        assert Seen(ListOf(turns[k], slot), w);
      }
    }
  }
}
