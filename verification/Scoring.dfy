/**
 The fit of an account to the ideal customer profile (nexus/relevance/engine.py) and the weights a
 tenant's outcomes teach it (nexus/outcomes/service.py). Scores and weights are reals; `round`
 goes to the nearest, ties to even.
 */
module Scoring {
  import opened Wrappers
  import opened Sequences
  import opened Text

  datatype Axis = Industry | Size | Geo | Tech

  /** One number for each axis. */
  datatype Vec = Vec(industry: real, size: real, geo: real, tech: real)

  function At(v: Vec, a: Axis): real {
    match a
    case Industry => v.industry
    case Size => v.size
    case Geo => v.geo
    case Tech => v.tech
  }

  function Sum(v: Vec): real {
    v.industry + v.size + v.geo + v.tech
  }

  const AXES: seq<Axis> := [Industry, Size, Geo, Tech]

  const DEFAULT_WEIGHTS: Vec := Vec(0.35, 0.30, 0.15, 0.20)

  const MIN_SIGNAL: int := 5

  const LEARN_RATE: real := 0.5

  function Round(x: real): int {
    var low := x.Floor;
    var rest := x - low as real;
    if rest < 0.5 || (rest == 0.5 && low % 2 == 0) then low else low + 1
  }

  function Round4(x: real): real {
    Round(x * 10000.0) as real / 10000.0
  }

  lemma RoundClose(x: real)
    ensures -0.5 <= Round(x) as real - x <= 0.5
  {
  }

  lemma RoundMonotone(x: real, y: real)
    requires x <= y
    ensures Round(x) <= Round(y)
  {
    assert x.Floor <= y.Floor;
  }

  lemma RoundOfInt(n: int)
    ensures Round(n as real) == n
  {
  }

  // ---- Learned weights ----------------------------------------------------------------------

  datatype Stage = Sent | Replied | Meeting | Won | Lost

  datatype Outcome = Outcome(
    stage: Stage,
    industry: Option<string>,
    employeeCount: Option<int>,
    country: Option<string>,
    techCount: Option<int>)

  function Impact(s: Stage): nat {
    match s
    case Replied => 1
    case Meeting => 2
    case Won => 4
    case _ => 0
  }

  predicate Positive(o: Outcome) {
    o.stage in {Replied, Meeting, Won}
  }

  predicate HasText(s: Option<string>) {
    s.Some? && s.value != ""
  }

  predicate Known(o: Outcome, a: Axis) {
    match a
    case Industry => HasText(o.industry)
    case Size => o.employeeCount.Some?
    case Geo => HasText(o.country)
    case Tech => o.techCount.Some? && o.techCount.value > 0
  }

  function Gain(o: Outcome, a: Axis): nat {
    if Known(o, a) then Impact(o.stage) else 0
  }

  function Accrued(os: seq<Outcome>, a: Axis): nat {
    if os == [] then 0 else Accrued(os[..|os| - 1], a) + Gain(os[|os| - 1], a)
  }

  function TotalImpact(os: seq<Outcome>): nat {
    if os == [] then 0 else TotalImpact(os[..|os| - 1]) + Impact(os[|os| - 1].stage)
  }

  function Positives(os: seq<Outcome>): (r: seq<Outcome>)
    ensures forall i :: 0 <= i < |r| ==> Positive(r[i])
  {
    if os == [] then []
    else Positives(os[..|os| - 1]) + if Positive(os[|os| - 1]) then [os[|os| - 1]] else []
  }

  function AccruedVec(os: seq<Outcome>): Vec {
    Vec(Accrued(os, Industry) as real, Accrued(os, Size) as real, Accrued(os, Geo) as real, Accrued(os, Tech) as real)
  }

  function Blend(weight: real, accrued: real, total: real): real
    requires total != 0.0
  {
    (1.0 - LEARN_RATE) * weight + LEARN_RATE * (accrued / total)
  }

  /** The weights before the last rounding. */
  function Blended(accrued: Vec): Vec
    requires Sum(accrued) != 0.0
  {
    var total := Sum(accrued);
    Vec(Blend(DEFAULT_WEIGHTS.industry, accrued.industry, total),
        Blend(DEFAULT_WEIGHTS.size, accrued.size, total),
        Blend(DEFAULT_WEIGHTS.geo, accrued.geo, total),
        Blend(DEFAULT_WEIGHTS.tech, accrued.tech, total))
  }

  function OrOne(x: real): (r: real)
    ensures r != 0.0
  {
    if x == 0.0 then 1.0 else x
  }

  function Normalized(v: Vec): Vec {
    var norm := OrOne(Sum(v));
    Vec(v.industry / norm, v.size / norm, v.geo / norm, v.tech / norm)
  }

  function Rounded(v: Vec): Vec {
    Vec(Round4(v.industry), Round4(v.size), Round4(v.geo), Round4(v.tech))
  }

  function ComputedWeights(positives: seq<Outcome>): Option<Vec> {
    var accrued := AccruedVec(positives);
    if Sum(accrued) <= 0.0 then None else Some(Rounded(Normalized(Blended(accrued))))
  }

  datatype LearnedWeights = LearnedWeights(weights: Vec, learned: bool, sampleSize: nat)

  function Learned(os: seq<Outcome>): LearnedWeights {
    var positives := Positives(os);
    if TotalImpact(positives) < MIN_SIGNAL then LearnedWeights(DEFAULT_WEIGHTS, false, |positives|)
    else
      match ComputedWeights(positives)
      case None => LearnedWeights(DEFAULT_WEIGHTS, false, |positives|)
      case Some(w) => LearnedWeights(w, true, |positives|)
  }

  method ComputeWeights(positives: seq<Outcome>) returns (r: Option<Vec>)
    ensures r == ComputedWeights(positives)
  {
    var accrued: map<Axis, real> := map a: Axis | a in AXES :: 0.0;
    for i := 0 to |positives|
      invariant accrued.Keys == {Industry, Size, Geo, Tech}
      invariant forall a :: a in accrued ==> accrued[a] == Accrued(positives[..i], a) as real
    {
      assert positives[..i + 1][..i] == positives[..i];
      accrued := Accrue(accrued, positives[i]);
    }
    assert positives[..|positives|] == positives;
    r := WeightsFrom(Vec(accrued[Industry], accrued[Size], accrued[Geo], accrued[Tech]));
  }

  /** From the accrued impacts to the weights: share, blend, renormalize, round. */
  method WeightsFrom(accrued: Vec) returns (r: Option<Vec>)
    ensures r == if Sum(accrued) <= 0.0 then None else Some(Rounded(Normalized(Blended(accrued))))
  {
    hide Round4, OrOne;
    var total := accrued.industry + accrued.size + accrued.geo + accrued.tech;
    if total <= 0.0 {
      return None;
    }
    var share := Vec(accrued.industry / total, accrued.size / total, accrued.geo / total, accrued.tech / total);
    var blended := Vec(
      (1.0 - LEARN_RATE) * DEFAULT_WEIGHTS.industry + LEARN_RATE * share.industry,
      (1.0 - LEARN_RATE) * DEFAULT_WEIGHTS.size + LEARN_RATE * share.size,
      (1.0 - LEARN_RATE) * DEFAULT_WEIGHTS.geo + LEARN_RATE * share.geo,
      (1.0 - LEARN_RATE) * DEFAULT_WEIGHTS.tech + LEARN_RATE * share.tech);
    assert blended == Blended(accrued);
    var norm := OrOne(Sum(blended));
    r := Some(Vec(Round4(blended.industry / norm), Round4(blended.size / norm), Round4(blended.geo / norm),
      Round4(blended.tech / norm)));
  }

  /** The inner loop: one outcome's impact goes to every axis known on its account. */
  method Accrue(before: map<Axis, real>, o: Outcome) returns (accrued: map<Axis, real>)
    requires before.Keys == {Industry, Size, Geo, Tech}
    ensures accrued.Keys == before.Keys
    ensures forall a :: a in accrued ==> accrued[a] == before[a] + Gain(o, a) as real
  {
    accrued := before;
    var impact := Impact(o.stage) as real;
    for k := 0 to |AXES|
      invariant accrued.Keys == before.Keys
      invariant forall j :: 0 <= j < k ==> accrued[AXES[j]] == before[AXES[j]] + Gain(o, AXES[j]) as real
      invariant forall j :: k <= j < |AXES| ==> accrued[AXES[j]] == before[AXES[j]]
    {
      AxesDistinct(k);
      if Known(o, AXES[k]) {
        accrued := accrued[AXES[k] := accrued[AXES[k]] + impact];
      }
    }
    AllAxes();
  }

  lemma AxesDistinct(k: nat)
    requires k < |AXES|
    ensures forall j :: 0 <= j < |AXES| && j != k ==> AXES[j] != AXES[k]
  {
  }

  lemma AllAxes()
    ensures AXES[0] == Industry && AXES[1] == Size && AXES[2] == Geo && AXES[3] == Tech
  {
  }

  lemma BlendedShape(accrued: Vec)
    requires Sum(accrued) > 0.0
    requires accrued.industry >= 0.0 && accrued.size >= 0.0 && accrued.geo >= 0.0 && accrued.tech >= 0.0
    ensures Sum(Blended(accrued)) == 1.0 && Normalized(Blended(accrued)) == Blended(accrued)
    ensures forall a :: At(Blended(accrued), a) >= At(DEFAULT_WEIGHTS, a) / 2.0
    ensures forall a :: At(Blended(accrued), a) >= At(DEFAULT_WEIGHTS, a) <==>
      At(accrued, a) >= At(DEFAULT_WEIGHTS, a) * Sum(accrued)
  {
    var t := Sum(accrued);
    assert accrued.industry / t + accrued.size / t + accrued.geo / t + accrued.tech / t == 1.0;
    forall a: Axis
      ensures At(Blended(accrued), a) >= At(DEFAULT_WEIGHTS, a) / 2.0
      ensures At(Blended(accrued), a) >= At(DEFAULT_WEIGHTS, a) <==> At(accrued, a) >= At(DEFAULT_WEIGHTS, a) * t
    {
      QuotientBounds(At(accrued, a), t, At(DEFAULT_WEIGHTS, a));
    }
  }

  lemma QuotientBounds(x: real, t: real, d: real)
    requires x >= 0.0 && t > 0.0
    ensures x / t >= 0.0
    ensures x / t >= d <==> x >= d * t
  {
    var q := x / t;
    assert x == q * t;
    if q >= d {
      assert q * t >= d * t;
    } else {
      assert q * t < d * t;
    }
  }

  /**
   Weights are learned exactly when the positive outcomes carry the minimum signal and some axis is
   known on one of them; then before rounding they sum to 1 and each is at least half its default,
   above it exactly when its axis took more than its default share.
   */
  lemma LearnedWeightsShape(os: seq<Outcome>)
    ensures var ps := Positives(os); var accrued := AccruedVec(ps);
      && (Learned(os).learned <==> TotalImpact(ps) >= MIN_SIGNAL && exists i, a :: 0 <= i < |ps| && Known(ps[i], a))
      && (Learned(os).learned ==> Sum(accrued) > 0.0)
      && (Learned(os).learned ==> Learned(os).weights == Rounded(Blended(accrued)))
      && (Learned(os).learned ==> Sum(Blended(accrued)) == 1.0)
      && (Learned(os).learned ==> forall a :: At(Blended(accrued), a) >= At(DEFAULT_WEIGHTS, a) / 2.0)
      && (Learned(os).learned ==> forall a :: At(Blended(accrued), a) >= At(DEFAULT_WEIGHTS, a) <==>
        At(accrued, a) >= At(DEFAULT_WEIGHTS, a) * Sum(accrued))
      && (!Learned(os).learned ==> Learned(os).weights == DEFAULT_WEIGHTS)
  {
    var ps := Positives(os);
    SomeAccrued(ps);
    if Sum(AccruedVec(ps)) > 0.0 {
      BlendedShape(AccruedVec(ps));
    }
  }

  lemma {:induction false} SomeAccrued(ps: seq<Outcome>)
    requires forall i :: 0 <= i < |ps| ==> Positive(ps[i])
    ensures Sum(AccruedVec(ps)) > 0.0 <==> exists i, a :: 0 <= i < |ps| && Known(ps[i], a)
  {
    if ps != [] {
      var n := |ps| - 1;
      var init, last := ps[..n], ps[n];
      SomeAccrued(init);
      assert Sum(AccruedVec(ps)) ==
        Sum(AccruedVec(init)) + (Gain(last, Industry) + Gain(last, Size) + Gain(last, Geo) + Gain(last, Tech)) as real;
      if i, a :| 0 <= i < |ps| && Known(ps[i], a) {
        if i < n {
          assert Known(init[i], a);
        }
      }
      if i, a :| 0 <= i < |init| && Known(init[i], a) {
        assert Known(ps[i], a);
      }
    }
  }

  /** After rounding the sum is within 0.0002 of 1, and no weight has fallen below half its default. */
  lemma RoundedWeightsShape(os: seq<Outcome>)
    ensures -0.0002 <= Sum(Learned(os).weights) - 1.0 <= 0.0002
    ensures forall a :: At(Learned(os).weights, a) >= At(DEFAULT_WEIGHTS, a) / 2.0
  {
    LearnedWeightsShape(os);
    if Learned(os).learned {
      var b := Blended(AccruedVec(Positives(os)));
      Round4Close(b.industry, 1750);
      Round4Close(b.size, 1500);
      Round4Close(b.geo, 750);
      Round4Close(b.tech, 1000);
      assert At(b, Industry) >= 0.175 && At(b, Size) >= 0.15 && At(b, Geo) >= 0.075 && At(b, Tech) >= 0.1;
    }
  }

  lemma Round4Close(x: real, n: int)
    ensures -0.00005 <= Round4(x) - x <= 0.00005
    ensures x >= n as real / 10000.0 ==> Round4(x) >= n as real / 10000.0
  {
    RoundClose(x * 10000.0);
    if x >= n as real / 10000.0 {
      RoundMonotone(n as real, x * 10000.0);
      RoundOfInt(n);
    }
  }

  // ---- The weights in numbers of outcomes -------------------------------------------------------

  /** The outcome's account has something on the axis: a text, a number, or at least one technology. */
  predicate Describes(o: Outcome, a: Axis) {
    match a
    case Industry => o.industry.Some? && o.industry.value != ""
    case Size => o.employeeCount.Some?
    case Geo => o.country.Some? && o.country.value != ""
    case Tech => o.techCount.Some? && o.techCount.value >= 1
  }

  /** The outcomes at a stage whose account has something on an axis. */
  function KnownAt(os: seq<Outcome>, stage: Stage, a: Axis): set<nat> {
    set i: nat | i < |os| && os[i].stage == stage && Describes(os[i], a)
  }

  function AtStage(os: seq<Outcome>, stage: Stage): set<nat> {
    set i: nat | i < |os| && os[i].stage == stage
  }

  /** What an axis has to show for itself: one for a reply, two for a meeting, four for a deal. */
  function Shown(os: seq<Outcome>, a: Axis): nat {
    |KnownAt(os, Replied, a)| + 2 * |KnownAt(os, Meeting, a)| + 4 * |KnownAt(os, Won, a)|
  }

  function ShownAtAll(os: seq<Outcome>): nat {
    |AtStage(os, Replied)| + 2 * |AtStage(os, Meeting)| + 4 * |AtStage(os, Won)|
  }

  lemma KnownDescribes(o: Outcome, a: Axis)
    ensures Known(o, a) <==> Describes(o, a)
  {
  }

  lemma CountedIn(s: set<nat>, n: nat, counted: bool)
    requires n !in s
    ensures |s + if counted then {n} else {}| == |s| + if counted then 1 else 0
  {
  }

  lemma KnownAtGrows(os: seq<Outcome>, stage: Stage, a: Axis)
    requires os != []
    ensures var n := |os| - 1;
      && n !in KnownAt(os[..n], stage, a)
      && KnownAt(os, stage, a) ==
           KnownAt(os[..n], stage, a) + if os[n].stage == stage && Describes(os[n], a) then {n} else {}
  {
    hide Describes;
  }

  lemma KnownAtNext(os: seq<Outcome>, stage: Stage, a: Axis)
    requires os != []
    ensures var n := |os| - 1;
      |KnownAt(os, stage, a)| ==
        |KnownAt(os[..n], stage, a)| + if os[n].stage == stage && Known(os[n], a) then 1 else 0
  {
    hide Known, Describes, KnownAt;
    var n := |os| - 1;
    KnownDescribes(os[n], a);
    KnownAtGrows(os, stage, a);
    CountedIn(KnownAt(os[..n], stage, a), n, os[n].stage == stage && Describes(os[n], a));
  }

  lemma AtStageGrows(os: seq<Outcome>, stage: Stage)
    requires os != []
    ensures var n := |os| - 1;
      && n !in AtStage(os[..n], stage)
      && AtStage(os, stage) == AtStage(os[..n], stage) + if os[n].stage == stage then {n} else {}
  {
  }

  lemma AtStageNext(os: seq<Outcome>, stage: Stage)
    requires os != []
    ensures var n := |os| - 1;
      |AtStage(os, stage)| == |AtStage(os[..n], stage)| + if os[n].stage == stage then 1 else 0
  {
    hide AtStage;
    var n := |os| - 1;
    AtStageGrows(os, stage);
    CountedIn(AtStage(os[..n], stage), n, os[n].stage == stage);
  }

  lemma {:induction false} AccruedIsShown(os: seq<Outcome>, a: Axis)
    ensures Accrued(os, a) == Shown(os, a)
  {
    hide KnownAt, Known;
    if os == [] {
      NothingShown(a);
    } else {
      AccruedIsShown(os[..|os| - 1], a);
      KnownAtNext(os, Replied, a);
      KnownAtNext(os, Meeting, a);
      KnownAtNext(os, Won, a);
    }
  }

  lemma NothingShown(a: Axis)
    ensures Shown([], a) == 0 && ShownAtAll([]) == 0
  {
    assert KnownAt([], Replied, a) == {} && KnownAt([], Meeting, a) == {} && KnownAt([], Won, a) == {};
    assert AtStage([], Replied) == {} && AtStage([], Meeting) == {} && AtStage([], Won) == {};
  }

  lemma {:induction false} ImpactIsShown(os: seq<Outcome>)
    ensures TotalImpact(os) == ShownAtAll(os)
    ensures |Positives(os)| == |AtStage(os, Replied)| + |AtStage(os, Meeting)| + |AtStage(os, Won)|
  {
    hide AtStage;
    if os == [] {
      NothingShown(Industry);
      NobodyAtStage();
    } else {
      ImpactIsShown(os[..|os| - 1]);
      AtStageNext(os, Replied);
      AtStageNext(os, Meeting);
      AtStageNext(os, Won);
    }
  }

  lemma NobodyAtStage()
    ensures forall stage :: AtStage([], stage) == {}
  {
  }

  function DefaultWeight(a: Axis): real {
    match a
    case Industry => 0.35
    case Size => 0.30
    case Geo => 0.15
    case Tech => 0.20
  }

  /**
   Weights are learned exactly when the outcomes show at least five in all and some axis shows anything; then
   an axis weighs, to four digits, half its default and half its share of what all axes show. Else it weighs
   its default. The sample is the replies, meetings and deals.
   */
  lemma LearnedByShares(os: seq<Outcome>, a: Axis)
    ensures var all := Shown(os, Industry) + Shown(os, Size) + Shown(os, Geo) + Shown(os, Tech);
      && (Learned(os).learned <==> ShownAtAll(os) >= 5 && all > 0)
      && (Learned(os).learned ==>
            At(Learned(os).weights, a) == Round4(0.5 * DefaultWeight(a) + 0.5 * (Shown(os, a) as real / all as real)))
      && (!Learned(os).learned ==> At(Learned(os).weights, a) == DefaultWeight(a))
      && Learned(os).sampleSize == |AtStage(os, Replied)| + |AtStage(os, Meeting)| + |AtStage(os, Won)|
  {
    var ps := Positives(os);
    AccruedAll(os);
    ImpactIsShown(os);
    SumsOfPositives(os, a);
    LearnedWeightsShape(os);
    hide Positives, Accrued, Shown, AtStage, TotalImpact, Round4, Known, ShownAtAll;
  }

  lemma AccruedAll(os: seq<Outcome>)
    ensures AccruedVec(Positives(os)) ==
      Vec(Shown(os, Industry) as real, Shown(os, Size) as real, Shown(os, Geo) as real, Shown(os, Tech) as real)
  {
    hide Positives, Accrued, Shown;
    forall a: Axis
      ensures Accrued(Positives(os), a) == Shown(os, a)
    {
      SumsOfPositives(os, a);
      AccruedIsShown(os, a);
    }
    assert Accrued(Positives(os), Industry) == Shown(os, Industry);
  }

  // ---- The order of the outcomes does not matter ------------------------------------------------

  lemma {:induction false} SumsWithout(os: seq<Outcome>, i: nat, a: Axis)
    requires i < |os|
    ensures Accrued(os, a) == Accrued(Removed(os, i), a) + Gain(os[i], a)
    ensures TotalImpact(os) == TotalImpact(Removed(os, i)) + Impact(os[i].stage)
    ensures |Positives(os)| == |Positives(Removed(os, i))| + if Positive(os[i]) then 1 else 0
    decreases |os|
  {
    hide Gain, Impact, Positive;
    var n := |os| - 1;
    if i == n {
      assert Removed(os, i) == os[..n];
    } else {
      SumsWithout(os[..n], i, a);
      RemovedBeforeLast(os, i);
    }
  }

  lemma {:induction false} SumsOfPositives(os: seq<Outcome>, a: Axis)
    ensures Accrued(Positives(os), a) == Accrued(os, a)
    ensures TotalImpact(Positives(os)) == TotalImpact(os)
  {
    if os != [] {
      var init, last := os[..|os| - 1], os[|os| - 1];
      SumsOfPositives(init, a);
      var ps := Positives(init);
      assert (ps + [last])[..|ps|] == ps && ps + [] == ps;
    }
  }

  lemma {:induction false} SumsOfMultiset(p: seq<Outcome>, q: seq<Outcome>, a: Axis)
    requires multiset(p) == multiset(q)
    ensures Accrued(p, a) == Accrued(q, a) && TotalImpact(p) == TotalImpact(q) && |Positives(p)| == |Positives(q)|
    decreases |p|
  {
    if p == [] {
      assert |multiset(q)| == 0;
    } else {
      var i := MatchLast(p, q);
      SumsOfMultiset(p[..|p| - 1], Removed(q, i), a);
      SumsWithout(q, i, a);
    }
  }

  /** The weights depend on which outcomes there are, not on their order; lost and sent ones do not matter. */
  lemma OrderIrrelevant(p: seq<Outcome>, q: seq<Outcome>)
    requires multiset(Positives(p)) == multiset(Positives(q)) || multiset(p) == multiset(q)
    ensures Learned(p) == Learned(q)
  {
    forall a: Axis
      ensures Accrued(Positives(p), a) == Accrued(Positives(q), a)
      ensures TotalImpact(Positives(p)) == TotalImpact(Positives(q)) && |Positives(p)| == |Positives(q)|
    {
      if multiset(p) == multiset(q) {
        SumsOfMultiset(p, q, a);
        SumsOfPositives(p, a);
        SumsOfPositives(q, a);
      } else {
        SumsOfMultiset(Positives(p), Positives(q), a);
        assert |multiset(Positives(p))| == |Positives(p)| && |multiset(Positives(q))| == |Positives(q)|;
      }
    }
    assert Accrued(Positives(p), Industry) == Accrued(Positives(q), Industry);
    assert AccruedVec(Positives(p)) == AccruedVec(Positives(q));
  }

  // ---- The band score -----------------------------------------------------------------------------

  const UNBOUNDED: int := 1_000_000_000

  function OrElse(x: Option<int>, d: int): int {
    if x.Some? then x.value else d
  }

  function BandScore(value: Option<int>, lo: Option<int>, hi: Option<int>): real {
    if value.None? || (lo.None? && hi.None?) then 0.5
    else
      var low, high, v := OrElse(lo, 0), OrElse(hi, UNBOUNDED), value.value;
      if low <= v <= high then 1.0
      else
        var width := if high - low < 1 then 1 else high - low;
        var dist := if v < low then low - v else v - high;
        var s := 1.0 - dist as real / width as real;
        if s < 0.0 then 0.0 else s
  }

  lemma DivMonotone(a: int, b: int, w: int)
    requires a <= b && w >= 1
    ensures a as real / w as real <= b as real / w as real
    ensures a > 0 ==> a as real / w as real > 0.0
    ensures a as real / w as real >= 1.0 <==> a >= w
  {
    QuotientBounds((b - a) as real, w as real, 0.0);
    assert b as real / w as real == a as real / w as real + (b - a) as real / w as real;
    var q := a as real / w as real;
    assert q * w as real == a as real;
    if q >= 1.0 {
      assert q * w as real >= w as real;
    } else {
      assert q * w as real < w as real;
    }
  }

  /**
   The band score is between 0 and 1; it is 1 exactly in the band and 0 exactly one band width or
   more away; and it never rises as the headcount moves away from the band, on either side.
   */
  lemma BandScoreShape(v: int, w: int, lo: Option<int>, hi: Option<int>)
    requires lo.Some? || hi.Some?
    ensures var low, high := OrElse(lo, 0), OrElse(hi, UNBOUNDED);
      var s, t := BandScore(Some(v), lo, hi), BandScore(Some(w), lo, hi);
      && 0.0 <= s <= 1.0
      && (s == 1.0 <==> low <= v <= high)
      && (low <= high && v < low ==> (s == 0.0 <==> low - v >= (if high == low then 1 else high - low)))
      && (low <= high && v > high ==> (s == 0.0 <==> v - high >= (if high == low then 1 else high - low)))
      && (v <= w <= high ==> s <= t)
      && (low <= w <= v ==> s <= t)
  {
    var low, high := OrElse(lo, 0), OrElse(hi, UNBOUNDED);
    var width := if high - low < 1 then 1 else high - low;
    DivMonotone(low - v, low - v, width);
    DivMonotone(v - high, v - high, width);
    DivMonotone(low - w, low - w, width);
    DivMonotone(w - high, w - high, width);
    if v <= w {
      DivMonotone(low - w, low - v, width);
    } else {
      DivMonotone(w - high, v - high, width);
    }
  }

  /** With no band, or no headcount, the score is neutral; a band without an upper end goes up to a billion. */
  lemma BandScoreEnds(v: int, lo: int)
    ensures BandScore(None, Some(lo), Some(v)) == BandScore(Some(v), None, None) == 0.5
    ensures BandScore(Some(v), Some(lo), None) == 1.0 <==> lo <= v <= 1_000_000_000
    ensures BandScore(Some(v), None, Some(lo)) == 1.0 <==> 0 <= v <= lo
  {
    BandScoreShape(v, v, Some(lo), None);
    BandScoreShape(v, v, None, Some(lo));
  }

  /** Outside the band every step away costs the same, a part of the band's width, until nothing is left. */
  lemma BandFallsEvenly(v: int, low: int, high: int)
    requires low <= high
    ensures var width := if low == high then 1 else high - low;
      && (high <= v < high + width ==>
            BandScore(Some(v), Some(low), Some(high)) - BandScore(Some(v + 1), Some(low), Some(high)) ==
              1.0 / width as real)
      && (low - width < v <= low ==>
            BandScore(Some(v), Some(low), Some(high)) - BandScore(Some(v - 1), Some(low), Some(high)) ==
              1.0 / width as real)
  {
    var width := if low == high then 1 else high - low;
    if high <= v < high + width {
      OneMore(v - high, width);
    }
    if low - width < v <= low {
      OneMore(low - v, width);
    }
  }

  lemma OneMore(d: nat, w: nat)
    requires d + 1 <= w
    ensures (d + 1) as real / w as real == d as real / w as real + 1.0 / w as real
    ensures 0.0 <= d as real / w as real <= (d + 1) as real / w as real <= 1.0
  {
    DivMonotone(d, d + 1, w);
    DivMonotone(d + 1, w, w);
    DivMonotone(0, d, w);
    assert w as real / w as real == 1.0;
  }

  // ---- The fit --------------------------------------------------------------------------------------

  datatype Icp = Icp(
    industries: seq<string>,
    employeeMin: Option<int>,
    employeeMax: Option<int>,
    countries: seq<string>,
    requiredTech: seq<string>,
    weights: map<Axis, real>)

  datatype Account = Account(industry: Option<string>, employeeCount: Option<int>, country: Option<string>,
      techStack: seq<string>)

  predicate InList(words: seq<string>, w: Option<string>) {
    HasText(w) && exists i :: 0 <= i < |words| && Lower(words[i]) == Lower(w.value)
  }

  function ListScore(words: seq<string>, w: Option<string>): real {
    if words == [] then 0.5 else if InList(words, w) then 1.0 else 0.0
  }

  function Hits(required: seq<string>, stack: seq<string>): (n: nat)
    ensures n <= |required|
  {
    if required == [] then 0
    else Hits(required[..|required| - 1], stack) + if InStack(stack, required[|required| - 1]) then 1 else 0
  }

  predicate InStack(stack: seq<string>, t: string) {
    exists i :: 0 <= i < |stack| && Lower(stack[i]) == Lower(t)
  }

  function TechScore(required: seq<string>, stack: seq<string>): real {
    if required == [] then 0.5 else Hits(required, stack) as real / |required| as real
  }

  function SubScores(icp: Icp, account: Account): Vec {
    Vec(ListScore(icp.industries, account.industry),
        BandScore(account.employeeCount, icp.employeeMin, icp.employeeMax),
        ListScore(icp.countries, account.country),
        TechScore(icp.requiredTech, account.techStack))
  }

  /** Explicit weights come before learned ones, and those before the defaults. */
  function WeightsFor(icp: Icp, learned: Option<Vec>): Vec {
    var base := if learned.Some? then learned.value else DEFAULT_WEIGHTS;
    Vec(if Industry in icp.weights then icp.weights[Industry] else base.industry,
        if Size in icp.weights then icp.weights[Size] else base.size,
        if Geo in icp.weights then icp.weights[Geo] else base.geo,
        if Tech in icp.weights then icp.weights[Tech] else base.tech)
  }

  function Dot(w: Vec, s: Vec): real {
    s.industry * w.industry + s.size * w.size + s.geo * w.geo + s.tech * w.tech
  }

  function WeightedScore(w: Vec, s: Vec): int {
    Round(Dot(w, s) / OrOne(Sum(w)) * 100.0)
  }

  function IcpFit(icp: Option<Icp>, account: Account, learned: Option<Vec>): int {
    if icp.None? then 50 else WeightedScore(WeightsFor(icp.value, learned), SubScores(icp.value, account))
  }

  /** `score_icp_fit`: the sub-scores are filled in one after the other. */
  method ScoreIcpFit(icp: Option<Icp>, account: Account, learned: Option<Vec>)
    returns (score: int, sub: map<Axis, real>)
    ensures score == IcpFit(icp, account, learned)
    ensures icp.None? ==> sub == map[]
    ensures icp.Some? ==>
      sub.Keys == {Industry, Size, Geo, Tech} && forall a :: a in sub ==> sub[a] == At(SubScores(icp.value, account), a)
  {
    if icp.None? {
      return 50, map[];
    }
    hide BandScore, InList, Round, InStack, WeightsFor;
    var p := icp.value;
    var weights := WeightsFor(p, learned);
    sub := map[];
    if p.industries == [] {
      sub := sub[Industry := 0.5];
    } else if InList(p.industries, account.industry) {
      sub := sub[Industry := 1.0];
    } else {
      sub := sub[Industry := 0.0];
    }
    sub := sub[Size := BandScore(account.employeeCount, p.employeeMin, p.employeeMax)];
    if p.countries == [] {
      sub := sub[Geo := 0.5];
    } else if InList(p.countries, account.country) {
      sub := sub[Geo := 1.0];
    } else {
      sub := sub[Geo := 0.0];
    }
    var tech := TechFit(p.requiredTech, account.techStack);
    sub := sub[Tech := tech];
    hide ListScore, TechScore;
    var totalWeight := OrOne(weights.industry + weights.size + weights.geo + weights.tech);
    var scores := Vec(sub[Industry], sub[Size], sub[Geo], sub[Tech]);
    assert scores == SubScores(p, account);
    hide Dot, SubScores;
    var dot := Dot(weights, scores);
    score := Round(dot / totalWeight * 100.0);
  }

  method TechFit(required: seq<string>, stack: seq<string>) returns (r: real)
    ensures r == TechScore(required, stack)
  {
    if required == [] {
      return 0.5;
    }
    var hits := 0;
    for i := 0 to |required|
      invariant hits == Hits(required[..i], stack)
    {
      assert required[..i + 1][..i] == required[..i];
      if InStack(stack, required[i]) {
        hits := hits + 1;
      }
    }
    assert required[..|required|] == required;
    r := hits as real / |required| as real;
  }

  predicate NonNegative(v: Vec) {
    v.industry >= 0.0 && v.size >= 0.0 && v.geo >= 0.0 && v.tech >= 0.0
  }

  predicate Within(v: Vec, lo: real, hi: real) {
    lo <= v.industry <= hi && lo <= v.size <= hi && lo <= v.geo <= hi && lo <= v.tech <= hi
  }

  predicate AtMost(v: Vec, u: Vec) {
    v.industry <= u.industry && v.size <= u.size && v.geo <= u.geo && v.tech <= u.tech
  }

  function Mean(w: Vec, s: Vec): real
    requires Sum(w) != 0.0
  {
    Dot(w, s) / Sum(w)
  }

  lemma ProductMonotone(a: real, b: real, w: real)
    requires a <= b && w >= 0.0
    ensures a * w <= b * w
  {
  }

  lemma DotMonotone(w: Vec, s: Vec, u: Vec)
    requires NonNegative(w) && AtMost(s, u)
    ensures Dot(w, s) <= Dot(w, u)
  {
    ProductMonotone(s.industry, u.industry, w.industry);
    ProductMonotone(s.size, u.size, w.size);
    ProductMonotone(s.geo, u.geo, w.geo);
    ProductMonotone(s.tech, u.tech, w.tech);
  }

  lemma DotConstant(w: Vec, c: real)
    ensures Dot(w, Vec(c, c, c, c)) == c * Sum(w)
  {
  }

  lemma QuotientMonotone(x: real, y: real, t: real)
    requires x <= y && t > 0.0
    ensures x / t <= y / t
  {
    QuotientBounds(y - x, t, 0.0);
    assert y / t == x / t + (y - x) / t;
  }

  lemma QuotientOfProduct(c: real, t: real)
    requires t != 0.0
    ensures (c * t) / t == c
  {
  }

  lemma MeanIsBetween(w: Vec, s: Vec, lo: real, hi: real)
    requires NonNegative(w) && Sum(w) != 0.0 && Within(s, lo, hi)
    ensures lo <= Mean(w, s) <= hi
  {
    DotConstant(w, lo);
    DotConstant(w, hi);
    DotMonotone(w, Vec(lo, lo, lo, lo), s);
    DotMonotone(w, s, Vec(hi, hi, hi, hi));
    assert Sum(w) > 0.0;
    hide Dot, Sum;
    QuotientMonotone(lo * Sum(w), Dot(w, s), Sum(w));
    QuotientMonotone(Dot(w, s), hi * Sum(w), Sum(w));
    QuotientOfProduct(lo, Sum(w));
    QuotientOfProduct(hi, Sum(w));
  }

  /** With no negative weight, and not all of them zero, the score lies between the rounded extremes. */
  lemma ScoreIsBetween(w: Vec, s: Vec, lo: real, hi: real)
    requires NonNegative(w) && Sum(w) != 0.0 && Within(s, lo, hi)
    ensures Round(lo * 100.0) <= WeightedScore(w, s) <= Round(hi * 100.0)
  {
    MeanIsBetween(w, s, lo, hi);
    hide Round, Dot, Sum;
    RoundMonotone(lo * 100.0, Mean(w, s) * 100.0);
    RoundMonotone(Mean(w, s) * 100.0, hi * 100.0);
  }

  /** A better sub-score never lowers the score. */
  lemma ScoreIsMonotone(w: Vec, s: Vec, u: Vec)
    requires NonNegative(w) && AtMost(s, u)
    ensures WeightedScore(w, s) <= WeightedScore(w, u)
  {
    var t := OrOne(Sum(w));
    DotMonotone(w, s, u);
    QuotientMonotone(Dot(w, s), Dot(w, u), t);
    RoundMonotone(Dot(w, s) / t * 100.0, Dot(w, u) / t * 100.0);
  }

  function Scaled(w: Vec, k: real): Vec {
    Vec(w.industry * k, w.size * k, w.geo * k, w.tech * k)
  }

  lemma MeanScaled(w: Vec, s: Vec, k: real)
    requires Sum(w) != 0.0 && k != 0.0
    ensures Sum(Scaled(w, k)) != 0.0 && Mean(Scaled(w, k), s) == Mean(w, s)
  {
    SumScaled(w, k);
    DotScaled(w, s, k);
    NonZeroProduct(Sum(w), k);
    hide Dot, Sum, Scaled;
    var m, t := Mean(w, s), Sum(w);
    assert Dot(w, s) == m * t;
    ProductsAssociate(m, t, k);
    QuotientOfProduct(m, t * k);
  }

  lemma ProductsAssociate(x: real, y: real, z: real)
    ensures (x * y) * z == x * (y * z)
  {
  }

  lemma SumScaled(w: Vec, k: real)
    ensures Sum(Scaled(w, k)) == Sum(w) * k
  {
  }

  /** Only the proportions of the weights count. */
  lemma ScoreIsScaleFree(w: Vec, s: Vec, k: real)
    requires Sum(w) != 0.0 && k != 0.0
    ensures WeightedScore(Scaled(w, k), s) == WeightedScore(w, s)
  {
    MeanScaled(w, s, k);
    hide Dot, Sum, Scaled, Round;
  }

  lemma NonZeroProduct(x: real, y: real)
    requires x != 0.0 && y != 0.0
    ensures x * y != 0.0
  {
  }

  lemma DotScaled(w: Vec, s: Vec, k: real)
    ensures Dot(Scaled(w, k), s) == Dot(w, s) * k
  {
  }

  lemma SubScoresInUnit(icp: Icp, account: Account)
    ensures Within(SubScores(icp, account), 0.0, 1.0)
  {
    if account.employeeCount.Some? && (icp.employeeMin.Some? || icp.employeeMax.Some?) {
      BandScoreShape(account.employeeCount.value, 0, icp.employeeMin, icp.employeeMax);
    }
    if icp.requiredTech != [] {
      var n := |icp.requiredTech|;
      DivMonotone(Hits(icp.requiredTech, account.techStack), n, n);
      QuotientBounds(Hits(icp.requiredTech, account.techStack) as real, n as real, 0.0);
    }
  }

  /** With the weights a tenant learned, and none given by hand, the fit is a score from 0 to 100. */
  lemma LearnedFitIsAPercentage(icp: Icp, account: Account, os: seq<Outcome>)
    requires icp.weights == map[]
    ensures 0 <= IcpFit(Some(icp), account, Some(Learned(os).weights)) <= 100
  {
    RoundedWeightsShape(os);
    SubScoresInUnit(icp, account);
    var w := WeightsFor(icp, Some(Learned(os).weights));
    assert w == Learned(os).weights;
    assert At(w, Industry) >= 0.175 && At(w, Size) >= 0.15 && At(w, Geo) >= 0.075 && At(w, Tech) >= 0.1;
    ScoreIsBetween(w, SubScores(icp, account), 0.0, 1.0);
    RoundOfInt(0);
    RoundOfInt(100);
  }

  // ---- The fit, axis by axis -------------------------------------------------------------------------

  /** What an axis weighs: what was set by hand, else what was learned, else what it weighs by default. */
  function EffectiveWeight(icp: Icp, learned: Option<Vec>, axis: Axis): real {
    if axis in icp.weights then icp.weights[axis]
    else if learned.Some? then At(learned.value, axis)
    else DefaultWeight(axis)
  }

  /** The account has a value, and it is one of those asked for, whatever its case. */
  predicate OneOf(words: seq<string>, w: Option<string>) {
    w.Some? && w.value != "" && exists word :: word in words && Lower(word) == Lower(w.value)
  }

  /** The positions of the technologies asked for that the account owns. */
  function Owned(required: seq<string>, stack: seq<string>): set<nat> {
    set i: nat | i < |required| && exists own :: own in stack && Lower(own) == Lower(required[i])
  }

  /** What an axis scores: a half where nothing is asked for. */
  function AxisScore(icp: Icp, account: Account, axis: Axis): real {
    match axis
    case Industry => if icp.industries == [] then 0.5 else if OneOf(icp.industries, account.industry) then 1.0 else 0.0
    case Size => BandScore(account.employeeCount, icp.employeeMin, icp.employeeMax)
    case Geo => if icp.countries == [] then 0.5 else if OneOf(icp.countries, account.country) then 1.0 else 0.0
    case Tech =>
      if icp.requiredTech == [] then 0.5
      else |Owned(icp.requiredTech, account.techStack)| as real / |icp.requiredTech| as real
  }

  lemma InListIsOneOf(words: seq<string>, w: Option<string>)
    ensures InList(words, w) <==> OneOf(words, w)
  {
    if InList(words, w) {
      var i :| 0 <= i < |words| && Lower(words[i]) == Lower(w.value);
      assert words[i] in words;
    }
  }

  lemma InStackIsOwned(stack: seq<string>, t: string)
    ensures InStack(stack, t) <==> exists own :: own in stack && Lower(own) == Lower(t)
  {
    if InStack(stack, t) {
      var i :| 0 <= i < |stack| && Lower(stack[i]) == Lower(t);
      assert stack[i] in stack;
    }
  }

  lemma {:induction false} HitsAreOwned(required: seq<string>, stack: seq<string>)
    ensures Hits(required, stack) == |Owned(required, stack)|
    decreases |required|
  {
    hide InStack, Lower;
    if required == [] {
      assert Owned(required, stack) == {};
    } else {
      var n := |required| - 1;
      HitsAreOwned(required[..n], stack);
      InStackIsOwned(stack, required[n]);
      assert Owned(required, stack) == Owned(required[..n], stack) + if InStack(stack, required[n]) then {n} else {};
    }
  }

  lemma ScoresByAxis(icp: Icp, account: Account, axis: Axis)
    ensures At(SubScores(icp, account), axis) == AxisScore(icp, account, axis)
  {
    InListIsOneOf(icp.industries, account.industry);
    InListIsOneOf(icp.countries, account.country);
    HitsAreOwned(icp.requiredTech, account.techStack);
    hide InList, OneOf, Hits, Owned, BandScore;
  }

  function EffectiveWeights(icp: Icp, learned: Option<Vec>): Vec {
    Vec(EffectiveWeight(icp, learned, Industry), EffectiveWeight(icp, learned, Size),
        EffectiveWeight(icp, learned, Geo), EffectiveWeight(icp, learned, Tech))
  }

  function AxisScores(icp: Icp, account: Account): Vec {
    Vec(AxisScore(icp, account, Industry), AxisScore(icp, account, Size),
        AxisScore(icp, account, Geo), AxisScore(icp, account, Tech))
  }

  lemma WeightsByAxis(icp: Icp, learned: Option<Vec>, axis: Axis)
    ensures At(WeightsFor(icp, learned), axis) == EffectiveWeight(icp, learned, axis)
  {
  }

  lemma VectorsByAxis(icp: Icp, account: Account, learned: Option<Vec>)
    ensures WeightsFor(icp, learned) == EffectiveWeights(icp, learned)
    ensures SubScores(icp, account) == AxisScores(icp, account)
  {
    ScoresByAxis(icp, account, Industry);
    ScoresByAxis(icp, account, Size);
    ScoresByAxis(icp, account, Geo);
    ScoresByAxis(icp, account, Tech);
    WeightsByAxis(icp, learned, Industry);
    WeightsByAxis(icp, learned, Size);
    WeightsByAxis(icp, learned, Geo);
    WeightsByAxis(icp, learned, Tech);
    hide AxisScore, EffectiveWeight, WeightsFor, SubScores;
  }

  /** A part of a whole, as a rounded percentage; a whole of nothing counts as 1. */
  function Percentage(part: real, whole: real): int {
    Round(part / (if whole == 0.0 then 1.0 else whole) * 100.0)
  }

  lemma FitIs(icp: Icp, account: Account, learned: Option<Vec>)
    ensures var w, s := WeightsFor(icp, learned), SubScores(icp, account);
      IcpFit(Some(icp), account, learned) == Percentage(Dot(w, s), Sum(w))
    ensures IcpFit(None, account, learned) == 50
  {
    hide WeightsFor, SubScores, Dot, Sum, Round;
  }

  /**
   The fit is the mean of what the axes score, weighed by what each axis weighs, as a rounded percentage;
   and without a profile it is 50.
   */
  lemma FitByAxis(icp: Icp, account: Account, learned: Option<Vec>) returns (part: real, whole: real)
    ensures var w, s := EffectiveWeights(icp, learned), AxisScores(icp, account);
      && part == s.industry * w.industry + s.size * w.size + s.geo * w.geo + s.tech * w.tech
      && whole == w.industry + w.size + w.geo + w.tech
    ensures IcpFit(Some(icp), account, learned) == Percentage(part, whole)
    ensures IcpFit(None, account, learned) == 50
  {
    hide *;
    var w, s := EffectiveWeights(icp, learned), AxisScores(icp, account);
    VectorsByAxis(icp, account, learned);
    FitIs(icp, account, learned);
    DotIs(w, s);
    part, whole := Dot(w, s), Sum(w);
  }

  lemma DotIs(w: Vec, s: Vec)
    ensures Dot(w, s) == s.industry * w.industry + s.size * w.size + s.geo * w.geo + s.tech * w.tech
    ensures Sum(w) == w.industry + w.size + w.geo + w.tech
  {
  }

  // ---- Weights given by hand -------------------------------------------------------------------------

  function PositivePart(x: real): real {
    if x > 0.0 then x else 0.0
  }

  /** The sum of the positive weights. */
  function PositiveSum(w: Vec): real {
    PositivePart(w.industry) + PositivePart(w.size) + PositivePart(w.geo) + PositivePart(w.tech)
  }

  /** The sum of the negative weights, without its sign. */
  function NegativeSum(w: Vec): real {
    PositiveSum(Scaled(w, -1.0))
  }

  /** The weights against the sign of their sum are at most a 200th of what they are divided by. */
  predicate WeightsSafe(w: Vec) {
    var t := OrOne(Sum(w));
    if t > 0.0 then 200.0 * NegativeSum(w) <= t else 200.0 * PositiveSum(w) <= -t
  }

  /** 1 on the axes with a positive weight, 0 on the others; and the other way round. */
  function Best(w: Vec): Vec {
    Vec(if w.industry > 0.0 then 1.0 else 0.0, if w.size > 0.0 then 1.0 else 0.0,
        if w.geo > 0.0 then 1.0 else 0.0, if w.tech > 0.0 then 1.0 else 0.0)
  }

  function Worst(w: Vec): Vec {
    var b := Best(w);
    Vec(1.0 - b.industry, 1.0 - b.size, 1.0 - b.geo, 1.0 - b.tech)
  }

  lemma ProductUnit(x: real, w: real)
    requires 0.0 <= x <= 1.0 && w >= 0.0
    ensures 0.0 <= x * w <= w
  {
    ProductMonotone(0.0, x, w);
    ProductMonotone(x, 1.0, w);
    assert 0.0 * w == 0.0 && 1.0 * w == w;
  }

  lemma ProductNegates(x: real, w: real)
    ensures x * -w == -(x * w)
  {
  }

  lemma ProductRange(x: real, w: real)
    requires 0.0 <= x <= 1.0
    ensures -PositivePart(-w) <= x * w <= PositivePart(w)
  {
    if w >= 0.0 {
      ProductUnit(x, w);
    } else {
      ProductUnit(x, -w);
      ProductNegates(x, w);
    }
  }

  lemma NegativeParts(w: Vec)
    ensures NegativeSum(w) ==
      PositivePart(-w.industry) + PositivePart(-w.size) + PositivePart(-w.geo) + PositivePart(-w.tech)
  {
  }

  /** A weighted sum lies between the sums of the negative and of the positive weights, and reaches both. */
  lemma DotRange(w: Vec, s: Vec)
    requires Within(s, 0.0, 1.0)
    ensures -NegativeSum(w) <= Dot(w, s) <= PositiveSum(w)
  {
    NegativeParts(w);
    hide PositivePart, NegativeSum;
    ProductRange(s.industry, w.industry);
    ProductRange(s.size, w.size);
    ProductRange(s.geo, w.geo);
    ProductRange(s.tech, w.tech);
  }

  lemma DotExtremes(w: Vec)
    ensures Dot(w, Best(w)) == PositiveSum(w) && Dot(w, Worst(w)) == -NegativeSum(w)
    ensures PositiveSum(w) - NegativeSum(w) == Sum(w)
  {
  }

  /** A rounded percentage is in range from half a point below 0 to half a point above 100. */
  lemma RoundInRangeIff(x: real)
    ensures 0 <= Round(x) <= 100 <==> -0.5 <= x <= 100.5
  {
  }

  lemma PercentBounds(d: real, t: real)
    requires t > 0.0
    ensures d / t * 100.0 >= -0.5 <==> -200.0 * d <= t
    ensures d / t * 100.0 <= 100.5 <==> 200.0 * d <= 201.0 * t
  {
    var q := d / t;
    assert d == q * t;
    if q >= -0.005 {
      ProductMonotone(-0.005, q, t);
    } else {
      assert q * t < -0.005 * t;
    }
    if q <= 1.005 {
      ProductMonotone(q, 1.005, t);
    } else {
      assert q * t > 1.005 * t;
    }
  }

  lemma PercentBoundsBelow(d: real, t: real)
    requires t < 0.0
    ensures d / t * 100.0 >= -0.5 <==> 200.0 * d <= -t
    ensures d / t * 100.0 <= 100.5 <==> -200.0 * d <= -201.0 * t
  {
    PercentBounds(-d, -t);
    var q := d / t;
    assert d == q * t;
    assert -d == q * -t;
    QuotientOfProduct(q, -t);
  }

  /** One score is in range exactly if its weighted sum is not too far on the wrong side. */
  lemma ScoreInRange(w: Vec, s: Vec)
    ensures var t := OrOne(Sum(w));
      0 <= WeightedScore(w, s) <= 100 <==>
        (if t > 0.0 then -200.0 * Dot(w, s) <= t && 200.0 * Dot(w, s) <= 201.0 * t
         else 200.0 * Dot(w, s) <= -t && -200.0 * Dot(w, s) <= -201.0 * t)
  {
    hide Dot, Sum, Round;
    var t := OrOne(Sum(w));
    RoundInRangeIff(Dot(w, s) / t * 100.0);
    if t > 0.0 {
      PercentBounds(Dot(w, s), t);
    } else {
      PercentBoundsBelow(Dot(w, s), t);
    }
  }

  /**
   Weights given by hand are not checked, nor is their sum, which is replaced by 1 when it is 0. The
   score stays in 0..100 for all sub-scores exactly when the weights of the wrong sign are that small.
   */
  lemma ScoreInRangeIff(w: Vec)
    ensures (forall s: Vec :: Within(s, 0.0, 1.0) ==> 0 <= WeightedScore(w, s) <= 100) <==> WeightsSafe(w)
  {
    DotExtremes(w);
    var t := OrOne(Sum(w));
    if WeightsSafe(w) {
      forall s: Vec | Within(s, 0.0, 1.0)
        ensures 0 <= WeightedScore(w, s) <= 100
      {
        SafeInRange(w, s);
      }
    } else {
      var s := if t > 0.0 then Worst(w) else Best(w);
      assert Within(s, 0.0, 1.0);
      ScoreInRange(w, s);
    }
  }

  lemma SafeInRange(w: Vec, s: Vec)
    requires WeightsSafe(w) && Within(s, 0.0, 1.0)
    ensures 0 <= WeightedScore(w, s) <= 100
  {
    DotRange(w, s);
    DotExtremes(w);
    ScoreInRange(w, s);
    hide Dot, PositiveSum, NegativeSum, WeightedScore;
  }

  /** A profile with something to meet on every axis, and an account that meets just some of it. */
  function ProfileWith(weights: map<Axis, real>): Icp {
    Icp(["a"], Some(1), Some(2), ["a"], ["a"], weights)
  }

  function AccountMeeting(s: Vec): Account {
    Account(
      if s.industry == 1.0 then Some("a") else None, Some(if s.size == 1.0 then 1 else 9),
      if s.geo == 1.0 then Some("a") else None, if s.tech == 1.0 then ["a"] else [])
  }

  predicate ZeroOrOne(x: real) {
    x == 0.0 || x == 1.0
  }

  lemma EveryCornerIsReached(weights: map<Axis, real>, s: Vec)
    requires ZeroOrOne(s.industry) && ZeroOrOne(s.size) && ZeroOrOne(s.geo) && ZeroOrOne(s.tech)
    ensures SubScores(ProfileWith(weights), AccountMeeting(s)) == s
  {
    ListScoreOf(s.industry);
    ListScoreOf(s.geo);
    TechScoreOf(s.tech);
    BandScoreShape(9, 9, Some(1), Some(2));
    BandScoreShape(1, 1, Some(1), Some(2));
    hide ListScore, TechScore, BandScore;
  }

  lemma ListScoreOf(x: real)
    requires ZeroOrOne(x)
    ensures ListScore(["a"], if x == 1.0 then Some("a") else None) == x
  {
    assert Lower(["a"][0]) == Lower("a");
  }

  lemma TechScoreOf(x: real)
    requires ZeroOrOne(x)
    ensures TechScore(["a"], if x == 1.0 then ["a"] else []) == x
  {
    assert Lower(["a"][0]) == Lower("a");
    assert ["a"][..0] == [];
    var stack := if x == 1.0 then ["a"] else [];
    assert Hits([], stack) == 0;
    assert Hits(["a"], stack) == if InStack(stack, "a") then 1 else 0;
  }

  /**
   So, of whole fits: with the weights `m` given by hand over the learned or default ones, every profile
   and account score in 0..100 exactly when the weights used are safe.
   */
  lemma FitInRangeIff(m: map<Axis, real>, learned: Option<Vec>)
    ensures (forall icp: Icp, account: Account :: icp.weights == m ==> 0 <= IcpFit(Some(icp), account, learned) <= 100)
      <==> WeightsSafe(WeightsFor(ProfileWith(m), learned))
  {
    var w := WeightsFor(ProfileWith(m), learned);
    if WeightsSafe(w) {
      forall icp: Icp, account: Account | icp.weights == m
        ensures 0 <= IcpFit(Some(icp), account, learned) <= 100
      {
        SubScoresInUnit(icp, account);
        assert WeightsFor(icp, learned) == w;
        SafeInRange(w, SubScores(icp, account));
      }
    } else {
      UnsafeCorner(w);
      var s := if OrOne(Sum(w)) > 0.0 then Worst(w) else Best(w);
      EveryCornerIsReached(m, s);
      hide WeightedScore, SubScores, WeightsFor;
      assert !(0 <= IcpFit(Some(ProfileWith(m)), AccountMeeting(s), learned) <= 100);
    }
  }

  lemma UnsafeCorner(w: Vec)
    requires !WeightsSafe(w)
    ensures var s := if OrOne(Sum(w)) > 0.0 then Worst(w) else Best(w);
      !(0 <= WeightedScore(w, s) <= 100)
  {
    DotExtremes(w);
    ScoreInRange(w, if OrOne(Sum(w)) > 0.0 then Worst(w) else Best(w));
    hide WeightedScore;
  }

  /** Weights that cancel out: a score of -100. */
  lemma CancellingWeights()
    ensures WeightedScore(Vec(1.0, -1.0, 0.0, 0.0), Vec(0.0, 1.0, 0.0, 0.0)) == -100
  {
    RoundOfInt(-100);
  }
}
