/**
 The sliding-window limiter in front of the auth endpoints (nexus/core/ratelimit.py): one queue of
 hit times per key, in a table that is emptied when it has too many keys.
 */
module RateLimit {

  const MAX_KEYS: nat := 50_000

  datatype Config = Config(window: int, limit: int)

  datatype Request = Request(key: string, at: real)

  /** `Broken` is the lookup of the oldest hit in an empty queue, which a limit below 1 leads to. */
  datatype Answer = Allowed | TooMany(retryAfter: int) | Broken

  type Table = map<string, seq<real>>

  /** The queue without the hits that have left the window. */
  function Fresh(c: Config, q: seq<real>, now: real): seq<real> {
    if q != [] && now - q[0] > c.window as real then Fresh(c, q[1..], now) else q
  }

  /** The table with an entry for the key. */
  function Opened(hits: Table, key: string): (t: Table)
    ensures key in t
  {
    if key in hits then hits
    else if |hits| >= MAX_KEYS then map[key := []]
    else hits[key := []]
  }

  function RetryAfter(c: Config, oldest: real, now: real): int {
    var retry := (c.window as real - (now - oldest)).Floor + 1;
    if retry < 1 then 1 else retry
  }

  function AnswerFor(c: Config, q: seq<real>, now: real): Answer {
    if |q| < c.limit then Allowed
    else if q == [] then Broken
    else TooMany(RetryAfter(c, q[0], now))
  }

  function QueueAfter(c: Config, q: seq<real>, now: real): seq<real> {
    if |q| < c.limit then q + [now] else q
  }

  /** One request: the answer, and the table it leaves. */
  function Respond(c: Config, hits: Table, req: Request): Answer {
    AnswerFor(c, Fresh(c, Opened(hits, req.key)[req.key], req.at), req.at)
  }

  function Step(c: Config, hits: Table, req: Request): Table {
    var t := Opened(hits, req.key);
    t[req.key := QueueAfter(c, Fresh(c, t[req.key], req.at), req.at)]
  }

  class Limiter {
    var hits: Table

    constructor ()
      ensures hits == map[]
    {
      hits := map[];
    }

    method Check(enabled: bool, c: Config, req: Request) returns (a: Answer)
      modifies this
      ensures !enabled ==> a == Allowed && hits == old(hits)
      ensures enabled ==> a == Respond(c, old(hits), req) && hits == Step(c, old(hits), req)
    {
      if !enabled {
        return Allowed;
      }
      if req.key !in hits {
        if |hits| >= MAX_KEYS {
          hits := map[];
        }
        hits := hits[req.key := []];
      }
      ghost var start := hits[req.key];
      assert hits == Opened(old(hits), req.key);
      while hits[req.key] != [] && req.at - hits[req.key][0] > c.window as real
        invariant req.key in hits
        invariant hits == Opened(old(hits), req.key)[req.key := hits[req.key]]
        invariant Fresh(c, hits[req.key], req.at) == Fresh(c, start, req.at)
        decreases |hits[req.key]|
      {
        hits := hits[req.key := hits[req.key][1..]];
      }
      var q := hits[req.key];
      if |q| >= c.limit {
        if q == [] {
          return Broken;
        }
        var retry := (c.window as real - (req.at - q[0])).Floor + 1;
        return TooMany(if 1 > retry then 1 else retry);
      }
      hits := hits[req.key := q + [req.at]];
      return Allowed;
    }

    /** `reset_rate_limits` */
    method Reset()
      modifies this
      ensures hits == map[]
    {
      hits := map[];
    }
  }

  // ---- Histories ------------------------------------------------------------------------------

  function TableAfter(c: Config, reqs: seq<Request>): Table {
    if reqs == [] then map[] else Step(c, TableAfter(c, reqs[..|reqs| - 1]), reqs[|reqs| - 1])
  }

  /** The answer to a request that comes after a history. */
  function Next(c: Config, past: seq<Request>, req: Request): Answer {
    Respond(c, TableAfter(c, past), req)
  }

  /** The times at which the key's requests were let through. */
  function Accepted(c: Config, reqs: seq<Request>, key: string): seq<real> {
    if reqs == [] then []
    else
      var past, last := reqs[..|reqs| - 1], reqs[|reqs| - 1];
      Accepted(c, past, key) + if last.key == key && Next(c, past, last) == Allowed then [last.at] else []
  }

  predicate Ordered(reqs: seq<Request>) {
    forall i, j :: 0 <= i < j < |reqs| ==> reqs[i].at <= reqs[j].at
  }

  function Keys(reqs: seq<Request>): set<string> {
    set i | 0 <= i < |reqs| :: reqs[i].key
  }

  /** So few keys that the table never overflows. */
  predicate FewKeys(reqs: seq<Request>) {
    |Keys(reqs)| <= 50_000
  }

  // ---- The queue is the part of the accepted hits still in the window -------------------------

  predicate Sorted(ts: seq<real>) {
    forall i, j :: 0 <= i < j < |ts| ==> ts[i] <= ts[j]
  }

  /** The queue is the end of the accepted hits; all before it had left the window by `now`. */
  ghost predicate IsTail(c: Config, q: seq<real>, acc: seq<real>, now: real) {
    && |q| <= |acc| && q == acc[|acc| - |q|..]
    && (forall i :: 0 <= i < |acc| - |q| ==> now - acc[i] > c.window as real)
  }

  function Last(reqs: seq<Request>): real
    requires reqs != []
  {
    reqs[|reqs| - 1].at
  }

  lemma {:induction false} FreshIsTail(c: Config, q: seq<real>, acc: seq<real>, now: real)
    requires IsTail(c, q, acc, now)
    ensures IsTail(c, Fresh(c, q, now), acc, now)
    ensures Fresh(c, q, now) != [] ==> now - Fresh(c, q, now)[0] <= c.window as real
    decreases |q|
  {
    if q != [] && now - q[0] > c.window as real {
      FreshIsTail(c, q[1..], acc, now);
    }
  }

  lemma SubsetSize(t: set<string>, u: set<string>)
    requires t <= u
    ensures |t| <= |u|
    ensures |t| == |u| ==> t == u
  {
    assert u == t + (u - t);
  }

  /** Without overflow the table has a queue exactly for the keys seen. */
  lemma {:induction false} TableKeys(c: Config, reqs: seq<Request>)
    requires FewKeys(reqs)
    ensures TableAfter(c, reqs).Keys == Keys(reqs)
    decreases |reqs|
  {
    if reqs != [] {
      var past, last := reqs[..|reqs| - 1], reqs[|reqs| - 1];
      KeysGrow(past, last);
      assert reqs == past + [last];
      TableKeys(c, past);
      var hits := TableAfter(c, past);
      if last.key !in hits && |hits| >= MAX_KEYS {
        assert |hits.Keys| == |hits|;
        SubsetSize(Keys(past), Keys(reqs));
        assert false;
      }
    }
  }

  lemma KeysGrow(past: seq<Request>, last: Request)
    ensures Keys(past + [last]) == Keys(past) + {last.key}
    ensures FewKeys(past + [last]) ==> FewKeys(past)
  {
    var reqs := past + [last];
    forall k | k in Keys(past) + {last.key}
      ensures k in Keys(reqs)
    {
      if k == last.key {
        assert reqs[|past|].key == k;
      } else {
        var i :| 0 <= i < |past| && past[i].key == k;
        assert reqs[i].key == k;
      }
    }
    forall k | k in Keys(reqs)
      ensures k in Keys(past) + {last.key}
    {
      var i :| 0 <= i < |reqs| && reqs[i].key == k;
      if i < |past| {
        assert past[i].key == k;
      }
    }
    SubsetSize(Keys(past), Keys(reqs));
  }

  /** A new key finds room. */
  lemma NoClear(c: Config, past: seq<Request>, req: Request)
    requires FewKeys(past + [req])
    ensures Opened(TableAfter(c, past), req.key) ==
      if req.key in TableAfter(c, past) then TableAfter(c, past) else TableAfter(c, past)[req.key := []]
  {
    KeysGrow(past, req);
    TableKeys(c, past);
    var hits := TableAfter(c, past);
    assert |hits.Keys| == |hits|;
    SubsetSize(Keys(past), Keys(past + [req]));
  }

  ghost predicate Represents(c: Config, hits: Table, acc: seq<real>, key: string, now: real) {
    && Sorted(acc)
    && (forall i :: 0 <= i < |acc| ==> acc[i] <= now)
    && (if key in hits then IsTail(c, hits[key], acc, now) else acc == [])
  }

  /** The queue the next request is judged by. */
  lemma JudgedBy(c: Config, past: seq<Request>, req: Request)
    requires Represents(c, TableAfter(c, past), Accepted(c, past, req.key), req.key, req.at)
    requires FewKeys(past + [req])
    ensures var q := Fresh(c, Opened(TableAfter(c, past), req.key)[req.key], req.at);
      && IsTail(c, q, Accepted(c, past, req.key), req.at)
      && (q != [] ==> req.at - q[0] <= c.window as real)
  {
    var hits, acc := TableAfter(c, past), Accepted(c, past, req.key);
    NoClear(c, past, req);
    FreshIsTail(c, if req.key in hits then hits[req.key] else [], acc, req.at);
  }

  lemma OrderedPrefix(past: seq<Request>, last: Request)
    requires Ordered(past + [last])
    ensures Ordered(past) && (past != [] ==> Last(past) <= last.at)
  {
    var reqs := past + [last];
    assert forall i :: 0 <= i < |past| ==> past[i] == reqs[i];
    if past != [] {
      assert reqs[|past| - 1].at <= reqs[|past|].at;
    }
  }

  lemma ExtendTail(c: Config, q: seq<real>, acc: seq<real>, now: real)
    requires IsTail(c, q, acc, now)
    ensures IsTail(c, q + [now], acc + [now], now)
  {
  }

  lemma ExtendRepresents(c: Config, t: Table, u: Table, q: seq<real>, acc: seq<real>, key: string, now: real)
    requires Represents(c, t, acc, key, now) && IsTail(c, q, acc, now) && key in u && u[key] == q + [now]
    ensures Represents(c, u, acc + [now], key, now)
  {
    ExtendTail(c, q, acc, now);
  }

  lemma StepOther(c: Config, past: seq<Request>, last: Request, key: string)
    requires key != last.key && FewKeys(past + [last])
    ensures var hits, t := TableAfter(c, past), TableAfter(c, past + [last]);
      (key in t <==> key in hits) && (key in t && key in hits ==> t[key] == hits[key])
    ensures Accepted(c, past + [last], key) == Accepted(c, past, key)
  {
    assert (past + [last])[..|past|] == past;
    NoClear(c, past, last);
  }

  lemma StepSame(c: Config, past: seq<Request>, last: Request)
    ensures var hits, t := TableAfter(c, past), TableAfter(c, past + [last]);
      var q := Fresh(c, Opened(hits, last.key)[last.key], last.at);
      last.key in t && t[last.key] == if |q| < c.limit then q + [last.at] else q
    ensures var q := Fresh(c, Opened(TableAfter(c, past), last.key)[last.key], last.at);
      Accepted(c, past + [last], last.key) ==
      if |q| < c.limit then Accepted(c, past, last.key) + [last.at] else Accepted(c, past, last.key)
  {
    assert (past + [last])[..|past|] == past;
  }

  lemma RepresentsSame(c: Config, past: seq<Request>, last: Request)
    requires Represents(c, TableAfter(c, past), Accepted(c, past, last.key), last.key, last.at)
    requires FewKeys(past + [last])
    ensures Represents(c, TableAfter(c, past + [last]), Accepted(c, past + [last], last.key), last.key, last.at)
  {
    JudgedBy(c, past, last);
    StepSame(c, past, last);
    var q := Fresh(c, Opened(TableAfter(c, past), last.key)[last.key], last.at);
    hide TableAfter, Accepted, Fresh, Opened, FewKeys, IsTail;
    if |q| < c.limit {
      var acc := Accepted(c, past, last.key);
      ExtendRepresents(c, TableAfter(c, past), TableAfter(c, past + [last]), q, acc, last.key, last.at);
    }
  }

  lemma LaterRepresents(c: Config, hits: Table, acc: seq<real>, key: string, now: real, later: real)
    requires Represents(c, hits, acc, key, now) && now <= later
    ensures Represents(c, hits, acc, key, later)
  {
  }

  lemma EmptyRepresents(c: Config, key: string, now: real)
    ensures Represents(c, TableAfter(c, []), Accepted(c, [], key), key, now)
  {
  }

  lemma OtherRepresents(c: Config, past: seq<Request>, last: Request, key: string)
    requires key != last.key && FewKeys(past + [last])
    requires Represents(c, TableAfter(c, past), Accepted(c, past, key), key, last.at)
    ensures Represents(c, TableAfter(c, past + [last]), Accepted(c, past + [last], key), key, last.at)
  {
    StepOther(c, past, last, key);
    hide TableAfter, Accepted, FewKeys, IsTail;
  }

  lemma {:induction false} TableRepresents(c: Config, reqs: seq<Request>, key: string, now: real)
    requires Ordered(reqs) && FewKeys(reqs) && (reqs != [] ==> Last(reqs) <= now)
    ensures Represents(c, TableAfter(c, reqs), Accepted(c, reqs, key), key, now)
    decreases |reqs|
  {
    hide TableAfter, Accepted, Represents, Ordered, FewKeys;
    if reqs == [] {
      EmptyRepresents(c, key, now);
    } else {
      var past, last := reqs[..|reqs| - 1], reqs[|reqs| - 1];
      assert reqs == past + [last];
      OrderedPrefix(past, last);
      KeysGrow(past, last);
      TableRepresents(c, past, key, last.at);
      if last.key == key {
        RepresentsSame(c, past, last);
      } else {
        OtherRepresents(c, past, last, key);
      }
      LaterRepresents(c, TableAfter(c, reqs), Accepted(c, reqs, key), key, last.at, now);
    }
  }

  // ---- Until the table is emptied ----------------------------------------------------------------

  /** The indices of the hits not older than the window. */
  function Recent(c: Config, acc: seq<real>, now: real): set<nat> {
    set i: nat | i < |acc| && now - acc[i] <= c.window as real
  }

  predicate Between(lo: nat, i: nat, hi: nat) {
    lo <= i < hi
  }

  function Interval(lo: nat, hi: nat): set<nat> {
    set i: nat | i < hi && Between(lo, i, hi)
  }

  lemma {:induction false} IntervalSize(lo: nat, hi: nat)
    requires lo <= hi
    ensures |Interval(lo, hi)| == hi - lo
    decreases hi - lo
  {
    if lo < hi {
      IntervalSize(lo, hi - 1);
      assert Interval(lo, hi) == Interval(lo, hi - 1) + {hi - 1};
    } else {
      assert Interval(lo, hi) == {};
    }
  }

  lemma RecentIsTail(c: Config, q: seq<real>, acc: seq<real>, now: real)
    requires IsTail(c, q, acc, now) && Sorted(acc)
    requires q != [] ==> now - q[0] <= c.window as real
    ensures |Recent(c, acc, now)| == |q|
  {
    var from := |acc| - |q|;
    forall i: nat | i < |acc|
      ensures i in Recent(c, acc, now) <==> from <= i
    {
      if from <= i {
        assert acc[from] == q[0] && acc[from] <= acc[i];
      }
    }
    assert Recent(c, acc, now) == Interval(from, |acc|);
    IntervalSize(from, |acc|);
  }

  /** While the table has not been emptied, a request is let through exactly when there is room in its window. */
  lemma FewAllowedIffRoom(c: Config, past: seq<Request>, req: Request)
    requires Ordered(past + [req]) && FewKeys(past + [req])
    ensures Next(c, past, req) == Allowed <==> |Recent(c, Accepted(c, past, req.key), req.at)| < c.limit
    ensures c.limit >= 1 ==> Next(c, past, req) != Broken
    ensures c.limit < 1 ==> Next(c, past, req) == Broken
  {
    OrderedPrefix(past, req);
    KeysGrow(past, req);
    TableRepresents(c, past, req.key, req.at);
    JudgedBy(c, past, req);
    var q := Fresh(c, Opened(TableAfter(c, past), req.key)[req.key], req.at);
    RecentIsTail(c, q, Accepted(c, past, req.key), req.at);
    if c.limit < 1 {
      NeverAccepted(c, past, req.key);
    }
  }

  lemma {:induction false} NeverAccepted(c: Config, reqs: seq<Request>, key: string)
    requires c.limit < 1
    ensures Accepted(c, reqs, key) == []
    decreases |reqs|
  {
    if reqs != [] {
      NeverAccepted(c, reqs[..|reqs| - 1], key);
    }
  }

  /** The hit let through last is a window apart from the one the limit before it. */
  lemma LastIsApart(c: Config, past: seq<Request>, last: Request, i: nat)
    requires Ordered(past + [last]) && FewKeys(past + [last])
    requires var acc := Accepted(c, past, last.key);
      Accepted(c, past + [last], last.key) != acc && i < |acc| && |acc| - i >= c.limit
    ensures last.at - Accepted(c, past, last.key)[i] > c.window as real
  {
    OrderedPrefix(past, last);
    KeysGrow(past, last);
    TableRepresents(c, past, last.key, last.at);
    JudgedBy(c, past, last);
    StepSame(c, past, last);
  }

  /** Both hits let through earlier, or the later one by the last request. */
  lemma PairGrows(c: Config, past: seq<Request>, last: Request, key: string, i: nat, j: nat)
    requires i < j < |Accepted(c, past + [last], key)|
    ensures var acc, more := Accepted(c, past, key), Accepted(c, past + [last], key);
      && i < |acc| && more[i] == acc[i]
      && (j < |acc| ==> more[j] == acc[j])
      && (j >= |acc| ==> j == |acc| && more[j] == last.at && last.key == key && more != acc)
  {
    AcceptedGrows(c, past, last, key);
    hide Accepted;
  }

  lemma {:induction false} FewSpacedApart(c: Config, reqs: seq<Request>, key: string, i: nat, j: nat)
    requires Ordered(reqs) && FewKeys(reqs)
    requires i < j < |Accepted(c, reqs, key)| && j - i >= c.limit
    ensures Accepted(c, reqs, key)[j] - Accepted(c, reqs, key)[i] > c.window as real
    decreases |reqs|
  {
    AcceptedLength(c, reqs, key);
    hide *;
    var past, last := reqs[..|reqs| - 1], reqs[|reqs| - 1];
    assert reqs == past + [last];
    OrderedPrefix(past, last);
    KeysGrow(past, last);
    PairGrows(c, past, last, key, i, j);
    if j < |Accepted(c, past, key)| {
      FewSpacedApart(c, past, key, i, j);
    } else {
      LastIsApart(c, past, last, i);
    }
  }

  lemma AcceptedLength(c: Config, reqs: seq<Request>, key: string)
    ensures Accepted(c, reqs, key) != [] ==> reqs != []
  {
  }

  lemma AcceptedGrows(c: Config, past: seq<Request>, last: Request, key: string)
    ensures var acc, more := Accepted(c, past, key), Accepted(c, past + [last], key);
      (last.key != key ==> more == acc) && (more == acc || more == acc + [last.at])
  {
    assert (past + [last])[..|past|] == past;
  }

  /** The indices of the hits in an interval as long as the window. */
  function Inside(c: Config, acc: seq<real>, from: real): set<nat> {
    set i: nat | i < |acc| && from <= acc[i] <= from + c.window as real
  }

  lemma SizeAtMost(s: set<nat>, lo: nat, hi: nat)
    requires lo <= hi && forall i :: i in s ==> Between(lo, i, hi)
    ensures |s| <= hi - lo
  {
    var span := Interval(lo, hi);
    IntervalSize(lo, hi);
    assert span == s + (span - s);
  }

  lemma SizeAtLeast(s: set<nat>, lo: nat, hi: nat)
    requires lo <= hi && forall i: nat :: Between(lo, i, hi) ==> i in s
    ensures |s| >= hi - lo
  {
    var span := Interval(lo, hi);
    IntervalSize(lo, hi);
    assert s == span + (s - span);
  }

  /** Where hits a limit apart are more than a window apart, an interval has no more than the limit. */
  lemma SpacedMeansFew(c: Config, acc: seq<real>, from: real)
    requires c.limit >= 1
    requires forall i, j :: 0 <= i < j < |acc| && j - i >= c.limit ==> acc[j] - acc[i] > c.window as real
    ensures |Inside(c, acc, from)| <= c.limit
  {
    var inside := Inside(c, acc, from);
    if inside != {} {
      var lo := Least(inside);
      forall i | i in inside
        ensures Between(lo, i, lo + c.limit)
      {
        InsideTogether(c, acc, from, lo, i);
      }
      hide Inside;
      SizeAtMost(inside, lo, lo + c.limit);
    }
  }

  lemma InsideTogether(c: Config, acc: seq<real>, from: real, i: nat, j: nat)
    requires i in Inside(c, acc, from) && j in Inside(c, acc, from)
    ensures i < |acc| && j < |acc| && acc[j] - acc[i] <= c.window as real
  {
  }

  lemma FewAtMostLimitInAnyWindow(c: Config, reqs: seq<Request>, key: string, from: real)
    requires Ordered(reqs) && FewKeys(reqs) && c.limit >= 1
    ensures |Inside(c, Accepted(c, reqs, key), from)| <= c.limit
  {
    hide *;
    var acc := Accepted(c, reqs, key);
    forall i, j | 0 <= i < j < |acc| && j - i >= c.limit
      ensures acc[j] - acc[i] > c.window as real
    {
      FewSpacedApart(c, reqs, key, i, j);
    }
    SpacedMeansFew(c, acc, from);
  }

  lemma Least(s: set<nat>) returns (m: nat)
    requires s != {}
    ensures m in s && forall i :: i in s ==> m <= i
    decreases |s|
  {
    m :| m in s;
    if exists i :: i in s && i < m {
      var below := set i | i in s && i < m;
      assert below <= s - {m};
      assert s - {m} == below + (s - {m} - below);
      var k := Least(below);
      m := k;
    }
  }

  predicate Avoids(reqs: seq<Request>, key: string) {
    forall i :: 0 <= i < |reqs| ==> reqs[i].key != key
  }

  lemma {:induction false} AvoidedKeyUntouched(c: Config, past: seq<Request>, more: seq<Request>, key: string)
    requires Avoids(more, key)
    ensures Accepted(c, past + more, key) == Accepted(c, past, key)
    decreases |more|
  {
    if more == [] {
      assert past + more == past;
    } else {
      var init, last := more[..|more| - 1], more[|more| - 1];
      assert past + more == past + init + [last];
      AvoidedKeyUntouched(c, past, init, key);
      assert (past + more)[..|past + more| - 1] == past + init;
    }
  }

  lemma AcceptedBefore(c: Config, past: seq<Request>, req: Request, i: nat)
    requires Ordered(past + [req]) && FewKeys(past + [req]) && i < |Accepted(c, past, req.key)|
    ensures Accepted(c, past, req.key)[i] <= req.at
  {
    OrderedPrefix(past, req);
    KeysGrow(past, req);
    TableRepresents(c, past, req.key, req.at);
  }

  /** A queue never holds more than the limit. */
  lemma QueueFits(c: Config, past: seq<Request>, req: Request, q: seq<real>)
    requires Ordered(past + [req]) && FewKeys(past + [req]) && c.limit >= 1
    requires IsTail(c, q, Accepted(c, past, req.key), req.at) && (q != [] ==> req.at - q[0] <= c.window as real)
    ensures |q| <= c.limit
  {
    var acc := Accepted(c, past, req.key);
    if |q| > c.limit {
      OrderedPrefix(past, req);
      KeysGrow(past, req);
      AcceptedBefore(c, past, req, |acc| - 1);
      FewSpacedApart(c, past, req.key, |acc| - |q|, |acc| - 1);
      assert false;
    }
  }

  /** The hit the refused request was judged by. */
  lemma RefusedBy(c: Config, past: seq<Request>, req: Request)
    requires Ordered(past + [req]) && FewKeys(past + [req]) && Next(c, past, req).TooMany?
    ensures var acc := Accepted(c, past, req.key);
      && Sorted(acc) && 1 <= c.limit <= |acc|
      && Next(c, past, req).retryAfter == (c.window as real - (req.at - acc[|acc| - c.limit])).Floor + 1
      && req.at - acc[|acc| - c.limit] <= c.window as real
  {
    OrderedPrefix(past, req);
    KeysGrow(past, req);
    TableRepresents(c, past, req.key, req.at);
    JudgedBy(c, past, req);
    FewAllowedIffRoom(c, past, req);
    var q := Fresh(c, Opened(TableAfter(c, past), req.key)[req.key], req.at);
    QueueFits(c, past, req, q);
  }

  lemma FewRetryAfterIsRight(c: Config, past: seq<Request>, req: Request, others: seq<Request>, again: Request)
    requires again.key == req.key && Avoids(others, req.key)
    requires Ordered(past + [req] + others + [again]) && FewKeys(past + [req] + others + [again])
    requires Next(c, past, req).TooMany?
    ensures again.at >= req.at + Next(c, past, req).retryAfter as real ==>
      Next(c, past + [req] + others, again) == Allowed
    ensures again.at <= req.at + (Next(c, past, req).retryAfter - 1) as real ==>
      Next(c, past + [req] + others, again) != Allowed
  {
    hide *;
    var acc := Accepted(c, past, req.key);
    SplitHistory(past, req, others, again);
    RefusedBy(c, past, req);
    RefusedAddsNothing(c, past, req, others);
    FewAllowedIffRoom(c, past + [req] + others, again);
    RecentAfterWait(c, acc, |acc| - c.limit, req.at, again.at, Next(c, past, req).retryAfter);
  }

  lemma RefusedAddsNothing(c: Config, past: seq<Request>, req: Request, others: seq<Request>)
    requires Next(c, past, req) != Allowed && Avoids(others, req.key)
    ensures Accepted(c, past + [req] + others, req.key) == Accepted(c, past, req.key)
  {
    assert (past + [req])[..|past|] == past;
    AvoidedKeyUntouched(c, past + [req], others, req.key);
    assert Accepted(c, past + [req], req.key) == Accepted(c, past, req.key);
  }

  lemma RecentAfterWait(c: Config, acc: seq<real>, pivot: nat, now: real, later: real, retry: int)
    requires Sorted(acc) && pivot < |acc| && retry == (c.window as real - (now - acc[pivot])).Floor + 1
    ensures later >= now + retry as real ==> |Recent(c, acc, later)| < |acc| - pivot
    ensures later <= now + (retry - 1) as real ==> |Recent(c, acc, later)| >= |acc| - pivot
  {
    var recent := Recent(c, acc, later);
    if later >= now + retry as real {
      forall i | i in recent
        ensures Between(pivot + 1, i, |acc|)
      {
        LeftWindow(c, acc, pivot, i, now, later, retry);
      }
      hide Recent;
      SizeAtMost(recent, pivot + 1, |acc|);
    } else if later <= now + (retry - 1) as real {
      forall i: nat | Between(pivot, i, |acc|)
        ensures i in recent
      {
        assert acc[pivot] <= acc[i];
      }
      hide Recent;
      SizeAtLeast(recent, pivot, |acc|);
    }
  }

  /** After the wait the pivot, and all before it, have left the window. */
  lemma LeftWindow(c: Config, acc: seq<real>, pivot: nat, i: nat, now: real, later: real, retry: int)
    requires Sorted(acc) && pivot < |acc| && retry == (c.window as real - (now - acc[pivot])).Floor + 1
    requires later >= now + retry as real && i < |acc| && later - acc[i] <= c.window as real
    ensures pivot < i
  {
    assert later - acc[pivot] > c.window as real;
  }

  lemma SplitHistory(past: seq<Request>, req: Request, others: seq<Request>, again: Request)
    requires Ordered(past + [req] + others + [again]) && FewKeys(past + [req] + others + [again])
    ensures Ordered(past + [req]) && FewKeys(past + [req])
  {
    var all := past + [req] + others + [again];
    var head := past + [req];
    assert forall i :: 0 <= i < |head| ==> head[i] == all[i];
    assert Keys(head) <= Keys(all) by {
      forall k | k in Keys(head)
        ensures k in Keys(all)
      {
        var i :| 0 <= i < |head| && head[i].key == k;
        assert all[i].key == k;
      }
    }
    SubsetSize(Keys(head), Keys(all));
  }

  // ---- The theorems ------------------------------------------------------------------------------

  /** The request makes the limiter empty its table. */
  predicate Empties(hits: Table, req: Request) {
    req.key !in hits && |hits| >= 50_000
  }

  /** The history since the table was last emptied, beginning with the request that had it emptied. */
  function Since(c: Config, reqs: seq<Request>): (r: seq<Request>)
    ensures |r| <= |reqs| && (reqs != [] ==> r != [] && r[|r| - 1] == reqs[|reqs| - 1])
  {
    if reqs == [] then []
    else
      var past, last := reqs[..|reqs| - 1], reqs[|reqs| - 1];
      if Empties(TableAfter(c, past), last) then [last] else Since(c, past) + [last]
  }

  /** The same without the last request: what that one is judged by. */
  function Before(c: Config, past: seq<Request>, req: Request): seq<Request> {
    var all := Since(c, past + [req]);
    all[..|all| - 1]
  }

  lemma SinceNext(c: Config, past: seq<Request>, req: Request)
    ensures Since(c, past + [req]) == Before(c, past, req) + [req]
    ensures Before(c, past, req) == if Empties(TableAfter(c, past), req) then [] else Since(c, past)
  {
    assert (past + [req])[..|past|] == past;
  }

  lemma TableNext(c: Config, past: seq<Request>, req: Request)
    ensures TableAfter(c, past + [req]) == Step(c, TableAfter(c, past), req)
  {
    assert (past + [req])[..|past|] == past;
  }

  lemma EmptiedOpens(c: Config, hits: Table, req: Request)
    requires Empties(hits, req)
    ensures Respond(c, hits, req) == Respond(c, map[], req) && Step(c, hits, req) == Step(c, map[], req)
  {
    assert Opened(hits, req.key) == Opened(map[], req.key);
  }

  lemma EmptyTable(c: Config)
    ensures TableAfter(c, []) == map[]
  {
  }

  /** The table, and the answer, depend on the history since the last emptying only. */
  lemma {:induction false} OnlySinceCounts(c: Config, reqs: seq<Request>)
    ensures TableAfter(c, Since(c, reqs)) == TableAfter(c, reqs)
    decreases |reqs|
  {
    if reqs != [] {
      var past, last := reqs[..|reqs| - 1], reqs[|reqs| - 1];
      assert reqs == past + [last];
      OnlySinceCounts(c, past);
      SinceNext(c, past, last);
      TableNext(c, past, last);
      TableNext(c, Before(c, past, last), last);
      EmptyTable(c);
      hide TableAfter, Since, Before, Step;
      if Empties(TableAfter(c, past), last) {
        EmptiedOpens(c, TableAfter(c, past), last);
      }
    }
  }

  lemma SameAnswer(c: Config, past: seq<Request>, req: Request)
    ensures Next(c, past, req) == Next(c, Before(c, past, req), req)
  {
    OnlySinceCounts(c, past);
    SinceNext(c, past, req);
    EmptyTable(c);
    hide TableAfter, Since, Before, Respond, Step;
    if Empties(TableAfter(c, past), req) {
      EmptiedOpens(c, TableAfter(c, past), req);
    }
  }

  /** Between two emptyings there is room for every key. */
  lemma {:induction false} SinceIsFew(c: Config, reqs: seq<Request>)
    ensures FewKeys(Since(c, reqs))
    decreases |reqs|
  {
    if reqs == [] {
      assert Keys([]) == {};
    } else {
      var past, last := reqs[..|reqs| - 1], reqs[|reqs| - 1];
      assert reqs == past + [last];
      SinceIsFew(c, past);
      SinceNext(c, past, last);
      OnlySinceCounts(c, past);
      TableKeys(c, Since(c, past));
      KeysGrow(Before(c, past, last), last);
      hide TableAfter, Since, Before;
      var hits := TableAfter(c, past);
      assert |hits.Keys| == |hits|;
      if Empties(hits, last) {
        assert Keys([]) == {};
      } else if last.key in hits {
        assert Keys(Since(c, past)) + {last.key} == Keys(Since(c, past));
      }
    }
  }

  /** With few keys it is never emptied. */
  lemma {:induction false} FewMeansAll(c: Config, reqs: seq<Request>)
    requires FewKeys(reqs)
    ensures Since(c, reqs) == reqs
    decreases |reqs|
  {
    if reqs != [] {
      var past, last := reqs[..|reqs| - 1], reqs[|reqs| - 1];
      assert reqs == past + [last];
      KeysGrow(past, last);
      FewMeansAll(c, past);
      TableKeys(c, past);
      SubsetSize(Keys(past), Keys(reqs));
      var hits := TableAfter(c, past);
      assert |hits.Keys| == |hits|;
      hide TableAfter;
    }
  }

  ghost predicate IsEnd<T>(s: seq<T>, of: seq<T>) {
    |s| <= |of| && s == of[|of| - |s|..]
  }

  lemma EndExtends<T>(s: seq<T>, of: seq<T>, x: seq<T>)
    requires IsEnd(s, of)
    ensures IsEnd(s + x, of + x)
  {
  }

  /** What was let through since the last emptying is the end of all that was let through. */
  lemma {:induction false} SinceIsEnd(c: Config, reqs: seq<Request>, key: string)
    ensures IsEnd(Since(c, reqs), reqs)
    ensures IsEnd(Accepted(c, Since(c, reqs), key), Accepted(c, reqs, key))
    decreases |reqs|
  {
    if reqs != [] {
      var past, last := reqs[..|reqs| - 1], reqs[|reqs| - 1];
      assert reqs == past + [last];
      SinceIsEnd(c, past, key);
      SinceNext(c, past, last);
      SameAnswer(c, past, last);
      AcceptedNext(c, past, last, key);
      AcceptedNext(c, Before(c, past, last), last, key);
      var x := if last.key == key && Next(c, past, last) == Allowed then [last.at] else [];
      NothingAccepted(c, key);
      hide Accepted, Since, Before, Next, TableAfter, IsEnd;
      if Empties(TableAfter(c, past), last) {
        EmptyEnd(past);
        EmptyEnd(Accepted(c, past, key));
        EndExtends([], past, [last]);
        EndExtends([], Accepted(c, past, key), x);
      } else {
        EndExtends(Since(c, past), past, [last]);
        EndExtends(Accepted(c, Since(c, past), key), Accepted(c, past, key), x);
      }
    } else {
      NothingAccepted(c, key);
    }
  }

  lemma EmptyEnd<T>(of: seq<T>)
    ensures IsEnd([], of)
  {
  }

  lemma NothingAccepted(c: Config, key: string)
    ensures Accepted(c, [], key) == []
  {
  }

  lemma AcceptedNext(c: Config, past: seq<Request>, last: Request, key: string)
    ensures Accepted(c, past + [last], key) ==
      Accepted(c, past, key) + if last.key == key && Next(c, past, last) == Allowed then [last.at] else []
  {
    assert (past + [last])[..|past|] == past;
  }

  lemma EndIsOrdered(s: seq<Request>, of: seq<Request>)
    requires Ordered(of) && IsEnd(s, of)
    ensures Ordered(s)
  {
    assert forall i :: 0 <= i < |s| ==> s[i] == of[|of| - |s| + i];
  }

  /**
   The limiter is the sliding window it stands for, at any time and with any number of clients: a request
   is let through exactly when fewer than the limit of its key's earlier requests were let through in the
   window that ends now, counting from when the table was last emptied. With up to 50000 keys that is
   never, and all count.
   */
  lemma AllowedIffRoom(c: Config, past: seq<Request>, req: Request)
    requires Ordered(past + [req])
    ensures Next(c, past, req) == Allowed <==> |Recent(c, Accepted(c, Before(c, past, req), req.key), req.at)| < c.limit
    ensures c.limit >= 1 ==> Next(c, past, req) != Broken
    ensures c.limit < 1 ==> Next(c, past, req) == Broken
    ensures FewKeys(past + [req]) ==> Before(c, past, req) == past
  {
    SinceNext(c, past, req);
    SameAnswer(c, past, req);
    SinceIsFew(c, past + [req]);
    SinceIsEnd(c, past + [req], req.key);
    EndIsOrdered(Since(c, past + [req]), past + [req]);
    FewAllowedIffRoom(c, Before(c, past, req), req);
    if FewKeys(past + [req]) {
      FewMeansAll(c, past + [req]);
    }
  }

  /** Hits let through a limit apart are more than a window apart in time, between two emptyings. */
  lemma SpacedApart(c: Config, reqs: seq<Request>, key: string, i: nat, j: nat)
    requires Ordered(reqs)
    requires i < j < |Accepted(c, Since(c, reqs), key)| && j - i >= c.limit
    ensures Accepted(c, Since(c, reqs), key)[j] - Accepted(c, Since(c, reqs), key)[i] > c.window as real
  {
    SinceIsFew(c, reqs);
    SinceIsEnd(c, reqs, key);
    EndIsOrdered(Since(c, reqs), reqs);
    FewSpacedApart(c, Since(c, reqs), key, i, j);
  }

  /**
   In no closed interval as long as the window are more than the limit let through, between two
   emptyings; with up to 50000 keys, at all.
   */
  lemma AtMostLimitInAnyWindow(c: Config, reqs: seq<Request>, key: string, from: real)
    requires Ordered(reqs) && c.limit >= 1
    ensures |Inside(c, Accepted(c, Since(c, reqs), key), from)| <= c.limit
    ensures IsEnd(Accepted(c, Since(c, reqs), key), Accepted(c, reqs, key))
    ensures FewKeys(reqs) ==> Since(c, reqs) == reqs
  {
    SinceIsFew(c, reqs);
    SinceIsEnd(c, reqs, key);
    EndIsOrdered(Since(c, reqs), reqs);
    FewAtMostLimitInAnyWindow(c, Since(c, reqs), key, from);
    if FewKeys(reqs) {
      FewMeansAll(c, reqs);
    }
  }

  /** The table is not emptied by the later requests, or by one of them. */
  lemma {:induction false} SinceSplits(c: Config, past: seq<Request>, more: seq<Request>)
    ensures Splits(Since(c, past + more), Since(c, past), more)
    decreases |more|
  {
    hide *;
    if more == [] {
      assert past + more == past;
      SplitsNone(Since(c, past), more);
    } else {
      var init, last := more[..|more| - 1], more[|more| - 1];
      assert more == init + [last];
      assert past + more == past + init + [last];
      SinceSplits(c, past, init);
      SinceNext(c, past + init, last);
      SplitStep(Since(c, past + init), Since(c, past), init, last, Empties(TableAfter(c, past + init), last));
    }
  }

  /** The end of a history is all there is since the last emptying, or goes back to what there was before it. */
  ghost predicate Splits(all: seq<Request>, early: seq<Request>, more: seq<Request>) {
    if |more| < |all| then all == early + more else IsEnd(all, more)
  }

  lemma SplitsNone(early: seq<Request>, more: seq<Request>)
    requires more == []
    ensures Splits(early, early, more)
  {
    assert early + more == early;
  }

  lemma SplitStep(all: seq<Request>, early: seq<Request>, init: seq<Request>, last: Request, emptied: bool)
    requires Splits(all, early, init)
    ensures Splits((if emptied then [] else all) + [last], early, init + [last])
  {
    if emptied {
      EmptyEnd(init);
      EndExtends([], init, [last]);
    } else if |init| < |all| {
      assert all + [last] == early + (init + [last]);
    } else {
      EndExtends(all, init, [last]);
    }
  }

  /** Has the table been emptied since the request, by one of the others or by the retry itself? */
  predicate EmptiedAfter(c: Config, past: seq<Request>, req: Request, others: seq<Request>, again: Request) {
    |Since(c, past + [req] + others + [again])| <= |others| + 1
  }

  /**
   A refused client that waits the seconds it was told, and sends nothing else, is let through, whatever
   other clients do. One that comes back a whole second or more too early is refused again, exactly
   unless the table has been emptied meanwhile.
   */
  lemma RetryAfterIsRight(c: Config, past: seq<Request>, req: Request, others: seq<Request>, again: Request)
    requires again.key == req.key && Avoids(others, req.key)
    requires Ordered(past + [req] + others + [again])
    requires Next(c, past, req).TooMany?
    ensures again.at >= req.at + Next(c, past, req).retryAfter as real ==>
      Next(c, past + [req] + others, again) == Allowed
    ensures again.at <= req.at + (Next(c, past, req).retryAfter - 1) as real ==>
      (Next(c, past + [req] + others, again) != Allowed <==> !EmptiedAfter(c, past, req, others, again))
  {
    if EmptiedAfter(c, past, req, others, again) {
      RetryAfterEmptying(c, past, req, others, again);
    } else {
      RetryWithoutEmptying(c, past, req, others, again);
    }
  }

  lemma SinceEmptying(c: Config, past: seq<Request>, req: Request, others: seq<Request>, again: Request)
    requires EmptiedAfter(c, past, req, others, again)
    ensures IsEnd(Before(c, past + [req] + others, again) + [again], others + [again])
  {
    var history := past + [req] + others;
    assert history + [again] == past + [req] + (others + [again]);
    SinceSplits(c, past + [req], others + [again]);
    SinceNext(c, history, again);
    hide Since, Before, IsEnd;
  }

  lemma NoneRecent(c: Config, now: real)
    ensures |Recent(c, [], now)| == 0
  {
    assert Recent(c, [], now) == {};
  }

  lemma RetryAfterEmptying(c: Config, past: seq<Request>, req: Request, others: seq<Request>, again: Request)
    requires again.key == req.key && Avoids(others, req.key)
    requires Ordered(past + [req] + others + [again])
    requires Next(c, past, req).TooMany? && EmptiedAfter(c, past, req, others, again)
    ensures Next(c, past + [req] + others, again) == Allowed
  {
    hide *;
    var history := past + [req] + others;
    SinceEmptying(c, past, req, others, again);
    AllowedIffRoom(c, history, again);
    OrderedHead(past, req, others, again);
    AllowedIffRoom(c, past, req);
    NothingSince(c, Before(c, history, again), others, again, req.key);
    NoneRecent(c, again.at);
  }

  lemma SinceWithoutEmptying(c: Config, past: seq<Request>, req: Request, others: seq<Request>, again: Request)
    requires !EmptiedAfter(c, past, req, others, again)
    ensures var before := Before(c, past, req);
      && Since(c, past + [req] + others + [again]) == before + [req] + others + [again]
      && Before(c, past + [req] + others, again) == before + [req] + others
  {
    var history := past + [req] + others;
    var all := history + [again];
    assert all == past + [req] + (others + [again]);
    SinceSplits(c, past + [req], others + [again]);
    SinceNext(c, history, again);
    SinceNext(c, past, req);
    hide Since, Before;
    SplitTail(Before(c, past, req), req, others, again, Since(c, all), Before(c, history, again));
  }

  lemma RetryWithoutEmptying(c: Config, past: seq<Request>, req: Request, others: seq<Request>, again: Request)
    requires again.key == req.key && Avoids(others, req.key)
    requires Ordered(past + [req] + others + [again])
    requires Next(c, past, req).TooMany? && !EmptiedAfter(c, past, req, others, again)
    ensures again.at >= req.at + Next(c, past, req).retryAfter as real ==>
      Next(c, past + [req] + others, again) == Allowed
    ensures again.at <= req.at + (Next(c, past, req).retryAfter - 1) as real ==>
      Next(c, past + [req] + others, again) != Allowed
  {
    hide *;
    var history, before := past + [req] + others, Before(c, past, req);
    var all := history + [again];
    SinceWithoutEmptying(c, past, req, others, again);
    SinceIsFew(c, all);
    SinceIsEnd(c, all, req.key);
    EndIsOrdered(Since(c, all), all);
    SameAnswer(c, past, req);
    SameAnswer(c, history, again);
    FewRetryAfterIsRight(c, before, req, others, again);
  }

  lemma SplitTail(before: seq<Request>, req: Request, others: seq<Request>, again: Request, all: seq<Request>,
      front: seq<Request>)
    requires all == before + [req] + (others + [again]) && all == front + [again]
    ensures all == before + [req] + others + [again] && front == before + [req] + others
  {
    assert all == (before + [req] + others) + [again];
    assert front == all[..|all| - 1];
  }

  lemma OrderedHead(past: seq<Request>, req: Request, others: seq<Request>, again: Request)
    requires Ordered(past + [req] + others + [again])
    ensures Ordered(past + [req])
  {
    var all, head := past + [req] + others + [again], past + [req];
    assert forall i :: 0 <= i < |head| ==> head[i] == all[i];
  }

  /** After an emptying nothing of the key is counted. */
  lemma NothingSince(c: Config, before: seq<Request>, others: seq<Request>, again: Request, key: string)
    requires IsEnd(before + [again], others + [again]) && Avoids(others, key)
    ensures Accepted(c, before, key) == []
  {
    forall i | 0 <= i < |before|
      ensures before[i].key != key
    {
      assert before[i] == (before + [again])[i] == (others + [again])[|others| - |before| + i];
    }
    AvoidedKeyUntouched(c, [], before, key);
    NothingAccepted(c, key);
    assert [] + before == before;
  }

  // ---- A table that overflows ------------------------------------------------------------------------

  /** As many different keys as one likes, none of them "k". */
  function Name(i: nat): string {
    seq(i + 1, _ => 'x')
  }

  function Flood(n: nat): seq<Request> {
    seq(n, i requires 0 <= i < n => Request(Name(i), 0.0))
  }

  const CLIENT: Request := Request("k", 0.0)

  /** One attempt that is let through, one that is not, and then the others. */
  function Flooded(n: nat): seq<Request> {
    [CLIENT] + [CLIENT] + Flood(n)
  }

  lemma FloodNext(n: nat)
    ensures Flooded(n + 1) == Flooded(n) + [Request(Name(n), 0.0)]
  {
    assert Flood(n + 1) == Flood(n) + [Request(Name(n), 0.0)];
  }

  lemma NewName(n: nat)
    ensures Name(n) !in Keys(Flooded(n))
  {
    forall i | 0 <= i < |Flooded(n)|
      ensures Flooded(n)[i].key != Name(n)
    {
      if i < 2 {
        assert Flooded(n)[i].key == "k" && "k"[0] == 'k' && Name(n)[0] == 'x';
      } else {
        assert Flooded(n)[i].key == Name(i - 2) && |Name(i - 2)| == i - 1;
      }
    }
  }

  lemma FloodStart()
    ensures Keys(Flooded(0)) == {"k"}
  {
    assert Flooded(0) == [CLIENT, CLIENT];
    assert [CLIENT, CLIENT][0].key == "k";
  }

  lemma {:induction false} FloodKeys(n: nat)
    ensures |Keys(Flooded(n))| == n + 1
  {
    hide *;
    if n == 0 {
      FloodStart();
    } else {
      FloodKeys(n - 1);
      FloodNext(n - 1);
      KeysGrow(Flooded(n - 1), Request(Name(n - 1), 0.0));
      NewName(n - 1);
    }
  }

  lemma FloodIsOrdered(n: nat)
    ensures Ordered(Flooded(n) + [CLIENT])
  {
    assert forall i :: 0 <= i < |Flooded(n) + [CLIENT]| ==> (Flooded(n) + [CLIENT])[i].at == 0.0;
  }

  /** The other that makes it more keys than the table takes has it emptied. */
  lemma FloodEmpties(c: Config)
    ensures Since(c, Flooded(MAX_KEYS)) == [Request(Name(MAX_KEYS - 1), 0.0)]
  {
    hide Flooded, Name, Keys;
    var past, last := Flooded(MAX_KEYS - 1), Request(Name(MAX_KEYS - 1), 0.0);
    FloodKeys(MAX_KEYS - 1);
    NewName(MAX_KEYS - 1);
    TableKeys(c, past);
    FloodNext(MAX_KEYS - 1);
    SinceNext(c, past, last);
    hide TableAfter, Since, Before;
    assert |TableAfter(c, past).Keys| == |TableAfter(c, past)|;
    assert Empties(TableAfter(c, past), last);
  }

  /** With one attempt a minute, the second at the same moment is told to wait for 61 seconds. */
  lemma SecondIsRefused()
    ensures Next(Config(60, 1), [CLIENT], CLIENT) == TooMany(61)
  {
    var c := Config(60, 1);
    assert [CLIENT][..0] == [];
    assert TableAfter(c, []) == map[];
    assert Opened(map[], "k") == map["k" := []];
    assert QueueAfter(c, Fresh(c, [], 0.0), 0.0) == [0.0];
    assert Step(c, map[], CLIENT) == map["k" := []]["k" := [0.0]] == map["k" := [0.0]];
    assert TableAfter(c, [CLIENT]) == Step(c, TableAfter(c, []), CLIENT);
  }

  lemma FloodAvoids(n: nat)
    ensures Avoids(Flood(n), "k") && |Flood(n)| == n
  {
    forall i | 0 <= i < n
      ensures Flood(n)[i].key != "k"
    {
      assert Flood(n)[i].key[0] == 'x' && "k"[0] == 'k';
    }
  }

  /** After 50000 other clients the refused one is let through at once, with all of its 61 seconds to wait. */
  lemma FloodLetsThrough()
    ensures Next(Config(60, 1), [CLIENT], CLIENT) == TooMany(61)
    ensures Next(Config(60, 1), [CLIENT] + [CLIENT] + Flood(50_000), CLIENT) == Allowed
  {
    var c := Config(60, 1);
    SecondIsRefused();
    FloodEmpties(c);
    FloodIsOrdered(MAX_KEYS);
    FloodAvoids(MAX_KEYS);
    SinceNext(c, Flooded(MAX_KEYS), CLIENT);
    assert Flooded(MAX_KEYS) == [CLIENT] + [CLIENT] + Flood(MAX_KEYS);
    hide Flood, Flooded, Since, Before, TableAfter, Next, Name;
    assert EmptiedAfter(c, [CLIENT], CLIENT, Flood(MAX_KEYS), CLIENT);
    RetryAfterEmptying(c, [CLIENT], CLIENT, Flood(MAX_KEYS), CLIENT);
  }
}
