/**
 Tables written by find-or-add on a key: an existing row has its value overwritten, a new one is
 appended. The first row with the key is the one found.
 */
module Upserts {

  datatype Row<K, F, V> = Row(key: K, fixed: F, value: V)

  type Table<K, F, V> = seq<Row<K, F, V>>

  /** The first row with the key; the length if there is none. */
  function Lookup<K(==), F, V>(rows: Table<K, F, V>, key: K): (i: nat)
    ensures i <= |rows|
    ensures i < |rows| ==> rows[i].key == key
    ensures forall j :: 0 <= j < i ==> rows[j].key != key
  {
    if rows == [] || rows[0].key == key then 0 else 1 + Lookup(rows[1..], key)
  }

  predicate Has<K(==), F, V>(rows: Table<K, F, V>, key: K) {
    Lookup(rows, key) < |rows|
  }

  function Upsert<K(==), F, V>(rows: Table<K, F, V>, u: Row<K, F, V>): Table<K, F, V> {
    var i := Lookup(rows, u.key);
    if i < |rows| then rows[i := rows[i].(value := u.value)] else rows + [u]
  }

  function UpsertAll<K(==), F, V>(rows: Table<K, F, V>, us: Table<K, F, V>): Table<K, F, V>
    decreases |us|
  {
    if us == [] then rows else UpsertAll(Upsert(rows, us[0]), us[1..])
  }

  ghost predicate Unique<K, F, V>(rows: Table<K, F, V>) {
    forall i, j :: 0 <= i < j < |rows| ==> rows[i].key != rows[j].key
  }

  lemma LookupIs<K, F, V>(rows: Table<K, F, V>, key: K, i: nat)
    requires i < |rows| && rows[i].key == key && forall j :: 0 <= j < i ==> rows[j].key != key
    ensures Lookup(rows, key) == i
  {
  }

  /** An upsert finds, for every key, the row that was found before. */
  lemma UpsertKeepsLookups<K, F, V>(rows: Table<K, F, V>, u: Row<K, F, V>, key: K)
    ensures var t := Upsert(rows, u);
      && |rows| <= |t|
      && (forall i :: 0 <= i < |rows| ==> t[i].key == rows[i].key && t[i].fixed == rows[i].fixed)
      && (Has(rows, key) ==> Lookup(t, key) == Lookup(rows, key))
      && (key == u.key ==> Has(t, key) && t[Lookup(t, key)].value == u.value)
      && (key != u.key && Has(rows, key) ==> t[Lookup(t, key)].value == rows[Lookup(rows, key)].value)
  {
    var t := Upsert(rows, u);
    var i, k := Lookup(rows, u.key), Lookup(rows, key);
    if k < |rows| {
      LookupIs(t, key, k);
    } else if key == u.key {
      LookupIs(t, key, i);
    }
  }

  /** Is the key among those written? */
  ghost predicate Writes<K, F, V>(us: Table<K, F, V>, key: K) {
    exists i :: 0 <= i < |us| && us[i].key == key
  }

  /** The last value written for a key. */
  ghost function LastValue<K, F, V>(us: Table<K, F, V>, key: K): V
    requires Writes(us, key)
  {
    if Writes(us[1..], key) then LastValue(us[1..], key) else WritesFirst(us, key); us[0].value
  }

  lemma WritesFirst<K, F, V>(us: Table<K, F, V>, key: K)
    requires Writes(us, key)
    ensures us != [] && (us[0].key == key || Writes(us[1..], key))
  {
    var i :| 0 <= i < |us| && us[i].key == key;
    if i > 0 {
      assert us[1..][i - 1].key == key;
    }
  }

  lemma WritesRest<K, F, V>(us: Table<K, F, V>, key: K)
    requires us != [] && Writes(us[1..], key)
    ensures Writes(us, key)
  {
    var i :| 0 <= i < |us[1..]| && us[1..][i].key == key;
    assert us[i + 1].key == key;
  }

  ghost predicate SettledAt<K, F, V>(rows: Table<K, F, V>, us: Table<K, F, V>, key: K)
    requires Writes(us, key)
  {
    Has(rows, key) && rows[Lookup(rows, key)].value == LastValue(us, key)
  }

  /** Every key written holds the last value written. */
  ghost predicate Settled<K(!new), F, V>(rows: Table<K, F, V>, us: Table<K, F, V>) {
    forall key | Writes(us, key) :: SettledAt(rows, us, key)
  }

  /** What upserts keep of the rows there were. */
  lemma {:induction false} UpsertAllKeeps<K, F, V>(rows: Table<K, F, V>, us: Table<K, F, V>, key: K)
    ensures var t := UpsertAll(rows, us);
      && |rows| <= |t|
      && (forall i :: 0 <= i < |rows| ==> t[i].key == rows[i].key && t[i].fixed == rows[i].fixed)
      && (Has(rows, key) ==> Lookup(t, key) == Lookup(rows, key))
      && (Has(rows, key) && !Writes(us, key) ==> t[Lookup(t, key)].value == rows[Lookup(rows, key)].value)
    decreases |us|
  {
    if us != [] {
      UpsertKeepsLookups(rows, us[0], key);
      UpsertAllKeeps(Upsert(rows, us[0]), us[1..], key);
      if Writes(us[1..], key) {
        WritesRest(us, key);
      } else {
        assert us[0].key == key ==> Writes(us, key);
      }
    }
  }

  lemma {:induction false} UpsertAllSettles<K(!new), F, V>(rows: Table<K, F, V>, us: Table<K, F, V>)
    ensures Settled(UpsertAll(rows, us), us)
    decreases |us|
  {
    if us != [] {
      var s := Upsert(rows, us[0]);
      var t := UpsertAll(rows, us);
      UpsertAllSettles(s, us[1..]);
      forall key | Writes(us, key)
        ensures SettledAt(t, us, key)
      {
        WritesFirst(us, key);
        if Writes(us[1..], key) {
          assert SettledAt(t, us[1..], key);
        } else {
          UpsertKeepsLookups(rows, us[0], key);
          UpsertAllKeeps(s, us[1..], key);
        }
      }
    }
  }

  /** The same keys and fixed parts, and other values only under the keys about to be written. */
  ghost predicate DiffersOnlyAt<K, F, V>(s: Table<K, F, V>, r: Table<K, F, V>, us: Table<K, F, V>) {
    && |s| == |r|
    && (forall i :: 0 <= i < |s| ==> s[i].key == r[i].key && s[i].fixed == r[i].fixed)
    && (forall i :: 0 <= i < |s| && s[i] != r[i] ==> Writes(us, r[i].key) && Lookup(r, r[i].key) == i)
  }

  lemma SameLookup<K, F, V>(s: Table<K, F, V>, r: Table<K, F, V>, key: K)
    requires |s| == |r| && forall i :: 0 <= i < |s| ==> s[i].key == r[i].key
    ensures Lookup(s, key) == Lookup(r, key)
  {
    var i := Lookup(r, key);
    if i < |r| {
      LookupIs(s, key, i);
    }
  }

  /** Writing again what a table has settled to restores it. */
  lemma {:induction false} UpsertAllRestores<K(!new), F, V>(r: Table<K, F, V>, s: Table<K, F, V>, us: Table<K, F, V>)
    requires Settled(r, us) && DiffersOnlyAt(s, r, us)
    ensures UpsertAll(s, us) == r
    decreases |us|
  {
    if us == [] {
      assert forall i :: 0 <= i < |s| ==> s[i] == r[i];
      assert s == r;
    } else {
      var u, rest := us[0], us[1..];
      assert Writes(us, u.key);
      assert SettledAt(r, us, u.key);
      SameLookup(s, r, u.key);
      var t := Upsert(s, u);
      forall key | Writes(rest, key)
        ensures SettledAt(r, rest, key)
      {
        WritesRest(us, key);
        assert SettledAt(r, us, key);
      }
      forall i | 0 <= i < |t| && t[i] != r[i]
        ensures Writes(rest, r[i].key) && Lookup(r, r[i].key) == i
      {
        if i != Lookup(r, u.key) {
          WritesFirst(us, r[i].key);
        }
      }
      UpsertAllRestores(r, t, rest);
    }
  }

  /** The same upserts a second time change nothing. */
  lemma UpsertTwice<K(!new), F, V>(rows: Table<K, F, V>, us: Table<K, F, V>)
    ensures UpsertAll(UpsertAll(rows, us), us) == UpsertAll(rows, us)
  {
    UpsertAllSettles(rows, us);
    UpsertAllRestores(UpsertAll(rows, us), UpsertAll(rows, us), us);
  }

  lemma UpsertUnique<K, F, V>(rows: Table<K, F, V>, u: Row<K, F, V>)
    requires Unique(rows)
    ensures Unique(Upsert(rows, u))
  {
  }
}
