/** The three SQLite tables, each a map from its UNIQUE key to the rest of
    the row: `predictions (location, datetime_utc, type)`, `hourly_levels
    (location, datetime_utc)` and `sun_times (location, date)`.  The
    auto-increment `id` column is not modelled. */
module Tables {
  import opened Wrappers
  import opened Text
  import opened Seqs

  datatype PredictionKey = PredictionKey(location: string, datetimeUtc: string, kind: string)
  datatype HourlyKey = HourlyKey(location: string, datetimeUtc: string)
  datatype SunKey = SunKey(location: string, date: string)
  datatype SunRow = SunRow(sunrise: string, sunset: string)

  /** A selected `predictions` row: `datetime_utc, type, height_metres`. */
  datatype PredictionRow = PredictionRow(datetimeUtc: string, kind: string, height: real)
  /** A selected `hourly_levels` row: `datetime_utc, height_metres`. */
  datatype HourlyRow = HourlyRow(datetimeUtc: string, height: real)

  function PredictionTime(r: PredictionRow): string {
    r.datetimeUtc
  }

  function HourlyTime(r: HourlyRow): string {
    r.datetimeUtc
  }

  /** `datetime_utc >= lo AND datetime_utc < hi` on TEXT. */
  predicate InWindow(s: string, lo: string, hi: string) {
    LexLe(lo, s) && LexLt(s, hi)
  }

  // ---------------------------------------------------------------------
  // Statement sequences

  /** A run of `INSERT OR REPLACE` statements in order: each writes its key,
      and a later write of the same key replaces an earlier one. */
  function ApplyAll<K(!new), V>(m: map<K, V>, ins: seq<(K, V)>): map<K, V>
    decreases |ins|
  {
    if ins == [] then m
    else ApplyAll(m, ins[..|ins| - 1])[ins[|ins| - 1].0 := ins[|ins| - 1].1]
  }

  /** After the run, the table's keys are the old ones and the written ones;
      a key no statement writes keeps its value; and every value left is the
      old one or one that some statement wrote for that key. */
  lemma {:induction false} ApplyAllFacts<K(!new), V>(m: map<K, V>, ins: seq<(K, V)>)
    ensures var r := ApplyAll(m, ins);
      (forall k: K :: k in r <==> k in m || exists i :: 0 <= i < |ins| && ins[i].0 == k) &&
      (forall k :: k in m && (forall i :: 0 <= i < |ins| ==> ins[i].0 != k) ==> r[k] == m[k]) &&
      (forall k :: k in r ==> (k in m && r[k] == m[k]) || exists i :: 0 <= i < |ins| && ins[i] == (k, r[k]))
    decreases |ins|
  {
    if ins != [] {
      var init := ins[..|ins| - 1];
      ApplyAllFacts(m, init);
      assert forall i :: 0 <= i < |init| ==> init[i] == ins[i];
    }
  }

  /** Run on an empty table, the keys left are the written ones and each
      carries a value written for it. */
  lemma ApplyAllFresh<K(!new), V>(ins: seq<(K, V)>)
    ensures forall x :: x in ins ==> x.0 in ApplyAll(map[], ins)
    ensures forall k :: k in ApplyAll(map[], ins) ==> (k, ApplyAll(map[], ins)[k]) in ins
  {
    ApplyAllFacts(map[], ins);
    forall x | x in ins
      ensures x.0 in ApplyAll(map[], ins)
    {
      var i :| 0 <= i < |ins| && ins[i] == x;
    }
  }

  lemma {:induction false} ApplyAllAppend<K(!new), V>(m: map<K, V>, a: seq<(K, V)>, b: seq<(K, V)>)
    ensures ApplyAll(m, a + b) == ApplyAll(ApplyAll(m, a), b)
    decreases |b|
  {
    if b == [] {
      assert a + b == a;
    } else {
      var b' := b[..|b| - 1];
      assert (a + b)[..|a + b| - 1] == a + b';
      ApplyAllAppend(m, a, b');
    }
  }

  lemma ApplyAllSnoc<K(!new), V>(m: map<K, V>, ins: seq<(K, V)>, x: (K, V))
    ensures ApplyAll(m, ins + [x]) == ApplyAll(m, ins)[x.0 := x.1]
  {
    assert (ins + [x])[..|ins|] == ins;
  }

  /** The last write of a key is the value left in the table. */
  lemma {:induction false} ApplyAllLast<K(!new), V>(m: map<K, V>, ins: seq<(K, V)>, i: int)
    requires 0 <= i < |ins|
    requires forall j :: i < j < |ins| ==> ins[j].0 != ins[i].0
    ensures ins[i].0 in ApplyAll(m, ins) && ApplyAll(m, ins)[ins[i].0] == ins[i].1
    decreases |ins|
  {
    if i < |ins| - 1 {
      var init := ins[..|ins| - 1];
      assert init[i] == ins[i];
      ApplyAllLast(m, init, i);
    }
  }

  /** `DELETE FROM predictions WHERE location = ? AND datetime_utc LIKE 'p%'`
      (the prefixes used are dates, which hold no `%` or `_`). */
  function WithoutLike(t: map<PredictionKey, real>, location: string, prefix: string): (r: map<PredictionKey, real>)
    ensures forall k :: k in r <==> k in t && !(k.location == location && StartsWith(k.datetimeUtc, prefix))
    ensures forall k :: k in r ==> r[k] == t[k]
  {
    map k | k in t && !(k.location == location && StartsWith(k.datetimeUtc, prefix)) :: t[k]
  }

  // ---------------------------------------------------------------------
  // Ordered selection

  /** The keys a `WHERE` clause selects, each once, ordered by a TEXT column
      (`ORDER BY`; SQLite leaves the order of equal values unspecified). */
  method SelectKeys<K(==), V>(m: map<K, V>, keep: K -> bool, column: K -> string) returns (keys: seq<K>)
    ensures forall k :: k in keys <==> k in m && keep(k)
    ensures Distinct(keys)
    ensures SortedByText(keys, column)
  {
    var remaining := m.Keys;
    var found: seq<K> := [];
    while remaining != {}
      invariant remaining <= m.Keys
      invariant forall k :: k in found ==> k in m && keep(k) && k !in remaining
      invariant forall k :: k in m && keep(k) && k !in remaining ==> k in found
      invariant Distinct(found)
      decreases |remaining|
    {
      var k :| k in remaining;
      if keep(k) {
        found := found + [k];
      }
      remaining := remaining - {k};
    }
    keys := SortByText(found, column);
    SortByTextCorrect(found, column);
    DistinctPermutation(found, keys);
    forall k
      ensures k in keys <==> k in found
    {
      assert k in keys <==> k in multiset(keys);
      assert k in found <==> k in multiset(found);
    }
  }

  function PredictionKeyTime(k: PredictionKey): string {
    k.datetimeUtc
  }

  function HourlyKeyTime(k: HourlyKey): string {
    k.datetimeUtc
  }

  // ---------------------------------------------------------------------
  // The database

  class Database {
    var predictions: map<PredictionKey, real>
    var hourly: map<HourlyKey, real>
    var sun: map<SunKey, SunRow>

    constructor ()
      ensures predictions == map[] && hourly == map[] && sun == map[]
    {
      predictions, hourly, sun := map[], map[], map[];
    }

    /** `DELETE FROM predictions` */
    method ClearPredictions()
      modifies this
      ensures predictions == map[] && hourly == old(hourly) && sun == old(sun)
    {
      predictions := map[];
    }

    /** `DELETE FROM hourly_levels` */
    method ClearHourly()
      modifies this
      ensures hourly == map[] && predictions == old(predictions) && sun == old(sun)
    {
      hourly := map[];
    }

    /** `DELETE FROM sun_times` */
    method ClearSun()
      modifies this
      ensures sun == map[] && predictions == old(predictions) && hourly == old(hourly)
    {
      sun := map[];
    }

    /** `INSERT OR REPLACE INTO predictions ...` */
    method UpsertPrediction(k: PredictionKey, height: real)
      modifies this
      ensures predictions == old(predictions)[k := height] && hourly == old(hourly) && sun == old(sun)
    {
      predictions := predictions[k := height];
    }

    /** `INSERT OR REPLACE INTO hourly_levels ...` */
    method UpsertHourly(k: HourlyKey, height: real)
      modifies this
      ensures hourly == old(hourly)[k := height] && predictions == old(predictions) && sun == old(sun)
    {
      hourly := hourly[k := height];
    }

    /** `INSERT OR REPLACE INTO sun_times ...` */
    method UpsertSun(k: SunKey, row: SunRow)
      modifies this
      ensures sun == old(sun)[k := row] && predictions == old(predictions) && hourly == old(hourly)
    {
      sun := sun[k := row];
    }

    /** `DELETE FROM predictions WHERE location = ? AND datetime_utc LIKE ?` */
    method DeletePredictionsLike(location: string, prefix: string)
      modifies this
      ensures predictions == WithoutLike(old(predictions), location, prefix)
      ensures hourly == old(hourly) && sun == old(sun)
    {
      predictions := WithoutLike(predictions, location, prefix);
    }

    /** `SELECT datetime_utc, type, height_metres FROM predictions WHERE
        location = ? AND datetime_utc >= ? AND datetime_utc < ? ORDER BY
        datetime_utc`: one row per stored key of the location in the window. */
    method SelectPredictions(location: string, lo: string, hi: string) returns (rows: seq<PredictionRow>)
      ensures forall r :: r in rows <==>
        PredictionKey(location, r.datetimeUtc, r.kind) in predictions &&
        predictions[PredictionKey(location, r.datetimeUtc, r.kind)] == r.height &&
        InWindow(r.datetimeUtc, lo, hi)
      ensures Distinct(rows)
      ensures SortedByText(rows, PredictionTime)
    {
      var t := predictions;
      var keys := SelectKeys(t, (k: PredictionKey) => k.location == location && InWindow(k.datetimeUtc, lo, hi), PredictionKeyTime);
      forall i | 0 <= i < |keys|
        ensures keys[i] in t && keys[i].location == location && InWindow(keys[i].datetimeUtc, lo, hi)
      {
        assert keys[i] in keys;
      }
      rows := seq(|keys|, i requires 0 <= i < |keys| => PredictionRow(keys[i].datetimeUtc, keys[i].kind, t[keys[i]]));
      forall i | 0 <= i < |keys|
        ensures keys[i] == PredictionKey(location, rows[i].datetimeUtc, rows[i].kind)
        ensures PredictionTime(rows[i]) == PredictionKeyTime(keys[i])
      {
      }
      forall r | r in rows
        ensures PredictionKey(location, r.datetimeUtc, r.kind) in t
      {
        var i :| 0 <= i < |rows| && rows[i] == r;
      }
      forall r: PredictionRow | PredictionKey(location, r.datetimeUtc, r.kind) in t &&
          t[PredictionKey(location, r.datetimeUtc, r.kind)] == r.height && InWindow(r.datetimeUtc, lo, hi)
        ensures r in rows
      {
        var k := PredictionKey(location, r.datetimeUtc, r.kind);
        var i :| 0 <= i < |keys| && keys[i] == k;
        assert rows[i] == r;
      }
      forall i, j | 0 <= i < j < |rows|
        ensures rows[i] != rows[j]
      {
        assert keys[i] != keys[j];
      }
      assert SortedByText(keys, PredictionKeyTime);
    }

    /** `SELECT datetime_utc, height_metres FROM hourly_levels WHERE
        location = ? AND datetime_utc >= ? AND datetime_utc < ? ORDER BY
        datetime_utc`: one row per stored instant of the location in the
        window, in strictly ascending order. */
    method SelectHourly(location: string, lo: string, hi: string) returns (rows: seq<HourlyRow>)
      ensures forall r :: r in rows <==>
        HourlyKey(location, r.datetimeUtc) in hourly &&
        hourly[HourlyKey(location, r.datetimeUtc)] == r.height &&
        InWindow(r.datetimeUtc, lo, hi)
      ensures forall i, j :: 0 <= i < j < |rows| ==> LexLt(rows[i].datetimeUtc, rows[j].datetimeUtc)
    {
      var t := hourly;
      var keys := SelectKeys(t, (k: HourlyKey) => k.location == location && InWindow(k.datetimeUtc, lo, hi), HourlyKeyTime);
      rows := seq(|keys|, i requires 0 <= i < |keys| => HourlyRow(keys[i].datetimeUtc, t[keys[i]]));
      forall r | r in rows
        ensures HourlyKey(location, r.datetimeUtc) in t && t[HourlyKey(location, r.datetimeUtc)] == r.height &&
                InWindow(r.datetimeUtc, lo, hi)
      {
        var i :| 0 <= i < |rows| && rows[i] == r;
        assert keys[i] in keys;
        assert keys[i] == HourlyKey(location, r.datetimeUtc);
      }
      forall r: HourlyRow | HourlyKey(location, r.datetimeUtc) in t &&
          t[HourlyKey(location, r.datetimeUtc)] == r.height && InWindow(r.datetimeUtc, lo, hi)
        ensures r in rows
      {
        var k := HourlyKey(location, r.datetimeUtc);
        var i :| 0 <= i < |keys| && keys[i] == k;
        assert rows[i] == r;
      }
      forall i, j | 0 <= i < j < |rows|
        ensures LexLt(rows[i].datetimeUtc, rows[j].datetimeUtc)
      {
        assert keys[i] != keys[j];
        assert keys[i] in keys && keys[j] in keys;
        assert LexLe(HourlyKeyTime(keys[i]), HourlyKeyTime(keys[j]));
      }
    }

    /** `SELECT sunrise, sunset FROM sun_times WHERE location = ? AND date = ?`
        with `fetchone()`. */
    function SunLookup(location: string, date: string): (r: Option<SunRow>)
      reads this
      ensures r.Some? <==> SunKey(location, date) in sun
      ensures r.Some? ==> r.value == sun[SunKey(location, date)]
    {
      if SunKey(location, date) in sun then Some(sun[SunKey(location, date)]) else None
    }
  }
}
