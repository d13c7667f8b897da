/** The `/api/tides` endpoints: the predictions and hourly levels cached
    for one location, selected by a half-open window of ISO dates, and the
    range endpoint that groups predictions by their local date.  The
    UTC-to-Europe/London conversion `_utc_to_local` is zone data and is a
    given function of the stored text. */
module TidesRouter {
  import opened Text
  import opened Seqs
  import opened Calendar
  import opened Tables

  /** One element of `tides`: the stored row with its local time added. */
  datatype TideOut = TideOut(datetimeUtc: string, datetimeLocal: string, kind: string, height: real)

  /** One element of `levels`. */
  datatype LevelOut = LevelOut(datetimeUtc: string, datetimeLocal: string, height: real)

  datatype TidesResponse = TidesResponse(location: string, date: string, tides: seq<TideOut>)

  datatype HourlyResponse = HourlyResponse(location: string, date: string, levels: seq<LevelOut>)

  /** An endpoint's answer, or the `OverflowError` Python raises when the
      day after the requested date is past 9999-12-31 (an HTTP 500). */
  datatype Answer<T> = Ok(value: T) | DateOverflow

  /** The range response; `days` is a dictionary whose keys, in insertion
      order, are `dayOrder`. */
  datatype RangeResponse = RangeResponse(location: string, start: string, end: string,
                                         days: map<string, seq<TideOut>>, dayOrder: seq<string>)

  function TideTime(t: TideOut): string {
    t.datetimeUtc
  }

  /** The text a tide is grouped under: `local_dt[:10]`. */
  function LocalDate(t: TideOut): string {
    Take(t.datetimeLocal, 10)
  }

  /** The output element of one selected row. */
  function TideOf(r: PredictionRow, toLocal: string -> string): TideOut {
    TideOut(r.datetimeUtc, toLocal(r.datetimeUtc), r.kind, r.height)
  }

  /** A tide the window query of `location` over `[lo, hi)` reports. */
  predicate TideListed(t: map<PredictionKey, real>, location: string, lo: string, hi: string,
                       toLocal: string -> string, x: TideOut)
  {
    var k := PredictionKey(location, x.datetimeUtc, x.kind);
    k in t && t[k] == x.height && InWindow(x.datetimeUtc, lo, hi) && x.datetimeLocal == toLocal(x.datetimeUtc)
  }

  /** A level the window query of `location` over `[lo, hi)` reports. */
  predicate LevelListed(t: map<HourlyKey, real>, location: string, lo: string, hi: string,
                        toLocal: string -> string, x: LevelOut)
  {
    var k := HourlyKey(location, x.datetimeUtc);
    k in t && t[k] == x.height && InWindow(x.datetimeUtc, lo, hi) && x.datetimeLocal == toLocal(x.datetimeUtc)
  }

  // ---------------------------------------------------------------------
  // The date window

  /** The window of ISO dates `[lo, hi)` selects a stored instant by its
      date part alone: time of day never moves a row in or out. */
  lemma DateWindow(s: string, lo: string, hi: string)
    requires |lo| == 10 && |hi| == 10 && |s| >= 10
    ensures InWindow(s, lo, hi) <==> InWindow(Take(s, 10), lo, hi)
  {
    LexLeTake(lo, s);
    LexLeTake(hi, s);
    LexLtIsNotLe(s, hi);
    LexLtIsNotLe(Take(s, 10), hi);
  }

  /** An instant written by the cache is selected for the window of dates
      `[IsoDate(a), IsoDate(b))` exactly when the text of its day is. */
  lemma CachedInstantWindow(t: Time, a: Day, b: Day)
    ensures InWindow(IsoDateTime(t), IsoDate(a), IsoDate(b)) <==> InWindow(IsoDate(DayOf(t)), IsoDate(a), IsoDate(b))
  {
    IsoDateTimeDate(t);
    DateWindow(IsoDateTime(t), IsoDate(a), IsoDate(b));
  }

  // ---------------------------------------------------------------------
  // get_tides and get_hourly

  /** `get_tides`: every prediction of the location within the requested
      date, once each, ascending by UTC time, with the stored values
      unchanged.  The defaulting of `date` to today is the caller's; the
      last date raises, since there is no next day to bound the window. */
  method GetTides(db: Database, location: string, date: Day, toLocal: string -> string) returns (r: Answer<TidesResponse>)
    ensures r.DateOverflow? <==> date >= LastDay
    ensures r.Ok? ==> r.value.location == location && r.value.date == IsoDate(date)
    ensures r.Ok? ==> forall x :: x in r.value.tides <==>
      TideListed(db.predictions, location, IsoDate(date), IsoDate(date + 1), toLocal, x)
    ensures r.Ok? ==> Distinct(r.value.tides)
    ensures r.Ok? ==> SortedByText(r.value.tides, TideTime)
  {
    if date >= LastDay {
      return DateOverflow;
    }
    var dateStr := IsoDate(date);
    var nextDay := IsoDate(date + 1);
    var rows := db.SelectPredictions(location, dateStr, nextDay);
    var tides := seq(|rows|, i requires 0 <= i < |rows| => TideOf(rows[i], toLocal));
    forall x | x in tides
      ensures TideListed(db.predictions, location, dateStr, nextDay, toLocal, x)
    {
      var i :| 0 <= i < |tides| && tides[i] == x;
      assert rows[i] in rows;
    }
    forall x | TideListed(db.predictions, location, dateStr, nextDay, toLocal, x)
      ensures x in tides
    {
      var row := PredictionRow(x.datetimeUtc, x.kind, x.height);
      assert row in rows;
      var i :| 0 <= i < |rows| && rows[i] == row;
      assert tides[i] == x;
    }
    forall i, j | 0 <= i < j < |tides|
      ensures tides[i] != tides[j] && LexLe(TideTime(tides[i]), TideTime(tides[j]))
    {
      assert rows[i] != rows[j];
      assert LexLe(PredictionTime(rows[i]), PredictionTime(rows[j]));
    }
    r := Ok(TidesResponse(location, dateStr, tides));
  }

  /** `get_hourly`: every hourly level of the location within the requested
      date, in strictly ascending UTC order, with the stored value unchanged;
      the last date raises. */
  method GetHourly(db: Database, location: string, date: Day, toLocal: string -> string) returns (r: Answer<HourlyResponse>)
    ensures r.DateOverflow? <==> date >= LastDay
    ensures r.Ok? ==> r.value.location == location && r.value.date == IsoDate(date)
    ensures r.Ok? ==> forall x :: x in r.value.levels <==>
      LevelListed(db.hourly, location, IsoDate(date), IsoDate(date + 1), toLocal, x)
    ensures r.Ok? ==> forall i, j :: 0 <= i < j < |r.value.levels| ==>
      LexLt(r.value.levels[i].datetimeUtc, r.value.levels[j].datetimeUtc)
  {
    if date >= LastDay {
      return DateOverflow;
    }
    var dateStr := IsoDate(date);
    var nextDay := IsoDate(date + 1);
    var rows := db.SelectHourly(location, dateStr, nextDay);
    var levels := seq(|rows|, i requires 0 <= i < |rows| =>
      LevelOut(rows[i].datetimeUtc, toLocal(rows[i].datetimeUtc), rows[i].height));
    forall x | x in levels
      ensures LevelListed(db.hourly, location, dateStr, nextDay, toLocal, x)
    {
      var i :| 0 <= i < |levels| && levels[i] == x;
      assert rows[i] in rows;
    }
    forall x | LevelListed(db.hourly, location, dateStr, nextDay, toLocal, x)
      ensures x in levels
    {
      var row := HourlyRow(x.datetimeUtc, x.height);
      assert row in rows;
      var i :| 0 <= i < |rows| && rows[i] == row;
      assert levels[i] == x;
    }
    r := Ok(HourlyResponse(location, dateStr, levels));
  }

  // ---------------------------------------------------------------------
  // Grouping by local date

  /** The tides of `ts` grouped under `key`, in their order in `ts`. */
  function Bucket(ts: seq<TideOut>, key: string): seq<TideOut>
  {
    if ts == [] then []
    else Bucket(ts[..|ts| - 1], key) + (if LocalDate(ts[|ts| - 1]) == key then [ts[|ts| - 1]] else [])
  }

  /** The local dates of `ts`, each once, in order of first appearance. */
  function DayKeys(ts: seq<TideOut>): seq<string>
  {
    if ts == [] then []
    else
      var keys := DayKeys(ts[..|ts| - 1]);
      if LocalDate(ts[|ts| - 1]) in keys then keys else keys + [LocalDate(ts[|ts| - 1])]
  }

  /** The dictionary the grouping loop builds for `ts`. */
  function Grouped(ts: seq<TideOut>): map<string, seq<TideOut>> {
    map k | k in DayKeys(ts) :: Bucket(ts, k)
  }

  /** One more tide: its date gets a new bucket when it has none, and the
      tide goes at the end of its date's bucket. */
  lemma GroupedStep(ts: seq<TideOut>, t: TideOut)
    ensures var d := LocalDate(t);
      var days := Grouped(ts);
      DayKeys(ts + [t]) == (if d in days then DayKeys(ts) else DayKeys(ts) + [d]) &&
      Grouped(ts + [t]) == days[d := (if d in days then days[d] else []) + [t]]
  {
    var d := LocalDate(t);
    assert (ts + [t])[..|ts|] == ts;
    if d !in DayKeys(ts) {
      DayKeysMembers(ts);
      BucketEmpty(ts, d);
    }
    var days := Grouped(ts);
    var next := days[d := (if d in days then days[d] else []) + [t]];
    assert Grouped(ts + [t]).Keys == next.Keys;
    forall k | k in next
      ensures Grouped(ts + [t])[k] == next[k]
    {
    }
  }

  /** Opening an empty bucket and then appending is appending to the
      bucket, or to an empty one. */
  lemma OpenThenAppend<K, V>(m: map<K, seq<V>>, k: K, x: V)
    ensures var ready := if k in m then m else m[k := []];
      ready[k := ready[k] + [x]] == m[k := (if k in m then m[k] else []) + [x]]
  {
  }

  /** The grouping loop of `get_tides_range`: a new bucket for each local
      date not seen before, and every tide appended to its date's bucket. */
  method GroupByLocalDate(ts: seq<TideOut>) returns (days: map<string, seq<TideOut>>, order: seq<string>)
    ensures days == Grouped(ts) && order == DayKeys(ts)
  {
    days, order := map[], [];
    for i := 0 to |ts|
      invariant order == DayKeys(ts[..i])
      invariant days == Grouped(ts[..i])
    {
      var t := ts[i];
      var d := LocalDate(t);
      assert ts[..i + 1] == ts[..i] + [t];
      GroupedStep(ts[..i], t);
      OpenThenAppend(days, d, t);
      if d !in days {
        days := days[d := []];
        order := order + [d];
      }
      days := days[d := days[d] + [t]];
    }
    assert ts[..|ts|] == ts;
  }

  lemma {:induction false} DayKeysMembers(ts: seq<TideOut>)
    ensures forall k :: k in DayKeys(ts) <==> exists t :: t in ts && LocalDate(t) == k
    ensures Distinct(DayKeys(ts))
  {
    if ts != [] {
      var init := ts[..|ts| - 1];
      DayKeysMembers(init);
      assert ts == init + [ts[|ts| - 1]];
    }
  }

  /** One more tide extends only its own date's bucket. */
  lemma BucketSnoc(ts: seq<TideOut>, t: TideOut, key: string)
    ensures Bucket(ts + [t], key) == Bucket(ts, key) + (if LocalDate(t) == key then [t] else [])
  {
    assert (ts + [t])[..|ts|] == ts;
  }

  /** A tide after ascending tides is no earlier than the first tide of any
      of their dates. */
  lemma LastAfterFirsts(ts: seq<TideOut>, t: TideOut)
    requires SortedByText(ts + [t], TideTime)
    ensures forall k :: k in DayKeys(ts) ==> Bucket(ts, k) != [] && LexLe(TideTime(Bucket(ts, k)[0]), TideTime(t))
  {
    DayKeysMembers(ts);
    forall k | k in DayKeys(ts)
      ensures Bucket(ts, k) != [] && LexLe(TideTime(Bucket(ts, k)[0]), TideTime(t))
    {
      BucketMembers(ts, k);
      var x :| x in ts && LocalDate(x) == k;
      assert x in Bucket(ts, k);
      var b := Bucket(ts, k);
      assert b[0] in b;
      var p :| 0 <= p < |ts| && ts[p] == b[0];
      assert (ts + [t])[p] == b[0] && (ts + [t])[|ts|] == t;
    }
  }

  /** Every date key has a non-empty bucket, and the keys come in the
      order of their buckets' first tides. */
  predicate FirstsOrdered(ts: seq<TideOut>) {
    (forall k :: k in DayKeys(ts) ==> Bucket(ts, k) != []) &&
    (forall i, j :: 0 <= i < j < |DayKeys(ts)| ==>
      LexLe(TideTime(Bucket(ts, DayKeys(ts)[i])[0]), TideTime(Bucket(ts, DayKeys(ts)[j])[0])))
  }

  /** A tide no earlier than the tides before it keeps the key order. */
  lemma FirstsOrderedSnoc(ts: seq<TideOut>, t: TideOut)
    requires SortedByText(ts + [t], TideTime)
    requires FirstsOrdered(ts)
    ensures FirstsOrdered(ts + [t])
  {
    LastAfterFirsts(ts, t);
    var keys := DayKeys(ts);
    var d := LocalDate(t);
    forall k | k in keys
      ensures Bucket(ts + [t], k) != [] && Bucket(ts + [t], k)[0] == Bucket(ts, k)[0]
    {
      BucketSnoc(ts, t, k);
    }
    assert (ts + [t])[..|ts|] == ts;
    if d !in keys {
      DayKeysMembers(ts);
      BucketEmpty(ts, d);
      BucketSnoc(ts, t, d);
      var next := DayKeys(ts + [t]);
      assert next == keys + [d];
      forall i, j | 0 <= i < j < |next|
        ensures LexLe(TideTime(Bucket(ts + [t], next[i])[0]), TideTime(Bucket(ts + [t], next[j])[0]))
      {
        assert next[i] == keys[i];
        if j < |keys| {
          assert next[j] == keys[j];
        } else {
          assert keys[i] in keys;
        }
      }
    }
  }

  /** Over ascending tides every date key has a non-empty bucket, and the
      keys come in the order of their buckets' first (earliest) tides. */
  lemma {:induction false} DayKeysFirstOrder(ts: seq<TideOut>)
    requires SortedByText(ts, TideTime)
    ensures forall k :: k in DayKeys(ts) ==> Bucket(ts, k) != []
    ensures forall i, j :: 0 <= i < j < |DayKeys(ts)| ==>
      LexLe(TideTime(Bucket(ts, DayKeys(ts)[i])[0]), TideTime(Bucket(ts, DayKeys(ts)[j])[0]))
  {
    if ts != [] {
      var init := ts[..|ts| - 1];
      assert ts == init + [ts[|ts| - 1]];
      assert SortedByText(init, TideTime);
      DayKeysFirstOrder(init);
      FirstsOrderedSnoc(init, ts[|ts| - 1]);
    }
  }

  /** A bucket holds exactly the tides of its date. */
  lemma {:induction false} BucketMembers(ts: seq<TideOut>, key: string)
    ensures forall t :: t in Bucket(ts, key) <==> t in ts && LocalDate(t) == key
  {
    if ts != [] {
      var init := ts[..|ts| - 1];
      BucketMembers(init, key);
      assert ts == init + [ts[|ts| - 1]];
    }
  }

  /** A date no tide has has an empty bucket. */
  lemma {:induction false} BucketEmpty(ts: seq<TideOut>, key: string)
    requires forall t :: t in ts ==> LocalDate(t) != key
    ensures Bucket(ts, key) == []
  {
    if ts != [] {
      BucketEmpty(ts[..|ts| - 1], key);
      assert ts[|ts| - 1] in ts;
    }
  }

  /** A bucket keeps the order of the tides it is taken from. */
  lemma {:induction false} BucketSorted(ts: seq<TideOut>, key: string)
    requires SortedByText(ts, TideTime)
    ensures SortedByText(Bucket(ts, key), TideTime)
  {
    if ts != [] {
      var init := ts[..|ts| - 1];
      var last := ts[|ts| - 1];
      assert SortedByText(init, TideTime);
      BucketSorted(init, key);
      BucketMembers(init, key);
      var b := Bucket(init, key);
      if LocalDate(last) == key {
        forall i | 0 <= i < |b|
          ensures LexLe(TideTime(b[i]), TideTime(last))
        {
          assert b[i] in b;
          var j :| 0 <= j < |init| && init[j] == b[i];
        }
      }
    }
  }

  /** A bucket of distinct tides has distinct tides. */
  lemma {:induction false} BucketDistinct(ts: seq<TideOut>, key: string)
    requires Distinct(ts)
    ensures Distinct(Bucket(ts, key))
  {
    if ts != [] {
      var init := ts[..|ts| - 1];
      var last := ts[|ts| - 1];
      assert Distinct(init);
      BucketDistinct(init, key);
      BucketMembers(init, key);
      assert last !in init;
    }
  }

  /** The total size of the buckets under `keys`. */
  function BucketSizes(ts: seq<TideOut>, keys: seq<string>): nat {
    if keys == [] then 0 else BucketSizes(ts, keys[..|keys| - 1]) + |Bucket(ts, keys[|keys| - 1])|
  }

  lemma {:induction false} BucketSizesAppend(ts: seq<TideOut>, x: TideOut, keys: seq<string>)
    requires Distinct(keys)
    ensures BucketSizes(ts + [x], keys) == BucketSizes(ts, keys) + (if LocalDate(x) in keys then 1 else 0)
  {
    if keys != [] {
      var init := keys[..|keys| - 1];
      assert Distinct(init);
      BucketSizesAppend(ts, x, init);
      assert (ts + [x])[..|ts + [x]| - 1] == ts;
      assert keys == init + [keys[|keys| - 1]];
    }
  }

  /** The buckets partition the tides: together they hold every tide once. */
  lemma {:induction false} BucketsPartition(ts: seq<TideOut>)
    ensures BucketSizes(ts, DayKeys(ts)) == |ts|
  {
    if ts != [] {
      var init := ts[..|ts| - 1];
      var last := ts[|ts| - 1];
      BucketsPartition(init);
      DayKeysMembers(init);
      assert ts == init + [last];
      BucketSizesAppend(init, last, DayKeys(init));
      if LocalDate(last) !in DayKeys(init) {
        BucketEmpty(init, LocalDate(last));
      }
    }
  }

  /** `get_tides_range`: the predictions of `[start, end + 1 day)`, so the
      end day is included, grouped by local date; the response echoes the
      requested end date.  An end on the last date raises. */
  method GetTidesRange(db: Database, location: string, start: Day, end: Day, toLocal: string -> string)
    returns (r: Answer<RangeResponse>)
    ensures r.DateOverflow? <==> end >= LastDay
    ensures r.Ok? ==> r.value.location == location && r.value.start == IsoDate(start) && r.value.end == IsoDate(end)
    ensures r.Ok? ==> forall k :: k in r.value.days <==> k in r.value.dayOrder
    ensures r.Ok? ==> Distinct(r.value.dayOrder)
    ensures r.Ok? ==> forall x :: TideListed(db.predictions, location, IsoDate(start), IsoDate(end + 1), toLocal, x) ==>
      LocalDate(x) in r.value.days
    ensures r.Ok? ==> forall k, x :: k in r.value.days ==>
      (x in r.value.days[k] <==> TideListed(db.predictions, location, IsoDate(start), IsoDate(end + 1), toLocal, x) &&
                                 LocalDate(x) == k)
    ensures r.Ok? ==> forall k :: k in r.value.days ==> Distinct(r.value.days[k]) && SortedByText(r.value.days[k], TideTime)
    ensures r.Ok? ==> forall k :: k in r.value.days ==> r.value.days[k] != []
    ensures r.Ok? ==> forall i, j :: 0 <= i < j < |r.value.dayOrder| ==>
      LexLe(TideTime(r.value.days[r.value.dayOrder[i]][0]), TideTime(r.value.days[r.value.dayOrder[j]][0]))
  {
    if end >= LastDay {
      return DateOverflow;
    }
    var startStr := IsoDate(start);
    var endStr := IsoDate(end + 1);
    var rows := db.SelectPredictions(location, startStr, endStr);
    var tides := seq(|rows|, i requires 0 <= i < |rows| => TideOf(rows[i], toLocal));
    forall x | x in tides
      ensures TideListed(db.predictions, location, startStr, endStr, toLocal, x)
    {
      var i :| 0 <= i < |tides| && tides[i] == x;
      assert rows[i] in rows;
    }
    forall x | TideListed(db.predictions, location, startStr, endStr, toLocal, x)
      ensures x in tides
    {
      var row := PredictionRow(x.datetimeUtc, x.kind, x.height);
      assert row in rows;
      var i :| 0 <= i < |rows| && rows[i] == row;
      assert tides[i] == x;
    }
    forall i, j | 0 <= i < j < |tides|
      ensures tides[i] != tides[j] && LexLe(TideTime(tides[i]), TideTime(tides[j]))
    {
      assert rows[i] != rows[j];
      assert LexLe(PredictionTime(rows[i]), PredictionTime(rows[j]));
    }
    var days, order := GroupByLocalDate(tides);
    DayKeysMembers(tides);
    forall k | k in days
      ensures forall x :: x in days[k] <==> x in tides && LocalDate(x) == k
      ensures Distinct(days[k]) && SortedByText(days[k], TideTime)
    {
      BucketMembers(tides, k);
      BucketDistinct(tides, k);
      BucketSorted(tides, k);
    }
    DayKeysFirstOrder(tides);
    r := Ok(RangeResponse(location, startStr, IsoDate(end), days, order));
  }
}
