/** `build_cache`: on start-up, empty the three tables, fill them with a
    year of computed predictions, hourly levels and sun times for every
    location, then overlay the published Admiralty predictions. */
module CacheBuilder {
  import opened Wrappers
  import opened Calendar
  import opened Seqs
  import opened Rounding
  import opened Tables
  import opened TideCalculator
  import opened ForecastPage
  import opened TideScraper
  import opened SunCalculator

  /** `LOCATIONS` */
  const Locations: seq<string> := ["newquay", "holywell", "polzeath", "port_isaac"]
  /** `PRECALC_DAYS`: days cached after today (today itself comes on top). */
  const PrecalcDays: nat := 365

  /** The statements issued against each table, in order. */
  datatype Writes = Writes(predictions: seq<(PredictionKey, real)>, hourly: seq<(HourlyKey, real)>, sun: seq<(SunKey, SunRow)>)

  function NoWrites(): Writes {
    Writes([], [], [])
  }

  function Concat(a: Writes, b: Writes): Writes {
    Writes(a.predictions + b.predictions, a.hourly + b.hourly, a.sun + b.sun)
  }

  /** The `predictions` row of one extreme: its instant as text, its kind's
      name and its height rounded to centimetres. */
  function PredictionWrite(loc: string, e: Extreme): (PredictionKey, real) {
    (PredictionKey(loc, IsoDateTime(e.time), KindName(e.kind)), Round2(e.height))
  }

  function PredictionWrites(loc: string, es: seq<Extreme>): seq<(PredictionKey, real)> {
    seq(|es|, i requires 0 <= i < |es| => PredictionWrite(loc, es[i]))
  }

  /** The `hourly_levels` row of one hourly sample, kept only when the sample
      falls on the day being cached. */
  function HourlyWrite(loc: string, d: Day, s: (Time, real)): Option<(HourlyKey, real)> {
    if DayOf(s.0) == d then Some((HourlyKey(loc, IsoDateTime(s.0)), Round2(s.1))) else None
  }

  function HourlyReader(loc: string, d: Day): ((Time, real)) -> Option<(HourlyKey, real)> {
    s => HourlyWrite(loc, d, s)
  }

  /** The `sun_times` row of a location and day. */
  function SunWrite(loc: string, d: Day, sun: SunTimes): (SunKey, SunRow) {
    (SunKey(loc, IsoDate(d)), SunRow(sun.sunrise, sun.sunset))
  }

  /** The statements `build_cache` issues for one location and day: the
      extremes found from its midnight, the hourly samples of that day, and
      its sun times.  Unknown locations issue none (the source raises
      `KeyError` for them, which every caller here rules out). */
  function LocationWrites(tc: Calculator, sunCalc: (string, Day) -> SunTimes): (string, Day) -> Writes {
    (loc: string, d: Day) =>
      if Knows(tc, loc) then
        Writes(PredictionWrites(loc, Extremes(tc, loc, Midnight(d))),
               Selected(HourlySamples(tc, loc, Midnight(d)), HourlyReader(loc, d)),
               [SunWrite(loc, d, sunCalc(loc, d))])
      else NoWrites()
  }

  /** `rows` gives the extremes statements of every known location and day. */
  ghost predicate DescribesPredictions(rows: (string, Day) -> Writes, tc: Calculator) {
    forall loc, d {:trigger Extremes(tc, loc, Midnight(d))} :: Knows(tc, loc) ==>
      rows(loc, d).predictions == PredictionWrites(loc, Extremes(tc, loc, Midnight(d)))
  }

  /** ... its hourly statements ... */
  ghost predicate DescribesHourly(rows: (string, Day) -> Writes, tc: Calculator) {
    forall loc, d {:trigger HourlyReader(loc, d)} :: Knows(tc, loc) ==>
      rows(loc, d).hourly == Selected(HourlySamples(tc, loc, Midnight(d)), HourlyReader(loc, d))
  }

  /** ... and its sun statement. */
  ghost predicate DescribesSun(rows: (string, Day) -> Writes, tc: Calculator, sunCalc: (string, Day) -> SunTimes) {
    forall loc, d {:trigger SunWrite(loc, d, sunCalc(loc, d))} :: Knows(tc, loc) ==>
      rows(loc, d).sun == [SunWrite(loc, d, sunCalc(loc, d))]
  }

  /** `rows` gives the statements of every known location and day, table by
      table.  Each link is used only where its own table's statements are in
      view, which keeps the content of a day's statements out of the
      reasoning about the loops that merely sequence them. */
  ghost predicate Describes(rows: (string, Day) -> Writes, tc: Calculator, sunCalc: (string, Day) -> SunTimes) {
    DescribesPredictions(rows, tc) && DescribesHourly(rows, tc) && DescribesSun(rows, tc, sunCalc)
  }

  lemma LocationWritesDescribes(tc: Calculator, sunCalc: (string, Day) -> SunTimes)
    ensures Describes(LocationWrites(tc, sunCalc), tc, sunCalc)
  {
  }

  /** The statements of one day, location after location. */
  function DayWrites(rows: (string, Day) -> Writes, locs: seq<string>, d: Day): Writes
    decreases |locs|
  {
    if locs == [] then NoWrites()
    else Concat(DayWrites(rows, locs[..|locs| - 1], d), rows(locs[|locs| - 1], d))
  }

  /** The statements of `n` days from `today`, day after day. */
  function CacheWrites(rows: (string, Day) -> Writes, locs: seq<string>, today: Day, n: nat): Writes
  {
    if n == 0 then NoWrites()
    else Concat(CacheWrites(rows, locs, today, n - 1), DayWrites(rows, locs, today + n - 1))
  }

  // ---------------------------------------------------------------------
  // The method

  /** One more extreme: its row is written over the table so far. */
  lemma ExtremeStep(start: map<PredictionKey, real>, loc: string, extremes: seq<Extreme>, i: nat)
    requires i < |extremes|
    ensures ApplyAll(start, PredictionWrites(loc, extremes[..i + 1])) ==
      ApplyAll(start, PredictionWrites(loc, extremes[..i]))[PredictionKey(loc, IsoDateTime(extremes[i].time), KindName(extremes[i].kind)) := Round2(extremes[i].height)]
  {
    assert extremes[..i + 1] == extremes[..i] + [extremes[i]];
    PredictionWritesSnoc(loc, extremes[..i], extremes[i]);
    ApplyAllSnoc(start, PredictionWrites(loc, extremes[..i]), PredictionWrite(loc, extremes[i]));
  }

  lemma PredictionWritesSnoc(loc: string, es: seq<Extreme>, x: Extreme)
    ensures PredictionWrites(loc, es + [x]) == PredictionWrites(loc, es) + [PredictionWrite(loc, x)]
  {
    var l, r := PredictionWrites(loc, es + [x]), PredictionWrites(loc, es) + [PredictionWrite(loc, x)];
    forall i | 0 <= i < |l|
      ensures l[i] == r[i]
    {
      if i < |es| {
        assert (es + [x])[i] == es[i];
      }
    }
  }

  /** The extremes loop: one upsert per extreme, each counted. */
  method StoreExtremes(db: Database, loc: string, extremes: seq<Extreme>) returns (count: nat)
    modifies db
    ensures db.predictions == ApplyAll(old(db.predictions), PredictionWrites(loc, extremes))
    ensures db.hourly == old(db.hourly) && db.sun == old(db.sun)
    ensures count == |extremes|
  {
    var start := db.predictions;
    count := 0;
    for i := 0 to |extremes|
      invariant db.predictions == ApplyAll(start, PredictionWrites(loc, extremes[..i]))
      invariant db.hourly == old(db.hourly) && db.sun == old(db.sun)
      invariant count == i
    {
      ExtremeStep(start, loc, extremes, i);
      var ext := extremes[i];
      db.UpsertPrediction(PredictionKey(loc, IsoDateTime(ext.time), KindName(ext.kind)), Round2(ext.height));
      count := count + 1;
    }
    assert extremes[..|extremes|] == extremes;
  }

  /** One more sample: a sample on the day adds its row, any other adds nothing. */
  lemma HourlyStep(start: map<HourlyKey, real>, loc: string, d: Day, hourly: seq<(Time, real)>, i: nat)
    requires i < |hourly|
    ensures var g := HourlyReader(loc, d);
      var before := Selected(hourly[..i], g);
      var after := Selected(hourly[..i + 1], g);
      var row := (HourlyKey(loc, IsoDateTime(hourly[i].0)), Round2(hourly[i].1));
      if DayOf(hourly[i].0) == d then
        ApplyAll(start, after) == ApplyAll(start, before)[row.0 := row.1] && |after| == |before| + 1
      else
        after == before
  {
    var g := HourlyReader(loc, d);
    assert hourly[..i + 1] == hourly[..i] + [hourly[i]];
    SelectedSnoc(hourly[..i], hourly[i], g);
    assert g(hourly[i]) == HourlyWrite(loc, d, hourly[i]);
    if DayOf(hourly[i].0) == d {
      ApplyAllSnoc(start, Selected(hourly[..i], g), (HourlyKey(loc, IsoDateTime(hourly[i].0)), Round2(hourly[i].1)));
    }
  }

  /** The hourly loop: an upsert for each sample on the day, each counted. */
  method StoreHourly(db: Database, loc: string, d: Day, hourly: seq<(Time, real)>) returns (count: nat)
    modifies db
    ensures db.hourly == ApplyAll(old(db.hourly), Selected(hourly, HourlyReader(loc, d)))
    ensures db.predictions == old(db.predictions) && db.sun == old(db.sun)
    ensures count == |Selected(hourly, HourlyReader(loc, d))|
  {
    var start := db.hourly;
    ghost var g := HourlyReader(loc, d);
    count := 0;
    for i := 0 to |hourly|
      invariant db.hourly == ApplyAll(start, Selected(hourly[..i], g))
      invariant db.predictions == old(db.predictions) && db.sun == old(db.sun)
      invariant count == |Selected(hourly[..i], g)|
    {
      HourlyStep(start, loc, d, hourly, i);
      var (hDt, hVal) := hourly[i];
      if DayOf(hDt) == d {
        db.UpsertHourly(HourlyKey(loc, IsoDateTime(hDt)), Round2(hVal));
        count := count + 1;
      }
    }
    assert hourly[..|hourly|] == hourly;
  }

  /** The body of the location loop. */
  method CacheLocation(db: Database, tc: Calculator, sunCalc: (string, Day) -> SunTimes, loc: string, d: Day)
    returns (tides: nat, hours: nat)
    requires Knows(tc, loc)
    modifies db
    ensures db.predictions == ApplyAll(old(db.predictions), PredictionWrites(loc, Extremes(tc, loc, Midnight(d))))
    ensures db.hourly == ApplyAll(old(db.hourly), Selected(HourlySamples(tc, loc, Midnight(d)), HourlyReader(loc, d)))
    ensures db.sun == ApplyAll(old(db.sun), [SunWrite(loc, d, sunCalc(loc, d))])
    ensures tides == |PredictionWrites(loc, Extremes(tc, loc, Midnight(d)))|
    ensures hours == |Selected(HourlySamples(tc, loc, Midnight(d)), HourlyReader(loc, d))|
  {
    var dt := Midnight(d);
    var extremes := FindExtremes(tc, loc, dt);
    tides := StoreExtremes(db, loc, extremes);
    var hourly := HourlyHeights(tc, loc, dt);
    hours := StoreHourly(db, loc, d, hourly);
    var sunData := sunCalc(loc, d);
    ApplyAllSnoc(old(db.sun), [], SunWrite(loc, d, sunData));
    db.UpsertSun(SunKey(loc, IsoDate(d)), SunRow(sunData.sunrise, sunData.sunset));
  }

  /** The body of the day loop: every location of `locs` (`LOCATIONS`) in turn. */
  method CacheDay(db: Database, tc: Calculator, sunCalc: (string, Day) -> SunTimes, locs: seq<string>, d: Day,
                  ghost rows: (string, Day) -> Writes)
    returns (tides: nat, hours: nat, suns: nat)
    requires forall loc :: loc in locs ==> Knows(tc, loc)
    requires Describes(rows, tc, sunCalc)
    modifies db
    ensures var w := DayWrites(rows, locs, d);
      db.predictions == ApplyAll(old(db.predictions), w.predictions) &&
      db.hourly == ApplyAll(old(db.hourly), w.hourly) &&
      db.sun == ApplyAll(old(db.sun), w.sun) &&
      tides == |w.predictions| && hours == |w.hourly| && suns == |w.sun|
  {
    tides, hours, suns := 0, 0, 0;
    for j := 0 to |locs|
      invariant var w := DayWrites(rows, locs[..j], d);
        db.predictions == ApplyAll(old(db.predictions), w.predictions) &&
        db.hourly == ApplyAll(old(db.hourly), w.hourly) &&
        db.sun == ApplyAll(old(db.sun), w.sun) &&
        tides == |w.predictions| && hours == |w.hourly| && suns == |w.sun|
    {
      var loc := locs[j];
      assert locs[..j + 1][..j] == locs[..j];
      ghost var w := DayWrites(rows, locs[..j], d);
      ghost var lw := rows(loc, d);
      assert DayWrites(rows, locs[..j + 1], d) == Concat(w, lw);
      ApplyAllAppend(old(db.predictions), w.predictions, lw.predictions);
      ApplyAllAppend(old(db.hourly), w.hourly, lw.hourly);
      ApplyAllAppend(old(db.sun), w.sun, lw.sun);
      var t, h := CacheLocation(db, tc, sunCalc, loc, d);
      tides, hours, suns := tides + t, hours + h, suns + 1;
    }
    assert locs[..|locs|] == locs;
  }

  lemma CacheWritesNext(rows: (string, Day) -> Writes, locs: seq<string>, today: Day, n: nat)
    ensures CacheWrites(rows, locs, today, n + 1) == Concat(CacheWrites(rows, locs, today, n), DayWrites(rows, locs, today + n))
  {
  }

  /** The tables after one more day's statements are those the statements
      of all days so far give. */
  lemma TablesStep(w: Writes, dw: Writes)
    ensures ApplyAll(ApplyAll(map[], w.predictions), dw.predictions) == ApplyAll(map[], Concat(w, dw).predictions)
    ensures ApplyAll(ApplyAll(map[], w.hourly), dw.hourly) == ApplyAll(map[], Concat(w, dw).hourly)
    ensures ApplyAll(ApplyAll(map[], w.sun), dw.sun) == ApplyAll(map[], Concat(w, dw).sun)
  {
    ApplyAllAppend(map[], w.predictions, dw.predictions);
    ApplyAllAppend(map[], w.hourly, dw.hourly);
    ApplyAllAppend(map[], w.sun, dw.sun);
  }

  /** `build_cache` up to its commit: the three tables emptied, then every
      day from today to `PrecalcDays` ahead cached, counting the rows. */
  method FillCache(db: Database, tc: Calculator, sunCalc: (string, Day) -> SunTimes, locs: seq<string>, today: Day,
                   ghost rows: (string, Day) -> Writes)
    returns (totalTides: nat, totalHourly: nat, totalSun: nat)
    requires forall loc :: loc in locs ==> Knows(tc, loc)
    requires Describes(rows, tc, sunCalc)
    modifies db
    ensures var w := CacheWrites(rows, locs, today, PrecalcDays + 1);
      db.predictions == ApplyAll(map[], w.predictions) &&
      db.hourly == ApplyAll(map[], w.hourly) &&
      db.sun == ApplyAll(map[], w.sun) &&
      totalTides == |w.predictions| && totalHourly == |w.hourly| && totalSun == |w.sun|
  {
    var endDate := today + PrecalcDays;
    db.ClearPredictions();
    db.ClearHourly();
    db.ClearSun();
    totalTides, totalHourly, totalSun := 0, 0, 0;
    var current := today;
    ghost var done := NoWrites();
    while current <= endDate
      invariant today <= current <= endDate + 1
      invariant done == CacheWrites(rows, locs, today, current - today)
      invariant db.predictions == ApplyAll(map[], done.predictions)
      invariant db.hourly == ApplyAll(map[], done.hourly)
      invariant db.sun == ApplyAll(map[], done.sun)
      invariant totalTides == |done.predictions| && totalHourly == |done.hourly| && totalSun == |done.sun|
      decreases endDate - current
    {
      CacheWritesNext(rows, locs, today, current - today);
      TablesStep(done, DayWrites(rows, locs, current));
      var t, h, s := CacheDay(db, tc, sunCalc, locs, current, rows);
      totalTides, totalHourly, totalSun := totalTides + t, totalHourly + h, totalSun + s;
      done := CacheWrites(rows, locs, today, current + 1 - today);
      current := current + 1;
    }
  }

  /** `build_cache`: the computed year, then the published predictions laid
      over it.  The tallies it logs are returned. */
  method BuildCache(db: Database, tc: Calculator, sunCalc: (string, Day) -> SunTimes, today: Day,
                    ukToUtc: DateTime -> DateTime, fetch: (nat, string) -> Option<Extracted>,
                    ghost rows: (string, Day) -> Writes)
    returns (totalTides: nat, totalHourly: nat, totalSun: nat)
    requires forall loc :: loc in Locations ==> Knows(tc, loc)
    requires Describes(rows, tc, sunCalc)
    modifies db
    ensures var w := CacheWrites(rows, Locations, today, PrecalcDays + 1);
      db.predictions == OverlayRun(ukToUtc, fetch, Start(ApplyAll(map[], w.predictions)), ScrapeSlugs).table &&
      db.hourly == ApplyAll(map[], w.hourly) &&
      db.sun == ApplyAll(map[], w.sun) &&
      totalTides == |w.predictions| && totalHourly == |w.hourly| && totalSun == |w.sun|
  {
    totalTides, totalHourly, totalSun := FillCache(db, tc, sunCalc, Locations, today, rows);
    var _, _ := ScrapeAndOverlay(db, ukToUtc, fetch);
  }

  // ---------------------------------------------------------------------
  // What the cache holds

  /** The instant `h` hours after midnight of `d`. */
  function HourOf(d: Day, h: int): Time {
    Midnight(d) + h * MicrosPerHour
  }

  /** The hourly row a location stores for hour `h` of day `d`. */
  function HourRow(tc: Calculator, loc: string, d: Day, h: int): (HourlyKey, real)
    requires Knows(tc, loc)
  {
    (HourlyKey(loc, IsoDateTime(HourOf(d, h))), Round2(HeightAt(tc, loc, HourOf(d, h))))
  }

  /** Sample `h` of the day is kept, as the row of hour `h`, exactly when
      `h` is below 24. */
  lemma HourlySampleKept(tc: Calculator, loc: string, d: Day, h: int)
    requires Knows(tc, loc) && 0 <= h < 25
    ensures HourlyWrite(loc, d, HourlySamples(tc, loc, Midnight(d))[h]) ==
      if h < 24 then Some(HourRow(tc, loc, d, h)) else None
  {
    assert MidnightOf(Midnight(d)) == Midnight(d) by { DayOfMidnightPlus(d, 0); }
    var x := h * MicrosPerHour;
    assert 0 <= x < MicrosPerDay <==> h < 24 by {
      if h < 24 { assert x <= 23 * MicrosPerHour; } else { assert x == MicrosPerDay; }
    }
    assert HourlySamples(tc, loc, Midnight(d))[h] == (HourOf(d, h), HeightAt(tc, loc, HourOf(d, h)));
    DayOfMidnightPlus(d, x);
  }

  /** Of the 25 hourly samples only hours 0 to 23 are stored: hour 24 is the
      next day's midnight. */
  lemma HourlyWritesExact(tc: Calculator, loc: string, d: Day)
    requires Knows(tc, loc)
    ensures Selected(HourlySamples(tc, loc, Midnight(d)), HourlyReader(loc, d)) ==
      seq(24, h => HourRow(tc, loc, d, h))
  {
    var samples := HourlySamples(tc, loc, Midnight(d));
    var g := HourlyReader(loc, d);
    var rows := seq(24, h => HourRow(tc, loc, d, h));
    assert samples == samples[..24] + [samples[24]];
    SelectedAppend(samples[..24], [samples[24]], g);
    HourlySampleKept(tc, loc, d, 24);
    assert Selected([samples[24]], g) == [] by {
      assert [samples[24]][..0] == [];
    }
    forall h | 0 <= h < 24
      ensures g(samples[..24][h]) == Some(rows[h])
    {
      HourlySampleKept(tc, loc, d, h);
    }
    SelectedExactly(samples[..24], g, rows);
  }

  /** Every location writes one sun row a day and 24 hourly rows. */
  lemma {:induction false} DayWritesCounts(rows: (string, Day) -> Writes, tc: Calculator, sunCalc: (string, Day) -> SunTimes,
                                           locs: seq<string>, d: Day)
    requires forall loc :: loc in locs ==> Knows(tc, loc)
    requires Describes(rows, tc, sunCalc)
    ensures |DayWrites(rows, locs, d).hourly| == 24 * |locs|
    ensures |DayWrites(rows, locs, d).sun| == |locs|
    decreases |locs|
  {
    if locs != [] {
      var loc := locs[|locs| - 1];
      DayWritesCounts(rows, tc, sunCalc, locs[..|locs| - 1], d);
      HourlyWritesExact(tc, loc, d);
      assert rows(loc, d).sun == [SunWrite(loc, d, sunCalc(loc, d))];
    }
  }

  lemma {:induction false} CacheWritesCounts(rows: (string, Day) -> Writes, tc: Calculator, sunCalc: (string, Day) -> SunTimes,
                                             locs: seq<string>, today: Day, n: nat)
    requires forall loc :: loc in locs ==> Knows(tc, loc)
    requires Describes(rows, tc, sunCalc)
    ensures |CacheWrites(rows, locs, today, n).hourly| == 24 * |locs| * n
    ensures |CacheWrites(rows, locs, today, n).sun| == |locs| * n
  {
    if n > 0 {
      CacheWritesCounts(rows, tc, sunCalc, locs, today, n - 1);
      DayWritesCounts(rows, tc, sunCalc, locs, today + n - 1);
    }
  }

  /** The logged tallies of a full build: 366 days of four locations give
      35136 hourly levels and 1464 sun times. */
  lemma BuildTallies(rows: (string, Day) -> Writes, tc: Calculator, sunCalc: (string, Day) -> SunTimes, today: Day)
    requires forall loc :: loc in Locations ==> Knows(tc, loc)
    requires Describes(rows, tc, sunCalc)
    ensures |CacheWrites(rows, Locations, today, PrecalcDays + 1).hourly| == 35136
    ensures |CacheWrites(rows, Locations, today, PrecalcDays + 1).sun| == 1464
  {
    CacheWritesCounts(rows, tc, sunCalc, Locations, today, PrecalcDays + 1);
  }

  /** A statement of a day is a statement of one of its locations. */
  lemma {:induction false} DayWritesMembers(rows: (string, Day) -> Writes, locs: seq<string>, d: Day)
    ensures forall x :: x in DayWrites(rows, locs, d).predictions <==> exists loc :: loc in locs && x in rows(loc, d).predictions
    ensures forall x :: x in DayWrites(rows, locs, d).hourly <==> exists loc :: loc in locs && x in rows(loc, d).hourly
    ensures forall x :: x in DayWrites(rows, locs, d).sun <==> exists loc :: loc in locs && x in rows(loc, d).sun
    decreases |locs|
  {
    if locs != [] {
      var init := locs[..|locs| - 1];
      DayWritesMembers(rows, init, d);
      assert locs == init + [locs[|locs| - 1]];
    }
  }

  /** A statement of the build is a statement of one location on one of
      the cached days. */
  lemma {:induction false} CacheWritesMembers(rows: (string, Day) -> Writes, locs: seq<string>, today: Day, n: nat)
    ensures forall x :: x in CacheWrites(rows, locs, today, n).predictions <==>
      exists d, loc :: today <= d < today + n && loc in locs && x in rows(loc, d).predictions
    ensures forall x :: x in CacheWrites(rows, locs, today, n).hourly <==>
      exists d, loc :: today <= d < today + n && loc in locs && x in rows(loc, d).hourly
    ensures forall x :: x in CacheWrites(rows, locs, today, n).sun <==>
      exists d, loc :: today <= d < today + n && loc in locs && x in rows(loc, d).sun
  {
    if n > 0 {
      CacheWritesMembers(rows, locs, today, n - 1);
      DayWritesMembers(rows, locs, today + n - 1);
    }
  }

  /** After the build each table holds a row for every statement of every
      location and cached day, and each of its rows is the value of such a
      statement (the last one issued for the key). */
  lemma PredictionsCached(rows: (string, Day) -> Writes, locs: seq<string>, today: Day, n: nat)
    ensures var t := ApplyAll(map[], CacheWrites(rows, locs, today, n).predictions);
      (forall d, loc, x :: today <= d < today + n && loc in locs && x in rows(loc, d).predictions ==> x.0 in t) &&
      (forall k :: k in t ==>
        exists d, loc :: today <= d < today + n && loc in locs && (k, t[k]) in rows(loc, d).predictions)
  {
    CacheWritesMembers(rows, locs, today, n);
    ApplyAllFresh(CacheWrites(rows, locs, today, n).predictions);
  }

  /** The location and day whose statement left a given prediction row. */
  lemma PredictionOrigin(rows: (string, Day) -> Writes, locs: seq<string>, today: Day, n: nat, k: PredictionKey)
    returns (d: Day, loc: string)
    requires k in ApplyAll(map[], CacheWrites(rows, locs, today, n).predictions)
    ensures var t := ApplyAll(map[], CacheWrites(rows, locs, today, n).predictions);
      today <= d < today + n && loc in locs && (k, t[k]) in rows(loc, d).predictions
  {
    PredictionsCached(rows, locs, today, n);
    var t := ApplyAll(map[], CacheWrites(rows, locs, today, n).predictions);
    d, loc :| today <= d < today + n && loc in locs && (k, t[k]) in rows(loc, d).predictions;
  }

  lemma HourlyCached(rows: (string, Day) -> Writes, locs: seq<string>, today: Day, n: nat)
    ensures var t := ApplyAll(map[], CacheWrites(rows, locs, today, n).hourly);
      (forall d, loc, x :: today <= d < today + n && loc in locs && x in rows(loc, d).hourly ==> x.0 in t) &&
      (forall k :: k in t ==>
        exists d, loc :: today <= d < today + n && loc in locs && (k, t[k]) in rows(loc, d).hourly)
  {
    CacheWritesMembers(rows, locs, today, n);
    ApplyAllFresh(CacheWrites(rows, locs, today, n).hourly);
  }

  lemma SunCached(rows: (string, Day) -> Writes, locs: seq<string>, today: Day, n: nat)
    ensures var t := ApplyAll(map[], CacheWrites(rows, locs, today, n).sun);
      (forall d, loc, x :: today <= d < today + n && loc in locs && x in rows(loc, d).sun ==> x.0 in t) &&
      (forall k :: k in t ==>
        exists d, loc :: today <= d < today + n && loc in locs && (k, t[k]) in rows(loc, d).sun)
  {
    CacheWritesMembers(rows, locs, today, n);
    ApplyAllFresh(CacheWrites(rows, locs, today, n).sun);
  }

  /** The statements of one location and day: its extremes, exactly the
      hours 0 to 23 of the day, and one sun row. */
  lemma LocationRows(rows: (string, Day) -> Writes, tc: Calculator, sunCalc: (string, Day) -> SunTimes, loc: string, d: Day)
    requires Knows(tc, loc)
    requires Describes(rows, tc, sunCalc)
    ensures rows(loc, d) ==
      Writes(PredictionWrites(loc, Extremes(tc, loc, Midnight(d))),
             seq(24, h => HourRow(tc, loc, d, h)),
             [SunWrite(loc, d, sunCalc(loc, d))])
  {
    HourlyWritesExact(tc, loc, d);
  }

  /** The rows of a list of extremes are the rows of its members. */
  lemma PredictionWritesMembers(loc: string, es: seq<Extreme>)
    ensures forall e :: e in es ==> PredictionWrite(loc, e) in PredictionWrites(loc, es)
    ensures forall x :: x in PredictionWrites(loc, es) ==> exists e :: e in es && PredictionWrite(loc, e) == x
  {
    var ws := PredictionWrites(loc, es);
    forall e | e in es
      ensures PredictionWrite(loc, e) in ws
    {
      var j :| 0 <= j < |es| && es[j] == e;
      assert ws[j] == PredictionWrite(loc, e);
    }
    forall x | x in ws
      ensures exists e :: e in es && PredictionWrite(loc, e) == x
    {
      var j :| 0 <= j < |ws| && ws[j] == x;
      assert es[j] in es;
    }
  }

  /** The sun table holds one row per location and cached day, keyed by the
      day's date. */
  lemma SunTableKeys(rows: (string, Day) -> Writes, tc: Calculator, sunCalc: (string, Day) -> SunTimes,
                     locs: seq<string>, today: Day, n: nat)
    requires forall loc :: loc in locs ==> Knows(tc, loc)
    requires DescribesSun(rows, tc, sunCalc)
    ensures forall d, loc :: today <= d < today + n && loc in locs ==>
      SunWrite(loc, d, sunCalc(loc, d)).0 in ApplyAll(map[], CacheWrites(rows, locs, today, n).sun)
  {
    SunCached(rows, locs, today, n);
    forall d, loc | today <= d < today + n && loc in locs
      ensures SunWrite(loc, d, sunCalc(loc, d)).0 in ApplyAll(map[], CacheWrites(rows, locs, today, n).sun)
    {
      assert rows(loc, d).sun == [SunWrite(loc, d, sunCalc(loc, d))];
      assert rows(loc, d).sun[0] in rows(loc, d).sun;
    }
  }

  /** Every row of the sun table is the calculator's sunrise and sunset for
      one location and cached day. */
  lemma SunTableRows(rows: (string, Day) -> Writes, tc: Calculator, sunCalc: (string, Day) -> SunTimes,
                     locs: seq<string>, today: Day, n: nat)
    requires forall loc :: loc in locs ==> Knows(tc, loc)
    requires DescribesSun(rows, tc, sunCalc)
    ensures var t := ApplyAll(map[], CacheWrites(rows, locs, today, n).sun);
      forall k :: k in t ==>
        exists d, loc :: today <= d < today + n && loc in locs && SunWrite(loc, d, sunCalc(loc, d)) == (k, t[k])
  {
    var t := ApplyAll(map[], CacheWrites(rows, locs, today, n).sun);
    SunCached(rows, locs, today, n);
    forall k | k in t
      ensures exists d, loc :: today <= d < today + n && loc in locs && SunWrite(loc, d, sunCalc(loc, d)) == (k, t[k])
    {
      var d, loc :| today <= d < today + n && loc in locs && (k, t[k]) in rows(loc, d).sun;
      var x := SunWrite(loc, d, sunCalc(loc, d));
      assert rows(loc, d).sun == [x];
      assert (k, t[k]) in [x];
      assert (k, t[k]) == x;
    }
  }

  /** The hourly table holds a row for each location, cached day and hour 0
      to 23. */
  lemma HourlyTableKeys(rows: (string, Day) -> Writes, tc: Calculator, sunCalc: (string, Day) -> SunTimes,
                        locs: seq<string>, today: Day, n: nat)
    requires forall loc :: loc in locs ==> Knows(tc, loc)
    requires DescribesHourly(rows, tc)
    ensures forall d, loc, h :: today <= d < today + n && loc in locs && 0 <= h < 24 ==>
      HourRow(tc, loc, d, h).0 in ApplyAll(map[], CacheWrites(rows, locs, today, n).hourly)
  {
    HourlyCached(rows, locs, today, n);
    forall d, loc, h | today <= d < today + n && loc in locs && 0 <= h < 24
      ensures HourRow(tc, loc, d, h).0 in ApplyAll(map[], CacheWrites(rows, locs, today, n).hourly)
    {
      HourlyWritesExact(tc, loc, d);
      assert rows(loc, d).hourly[h] == HourRow(tc, loc, d, h);
    }
  }

  /** Every row of the hourly table is the rounded level of one location at
      one of the hours 0 to 23 of a cached day. */
  lemma HourlyTableRows(rows: (string, Day) -> Writes, tc: Calculator, sunCalc: (string, Day) -> SunTimes,
                        locs: seq<string>, today: Day, n: nat)
    requires forall loc :: loc in locs ==> Knows(tc, loc)
    requires DescribesHourly(rows, tc)
    ensures var t := ApplyAll(map[], CacheWrites(rows, locs, today, n).hourly);
      forall k :: k in t ==>
        exists d, loc, h :: today <= d < today + n && loc in locs && 0 <= h < 24 && HourRow(tc, loc, d, h) == (k, t[k])
  {
    var t := ApplyAll(map[], CacheWrites(rows, locs, today, n).hourly);
    HourlyCached(rows, locs, today, n);
    forall k | k in t
      ensures exists d, loc, h :: today <= d < today + n && loc in locs && 0 <= h < 24 && HourRow(tc, loc, d, h) == (k, t[k])
    {
      var d, loc :| today <= d < today + n && loc in locs && (k, t[k]) in rows(loc, d).hourly;
      var hs := rows(loc, d).hourly;
      var h :| 0 <= h < |hs| && hs[h] == (k, t[k]);
      HourlyWritesExact(tc, loc, d);
      assert hs[h] == HourRow(tc, loc, d, h);
    }
  }

  /** The predictions table, before the overlay, holds a row for every
      extreme of every location and cached day, and every row is such an
      extreme's instant, kind and rounded height. */
  lemma PredictionTable(rows: (string, Day) -> Writes, tc: Calculator, sunCalc: (string, Day) -> SunTimes,
                        locs: seq<string>, today: Day, n: nat)
    requires forall loc :: loc in locs ==> Knows(tc, loc)
    requires DescribesPredictions(rows, tc)
    ensures var t := ApplyAll(map[], CacheWrites(rows, locs, today, n).predictions);
      (forall d, loc, e :: today <= d < today + n && loc in locs && e in Extremes(tc, loc, Midnight(d)) ==>
        PredictionWrite(loc, e).0 in t) &&
      (forall k :: k in t ==>
        exists d, loc, e :: today <= d < today + n && loc in locs && e in Extremes(tc, loc, Midnight(d)) &&
          PredictionWrite(loc, e) == (k, t[k]))
  {
    var t := ApplyAll(map[], CacheWrites(rows, locs, today, n).predictions);
    PredictionsCached(rows, locs, today, n);
    forall d, loc, e | today <= d < today + n && loc in locs && e in Extremes(tc, loc, Midnight(d))
      ensures PredictionWrite(loc, e).0 in t
    {
      PredictionWritesMembers(loc, Extremes(tc, loc, Midnight(d)));
    }
    forall k | k in t
      ensures exists d, loc, e ::
                today <= d < today + n && loc in locs && e in Extremes(tc, loc, Midnight(d)) &&
                PredictionWrite(loc, e) == (k, t[k])
    {
      var d, loc := PredictionOrigin(rows, locs, today, n, k);
      PredictionWritesMembers(loc, Extremes(tc, loc, Midnight(d)));
    }
  }
}
