/** The live scraper: reads the ADMIRALTY forecasts of today's page for each
    location and overwrites that location's harmonic predictions for the
    dates the page covers.  The HTTP request and the Europe/London to UTC
    conversion are given functions. */
module TideScraper {
  import opened Wrappers
  import opened Text
  import opened Calendar
  import opened Seqs
  import opened Rounding
  import opened Tables
  import opened ForecastPage

  /** One result of `_parse_forecasts`. */
  datatype Forecast = Forecast(datetimeUtc: string, kind: string, height: real)

  /** The list `_parse_forecasts` returns, or the exception it lets escape. */
  datatype Parsed = Raised | Parsed(forecasts: seq<Forecast>)

  /** What one record becomes: nothing when the filter rejects it or no
      layout reads its first 19 characters; otherwise the UTC instant in
      "%Y-%m-%dT%H:%M:%S", "high" for HW and "low" for anything else, and
      the height. */
  function ForecastOf(ukToUtc: DateTime -> DateTime, r: RawRecord): (f: Option<Forecast>)
    ensures f.Some? <==> Keep(r) && ParseLocal(r.forecastAt.value).Some?
    ensures f.Some? ==>
      f.value.datetimeUtc == Render(ukToUtc(ParseLocal(r.forecastAt.value).value), IsoSeconds) &&
      (f.value.kind == "high" <==> IsHighWater(r)) &&
      (f.value.kind == "high" || f.value.kind == "low") &&
      f.value.height == r.tideHeight.value
  {
    if !Keep(r) then None
    else match ParseLocal(r.forecastAt.value)
      case None => None
      case Some(local) =>
        Some(Forecast(Render(ukToUtc(local), IsoSeconds), if r.tideType.value == "HW" then "high" else "low", r.tideHeight.value))
  }

  function Reader(ukToUtc: DateTime -> DateTime): RawRecord -> Option<Forecast> {
    r => ForecastOf(ukToUtc, r)
  }

  /** `_parse_forecasts` as a value: no block or invalid JSON gives the empty
      list, and otherwise the accepted records in input order. */
  function ParsePage(ukToUtc: DateTime -> DateTime, page: Extracted): Parsed {
    match page
    case NoForecastBlock => Parsed([])
    case InvalidJson => Parsed([])
    case Malformed => Raised
    case Forecasts(records) => Parsed(Selected(records, Reader(ukToUtc)))
  }

  /** `_parse_forecasts` */
  method ParseForecasts(ukToUtc: DateTime -> DateTime, page: Extracted) returns (result: Parsed)
    ensures result == ParsePage(ukToUtc, page)
    ensures page.NoForecastBlock? || page.InvalidJson? ==> result == Parsed([])
  {
    if page.NoForecastBlock? || page.InvalidJson? {
      return Parsed([]);
    }
    if page.Malformed? {
      return Raised;
    }
    var records := page.records;
    var results: seq<Forecast> := [];
    for i := 0 to |records|
      invariant results == Selected(records[..i], Reader(ukToUtc))
    {
      assert records[..i + 1][..i] == records[..i];
      var f := records[i];
      if f.forecastAt.Some? && f.forecastAt.value != "" && f.tideHeight.Some? && f.tideType.Some? && f.tideType.value != "" {
        var local := StrptimeFirst(f.forecastAt.value);
        if local.Some? {
          var utc := ukToUtc(local.value);
          results := results + [Forecast(Render(utc, IsoSeconds), if f.tideType.value == "HW" then "high" else "low", f.tideHeight.value)];
        }
      }
    }
    assert records[..|records|] == records;
    result := Parsed(results);
  }

  /** The accepted records keep their input order: forecast `j` comes from
      record `idx[j]`, the indices rise, and every record the filter and a
      layout accept has its place. */
  lemma ParsedInOrder(ukToUtc: DateTime -> DateTime, records: seq<RawRecord>) returns (idx: seq<nat>)
    ensures var fs := ParsePage(ukToUtc, Forecasts(records)).forecasts;
      |idx| == |fs| && Increasing(idx) &&
      (forall j :: 0 <= j < |idx| ==> idx[j] < |records| && ForecastOf(ukToUtc, records[idx[j]]) == Some(fs[j])) &&
      (forall i :: 0 <= i < |records| && Keep(records[i]) && ParseLocal(records[i].forecastAt.value).Some? ==> i in idx)
  {
    idx := SelectedOrigins(records, Reader(ukToUtc));
  }

  // ---------------------------------------------------------------------
  // The overlay

  /** `SCRAPE_SLUGS`, in its iteration order: location and the page it reads. */
  const ScrapeSlugs: seq<(string, string)> :=
    [("newquay", "newquay"), ("holywell", "newquay"), ("polzeath", "padstow"), ("port_isaac", "port-isaac")]

  /** The UTC dates a forecast list covers: `f["datetime_utc"][:10]`. */
  function Covered(fs: seq<Forecast>): (dates: set<string>)
    ensures forall i :: 0 <= i < |fs| ==> Take(fs[i].datetimeUtc, 10) in dates
    ensures forall d :: d in dates ==> exists i :: 0 <= i < |fs| && Take(fs[i].datetimeUtc, 10) == d
  {
    set i | 0 <= i < |fs| :: Take(fs[i].datetimeUtc, 10)
  }

  /** The deletes for all covered dates of one location, in any order. */
  function WithoutDates(t: map<PredictionKey, real>, location: string, dates: set<string>): (r: map<PredictionKey, real>)
    ensures forall k :: k in r <==> k in t && !(k.location == location && exists d :: d in dates && StartsWith(k.datetimeUtc, d))
    ensures forall k :: k in r ==> r[k] == t[k]
  {
    map k | k in t && !(k.location == location && exists d :: d in dates && StartsWith(k.datetimeUtc, d)) :: t[k]
  }

  /** One more date's delete. */
  lemma WithoutDatesAdd(t: map<PredictionKey, real>, location: string, dates: set<string>, d: string)
    ensures WithoutDates(t, location, dates + {d}) == WithoutLike(WithoutDates(t, location, dates), location, d)
  {
  }

  /** The `INSERT OR REPLACE` statements for one location's forecasts. */
  function Inserts(location: string, fs: seq<Forecast>): (ins: seq<(PredictionKey, real)>)
    ensures |ins| == |fs|
    ensures forall i :: 0 <= i < |fs| ==>
      ins[i] == (PredictionKey(location, fs[i].datetimeUtc, fs[i].kind), Round2(fs[i].height))
  {
    seq(|fs|, i requires 0 <= i < |fs| => (PredictionKey(location, fs[i].datetimeUtc, fs[i].kind), Round2(fs[i].height)))
  }

  /** One location's overlay: its rows on covered dates deleted, then its
      forecasts inserted with heights rounded to hundredths. */
  function OverlayLocation(t: map<PredictionKey, real>, location: string, fs: seq<Forecast>): map<PredictionKey, real> {
    ApplyAll(WithoutDates(t, location, Covered(fs)), Inserts(location, fs))
  }

  /** A page that parses to a non-empty list. */
  predicate Usable(ukToUtc: DateTime -> DateTime, response: Option<Extracted>) {
    response.Some? && ParsePage(ukToUtc, response.value).Parsed? && ParsePage(ukToUtc, response.value).forecasts != []
  }

  /** The slug cache and the slugs requested so far. */
  datatype Log = Log(cache: map<string, seq<Forecast>>, requests: seq<string>)

  /** The forecasts a location overlays, if any: the cached list of its
      slug, or else the page its request returns when that parses to a
      non-empty list.  `fetch(n, slug)` is the page the `n`-th request (for
      `slug` and today's date) returns, `None` when it fails. */
  function Used(ukToUtc: DateTime -> DateTime, fetch: (nat, string) -> Option<Extracted>, log: Log, slug: string): Option<seq<Forecast>> {
    if slug in log.cache then Some(log.cache[slug])
    else if Usable(ukToUtc, fetch(|log.requests|, slug)) then Some(ParsePage(ukToUtc, fetch(|log.requests|, slug).value).forecasts)
    else None
  }

  /** A cached slug is reused without a request; otherwise the slug is
      requested, and cached only when its page is usable. */
  function LogStep(ukToUtc: DateTime -> DateTime, fetch: (nat, string) -> Option<Extracted>, log: Log, slug: string): Log {
    if slug in log.cache then log
    else
      var used := Used(ukToUtc, fetch, log, slug);
      Log(if used.Some? then log.cache[slug := used.value] else log.cache, log.requests + [slug])
  }

  /** The state the loop of `scrape_and_overlay` carries: the table, the
      slug cache with the request log, and `total_inserted`. */
  datatype OverlayState = OverlayState(table: map<PredictionKey, real>, log: Log, inserted: nat)

  /** One location of the loop.  A location without forecasts to use (its
      fetch failed, its page held none, or parsing raised and was caught)
      leaves the table and the counter as they were. */
  function Step(ukToUtc: DateTime -> DateTime, fetch: (nat, string) -> Option<Extracted>,
                s: OverlayState, location: string, slug: string): OverlayState
  {
    var used := Used(ukToUtc, fetch, s.log, slug);
    OverlayState(
      if used.Some? then OverlayLocation(s.table, location, used.value) else s.table,
      LogStep(ukToUtc, fetch, s.log, slug),
      s.inserted + if used.Some? then |used.value| else 0)
  }

  /** The loop over the first `|pairs|` entries. */
  function OverlayRun(ukToUtc: DateTime -> DateTime, fetch: (nat, string) -> Option<Extracted>,
                      s: OverlayState, pairs: seq<(string, string)>): OverlayState
    decreases |pairs|
  {
    if pairs == [] then s
    else
      var last := pairs[|pairs| - 1];
      Step(ukToUtc, fetch, OverlayRun(ukToUtc, fetch, s, pairs[..|pairs| - 1]), last.0, last.1)
  }

  /** The cache and request log of the loop alone. */
  function LogRun(ukToUtc: DateTime -> DateTime, fetch: (nat, string) -> Option<Extracted>,
                  log: Log, pairs: seq<(string, string)>): Log
    decreases |pairs|
  {
    if pairs == [] then log
    else LogStep(ukToUtc, fetch, LogRun(ukToUtc, fetch, log, pairs[..|pairs| - 1]), pairs[|pairs| - 1].1)
  }

  function Start(table: map<PredictionKey, real>): OverlayState {
    OverlayState(table, Log(map[], []), 0)
  }

  /** `scrape_and_overlay` on the predictions table. */
  method ScrapeAndOverlay(db: Database, ukToUtc: DateTime -> DateTime, fetch: (nat, string) -> Option<Extracted>)
    returns (totalInserted: nat, requests: seq<string>)
    modifies db
    ensures var s := OverlayRun(ukToUtc, fetch, Start(old(db.predictions)), ScrapeSlugs);
      db.predictions == s.table && totalInserted == s.inserted && requests == s.log.requests
    ensures db.hourly == old(db.hourly) && db.sun == old(db.sun)
  {
    var slugCache: map<string, seq<Forecast>> := map[];
    totalInserted := 0;
    requests := [];
    for i := 0 to |ScrapeSlugs|
      invariant OverlayRun(ukToUtc, fetch, Start(old(db.predictions)), ScrapeSlugs[..i]) ==
        OverlayState(db.predictions, Log(slugCache, requests), totalInserted)
      invariant db.hourly == old(db.hourly) && db.sun == old(db.sun)
    {
      assert ScrapeSlugs[..i + 1][..i] == ScrapeSlugs[..i];
      var (location, slug) := ScrapeSlugs[i];
      var before := OverlayState(db.predictions, Log(slugCache, requests), totalInserted);
      ghost var used := Used(ukToUtc, fetch, before.log, slug);
      var forecasts: seq<Forecast> := [];
      var usable := true;
      if slug !in slugCache {
        var html := fetch(|requests|, slug);
        requests := requests + [slug];
        if html.None? {
          usable := false;
          assert used == None;
        } else {
          var parsed := ParseForecasts(ukToUtc, html.value);
          if parsed.Raised? || parsed.forecasts == [] {
            usable := false;
            assert used == None;
          } else {
            forecasts := parsed.forecasts;
            slugCache := slugCache[slug := forecasts];
            assert used == Some(forecasts);
          }
        }
      } else {
        forecasts := slugCache[slug];
        assert used == Some(forecasts);
      }
      assert Log(slugCache, requests) == LogStep(ukToUtc, fetch, before.log, slug);
      assert usable <==> used.Some?;
      if usable {
        OverlayOne(db, location, forecasts);
        totalInserted := totalInserted + |forecasts|;
      }
      assert Step(ukToUtc, fetch, before, location, slug) ==
        OverlayState(db.predictions, Log(slugCache, requests), totalInserted);
    }
    assert ScrapeSlugs[..|ScrapeSlugs|] == ScrapeSlugs;
  }

  /** The deletes and inserts for one location. */
  method OverlayOne(db: Database, location: string, forecasts: seq<Forecast>)
    modifies db
    ensures db.predictions == OverlayLocation(old(db.predictions), location, forecasts)
    ensures db.hourly == old(db.hourly) && db.sun == old(db.sun)
  {
    var datesCovered := CoveredDates(forecasts);
    DeleteDates(db, location, datesCovered);
    InsertForecasts(db, location, forecasts);
  }

  /** `dates_covered`, built by adding each forecast's date. */
  method CoveredDates(forecasts: seq<Forecast>) returns (datesCovered: set<string>)
    ensures datesCovered == Covered(forecasts)
  {
    datesCovered := {};
    for j := 0 to |forecasts|
      invariant datesCovered == Covered(forecasts[..j])
    {
      assert forall i :: 0 <= i < j ==> forecasts[..j + 1][i] == forecasts[..j][i];
      datesCovered := datesCovered + {Take(forecasts[j].datetimeUtc, 10)};
    }
    assert forecasts[..|forecasts|] == forecasts;
  }

  /** One `DELETE ... LIKE 'd%'` per covered date. */
  method DeleteDates(db: Database, location: string, dates: set<string>)
    modifies db
    ensures db.predictions == WithoutDates(old(db.predictions), location, dates)
    ensures db.hourly == old(db.hourly) && db.sun == old(db.sun)
  {
    var original := db.predictions;
    var remaining := dates;
    assert dates - remaining == {};
    while remaining != {}
      invariant remaining <= dates
      invariant db.predictions == WithoutDates(original, location, dates - remaining)
      invariant db.hourly == old(db.hourly) && db.sun == old(db.sun)
      decreases |remaining|
    {
      var d :| d in remaining;
      WithoutDatesAdd(original, location, dates - remaining, d);
      db.DeletePredictionsLike(location, d);
      assert dates - (remaining - {d}) == (dates - remaining) + {d};
      remaining := remaining - {d};
    }
    assert dates - remaining == dates;
  }

  /** One `INSERT OR REPLACE` per forecast, in order. */
  method InsertForecasts(db: Database, location: string, forecasts: seq<Forecast>)
    modifies db
    ensures db.predictions == ApplyAll(old(db.predictions), Inserts(location, forecasts))
    ensures db.hourly == old(db.hourly) && db.sun == old(db.sun)
  {
    var start := db.predictions;
    var ins := Inserts(location, forecasts);
    for j := 0 to |forecasts|
      invariant db.predictions == ApplyAll(start, ins[..j])
      invariant db.hourly == old(db.hourly) && db.sun == old(db.sun)
    {
      assert ins[..j + 1][..j] == ins[..j];
      var f := forecasts[j];
      db.UpsertPrediction(PredictionKey(location, f.datetimeUtc, f.kind), Round2(f.height));
    }
    assert ins[..|forecasts|] == ins;
  }

  // ---------------------------------------------------------------------
  // Properties of the overlay

  /** Overlaying one location: rows of other locations are untouched; a
      row of this location on a date the forecasts do not cover, and with a
      key no forecast writes, is untouched; a row of this location on a
      covered date that no forecast writes is deleted; and each forecast's
      key holds the rounded height of the last forecast with that key. */
  lemma OverlayLocationEffect(t: map<PredictionKey, real>, location: string, fs: seq<Forecast>, k: PredictionKey)
    ensures var r := OverlayLocation(t, location, fs);
      var written := exists i :: 0 <= i < |fs| && PredictionKey(location, fs[i].datetimeUtc, fs[i].kind) == k;
      (k.location != location ==> (k in r <==> k in t) && (k in t ==> r[k] == t[k])) &&
      (k.location == location && !written && (forall d :: d in Covered(fs) ==> !StartsWith(k.datetimeUtc, d)) ==>
        (k in r <==> k in t) && (k in t ==> r[k] == t[k])) &&
      (k.location == location && !written && (exists d :: d in Covered(fs) && StartsWith(k.datetimeUtc, d)) ==>
        k !in r)
  {
    var ins := Inserts(location, fs);
    ApplyAllFacts(WithoutDates(t, location, Covered(fs)), ins);
    forall i | 0 <= i < |ins|
      ensures ins[i].0.location == location
    {
    }
  }

  /** Each forecast's row ends up holding the rounded height of the last
      forecast with its datetime and type. */
  lemma OverlayLastWins(t: map<PredictionKey, real>, location: string, fs: seq<Forecast>, i: int)
    requires 0 <= i < |fs|
    requires forall j :: i < j < |fs| ==> (fs[j].datetimeUtc, fs[j].kind) != (fs[i].datetimeUtc, fs[i].kind)
    ensures var k := PredictionKey(location, fs[i].datetimeUtc, fs[i].kind);
      k in OverlayLocation(t, location, fs) && OverlayLocation(t, location, fs)[k] == Round2(fs[i].height)
  {
    ApplyAllLast(WithoutDates(t, location, Covered(fs)), Inserts(location, fs), i);
  }

  /** A step changes only the rows of its own location. */
  lemma StepOnlyItsLocation(ukToUtc: DateTime -> DateTime, fetch: (nat, string) -> Option<Extracted>,
                            s: OverlayState, location: string, slug: string, k: PredictionKey)
    requires k.location != location
    ensures var r := Step(ukToUtc, fetch, s, location, slug).table;
      (k in r <==> k in s.table) && (k in r ==> r[k] == s.table[k])
  {
    var used := Used(ukToUtc, fetch, s.log, slug);
    if used.Some? {
      OverlayLocationEffect(s.table, location, used.value, k);
    }
  }

  /** Rows of a location the run never visits keep their values. */
  lemma {:induction false} RunKeepsOthers(ukToUtc: DateTime -> DateTime, fetch: (nat, string) -> Option<Extracted>,
                                          s: OverlayState, pairs: seq<(string, string)>, k: PredictionKey)
    requires forall i :: 0 <= i < |pairs| ==> pairs[i].0 != k.location
    ensures var r := OverlayRun(ukToUtc, fetch, s, pairs).table;
      (k in r <==> k in s.table) && (k in r ==> r[k] == s.table[k])
    decreases |pairs|
  {
    if pairs != [] {
      var init := pairs[..|pairs| - 1];
      var last := pairs[|pairs| - 1];
      RunKeepsOthers(ukToUtc, fetch, s, init, k);
      StepOnlyItsLocation(ukToUtc, fetch, OverlayRun(ukToUtc, fetch, s, init), last.0, last.1, k);
    }
  }

  lemma {:induction false} OverlayRunAppend(ukToUtc: DateTime -> DateTime, fetch: (nat, string) -> Option<Extracted>,
                                            s: OverlayState, a: seq<(string, string)>, b: seq<(string, string)>)
    ensures OverlayRun(ukToUtc, fetch, s, a + b) == OverlayRun(ukToUtc, fetch, OverlayRun(ukToUtc, fetch, s, a), b)
    decreases |b|
  {
    if b == [] {
      assert a + b == a;
    } else {
      assert (a + b)[..|a + b| - 1] == a + b[..|b| - 1];
      OverlayRunAppend(ukToUtc, fetch, s, a, b[..|b| - 1]);
    }
  }

  lemma OverlayRunSnoc(ukToUtc: DateTime -> DateTime, fetch: (nat, string) -> Option<Extracted>,
                       s: OverlayState, pairs: seq<(string, string)>, p: (string, string))
    ensures OverlayRun(ukToUtc, fetch, s, pairs + [p]) == Step(ukToUtc, fetch, OverlayRun(ukToUtc, fetch, s, pairs), p.0, p.1)
  {
    assert (pairs + [p])[..|pairs|] == pairs;
  }

  /** The cache and the request log of a run do not depend on the table. */
  lemma {:induction false} RunLog(ukToUtc: DateTime -> DateTime, fetch: (nat, string) -> Option<Extracted>,
                                  s: OverlayState, pairs: seq<(string, string)>)
    ensures OverlayRun(ukToUtc, fetch, s, pairs).log == LogRun(ukToUtc, fetch, s.log, pairs)
    decreases |pairs|
  {
    if pairs != [] {
      RunLog(ukToUtc, fetch, s, pairs[..|pairs| - 1]);
    }
  }

  /** The requests of a run over four locations from an empty cache where
      the second shares the first one's page and the other pages differ. */
  lemma FourRequests(ukToUtc: DateTime -> DateTime, fetch: (nat, string) -> Option<Extracted>,
                     p0: (string, string), p1: (string, string), p2: (string, string), p3: (string, string))
    requires p1.1 == p0.1 && p2.1 != p0.1 && p3.1 != p0.1 && p3.1 != p2.1
    ensures LogRun(ukToUtc, fetch, Log(map[], []), [p0, p1, p2, p3]).requests ==
      if Usable(ukToUtc, fetch(0, p0.1)) then [p0.1, p2.1, p3.1] else [p0.1, p0.1, p2.1, p3.1]
  {
    var l0 := Log(map[], []);
    var l1 := LogStep(ukToUtc, fetch, l0, p0.1);
    var l2 := LogStep(ukToUtc, fetch, l1, p1.1);
    var l3 := LogStep(ukToUtc, fetch, l2, p2.1);
    assert [p0, p1, p2, p3][..3] == [p0, p1, p2] && [p0, p1, p2][..2] == [p0, p1] && [p0, p1][..1] == [p0] && [p0][..0] == [];
    assert LogRun(ukToUtc, fetch, l0, [p0]) == l1;
    assert LogRun(ukToUtc, fetch, l0, [p0, p1]) == l2;
    assert LogRun(ukToUtc, fetch, l0, [p0, p1, p2]) == l3;
    assert forall x :: x in l2.cache ==> x == p0.1;
    assert forall x :: x in l3.cache ==> x == p0.1 || x == p2.1;
  }

  /** Which requests the run makes: newquay's page first; holywell, which
      shares it, requests it again only when the first copy was unusable;
      then padstow and port-isaac once each. */
  lemma ScrapeRequests(ukToUtc: DateTime -> DateTime, fetch: (nat, string) -> Option<Extracted>, table: map<PredictionKey, real>)
    ensures OverlayRun(ukToUtc, fetch, Start(table), ScrapeSlugs).log.requests ==
      if Usable(ukToUtc, fetch(0, "newquay")) then ["newquay", "padstow", "port-isaac"]
      else ["newquay", "newquay", "padstow", "port-isaac"]
  {
    RunLog(ukToUtc, fetch, Start(table), ScrapeSlugs);
    FourRequests(ukToUtc, fetch, ScrapeSlugs[0], ScrapeSlugs[1], ScrapeSlugs[2], ScrapeSlugs[3]);
  }

  /** When the shared newquay page is usable, holywell overlays exactly the
      forecasts newquay overlaid, without a second request. */
  lemma HolywellReusesNewquay(ukToUtc: DateTime -> DateTime, fetch: (nat, string) -> Option<Extracted>, table: map<PredictionKey, real>)
    requires Usable(ukToUtc, fetch(0, "newquay"))
    ensures var s1 := Step(ukToUtc, fetch, Start(table), "newquay", "newquay");
      var fs := ParsePage(ukToUtc, fetch(0, "newquay").value).forecasts;
      s1.log == Log(map["newquay" := fs], ["newquay"]) &&
      Step(ukToUtc, fetch, s1, "holywell", "newquay") ==
        OverlayState(OverlayLocation(s1.table, "holywell", fs), s1.log, 2 * |fs|)
  {
  }

  /** Up to and including the failed location, its rows are untouched. */
  lemma FailedLocationUpTo(ukToUtc: DateTime -> DateTime, fetch: (nat, string) -> Option<Extracted>,
                           s: OverlayState, pairs: seq<(string, string)>, j: int, k: PredictionKey)
    requires 0 <= j < |pairs| && k.location == pairs[j].0
    requires forall i :: 0 <= i < j ==> pairs[i].0 != k.location
    requires Used(ukToUtc, fetch, OverlayRun(ukToUtc, fetch, s, pairs[..j]).log, pairs[j].1).None?
    ensures var r := OverlayRun(ukToUtc, fetch, s, pairs[..j + 1]).table;
      (k in r <==> k in s.table) && (k in r ==> r[k] == s.table[k])
  {
    var pre := pairs[..j];
    assert pairs[..j + 1] == pre + [pairs[j]];
    OverlayRunSnoc(ukToUtc, fetch, s, pre, pairs[j]);
    RunKeepsOthers(ukToUtc, fetch, s, pre, k);
  }

  /** A location with no forecasts to use keeps all its rows at the end of
      the run, while the locations before and after it are still processed. */
  lemma FailedLocationKept(ukToUtc: DateTime -> DateTime, fetch: (nat, string) -> Option<Extracted>,
                           s: OverlayState, pairs: seq<(string, string)>, j: int, k: PredictionKey)
    requires 0 <= j < |pairs| && k.location == pairs[j].0
    requires forall i :: 0 <= i < |pairs| && i != j ==> pairs[i].0 != k.location
    requires Used(ukToUtc, fetch, OverlayRun(ukToUtc, fetch, s, pairs[..j]).log, pairs[j].1).None?
    ensures var r := OverlayRun(ukToUtc, fetch, s, pairs).table;
      (k in r <==> k in s.table) && (k in r ==> r[k] == s.table[k])
  {
    var upTo, post := pairs[..j + 1], pairs[j + 1..];
    assert pairs == upTo + post;
    OverlayRunAppend(ukToUtc, fetch, s, upTo, post);
    FailedLocationUpTo(ukToUtc, fetch, s, pairs, j, k);
    forall i | 0 <= i < |post|
      ensures post[i].0 != k.location
    {
      assert post[i] == pairs[j + 1 + i];
    }
    RunKeepsOthers(ukToUtc, fetch, OverlayRun(ukToUtc, fetch, s, upTo), post, k);
  }
}
