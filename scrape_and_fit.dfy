/** The offline script that scrapes about six months of Newquay high and
    low waters and writes the harmonics file.  Fetching pages, the
    Europe/London to UTC conversion and the harmonic fit itself are given
    functions. */
module ScrapeAndFit {
  import opened Wrappers
  import opened Text
  import opened Calendar
  import opened Seqs
  import opened ForecastPage
  import opened TideCalculator

  /** One result of `parse_forecasts`: the timestamp text verbatim. */
  datatype Entry = Entry(datetime: string, height: real, isHigh: bool)

  /** The list `parse_forecasts` returns, or the exception it lets escape. */
  datatype Parsed = Raised | Parsed(entries: seq<Entry>)

  /** A record the filter keeps becomes an entry carrying `forecast_at`
      unchanged, its height, and whether its type is HW. */
  function EntryOf(r: RawRecord): (e: Option<Entry>)
    ensures e.Some? <==> Keep(r)
    ensures e.Some? ==>
      e.value.datetime == r.forecastAt.value && e.value.height == r.tideHeight.value &&
      (e.value.isHigh <==> IsHighWater(r))
  {
    if Keep(r) then Some(Entry(r.forecastAt.value, r.tideHeight.value, r.tideType.value == "HW")) else None
  }

  function EntryReader(): RawRecord -> Option<Entry> {
    r => EntryOf(r)
  }

  /** `parse_forecasts` as a value. */
  function ParsePage(page: Extracted): Parsed {
    match page
    case NoForecastBlock => Parsed([])
    case InvalidJson => Parsed([])
    case Malformed => Raised
    case Forecasts(records) => Parsed(Selected(records, EntryReader()))
  }

  /** `parse_forecasts` */
  method ParseForecasts(page: Extracted) returns (result: Parsed)
    ensures result == ParsePage(page)
  {
    if page.NoForecastBlock? || page.InvalidJson? {
      return Parsed([]);
    }
    if page.Malformed? {
      return Raised;
    }
    var records := page.records;
    var results: seq<Entry> := [];
    for i := 0 to |records|
      invariant results == Selected(records[..i], EntryReader())
    {
      assert records[..i + 1][..i] == records[..i];
      var f := records[i];
      if f.forecastAt.Some? && f.forecastAt.value != "" && f.tideHeight.Some? && f.tideType.Some? && f.tideType.value != "" {
        results := results + [Entry(f.forecastAt.value, f.tideHeight.value, f.tideType.value == "HW")];
      }
    }
    assert records[..|records|] == records;
    result := Parsed(results);
  }

  /** Every kept entry comes from a kept record, in input order, and every
      kept record is there. */
  lemma EntriesInOrder(records: seq<RawRecord>) returns (idx: seq<nat>)
    ensures var es := ParsePage(Forecasts(records)).entries;
      |idx| == |es| && Increasing(idx) &&
      (forall j :: 0 <= j < |idx| ==> idx[j] < |records| && EntryOf(records[idx[j]]) == Some(es[j])) &&
      (forall i :: 0 <= i < |records| && Keep(records[i]) ==> i in idx)
  {
    idx := SelectedOrigins(records, EntryReader());
  }

  // ---------------------------------------------------------------------
  // scrape_location

  /** The dates whose pages are requested: `start`, `start + 7`, ... while
      not after `end`. */
  function PageDays(start: Day, end: Day): (days: seq<Day>)
    ensures forall i :: 0 <= i < |days| ==> days[i] == start + 7 * i && days[i] <= end
    ensures start + 7 * |days| > end
    ensures start <= end ==> |days| > 0
  {
    seq(if start > end then 0 else (end - start) / 7 + 1, i => start + 7 * i)
  }

  /** The entries a page contributes: none when the fetch failed or returned
      nothing, `None` when parsing raised (which ends the script). */
  function PageEntries(fetch: Day -> Option<Extracted>, d: Day): Option<seq<Entry>> {
    match fetch(d)
    case None => Some([])
    case Some(page) =>
      match ParsePage(page)
      case Raised => None
      case Parsed(es) => Some(es)
  }

  /** All entries of the pages of `days`, in request order. */
  function Gathered(fetch: Day -> Option<Extracted>, days: seq<Day>): Option<seq<Entry>>
    decreases |days|
  {
    if days == [] then Some([])
    else
      match Gathered(fetch, days[..|days| - 1])
      case None => None
      case Some(es) =>
        match PageEntries(fetch, days[|days| - 1])
        case None => None
        case Some(more) => Some(es + more)
  }

  /** `f["datetime"][:16]`, the de-duplication key. */
  function KeyOf(e: Entry): string {
    Take(e.datetime, 16)
  }

  function EntryTime(e: Entry): string {
    e.datetime
  }

  function Keys(es: seq<Entry>): set<string> {
    set e | e in es :: KeyOf(e)
  }

  lemma KeysSnoc(es: seq<Entry>, x: Entry)
    ensures Keys(es + [x]) == Keys(es) + {KeyOf(x)}
  {
    forall k | k in Keys(es + [x])
      ensures k in Keys(es) + {KeyOf(x)}
    {
      var e :| e in es + [x] && KeyOf(e) == k;
      if e != x {
        assert e in es;
      }
    }
    assert x in es + [x];
    forall k | k in Keys(es)
      ensures k in Keys(es + [x])
    {
      var e :| e in es && KeyOf(e) == k;
      assert e in es + [x];
    }
  }

  /** The `seen_datetimes` filter: an entry is kept when no entry before it
      has the same key. */
  function Dedup(es: seq<Entry>): (d: seq<Entry>)
    ensures forall e :: e in d ==> e in es
    ensures Keys(d) == Keys(es)
    decreases |es|
  {
    if es == [] then []
    else
      var init := es[..|es| - 1];
      var last := es[|es| - 1];
      var prev := Dedup(init);
      assert es == init + [last];
      KeysSnoc(init, last);
      KeysSnoc(prev, last);
      if KeyOf(last) in Keys(prev) then prev else prev + [last]
  }

  lemma DedupSnoc(es: seq<Entry>, x: Entry)
    ensures Dedup(es + [x]) == if KeyOf(x) in Keys(Dedup(es)) then Dedup(es) else Dedup(es) + [x]
  {
    assert (es + [x])[..|es|] == es;
  }

  /** `es[i]` is the first entry of `es` with its key. */
  predicate FirstOfKey(es: seq<Entry>, i: int) {
    0 <= i < |es| && forall h :: 0 <= h < i ==> KeyOf(es[h]) != KeyOf(es[i])
  }

  /** At most one entry per key survives. */
  lemma {:induction false} DedupDistinct(es: seq<Entry>)
    ensures forall i, j :: 0 <= i < j < |Dedup(es)| ==> KeyOf(Dedup(es)[i]) != KeyOf(Dedup(es)[j])
    decreases |es|
  {
    if es != [] {
      var init := es[..|es| - 1];
      var last := es[|es| - 1];
      DedupDistinct(init);
      assert es == init + [last];
      DedupSnoc(init, last);
      var prev := Dedup(init);
      if KeyOf(last) !in Keys(prev) {
        forall i | 0 <= i < |prev|
          ensures KeyOf(prev[i]) != KeyOf(last)
        {
          assert prev[i] in prev;
        }
      }
    }
  }

  lemma FirstOfKeyPrefix(init: seq<Entry>, last: Entry, i: int)
    requires FirstOfKey(init, i)
    ensures FirstOfKey(init + [last], i)
  {
    assert forall h :: 0 <= h <= i ==> (init + [last])[h] == init[h];
  }

  lemma FirstOfKeyLast(init: seq<Entry>, last: Entry)
    requires KeyOf(last) !in Keys(init)
    ensures FirstOfKey(init + [last], |init|)
  {
    forall h | 0 <= h < |init|
      ensures KeyOf((init + [last])[h]) != KeyOf(last)
    {
      assert (init + [last])[h] == init[h] && init[h] in init;
    }
  }

  /** Each surviving entry is the first entry seen with its key: `idx[j]`
      is where the `j`-th survivor stands in the input. */
  lemma {:induction false} DedupFirstSeen(es: seq<Entry>) returns (idx: seq<nat>)
    ensures |idx| == |Dedup(es)|
    ensures forall j :: 0 <= j < |idx| ==> FirstOfKey(es, idx[j]) && es[idx[j]] == Dedup(es)[j]
    decreases |es|
  {
    if es == [] {
      assert Dedup(es) == [];
      return [];
    }
    var init := es[..|es| - 1];
    var last := es[|es| - 1];
    var prevIdx := DedupFirstSeen(init);
    assert es == init + [last];
    DedupSnoc(init, last);
    var prev := Dedup(init);
    forall j | 0 <= j < |prevIdx|
      ensures FirstOfKey(es, prevIdx[j]) && es[prevIdx[j]] == prev[j]
    {
      FirstOfKeyPrefix(init, last, prevIdx[j]);
    }
    if KeyOf(last) in Keys(prev) {
      idx := prevIdx;
    } else {
      FirstOfKeyLast(init, last);
      idx := prevIdx + [|init|];
    }
  }

  /** A page whose parse raises ends the gathering for good. */
  lemma {:induction false} GatheredStopsAtRaise(fetch: Day -> Option<Extracted>, days: seq<Day>, n: nat)
    requires n <= |days| && Gathered(fetch, days[..n]).None?
    ensures Gathered(fetch, days).None?
    decreases |days| - n
  {
    if n < |days| {
      assert days[..n + 1][..n] == days[..n];
      GatheredStopsAtRaise(fetch, days, n + 1);
    } else {
      assert days[..n] == days;
    }
  }

  /** `scrape_location` as a value: `None` when a page's parse raised. */
  function Scraped(fetch: Day -> Option<Extracted>, start: Day, end: Day): Option<seq<Entry>> {
    match Gathered(fetch, PageDays(start, end))
    case None => None
    case Some(es) => Some(SortByText(Dedup(es), EntryTime))
  }

  lemma GatheredSnoc(fetch: Day -> Option<Extracted>, days: seq<Day>, k: nat)
    requires k < |days|
    ensures Gathered(fetch, days[..k + 1]) ==
      match Gathered(fetch, days[..k])
      case None => None
      case Some(es) =>
        match PageEntries(fetch, days[k])
        case None => None
        case Some(more) => Some(es + more)
  {
    assert days[..k + 1][..k] == days[..k];
  }

  /** One more forecast of a page: kept, and its key marked seen, exactly
      when its key is new. */
  lemma DedupStep(before: seq<Entry>, forecasts: seq<Entry>, j: nat, data: seq<Entry>, seen: set<string>)
    requires j < |forecasts|
    requires data == Dedup(before + forecasts[..j]) && seen == Keys(data)
    ensures var f := forecasts[j];
      var key := Take(f.datetime, 16);
      if key in seen then data == Dedup(before + forecasts[..j + 1])
      else data + [f] == Dedup(before + forecasts[..j + 1]) && seen + {key} == Keys(data + [f])
  {
    assert before + forecasts[..j + 1] == (before + forecasts[..j]) + [forecasts[j]];
    DedupSnoc(before + forecasts[..j], forecasts[j]);
    KeysSnoc(data, forecasts[j]);
  }

  /** The inner loop of `scrape_location`: each forecast whose key is not
      yet seen is appended and its key recorded. */
  method AddUnseen(allData: seq<Entry>, seen: set<string>, forecasts: seq<Entry>, ghost before: seq<Entry>)
    returns (newData: seq<Entry>, newSeen: set<string>)
    requires allData == Dedup(before) && seen == Keys(allData)
    ensures newData == Dedup(before + forecasts) && newSeen == Keys(newData)
  {
    newData, newSeen := allData, seen;
    assert before + forecasts[..0] == before;
    for j := 0 to |forecasts|
      invariant newData == Dedup(before + forecasts[..j]) && newSeen == Keys(newData)
    {
      DedupStep(before, forecasts, j, newData, newSeen);
      var f := forecasts[j];
      var key := Take(f.datetime, 16);
      if key !in newSeen {
        newSeen := newSeen + {key};
        newData := newData + [f];
      }
    }
    assert forecasts[..|forecasts|] == forecasts;
  }

  /** `scrape_location` */
  method ScrapeLocation(fetch: Day -> Option<Extracted>, start: Day, end: Day) returns (data: Option<seq<Entry>>)
    ensures data == Scraped(fetch, start, end)
  {
    var days := PageDays(start, end);
    var allData: seq<Entry> := [];
    var seen: set<string> := {};
    ghost var gathered: seq<Entry> := [];
    ghost var k := 0;
    var current := start;
    while current <= end
      invariant 0 <= k <= |days| && current == start + 7 * k
      invariant Gathered(fetch, days[..k]) == Some(gathered)
      invariant allData == Dedup(gathered) && seen == Keys(allData)
      decreases end - current
    {
      GatheredSnoc(fetch, days, k);
      assert days[k] == current;
      var html := fetch(current);
      if html.Some? {
        var parsed := ParseForecasts(html.value);
        if parsed.Raised? {
          GatheredStopsAtRaise(fetch, days, k + 1);
          return None;
        }
        allData, seen := AddUnseen(allData, seen, parsed.entries, gathered);
        gathered := gathered + parsed.entries;
      } else {
        assert gathered + [] == gathered;
      }
      current := current + 7;
      k := k + 1;
    }
    assert days[..k] == days;
    data := Some(SortByText(allData, EntryTime));
  }

  /** The collected entries are sorted by timestamp text, hold one entry per
      16-character key (the first seen), and come from the parsed pages. */
  lemma ScrapedProperties(fetch: Day -> Option<Extracted>, start: Day, end: Day)
    requires Scraped(fetch, start, end).Some?
    ensures var data := Scraped(fetch, start, end).value;
      var es := Gathered(fetch, PageDays(start, end)).value;
      SortedByText(data, EntryTime) &&
      multiset(data) == multiset(Dedup(es)) &&
      (forall e :: e in data ==> e in es) &&
      (forall e :: e in es ==> exists d :: d in data && KeyOf(d) == KeyOf(e))
  {
    var es := Gathered(fetch, PageDays(start, end)).value;
    var data := Scraped(fetch, start, end).value;
    SortByTextCorrect(Dedup(es), EntryTime);
    forall e | e in data
      ensures e in es
    {
      assert e in multiset(data);
    }
    forall e | e in es
      ensures exists d :: d in data && KeyOf(d) == KeyOf(e)
    {
      assert KeyOf(e) in Keys(es);
      var d :| d in Dedup(es) && KeyOf(d) == KeyOf(e);
      assert d in multiset(Dedup(es));
      assert d in data;
    }
  }

  // ---------------------------------------------------------------------
  // fit_harmonics and main

  /** The sample an entry contributes: its timestamp read with the four
      layouts and converted to UTC, with its height; none when no layout
      reads it. */
  function SampleOf(ukToUtc: DateTime -> DateTime, e: Entry): (r: Option<(DateTime, real)>)
    ensures r.Some? <==> ParseLocal(e.datetime).Some?
  {
    match ParseLocal(e.datetime)
    case None => None
    case Some(local) => Some((ukToUtc(local), e.height))
  }

  function SampleReader(ukToUtc: DateTime -> DateTime): Entry -> Option<(DateTime, real)> {
    e => SampleOf(ukToUtc, e)
  }

  /** `times` and `heights` are the two columns of `samples`. */
  predicate Columns(times: seq<DateTime>, heights: seq<real>, samples: seq<(DateTime, real)>) {
    |times| == |heights| == |samples| &&
    forall i :: 0 <= i < |times| ==> (times[i], heights[i]) == samples[i]
  }

  lemma ColumnsSnoc(times: seq<DateTime>, heights: seq<real>, samples: seq<(DateTime, real)>, t: DateTime, h: real)
    requires Columns(times, heights, samples)
    ensures Columns(times + [t], heights + [h], samples + [(t, h)])
  {
    var ts, hs, ss := times + [t], heights + [h], samples + [(t, h)];
    forall i | 0 <= i < |ts|
      ensures (ts[i], hs[i]) == ss[i]
    {
      if i < |times| {
        assert ts[i] == times[i] && hs[i] == heights[i] && ss[i] == samples[i];
      }
    }
  }

  /** The loop of `fit_harmonics` that builds `times_dt` and `heights`. */
  method FitSeries(ukToUtc: DateTime -> DateTime, data: seq<Entry>) returns (times: seq<DateTime>, heights: seq<real>)
    ensures |times| == |heights| == |Selected(data, SampleReader(ukToUtc))|
    ensures forall i :: 0 <= i < |times| ==> (times[i], heights[i]) == Selected(data, SampleReader(ukToUtc))[i]
  {
    times, heights := [], [];
    ghost var g := SampleReader(ukToUtc);
    for n := 0 to |data|
      invariant Columns(times, heights, Selected(data[..n], g))
    {
      SampleStep(ukToUtc, data, n);
      var entry := data[n];
      var dt := StrptimeFirst(entry.datetime);
      if dt.Some? {
        ColumnsSnoc(times, heights, Selected(data[..n], g), ukToUtc(dt.value), entry.height);
        times := times + [ukToUtc(dt.value)];
        heights := heights + [entry.height];
      }
    }
    assert data[..|data|] == data;
  }

  /** One more entry extends the samples by its own sample, if it has one. */
  lemma SampleStep(ukToUtc: DateTime -> DateTime, data: seq<Entry>, n: nat)
    requires n < |data|
    ensures var g := SampleReader(ukToUtc);
      var p := ParseLocal(data[n].datetime);
      Selected(data[..n + 1], g) ==
        Selected(data[..n], g) + (if p.Some? then [(ukToUtc(p.value), data[n].height)] else [])
  {
    var g := SampleReader(ukToUtc);
    assert data[..n + 1] == data[..n] + [data[n]];
    SelectedSnoc(data[..n], data[n], g);
    assert g(data[n]) == SampleOf(ukToUtc, data[n]);
  }

  /** Every entry some layout reads contributes exactly one sample, and the
      others none, so the two series stay the same length. */
  lemma SamplesCount(ukToUtc: DateTime -> DateTime, data: seq<Entry>) returns (idx: seq<nat>)
    ensures var ss := Selected(data, SampleReader(ukToUtc));
      |idx| == |ss| && Increasing(idx) &&
      (forall j :: 0 <= j < |idx| ==>
        idx[j] < |data| && ParseLocal(data[idx[j]].datetime).Some? &&
        ss[j] == (ukToUtc(ParseLocal(data[idx[j]].datetime).value), data[idx[j]].height)) &&
      (forall i :: 0 <= i < |data| && ParseLocal(data[i].datetime).Some? ==> i in idx)
  {
    idx := SelectedOrigins(data, SampleReader(ukToUtc));
  }

  /** 2025-08-01 and 2026-02-17, the scraped span. */
  const ScrapeStart: Day := -153
  const ScrapeEnd: Day := 47
  /** The fewest events the fit accepts. */
  const MinEvents: nat := 50

  /** `SUBORDINATE_STATIONS` offsets. */
  const HolywellOffsets: Offsets := Offsets(0, 0, 0.0, 0.0)
  const PolzeathOffsets: Offsets := Offsets(5, 5, 0.0, 0.0)
  const PortIsaacOffsets: Offsets := Offsets(6, 0, 0.5, 0.1)

  /** The written harmonics file: newquay with the fitted values, and each
      subordinate with the same values and its offsets. */
  function HarmonicsFile(meanLevel: real, constituents: seq<Constituent>): map<string, Station> {
    map[
      "newquay" := Station(meanLevel, constituents, None),
      "holywell" := Station(meanLevel, constituents, Some(HolywellOffsets)),
      "polzeath" := Station(meanLevel, constituents, Some(PolzeathOffsets)),
      "port_isaac" := Station(meanLevel, constituents, Some(PortIsaacOffsets))]
  }

  /** How a run of the script ends. */
  datatype Outcome = Crashed | Aborted(collected: nat) | Written(stations: map<string, Station>)

  /** `fit(times, heights)` is `harmonic_analysis` with the mean level:
      the data's mean and the fitted constituents.  When no collected entry
      has a readable timestamp, `verify_predictions` takes `np.max` of an
      empty list of errors, which raises before the file is written. */
  function RefitOutcome(fetch: Day -> Option<Extracted>, ukToUtc: DateTime -> DateTime,
                        fit: (seq<(DateTime, real)>) -> (real, seq<Constituent>)): Outcome
  {
    match Scraped(fetch, ScrapeStart, ScrapeEnd)
    case None => Crashed
    case Some(data) =>
      if |data| < MinEvents then Aborted(|data|)
      else
        var samples := Selected(data, SampleReader(ukToUtc));
        if samples == [] then Crashed
        else
          var (meanLevel, constituents) := fit(samples);
          Written(HarmonicsFile(meanLevel, constituents))
  }

  /** `main`, for its only location. */
  method Refit(fetch: Day -> Option<Extracted>, ukToUtc: DateTime -> DateTime,
               fit: (seq<(DateTime, real)>) -> (real, seq<Constituent>)) returns (outcome: Outcome)
    ensures outcome == RefitOutcome(fetch, ukToUtc, fit)
    ensures outcome.Aborted? ==> outcome.collected < MinEvents
  {
    var data := ScrapeLocation(fetch, ScrapeStart, ScrapeEnd);
    if data.None? {
      return Crashed;
    }
    if |data.value| < MinEvents {
      return Aborted(|data.value|);
    }
    var times, heights := FitSeries(ukToUtc, data.value);
    var series := seq(|times|, i requires 0 <= i < |times| => (times[i], heights[i]));
    assert series == Selected(data.value, SampleReader(ukToUtc));
    if series == [] {
      return Crashed;
    }
    var (meanLevel, constituents) := fit(series);
    outcome := Written(HarmonicsFile(meanLevel, constituents));
  }

  /** The span is 29 pages: 2025-08-01 and the 28 weeks after it. */
  lemma ScrapedPages()
    ensures |PageDays(ScrapeStart, ScrapeEnd)| == 29
    ensures PageDays(ScrapeStart, ScrapeEnd)[28] == 43
  {
  }

  /** A written file lets the calculator serve all four locations: newquay
      from its own constituents, the others from newquay's with their
      offsets; polzeath's high and low waters come 5 minutes later than
      newquay's, and port_isaac's highs 6 minutes later and 0.5 m higher. */
  lemma WrittenFileServesAll(fetch: Day -> Option<Extracted>, ukToUtc: DateTime -> DateTime,
                             fit: (seq<(DateTime, real)>) -> (real, seq<Constituent>),
                             harmonic: (seq<Constituent>, Time) -> real, vertex: (real, real) -> Time)
    requires RefitOutcome(fetch, ukToUtc, fit).Written?
    ensures var tc := Calculator(RefitOutcome(fetch, ukToUtc, fit).stations, harmonic, vertex);
      (forall loc :: loc in ["newquay", "holywell", "polzeath", "port_isaac"] ==> Knows(tc, loc) && Base(tc, loc) == Reference) &&
      TimeOffset(tc, "polzeath", High) == TimeOffset(tc, "polzeath", Low) == 5 * MicrosPerMinute &&
      TimeOffset(tc, "port_isaac", High) == 6 * MicrosPerMinute && HeightOffset(tc, "port_isaac", High) == 0.5 &&
      TimeOffset(tc, "newquay", High) == 0 && HeightOffset(tc, "newquay", Low) == 0.0
  {
  }

  /** The series is empty exactly when no layout reads any entry's timestamp. */
  lemma NoSamplesIff(ukToUtc: DateTime -> DateTime, data: seq<Entry>)
    ensures Selected(data, SampleReader(ukToUtc)) == [] <==>
      forall i :: 0 <= i < |data| ==> ParseLocal(data[i].datetime).None?
  {
    var g := SampleReader(ukToUtc);
    var idx := SamplesCount(ukToUtc, data);
    if forall i :: 0 <= i < |data| ==> ParseLocal(data[i].datetime).None? {
      forall i | 0 <= i < |data|
        ensures g(data[i]).None?
      {
        assert g(data[i]) == SampleOf(ukToUtc, data[i]);
      }
      SelectedAllNone(data, g);
    } else {
      var i :| 0 <= i < |data| && ParseLocal(data[i].datetime).Some?;
      assert i in idx;
    }
  }

  /** Enough events of which no layout reads a single timestamp crash the
      script in `verify_predictions`, so nothing is written. */
  lemma UnreadableCrashes(fetch: Day -> Option<Extracted>, ukToUtc: DateTime -> DateTime,
                          fit: (seq<(DateTime, real)>) -> (real, seq<Constituent>))
    requires Scraped(fetch, ScrapeStart, ScrapeEnd).Some?
    requires |Scraped(fetch, ScrapeStart, ScrapeEnd).value| >= MinEvents
    requires forall i :: 0 <= i < |Scraped(fetch, ScrapeStart, ScrapeEnd).value| ==>
      ParseLocal(Scraped(fetch, ScrapeStart, ScrapeEnd).value[i].datetime).None?
    ensures RefitOutcome(fetch, ukToUtc, fit) == Crashed
  {
    NoSamplesIff(ukToUtc, Scraped(fetch, ScrapeStart, ScrapeEnd).value);
  }

  /** A file is written exactly when enough events are collected and at
      least one of them has a readable timestamp. */
  lemma WrittenExactly(fetch: Day -> Option<Extracted>, ukToUtc: DateTime -> DateTime,
                       fit: (seq<(DateTime, real)>) -> (real, seq<Constituent>))
    ensures RefitOutcome(fetch, ukToUtc, fit).Written? <==>
      Scraped(fetch, ScrapeStart, ScrapeEnd).Some? && |Scraped(fetch, ScrapeStart, ScrapeEnd).value| >= MinEvents &&
      exists i :: 0 <= i < |Scraped(fetch, ScrapeStart, ScrapeEnd).value| &&
        ParseLocal(Scraped(fetch, ScrapeStart, ScrapeEnd).value[i].datetime).Some?
  {
    var sc := Scraped(fetch, ScrapeStart, ScrapeEnd);
    if sc.Some? {
      NoSamplesIff(ukToUtc, sc.value);
    }
  }

  /** Fewer than 50 collected events stop the script before any fit. */
  lemma TooFewAborts(fetch: Day -> Option<Extracted>, ukToUtc: DateTime -> DateTime,
                     fit: (seq<(DateTime, real)>) -> (real, seq<Constituent>))
    requires Scraped(fetch, ScrapeStart, ScrapeEnd).Some? && |Scraped(fetch, ScrapeStart, ScrapeEnd).value| < MinEvents
    ensures RefitOutcome(fetch, ukToUtc, fit) == Aborted(|Scraped(fetch, ScrapeStart, ScrapeEnd).value|)
  {
  }
}
