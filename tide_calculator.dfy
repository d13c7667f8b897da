/** The offline tide predictor: heights from harmonic constituents, the
    25-point hourly series of a day, and the high and low waters of a day
    found on a 6-minute scan grid.  The harmonic sum and the parabola's
    vertex are floating-point library work and are given functions here. */
module TideCalculator {
  import opened Wrappers
  import opened Calendar
  import opened Seqs

  datatype Kind = High | Low

  /** The text stored in the `type` column and returned by the API. */
  function KindName(k: Kind): (r: string)
    ensures r == "high" <==> k == High
  {
    match k
    case High => "high"
    case Low => "low"
  }

  datatype Constituent = Constituent(name: string, amplitude: real, phase: real)

  /** `offsets_from_newquay` of a subordinate station. */
  datatype Offsets = Offsets(timeHwMin: int, timeLwMin: int, heightHwM: real, heightLwM: real)

  /** One location of the harmonics file. */
  datatype Station = Station(meanLevel: real, constituents: seq<Constituent>, offsets: Option<Offsets>)

  /** A loaded calculator.  `harmonic` is uptide's `from_amplitude_phase`
      for a constituent set at an instant; `vertex` is the instant of the
      vertex of the parabola `a*t*t + b*t + c` (float arithmetic and the
      conversion to a datetime). */
  datatype Calculator = Calculator(
    stations: map<string, Station>,
    harmonic: (seq<Constituent>, Time) -> real,
    vertex: (real, real) -> Time)

  /** The station whose constituents subordinate stations borrow. */
  const Reference: string := "newquay"

  /** The location and, for a subordinate, the reference station are loaded
      (otherwise a `KeyError` is raised). */
  predicate Knows(tc: Calculator, loc: string) {
    loc in tc.stations && (tc.stations[loc].offsets.Some? ==> Reference in tc.stations)
  }

  /** `base_loc`: whose constituents and mean level are evaluated. */
  function Base(tc: Calculator, loc: string): (b: string)
    requires Knows(tc, loc)
    ensures b in tc.stations
    ensures tc.stations[loc].offsets.None? ==> b == loc
    ensures tc.stations[loc].offsets.Some? ==> b == Reference
  {
    if tc.stations[loc].offsets.Some? then Reference else loc
  }

  /** Mean level plus the harmonic sum of one station's constituents. */
  function Curve(tc: Calculator, base: string, t: Time): real
    requires base in tc.stations
  {
    tc.stations[base].meanLevel + tc.harmonic(tc.stations[base].constituents, t)
  }

  /** `height_at`: the base curve, raised by the mean of the two height
      offsets when the location has offsets. */
  function HeightAt(tc: Calculator, loc: string, t: Time): (h: real)
    requires Knows(tc, loc)
    ensures tc.stations[loc].offsets.None? ==> h == Curve(tc, loc, t)
    ensures tc.stations[loc].offsets.Some? ==>
      var o := tc.stations[loc].offsets.value;
      h == Curve(tc, Reference, t) + o.heightHwM / 2.0 + o.heightLwM / 2.0
  {
    var height := Curve(tc, Base(tc, loc), t);
    match tc.stations[loc].offsets
    case Some(o) => height + o.heightHwM / 2.0 + o.heightLwM / 2.0
    case None => height
  }

  /** A subordinate station's height is the reference station's height at
      the same instant, shifted by the mean of its two height offsets: no
      time offset is applied to heights. */
  lemma SubordinateHeight(tc: Calculator, loc: string, t: Time)
    requires Knows(tc, loc) && tc.stations[loc].offsets.Some?
    requires tc.stations[Reference].offsets.None?
    ensures var o := tc.stations[loc].offsets.value;
      HeightAt(tc, loc, t) == HeightAt(tc, Reference, t) + (o.heightHwM + o.heightLwM) / 2.0
  {
  }

  // ---------------------------------------------------------------------
  // Hourly heights

  /** The 25 samples of `hourly_heights`: midnight + h hours for h = 0..24. */
  function HourlySamples(tc: Calculator, loc: string, date: Time): seq<(Time, real)>
    requires Knows(tc, loc)
  {
    seq(25, h => (MidnightOf(date) + h * MicrosPerHour, HeightAt(tc, loc, MidnightOf(date) + h * MicrosPerHour)))
  }

  /** `hourly_heights` */
  method HourlyHeights(tc: Calculator, loc: string, date: Time) returns (results: seq<(Time, real)>)
    requires Knows(tc, loc)
    ensures |results| == 25
    ensures forall h :: 0 <= h < 25 ==>
      results[h].0 == MidnightOf(date) + h * MicrosPerHour &&
      results[h].1 == HeightAt(tc, loc, results[h].0)
    ensures results == HourlySamples(tc, loc, date)
  {
    var start := MidnightOf(date);
    results := [];
    for hour := 0 to 25
      invariant |results| == hour
      invariant forall h :: 0 <= h < hour ==>
        results[h] == (start + h * MicrosPerHour, HeightAt(tc, loc, start + h * MicrosPerHour))
    {
      var dt := start + hour * MicrosPerHour;
      results := results + [(dt, HeightAt(tc, loc, dt))];
    }
  }

  /** The hourly samples are in strictly ascending time, an hour apart. */
  lemma HourlyAscending(tc: Calculator, loc: string, date: Time, i: int, j: int)
    requires Knows(tc, loc) && 0 <= i < j < 25
    ensures HourlySamples(tc, loc, date)[j].0 - HourlySamples(tc, loc, date)[i].0 == (j - i) * MicrosPerHour > 0
  {
  }

  // ---------------------------------------------------------------------
  // The scan grid

  const ScanStep: int := 6 * MicrosPerMinute
  /** Points from midnight - 1 h to midnight + 25 h inclusive, 6 minutes apart. */
  const GridSize: nat := 261

  function ScanGrid(date: Time): (g: seq<Time>)
    ensures |g| == GridSize
  {
    seq(GridSize, i => MidnightOf(date) - MicrosPerHour + i * ScanStep)
  }

  /** The scan grid's first and last points and its spacing. */
  lemma ScanGridShape(date: Time)
    ensures ScanGrid(date)[0] == MidnightOf(date) - MicrosPerHour
    ensures ScanGrid(date)[GridSize - 1] == MidnightOf(date) + 25 * MicrosPerHour
    ensures forall i, j :: 0 <= i < j < GridSize ==> ScanGrid(date)[i] < ScanGrid(date)[j]
    ensures forall i :: 0 < i < GridSize ==> ScanGrid(date)[i] - ScanGrid(date)[i - 1] == ScanStep
  {
  }

  /** The scanned heights: the base curve, without any height offset. */
  function ScanHeights(tc: Calculator, loc: string, times: seq<Time>): (hs: seq<real>)
    requires Knows(tc, loc)
    ensures |hs| == |times|
    ensures forall i :: 0 <= i < |times| ==> hs[i] == Curve(tc, Base(tc, loc), times[i])
  {
    seq(|times|, i requires 0 <= i < |times| => Curve(tc, Base(tc, loc), times[i]))
  }

  // ---------------------------------------------------------------------
  // Classification and refinement

  /** Strictly above both neighbours (high) or strictly below both (low). */
  predicate IsStrictPeak(heights: seq<real>, i: nat, k: Kind)
    requires 0 < i < |heights| - 1
  {
    match k
    case High => heights[i] > heights[i - 1] && heights[i] > heights[i + 1]
    case Low => heights[i] < heights[i - 1] && heights[i] < heights[i + 1]
  }

  /** The if/elif of the scan loop. */
  function Classify(heights: seq<real>, i: nat): (r: Option<Kind>)
    requires 0 < i < |heights| - 1
    ensures forall k :: r == Some(k) <==> IsStrictPeak(heights, i, k)
    ensures heights[i] == heights[i - 1] || heights[i] == heights[i + 1] ==> r.None?
  {
    if heights[i] > heights[i - 1] && heights[i] > heights[i + 1] then Some(High)
    else if heights[i] < heights[i - 1] && heights[i] < heights[i + 1] then Some(Low)
    else None
  }

  /** `total_seconds()` of an instant since the epoch. */
  function Seconds(t: Time): real {
    t as real / 1000000.0
  }

  function Abs(x: real): real {
    if x < 0.0 then -x else x
  }

  /** 1e-10, the threshold of both guards in `_refine_extreme`. */
  const Negligible: real := 0.0000000001

  /** `_refine_extreme`: the vertex instant of the parabola through the
      three points, unless its denominator or leading coefficient is
      negligible; the height is always the scanned one. */
  function Refine(tc: Calculator, times: seq<Time>, heights: seq<real>, i: nat): (r: (Time, real))
    requires 0 < i < |times| - 1 && |heights| == |times|
    ensures r.1 == heights[i]
    ensures Abs(Denominator(times, i)) < Negligible ==> r.0 == times[i]
    ensures Abs(Denominator(times, i)) >= Negligible ==>
      r.0 == if Abs(LeadingCoefficient(times, heights, i)) < Negligible then times[i]
             else tc.vertex(LeadingCoefficient(times, heights, i), LinearCoefficient(times, heights, i))
  {
    var denom := Denominator(times, i);
    if Abs(denom) < Negligible then (times[i], heights[i])
    else
      var a := LeadingCoefficient(times, heights, i);
      if Abs(a) < Negligible then (times[i], heights[i])
      else (tc.vertex(a, LinearCoefficient(times, heights, i)), heights[i])
  }

  /** `denom` of `_refine_extreme`. */
  function Denominator(times: seq<Time>, i: nat): real
    requires 0 < i < |times| - 1
  {
    var t0, t1, t2 := Seconds(times[i - 1]), Seconds(times[i]), Seconds(times[i + 1]);
    (t0 - t1) * (t0 - t2) * (t1 - t2)
  }

  /** `a` of `_refine_extreme`. */
  function LeadingCoefficient(times: seq<Time>, heights: seq<real>, i: nat): real
    requires 0 < i < |times| - 1 && |heights| == |times|
    requires Abs(Denominator(times, i)) >= Negligible
  {
    var t0, t1, t2 := Seconds(times[i - 1]), Seconds(times[i]), Seconds(times[i + 1]);
    (t2 * (heights[i] - heights[i - 1]) + t1 * (heights[i - 1] - heights[i + 1]) + t0 * (heights[i + 1] - heights[i])) /
    Denominator(times, i)
  }

  /** `b` of `_refine_extreme`. */
  function LinearCoefficient(times: seq<Time>, heights: seq<real>, i: nat): real
    requires 0 < i < |times| - 1 && |heights| == |times|
    requires Abs(Denominator(times, i)) >= Negligible
  {
    var t0, t1, t2 := Seconds(times[i - 1]), Seconds(times[i]), Seconds(times[i + 1]);
    (t2 * t2 * (heights[i - 1] - heights[i]) + t1 * t1 * (heights[i + 1] - heights[i - 1]) + t0 * t0 * (heights[i] - heights[i + 1])) /
    Denominator(times, i)
  }

  /** On three points 6 minutes apart the denominator is -360 * -720 * -360
      seconds cubed, so the first guard of `_refine_extreme` never fires. */
  lemma EvenSpacingDenominator(times: seq<Time>, i: nat)
    requires 0 < i < |times| - 1
    requires times[i] - times[i - 1] == ScanStep && times[i + 1] - times[i] == ScanStep
    ensures Denominator(times, i) == -93312000.0
    ensures Abs(Denominator(times, i)) >= Negligible
  {
    var t0, t1, t2 := Seconds(times[i - 1]), Seconds(times[i]), Seconds(times[i + 1]);
    assert t0 - t1 == -360.0 && t0 - t2 == -720.0 && t1 - t2 == -360.0;
  }

  /** On three evenly spaced points a strict peak has a non-zero leading
      coefficient: `a * denom == 360 * (2 h1 - h0 - h2)`, which a strict
      high or low cannot make zero. */
  lemma StrictPeakCurves(times: seq<Time>, heights: seq<real>, i: nat, k: Kind)
    requires 0 < i < |times| - 1 && |heights| == |times|
    requires times[i] - times[i - 1] == ScanStep && times[i + 1] - times[i] == ScanStep
    requires IsStrictPeak(heights, i, k)
    ensures Abs(Denominator(times, i)) >= Negligible
    ensures LeadingCoefficient(times, heights, i) != 0.0
  {
    EvenSpacingDenominator(times, i);
    var t1 := Seconds(times[i]);
    var h0, h1, h2 := heights[i - 1], heights[i], heights[i + 1];
    var t0, t2 := t1 - 360.0, t1 + 360.0;
    assert Seconds(times[i - 1]) == t0 && Seconds(times[i + 1]) == t2;
    var num := t2 * (h1 - h0) + t1 * (h0 - h2) + t0 * (h2 - h1);
    assert num == 360.0 * (2.0 * h1 - h0 - h2) by {
      assert t2 * (h1 - h0) == t1 * (h1 - h0) + 360.0 * (h1 - h0);
      assert t0 * (h2 - h1) == t1 * (h2 - h1) - 360.0 * (h2 - h1);
      assert t1 * (h1 - h0) + t1 * (h0 - h2) + t1 * (h2 - h1) == 0.0;
    }
    assert 2.0 * h1 - h0 - h2 != 0.0;
    assert LeadingCoefficient(times, heights, i) == num / -93312000.0;
  }

  // ---------------------------------------------------------------------
  // Extremes

  datatype Extreme = Extreme(time: Time, height: real, kind: Kind)

  function TimeOf(e: Extreme): Time {
    e.time
  }

  /** `time_offset_hw` / `time_offset_lw` in microseconds; zero without offsets. */
  function TimeOffset(tc: Calculator, loc: string, k: Kind): (r: int)
    requires loc in tc.stations
    ensures tc.stations[loc].offsets.None? ==> r == 0
  {
    match tc.stations[loc].offsets
    case None => 0
    case Some(o) => (if k == High then o.timeHwMin else o.timeLwMin) * MicrosPerMinute
  }

  /** `height_offset_hw` / `height_offset_lw`; zero without offsets. */
  function HeightOffset(tc: Calculator, loc: string, k: Kind): (r: real)
    requires loc in tc.stations
    ensures tc.stations[loc].offsets.None? ==> r == 0.0
  {
    match tc.stations[loc].offsets
    case None => 0.0
    case Some(o) => if k == High then o.heightHwM else o.heightLwM
  }

  /** The refined (pre-offset) instant lies in the requested day. */
  predicate InDay(date: Time, t: Time) {
    MidnightOf(date) <= t < MidnightOf(date) + MicrosPerDay
  }

  /** What index `i` of the scan contributes: an extreme when it is a strict
      peak whose refined instant is in the day, reported with the offsets
      of its kind. */
  function ExtremeAt(tc: Calculator, loc: string, date: Time, times: seq<Time>, heights: seq<real>, i: nat): (r: Option<Extreme>)
    requires Knows(tc, loc) && 0 < i < |times| - 1 && |heights| == |times|
  {
    match Classify(heights, i)
    case None => None
    case Some(k) =>
      var (t, h) := Refine(tc, times, heights, i);
      if InDay(date, t) then Some(Extreme(t + TimeOffset(tc, loc, k), h + HeightOffset(tc, loc, k), k)) else None
  }

  /** The extremes found at indices 1 .. k-1, in scan order. */
  function Candidates(tc: Calculator, loc: string, date: Time, times: seq<Time>, heights: seq<real>, k: nat): seq<Extreme>
    requires Knows(tc, loc) && |heights| == |times| && k <= |times| - 1
  {
    if k <= 1 then []
    else
      Candidates(tc, loc, date, times, heights, k - 1) +
      match ExtremeAt(tc, loc, date, times, heights, k - 1)
      case Some(e) => [e]
      case None => []
  }

  lemma CandidatesStep(tc: Calculator, loc: string, date: Time, times: seq<Time>, heights: seq<real>, i: nat)
    requires Knows(tc, loc) && |heights| == |times| && 0 < i < |times| - 1
    ensures Candidates(tc, loc, date, times, heights, i + 1) ==
      Candidates(tc, loc, date, times, heights, i) +
      match ExtremeAt(tc, loc, date, times, heights, i)
      case Some(e) => [e]
      case None => []
  {
  }

  /** `find_extremes`, as a value. */
  function Extremes(tc: Calculator, loc: string, date: Time): seq<Extreme>
    requires Knows(tc, loc)
  {
    var times := ScanGrid(date);
    SortByInt(Candidates(tc, loc, date, times, ScanHeights(tc, loc, times), GridSize - 1), TimeOf)
  }

  /** The first loop of `find_extremes`: the grid from midnight - 1 h while
      not past midnight + 25 h, and the base curve at each point. */
  method ScanDay(tc: Calculator, loc: string, date: Time) returns (times: seq<Time>, heights: seq<real>)
    requires Knows(tc, loc)
    ensures times == ScanGrid(date)
    ensures heights == ScanHeights(tc, loc, times)
  {
    var base := Base(tc, loc);
    var start := MidnightOf(date) - MicrosPerHour;
    var end := start + 26 * MicrosPerHour;
    times, heights := [], [];
    var t := start;
    while t <= end
      invariant |heights| == |times| && t == start + |times| * ScanStep && t <= end + ScanStep
      invariant forall k :: 0 <= k < |times| ==> times[k] == start + k * ScanStep
      invariant forall k :: 0 <= k < |times| ==> heights[k] == Curve(tc, base, times[k])
      decreases end - t
    {
      times := times + [t];
      heights := heights + [Curve(tc, base, t)];
      t := t + ScanStep;
    }
    assert |times| == GridSize;
  }

  /** The second loop of `find_extremes`: every interior index that is a
      strict high or low, refined, kept when its refined instant is in the
      day, in scan order. */
  method ScanCandidates(tc: Calculator, loc: string, date: Time, times: seq<Time>, heights: seq<real>) returns (found: seq<Extreme>)
    requires Knows(tc, loc) && |heights| == |times| >= 2
    ensures found == Candidates(tc, loc, date, times, heights, |times| - 1)
  {
    found := [];
    var i := 1;
    while i < |heights| - 1
      invariant |heights| == |times| && 1 <= i <= |heights| - 1
      invariant found == Candidates(tc, loc, date, times, heights, i)
    {
      CandidatesStep(tc, loc, date, times, heights, i);
      ghost var next := ExtremeAt(tc, loc, date, times, heights, i);
      if heights[i] > heights[i - 1] && heights[i] > heights[i + 1] {
        assert Classify(heights, i) == Some(High);
        var (refinedT, refinedH) := Refine(tc, times, heights, i);
        if MidnightOf(date) <= refinedT < MidnightOf(date) + MicrosPerDay {
          assert next == Some(Extreme(refinedT + TimeOffset(tc, loc, High), refinedH + HeightOffset(tc, loc, High), High));
          found := found + [Extreme(refinedT + TimeOffset(tc, loc, High), refinedH + HeightOffset(tc, loc, High), High)];
        } else {
          assert next == None;
        }
      } else if heights[i] < heights[i - 1] && heights[i] < heights[i + 1] {
        assert Classify(heights, i) == Some(Low);
        var (refinedT, refinedH) := Refine(tc, times, heights, i);
        if MidnightOf(date) <= refinedT < MidnightOf(date) + MicrosPerDay {
          assert next == Some(Extreme(refinedT + TimeOffset(tc, loc, Low), refinedH + HeightOffset(tc, loc, Low), Low));
          found := found + [Extreme(refinedT + TimeOffset(tc, loc, Low), refinedH + HeightOffset(tc, loc, Low), Low)];
        } else {
          assert next == None;
        }
      } else {
        assert next == None;
      }
      i := i + 1;
    }
  }

  /** `find_extremes`: the scan, its candidates, sorted by reported instant. */
  method FindExtremes(tc: Calculator, loc: string, date: Time) returns (extremes: seq<Extreme>)
    requires Knows(tc, loc)
    ensures extremes == Extremes(tc, loc, date)
    ensures SortedByInt(extremes, TimeOf)
  {
    var times, heights := ScanDay(tc, loc, date);
    var found := ScanCandidates(tc, loc, date, times, heights);
    extremes := SortByInt(found, TimeOf);
    SortByIntCorrect(found, TimeOf);
  }

  // ---------------------------------------------------------------------
  // Properties of the extremes

  lemma {:induction false} CandidatesMembers(tc: Calculator, loc: string, date: Time, times: seq<Time>, heights: seq<real>, k: nat, e: Extreme)
    requires Knows(tc, loc) && |heights| == |times| && k <= |times| - 1
    ensures e in Candidates(tc, loc, date, times, heights, k) <==>
      exists i :: 1 <= i < k && ExtremeAt(tc, loc, date, times, heights, i) == Some(e)
    decreases k
  {
    if k > 1 {
      CandidatesMembers(tc, loc, date, times, heights, k - 1, e);
    }
  }

  /** The result of `find_extremes` is sorted by reported instant and holds
      exactly the scan-order candidates, each as often. */
  lemma ExtremesSortedPermutation(tc: Calculator, loc: string, date: Time)
    requires Knows(tc, loc)
    ensures var times := ScanGrid(date);
      SortedByInt(Extremes(tc, loc, date), TimeOf) &&
      multiset(Extremes(tc, loc, date)) ==
        multiset(Candidates(tc, loc, date, times, ScanHeights(tc, loc, times), GridSize - 1))
  {
    var times := ScanGrid(date);
    SortByIntCorrect(Candidates(tc, loc, date, times, ScanHeights(tc, loc, times), GridSize - 1), TimeOf);
  }

  /** What one index contributes, in terms of its classification and refinement. */
  predicate ReportsAt(tc: Calculator, loc: string, date: Time, times: seq<Time>, heights: seq<real>, i: nat, e: Extreme)
    requires Knows(tc, loc) && 0 < i < |times| - 1 && |heights| == |times|
  {
    IsStrictPeak(heights, i, e.kind) &&
    InDay(date, Refine(tc, times, heights, i).0) &&
    e.time == Refine(tc, times, heights, i).0 + TimeOffset(tc, loc, e.kind) &&
    e.height == heights[i] + HeightOffset(tc, loc, e.kind)
  }

  lemma ExtremeAtReports(tc: Calculator, loc: string, date: Time, times: seq<Time>, heights: seq<real>, i: nat, e: Extreme)
    requires Knows(tc, loc) && 0 < i < |times| - 1 && |heights| == |times|
    ensures ExtremeAt(tc, loc, date, times, heights, i) == Some(e) <==> ReportsAt(tc, loc, date, times, heights, i, e)
  {
    if ReportsAt(tc, loc, date, times, heights, i, e) {
      assert Classify(heights, i) == Some(e.kind);
    }
  }

  /** An extreme is reported exactly when an interior grid index (never an
      endpoint) is a strict high or low of the scanned base curve whose
      refined instant lies in the day; it is reported at that instant plus
      its kind's time offset, with the scanned height plus its kind's height
      offset. */
  lemma ExtremeCharacterized(tc: Calculator, loc: string, date: Time, e: Extreme)
    requires Knows(tc, loc)
    ensures e in Extremes(tc, loc, date) <==>
      exists i :: 1 <= i < GridSize - 1 && ReportsAt(tc, loc, date, ScanGrid(date), ScanHeights(tc, loc, ScanGrid(date)), i, e)
  {
    var times := ScanGrid(date);
    var heights := ScanHeights(tc, loc, times);
    var cands := Candidates(tc, loc, date, times, heights, GridSize - 1);
    ExtremesSortedPermutation(tc, loc, date);
    assert e in Extremes(tc, loc, date) <==> e in cands by {
      assert e in Extremes(tc, loc, date) <==> e in multiset(Extremes(tc, loc, date));
      assert e in cands <==> e in multiset(cands);
    }
    CandidatesMembers(tc, loc, date, times, heights, GridSize - 1, e);
    forall i | 1 <= i < GridSize - 1
      ensures ExtremeAt(tc, loc, date, times, heights, i) == Some(e) <==> ReportsAt(tc, loc, date, times, heights, i, e)
    {
      ExtremeAtReports(tc, loc, date, times, heights, i, e);
    }
  }

  /** A reported instant, less its kind's time offset, lies in the day; a
      station without offsets reports only instants of the day itself. */
  lemma ExtremeWindow(tc: Calculator, loc: string, date: Time, e: Extreme)
    requires Knows(tc, loc) && e in Extremes(tc, loc, date)
    ensures MidnightOf(date) <= e.time - TimeOffset(tc, loc, e.kind) < MidnightOf(date) + MicrosPerDay
    ensures tc.stations[loc].offsets.None? ==> MidnightOf(date) <= e.time < MidnightOf(date) + MicrosPerDay
  {
    ExtremeCharacterized(tc, loc, date, e);
  }

  /** The refined instant on the scan grid: the parabola's vertex unless its
      leading coefficient is below 1e-10; a strict peak's leading
      coefficient is never exactly zero. */
  lemma RefineOnGrid(tc: Calculator, loc: string, date: Time, i: nat, k: Kind)
    requires Knows(tc, loc) && 0 < i < GridSize - 1
    requires IsStrictPeak(ScanHeights(tc, loc, ScanGrid(date)), i, k)
    ensures var times := ScanGrid(date);
      var heights := ScanHeights(tc, loc, times);
      Abs(Denominator(times, i)) >= Negligible &&
      LeadingCoefficient(times, heights, i) != 0.0 &&
      Refine(tc, times, heights, i).0 ==
        if Abs(LeadingCoefficient(times, heights, i)) < Negligible then times[i]
        else tc.vertex(LeadingCoefficient(times, heights, i), LinearCoefficient(times, heights, i))
  {
    var times := ScanGrid(date);
    ScanGridShape(date);
    StrictPeakCurves(times, ScanHeights(tc, loc, times), i, k);
  }
}
