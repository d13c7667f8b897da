/** Naive datetimes.  An instant is a count of microseconds (datetime's
    resolution) since 2026-01-01T00:00:00, the tide calculator's epoch; a
    date is a count of days since that date.  Strings are the four layouts
    the program writes and reads with strftime/strptime and isoformat. */
module Calendar {
  import opened Wrappers
  import opened Text

  /** Microseconds since 2026-01-01T00:00:00. */
  type Time = int
  /** Days since 2026-01-01. */
  type Day = int

  const MicrosPerSecond: int := 1_000_000
  const MicrosPerMinute: int := 60_000_000
  const MicrosPerHour: int := 3_600_000_000
  const MicrosPerDay: int := 86_400_000_000

  /** `datetime(d.year, d.month, d.day)`. */
  function Midnight(d: Day): Time {
    d * MicrosPerDay
  }

  /** `dt.date()`: the day an instant falls in (floor division). */
  function DayOf(t: Time): Day {
    t / MicrosPerDay
  }

  /** `datetime(dt.year, dt.month, dt.day)`: the instant truncated to its midnight. */
  function MidnightOf(t: Time): (m: Time)
    ensures m <= t < m + MicrosPerDay
  {
    Midnight(DayOf(t))
  }

  /** An instant at offset `x` from midnight of `d` lies in day `d` exactly
      when the offset is within one day. */
  lemma DayOfMidnightPlus(d: Day, x: int)
    ensures DayOf(Midnight(d) + x) == d <==> 0 <= x < MicrosPerDay
  {
    var n := Midnight(d) + x;
    var q := n / MicrosPerDay;
    assert n == MicrosPerDay * q + n % MicrosPerDay;
    if 0 <= x < MicrosPerDay {
      assert MicrosPerDay * (q - d) == x - n % MicrosPerDay;
      assert q == d;
    }
  }

  // ---------------------------------------------------------------------
  // Calendar fields

  datatype DateTime = DateTime(year: int, month: int, day: int, hour: int, minute: int, second: int)

  predicate IsLeapYear(y: int) {
    y % 4 == 0 && (y % 100 != 0 || y % 400 == 0)
  }

  function DaysInMonth(y: int, m: int): int
    requires 1 <= m <= 12
  {
    if m == 2 then (if IsLeapYear(y) then 29 else 28)
    else if m == 4 || m == 6 || m == 9 || m == 11 then 30
    else 31
  }

  /** What `datetime(...)` accepts (second 60 is refused, as by strptime's
      final `datetime` construction). */
  predicate Valid(dt: DateTime) {
    1 <= dt.year <= 9999 && 1 <= dt.month <= 12 && 1 <= dt.day <= DaysInMonth(dt.year, dt.month) &&
    0 <= dt.hour < 24 && 0 <= dt.minute < 60 && 0 <= dt.second < 60
  }

  /** Proleptic Gregorian (year, month, day) of a day number. */
  function CivilFromDays(d: Day): (int, int, int) {
    var z := d + 739922;  // days since 0000-03-01
    var era := z / 146097;
    var doe := z - era * 146097;
    var yoe := (doe - doe / 1460 + doe / 36524 - doe / 146096) / 365;
    var y := yoe + era * 400;
    var doy := doe - (365 * yoe + yoe / 4 - yoe / 100);
    var mp := (5 * doy + 2) / 153;
    var dd := doy - (153 * mp + 2) / 5 + 1;
    var m := if mp < 10 then mp + 3 else mp - 9;
    (if m <= 2 then y + 1 else y, m, dd)
  }

  /** The calendar fields of an instant (sub-second part dropped, as every
      layout below drops it). */
  function FieldsOf(t: Time): DateTime {
    var (y, m, d) := CivilFromDays(DayOf(t));
    var s := t % MicrosPerDay / MicrosPerSecond;
    DateTime(y, m, d, s / 3600, s % 3600 / 60, s % 60)
  }

  // ---------------------------------------------------------------------
  // Layouts

  /** The strptime layouts tried by both scrapers, in the order they are tried. */
  datatype Layout = IsoSeconds | IsoMinutes | SpaceSeconds | SpaceMinutes

  /** "%Y-%m-%dT%H:%M:%S", "%Y-%m-%dT%H:%M", "%Y-%m-%d %H:%M:%S", "%Y-%m-%d %H:%M". */
  const Layouts: seq<Layout> := [IsoSeconds, IsoMinutes, SpaceSeconds, SpaceMinutes]

  function Separator(f: Layout): char {
    if f == IsoSeconds || f == IsoMinutes then 'T' else ' '
  }

  predicate HasSeconds(f: Layout) {
    f == IsoSeconds || f == SpaceSeconds
  }

  function Width(f: Layout): nat {
    if HasSeconds(f) then 19 else 16
  }

  /** "%Y-%m-%d", also `date.isoformat()`. */
  function DateText(dt: DateTime): (r: string)
    ensures |r| == 10
  {
    Pad4(dt.year) + "-" + Pad2(dt.month) + "-" + Pad2(dt.day)
  }

  /** strftime with one of the layouts. */
  function Render(dt: DateTime, f: Layout): (r: string)
    ensures |r| == Width(f)
  {
    DateText(dt) + [Separator(f)] + Pad2(dt.hour) + ":" + Pad2(dt.minute) +
    (if HasSeconds(f) then ":" + Pad2(dt.second) else "")
  }

  /** `d.isoformat()` for a date. */
  function IsoDate(d: Day): (r: string)
    ensures |r| == 10
  {
    DateText(FieldsOf(Midnight(d)))
  }

  /** 9999-12-31, the last date Python's `date` represents (`date.max`);
      adding a day to it raises `OverflowError`. */
  const LastDay: Day := 2912442

  /** The civil date of the last day, step by step through `CivilFromDays`. */
  lemma CivilLastDay()
    ensures CivilFromDays(LastDay) == (9999, 12, 31)
  {
    var z := LastDay + 739922;
    assert z / 146097 == 24 && z - 24 * 146097 == 146036;
    assert (146036 - 146036 / 1460 + 146036 / 36524 - 146036 / 146096) / 365 == 399;
    assert 146036 - (365 * 399 + 399 / 4 - 399 / 100) == 305;
    assert (5 * 305 + 2) / 153 == 9 && 305 - (153 * 9 + 2) / 5 + 1 == 31;
  }

  lemma MidnightFields(d: Day)
    ensures FieldsOf(Midnight(d)) == DateTime(CivilFromDays(d).0, CivilFromDays(d).1, CivilFromDays(d).2, 0, 0, 0)
  {
    assert DayOf(Midnight(d)) == d;
    assert Midnight(d) % MicrosPerDay == 0;
  }

  lemma LastDateText()
    ensures DateText(DateTime(9999, 12, 31, 0, 0, 0)) == "9999-12-31"
  {
    assert Pad2(99) == "99" && Pad2(12) == "12" && Pad2(31) == "31";
    assert Pad4(9999) == Pad2(99) + Pad2(99);
  }

  lemma LastDayText()
    ensures IsoDate(LastDay) == "9999-12-31"
  {
    CivilLastDay();
    MidnightFields(LastDay);
    LastDateText();
  }

  /** `dt.strftime("%Y-%m-%dT%H:%M:%S")`, the form of every `datetime_utc` column. */
  function IsoDateTime(t: Time): (r: string)
    ensures |r| == 19
  {
    Render(FieldsOf(t), IsoSeconds)
  }

  /** The first ten characters of an instant's text are its date's text. */
  lemma IsoDateTimeDate(t: Time)
    ensures Take(IsoDateTime(t), 10) == IsoDate(DayOf(t))
  {
    var d := DayOf(t);
    assert DayOf(Midnight(d)) == d by { DayOfMidnightPlus(d, 0); }
    assert FieldsOf(t).year == FieldsOf(Midnight(d)).year;
    var r := IsoDateTime(t);
    assert r == DateText(FieldsOf(t)) + (r[10..]);
  }

  /** The seconds field is dropped by the minute layouts. */
  function Truncated(dt: DateTime, f: Layout): DateTime {
    if HasSeconds(f) then dt else dt.(second := 0)
  }

  /** The character classes of a layout: four-digit year, two-digit fields,
      fixed separators, and nothing else. */
  predicate Shaped(s: string, f: Layout) {
    |s| == Width(f) &&
    s[4] == '-' && s[7] == '-' && s[10] == Separator(f) && s[13] == ':' &&
    (HasSeconds(f) ==> s[16] == ':') &&
    AllDigits(s[0..4]) && AllDigits(s[5..7]) && AllDigits(s[8..10]) &&
    AllDigits(s[11..13]) && AllDigits(s[14..16]) &&
    (HasSeconds(f) ==> AllDigits(s[17..19]))
  }

  function FieldsFrom(s: string, f: Layout): DateTime
    requires Shaped(s, f)
  {
    DateTime(DecimalValue(s[0..4]), DecimalValue(s[5..7]), DecimalValue(s[8..10]),
             DecimalValue(s[11..13]), DecimalValue(s[14..16]),
             if HasSeconds(f) then DecimalValue(s[17..19]) else 0)
  }

  /** `datetime.strptime(s, fmt)` with zero-padded fields: the whole string
      must match the layout and the fields must form a real datetime;
      otherwise `ValueError`, shown as `None`. */
  function Strptime(s: string, f: Layout): Option<DateTime> {
    if Shaped(s, f) && Valid(FieldsFrom(s, f)) then Some(FieldsFrom(s, f)) else None
  }

  /** The `for fmt in (...)` fallback: the first layout that accepts `s`. */
  function FirstMatch(s: string, fs: seq<Layout>): (r: Option<DateTime>)
    ensures r.Some? ==> exists i :: 0 <= i < |fs| && Strptime(s, fs[i]) == r
    ensures r.None? <==> forall i :: 0 <= i < |fs| ==> Strptime(s, fs[i]).None?
  {
    if fs == [] then None
    else if Strptime(s, fs[0]).Some? then Strptime(s, fs[0])
    else
      var r := FirstMatch(s, fs[1..]);
      assert forall i :: 1 <= i < |fs| ==> fs[i] == fs[1..][i - 1];
      r
  }

  /** How both scrapers read a local timestamp: the first 19 characters
      against the four layouts in order. */
  function ParseLocal(s: string): Option<DateTime> {
    FirstMatch(Take(s, 19), Layouts)
  }

  /** The for-else loop itself. */
  method StrptimeFirst(s: string) returns (r: Option<DateTime>)
    ensures r == ParseLocal(s)
  {
    var text := Take(s, 19);
    var i := 0;
    r := None;
    while i < |Layouts|
      invariant 0 <= i <= |Layouts|
      invariant ParseLocal(s) == FirstMatch(text, Layouts[i..])
      decreases |Layouts| - i
    {
      FirstMatchStep(text, Layouts[i..]);
      assert Layouts[i..][0] == Layouts[i] && Layouts[i..][1..] == Layouts[i + 1..];
      var attempt := Strptime(text, Layouts[i]);
      if attempt.Some? {
        r := attempt;
        return;
      }
      i := i + 1;
    }
    assert Layouts[i..] == [];
  }

  lemma FirstMatchStep(s: string, fs: seq<Layout>)
    requires fs != []
    ensures FirstMatch(s, fs) == if Strptime(s, fs[0]).Some? then Strptime(s, fs[0]) else FirstMatch(s, fs[1..])
  {
  }

  // ---------------------------------------------------------------------
  // Properties of the layouts

  /** Where each field and separator stands in a rendering. */
  lemma RenderFields(dt: DateTime, f: Layout)
    ensures var s := Render(dt, f);
      s[0..4] == Pad4(dt.year) && s[5..7] == Pad2(dt.month) && s[8..10] == Pad2(dt.day) &&
      s[11..13] == Pad2(dt.hour) && s[14..16] == Pad2(dt.minute) &&
      (HasSeconds(f) ==> s[17..19] == Pad2(dt.second)) &&
      s[4] == '-' && s[7] == '-' && s[10] == Separator(f) && s[13] == ':' &&
      (HasSeconds(f) ==> s[16] == ':')
  {
    var s := Render(dt, f);
    var date := DateText(dt);
    assert s[..10] == date;
    assert date[0..4] == Pad4(dt.year) && date[5..7] == Pad2(dt.month) && date[8..10] == Pad2(dt.day);
    assert s[0..4] == date[0..4] && s[5..7] == date[5..7] && s[8..10] == date[8..10];
  }

  /** Rendering a valid datetime and parsing it back with the same layout
      gives the datetime (without seconds for the minute layouts). */
  lemma ParseRendered(dt: DateTime, f: Layout)
    requires Valid(dt)
    ensures Strptime(Render(dt, f), f) == Some(Truncated(dt, f))
  {
    var s := Render(dt, f);
    RenderFields(dt, f);
    Pad4RoundTrip(dt.year);
    Pad2RoundTrip(dt.month);
    Pad2RoundTrip(dt.day);
    Pad2RoundTrip(dt.hour);
    Pad2RoundTrip(dt.minute);
    Pad2RoundTrip(dt.second);
    assert Shaped(s, f);
    assert FieldsFrom(s, f) == Truncated(dt, f);
  }

  /** Parsing is exact: an accepted string is the rendering of its result. */
  lemma RenderParsed(s: string, f: Layout)
    requires Strptime(s, f).Some?
    ensures Valid(Strptime(s, f).value) && Render(Strptime(s, f).value, f) == s
  {
    var dt := Strptime(s, f).value;
    Pad4OfDigits(s[0..4]);
    Pad2OfDigits(s[5..7]);
    Pad2OfDigits(s[8..10]);
    Pad2OfDigits(s[11..13]);
    Pad2OfDigits(s[14..16]);
    if HasSeconds(f) {
      Pad2OfDigits(s[17..19]);
    }
    var r := Render(dt, f);
    RenderFields(dt, f);
    SameByFields(r, s, f);
  }

  /** Two strings of a layout's width that agree on every field and every
      separator position are equal. */
  lemma SameByFields(r: string, s: string, f: Layout)
    requires |r| == |s| == Width(f)
    requires r[0..4] == s[0..4] && r[5..7] == s[5..7] && r[8..10] == s[8..10]
    requires r[11..13] == s[11..13] && r[14..16] == s[14..16]
    requires r[4] == s[4] && r[7] == s[7] && r[10] == s[10] && r[13] == s[13]
    requires HasSeconds(f) ==> r[16] == s[16] && r[17..19] == s[17..19]
    ensures r == s
  {
    forall i | 0 <= i < |s|
      ensures r[i] == s[i]
    {
      if i < 4 { assert r[0..4][i] == s[0..4][i]; }
      else if 5 <= i < 7 { assert r[5..7][i - 5] == s[5..7][i - 5]; }
      else if 8 <= i < 10 { assert r[8..10][i - 8] == s[8..10][i - 8]; }
      else if 11 <= i < 13 { assert r[11..13][i - 11] == s[11..13][i - 11]; }
      else if 14 <= i < 16 { assert r[14..16][i - 14] == s[14..16][i - 14]; }
      else if 17 <= i < 19 { assert r[17..19][i - 17] == s[17..19][i - 17]; }
    }
  }

  /** No string is accepted by two different layouts, so the order of the
      fallback never changes which datetime is read. */
  lemma LayoutsExclusive(s: string, f: Layout, g: Layout)
    requires f != g && Strptime(s, f).Some?
    ensures Strptime(s, g).None?
  {
  }

  /** Every layout's rendering is read back by the fallback. */
  lemma ParseLocalRendered(dt: DateTime, f: Layout)
    requires Valid(dt)
    ensures ParseLocal(Render(dt, f)) == Some(Truncated(dt, f))
  {
    var s := Render(dt, f);
    assert Take(s, 19) == s;
    ParseRendered(dt, f);
    forall g | g != f
      ensures Strptime(s, g).None?
    {
      LayoutsExclusive(s, f, g);
    }
    assert f in Layouts;
  }

  /** Text after the first 19 characters (a zone suffix, fractions) is ignored. */
  lemma ParseLocalIgnoresSuffix(dt: DateTime, suffix: string)
    requires Valid(dt)
    ensures ParseLocal(Render(dt, IsoSeconds) + suffix) == Some(dt)
  {
    var s := Render(dt, IsoSeconds);
    assert Take(s + suffix, 19) == s;
    ParseLocalRendered(dt, IsoSeconds);
    assert Take(s, 19) == s;
  }
}
