/** The `/api` location endpoints: the static list of locations and the
    sunrise/sunset lookup, which reads the cached `sun_times` row and
    computes the day length from its `HH:MM` texts, or falls back to the
    on-demand calculator. */
module LocationsRouter {
  import opened Wrappers
  import opened Text
  import opened Rounding
  import opened Calendar
  import opened Tables
  import opened SunCalculator
  import CacheBuilder

  /** One element of the `locations` list. */
  datatype LocationInfo = LocationInfo(id: string, name: string, latitude: real, longitude: real)

  /** `get_locations` */
  const AllLocations: seq<LocationInfo> := [
    LocationInfo("newquay", "Newquay", 50.4167, -5.0833),
    LocationInfo("holywell", "Holywell Bay", 50.3930, -5.1480),
    LocationInfo("polzeath", "Polzeath", 50.5720, -4.9190),
    LocationInfo("port_isaac", "Port Isaac", 50.5930, -4.8290)
  ]

  /** The advertised locations are the ones the cache is built for, in the
      same order, and each has coordinates for the sun calculator. */
  lemma LocationsAgree()
    ensures seq(|AllLocations|, i requires 0 <= i < |AllLocations| => AllLocations[i].id) == CacheBuilder.Locations
    ensures forall l :: l in AllLocations ==> l.id in SunLocations
  {
  }

  // ---------------------------------------------------------------------
  // Clock texts

  /** `int(parts[0]) * 60 + int(parts[1])` with `parts = s.split(":")`:
      `None` where Python raises (`IndexError` for a text without a colon,
      `ValueError` for a field that is not an integer). */
  function ClockMinutes(s: string): (r: Option<int>)
    ensures r.Some? ==> ':' in s
  {
    var parts := Split(s, ':');
    if |parts| < 2 then None
    else
      assert ':' in s by {
        if ':' !in s {
          SplitWhole(s, ':');
        }
      }
      match (ParseInt(parts[0]), ParseInt(parts[1]))
      case (Some(h), Some(m)) => Some(h * 60 + m)
      case _ => None
  }

  /** The `%H:%M` text of a clock time. */
  function ClockText(h: int, m: int): string {
    Pad2(h) + ":" + Pad2(m)
  }

  /** A stored `HH:MM` text reads back as its minutes after midnight. */
  lemma ClockMinutesOfText(h: int, m: int)
    requires 0 <= h < 24 && 0 <= m < 60
    ensures ClockMinutes(ClockText(h, m)) == Some(h * 60 + m)
  {
    var s := ClockText(h, m);
    assert ':' !in Pad2(h) && ':' !in Pad2(m) by {
      assert forall i :: 0 <= i < 2 ==> IsDigit(Pad2(h)[i]) && IsDigit(Pad2(m)[i]);
    }
    SplitAfterPiece(Pad2(h), ':', Pad2(m));
    SplitWhole(Pad2(m), ':');
    assert Split(s, ':') == [Pad2(h), Pad2(m)];
    Pad2RoundTrip(h);
    Pad2RoundTrip(m);
  }

  /** `round((ss_mins - sr_mins) / 60, 2)`: hours of daylight, not clamped. */
  function DayLength(sunriseMinutes: int, sunsetMinutes: int): (hours: real)
    ensures var exact := (sunsetMinutes - sunriseMinutes) as real / 60.0;
      exact - 0.005 <= hours <= exact + 0.005
  {
    Round2((sunsetMinutes - sunriseMinutes) as real / 60.0)
  }

  /** The day length is within half a hundredth of the exact difference in
      hours, and has the sign of that difference: negative when sunset
      comes before sunrise, zero only when they are equal. */
  lemma DayLengthSign(sunriseMinutes: int, sunsetMinutes: int)
    ensures var hours := DayLength(sunriseMinutes, sunsetMinutes);
      var exact := (sunsetMinutes - sunriseMinutes) as real / 60.0;
      exact - 0.005 <= hours <= exact + 0.005 &&
      (hours < 0.0 <==> sunsetMinutes < sunriseMinutes) &&
      (hours == 0.0 <==> sunsetMinutes == sunriseMinutes)
  {
    var diff := sunsetMinutes - sunriseMinutes;
    var exact := diff as real / 60.0;
    if diff == 0 {
      RoundHalfEvenOfInt(0);
    } else if diff > 0 {
      assert exact >= 1.0 / 60.0;
    } else {
      assert exact <= -1.0 / 60.0;
    }
  }

  // ---------------------------------------------------------------------
  // get_sun_times

  datatype SunError =
    | BadClockText
      // the cached texts are not `HH:MM`; the endpoint raises
    | UnknownLocation
      // neither cached nor known to the calculator (`KeyError`)

  datatype SunReply = Reply(times: SunTimes) | Failure(error: SunError)

  /** `get_sun_times`: the cached row when there is one, with the stored
      texts unchanged and the day length computed from them; otherwise the
      calculator's result for a location it knows.  The defaulting of `date`
      to today is the caller's. */
  function GetSunTimes(db: Database, sunCalc: (string, Day) -> SunTimes, location: string, date: Day): (r: SunReply)
    reads db
    ensures var key := SunKey(location, IsoDate(date));
      (r == Failure(UnknownLocation) ==> key !in db.sun && location !in SunLocations) &&
      (r == Failure(BadClockText) ==> key in db.sun) &&
      (r.Reply? && key in db.sun ==>
        r.times.date == IsoDate(date) && r.times.sunrise == db.sun[key].sunrise && r.times.sunset == db.sun[key].sunset)
  {
    match db.SunLookup(location, IsoDate(date))
    case Some(row) =>
      (match (ClockMinutes(row.sunrise), ClockMinutes(row.sunset))
       case (Some(sr), Some(ss)) => Reply(SunTimes(IsoDate(date), row.sunrise, row.sunset, DayLength(sr, ss)))
       case _ => Failure(BadClockText))
    case None =>
      if location in SunLocations then Reply(sunCalc(location, date)) else Failure(UnknownLocation)
  }

  /** A cached row whose two texts read as clock minutes is answered with
      those texts unchanged and the day length between the two readings
      (for the `HH:MM` texts the cache stores, `ClockMinutesOfText` gives
      the readings). */
  lemma CachedReadable(db: Database, sunCalc: (string, Day) -> SunTimes, location: string, date: Day,
                       row: SunRow, sr: int, ss: int)
    requires SunKey(location, IsoDate(date)) in db.sun && db.sun[SunKey(location, IsoDate(date))] == row
    requires ClockMinutes(row.sunrise) == Some(sr) && ClockMinutes(row.sunset) == Some(ss)
    ensures GetSunTimes(db, sunCalc, location, date) == Reply(SunTimes(IsoDate(date), row.sunrise, row.sunset, DayLength(sr, ss)))
  {
    assert db.SunLookup(location, IsoDate(date)) == Some(row);
  }

  /** A cached row whose texts are not both `HH:MM` fails the request rather
      than falling back to the calculator. */
  lemma CachedBadClockText(db: Database, sunCalc: (string, Day) -> SunTimes, location: string, date: Day)
    requires SunKey(location, IsoDate(date)) in db.sun
    requires var row := db.sun[SunKey(location, IsoDate(date))];
      ClockMinutes(row.sunrise).None? || ClockMinutes(row.sunset).None?
    ensures GetSunTimes(db, sunCalc, location, date) == Failure(BadClockText)
  {
  }

  /** Without a cached row the calculator answers for the locations it
      knows, and any other location fails. */
  lemma UncachedSunTimes(db: Database, sunCalc: (string, Day) -> SunTimes, location: string, date: Day)
    requires SunKey(location, IsoDate(date)) !in db.sun
    ensures location in SunLocations ==> GetSunTimes(db, sunCalc, location, date) == Reply(sunCalc(location, date))
    ensures location !in SunLocations ==> GetSunTimes(db, sunCalc, location, date) == Failure(UnknownLocation)
  {
  }
}
