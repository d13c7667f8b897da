/** What `SunCalculator.get_sun_times` returns.  The solar computation
    itself (the astral library) is not modelled: callers receive it as a
    given function of location and date. */
module SunCalculator {
  /** The returned dictionary: the date's ISO text, sunrise and sunset as
      `HH:MM` local time, and the day length in hours rounded to 2 places. */
  datatype SunTimes = SunTimes(date: string, sunrise: string, sunset: string, dayLengthHours: real)

  /** The keys of `LOCATION_COORDS`; any other location raises `KeyError`. */
  const SunLocations: set<string> := {"newquay", "holywell", "polzeath", "port_isaac"}
}
