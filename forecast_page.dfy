/** The `tt.forecast = {...};` block of a tidetimes.co.uk page, as both
    scrapers read it.  Finding the block (a regular expression) and decoding
    it (`json.loads`) are library work, so a page is given by the outcome
    of that extraction. */
module ForecastPage {
  import opened Wrappers

  /** One element of the `forecasts` list with the three members the
      scrapers read; an absent member or a JSON `null` is `None`. */
  datatype RawRecord = RawRecord(forecastAt: Option<string>, tideHeight: Option<real>, tideType: Option<string>)

  /** What the extraction yields. */
  datatype Extracted =
    | NoForecastBlock
      // the regular expression finds no block
    | InvalidJson
      // `json.JSONDecodeError`
    | Malformed
      // a `forecasts` value or element of another shape, on which the
      // record loop raises an exception no `except` of the parser names
    | Forecasts(records: seq<RawRecord>)
      // `data.get("forecasts", [])`

  /** The filter `dt_str and height is not None and tide_type`: a non-empty
      timestamp, a height that is present (zero included) and a non-empty type. */
  predicate Keep(r: RawRecord) {
    r.forecastAt.Some? && r.forecastAt.value != "" &&
    r.tideHeight.Some? &&
    r.tideType.Some? && r.tideType.value != ""
  }

  /** `tide_type == "HW"` */
  predicate IsHighWater(r: RawRecord) {
    r.tideType == Some("HW")
  }
}
