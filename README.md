# Tide times backend, modelled in Dafny

This project models the Python backend of the tide-times app. The backend
has four connected parts:

- **The offline tide predictor** (`TideCalculator`). It evaluates a
  harmonic height curve. `hourly_heights` gives 25 hourly samples of a day.
  `find_extremes` finds the day's high and low waters on a 6-minute scan
  grid, refines each one, filters it to the day, applies the subordinate
  station's offsets and sorts the result.
- **Forecast ingestion.** The live scraper (`TideScraper`) reads the
  ADMIRALTY forecasts on today's tidetimes.co.uk page. The offline script
  (`ScrapeAndFit`) scrapes about six months of Newquay pages week by
  week. It keeps the first entry per minute, sorts the entries, reads
  their timestamps and writes the harmonics file for all four locations.
- **The cache** (`CacheBuilder`, over the tables in `Tables`). On start-up
  the three SQLite tables are emptied. They are then filled with a year of
  computed predictions, hourly levels and sun times. Finally the published
  predictions are laid over the computed ones, location by location.
- **The query side** (`TidesRouter`, `LocationsRouter`). These are the
  half-open date window of the tide endpoints and the grouping of a
  range's predictions by local date. They also cover the `HH:MM` parsing
  and day-length rounding of the sun endpoint, and the static location
  list.

How the model represents the program:

- An instant is an integer count of microseconds since 2026-01-01T00:00,
  the predictor's epoch. A date is a count of days since then.
- Strings are `seq<char>` and are compared code point by code point, as
  Python and SQLite's BINARY collation do.
- Heights are exact reals. `round(x, 2)` is exact round-half-even to
  hundredths.
- Each table is a `map` from its UNIQUE key (`backend/app/database.py`
  lines 15, 23 and 32) to the rest of the row. The `Database` class holds
  the three maps, and its methods are the SQL statements the program
  issues.
- These are given functions, passed as parameters:
  - the harmonic sum (uptide's `from_amplitude_phase`);
  - the parabola vertex of `_refine_extreme`;
  - the Europe/London ↔ UTC conversions;
  - the sunrise/sunset calculator;
  - the page fetches with the `tt.forecast` extraction;
  - the harmonic fit.
- `date.today()` and `datetime.utcnow()` are parameters as well.

The loops of the source are methods with loop invariants. Each is proved
equal to a specification function, and the properties are lemmas about
those functions:

- `FindExtremes`, `HourlyHeights`, `ParseForecasts` (both scrapers),
  `StrptimeFirst`, `ScrapeLocation` and `FitSeries`;
- `ScrapeAndOverlay`, `FillCache`, `CacheDay`, `StoreExtremes` and
  `StoreHourly`;
- `GroupByLocalDate`.

## Model

| member | source | states |
|---|---|---|
| Rounding.RoundHalfEven | backend/app/routers/locations.py:47 | the result is within one half of the argument, and of two equally near integers it is the even one |
| Rounding.RoundHalfEvenUnique | backend/app/routers/locations.py:47 | an integer strictly within one half of the argument is the rounded value |
| Rounding.Round2 | backend/app/services/cache_builder.py:47 | `round(x, 2)` is within half a hundredth of `x` |
| Rounding.Round2Idempotent | backend/app/services/tide_scraper.py:145 | rounding an already rounded height to hundredths changes nothing |
| Rounding.Round2Nearest | backend/app/services/cache_builder.py:57 | a value strictly nearer to one hundredth than to any other rounds to that hundredth |
| Text.Take | backend/app/services/tide_scraper.py:66 | `s[:n]` has length `min(n, len(s))` and agrees with `s` on every position it has |
| Text.LexLeTotal | backend/app/routers/tides.py:34 | the code-point order of `ORDER BY datetime_utc` relates any two texts |
| Text.LexLeTransitive | backend/app/routers/tides.py:34 | the code-point order is transitive |
| Text.LexLeAntisymmetric | backend/app/routers/tides.py:34 | two texts each at most the other are equal |
| Text.LexLtIsNotLe | backend/app/routers/tides.py:33 | `a < b` holds exactly when `b <= a` fails |
| Text.LexLeTake | backend/app/routers/tides.py:33 | comparing a shorter text with a longer one looks only at the longer one's prefix of equal length |
| Text.Pad2RoundTrip | backend/app/services/cache_builder.py:47 | the two digits strftime writes for 0..99 read back as the number |
| Text.Pad2OfDigits | backend/app/services/tide_scraper.py:66 | two digits strptime reads are rewritten unchanged by strftime |
| Text.Pad4RoundTrip | backend/app/services/cache_builder.py:47 | the four digits of a year 0..9999 read back as the year |
| Text.Pad4OfDigits | backend/app/services/tide_scraper.py:66 | four digits read as a year are rewritten unchanged |
| Text.ParseInt | backend/app/routers/locations.py:45-46 | `int()` of non-empty decimal digits is their value, and `int("")` fails |
| Text.Split | backend/app/routers/locations.py:43-44 | `split(":")` gives at least one piece and no piece holds the separator |
| Text.SplitAfterPiece | backend/app/routers/locations.py:43-44 | a piece without the separator followed by the separator is split off whole |
| Text.SplitWhole | backend/app/routers/locations.py:43-44 | a text without the separator is one piece |
| Calendar.MidnightOf | backend/app/services/tide_calculator.py:56 | `datetime(d.year, d.month, d.day)` is at most the instant and less than a day before it |
| Calendar.DayOfMidnightPlus | backend/app/services/cache_builder.py:54 | an instant at offset `x` from midnight of day `d` has `.date() == d` exactly when `0 <= x <` one day |
| Calendar.DateText | backend/app/services/cache_builder.py:65 | `isoformat()` of a date is ten characters |
| Calendar.Render | backend/app/services/tide_scraper.py:78 | strftime with a seconds layout gives 19 characters, and with a minutes layout 16 |
| Calendar.IsoDate | backend/app/routers/tides.py:27 | the date text is ten characters |
| Calendar.IsoDateTime | backend/app/services/cache_builder.py:47 | every stored `datetime_utc` is 19 characters |
| Calendar.IsoDateTimeDate | backend/app/services/tide_scraper.py:130 | the first ten characters of an instant's text are its date's `isoformat()` |
| Calendar.LastDayText | backend/app/routers/tides.py:28 | the last day the endpoints accept, `date.max`, is the text 9999-12-31 |
| Calendar.FirstMatch | backend/app/services/tide_scraper.py:63-71 | the fallback returns what one of the layouts reads, and returns nothing exactly when every layout refuses the text |
| Calendar.StrptimeFirst | backend/scrape_and_fit.py:152-160 | the `for fmt ... else` loop returns the first layout's reading of the first 19 characters, or nothing |
| Calendar.FirstMatchStep | backend/app/services/tide_scraper.py:65-69 | a layout that reads the text ends the fallback, and a refusal moves on to the next layout |
| Calendar.ParseRendered | backend/app/services/tide_scraper.py:66 | a valid datetime rendered with a layout is read back by it, without seconds for the minute layouts |
| Calendar.RenderParsed | backend/app/services/tide_scraper.py:66 | an accepted text is a valid datetime and is exactly that datetime's rendering |
| Calendar.LayoutsExclusive | backend/app/services/tide_scraper.py:63-64 | no text is accepted by two of the four layouts, so their order never changes the datetime read |
| Calendar.ParseLocalRendered | backend/scrape_and_fit.py:152-157 | every layout's rendering of a valid datetime is read back by the four-layout fallback |
| Calendar.ParseLocalIgnoresSuffix | backend/app/services/tide_scraper.py:66 | characters after the first 19 (zone suffixes, fractions) are ignored |
| Seqs.Selected | backend/app/services/tide_scraper.py:54-81 | the accepted results are never more than the inputs |
| Seqs.SelectedOrigins | backend/app/services/tide_scraper.py:54-81 | the accepted results are exactly the inputs that produce one, in input order, each once |
| Seqs.SortByIntCorrect | backend/app/services/tide_calculator.py:115 | `sort(key=...)` on an instant gives a sorted permutation of its input |
| Seqs.SortByTextCorrect | backend/scrape_and_fit.py:140 | `sort(key=...)` on a text gives a permutation sorted in code-point order |
| Seqs.DistinctPermutation | backend/scrape_and_fit.py:140 | reordering keeps the elements distinct |
| Tables.ApplyAllFacts | backend/app/services/cache_builder.py:45-48 | after a run of `INSERT OR REPLACE` statements the keys are the old keys plus the written ones; an unwritten key keeps its value; every value is old or was written for its key |
| Tables.ApplyAllFresh | backend/app/services/cache_builder.py:29-31 | on an emptied table the keys left are the written ones, each with a value written for it |
| Tables.ApplyAllLast | backend/app/services/cache_builder.py:45-48 | the last write of a key is the value left |
| Tables.ApplyAllAppend | backend/app/services/cache_builder.py:41-67 | two runs of statements in turn are the run of both |
| Tables.WithoutLike | backend/app/services/tide_scraper.py:134-137 | `DELETE ... WHERE location = ? AND datetime_utc LIKE 'd%'` removes exactly that location's rows whose instant starts with `d`, and leaves the others unchanged |
| Tables.SelectKeys | backend/app/routers/tides.py:30-36 | the selected keys are exactly the stored keys the `WHERE` clause accepts, each once, ordered by the column |
| Tables.Database.ClearPredictions | backend/app/services/cache_builder.py:29 | the predictions table is empty and the other two tables are unchanged |
| Tables.Database.ClearHourly | backend/app/services/cache_builder.py:30 | the hourly table is empty and the other two tables are unchanged |
| Tables.Database.ClearSun | backend/app/services/cache_builder.py:31 | the sun table is empty and the other two tables are unchanged |
| Tables.Database.UpsertPrediction | backend/app/services/cache_builder.py:45-48 | the key (location, datetime_utc, type) holds the new height; nothing else changes |
| Tables.Database.UpsertHourly | backend/app/services/cache_builder.py:55-58 | the key (location, datetime_utc) holds the new height; nothing else changes |
| Tables.Database.UpsertSun | backend/app/services/cache_builder.py:63-66 | the key (location, date) holds the new sunrise and sunset; nothing else changes |
| Tables.Database.DeletePredictionsLike | backend/app/services/tide_scraper.py:134-137 | the predictions table loses exactly the rows the LIKE selects; the other tables are unchanged |
| Tables.Database.SelectPredictions | backend/app/routers/tides.py:30-36 | the rows are exactly the location's stored predictions with `lo <= datetime_utc < hi`, each once, ascending by `datetime_utc` |
| Tables.Database.SelectHourly | backend/app/routers/tides.py:103-109 | the rows are exactly the location's stored levels in the window, in strictly ascending time |
| Tables.Database.SunLookup | backend/app/routers/locations.py:33-37 | `fetchone()` finds a row exactly when the (location, date) key is stored, and returns that row |
| TideCalculator.KindName | backend/app/services/tide_calculator.py:103-112 | the stored type is "high" exactly for a high water |
| TideCalculator.Base | backend/app/services/tide_calculator.py:74 | a station without offsets evaluates its own constituents, and a subordinate evaluates newquay's |
| TideCalculator.HeightAt | backend/app/services/tide_calculator.py:35-51 | the height is the base curve, plus `height_hw_m/2 + height_lw_m/2` only for a station with offsets |
| TideCalculator.SubordinateHeight | backend/app/services/tide_calculator.py:47-49 | a subordinate's height is newquay's at the same instant shifted by the mean height offset, with no time offset |
| TideCalculator.HourlyHeights | backend/app/services/tide_calculator.py:53-61 | exactly 25 pairs, pair `h` at midnight + `h` hours with that instant's height |
| TideCalculator.HourlyAscending | backend/app/services/tide_calculator.py:56-58 | the hourly instants rise strictly, an hour apart |
| TideCalculator.ScanGrid | backend/app/services/tide_calculator.py:77-91 | the grid has 261 points |
| TideCalculator.ScanGridShape | backend/app/services/tide_calculator.py:77-91 | the grid runs from midnight − 1 h to midnight + 25 h inclusive, strictly increasing, 6 minutes apart |
| TideCalculator.ScanHeights | backend/app/services/tide_calculator.py:85-88 | each scanned height is the base curve at its grid point, with no height offset added |
| TideCalculator.Classify | backend/app/services/tide_calculator.py:95-113 | an index is high exactly when strictly above both neighbours and low exactly when strictly below both; a plateau is neither, and no index is both |
| TideCalculator.Refine | backend/app/services/tide_calculator.py:118-143 | the refined height is always the scanned height; a negligible `denom` or `a` returns the scanned instant, and otherwise the vertex |
| TideCalculator.EvenSpacingDenominator | backend/app/services/tide_calculator.py:126-128 | on a 6-minute grid `denom` is −93312000, never negligible |
| TideCalculator.StrictPeakCurves | backend/app/services/tide_calculator.py:130-134 | at a strict peak of an even grid the leading coefficient is non-zero |
| TideCalculator.RefineOnGrid | backend/app/services/tide_calculator.py:126-140 | on the scan grid the `denom` guard never fires, and the refined instant is the vertex unless `abs(a) < 1e-10` |
| TideCalculator.TimeOffset | backend/app/services/tide_calculator.py:69-70 | a station without offsets has zero time offsets |
| TideCalculator.HeightOffset | backend/app/services/tide_calculator.py:71-72 | a station without offsets has zero height offsets |
| TideCalculator.ScanDay | backend/app/services/tide_calculator.py:77-91 | the `while t <= end` loop builds exactly the grid and its heights |
| TideCalculator.ScanCandidates | backend/app/services/tide_calculator.py:94-113 | the `for i` loop appends, in scan order, exactly the extreme each interior index contributes |
| TideCalculator.FindExtremes | backend/app/services/tide_calculator.py:63-116 | the result is the specified extremes of the day, sorted ascending by reported instant |
| TideCalculator.CandidatesMembers | backend/app/services/tide_calculator.py:95-113 | an extreme is a candidate exactly when some interior index contributes it |
| TideCalculator.ExtremesSortedPermutation | backend/app/services/tide_calculator.py:115 | the result is sorted and holds exactly the scan-order candidates, each as often |
| TideCalculator.ExtremeAtReports | backend/app/services/tide_calculator.py:96-113 | an index contributes an extreme exactly when it is a strict peak of that kind whose refined instant lies in the day, reported at that instant plus the kind's time offset, with the scanned height plus the kind's height offset |
| TideCalculator.ExtremeCharacterized | backend/app/services/tide_calculator.py:95-113 | an extreme is reported exactly when an interior grid index (never an endpoint) contributes it as above |
| TideCalculator.ExtremeWindow | backend/app/services/tide_calculator.py:99-111 | every reported instant minus its time offset falls in the day; without offsets the reported instant itself does |
| TideScraper.ForecastOf | backend/app/services/tide_scraper.py:57-81 | a record is kept exactly when `forecast_at` is non-empty, the height is present, the type is non-empty and a layout reads the timestamp; it carries the UTC instant's text, the height, and "high" exactly for "HW" (any other type is "low") |
| TideScraper.ParseForecasts | backend/app/services/tide_scraper.py:42-85 | a missing block or invalid JSON gives the empty list; otherwise the result is the accepted records in input order |
| TideScraper.ParsedInOrder | backend/app/services/tide_scraper.py:54-81 | each forecast comes from an accepted record, the source positions rise, and every acceptable record is there |
| TideScraper.Covered | backend/app/services/tide_scraper.py:128-130 | the covered dates are exactly the first ten characters of the forecasts' instants |
| TideScraper.CoveredDates | backend/app/services/tide_scraper.py:128-130 | the loop builds exactly the covered dates |
| TideScraper.WithoutDates | backend/app/services/tide_scraper.py:133-137 | the deletes remove exactly the location's rows on a covered date and leave every other row unchanged |
| TideScraper.WithoutDatesAdd | backend/app/services/tide_scraper.py:133-137 | one more date's delete is one more LIKE delete |
| TideScraper.DeleteDates | backend/app/services/tide_scraper.py:133-137 | the delete loop, in any order of the dates, leaves exactly the table without those dates' rows |
| TideScraper.InsertForecasts | backend/app/services/tide_scraper.py:140-147 | one insert-or-replace per forecast, in order, under (location, datetime_utc, type) with the rounded height |
| TideScraper.OverlayOne | backend/app/services/tide_scraper.py:127-147 | one location's deletes then inserts; the other tables are unchanged |
| TideScraper.OverlayLocationEffect | backend/app/services/tide_scraper.py:128-147 | other locations' rows are unchanged; the location's rows on uncovered dates that no forecast writes are unchanged; its unwritten rows on covered dates are deleted |
| TideScraper.OverlayLastWins | backend/app/services/tide_scraper.py:140-146 | each forecast's key holds the rounded height of the last forecast with that key |
| TideScraper.ScrapeAndOverlay | backend/app/services/tide_scraper.py:101-163 | the table, `total_inserted` and the requests made are those of the loop over `SCRAPE_SLUGS` with its slug cache; the other tables are unchanged |
| TideScraper.StepOnlyItsLocation | backend/app/services/tide_scraper.py:106-158 | one location's step changes no row of another location |
| TideScraper.RunKeepsOthers | backend/app/services/tide_scraper.py:106-158 | rows of a location the loop never visits keep their values |
| TideScraper.RunLog | backend/app/services/tide_scraper.py:109-125 | the slug cache and the requests do not depend on the table |
| TideScraper.FourRequests | backend/app/services/tide_scraper.py:109-125 | with the second location sharing the first one's slug, that slug is requested again only when its first page was unusable (the fetch failed, the parse raised, or it gave no forecasts) |
| TideScraper.ScrapeRequests | backend/app/services/tide_scraper.py:106-125 | the run requests newquay, then newquay again only if its first page was unusable, then padstow and port-isaac |
| TideScraper.HolywellReusesNewquay | backend/app/services/tide_scraper.py:124-125 | with a usable newquay page, holywell overlays newquay's forecasts without a request, and the counter is twice their number |
| TideScraper.FailedLocationUpTo | backend/app/services/tide_scraper.py:114-121 | a location whose fetch fails or yields no forecasts keeps its rows through its own step |
| TideScraper.FailedLocationKept | backend/app/services/tide_scraper.py:157-158 | such a location keeps its rows at the end of the run, while the locations around it are still processed |
| ScrapeAndFit.EntryOf | backend/scrape_and_fit.py:101-110 | a record is kept exactly when `forecast_at` is truthy, the height is not None and the type is truthy; it carries `forecast_at` verbatim and `is_high` exactly for "HW" |
| ScrapeAndFit.ParseForecasts | backend/scrape_and_fit.py:85-114 | the loop gives exactly the kept records' entries in order, the empty list for a missing block or invalid JSON |
| ScrapeAndFit.EntriesInOrder | backend/scrape_and_fit.py:98-114 | each entry comes from a kept record, in input order, and every kept record is there |
| ScrapeAndFit.PageDays | backend/scrape_and_fit.py:122-137 | the requested dates are `start + 7i` while not after `end`, the next is after `end`, and there is at least one when `start <= end` |
| ScrapeAndFit.Dedup | backend/scrape_and_fit.py:131-134 | the kept entries are entries seen, covering all the keys seen |
| ScrapeAndFit.DedupSnoc | backend/scrape_and_fit.py:131-134 | a new entry is kept exactly when its 16-character key has not been seen |
| ScrapeAndFit.DedupDistinct | backend/scrape_and_fit.py:131-134 | no two kept entries share a key |
| ScrapeAndFit.DedupFirstSeen | backend/scrape_and_fit.py:131-134 | each kept entry is the first one seen with its key |
| ScrapeAndFit.DedupStep | backend/scrape_and_fit.py:130-134 | one forecast of the inner loop is appended, and its key marked seen, exactly when the key is new |
| ScrapeAndFit.AddUnseen | backend/scrape_and_fit.py:130-134 | the inner loop extends the de-duplicated data by a page's forecasts and keeps `seen_datetimes` equal to its keys |
| ScrapeAndFit.GatheredStopsAtRaise | backend/scrape_and_fit.py:126-128 | a page whose parse raises ends the script, whatever pages follow |
| ScrapeAndFit.ScrapeLocation | backend/scrape_and_fit.py:117-141 | the stepping loop with de-duplication and the final sort gives exactly the specified data |
| ScrapeAndFit.ScrapedProperties | backend/scrape_and_fit.py:140 | the data is sorted by datetime text, is a permutation of the first-seen entries by key, holds only parsed entries, and has an entry for every key seen |
| ScrapeAndFit.SampleOf | backend/scrape_and_fit.py:150-168 | an entry gives a sample exactly when a layout reads its first 19 characters |
| ScrapeAndFit.FitSeries | backend/scrape_and_fit.py:149-168 | `times_dt` and `heights` have equal length and are the columns of the readable entries' samples |
| ScrapeAndFit.SamplesCount | backend/scrape_and_fit.py:152-168 | every readable entry contributes exactly one sample, in order, with its UTC instant and height, and the others none |
| ScrapeAndFit.Refit | backend/scrape_and_fit.py:226-315 | `main` crashes when a page raises or when no collected timestamp is readable (`np.max` of the empty error list in `verify_predictions`), aborts with fewer than 50 events before any fit, and otherwise writes the file from the fit of the readable samples |
| ScrapeAndFit.NoSamplesIff | backend/scrape_and_fit.py:149-168 | the fitted series is empty exactly when no layout reads any entry's timestamp |
| ScrapeAndFit.UnreadableCrashes | backend/scrape_and_fit.py:186-195 | 50 or more events none of whose timestamps any layout reads crash the script before the file is written |
| ScrapeAndFit.WrittenExactly | backend/scrape_and_fit.py:226-315 | a file is written exactly when every page parses, at least 50 events are collected and at least one of them has a readable timestamp |
| ScrapeAndFit.ScrapedPages | backend/scrape_and_fit.py:219-220 | the span from 2025-08-01 to 2026-02-17 is 29 pages, the last one 2026-02-13 |
| ScrapeAndFit.WrittenFileServesAll | backend/scrape_and_fit.py:288-311 | the station map the script writes, read by a calculator, knows all four locations and evaluates them from newquay's constituents, with polzeath 5 minutes later and port_isaac's highs 6 minutes later and 0.5 m higher |
| ScrapeAndFit.TooFewAborts | backend/scrape_and_fit.py:231-233 | fewer than 50 collected events abort before fitting |
| CacheBuilder.LocationWritesDescribes | backend/app/services/cache_builder.py:41-67 | the statements of a location and day are its extremes' rows, its kept hourly rows and its one sun row |
| CacheBuilder.ExtremeStep | backend/app/services/cache_builder.py:44-48 | one more extreme writes its row over the table so far |
| CacheBuilder.StoreExtremes | backend/app/services/cache_builder.py:44-49 | one upsert per extreme, with its instant's text, type and rounded height; `total_tides` grows by their number |
| CacheBuilder.HourlyStep | backend/app/services/cache_builder.py:53-59 | a sample on the day adds its row and any other sample adds nothing |
| CacheBuilder.StoreHourly | backend/app/services/cache_builder.py:52-59 | an upsert for each sample on the day; `total_hourly` grows by their number |
| CacheBuilder.CacheLocation | backend/app/services/cache_builder.py:41-67 | one location's extremes, hourly levels and sun row are written, with the counts |
| CacheBuilder.CacheDay | backend/app/services/cache_builder.py:41-67 | the location loop writes every location's statements in turn, with the counts |
| CacheBuilder.FillCache | backend/app/services/cache_builder.py:27-69 | the tables are emptied, then hold exactly the statements of days today..today+365, and each counter is its table's statement count |
| CacheBuilder.BuildCache | backend/app/services/cache_builder.py:17-81 | the overlay runs on the fully written predictions table; the hourly and sun tables are as the year left them |
| CacheBuilder.HourlySampleKept | backend/app/services/cache_builder.py:53-54 | sample `h` is stored, as the row of hour `h`, exactly when `h < 24` |
| CacheBuilder.HourlyWritesExact | backend/app/services/cache_builder.py:52-59 | exactly hours 0..23 are stored, in order; hour 24 is dropped |
| CacheBuilder.DayWritesCounts | backend/app/services/cache_builder.py:52-67 | a day writes 24 hourly rows and one sun row per location |
| CacheBuilder.CacheWritesCounts | backend/app/services/cache_builder.py:37-69 | `n` days write 24·n hourly rows and `n` sun rows per location |
| CacheBuilder.BuildTallies | backend/app/services/cache_builder.py:76-78 | a full build logs 35136 hourly levels and 1464 sun times |
| CacheBuilder.DayWritesMembers | backend/app/services/cache_builder.py:41-67 | a statement of a day is a statement of one of its locations |
| CacheBuilder.CacheWritesMembers | backend/app/services/cache_builder.py:37-69 | a statement of the build is one of some location on some cached day |
| CacheBuilder.PredictionsCached | backend/app/services/cache_builder.py:45-48 | every prediction statement of the build has its key in the table, and every row was written by one |
| CacheBuilder.HourlyCached | backend/app/services/cache_builder.py:55-58 | every hourly statement has its key in the table, and every row was written by one |
| CacheBuilder.SunCached | backend/app/services/cache_builder.py:63-66 | every sun statement has its key in the table, and every row was written by one |
| CacheBuilder.LocationRows | backend/app/services/cache_builder.py:41-67 | the statements of a location and day are exactly the extremes' rows, hours 0..23 and the calculator's sun row |
| CacheBuilder.PredictionWritesMembers | backend/app/services/cache_builder.py:44-48 | the rows of a list of extremes are exactly the rows of its members |
| CacheBuilder.SunTableKeys | backend/app/services/cache_builder.py:62-67 | the sun table has a row for every location and cached day |
| CacheBuilder.SunTableRows | backend/app/services/cache_builder.py:62-67 | every sun row is the calculator's sunrise and sunset for one location and cached day |
| CacheBuilder.HourlyTableKeys | backend/app/services/cache_builder.py:52-59 | the hourly table has a row for every location, cached day and hour 0..23 |
| CacheBuilder.HourlyTableRows | backend/app/services/cache_builder.py:52-59 | every hourly row is the rounded level of one location at one such hour |
| CacheBuilder.PredictionTable | backend/app/services/cache_builder.py:43-49 | before the overlay, every extreme of every location and cached day has a row, and every row is such an extreme's text, type and rounded height |
| TidesRouter.DateWindow | backend/app/routers/tides.py:30-36 | the window `[date, next_day)` selects a stored instant by its first ten characters alone |
| TidesRouter.CachedInstantWindow | backend/app/routers/tides.py:27-36 | a cached instant is selected exactly when its day's text is in the window |
| TidesRouter.GetTides | backend/app/routers/tides.py:20-50 | the request fails with `OverflowError` exactly when `date` is 9999-12-31, since `date + 1 day` does not exist; otherwise one output per stored prediction of the location in `[date, date+1)`, each once, ascending by UTC text, with the stored values unchanged and the local time added |
| TidesRouter.GetHourly | backend/app/routers/tides.py:93-122 | the request fails with `OverflowError` exactly when `date` is 9999-12-31; otherwise exactly the location's stored levels in `[date, date+1)`, in strictly ascending UTC order, values unchanged |
| TidesRouter.GroupedStep | backend/app/routers/tides.py:74-83 | one more tide opens a bucket for a new local date and goes at the end of its date's bucket |
| TidesRouter.OpenThenAppend | backend/app/routers/tides.py:76-77 | opening an empty bucket and then appending is appending to the bucket or to an empty one |
| TidesRouter.GroupByLocalDate | backend/app/routers/tides.py:72-83 | the loop builds exactly the grouped dictionary and its key order |
| TidesRouter.DayKeysMembers | backend/app/routers/tides.py:72-83 | the keys are exactly the tides' local dates, each once |
| TidesRouter.BucketMembers | backend/app/routers/tides.py:72-83 | a bucket holds exactly the tides of its local date |
| TidesRouter.BucketEmpty | backend/app/routers/tides.py:76-77 | a date no tide has has an empty bucket |
| TidesRouter.BucketSorted | backend/app/routers/tides.py:72-83 | a bucket keeps the ascending UTC order of the rows |
| TidesRouter.BucketDistinct | backend/app/routers/tides.py:72-83 | a bucket of distinct rows holds distinct rows |
| TidesRouter.BucketsPartition | backend/app/routers/tides.py:72-83 | the buckets together hold every tide exactly once |
| TidesRouter.DayKeysFirstOrder | backend/app/routers/tides.py:72-83 | every key has a non-empty bucket, and over ascending tides the keys come in the order of their buckets' earliest tides |
| TidesRouter.GetTidesRange | backend/app/routers/tides.py:53-90 | the request fails with `OverflowError` exactly when `end` is 9999-12-31; otherwise the window is `[start, end+1)`, so the end day is included, while the response echoes `end`; every selected tide is in its local date's bucket and only there; there is a key only for a local date some selected tide has; buckets are distinct and ascending; the keys, in dictionary order, come in the order of their earliest tides |
| LocationsRouter.LocationsAgree | backend/app/routers/locations.py:16-21 | the listed ids are newquay, holywell, polzeath and port_isaac in that order (the cached locations) and each is known to the sun calculator |
| LocationsRouter.ClockMinutesOfText | backend/app/routers/locations.py:43-46 | an `HH:MM` text reads as HH·60 + MM minutes |
| LocationsRouter.ClockMinutes | backend/app/routers/locations.py:43-46 | a text without a colon is refused (the `IndexError` of `parts[1]`) |
| LocationsRouter.DayLength | backend/app/routers/locations.py:47 | the day length is within half a hundredth of the exact difference in hours |
| LocationsRouter.DayLengthSign | backend/app/routers/locations.py:47 | the day length is within half a hundredth of the exact hours, is not clamped, is negative exactly when sunset precedes sunrise, and is zero exactly when they are equal |
| LocationsRouter.CachedReadable | backend/app/routers/locations.py:39-53 | a cached row is answered with the requested date, its texts unchanged and the day length between them |
| LocationsRouter.CachedBadClockText | backend/app/routers/locations.py:43-46 | a cached row whose texts are not both readable fails rather than falling back to the calculator |
| LocationsRouter.UncachedSunTimes | backend/app/routers/locations.py:56 | without a cached row a known location gets the calculator's answer and any other location fails |
| LocationsRouter.GetSunTimes | backend/app/routers/locations.py:26-56 | the unknown-location failure happens only without a cached row and for a location the calculator does not know; an unreadable clock text fails only for a cached row; a cached answer carries the requested date and the stored texts unchanged (the three lemmas above give the full characterisation) |

## Left out

- Network fetches, `time.sleep`, logging, printing and the SQLite connection and commit are I/O. The pages are a given function of the request. In `TideScraper`, request `n` for a slug is `fetch(n, slug)`; in `ScrapeAndFit` the page is indexed by its date.
- `re.search` and `json.loads` on the page are library work. Their result is the `Extracted` value: no block, invalid JSON, a structure that makes the loop raise, or the list of records.
- The harmonic sum, the harmonic fit (`harmonic_analysis`, numpy's mean) and the parabola vertex `-b / (2a)` are floating point. They are given functions. The guards of `_refine_extreme` are computed in exact reals.
- Python's float `round` is modelled as exact round-half-even on reals, not on binary floats.
- The zoneinfo conversions (`_utc_to_local`, the UK-to-UTC step of both scrapers) are given functions. So is `astral`'s sunrise and sunset (`backend/app/services/sun_calculator.py` is not part of this model beyond its location keys).
- `date.today()` and `datetime.utcnow()` are parameters. The defaulting of `date` to today in the endpoints is the caller's. `today_str` is folded into the fetch function.
- FastAPI routing, the health endpoint, the pydantic models, `main.py`, `fit_harmonics.py`, `verify_against_known` and the diagnostic scan and prints of `main` are left out. They do not change any table or returned value of the core.
- `verify_predictions` is modelled only by the one way it changes the outcome: with no readable sample, `np.max` of the empty error list raises and `main` ends without writing. Its error statistics are printing.
- ScrapeAndFit.WrittenFileServesAll: this is a statement about the content of the file. `main` writes `app/data/harmonics.json`, but the calculator loads `HARMONICS_PATH`, which is `app/harmonics.json` (`backend/app/config.py:8`). The model keeps no file system, so it connects the two only through their content. Copying the written file to where the calculator reads it is outside the program.
- TideCalculator.HourlyHeights, TideCalculator.ScanDay, TideCalculator.FindExtremes, CacheBuilder.CacheLocation, CacheBuilder.CacheDay, CacheBuilder.FillCache, CacheBuilder.BuildCache: `Day` is unbounded, so the limits of Python's `datetime` (0001-01-01 to 9999-12-31) are not modelled, and these members promise full results where the source raises `OverflowError`. The cases: `hourly_heights` of 9999-12-31 raises at hour 24 (`backend/app/services/tide_calculator.py:58`); `find_extremes` raises for 0001-01-01 at `start - 1 h` and for 9999-12-31 at `start + 26 h` (lines 77-78). `build_cache` therefore raises for any `today` of 9998-12-31 or later: at `end_date` (`backend/app/services/cache_builder.py:23`), or in the last day's `find_extremes`. It then commits nothing, and the overlay never runs.
- `LOCATIONS` and `PRECALC_DAYS` are constants of `CacheBuilder`. `FillCache` and `CacheDay` take the location list as a parameter.
- Calendar.Strptime: only the exact, zero-padded, ASCII form of each layout is read. Python's `strptime` is more lenient in five ways, and the model refuses each of these texts: single-digit fields; a space-padded day such as `2026-01- 5`; a lower-case `t` separator, because the format is matched case-insensitively; a run of whitespace where the format has one space; and non-ASCII decimal digits. The fallbacks of both scrapers therefore skip records that Python would read.
- Text.ParseInt: it refuses surrounding whitespace, digit underscores and non-ASCII decimal digits. Python's `int()` accepts all three.
- `ParseInt` does not accept the surrounding whitespace or the digit underscores that Python's `int()` allows.
- `LIKE` is modelled as a case-sensitive prefix test. The prefixes are digit-and-dash dates, where SQLite's case folding makes no difference.
- `strftime("%Y")` is modelled for years 1000 to 9999 only.
- Records whose members have unexpected JSON types are not modelled value by value. They are either filtered out or the whole page is `Malformed`.
- `offsets_from_newquay` is `Option<Offsets>` with all four members present. An empty `{}` dictionary (falsy in Python) and the `.get(..., 0)` defaults of `height_at` are not represented.
- TideCalculator.Knows: the `KeyError` of an unknown location, or of a subordinate without newquay loaded, is excluded by this precondition rather than modelled as an error.
- TideCalculator.Refine: the unused `height_at("newquay", refined_dt)` call is not modelled. Its value is discarded, and it could only raise when newquay is missing from the harmonics file.
- Python's sort is stable and SQLite's `ORDER BY` is not specified among ties. The model proves sortedness and permutation, not stability.
- `CacheBuilder` describes each location and day's statements by a ghost function `rows`. The `Describes` precondition ties `rows` to the calculator's extremes, hourly samples and sun times. The methods are proved for any `rows` it admits.
- The injectivity of `IsoDate` (distinct days give distinct texts) is not proved. The table lemmas are stated without it.
- LocationsRouter.GetSunTimes: the end-to-end statement for a row the cache wrote comes in two steps. `CachedReadable` gives the answer in terms of the clock readings, and `ClockMinutesOfText` gives those readings for the stored `HH:MM` texts.
