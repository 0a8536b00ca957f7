# PySatTracker core, modelled in Dafny

PySatTracker is a desktop satellite tracker. It downloads NORAD two-line-element (TLE) catalogs, turns each record into an orbital element row and an sgp4 propagator handle, and draws the tracked objects on a 2D world map and a 3D globe, driven by a simulation clock. The repository carries three generations of the program: the current Qt application (`src/`), the older `sat_tracker` package, and the first scripts (`__classes.py`, `__functions.py`, `Tkinter_GUI.py`).

This project models the logic of that program that does not need trigonometry:

- **TLE ingestion, current generation** (module `TleDatabase`):
  - the fixed-column record parser, with the two-digit-year pivot, the implied-decimal B* and eccentricity, and the error cases that skip a record;
  - `loadSource`, which groups stripped lines into triples and appends the good rows;
  - `finalize`;
  - the per-id propagator cache of `getSatrec`;
  - the download-due rule.
  The class `TleDatabase.TleDatabase` holds `rows`, `dataFrame` and the cache as fields that its methods update.
- **TLE ingestion, older generations**:
  - `SatTrackerDatabase` covers `sat_tracker/database.py`: toggle defaulting, source concatenation, the parsing loop over parallel lists, `search_index` and `file_name_url`.
  - `NoradClasses` covers `__classes.py`: its parser, the case-insensitive `search_index`, `is_leap` and `julian_date`.
- **Time arithmetic** (`TimeManaging`): Julian dates and their integer and fractional parts.
- **Simulation clock** (`Objects.SimulationClock`): play, pause, toggle, speed, time and tick.
- **The 2D map** (`Map2d`):
  - the antimeridian segmenter `_splitWrapSegment`;
  - the render predicate and the mode labels;
  - the longitude/latitude-to-pixel map;
  - the pruning of spots in `updateMap`.
- **Main window bookkeeping** (`MainWindow`): adding and removing active objects, selection normalisation, and resetting per-object configs or making them the default.
- **Settings defaults and the reverse dictionary lookup** (`Utilities`).
- **The 3D view camera** (`Earth3d.View3d`): drag and wheel clamps, and the key sets built by `updateData`.
- **Angle helpers and the coordinate-text parser** (`Functions`).
- **The `sat_tracker` tracker** (`Tracker.Tracker`): `add_object` and `load_estimator`.
- **The Tkinter front end**:
  - `TkinterConfig`: the configuration file parser and writer;
  - `TkinterLists`: the search filter, merge-and-sort selection and deletions;
  - `TkinterGui.PySatGui`: the window state those operations update.

Three helper modules are shared by all of these:

- `Wrappers`: `Option`, `Result` and Python's exceptions as values;
- `PyText`: the Python string builtins the parsers use, such as `strip`, `split`, slicing, `int()`, `float()` and `str()`;
- `PyDict`: dictionary iteration order and key lookup.

Numbers are exact: Python floats are `real`, `float()` of a decimal literal is the exact decimal value, and `np.pi` is the constant 3.141592653589793. The sgp4 `Satrec` object is a datatype built from the two raw lines, standing in for `Satrec.twoline2rv`. Files, downloads and clocks are parameters: a source file is its list of lines, "now" is an argument, and a tick is a method call.

The model follows the code, in particular:

- `finalize` tabulates every accumulated row, with no deduplication by catalog id or epoch (src/core/tleDatabase.py:88-89).
- `loadSource` appends to the rows of earlier loads rather than replacing them (src/core/tleDatabase.py:86).
- A running clock advances by the nominal `speed * 0.033` s per tick, not by the measured elapsed time (src/gui/objects.py:22).
- The two older parsers read the mean anomaly from columns 35-42 of line 2, which hold the argument of perigee (sat_tracker/database.py:82, __classes.py:100).

## Model

| member | source | states |
|---|---|---|
| `TleDatabase.FileNeedsUpdateMonotone` | src/core/tleDatabase.py:24-37 | a download is due exactly when the file is missing or older than two days; once due it stays due as time passes, and a file younger than two days is never due |
| `TleDatabase.EpochYear` | src/core/tleDatabase.py:54-55 | the two-digit year pivot: a year field yy in 0..99 gives a year in 1957..2056 ending in yy, and it is in the 2000s exactly when yy < 57 |
| `TleDatabase.EpochDayOfYearInRange` | src/core/tleDatabase.py:55-56 | every year the pivot produces accepts any day of that year, so the `datetime` construction cannot overflow for a well-formed epoch |
| `TleDatabase.ParseEpoch` | src/core/tleDatabase.py:54-57 | a parsed epoch passed the `datetime` range check and its year is the pivot of the integer in line 1 columns 19-20 |
| `TleDatabase.ParseElements` | src/core/tleDatabase.py:60-64 | a line 1 too short for the B* sign column raises IndexError; otherwise it succeeds exactly when all eight fields parse, and then B* is the float of the text assembled from line 1 columns 54, 55-59 and 60-61, inclination, ascending node, argument of pericenter, mean anomaly and mean motion are the floats of line 2 columns 9-16, 18-25, 35-42, 44-51 and 53-63, the eccentricity is the float of "0." followed by columns 27-33, and the revolution number is the integer of columns 64-68 |
| `TleDatabase.ParseTle` | src/core/tleDatabase.py:50-72 | succeeds exactly when the catalog number, the epoch and every element parse; the row keeps the name, both lines and the source verbatim, the catalog id is the integer of line 1 columns 3-7, the epoch is read from line 1, every element (B* and the six line-2 columns) is the float of its own columns as in `ParseElements`, and `tags` is [tag] for a non-empty tag, else [] |
| `TleDatabase.BStarValue` | src/core/tleDatabase.py:60 | for a blank or sign column 54, five digits in 55-59 and an exponent in 60-61, the parsed B* is sign * 0.ddddd * 10^exp, and its magnitude is below 10^exp |
| `TleDatabase.BStarRead` | src/core/tleDatabase.py:60 | the text assembled from a well-formed B* field reads, through `float`, as sign * 0.ddddd * 10^exp, bounded by 10^exp |
| `PyText.SignedExponentField` | src/core/tleDatabase.py:60 | `float` of a sign or blank, "0.", digits, "e" and an exponent is the signed implied-decimal value scaled by that power of ten |
| `TleDatabase.CatalogIdAndYear` | src/core/tleDatabase.py:51-55 | with digit fields, the catalog id is the decimal value of columns 3-7 and the year the pivot of columns 19-20 ("25544" gives 25544, "98" gives 1998, "24" gives 2024) |
| `TleDatabase.EccentricityFraction` | src/core/tleDatabase.py:61 | with a digit field the eccentricity is that field read after an implied decimal point, so it lies in [0, 1) |
| `TleDatabase.NonBlankStripped` | src/core/tleDatabase.py:79 | every kept line is non-blank, and every line whose stripped form is non-blank is kept in stripped form |
| `TleDatabase.KeptMembers` | src/core/tleDatabase.py:80-86 | a row is appended exactly when some pass of the loop produced it; a pass that raised does not stop later passes |
| `TleDatabase.KeptAppend` | src/core/tleDatabase.py:80-86 | rows are appended in the order of the passes, at most one per pass |
| `TleDatabase.OutcomesMembers` | src/core/tleDatabase.py:80-86 | a row is appended exactly when some complete triple of the file parses to it |
| `TleDatabase.TrailingGroupIgnored` | src/core/tleDatabase.py:80-85 | the trailing incomplete group raises and is skipped, so one load appends at most one row per three lines |
| `TleDatabase.LoadedRowsTagged` | src/core/tleDatabase.py:79-86 | every appended row is the parse of a complete triple of the file, carries the source's tag and URL, and keeps that triple's lines verbatim |
| `TleDatabase.FirstIndexWithId` | src/core/tleDatabase.py:93 | the position of the first row with the given catalog id (`.iloc[0]`), or the table length when none has it |
| `TleDatabase.SatrecFromTable` | src/core/tleDatabase.py:92-94 | no table is a TypeError, an empty table a KeyError, an absent id an IndexError; whenever a row has the id the handle is built from the raw lines of the first such row |
| `TleDatabase.ParseLines` | src/core/tleDatabase.py:80-86 | the loop over `range(0, len(lines), 3)` collects exactly the rows of the passes that did not raise, in order |
| `TleDatabase.TleDatabase.constructor` | src/core/tleDatabase.py:26-31 | a new store has no rows, no table and an empty handle cache |
| `TleDatabase.TleDatabase.LoadSource` | src/core/tleDatabase.py:74-86 | an unknown tag raises ValueError and changes nothing; otherwise the good rows of the file are appended after the existing rows, without deduplication |
| `TleDatabase.TleDatabase.Finalize` | src/core/tleDatabase.py:88-89 | the table is every accumulated row, duplicates included |
| `TleDatabase.TleDatabase.GetSatrec` | src/core/tleDatabase.py:91-95 | a cached handle is returned with no lookup; a miss builds the handle from the first row with the id and caches it; a failed lookup raises and leaves the cache unchanged |
| `SatTrackerDatabase.FileNameUrlSuffix` | sat_tracker/database.py:128-130 | the file name is the text after the last "/": it holds no "/", ends the URL, is preceded by a "/" when shorter than the URL, and a URL without "/" is returned unchanged |
| `SatTrackerDatabase.LegacyYearAgrees` | sat_tracker/database.py:73-76 | on a two-digit field, prefixing "19" when the value is at least 57 and "20" otherwise gives the same year as the current parser's pivot |
| `SatTrackerDatabase.ParseFields` | sat_tracker/database.py:72-83 | succeeds exactly when all eight fields parse; the number is the integer of columns 3-7 of the first element line, the year follows the 19/20 prefix rule, the day is the float of columns 21-32, inclination, ascending node, argument of perigee and mean motion are the floats of columns 9-16, 18-25, 35-42 and 53-63 of the second element line, and the eccentricity is "0." followed by its columns 27-33 |
| `SatTrackerDatabase.Converted` | sat_tracker/database.py:78-83 | the stored record keeps number, year, day and eccentricity, converts inclination, ascending node and argument of perigee with the given degrees-to-radians function, sets the mean anomaly to the converted argument of perigee (both read from columns 35-42, as `ParseRecord` states) and multiplies the mean motion by 7.272205216643e-5 |
| `SatTrackerDatabase.ParseRecord` | sat_tracker/database.py:72-83 | a record parses exactly when its fields do, and then every stored value is read from its own columns: number, year, day and eccentricity as in `ParseFields`, inclination, ascending node and argument of perigee as `np.radians` of columns 9-16, 18-25 and 35-42, the mean anomaly as `np.radians` of columns 35-42 too, and the mean motion as columns 53-63 times 7.272205216643e-5 |
| `SatTrackerDatabase.MeanMotionFactorPerDay` | sat_tracker/database.py:83 | the factor 7.272205216643e-5 turns revolutions per day into radians per second: 86400 times it is within 1e-13 below 2*pi |
| `SatTrackerDatabase.Triples` | sat_tracker/database.py:64-69 | the raw triples are the first floor(n/3) groups of three lines, so one or two trailing lines are ignored |
| `SatTrackerDatabase.LoadRecords` | sat_tracker/database.py:65-83 | after k passes either all k records parsed, or the loop stopped at a pass before k |
| `SatTrackerDatabase.LoadedRecordsParse` | sat_tracker/database.py:65-83 | after a complete load, record i is the parse of the element lines of triple i |
| `SatTrackerDatabase.FailedAtFirstBad` | sat_tracker/database.py:65-83 | a failed load stopped at the first record that raised, and every record before it parsed |
| `SatTrackerDatabase.LoadFailSticky` | sat_tracker/database.py:65-83 | once a record raised, the whole load has failed: later records change nothing |
| `SatTrackerDatabase.Tabulate` | sat_tracker/database.py:84-93 | the ten parallel columns all have one entry per record |
| `SatTrackerDatabase.LoadedColumnsBy` | sat_tracker/database.py:69-93 | after a complete load by a parser that copies the argument of perigee into the mean anomaly, those two columns are equal, and name i is the first line of triple i |
| `SatTrackerDatabase.LoadedColumns` | sat_tracker/database.py:81-82 | after a complete load the mean-anomaly column repeats the argument-of-perigee column |
| `SatTrackerDatabase.SelectedAllOn` | sat_tracker/database.py:41-52 | with every source toggled on and present, the load reads all files in list order |
| `SatTrackerDatabase.SelectedAllOff` | sat_tracker/database.py:41-52 | sources toggled off are never opened, even when their file is missing |
| `SatTrackerDatabase.SelectedLinesErrSticky` | sat_tracker/database.py:41-52 | once opening a toggled source raised, the loop has raised and later sources are not read |
| `SatTrackerDatabase.ReadToggled` | sat_tracker/database.py:41-52 | one source loop concatenates the lines of the toggled sources in list order, raising IndexError on a missing toggle and FileNotFoundError on a missing file |
| `SatTrackerDatabase.Defaults` | sat_tracker/database.py:15-23 | given toggles are kept; absent default toggles become all True, one per default URL; absent supplementary URLs become []; absent supplementary toggles become all True, one per supplementary URL (so [] when there are none) |
| `SatTrackerDatabase.DefaultsSelectAll` | sat_tracker/database.py:15-52 | left to their defaults, the toggles select every default source, then every supplementary source, in list order |
| `SatTrackerDatabase.FirstMatch` | sat_tracker/database.py:120-125 | the first object whose name or number equals the query, or the object count when none does |
| `SatTrackerDatabase.FirstMatchIs` | sat_tracker/database.py:120-125 | the first position that answers the query is the one the scan returns |
| `SatTrackerDatabase.TextQueryNeedsNewline` | sat_tracker/database.py:121-123 | names keep the newline `readlines` leaves, so a query without a newline finds no name when every name has one |
| `SatTrackerDatabase.TleDatabase.constructor` | sat_tracker/database.py:8-28 | the URL lists and toggles are those of `Defaults`, with no data loaded yet |
| `SatTrackerDatabase.TleDatabase.LoadData` | sat_tracker/database.py:37-93 | the settings are unchanged; a source error leaves no data; otherwise the state is what `Stored` describes for the concatenated lines |
| `SatTrackerDatabase.TleDatabase.StoreRecords` | sat_tracker/database.py:53-93 | n_satellites is floor(n/3); a complete load stores every raw triple and the ten columns; a record that raises leaves the triples up to and including it and no columns |
| `SatTrackerDatabase.TleDatabase.SearchIndex` | sat_tracker/database.py:116-125 | returns the first index whose name or number equals the query, else False; with columns missing after a failed load and a non-zero count it raises IndexError |
| `NoradClasses.Turns` | __classes.py:96-100 | deg times 2 pi over 360 is the same conversion as `np.radians` |
| `NoradClasses.ParseNoradRecord` | __classes.py:90-101 | a record parses exactly when its fields do, and then every stored value is read from its own columns exactly as `SatTrackerDatabase.ParseRecord` states (angles times 2*pi/360, the mean anomaly from columns 35-42, the mean motion times 7.272205216643e-5) |
| `NoradClasses.NoradParsersAgree` | __classes.py:90-101 | over exact reals this parser reads every record exactly as sat_tracker/database.py does |
| `NoradClasses.ConvertedTurns` | __classes.py:96-100 | converting with `x*2*pi/360` gives the same record as converting with `np.radians` |
| `NoradClasses.ParseAll` | __classes.py:84-101 | the record loop parses the first floor(n/3) triples in order and stops at the first that raises |
| `NoradClasses.NoradLoadedColumns` | __classes.py:83-111 | after a complete load all ten columns have n_satellites entries, the mean-anomaly column repeats the argument column, and names are the raw first lines |
| `NoradClasses.FirstNoradMatch` | __classes.py:117-125 | the first object whose lowercased name minus its last character, or whose str(number), equals the lowercased query; the count when none does |
| `NoradClasses.FirstNoradMatchIs` | __classes.py:117-125 | the first position that answers the query is the one the scan returns |
| `NoradClasses.SearchIgnoresCase` | __classes.py:118-120 | the search ignores case: a query finds what its lowercase form finds |
| `NoradClasses.NameFoundWithoutNewline` | __classes.py:120-123 | a name stored with its trailing newline is found by the name without it |
| `NoradClasses.NumberFound` | __classes.py:122-123 | an object is found by the decimal spelling of its number, at that object or an earlier one |
| `NoradClasses.NoradTleDatabase.constructor` | __classes.py:50-62 | a new catalog has no tables and no objects |
| `NoradClasses.NoradTleDatabase.LoadData` | __classes.py:64-111 | a missing file fails the assertion and changes nothing; otherwise n_satellites is floor(n/3) and a complete parse appends one ten-column table; a record that raises appends nothing |
| `NoradClasses.NoradTleDatabase.SearchIndex` | __classes.py:113-125 | returns the first case-insensitive match in the first table, else False; with no table loaded it raises IndexError |
| `NoradClasses.IsLeapYearLength` | __classes.py:392-399 | `is_leap` agrees with the Gregorian calendar: a year has 366 days exactly when it is leap |
| `NoradClasses.IsLeapExamples` | __classes.py:392-399 | 2000 and 2024 are leap years, 1900 and 2023 are not |
| `NoradClasses.JulianDateAgrees` | __classes.py:439-444 | the J2000 anchor is 946728000 s after the UNIX epoch, the Julian date there is 2451545, and this Julian date equals the one of sat_tracker/time_managing.py everywhere |
| `TimeManaging.JulianDateJ2000` | sat_tracker/time_managing.py:12-14 | the J2000 day number is the Julian date minus 2451545 |
| `TimeManaging.Fix` | sat_tracker/time_managing.py:19 | `np.fix` rounds toward zero: below a non-negative input by less than one, above a negative input by less than one |
| `TimeManaging.JulianDateLinear` | sat_tracker/time_managing.py:8-9 | the Julian date advances by one per 86400 s, and is 2440587.5 at the UNIX epoch |
| `TimeManaging.J2000Origin` | sat_tracker/time_managing.py:8-14 | J2000.0 (UNIX time 946728000) is Julian date 2451545 and J2000 day 0 |
| `TimeManaging.JulianFractionsSum` | sat_tracker/time_managing.py:52-55 | the two parts of `julian_fractions` add back to the Julian date exactly, and the first is a half-integer |
| `TimeManaging.DayFractionRange` | sat_tracker/time_managing.py:17-20 | from Julian date 0.5 on the fraction lies in [0, 1); before it, in (-1, 0] |
| `TimeManaging.DayFractionExamples` | sat_tracker/time_managing.py:17-20 | the fraction is 0 at UNIX time 0 and 0.5 at 43200 s |
| `TimeManaging.DayFractionPeriodic` | sat_tracker/time_managing.py:17-20 | from Julian date 0.5 on, the fraction is the same a day later |
| `Objects.TicksKeepSpeedAndState` | src/gui/objects.py:19-24 | ticks never change the speed or the running flag |
| `Objects.PausedTicks` | src/gui/objects.py:19-21 | while paused, any number of ticks change nothing and emit nothing |
| `Objects.RunningTicks` | src/gui/objects.py:22-24 | while running, n ticks advance the time by exactly n times speed times 0.033 s, and the next tick emits the time it reaches |
| `Objects.TicksCompose` | src/gui/objects.py:19-24 | m ticks then n ticks are m + n ticks |
| `Objects.TicksMonotone` | src/gui/objects.py:19-24 | with a non-negative speed the virtual time never goes backwards |
| `Objects.ToggleTwice` | src/gui/objects.py:34-35 | toggle flips the running flag, toggling twice restores the state, and time and speed are untouched |
| `Objects.SimulationClock.constructor` | src/gui/objects.py:10-14 | the clock starts at the given time or at now, with speed 1, paused, having emitted nothing |
| `Objects.SimulationClock.Tick` | src/gui/objects.py:19-24 | a paused tick changes and emits nothing; a running tick adds speed times 0.033 s and emits the new time |
| `Objects.SimulationClock.Play` | src/gui/objects.py:26-28 | sets running, changes nothing else, emits stateChanged(True) |
| `Objects.SimulationClock.Pause` | src/gui/objects.py:30-32 | clears running, changes nothing else, emits stateChanged(False) |
| `Objects.SimulationClock.Toggle` | src/gui/objects.py:34-35 | flips running and emits the new state |
| `Objects.SimulationClock.SetSpeed` | src/gui/objects.py:37-39 | changes only the speed and emits it |
| `Objects.SimulationClock.SetTime` | src/gui/objects.py:41-43 | replaces the time in either state, leaving speed and running unchanged, and emits it |
| `Functions.AngleSexagesimal` | __functions.py:33-35 | an angle counts sixty minutes to the degree and sixty seconds to the minute; with minutes and seconds below a degree it stays below the next whole degree |
| `Functions.RadiansRoundTrip` | __functions.py:37-43 | `radians2degrees` and `degrees2radians` are inverse to each other, and 180 degrees is pi radians |
| `Functions.FloatFields` | __functions.py:65-66 | the loop converts every field in order, failing with ValueError exactly when some field is not a float |
| `Functions.StrToFloatList` | __functions.py:62-67 | the text is split on single spaces and succeeds exactly when every field is a float, giving their values in order |
| `Functions.AngleOfToken` | __functions.py:77-85 | the step-by-step token handling computes the token's signed angle, with the same errors |
| `Functions.GeoCoordinates` | __functions.py:69-95 | the step-by-step parser computes exactly the three values and the errors of the coordinate grammar |
| `Functions.GeoNeedsThreeTokens` | __functions.py:73 | anything but exactly three whitespace tokens is refused |
| `Functions.UnmarkDms` | __functions.py:77-79 | in a well-formed token the degree, minute and second marks become spaces and nothing else changes |
| `Functions.DmsFields` | __functions.py:77-84 | with marks replaced and the last two characters dropped, a well-formed token splits on single spaces into its degree, minute and second fields |
| `Functions.TokenAngleDms` | __functions.py:77-85 | a well-formed token reads as its angle in radians, negated exactly when its last character is the negative hemisphere letter |
| `Functions.GeoOfDocumentedFormat` | __functions.py:69-95 | on the documented format the first value is the first (N/S) token's angle in radians, negative for 'S', the second is the second token's, negative for 'W', and the elevation is the third token without its unit letter |
| `Map2d.SplitIndices` | src/gui/map2d.py:61-65 | the split indices are, in increasing order, exactly the indices i whose step from point i-1 exceeds the threshold |
| `Map2d.Pieces` | src/gui/map2d.py:66-67 | `np.split` gives one more piece than there are cuts, piece k being the slice between cut k-1 and cut k |
| `Map2d.CrossingOf` | src/gui/map2d.py:70-82 | when the longitude decreases across the jump the border points are 180 then -180, otherwise -180 then 180 (border latitude as corrected under Findings) |
| `Map2d.BorderPoints` | src/gui/map2d.py:70-82 | one pass of the crossing loop computes the crossing's two border longitudes and its border latitude (corrected as under Findings) |
| `Map2d.PartialStep` | src/gui/map2d.py:84-87 | pass k appends the border point to segment k and prepends the other border point, at the same latitude, to segment k+1 |
| `Map2d.PartialDone` | src/gui/map2d.py:68-88 | after the last pass every segment is finished |
| `Map2d.SplitWrapSegment` | src/gui/map2d.py:57-88 | the step-by-step splitter returns exactly the segments `Segments` describes (border latitude as corrected under Findings) |
| `Map2d.SegmentsWhole` | src/gui/map2d.py:59-64 | fewer than two points, or no step above the threshold, gives one segment equal to the input |
| `Map2d.SegmentsAt` | src/gui/map2d.py:65-88 | with j jumps the output has j+1 segments and segment k is built from piece k |
| `Map2d.SegmentShape` | src/gui/map2d.py:84-87 | segment k is its piece between the border points it carries: one leading point unless k is first, one trailing point unless k is last, longitudes and latitudes of equal length |
| `Map2d.SegmentsSplitAtJumps` | src/gui/map2d.py:61-67 | with j jumps there are j+1 segments; at jump k, segment k ends (before its border point) at the point before the jump and segment k+1 starts (after its border point) at the point after it |
| `Map2d.SegmentsBorders` | src/gui/map2d.py:72-87 | at each crossing segment k ends at longitude 180 and segment k+1 starts at -180 when the longitude decreased, the other way round otherwise, and both border points share one latitude |
| `Map2d.PiecesConcat` | src/gui/map2d.py:66-67 | `np.split` loses and repeats nothing: the pieces join back into the input |
| `Map2d.SegmentsRebuild` | src/gui/map2d.py:66-87 | dropping the inserted border points and joining the segments gives back the input longitudes and latitudes exactly |
| `Map2d.SegmentsAtLeastTwo` | src/gui/map2d.py:84-87 | when the track is split at all, every segment has at least two points |
| `Map2d.PiecesJumpFree` | src/gui/map2d.py:61-67 | inside a segment, apart from its border points, the track has no step above the threshold |
| `Map2d.CrossingAsWritten` | src/gui/map2d.py:72-82 | the crossing as written agrees with the corrected one when the longitude decreases across the jump |
| `Map2d.CrossingAsWrittenOffTrack` | src/gui/map2d.py:76-82 | a westward crossing from (-175, 0) to (165, 20) gets border latitude 71/7 as written, where the track meets the border at latitude 5 |
| `Map2d.CrossingOnTrack` | src/gui/map2d.py:70-82 | the corrected border latitude lies on the straight line between the two points once the second is unwrapped by a full turn |
| `Map2d.CrossingBetween` | src/gui/map2d.py:70-82 | for longitudes in [-180, 180] the corrected border latitude lies between the two latitudes |
| `Map2d.ShouldRender` | src/gui/map2d.py:90-98 | an item is drawn exactly when its layer is toggled and its mode is "ALWAYS", or "WHEN_SELECTED" with the object selected |
| `Map2d.ShouldRenderMonotone` | src/gui/map2d.py:90-98 | selecting an object or toggling its layer on never hides an item; "NEVER" and every unknown mode hide it in every state |
| `Map2d.LonLatToCartesianCorners` | src/gui/map2d.py:48-50 | (-180, -90) maps to (0, 0), (180, 90) to (mapWidth, mapHeight), and (0, 0) to the map centre |
| `Map2d.LonLatRoundTrip` | src/gui/map2d.py:48-50 | on a map of non-zero size the projection is undone by its inverse |
| `Map2d.LonLatToCartesianMonotone` | src/gui/map2d.py:48-50 | on a map of positive size, further east is further right and further north is further up |
| `Map2d.ModeToLabel` | src/gui/map2d.py:379-384 | the label loop returns the first label whose mode is the argument, else "Never" |
| `Map2d.ModesUnique` | src/gui/map2d.py:290 | the three labels and the three modes of MODES are each distinct |
| `Map2d.ModeLabelRoundTrip` | src/gui/map2d.py:380-384 | MODES[_modeToLabel(m)] == m for the three modes, an unknown mode shows "Never", and every label maps back to itself |
| `Map2d.Map2dWidget.constructor` | src/gui/map2d.py:16-22 | a new map has no items and no selection |
| `Map2d.Map2dWidget.Pop` | src/gui/map2d.py:148-152 | the object loses its spot, ground track, footprint, arrow and label, and nothing else changes |
| `Map2d.Map2dWidget.PruneInvisible` | src/gui/map2d.py:146-152 | every object with a spot that is not visible loses all five item kinds, the others are untouched, and afterwards every spot key is visible |
| `Map2d.DisplayObject` | src/gui/map2d.py:161-231 | one object's display: its ground track and arrow exist iff the track layer is on and the object's mode renders it, its footprint likewise, a spot and a label are added when missing, and existing items are kept |
| `Map2d.DisplayAll` | src/gui/map2d.py:155-159 | after the loop over the shown objects, every shown object has a spot and a label, and the track, arrow and footprint keys are the old ones outside the shown set plus exactly the shown objects whose mode renders them |
| `Map2d.Map2dWidget.AddVisible` | src/gui/map2d.py:155-231 | every shown object gets a spot and a label when it has none; existing spots and labels are kept; track, arrow and footprint items exist for exactly the shown objects whose mode and layer switch render them |
| `Map2d.Map2dWidget.UpdateMap` | src/gui/map2d.py:143-159 | after the update the spots are exactly the visible old ones plus the visible positioned ones, labels likewise with kept labels unchanged; ground tracks, arrows and footprints of objects that left view are removed and the shown objects have them iff their mode and the layer switch render them; the selection is the given one |
| `MainWindow.DefaultSettingsDoNotOpen` | src/gui/mainWindow.py:38 | the first-start settings file lacks 'VISUALIZATION' (and 'SHOW_AXES'), so opening on it raises KeyError |
| `MainWindow.CorrectedDefaultsOpen` | src/gui/mainWindow.py:38 | the corrected defaults open on the ISS alone, configured in both views, on the 3D tab |
| `MainWindow.EnsureConfigs` | src/gui/mainWindow.py:277-280 | an entry is added exactly for the missing keys, with the default value, and every existing entry is kept |
| `MainWindow.AppendNewMembers` | src/gui/mainWindow.py:273-276 | after adding, an id is active iff it was active or was in the added list |
| `MainWindow.AppendNewPrefix` | src/gui/mainWindow.py:273-276 | adding keeps the old active list as an unchanged prefix |
| `MainWindow.AppendNewDistinct` | src/gui/mainWindow.py:273-276 | adding never makes an id active twice |
| `MainWindow.AppendNewActive` | src/gui/mainWindow.py:273-276 | adding ids that are all active already changes nothing |
| `MainWindow.AddedConfigured` | src/gui/mainWindow.py:272-287 | after adding, every active id has 2D and 3D configurations and every earlier configuration is unchanged |
| `MainWindow.AppendNewStep` | src/gui/mainWindow.py:273-276 | one loop step of the add: the next id is appended iff not yet active |
| `MainWindow.NewKeysStep` | src/gui/mainWindow.py:277-280 | one loop step of the add: the next id's key is ensured iff the id was not yet active |
| `MainWindow.EnsureConfigsStep` | src/gui/mainWindow.py:277-280 | ensuring one more key leaves a present entry alone and gives a missing one the default |
| `MainWindow.FirstIndex` | src/gui/mainWindow.py:291-292 | the position `list.remove` acts on is the first occurrence of the id |
| `MainWindow.RemoveFirstMultiset` | src/gui/mainWindow.py:291-292 | removing takes away one occurrence if there is one and changes nothing otherwise |
| `MainWindow.RemoveFirstAt` | src/gui/mainWindow.py:291-292 | removing cuts out exactly the first occurrence and keeps the order of the rest |
| `MainWindow.RemoveAllMultiset` | src/gui/mainWindow.py:289-303 | removing a list of ids takes away one occurrence per listed id |
| `MainWindow.DistinctCount` | src/gui/mainWindow.py:289-303 | in a duplicate-free active list each id occurs once or not at all |
| `MainWindow.RemoveFirstDistinct` | src/gui/mainWindow.py:291-292 | removing one id keeps the active list duplicate-free |
| `MainWindow.RemoveAllDistinct` | src/gui/mainWindow.py:289-303 | removing a list of ids keeps the active list duplicate-free |
| `MainWindow.RemoveAllMembers` | src/gui/mainWindow.py:289-303 | from a duplicate-free list, removal leaves exactly the active ids that were not listed |
| `MainWindow.RemoveAllConfigured` | src/gui/mainWindow.py:289-303 | removal deletes no configuration, so the remaining active ids stay configured |
| `MainWindow.RemoveFirstAppend` | src/gui/mainWindow.py:291-292 | removing an id absent from the front part only changes the back part |
| `MainWindow.RemoveAllAppend` | src/gui/mainWindow.py:289-303 | removing ids absent from the front part only changes the back part |
| `MainWindow.AddThenRemove` | src/gui/mainWindow.py:272-303 | removing the ids just added to a list that had none of them gives the list back |
| `MainWindow.SelectionOfId` | src/gui/mainWindow.py:305-318 | an int, its decimal text, or a list starting with either selects that id |
| `MainWindow.SelectionCleared` | src/gui/mainWindow.py:305-318 | None, the empty list, and a list starting with a list or None clear the selection |
| `MainWindow.SelectionOfName` | src/gui/mainWindow.py:305-318 | text that does not start with a digit or sign, such as a satellite name, clears the selection |
| `MainWindow.SelectionOfNumber` | src/gui/mainWindow.py:305-318 | a float selects its value truncated toward zero, a boolean selects 0 or 1 |
| `MainWindow.ResetOnlySelected` | src/gui/mainWindow.py:344-350 | reset gives the selected entry a copy of the default and touches no other entry nor the default |
| `MainWindow.ResetThenAsDefault` | src/gui/mainWindow.py:344-356 | resetting twice is resetting once; setting as default right after a reset changes nothing |
| `MainWindow.AsDefaultThenReset` | src/gui/mainWindow.py:344-356 | setting an entry as the default and then resetting it leaves all entries as they were |
| `MainWindow.AsDefaultConfigured` | src/gui/mainWindow.py:352-356 | a configured selected id can always be made the default (no KeyError) |
| `MainWindow.MainWindow.Init` | src/gui/mainWindow.py:38 | the window starts with the given settings and active list and no selection |
| `MainWindow.MainWindow.Open` | src/gui/mainWindow.py:22-38 | opening succeeds iff the settings have what the window reads; then the active list is read from them and nothing is selected |
| `MainWindow.MainWindow.AddObjects` | src/gui/mainWindow.py:272-287 | the active list becomes the append-new list, both 'OBJECTS' maps gain default entries for new ids, and the settings mirror the list |
| `MainWindow.MainWindow.RemoveSelectedObjects` | src/gui/mainWindow.py:289-303 | each listed id loses its first occurrence, the selection is cleared iff it was listed, and the settings mirror the list |
| `MainWindow.MainWindow.OnObjectSelected` | src/gui/mainWindow.py:305-318 | the selection becomes the id the signal value converts to, or none |
| `MainWindow.MainWindow.ResetObject2dMapConfig` | src/gui/mainWindow.py:344-350 | with a selection, its 2D entry becomes the default configuration; nothing else changes |
| `MainWindow.MainWindow.SetObject2dMapConfigAsDefault` | src/gui/mainWindow.py:352-356 | with a selection, the default becomes its 2D entry, KeyError if it has none; nothing else changes |
| `Utilities.DefaultConfigsRender` | src/gui/utilities.py:4-10 | a new object's ground track and orbit render exactly when selected and toggled on, its footprint never; spot size 10 in both views, widths 1, 1 and 2 |
| `Utilities.DefaultModesListed` | src/gui/utilities.py:4-10 | every mode the default configurations use has a label in the docks' mode table |
| `Utilities.DefaultSettingsTrackIss` | src/gui/utilities.py:12-18 | the written defaults track NORAD 25544 alone at the top level, have no 'VISUALIZATION' section and no 'SHOW_AXES', and its entries equal the default configurations |
| `Utilities.CorrectedDefaultsKeepRest` | src/gui/utilities.py:12-18 | the corrected defaults differ from the written ones only in where the tracked list and tab sit and in the axes toggle |
| `Utilities.GetKeyFromValue` | src/gui/utilities.py:31-35 | returns the first key whose value equals the target, and KeyError iff no value does |
| `Tracker.Search` | sat_tracker/tracker.py:28 | the answer the tracker receives: a hit is the first matching catalog row, an error iff a non-empty catalog was never tabulated |
| `Tracker.AddKeepsConsistent` | sat_tracker/tracker.py:27-35 | adding (as written or corrected) keeps the count, the names and the indexes in step with the catalog |
| `Tracker.AddTwiceTracksTwice` | sat_tracker/tracker.py:27-35 | nothing prevents duplicates: adding the same object twice tracks it twice |
| `Tracker.AddAllTracksTruthy` | sat_tracker/tracker.py:27-35 | after any run of additions exactly the truthy answers are tracked, in order, and index 0 never is |
| `Tracker.AddAllFixedTracksHits` | sat_tracker/tracker.py:27-35 | with the corrected test every hit is tracked, in order, including the first catalog entry |
| `Tracker.Handles` | sat_tracker/tracker.py:37-43 | the estimator holds one handle per tracked index |
| `Tracker.HandlesMatchObjects` | sat_tracker/tracker.py:37-43 | handle k and tracked name k come from the same catalog triple |
| `Tracker.Tracker.constructor` | sat_tracker/tracker.py:17-23 | a new tracker tracks nothing and has no estimator |
| `Tracker.Tracker.AddObject` | sat_tracker/tracker.py:27-35 | a failed search is returned unchanged; a truthy index appends its name and index, rebuilds the estimator and counts it; 0 or a miss changes nothing |
| `Tracker.Tracker.AddObjectFixed` | sat_tracker/tracker.py:27-35 | the same with `is not False`: every hit, index 0 included, is tracked |
| `Tracker.Tracker.LoadEstimator` | sat_tracker/tracker.py:37-43 | the estimator becomes the handles built from each tracked index's two element lines, in order |
| `Earth3d.Clamp` | src/gui/earth3D.py:341 | `max(lo, min(hi, x))` lies in [lo, hi], is x inside it, and the nearer bound outside it |
| `Earth3d.Pressed` | src/gui/earth3D.py:299-302 | a left press records the cursor position and leaves distance, tilt and turn alone |
| `Earth3d.Dragged` | src/gui/earth3D.py:336-342 | a drag turns by half the horizontal pixel motion, tilts by half the vertical motion unless clamped to +-89 degrees, and records the new cursor position |
| `Earth3d.ZoomFactor` | src/gui/earth3D.py:350-352 | a forward wheel step zooms in, any other step (zero included) zooms out |
| `Earth3d.Wheeled` | src/gui/earth3D.py:350-353 | the zoom after a wheel step lies in [1.15, 384400/6371*1.15] and nothing else moves |
| `Earth3d.InitialInBounds` | src/gui/earth3D.py:16-27 | the initial camera (zoom 5, tilt 45, turn 225) lies within the bounds, and the zoom range is non-empty |
| `Earth3d.HandlersKeepBounds` | src/gui/earth3D.py:299-353 | press, drag and wheel each keep the camera within the zoom and tilt bounds |
| `Earth3d.WheelDirection` | src/gui/earth3D.py:350-353 | within bounds a forward step never zooms out, a backward one never in, and the range ends stay put |
| `Earth3d.DragInPlace` | src/gui/earth3D.py:336-342 | a move to where the cursor already is changes nothing |
| `Earth3d.DragsCompose` | src/gui/earth3D.py:336-342 | two drags equal one drag to the end point when the intermediate tilt was not clamped |
| `Earth3d.Keyed` | src/gui/earth3D.py:262-264 | the rebuilt dictionary has exactly the keys `str(id)` of the visible ids, each mapped to that id's value |
| `Earth3d.KeyedLookup` | src/gui/earth3D.py:262-264 | reading a key back with `int()` gives the visible id it came from, and its entry is that id's value |
| `Earth3d.View3d.constructor` | src/gui/earth3D.py:19-27 | the initial camera, no selection and empty object data |
| `Earth3d.View3d.MousePress` | src/gui/earth3D.py:299-334 | a left press records the drag start, raises KeyError iff a visible id has no spot, and otherwise selects and emits the picked object (always one of the visible objects), keeping the old selection when nothing is picked; other buttons change nothing; the view's object data never changes |
| `Earth3d.View3d.MouseMove` | src/gui/earth3D.py:336-348 | with the left button held the camera is dragged; otherwise it does not move |
| `Earth3d.View3d.Wheel` | src/gui/earth3D.py:350-354 | the camera becomes the wheeled camera and stays within bounds |
| `Earth3d.View3d.UpdateData` | src/gui/earth3D.py:258-264 | selection and visible ids are recorded; KeyError iff a visible id has no data, before any dictionary changes; otherwise all three dictionaries hold exactly the visible ids' data |
| `TkinterConfig.LineEnd` | Tkinter_GUI.py:184 | the first line `readlines` yields ends at the first newline, included, or at the end of the text |
| `TkinterConfig.ReadLinesCons` | Tkinter_GUI.py:184 | a complete first line is yielded first, the rest read on from after it |
| `TkinterConfig.ReadThree` | Tkinter_GUI.py:184 | three complete lines read back as exactly those three lines |
| `TkinterConfig.ReadLinesShape` | Tkinter_GUI.py:184 | every line `readlines` yields, except perhaps the last, ends at its only newline |
| `TkinterConfig.FirstBad` | Tkinter_GUI.py:189-190 | the toggle loop stops at the first item whose last character is missing or not a digit |
| `TkinterConfig.LoadedCategories` | Tkinter_GUI.py:186-192 | whatever follows, the categories loaded are those of the toggle items before the first bad one, `_` read as space |
| `TkinterConfig.LinksKeepCategories` | Tkinter_GUI.py:193-197 | reading the links and supplementary lines leaves the categories as loaded |
| `TkinterConfig.SuppKeepsCategories` | Tkinter_GUI.py:198-204 | reading the supplementary line leaves the categories as loaded |
| `TkinterConfig.LoadedPath` | Tkinter_GUI.py:182-204 | a load that raises nothing met three lines, no bad toggle and at least one link per category |
| `TkinterConfig.LoadedFirst` | Tkinter_GUI.py:186-192 | a load that raises nothing has one toggle per category, each category read from the first line |
| `TkinterConfig.LoadedSecond` | Tkinter_GUI.py:193-197 | a load that raises nothing takes one source per category, in order, from the second line |
| `TkinterConfig.LoadedThird` | Tkinter_GUI.py:198-204 | a load that raises nothing has no supplementary entry when the third line is its tag alone, else the `=`-split parts of its `;`-separated body |
| `TkinterConfig.FirstUnpaired` | Tkinter_GUI.py:222-229 | the save loop stops at the first supplementary entry without a link |
| `TkinterConfig.Shifted` | Tkinter_GUI.py:222-229 | the as-written loop walks as many entries as there are |
| `TkinterConfig.SavedItemLoads` | Tkinter_GUI.py:188-192 | an item written for a storable category reads back as that category and toggle |
| `TkinterConfig.SavedItemsLoad` | Tkinter_GUI.py:188-192 | every item of the corrected toggle line reads back as its category and toggle |
| `TkinterConfig.ToggleLineLoads` | Tkinter_GUI.py:188-192 | the corrected toggle line reads back as exactly the toggles and categories |
| `TkinterConfig.PairTextLoads` | Tkinter_GUI.py:204 | `name=link` splits back into the entry |
| `TkinterConfig.PairTextsLoad` | Tkinter_GUI.py:204 | each written entry splits back into its entry |
| `TkinterConfig.SuppLineLoads` | Tkinter_GUI.py:198-204 | the corrected supplementary line reads back as exactly the entries, none when it is empty |
| `TkinterConfig.FramedLine` | Tkinter_GUI.py:211-230 | a written tag line ends at its only newline |
| `TkinterConfig.AllPaired` | Tkinter_GUI.py:222-229 | storable entries all have a link, so the save loop never raises |
| `TkinterConfig.SavedFixedText` | Tkinter_GUI.py:206-232 | the corrected save of storable fields writes the three lines and raises nothing |
| `TkinterConfig.LoadConfigOk` | Tkinter_GUI.py:182-204 | a load meeting complete toggle, link and supplementary lines sets all four fields from them and raises nothing |
| `TkinterConfig.SavedFixedLoads` | Tkinter_GUI.py:182-232 | after the corrected save, loading gives back exactly the saved fields, whatever was loaded before |
| `TkinterConfig.CategoryStorable` | Tkinter_GUI.py:191-192 | a loaded category can be saved |
| `TkinterConfig.EntryStorable` | Tkinter_GUI.py:204 | a loaded entry with a name and a link can be saved |
| `TkinterConfig.LoadedToggles` | Tkinter_GUI.py:186-192 | every category read from a toggle line can be saved |
| `TkinterConfig.LoadedSupp` | Tkinter_GUI.py:198-204 | entries read from a supplementary line, each with a name and a link, can be saved |
| `TkinterConfig.LoadedStorable` | Tkinter_GUI.py:182-204 | fields from a load that raised nothing, whose entries each hold one `=`, can be saved and read back |
| `TkinterConfig.ConfigRoundTrip` | Tkinter_GUI.py:182-232 | load, corrected save, load gives the fields of the first load again |
| `TkinterConfig.ShiftedKeeps` | Tkinter_GUI.py:222-229 | the walked entries equal the stored ones only when every entry equals the first |
| `TkinterConfig.AsWrittenIsFixedShifted` | Tkinter_GUI.py:206-232 | without a space in the first category, the as-written save is the corrected save of the shifted entries |
| `TkinterConfig.AsWrittenShiftsSupp` | Tkinter_GUI.py:222-229 | reloading the as-written save brings entry 0 back twice and drops the last entry, so entries that differ do not survive |
| `TkinterConfig.AsWrittenFirstCategoryBreaks` | Tkinter_GUI.py:212-213 | a first category with a space is written with the space, so reloading does not give the categories back |
| `TkinterConfig.AsWrittenFirstLine` | Tkinter_GUI.py:212-213 | the as-written toggle line reads back as the single word before the first category's space |
| `TkinterConfig.HeadWordItems` | Tkinter_GUI.py:188 | a toggle line whose body has a space yields only the word before it |
| `TkinterConfig.ShiftedStorable` | Tkinter_GUI.py:222-229 | the walked entries of storable entries are storable |
| `TkinterConfig.SavedAsWrittenText` | Tkinter_GUI.py:206-232 | the as-written save of storable fields writes the first category unconverted and the shifted entries, and raises nothing |
| `TkinterLists.Mask` | Tkinter_GUI.py:278 | a row is kept iff the lowercased term is in the lowercased name or the term is in the number's digits |
| `TkinterLists.Hits` | Tkinter_GUI.py:275-280 | the kept positions are catalog positions |
| `TkinterLists.KeptIsPick` | Tkinter_GUI.py:275-280 | keeping row by row picks the rows at the kept positions |
| `TkinterLists.HitsIncreasing` | Tkinter_GUI.py:275-280 | the kept positions are in catalog order, each once |
| `TkinterLists.HitsExact` | Tkinter_GUI.py:275-280 | a position is kept exactly when its row passes |
| `TkinterLists.SearchHitsExact` | Tkinter_GUI.py:271-280 | the search keeps exactly the matching rows, each once, in catalog order |
| `TkinterLists.HitsAll` | Tkinter_GUI.py:275-280 | when every row passes every position is kept |
| `TkinterLists.SearchAllOnEmptyTerm` | Tkinter_GUI.py:278 | the empty term keeps every row |
| `TkinterLists.StrLessIrreflexive` | Tkinter_GUI.py:292 | Python's string `<` is irreflexive |
| `TkinterLists.StrLessTotal` | Tkinter_GUI.py:292 | any two distinct strings are ordered one way |
| `TkinterLists.StrLessTrans` | Tkinter_GUI.py:292 | string `<` is transitive |
| `TkinterLists.RowTotal` | Tkinter_GUI.py:292 | tuple order on (name, number) rows is total |
| `TkinterLists.RowLeqTrans` | Tkinter_GUI.py:292 | tuple order is transitive |
| `TkinterLists.RowAntisym` | Tkinter_GUI.py:292 | tuple order is antisymmetric |
| `TkinterLists.Insert` | Tkinter_GUI.py:292 | inserting adds the row once and loses none |
| `TkinterLists.SortRows` | Tkinter_GUI.py:292 | sorting is a permutation of the rows |
| `TkinterLists.InsertSorted` | Tkinter_GUI.py:292 | inserting into sorted rows keeps them sorted |
| `TkinterLists.SortRowsSorted` | Tkinter_GUI.py:292 | the sort's result is sorted |
| `TkinterLists.SortedUnique` | Tkinter_GUI.py:292 | two sorted arrangements of the same rows are equal, so Python's `sorted` gives the rows of `SortRows` |
| `TkinterLists.Zip` | Tkinter_GUI.py:292 | `zip` pairs names and numbers position by position, as many as the shorter list |
| `TkinterLists.ZipUnzip` | Tkinter_GUI.py:292 | unzipping rows and zipping them again gives the rows back |
| `TkinterLists.Merge` | Tkinter_GUI.py:286-291 | the selection loop only appends, and to both lists alike |
| `TkinterLists.MergeCovers` | Tkinter_GUI.py:286-291 | after the loop every picked number is tracked |
| `TkinterLists.MergeAddsPicks` | Tkinter_GUI.py:286-291 | every appended row is a picked row whose number was not yet tracked |
| `TkinterLists.MergeNoDup` | Tkinter_GUI.py:286-291 | tracked numbers without repeats stay without repeats |
| `TkinterLists.SelectSorts` | Tkinter_GUI.py:282-293 | the select raises ValueError iff a merged list is empty; otherwise the tracked rows are the merged rows, sorted |
| `TkinterLists.SelectKeepsRows` | Tkinter_GUI.py:282-293 | selecting catalog rows keeps every tracked name with its own number |
| `TkinterLists.Picked` | Tkinter_GUI.py:286-288 | the picked rows are the list box's names and results at the selected positions |
| `TkinterLists.WithoutNothing` | Tkinter_GUI.py:319-321 | removing no position keeps the list |
| `TkinterLists.WithoutLength` | Tkinter_GUI.py:319-321 | removing k positions in range shortens the list by k |
| `TkinterLists.WithoutOthers` | Tkinter_GUI.py:319-321 | positions before the counted start do not matter |
| `TkinterLists.WithoutPop` | Tkinter_GUI.py:319-321 | popping a position below every removed one removes it as well |
| `TkinterLists.AsWrittenDeleteAllMispairs` | Tkinter_GUI.py:308-312 | after the as-written delete-all, a newly selected name is paired with the first old number |
| `TkinterLists.AsWrittenDeleteAllBlocks` | Tkinter_GUI.py:308-312 | after the as-written delete-all, reselecting an old row adds nothing and raises ValueError |
| `TkinterLists.FixedDeleteAllSelects` | Tkinter_GUI.py:308-312 | after the corrected delete-all, selecting a row tracks exactly that row |
| `TkinterLists.FixedDeleteAllSelectsAll` | Tkinter_GUI.py:282-312 | after the corrected delete-all, selecting any non-empty set of rows tracks exactly those rows, sorted and paired; an empty selection is the sort's ValueError |
| `TkinterGui.KeepRows` | Tkinter_GUI.py:275-280 | the loop shows the names and keeps the numbers of the passing rows, in catalog order |
| `TkinterGui.PySatGui.constructor` | Tkinter_GUI.py:50-105 | the window starts with an empty configuration and empty catalog, search and tracked lists |
| `TkinterGui.PySatGui.BuildSearchBar` | Tkinter_GUI.py:128-148 | an empty catalog is a ValueError and changes nothing; otherwise the catalog lists are the sorted catalog rows, the search list shows them all, and nothing is tracked |
| `TkinterGui.PySatGui.UpdateSearchList` | Tkinter_GUI.py:271-280 | the list box and results become the matching catalog rows in order; nothing else changes |
| `TkinterGui.PySatGui.SearchSelect` | Tkinter_GUI.py:282-296 | the tracked lists become the select of the picked rows, the appends surviving a ValueError; when the sort succeeds the missing `update_objects` raises AttributeError |
| `TkinterGui.PySatGui.DeleteAll` | Tkinter_GUI.py:308-312 | the tracked names are cleared and the numbers kept, then AttributeError is raised |
| `TkinterGui.PySatGui.DeleteAllFixed` | Tkinter_GUI.py:308-312 | the tracked names and numbers are both cleared, then AttributeError is raised |
| `TkinterGui.PySatGui.SelectionListDelete` | Tkinter_GUI.py:316-324 | popping the selected positions from the last removes exactly those positions from both lists, then AttributeError is raised |
| `TkinterGui.PySatGui.LoadConfiguration` | Tkinter_GUI.py:182-204 | the four fields and the outcome are those of the load function, fields set before an exception included |
| `TkinterGui.PySatGui.LoadToggles` | Tkinter_GUI.py:186-192 | a toggle and a category per item up to the first bad item, whose error is raised |
| `TkinterGui.PySatGui.LoadSources` | Tkinter_GUI.py:193-204 | the links line and what follows update the fields as the load function says |
| `TkinterGui.PySatGui.FillSources` | Tkinter_GUI.py:195-197 | one slot per category, filled with the links in order; IndexError iff links run out |
| `TkinterGui.PySatGui.LoadSupplementary` | Tkinter_GUI.py:198-204 | the supplementary entries are read as the load function says |
| `TkinterGui.PySatGui.LoadEntries` | Tkinter_GUI.py:203-204 | each `;`-separated part becomes its `=`-split entry |
| `TkinterGui.PySatGui.WriteToggleLine` | Tkinter_GUI.py:211-216 | the toggle line is the first item then one item per later toggle; IndexError iff a toggle lacks a category |
| `TkinterGui.PySatGui.SaveConfiguration` | Tkinter_GUI.py:206-232 | the text written and the outcome are those of the as-written save function |
| `TkinterGui.PySatGui.WriteSuppSourcesAsWritten` | Tkinter_GUI.py:221-230 | writes entry 0 and then entries 0 to len-2, up to the first entry without a link |
| `TkinterGui.PySatGui.SaveConfigurationFixed` | Tkinter_GUI.py:206-232 | the text written and the outcome are those of the corrected save function |
| `TkinterGui.PySatGui.WriteSuppSources` | Tkinter_GUI.py:221-230 | writes each entry once, in order, up to the first entry without a link |

## Left out

- File, network and settings I/O are not modelled: downloads, file opening and the JSON settings load/save. A source file enters the model as its list of lines, the download-due rule takes "exists" and "age" as arguments, and the settings are a value.
- pandas is not modelled: the data frame is the sequence of row records, and `.iloc[0]` on an empty selection is an `IndexError` value.
- sgp4 propagation is not modelled: `Satrec`, `SatrecArray`, `jday`, the epoch Julian date of a record, and the tracker's `estimate` and `sub_points`. Only the handle built from the two raw lines is kept.
- The orbital engine, the Earth coordinate transforms, `rotation_matrix`, `vector_norm` and the wireframe sphere are not modelled, because they need trigonometry, roots and Newton iteration.
- Floating-point rounding is not modelled: Python floats are exact reals, so the model's equalities hold exactly where the program's may be off by a rounding error.
- OpenGL, pyqtgraph, matplotlib and Tkinter drawing, the projection behind GL picking, hover detection and all widgets, docks, dialogs and menus are not modelled; only the state the handlers change is kept. The object a press picks is a parameter of `Earth3d.View3d.MousePress`.
- Map2d.Map2dWidget.AddVisible: records which objects have a spot, label, ground track, arrow and footprint and keeps the values of existing ones, but not the curve points, colours and angles inside those items, because they are drawing data from the orbit propagation.
- Map2d.Map2dWidget.UpdateMap: requires a track and a footprint display mode for every shown object; as written a missing one is a KeyError part-way through the loop, and `MainWindow.AddedConfigured` shows the window keeps a mode for every active object. A ground track of fewer than two points, where the arrow code raises IndexError, is not modelled, because the points come from the propagation.
- TkinterGui.PySatGui.constructor: `initialize_UI` is modelled in steps, the constructor (fields), `LoadConfiguration` (Tkinter_GUI.py:114) and `BuildSearchBar` (Tkinter_GUI.py:128-148); the catalog load and `Tracker(self.database)` at Tkinter_GUI.py:116-117 are not modelled. As written that call raises TypeError, because sat_tracker/tracker.py:18 builds `TLE_Database` without its `default_urls` argument.
- TkinterGui.PySatGui.SaveConfiguration: the model's supplementary entries are name-link pairs; the preferences window (Tkinter_GUI.py:414-418) passes the `;`-split strings instead, so `[0]` and `[1]` are characters and a one-character entry raises IndexError. The model stands for that path with entries of one-character parts.
- PyText.Lower: folds ASCII A-Z only, not the other Unicode letters `str.lower` folds; used by `TkinterLists.Matches` and the catalog search of `NoradClasses`.
- PyText.Strip: strips the whitespace set of `PyText.IsSpace` only, not the other Unicode whitespace `str.strip` removes.
- PyText.ParseInt: accepts ASCII digits only; `int()` also accepts digit-group underscores ("1_000") and non-ASCII decimal digits.
- TkinterConfig.Toggle: accepts an ASCII digit as the flag only; `int()` of one character also accepts non-ASCII decimal digits.
- Qt timers, threads, signal wiring and the loader worker's progress reports are not modelled; a tick is a method call and an emitted signal is the value the method returns.
- The copies of `_splitWrapSegment`, `_shouldRender` and `_modeToLabel` in src/gui/mainWindow.py and of `_shouldRender` in src/gui/earth3D.py are the same code as in src/gui/map2d.py and are modelled once, in `Map2d`.
- Map2d.SplitWrapSegment: requires that no two adjacent longitudes differ by exactly 360, in either direction. The code as written (src/gui/map2d.py:80) divides by zero only when the longitude falls by exactly 360 (divisor `next + 360 - prev`); when it rises by 360 its divisor `prev - next - 360` is below -360 and finite (prev = -180, next = 180). The corrected formula the model uses divides by zero when the longitude rises by 360, so that case is excluded as well. Neither arises for longitudes in (-180, 180]; numpy's inf or nan has no exact-real counterpart.
- PyText.SplitWs: `str.split()` splits on space, tab, newline, carriage return, vertical tab, form feed and the separators U+001C to U+001F only, not on the other Unicode whitespace characters Python also recognises.
- `float()` accepts decimal literals with an optional sign, point and exponent; `inf`, `nan` and digit-group underscores are not modelled.
- The Tkinter live plot, the tracker preferences window and printed warnings are not modelled, because they are drawing and console output.
- MainWindow.MainWindow.OnObjectSelected: models the selection it stores, but not the catalog lookup that fills the object information dock, which is a widget.
- `OrbitWorker`, `AddObjectDialog` and `TimelineWidget` are imported by src/gui/mainWindow.py from src/gui/objects.py, which defines only `SimulationClock`; they are not part of this model.
- sat_tracker/time_manager.py, main.py and iss-script.py are not part of this model; they are thin wrappers over `time` and demonstration drivers.

## Findings

| source | as written | input that shows it | evidently intended | confidence | as-written member | corrected member |
|---|---|---|---|---|---|---|
| src/gui/map2d.py:76-82 | when the track crosses westwards the border latitude is taken on the line through (next + 360, next latitude) and (previous, previous latitude) | previous point (-175, 0), next point (165, 20): the border latitude is 71/7 | the line through (previous + 360, previous latitude) and (next, next latitude), whose value at 180 is 5 | not executed | `Map2d.CrossingAsWrittenOffTrack` | `Map2d.CrossingOnTrack` |
| Tkinter_GUI.py:222-229 | the supplementary sources are written as entry 0 followed by entries 0 to n-2 | supplementary entries [a, b] (name-link pairs) are saved as "a;a" and read back as [a, a]; on the program's own path the entries are the `;`-split strings, so "p=x;q=y" is written "p==;p==" | entry 0 followed by entries 1 to n-1, so that loading what was saved gives the same sources | not executed | `TkinterConfig.AsWrittenShiftsSupp` | `TkinterConfig.ConfigRoundTrip` |
| Tkinter_GUI.py:210-213 | the first category is written without replacing spaces by "_" | category "Space Stations" is written as "Space Stations=1", and the next load splits it at the space | every category written with spaces replaced by "_", as the loader expects | not executed | `TkinterConfig.AsWrittenFirstCategoryBreaks` | `TkinterConfig.SavedFixedLoads` |
| sat_tracker/tracker.py:29 | `if index:` treats index 0 like "not found" | adding the name of the first catalog entry leaves the tracker unchanged | a test against `False` only, so that every found index is tracked | not executed | `Tracker.AddAllTracksTruthy` | `Tracker.AddAllFixedTracksHits` |
| Tkinter_GUI.py:308-312 | `delete_all` empties the tracked names but keeps the selected numbers | select one object, delete all, select another: the new name is paired with the old number | both parallel lists emptied together | not executed | `TkinterLists.AsWrittenDeleteAllMispairs` | `TkinterLists.FixedDeleteAllSelectsAll` |
| src/gui/utilities.py:15-17 | the default settings put `ACTIVE_OBJECTS` at the top level and have no `VISUALIZATION` entry, which src/gui/mainWindow.py:38 reads on first start | the generated defaults on first start: the lookup raises KeyError | `ACTIVE_OBJECTS` and `CURRENT_TAB` under `VISUALIZATION`, so the window opens on its own defaults | not executed | `MainWindow.DefaultSettingsDoNotOpen` | `MainWindow.CorrectedDefaultsOpen` |
