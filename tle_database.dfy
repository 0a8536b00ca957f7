/** The current catalog loader of src/core/tleDatabase.py: a CelesTrak
    text file is a list of lines, every three stripped non-blank lines are
    one element set (name, line 1, line 2), and each set is sliced at the
    fixed NORAD two-line-element columns.  Rows accumulate in memory and
    are tabulated on `finalize`; propagator handles are built lazily and
    cached per catalog number. */
module TleDatabase {
  import opened Wrappers
  import opened PyText

  /** The sgp4 propagator handle, identified by the two raw lines that
      `Satrec.twoline2rv` builds it from. */
  datatype Satrec = Twoline2rv(line1: string, line2: string)

  /** One parsed element set, the dict `_parseTLE` returns.  The epoch is
      kept as the calendar year and the fractional day of year it is
      computed from. */
  datatype Row = Row(
    objectName: string,
    noradCatId: int,
    epochYear: int,
    epochDay: real,
    meanMotion: real,
    eccentricity: real,
    inclination: real,
    raOfAscNode: real,
    argOfPericenter: real,
    meanAnomaly: real,
    bStar: real,
    revAtEpoch: int,
    tleLine1: string,
    tleLine2: string,
    tags: seq<string>,
    source: Option<string>)

  /** The CelesTrak groups `loadSource` accepts, with their download URLs. */
  const CelestrakSources: map<string, string> := map[
    "stations" := "https://celestrak.org/NORAD/elements/gp.php?GROUP=stations&FORMAT=tle",
    "active" := "https://celestrak.org/NORAD/elements/gp.php?GROUP=active&FORMAT=tle",
    "starlink" := "https://celestrak.org/NORAD/elements/gp.php?GROUP=starlink&FORMAT=tle",
    "gnss" := "https://celestrak.org/NORAD/elements/gp.php?GROUP=gnss&FORMAT=tle",
    "weather" := "https://celestrak.org/NORAD/elements/gp.php?GROUP=weather&FORMAT=tle",
    "planet" := "https://celestrak.org/NORAD/elements/gp.php?GROUP=planets&FORMAT=tle",
    "visual" := "https://celestrak.org/NORAD/elements/gp.php?GROUP=visual&FORMAT=tle",
    "iridium" := "https://celestrak.org/NORAD/elements/gp.php?GROUP=iridium&FORMAT=tle",
    "geosynchronous" := "https://celestrak.org/NORAD/elements/gp.php?GROUP=geo&FORMAT=tle"
  ]

  /** `UPDATE_INTERVAL`, two days, in seconds. */
  const UpdateIntervalSeconds: real := 172800.0

  // ------------------------------------------------------- file freshness

  /** `_fileNeedsUpdate`: a download is due when the cached file is missing
      or its age exceeds the update interval.  The age is the current UTC
      time minus the modification time as `datetime.fromtimestamp` reports
      it (local time), both in seconds. */
  predicate FileNeedsUpdate(exists_: bool, nowUtc: real, lastModLocal: real) {
    !exists_ || nowUtc - lastModLocal > UpdateIntervalSeconds
  }

  /** Once a file is due for an update it stays due as time passes, and a
      file younger than two days is never due. */
  lemma FileNeedsUpdateMonotone(exists_: bool, now1: real, now2: real, lastMod: real)
    requires now1 <= now2
    ensures FileNeedsUpdate(exists_, now1, lastMod) ==> FileNeedsUpdate(exists_, now2, lastMod)
    ensures exists_ && now2 - lastMod <= 2.0 * 86400.0 ==> !FileNeedsUpdate(exists_, now2, lastMod)
  {
  }

  // ------------------------------------------------------------- _parseTLE

  /** The two-digit epoch year pivot: below 57 is 20xx, otherwise 19xx. */
  function EpochYear(yy: int): (year: int)
    ensures 0 <= yy < 100 ==> 1957 <= year <= 2056 && year % 100 == yy
    ensures 0 <= yy < 100 ==> (year >= 2000 <==> yy < 57)
  {
    if yy < 57 then 2000 + yy else 1900 + yy
  }

  /** The proleptic Gregorian day count before January 1st of `year`
      (Python's `date(year, 1, 1).toordinal() - 1`). */
  function DaysBeforeYear(year: int): int {
    var y := year - 1;
    365 * y + y / 4 - y / 100 + y / 400
  }

  /** `datetime(year, 1, 1) + timedelta(days=day - 1)` stays within
      `datetime.min` .. `datetime.max` (ordinals 1 .. 3652059). */
  predicate EpochInRange(year: int, day: real) {
    var ordinal := DaysBeforeYear(year) as real + day;
    1.0 <= ordinal < 3652060.0
  }

  /** Every epoch the pivot can produce accepts any day of its year. */
  lemma EpochDayOfYearInRange(yy: int, day: real)
    requires 0 <= yy < 100 && 1.0 <= day < 367.0
    ensures EpochInRange(EpochYear(yy), day)
  {
    var y := EpochYear(yy) - 1;
    assert 1956 <= y <= 2055;
    assert 0 <= y / 4 - y / 100 + y / 400 <= y;
    assert DaysBeforeYear(y + 1) <= 366 * 2055;
  }

  /** The text `float` receives for B*: the sign column, an implied "0."
      and the exponent after an "e". */
  function BStarText(line1: string): string
    requires |line1| > 53
  {
    [line1[53]] + "0." + Slice(line1, 54, 59) + "e" + Slice(line1, 59, 61)
  }

  /** The orbital elements `_parseTLE` reads after the epoch, in the order
      it reads them. */
  datatype Elements = Elements(
    bStar: real,
    inclination: real,
    eccentricity: real,
    raOfAscNode: real,
    argOfPericenter: real,
    meanAnomaly: real,
    meanMotion: real,
    revAtEpoch: int)

  /** The epoch part of `_parseTLE`: the two-digit year through the pivot,
      the fractional day of year, and the datetime range check. */
  function ParseEpoch(line1: string): (r: Result<(int, real)>)
    ensures r.Ok? ==> EpochInRange(r.value.0, r.value.1)
    ensures r.Ok? ==> exists yy :: Some(yy) == ParseInt(Slice(line1, 18, 20)) && r.value.0 == EpochYear(yy)
  {
    var epochString := Slice(line1, 18, 32);
    assert Slice(epochString, 0, 2) == Slice(line1, 18, 20);
    var yy :- Need(ParseInt(Slice(epochString, 0, 2)), "ValueError");
    var year := EpochYear(yy);
    var day :- Need(ParseFloat(Slice(epochString, 2, |epochString|)), "ValueError");
    if EpochInRange(year, day) then Ok((year, day)) else Err("OverflowError")
  }

  /** The element part of `_parseTLE`: B* (line 1 must reach column 54),
      then the line 2 columns. */
  function ParseElements(line1: string, line2: string): (r: Result<Elements>)
    ensures |line1| <= 53 ==> r == Err("IndexError")
    ensures |line1| > 53 ==>
              (r.Ok? <==> ParseFloat(BStarText(line1)).Some? && ParseFloat(Slice(line2, 8, 16)).Some?
                          && ParseFloat("0." + Slice(line2, 26, 33)).Some? && ParseFloat(Slice(line2, 17, 25)).Some?
                          && ParseFloat(Slice(line2, 34, 42)).Some? && ParseFloat(Slice(line2, 43, 51)).Some?
                          && ParseFloat(Slice(line2, 52, 63)).Some? && ParseInt(Slice(line2, 63, 68)).Some?)
    ensures r.Ok? ==> Some(r.value.bStar) == ParseFloat(BStarText(line1))
    ensures r.Ok? ==> Some(r.value.inclination) == ParseFloat(Slice(line2, 8, 16))
    ensures r.Ok? ==> Some(r.value.eccentricity) == ParseFloat("0." + Slice(line2, 26, 33))
    ensures r.Ok? ==> Some(r.value.raOfAscNode) == ParseFloat(Slice(line2, 17, 25))
    ensures r.Ok? ==> Some(r.value.argOfPericenter) == ParseFloat(Slice(line2, 34, 42))
    ensures r.Ok? ==> Some(r.value.meanAnomaly) == ParseFloat(Slice(line2, 43, 51))
    ensures r.Ok? ==> Some(r.value.meanMotion) == ParseFloat(Slice(line2, 52, 63))
    ensures r.Ok? ==> Some(r.value.revAtEpoch) == ParseInt(Slice(line2, 63, 68))
  {
    var _ :- if |line1| > 53 then Ok(()) else Err("IndexError");
    var bStar :- Need(ParseFloat(BStarText(line1)), "ValueError");
    var inclination :- Need(ParseFloat(Slice(line2, 8, 16)), "ValueError");
    var eccentricity :- Need(ParseFloat("0." + Slice(line2, 26, 33)), "ValueError");
    var raan :- Need(ParseFloat(Slice(line2, 17, 25)), "ValueError");
    var argPerigee :- Need(ParseFloat(Slice(line2, 34, 42)), "ValueError");
    var meanAnomaly :- Need(ParseFloat(Slice(line2, 43, 51)), "ValueError");
    var meanMotion :- Need(ParseFloat(Slice(line2, 52, 63)), "ValueError");
    var revNumber :- Need(ParseInt(Slice(line2, 63, 68)), "ValueError");
    Ok(Elements(bStar, inclination, eccentricity, raan, argPerigee, meanAnomaly, meanMotion, revNumber))
  }

  /** `_parseTLE(name, line1, line2, tag, source)`, with the exception it
      raises first as the error: it succeeds exactly when the catalog
      number, the epoch and every element parse, and the row keeps both
      lines verbatim. */
  function ParseTle(name: string, line1: string, line2: string,
                    tag: Option<string>, source: Option<string>): (r: Result<Row>)
    ensures r.Ok? <==> ParseInt(Slice(line1, 2, 7)).Some? && ParseEpoch(line1).Ok?
                       && ParseElements(line1, line2).Ok?
    ensures r.Ok? ==> r.value.objectName == name && r.value.tleLine1 == line1
                      && r.value.tleLine2 == line2 && r.value.source == source
    ensures r.Ok? ==> r.value.tags == (if tag.Some? && tag.value != "" then [tag.value] else [])
    ensures r.Ok? ==> Some(r.value.noradCatId) == ParseInt(Slice(line1, 2, 7))
    ensures r.Ok? ==> ParseEpoch(line1) == Ok((r.value.epochYear, r.value.epochDay))
    ensures |line1| <= 53 ==> r.Err?
    ensures r.Ok? ==> Some(r.value.bStar) == ParseFloat(BStarText(line1))
    ensures r.Ok? ==> Some(r.value.inclination) == ParseFloat(Slice(line2, 8, 16))
    ensures r.Ok? ==> Some(r.value.eccentricity) == ParseFloat("0." + Slice(line2, 26, 33))
    ensures r.Ok? ==> Some(r.value.raOfAscNode) == ParseFloat(Slice(line2, 17, 25))
    ensures r.Ok? ==> Some(r.value.argOfPericenter) == ParseFloat(Slice(line2, 34, 42))
    ensures r.Ok? ==> Some(r.value.meanAnomaly) == ParseFloat(Slice(line2, 43, 51))
    ensures r.Ok? ==> Some(r.value.meanMotion) == ParseFloat(Slice(line2, 52, 63))
    ensures r.Ok? ==> Some(r.value.revAtEpoch) == ParseInt(Slice(line2, 63, 68))
  {
    var idNorad :- Need(ParseInt(Slice(line1, 2, 7)), "ValueError");
    var epoch :- ParseEpoch(line1);
    var e :- ParseElements(line1, line2);
    Ok(Row(name, idNorad, epoch.0, epoch.1, e.meanMotion, e.eccentricity, e.inclination,
           e.raOfAscNode, e.argOfPericenter, e.meanAnomaly, e.bStar, e.revAtEpoch, line1, line2,
           if tag.Some? && tag.value != "" then [tag.value] else [], source))
  }

  /** A five-digit catalog field is read as its decimal value, and a
      two-digit year field goes through the 57 pivot: "25544" gives 25544,
      "98" gives 1998 and "24" gives 2024. */
  lemma CatalogIdAndYear(name: string, line1: string, line2: string,
                         tag: Option<string>, source: Option<string>)
    requires IsDigits(Slice(line1, 2, 7)) && IsDigits(Slice(line1, 18, 20))
    requires ParseTle(name, line1, line2, tag, source).Ok?
    ensures ParseTle(name, line1, line2, tag, source).value.noradCatId == DigitsValue(Slice(line1, 2, 7))
    ensures ParseTle(name, line1, line2, tag, source).value.epochYear == EpochYear(DigitsValue(Slice(line1, 18, 20)))
  {
    ParseIntDigits(Slice(line1, 2, 7));
    ParseIntDigits(Slice(line1, 18, 20));
  }

  /** With the implied-decimal eccentricity field made of digits, the
      eccentricity read is that fraction and lies in [0, 1). */
  lemma EccentricityFraction(name: string, line1: string, line2: string,
                             tag: Option<string>, source: Option<string>)
    requires AllDigits(Slice(line2, 26, 33))
    requires ParseTle(name, line1, line2, tag, source).Ok?
    ensures var e := ParseTle(name, line1, line2, tag, source).value.eccentricity;
            e == DigitsValue(Slice(line2, 26, 33)) as real / Pow10(|Slice(line2, 26, 33)|)
            && 0.0 <= e < 1.0
  {
    FractionField(Slice(line2, 26, 33));
  }

  /** B* is stored with an implied leading decimal point and a signed
      power-of-ten exponent: with a blank or sign column, five mantissa
      digits and an exponent field, the value read is
      sign * 0.mmmmm * 10^exp, and its magnitude is below 10^exp
      (" 34123-4" reads as 0.34123e-4). */
  lemma BStarValue(name: string, line1: string, line2: string,
                   tag: Option<string>, source: Option<string>)
    requires ParseTle(name, line1, line2, tag, source).Ok?
    requires line1[53] == ' ' || line1[53] == '-' || line1[53] == '+'
    requires AllDigits(Slice(line1, 54, 59)) && ParseExponent(Slice(line1, 59, 61)).Some?
    ensures var b := ParseTle(name, line1, line2, tag, source).value.bStar;
            b == ImpliedDecimal(line1[53], Slice(line1, 54, 59), ParseExponent(Slice(line1, 59, 61)).value)
            && -Pow10(ParseExponent(Slice(line1, 59, 61)).value) < b < Pow10(ParseExponent(Slice(line1, 59, 61)).value)
  {
    BStarRead(line1);
  }

  /** The text `float` receives for a well-formed B* field reads as
      the implied-decimal value of its columns. */
  lemma BStarRead(line1: string)
    requires |line1| > 53
    requires line1[53] == ' ' || line1[53] == '-' || line1[53] == '+'
    requires AllDigits(Slice(line1, 54, 59)) && ParseExponent(Slice(line1, 59, 61)).Some?
    ensures var e := ParseExponent(Slice(line1, 59, 61)).value;
            var b := ImpliedDecimal(line1[53], Slice(line1, 54, 59), e);
            ParseFloat(BStarText(line1)) == Some(b) && -Pow10(e) < b < Pow10(e)
  {
    var c, d, x := line1[53], Slice(line1, 54, 59), Slice(line1, 59, 61);
    assert BStarText(line1) == [c] + ("0." + d + "e" + x);
    SignedExponentField(c, d, x);
    FractionField(d);
    ScaledBelow(DigitsValue(d) as real / Pow10(|d|), ParseExponent(x).value);
  }

  // ---------------------------------------------------------- loadSource

  /** `[l.strip() for l in f if l.strip()]`: every stripped non-blank
      line, in file order. */
  function NonBlankStripped(fileLines: seq<string>): (r: seq<string>)
    ensures |r| <= |fileLines|
    ensures forall x :: x in r ==> x != []
    ensures forall l :: l in fileLines && Strip(l) != [] ==> Strip(l) in r
  {
    if fileLines == [] then []
    else
      var rest := NonBlankStripped(fileLines[1..]);
      assert forall l :: l in fileLines ==> l == fileLines[0] || l in fileLines[1..];
      if Strip(fileLines[0]) != [] then [Strip(fileLines[0])] + rest else rest
  }

  /** A parser of one (name, line 1, line 2) triple. */
  type TripleParser = (string, string, string) -> Result<Row>

  /** `_parseTLE` with the tag and URL of the source being loaded. */
  function TleParser(tag: string, source: string): TripleParser {
    (name, line1, line2) => ParseTle(name, line1, line2, Some(tag), Some(source))
  }

  /** The outcome of the `try` for the triple starting at `lines[3 * g]`:
      an index past the end raises IndexError. */
  function TripleAt(lines: seq<string>, g: nat, parse: TripleParser): Result<Row> {
    if 3 * g + 2 < |lines| then parse(lines[3 * g], lines[3 * g + 1], lines[3 * g + 2])
    else Err("IndexError")
  }

  /** The number of passes of `range(0, n, 3)`. */
  function Groups(n: nat): nat { (n + 2) / 3 }

  /** The outcome of every pass of the loop over `lines`, in order. */
  function Outcomes(lines: seq<string>, parse: TripleParser): (o: seq<Result<Row>>)
    ensures |o| == Groups(|lines|)
  {
    seq(Groups(|lines|), g requires 0 <= g < Groups(|lines|) => TripleAt(lines, g, parse))
  }

  /** The rows a sequence of `try` outcomes appends: those that raise are
      skipped. */
  function Kept(outcomes: seq<Result<Row>>): seq<Row> {
    if outcomes == [] then []
    else
      var last := outcomes[|outcomes| - 1];
      Kept(outcomes[..|outcomes| - 1]) + (if last.Ok? then [last.value] else [])
  }

  /** The rows one `loadSource` appends for the stripped lines `lines`. */
  function LoadedRows(lines: seq<string>, tag: string, source: string): seq<Row> {
    Kept(Outcomes(lines, TleParser(tag, source)))
  }

  /** A row is kept exactly when some outcome is that row; a failure does
      not stop the outcomes after it. */
  lemma {:induction false} KeptMembers(outcomes: seq<Result<Row>>, row: Row)
    ensures row in Kept(outcomes) <==> Ok(row) in outcomes
  {
    if outcomes != [] {
      var front := outcomes[..|outcomes| - 1];
      KeptMembers(front, row);
      assert outcomes == front + [outcomes[|outcomes| - 1]];
    }
  }

  /** Kept rows follow the order of the outcomes, and there is at most one
      per outcome. */
  lemma {:induction false} KeptAppend(a: seq<Result<Row>>, b: seq<Result<Row>>)
    ensures Kept(a + b) == Kept(a) + Kept(b)
    ensures |Kept(b)| <= |b|
  {
    if b == [] {
      assert a + b == a;
    } else {
      var front := b[..|b| - 1];
      KeptAppend(a, front);
      assert (a + b)[..|a + b| - 1] == a + front;
    }
  }

  /** A row is appended exactly when some triple parses to it. */
  lemma OutcomesMembers(lines: seq<string>, parse: TripleParser, row: Row)
    ensures row in Kept(Outcomes(lines, parse))
            <==> exists g :: 0 <= g < Groups(|lines|) && TripleAt(lines, g, parse) == Ok(row)
  {
    var o := Outcomes(lines, parse);
    KeptMembers(o, row);
    if Ok(row) in o {
      var g :| 0 <= g < |o| && o[g] == Ok(row);
      assert TripleAt(lines, g, parse) == Ok(row);
    }
    if exists g :: 0 <= g < Groups(|lines|) && TripleAt(lines, g, parse) == Ok(row) {
      var g :| 0 <= g < Groups(|lines|) && TripleAt(lines, g, parse) == Ok(row);
      assert o[g] == Ok(row);
    }
  }

  /** The trailing incomplete group (one or two lines) adds nothing, so
      there is at most one row per three lines. */
  lemma TrailingGroupIgnored(lines: seq<string>, parse: TripleParser)
    ensures |Kept(Outcomes(lines, parse))| <= |lines| / 3
  {
    var o := Outcomes(lines, parse);
    var full := |lines| / 3;
    assert o == o[..full] + o[full..];
    KeptAppend([], o[..full]);
    KeptAppend(o[..full], o[full..]);
    if full < |o| {
      assert o[full..] == [o[full]];
      assert TripleAt(lines, full, parse).Err?;
      assert o[full..][..0] == [];
      assert Kept(o[full..]) == [];
    } else {
      assert o[full..] == [];
    }
  }

  /** Every row one `loadSource` appends is the parse of a complete triple
      of the file, tagged with the source's tag and URL, and keeping that
      triple's two element lines verbatim. */
  lemma LoadedRowsTagged(lines: seq<string>, tag: string, source: string, row: Row)
    requires tag != "" && row in LoadedRows(lines, tag, source)
    ensures row.tags == [tag] && row.source == Some(source)
    ensures exists g :: 0 <= g && 3 * g + 2 < |lines| && row.objectName == lines[3 * g]
                        && row.tleLine1 == lines[3 * g + 1] && row.tleLine2 == lines[3 * g + 2]
  {
    OutcomesMembers(lines, TleParser(tag, source), row);
    var g :| 0 <= g < Groups(|lines|) && TripleAt(lines, g, TleParser(tag, source)) == Ok(row);
    assert 3 * g + 2 < |lines|;
  }

  /** The position of the first row of a table with the given catalog
      number, the row `df[df["NORAD_CAT_ID"] == id].iloc[0]` selects, or
      the table's length when there is none. */
  function FirstIndexWithId(rows: seq<Row>, id: int): (k: nat)
    ensures k <= |rows|
    ensures forall j :: 0 <= j < k ==> rows[j].noradCatId != id
    ensures k < |rows| ==> rows[k].noradCatId == id
  {
    if rows == [] then 0
    else if rows[0].noradCatId == id then 0
    else 1 + FirstIndexWithId(rows[1..], id)
  }

  /** What a cache miss computes: no table yet is a TypeError (`None[...]`);
      a table made from no rows has no "NORAD_CAT_ID" column, a KeyError;
      an id absent from a non-empty table is an IndexError (`.iloc[0]` of
      an empty selection); otherwise the handle is built from the first
      matching row's raw lines. */
  function SatrecFromTable(dataFrame: Option<seq<Row>>, id: int): (r: Result<Satrec>)
    ensures dataFrame.None? ==> r == Err("TypeError")
    ensures dataFrame == Some([]) ==> r == Err("KeyError")
    ensures dataFrame.Some? && dataFrame.value != [] && (forall row :: row in dataFrame.value ==> row.noradCatId != id)
            ==> r == Err("IndexError")
    ensures dataFrame.Some? && (exists row :: row in dataFrame.value && row.noradCatId == id) ==> r.Ok?
    ensures r.Ok? ==> exists k :: (0 <= k < |dataFrame.value| && dataFrame.value[k].noradCatId == id
                                   && (forall j :: 0 <= j < k ==> dataFrame.value[j].noradCatId != id)
                                   && r.value == Twoline2rv(dataFrame.value[k].tleLine1, dataFrame.value[k].tleLine2))
  {
    match dataFrame
    case None => Err("TypeError")
    case Some(rows) =>
      if rows == [] then Err("KeyError")
      else
        var k := FirstIndexWithId(rows, id);
        if k == |rows| then Err("IndexError")
        else Ok(Twoline2rv(rows[k].tleLine1, rows[k].tleLine2))
  }

  /** The `for i in range(0, len(lines), 3)` loop of `loadSource`: each
      triple is parsed inside `try`, a triple that raises (a malformed
      field, or the incomplete group at the end) is skipped, and the good
      rows are collected in file order.  Every exception is caught, so
      collecting first and appending once gives the same `rows`. */
  method ParseLines(lines: seq<string>, parse: TripleParser) returns (parsed: seq<Row>)
    ensures parsed == Kept(Outcomes(lines, parse))
  {
    ghost var outcomes := Outcomes(lines, parse);
    parsed := [];
    var g := 0;
    while 3 * g < |lines|
      invariant g <= |outcomes|
      invariant parsed == Kept(outcomes[..g])
    {
      // the pass for i == 3 * g
      var row := TripleAt(lines, g, parse);
      assert outcomes[..g + 1] == outcomes[..g] + [row];
      if row.Ok? {
        parsed := parsed + [row.value];
      }
      g := g + 1;
    }
    assert outcomes[..g] == outcomes;
  }

  class TleDatabase {
    /** The accumulation list `self.rows`. */
    var rows: seq<Row>
    /** `self.dataFrame`: None until `finalize`, then a snapshot of `rows`. */
    var dataFrame: Option<seq<Row>>
    /** `self._satrecCache`. */
    var satrecCache: map<int, Satrec>

    constructor()
      ensures rows == [] && dataFrame == None && satrecCache == map[]
    {
      rows := [];
      dataFrame := None;
      satrecCache := map[];
    }

    /** `loadSource(tag)` once the file's lines are known: an unknown tag
        raises before anything happens; otherwise the parsed rows of every
        good triple are appended after the existing ones. */
    method LoadSource(tag: string, fileLines: seq<string>) returns (r: Result<()>)
      modifies this`rows
      ensures tag !in CelestrakSources ==> r == Err("ValueError") && rows == old(rows)
      ensures tag in CelestrakSources ==>
                r == Ok(()) &&
                rows == old(rows) + LoadedRows(NonBlankStripped(fileLines), tag, CelestrakSources[tag])
    {
      if tag !in CelestrakSources {
        return Err("ValueError");
      }
      var source := CelestrakSources[tag];
      var lines := NonBlankStripped(fileLines);
      var parsed := ParseLines(lines, TleParser(tag, source));
      rows := rows + parsed;
      return Ok(());
    }

    /** `finalize`: the table is every accumulated row, duplicates kept. */
    method Finalize()
      modifies this`dataFrame
      ensures dataFrame == Some(rows)
    {
      dataFrame := Some(rows);
    }

    /** `getSatrec(id)`: a cached handle is returned as is; on a miss the
        handle is built from the table and cached, and a failed lookup
        leaves the cache unchanged. */
    method GetSatrec(id: int) returns (r: Result<Satrec>)
      modifies this`satrecCache
      ensures id in old(satrecCache) ==> r == Ok(old(satrecCache)[id]) && satrecCache == old(satrecCache)
      ensures id !in old(satrecCache) ==> r == SatrecFromTable(dataFrame, id)
      ensures id !in old(satrecCache) && r.Ok? ==> satrecCache == old(satrecCache)[id := r.value]
      ensures r.Err? ==> satrecCache == old(satrecCache)
    {
      if id !in satrecCache {
        var built := SatrecFromTable(dataFrame, id);
        if built.Err? {
          return built;
        }
        satrecCache := satrecCache[id := built.value];
      }
      r := Ok(satrecCache[id]);
    }
  }
}
