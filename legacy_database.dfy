/** The catalog of the `sat_tracker` package (sat_tracker/database.py):
    the lines of the toggled default and supplementary source files are
    concatenated, every three lines are one object (name, element line 1,
    element line 2) kept raw in `data`, and ten parallel columns of parsed
    fields are kept in `deconstructed_data`.  Nothing is caught: the first
    malformed record aborts the load. */
module SatTrackerDatabase {
  import opened Wrappers
  import opened PyText
  import Current = TleDatabase

  /** `np.pi`. */
  const Pi: real := 3.141592653589793

  /** `np.radians(x)`. */
  function Radians(degrees: real): real {
    degrees * Pi / 180.0
  }

  /** The factor `7.272205216643 * 10 ** (-5)` applied to the mean motion
      (revolutions per day to radians per second). */
  const MeanMotionFactor: real := 7.272205216643 * 0.00001

  /** What `search_index` is called with: the source compares the query
      with `==` against a stored name (a `str`) and a stored number (an
      `int`), so a text query can only match a name and a number query
      only a number. */
  datatype Query = Text(text: string) | Number(number: int)

  /** `search_index`'s result: an index, or `False` when nothing matches. */
  datatype SearchHit = Hit(index: nat) | Miss

  /** Python truthiness of a search result: `False` and the index 0 are
      both falsy. */
  predicate Truthy(h: SearchHit) {
    h.Hit? && h.index != 0
  }

  /** The parsed fields of one object, angles in radians. */
  datatype Record = Record(
    number: int,
    epochYear: int,
    epochDay: real,
    inclination: real,
    ascension: real,
    eccentricity: real,
    argument: real,
    meanAnomaly: real,
    meanMotion: real)

  /** The ten columns of `deconstructed_data`, in their order. */
  datatype Columns = Columns(
    names: seq<string>,
    numbers: seq<int>,
    epochYears: seq<int>,
    epochDays: seq<real>,
    inclinations: seq<real>,
    ascensions: seq<real>,
    eccentricities: seq<real>,
    arguments: seq<real>,
    meanAnomalies: seq<real>,
    meanMotions: seq<real>)
  {
    /** All ten columns have `n` entries. */
    predicate HasLength(n: nat) {
      |names| == n && |numbers| == n && |epochYears| == n && |epochDays| == n
      && |inclinations| == n && |ascensions| == n && |eccentricities| == n
      && |arguments| == n && |meanAnomalies| == n && |meanMotions| == n
    }
  }

  // ------------------------------------------------------------ file_name_url

  /** `file_name_url(url)`: the last field of `url.split("/")`. */
  function FileNameUrl(url: string): string {
    var parts := SplitOn(url, '/');
    parts[|parts| - 1]
  }

  /** The file name is the text after the last "/": it holds no "/", it
      ends the URL right after a "/", and a URL without "/" is returned
      unchanged. */
  lemma FileNameUrlSuffix(url: string)
    ensures var r := FileNameUrl(url);
            '/' !in r && |r| <= |url| && url[|url| - |r|..] == r
            && (|r| < |url| ==> url[|url| - |r| - 1] == '/')
            && ('/' !in url ==> r == url)
  {
    var parts := SplitOn(url, '/');
    SplitOnJoin(url, '/');
    JoinOnLast(parts, '/');
    if '/' !in url {
      SplitOnNoSep(url, '/');
    }
  }

  // ----------------------------------------------------------- one record

  /** The two-digit epoch year as this parser reads it: `int(yy) >= 57`
      selects `int("19" + yy)`, otherwise `int("20" + yy)`. */
  function LegacyYear(yy: string): Option<int> {
    match ParseInt(yy)
    case None => None
    case Some(v) => ParseInt(Century(v) + yy)
  }

  /** The century text the rule prepends to a two-digit year worth `v`. */
  function Century(v: int): string {
    if v >= 57 then "19" else "20"
  }

  /** Digit strings written one after the other form a digit string. */
  lemma DigitsJoin(c: string, yy: string)
    requires IsDigits(c) && IsDigits(yy)
    ensures IsDigits(c + yy)
  {
    assert forall i :: 0 <= i < |c + yy| ==> (c + yy)[i] == if i < |c| then c[i] else yy[i - |c|];
  }

  /** A prefix followed by two digits is worth a hundred times the prefix
      plus those two digits. */
  lemma TwoDigitTail(c: string, yy: string)
    requires |yy| == 2
    ensures DigitsValue(c + yy) == DigitsValue(c) * 100 + DigitsValue(yy)
  {
    DigitsValueConcat(c, yy);
    assert Pow10Nat(2) == 100;
  }

  /** The value of a two-character century prefix. */
  lemma TwoDigitValue(c: string)
    requires |c| == 2
    ensures DigitsValue(c) == 10 * DigitValue(c[0]) + DigitValue(c[1])
  {
    var front := c[..1];
    assert c[..|c| - 1] == front;
    assert front[..|front| - 1] == [];
    assert DigitsValue(front) == DigitValue(c[0]);
  }

  /** `int(c + yy)` for a two-digit century `c` and a two-digit year. */
  lemma CenturyYear(c: string, yy: string, century: int)
    requires |c| == 2 && IsDigits(c) && century == DigitsValue(c)
    requires |yy| == 2 && IsDigits(yy)
    ensures ParseInt(c + yy) == Some(century * 100 + DigitsValue(yy))
  {
    DigitsJoin(c, yy);
    TwoDigitTail(c, yy);
    ParseIntDigits(c + yy);
  }

  lemma NineteenValue()
    ensures IsDigits("19") && DigitsValue("19") == 19
  {
    TwoDigitValue("19");
  }

  lemma TwentyValue()
    ensures IsDigits("20") && DigitsValue("20") == 20
  {
    TwoDigitValue("20");
  }

  /** From 57 on, the rule reads the year in the 1900s. */
  lemma NineteenYear(yy: string, v: int)
    requires |yy| == 2 && IsDigits(yy) && v == DigitsValue(yy) && v >= 57
    ensures ParseInt(Century(v) + yy) == Some(Current.EpochYear(v))
  {
    NineteenValue();
    CenturyYear("19", yy, 19);
    assert Current.EpochYear(v) == 1900 + v;
  }

  /** Below 57, the rule reads the year in the 2000s. */
  lemma TwentyYear(yy: string, v: int)
    requires |yy| == 2 && IsDigits(yy) && v == DigitsValue(yy) && v < 57
    ensures ParseInt(Century(v) + yy) == Some(Current.EpochYear(v))
  {
    TwentyValue();
    CenturyYear("20", yy, 20);
    assert Current.EpochYear(v) == 2000 + v;
  }

  /** Once `int(yy)` has read `v`, the rule reads the century text followed
      by `yy`. */
  lemma LegacyYearOf(yy: string, v: int)
    requires ParseInt(yy) == Some(v)
    ensures LegacyYear(yy) == ParseInt(Century(v) + yy)
  {
  }

  /** On a two-digit field the legacy year rule agrees with the current
      parser's pivot. */
  lemma LegacyYearAgrees(yy: string)
    requires |yy| == 2 && IsDigits(yy)
    ensures LegacyYear(yy) == Some(Current.EpochYear(DigitsValue(yy)))
  {
    var v := DigitsValue(yy);
    ParseIntDigits(yy);
    LegacyYearOf(yy, v);
    if v >= 57 { NineteenYear(yy, v); } else { TwentyYear(yy, v); }
  }

  /** The fields of one object as read from its element lines `tle1` and
      `tle2` (the source's `line2` and `line3`), angles in degrees and
      mean motion in revolutions per day. */
  datatype Fields = Fields(
    number: int,
    epochYear: int,
    epochDay: real,
    inclination: real,
    ascension: real,
    eccentricity: real,
    argument: real,
    meanMotion: real)

  /** The `int`/`float` conversions of one record, each raising ValueError
      on text it cannot read. */
  function ParseFields(tle1: string, tle2: string): (r: Result<Fields>)
    ensures r.Ok? <==> ParseInt(Slice(tle1, 2, 7)).Some? && LegacyYear(Slice(tle1, 18, 20)).Some?
                       && ParseFloat(Slice(tle1, 20, 32)).Some? && ParseFloat(Slice(tle2, 8, 16)).Some?
                       && ParseFloat(Slice(tle2, 17, 25)).Some? && ParseFloat("0." + Slice(tle2, 26, 33)).Some?
                       && ParseFloat(Slice(tle2, 34, 42)).Some? && ParseFloat(Slice(tle2, 52, 63)).Some?
    ensures r.Ok? ==> Some(r.value.number) == ParseInt(Slice(tle1, 2, 7))
    ensures r.Ok? ==> Some(r.value.epochYear) == LegacyYear(Slice(tle1, 18, 20))
    ensures r.Ok? ==> Some(r.value.epochDay) == ParseFloat(Slice(tle1, 20, 32))
    ensures r.Ok? ==> Some(r.value.inclination) == ParseFloat(Slice(tle2, 8, 16))
    ensures r.Ok? ==> Some(r.value.ascension) == ParseFloat(Slice(tle2, 17, 25))
    ensures r.Ok? ==> Some(r.value.eccentricity) == ParseFloat("0." + Slice(tle2, 26, 33))
    ensures r.Ok? ==> Some(r.value.argument) == ParseFloat(Slice(tle2, 34, 42))
    ensures r.Ok? ==> Some(r.value.meanMotion) == ParseFloat(Slice(tle2, 52, 63))
  {
    var number :- Need(ParseInt(Slice(tle1, 2, 7)), "ValueError");
    var year :- Need(LegacyYear(Slice(tle1, 18, 20)), "ValueError");
    var day :- Need(ParseFloat(Slice(tle1, 20, 32)), "ValueError");
    var inclination :- Need(ParseFloat(Slice(tle2, 8, 16)), "ValueError");
    var ascension :- Need(ParseFloat(Slice(tle2, 17, 25)), "ValueError");
    var eccentricity :- Need(ParseFloat("0." + Slice(tle2, 26, 33)), "ValueError");
    var argument :- Need(ParseFloat(Slice(tle2, 34, 42)), "ValueError");
    var meanMotion :- Need(ParseFloat(Slice(tle2, 52, 63)), "ValueError");
    Ok(Fields(number, year, day, inclination, ascension, eccentricity, argument, meanMotion))
  }

  /** The stored record: angles through `toRadians`, mean motion scaled,
      and the mean anomaly taken from the argument-of-perigee columns
      (`float(line3[34:42])` a second time: the same text, the same
      value). */
  function Converted(f: Fields, toRadians: real -> real): (r: Record)
    ensures r.number == f.number && r.epochYear == f.epochYear && r.epochDay == f.epochDay
    ensures r.eccentricity == f.eccentricity && r.meanAnomaly == r.argument
    ensures r.inclination == toRadians(f.inclination) && r.ascension == toRadians(f.ascension)
    ensures r.argument == toRadians(f.argument)
    ensures r.meanMotion == f.meanMotion * MeanMotionFactor
  {
    Record(f.number, f.epochYear, f.epochDay, toRadians(f.inclination), toRadians(f.ascension),
           f.eccentricity, toRadians(f.argument), toRadians(f.argument),
           f.meanMotion * MeanMotionFactor)
  }

  /** What a record read from element lines `tle1` and `tle2` holds: the
      catalog number, the year and the fractional day from line 1; the
      inclination, the node and the argument of perigee from line 2 in
      radians; the implied-decimal eccentricity; the mean anomaly read from
      the argument-of-perigee columns 35-42 as well; and the mean motion
      scaled from revolutions per day to radians per second. */
  ghost predicate RecordRead(tle1: string, tle2: string, r: Record) {
    && Some(r.number) == ParseInt(Slice(tle1, 2, 7))
    && Some(r.epochYear) == LegacyYear(Slice(tle1, 18, 20))
    && Some(r.epochDay) == ParseFloat(Slice(tle1, 20, 32))
    && Some(r.eccentricity) == ParseFloat("0." + Slice(tle2, 26, 33))
    && ParseFloat(Slice(tle2, 8, 16)).Some? && r.inclination == Radians(ParseFloat(Slice(tle2, 8, 16)).value)
    && ParseFloat(Slice(tle2, 17, 25)).Some? && r.ascension == Radians(ParseFloat(Slice(tle2, 17, 25)).value)
    && ParseFloat(Slice(tle2, 34, 42)).Some? && r.argument == Radians(ParseFloat(Slice(tle2, 34, 42)).value)
    && r.meanAnomaly == Radians(ParseFloat(Slice(tle2, 34, 42)).value)
    && ParseFloat(Slice(tle2, 52, 63)).Some? && r.meanMotion == ParseFloat(Slice(tle2, 52, 63)).value * MeanMotionFactor
  }

  /** The mean-motion factor turns one revolution per day into 2π radians
      per 86400 seconds, to within 1e-13 radians per day. */
  lemma MeanMotionFactorPerDay()
    ensures -0.0000000000001 < MeanMotionFactor * 86400.0 - 2.0 * Pi < 0.0
  {
  }

  /** One object's record as `load_data` builds it. */
  function ParseRecord(tle1: string, tle2: string): (r: Result<Record>)
    ensures r.Ok? <==> ParseFields(tle1, tle2).Ok?
    ensures r.Ok? ==> RecordRead(tle1, tle2, r.value)
  {
    var f :- ParseFields(tle1, tle2);
    Ok(Converted(f, Radians))
  }

  // ----------------------------------------------------------- many records

  /** The raw `[line1, line2, line3]` triples of the first ⌊|lines|/3⌋
      objects; one or two trailing lines are ignored. */
  function Triples(lines: seq<string>): (t: seq<seq<string>>)
    ensures |t| == |lines| / 3
    ensures forall i :: 0 <= i < |t| ==> t[i] == [lines[3 * i], lines[3 * i + 1], lines[3 * i + 2]]
  {
    seq(|lines| / 3, i requires 0 <= i < |lines| / 3 => [lines[3 * i], lines[3 * i + 1], lines[3 * i + 2]])
  }

  /** How the record loop ends after `k` passes: every record parsed, or
      the pass that raised and its exception. */
  datatype LoadOutcome = Loaded(records: seq<Record>) | FailedAt(index: nat, error: string)

  /** A parser of one object's two element lines. */
  type RecordParser = (string, string) -> Result<Record>

  function LoadRecords(lines: seq<string>, k: nat, parse: RecordParser): (o: LoadOutcome)
    requires 3 * k <= |lines|
    ensures o.Loaded? ==> |o.records| == k
    ensures o.FailedAt? ==> o.index < k
  {
    if k == 0 then Loaded([])
    else
      match LoadRecords(lines, k - 1, parse)
      case FailedAt(j, e) => FailedAt(j, e)
      case Loaded(rs) =>
        var j := k - 1;
        match parse(lines[3 * j + 1], lines[3 * j + 2])
        case Ok(rec) => Loaded(rs + [rec])
        case Err(e) => FailedAt(j, e)
  }

  /** A successful load parsed every object, each from its own triple. */
  lemma {:induction false} LoadedRecordsParse(lines: seq<string>, k: nat, parse: RecordParser)
    requires 3 * k <= |lines| && LoadRecords(lines, k, parse).Loaded?
    ensures forall i :: 0 <= i < k ==>
              parse(lines[3 * i + 1], lines[3 * i + 2]) == Ok(LoadRecords(lines, k, parse).records[i])
  {
    if k > 0 {
      LoadedRecordsParse(lines, k - 1, parse);
    }
  }

  /** A failed load stopped at the first object that does not parse: every
      object before it parsed and it raised the reported exception. */
  lemma {:induction false} FailedAtFirstBad(lines: seq<string>, k: nat, parse: RecordParser)
    requires 3 * k <= |lines| && LoadRecords(lines, k, parse).FailedAt?
    ensures var o := LoadRecords(lines, k, parse);
            parse(lines[3 * o.index + 1], lines[3 * o.index + 2]) == Err(o.error)
            && forall i :: 0 <= i < o.index ==> parse(lines[3 * i + 1], lines[3 * i + 2]).Ok?
  {
    var o := LoadRecords(lines, k, parse);
    var prev := LoadRecords(lines, k - 1, parse);
    if prev.FailedAt? {
      FailedAtFirstBad(lines, k - 1, parse);
      assert o == prev;
      assert parse(lines[3 * prev.index + 1], lines[3 * prev.index + 2]) == Err(prev.error);
    } else {
      LoadedRecordsParse(lines, k - 1, parse);
      assert o.index == k - 1;
      forall i | 0 <= i < o.index
        ensures parse(lines[3 * i + 1], lines[3 * i + 2]).Ok?
      {
        assert parse(lines[3 * i + 1], lines[3 * i + 2]) == Ok(prev.records[i]);
      }
    }
  }

  /** Once a record raised, the loop has stopped: later objects change
      nothing. */
  lemma {:induction false} LoadFailSticky(lines: seq<string>, k: nat, parse: RecordParser)
    requires 3 * k <= |lines| && LoadRecords(lines, k, parse).FailedAt?
    ensures LoadRecords(lines, |lines| / 3, parse) == LoadRecords(lines, k, parse)
    decreases |lines| - 3 * k
  {
    if k < |lines| / 3 {
      LoadFailSticky(lines, k + 1, parse);
    }
  }

  /** The columns `load_data` appends to `deconstructed_data`. */
  function Tabulate(triples: seq<seq<string>>, records: seq<Record>): (c: Columns)
    requires |triples| == |records|
    requires forall i :: 0 <= i < |triples| ==> |triples[i]| == 3
    ensures c.HasLength(|records|)
  {
    Columns(
      seq(|triples|, i requires 0 <= i < |triples| => triples[i][0]),
      seq(|records|, i requires 0 <= i < |records| => records[i].number),
      seq(|records|, i requires 0 <= i < |records| => records[i].epochYear),
      seq(|records|, i requires 0 <= i < |records| => records[i].epochDay),
      seq(|records|, i requires 0 <= i < |records| => records[i].inclination),
      seq(|records|, i requires 0 <= i < |records| => records[i].ascension),
      seq(|records|, i requires 0 <= i < |records| => records[i].eccentricity),
      seq(|records|, i requires 0 <= i < |records| => records[i].argument),
      seq(|records|, i requires 0 <= i < |records| => records[i].meanAnomaly),
      seq(|records|, i requires 0 <= i < |records| => records[i].meanMotion))
  }

  /** After a complete load by a parser that copies the argument of
      perigee into the mean anomaly, the two columns agree, and object i's
      name is the first line of its triple. */
  lemma {:induction false} LoadedColumnsBy(lines: seq<string>, parse: RecordParser)
    requires LoadRecords(lines, |lines| / 3, parse).Loaded?
    requires forall a, b :: parse(a, b).Ok? ==> parse(a, b).value.meanAnomaly == parse(a, b).value.argument
    ensures var c := Tabulate(Triples(lines), LoadRecords(lines, |lines| / 3, parse).records);
            c.meanAnomalies == c.arguments
            && forall i :: 0 <= i < |lines| / 3 ==> c.names[i] == lines[3 * i]
  {
    var rs := LoadRecords(lines, |lines| / 3, parse).records;
    LoadedRecordsParse(lines, |lines| / 3, parse);
    forall i | 0 <= i < |rs| ensures rs[i].meanAnomaly == rs[i].argument {
      assert parse(lines[3 * i + 1], lines[3 * i + 2]) == Ok(rs[i]);
    }
  }

  /** The same for `load_data`'s own parser. */
  lemma LoadedColumns(lines: seq<string>)
    requires LoadRecords(lines, |lines| / 3, ParseRecord).Loaded?
    ensures var c := Tabulate(Triples(lines), LoadRecords(lines, |lines| / 3, ParseRecord).records);
            c.meanAnomalies == c.arguments
            && forall i :: 0 <= i < |lines| / 3 ==> c.names[i] == lines[3 * i]
  {
    forall a, b | ParseRecord(a, b).Ok?
      ensures ParseRecord(a, b).value.meanAnomaly == ParseRecord(a, b).value.argument
    {
    }
    LoadedColumnsBy(lines, ParseRecord);
  }

  // -------------------------------------------------------- source files

  /** The lines the first `k` passes of `for i in range(len(urls))` collect:
      a toggle index past the end raises IndexError and a file that is not
      there FileNotFoundError.  `files` maps a file name inside the data
      directory to its `readlines()`. */
  function SelectedLines(urls: seq<string>, toggles: seq<bool>, files: map<string, seq<string>>, k: nat): Result<seq<string>>
    requires k <= |urls|
  {
    if k == 0 then Ok([])
    else
      var before :- SelectedLines(urls, toggles, files, k - 1);
      if k - 1 >= |toggles| then Err("IndexError")
      else if !toggles[k - 1] then Ok(before)
      else if FileNameUrl(urls[k - 1]) !in files then Err("FileNotFoundError")
      else Ok(before + files[FileNameUrl(urls[k - 1])])
  }

  /** Every source's lines, front to back. */
  function AllFiles(urls: seq<string>, files: map<string, seq<string>>): seq<string>
    requires forall u :: u in urls ==> FileNameUrl(u) in files
  {
    if urls == [] then [] else files[FileNameUrl(urls[0])] + AllFiles(urls[1..], files)
  }

  lemma {:induction false} AllFilesSnoc(urls: seq<string>, u: string, files: map<string, seq<string>>)
    requires forall v :: v in urls + [u] ==> FileNameUrl(v) in files
    ensures AllFiles(urls + [u], files) == AllFiles(urls, files) + files[FileNameUrl(u)]
  {
    if urls != [] {
      assert (urls + [u])[1..] == urls[1..] + [u];
      AllFilesSnoc(urls[1..], u, files);
    }
  }

  /** With every source toggled on and present, the load reads all the
      files in list order. */
  lemma {:induction false} SelectedAllOn(urls: seq<string>, toggles: seq<bool>, files: map<string, seq<string>>, k: nat)
    requires k <= |urls| && k <= |toggles|
    requires forall i :: 0 <= i < k ==> toggles[i]
    requires forall u :: u in urls ==> FileNameUrl(u) in files
    ensures SelectedLines(urls, toggles, files, k) == Ok(AllFiles(urls[..k], files))
  {
    if k > 0 {
      SelectedAllOn(urls, toggles, files, k - 1);
      assert urls[..k] == urls[..k - 1] + [urls[k - 1]];
      AllFilesSnoc(urls[..k - 1], urls[k - 1], files);
    } else {
      assert urls[..k] == [];
    }
  }

  /** Sources toggled off are not read, even when their file is missing. */
  lemma {:induction false} SelectedAllOff(urls: seq<string>, toggles: seq<bool>, files: map<string, seq<string>>, k: nat)
    requires k <= |urls| && k <= |toggles|
    requires forall i :: 0 <= i < k ==> !toggles[i]
    ensures SelectedLines(urls, toggles, files, k) == Ok([])
  {
    if k > 0 {
      SelectedAllOff(urls, toggles, files, k - 1);
    }
  }

  /** Once a pass raised, the loop has raised: later passes do not run. */
  lemma {:induction false} SelectedLinesErrSticky(urls: seq<string>, toggles: seq<bool>,
                                                  files: map<string, seq<string>>, k: nat, m: nat)
    requires k <= m <= |urls| && SelectedLines(urls, toggles, files, k).Err?
    ensures SelectedLines(urls, toggles, files, m) == SelectedLines(urls, toggles, files, k)
    decreases m
  {
    if m > k {
      SelectedLinesErrSticky(urls, toggles, files, k, m - 1);
    }
  }

  /** One `for i in range(len(urls))` loop of `load_data`. */
  method ReadToggled(urls: seq<string>, toggles: seq<bool>, files: map<string, seq<string>>)
    returns (r: Result<seq<string>>)
    ensures r == SelectedLines(urls, toggles, files, |urls|)
  {
    var lines: seq<string> := [];
    for i := 0 to |urls|
      invariant SelectedLines(urls, toggles, files, i) == Ok(lines)
    {
      if i >= |toggles| {
        SelectedLinesErrSticky(urls, toggles, files, i + 1, |urls|);
        return Err("IndexError");
      }
      if toggles[i] {
        var name := FileNameUrl(urls[i]);
        if name !in files {
          SelectedLinesErrSticky(urls, toggles, files, i + 1, |urls|);
          return Err("FileNotFoundError");
        }
        lines := lines + files[name];
      }
    }
    return Ok(lines);
  }

  /** The lines of the toggled default sources followed by those of the
      toggled supplementary sources. */
  function AllSelectedLines(defaultUrls: seq<string>, defaultToggles: seq<bool>,
                            suppUrls: seq<string>, suppToggles: seq<bool>,
                            files: map<string, seq<string>>): Result<seq<string>>
  {
    var a :- SelectedLines(defaultUrls, defaultToggles, files, |defaultUrls|);
    var b :- SelectedLines(suppUrls, suppToggles, files, |suppUrls|);
    Ok(a + b)
  }

  // ------------------------------------------------------------ __init__

  /** The defaulting at the head of `__init__`: absent supplementary URLs
      become [], absent default toggles all True, and absent supplementary
      toggles all True (or [] when there are no supplementary URLs). */
  function Defaults(defaultUrls: seq<string>, defaultToggles: Option<seq<bool>>,
                    suppUrls: Option<seq<string>>, suppToggles: Option<seq<bool>>)
    : (d: (seq<bool>, seq<string>, seq<bool>))
    ensures defaultToggles.Some? ==> d.0 == defaultToggles.value
    ensures defaultToggles.None? ==> |d.0| == |defaultUrls| && forall i :: 0 <= i < |d.0| ==> d.0[i]
    ensures d.1 == (if suppUrls.Some? then suppUrls.value else [])
    ensures suppToggles.Some? ==> d.2 == suppToggles.value
    ensures suppToggles.None? ==> |d.2| == |d.1| && forall i :: 0 <= i < |d.2| ==> d.2[i]
  {
    var supp := if suppUrls.None? then [] else suppUrls.value;
    var dt := if defaultToggles.None? then seq(|defaultUrls|, _ => true) else defaultToggles.value;
    var st := if suppToggles.None? then (if |supp| != 0 then seq(|supp|, _ => true) else [])
              else suppToggles.value;
    (dt, supp, st)
  }

  /** Left to their defaults, the toggles select every source. */
  lemma DefaultsSelectAll(defaultUrls: seq<string>, suppUrls: Option<seq<string>>, files: map<string, seq<string>>)
    requires forall u :: u in defaultUrls ==> FileNameUrl(u) in files
    requires suppUrls.Some? ==> forall u :: u in suppUrls.value ==> FileNameUrl(u) in files
    ensures var d := Defaults(defaultUrls, None, suppUrls, None);
            AllSelectedLines(defaultUrls, d.0, d.1, d.2, files)
              == Ok(AllFiles(defaultUrls, files) + AllFiles(d.1, files))
  {
    var d := Defaults(defaultUrls, None, suppUrls, None);
    SelectedAllOn(defaultUrls, d.0, files, |defaultUrls|);
    assert defaultUrls[..|defaultUrls|] == defaultUrls;
    SelectedAllOn(d.1, d.2, files, |d.1|);
    assert d.1[..|d.1|] == d.1;
  }

  // -------------------------------------------------------- search_index

  /** Does object `i` answer the query (`name == index_name or name ==
      index_number`)? */
  predicate Matches(c: Columns, i: nat, q: Query)
    requires i < |c.names| && i < |c.numbers|
  {
    match q
    case Text(s) => c.names[i] == s
    case Number(n) => c.numbers[i] == n
  }

  /** The first object from position `from` on that answers the query, or
      the count `n` when none does. */
  function FirstMatch(c: Columns, n: nat, q: Query, from: nat := 0): (k: nat)
    requires c.HasLength(n) && from <= n
    ensures from <= k <= n
    ensures forall j :: from <= j < k ==> !Matches(c, j, q)
    ensures k < n ==> Matches(c, k, q)
    decreases n - from
  {
    if from == n then n
    else if Matches(c, from, q) then from
    else FirstMatch(c, n, q, from + 1)
  }

  /** Stored names keep the newline `readlines` leaves on them, so a text
      query without a newline finds nothing when every name has one. */
  lemma TextQueryNeedsNewline(c: Columns, n: nat, s: string)
    requires c.HasLength(n)
    requires forall i :: 0 <= i < n ==> '\n' in c.names[i]
    requires '\n' !in s
    ensures FirstMatch(c, n, Text(s)) == n
  {
  }

  /** The first matching position is the one the scan stops at. */
  lemma FirstMatchIs(c: Columns, n: nat, q: Query, k: nat)
    requires c.HasLength(n) && k <= n
    requires forall j :: 0 <= j < k ==> !Matches(c, j, q)
    requires k < n ==> Matches(c, k, q)
    ensures FirstMatch(c, n, q) == k
  {
  }

  class TleDatabase {
    var defaultUrls: seq<string>
    var defaultToggles: seq<bool>
    var suppUrls: seq<string>
    var suppToggles: seq<bool>
    var dataPath: string
    /** `self.data`: the raw triple of each object. */
    var data: seq<seq<string>>
    /** `self.deconstructed_data`: None while it is the empty list. */
    var deconstructedData: Option<Columns>
    var nSatellites: nat

    /** Every stored raw entry is a [name, line 1, line 2] triple; after a
        complete load the raw triples and the ten columns all hold
        `n_satellites` objects. */
    predicate Valid()
      reads this
    {
      (forall i :: 0 <= i < |data| ==> |data[i]| == 3)
      && (deconstructedData.Some? ==> deconstructedData.value.HasLength(nSatellites) && |data| == nSatellites)
    }

    /** `__init__` up to its final `load_data()`, which is `LoadData`
        called next; the download step is not modelled. */
    constructor(dataPath: string, defaultUrls: seq<string>, defaultToggles: Option<seq<bool>>,
                suppUrls: Option<seq<string>>, suppToggles: Option<seq<bool>>)
      ensures var d := Defaults(defaultUrls, defaultToggles, suppUrls, suppToggles);
              this.defaultUrls == defaultUrls && this.defaultToggles == d.0
              && this.suppUrls == d.1 && this.suppToggles == d.2 && this.dataPath == dataPath
      ensures data == [] && deconstructedData == None && nSatellites == 0
      ensures Valid()
    {
      var d := Defaults(defaultUrls, defaultToggles, suppUrls, suppToggles);
      this.defaultUrls := defaultUrls;
      this.defaultToggles := d.0;
      this.suppUrls := d.1;
      this.suppToggles := d.2;
      this.dataPath := dataPath;
      data := [];
      deconstructedData := None;
      nSatellites := 0;
    }

    /** `load_data()`: the lines of the toggled sources are gathered (a
        missing toggle or file raises before anything is stored), then the
        records are stored as `StoreRecords` describes. */
    method LoadData(files: map<string, seq<string>>) returns (r: Result<()>)
      modifies this
      ensures defaultUrls == old(defaultUrls) && defaultToggles == old(defaultToggles)
      ensures suppUrls == old(suppUrls) && suppToggles == old(suppToggles) && dataPath == old(dataPath)
      ensures Valid()
      ensures var sel := AllSelectedLines(defaultUrls, defaultToggles, suppUrls, suppToggles, files);
              sel.Err? ==> r == Err(sel.error) && data == [] && deconstructedData == None
                           && nSatellites == old(nSatellites)
      ensures var sel := AllSelectedLines(defaultUrls, defaultToggles, suppUrls, suppToggles, files);
              sel.Ok? ==> Stored(sel.value, ParseRecord, r)
    {
      data := [];
      deconstructedData := None;
      var a := ReadToggled(defaultUrls, defaultToggles, files);
      if a.Err? {
        return Err(a.error);
      }
      var b := ReadToggled(suppUrls, suppToggles, files);
      if b.Err? {
        return Err(b.error);
      }
      r := StoreRecords(a.value + b.value, ParseRecord);
    }

    /** The state `load_data` leaves after reading `lines`: `n_satellites`
        is ⌊|lines|/3⌋; after a complete parse `data` holds every raw
        triple and `deconstructed_data` the ten columns; when record j
        raises, `data` holds the triples up to and including j (each is
        appended before it is parsed) and `deconstructed_data` stays
        empty. */
    ghost predicate Stored(lines: seq<string>, parse: RecordParser, r: Result<()>)
      reads this
    {
      nSatellites == |lines| / 3 &&
      match LoadRecords(lines, |lines| / 3, parse)
      case Loaded(records) =>
        r == Ok(()) && data == Triples(lines)
        && deconstructedData == Some(Tabulate(Triples(lines), records))
      case FailedAt(j, e) =>
        r == Err(e) && data == Triples(lines)[..j + 1] && deconstructedData == None
    }

    /** The record loop of `load_data`. */
    method StoreRecords(lines: seq<string>, parse: RecordParser) returns (r: Result<()>)
      requires data == [] && deconstructedData == None
      modifies this`data, this`deconstructedData, this`nSatellites
      ensures Stored(lines, parse, r) && Valid()
    {
      var n := |lines|;
      nSatellites := n / 3;
      var records: seq<Record> := [];
      for i := 0 to n / 3
        invariant nSatellites == n / 3 && deconstructedData == None
        invariant data == Triples(lines)[..i]
        invariant LoadRecords(lines, i, parse) == Loaded(records)
      {
        data := data + [[lines[3 * i], lines[3 * i + 1], lines[3 * i + 2]]];
        assert data == Triples(lines)[..i + 1];
        var rec := parse(lines[3 * i + 1], lines[3 * i + 2]);
        if rec.Err? {
          assert LoadRecords(lines, i + 1, parse) == FailedAt(i, rec.error);
          LoadFailSticky(lines, i + 1, parse);
          return Err(rec.error);
        }
        records := records + [rec.value];
      }
      assert Triples(lines)[..n / 3] == Triples(lines);
      deconstructedData := Some(Tabulate(Triples(lines), records));
      return Ok(());
    }

    /** `search_index(name)`: the first object whose name or number equals
        the query, `False` when none does; with `deconstructed_data` empty
        after a failed load, any object count above zero raises
        IndexError. */
    method SearchIndex(q: Query) returns (r: Result<SearchHit>)
      requires Valid()
      ensures deconstructedData.None? ==> r == (if nSatellites == 0 then Ok(Miss) else Err("IndexError"))
      ensures deconstructedData.Some? ==>
                var k := FirstMatch(deconstructedData.value, nSatellites, q);
                r == Ok(if k < nSatellites then Hit(k) else Miss)
    {
      if nSatellites == 0 {
        return Ok(Miss);
      }
      if deconstructedData.None? {
        return Err("IndexError");
      }
      var c := deconstructedData.value;
      for i := 0 to nSatellites
        invariant forall j :: 0 <= j < i ==> !Matches(c, j, q)
      {
        var found := match q
          case Text(s) => c.names[i] == s
          case Number(x) => c.numbers[i] == x;
        if found {
          FirstMatchIs(c, nSatellites, q, i);
          return Ok(Hit(i));
        }
      }
      FirstMatchIs(c, nSatellites, q, nSatellites);
      return Ok(Miss);
    }
  }
}
