/** The oldest catalog and time helpers (__classes.py): `NORAD_TLE_Database`
    reads one file of three-line records into ten parallel columns, and
    `Time_Manager` supplies the leap-year rule and a Julian date. */
module NoradClasses {
  import opened Wrappers
  import opened PyText
  import Legacy = SatTrackerDatabase
  import Current = TleDatabase
  import TimeManaging

  // ----------------------------------------------------------- one record

  /** `x * 2 * np.pi / 360`, this generation's degrees-to-radians step. */
  function Turns(degrees: real): (r: real)
    ensures r == Legacy.Radians(degrees)
  {
    degrees * 2.0 * Legacy.Pi / 360.0
  }

  /** One object's record as this generation's `load_data` builds it: the
      same conversions as in sat_tracker/database.py, with angles turned
      to radians by `Turns`. */
  function ParseNoradRecord(tle1: string, tle2: string): (r: Result<Legacy.Record>)
    ensures r.Ok? <==> Legacy.ParseFields(tle1, tle2).Ok?
    ensures r.Ok? ==> Legacy.RecordRead(tle1, tle2, r.value)
  {
    var f :- Legacy.ParseFields(tle1, tle2);
    ConvertedTurns(f);
    assert Legacy.ParseRecord(tle1, tle2) == Ok(Legacy.Converted(f, Turns));
    Ok(Legacy.Converted(f, Turns))
  }

  /** Converting with `Turns` gives the record `np.radians` gives. */
  lemma ConvertedTurns(f: Legacy.Fields)
    ensures Legacy.Converted(f, Turns) == Legacy.Converted(f, Legacy.Radians)
  {
    assert Turns(f.inclination) == Legacy.Radians(f.inclination);
    assert Turns(f.ascension) == Legacy.Radians(f.ascension);
    assert Turns(f.argument) == Legacy.Radians(f.argument);
  }

  /** Over exact reals this parser and the one of sat_tracker/database.py
      read every record alike. */
  lemma NoradParsersAgree(tle1: string, tle2: string)
    ensures ParseNoradRecord(tle1, tle2) == Legacy.ParseRecord(tle1, tle2)
  {
    var f := Legacy.ParseFields(tle1, tle2);
    if f.Ok? {
      ConvertedTurns(f.value);
    }
  }

  /** The record loop of `load_data`: it fills local lists only, so it is
      a computation over the lines. */
  method ParseAll(lines: seq<string>, parse: Legacy.RecordParser) returns (o: Legacy.LoadOutcome)
    ensures o == Legacy.LoadRecords(lines, |lines| / 3, parse)
  {
    var records: seq<Legacy.Record> := [];
    for i := 0 to |lines| / 3
      invariant Legacy.LoadRecords(lines, i, parse) == Legacy.Loaded(records)
    {
      var rec := parse(lines[3 * i + 1], lines[3 * i + 2]);
      if rec.Err? {
        Legacy.LoadFailSticky(lines, i + 1, parse);
        return Legacy.FailedAt(i, rec.error);
      }
      records := records + [rec.value];
    }
    return Legacy.Loaded(records);
  }

  // ------------------------------------------------------- search_index

  /** Does object `i` answer `name`: the lowercased query equals the
      lowercased stored name without its last character (the newline
      `readlines` leaves), or `str(number)` lowercased? */
  predicate NoradMatches(c: Legacy.Columns, i: nat, name: string)
    requires i < |c.names| && i < |c.numbers|
  {
    Lower(name) == NameKey(c.names[i]) || Lower(name) == NumberKey(c.numbers[i])
  }

  /** `index_name`: a stored name lowercased, its last character dropped. */
  function NameKey(stored: string): string {
    DropLast(Lower(stored), 1)
  }

  /** `index_number`: `str(number).lower()`. */
  function NumberKey(number: int): string {
    Lower(IntToStr(number))
  }

  /** The first object from position `from` on that answers `name`, or the
      count `n` when none does. */
  function FirstNoradMatch(c: Legacy.Columns, n: nat, name: string, from: nat := 0): (k: nat)
    requires c.HasLength(n) && from <= n
    ensures from <= k <= n
    ensures forall j :: from <= j < k ==> !NoradMatches(c, j, name)
    ensures k < n ==> NoradMatches(c, k, name)
    decreases n - from
  {
    if from == n then n
    else if NoradMatches(c, from, name) then from
    else FirstNoradMatch(c, n, name, from + 1)
  }

  lemma FirstNoradMatchIs(c: Legacy.Columns, n: nat, name: string, k: nat)
    requires c.HasLength(n) && k <= n
    requires forall j :: 0 <= j < k ==> !NoradMatches(c, j, name)
    requires k < n ==> NoradMatches(c, k, name)
    ensures FirstNoradMatch(c, n, name) == k
  {
  }

  lemma LowerTwice(s: string)
    ensures Lower(Lower(s)) == Lower(s)
  {
  }

  lemma LowerAppend(a: string, b: string)
    ensures Lower(a + b) == Lower(a) + Lower(b)
  {
  }

  /** The search ignores case: a query finds what its lowercase form
      finds. */
  lemma {:induction false} SearchIgnoresCase(c: Legacy.Columns, n: nat, name: string, from: nat)
    requires c.HasLength(n) && from <= n
    ensures FirstNoradMatch(c, n, name, from) == FirstNoradMatch(c, n, Lower(name), from)
    decreases n - from
  {
    LowerTwice(name);
    if from < n {
      SearchIgnoresCase(c, n, name, from + 1);
    }
  }

  /** A name stored as `t` plus the newline is found by `t`, at that
      object or an earlier one. */
  lemma NameFoundWithoutNewline(c: Legacy.Columns, n: nat, i: nat, t: string)
    requires c.HasLength(n) && i < n && c.names[i] == t + "\n"
    ensures FirstNoradMatch(c, n, t) <= i
  {
    LowerAppend(t, "\n");
    assert Lower("\n") == "\n";
    assert DropLast(Lower(c.names[i]), 1) == Lower(t);
    assert NoradMatches(c, i, t);
  }

  /** An object is also found by the decimal spelling of its number. */
  lemma NumberFound(c: Legacy.Columns, n: nat, i: nat)
    requires c.HasLength(n) && i < n
    ensures FirstNoradMatch(c, n, IntToStr(c.numbers[i])) <= i
  {
    assert NoradMatches(c, i, IntToStr(c.numbers[i]));
  }

  class NoradTleDatabase {
    var filename: string
    /** `self.data`: the column tables appended by each `load_data`. */
    var data: seq<Legacy.Columns>
    var nSatellites: nat

    /** Every appended table has ten columns of one length. */
    predicate Valid()
      reads this
    {
      forall t :: t in data ==> t.HasLength(|t.names|)
    }

    /** `__init__` up to its final `load_data(filename)`, which is
        `LoadData` called next; the download step is not modelled. */
    constructor(filename: string)
      ensures this.filename == filename && data == [] && nSatellites == 0 && Valid()
    {
      this.filename := filename;
      data := [];
      nSatellites := 0;
    }

    /** `load_data(filename)`: a file missing from the data directory fails
        the `assert`; otherwise `n_satellites` becomes ⌊|lines|/3⌋ and, when
        every record parses, one table of ten columns is appended to
        `data`.  A record that raises leaves `data` as it was, since the
        columns are local until the end. */
    method LoadData(filename: string, files: map<string, seq<string>>) returns (r: Result<()>)
      requires Valid()
      modifies this`data, this`nSatellites
      ensures Valid()
      ensures filename !in files ==>
                r == Err("AssertionError") && data == old(data) && nSatellites == old(nSatellites)
      ensures filename in files ==>
                var lines := files[filename];
                nSatellites == |lines| / 3 &&
                match Legacy.LoadRecords(lines, |lines| / 3, ParseNoradRecord)
                case Loaded(records) =>
                  r == Ok(()) && data == old(data) + [Legacy.Tabulate(Legacy.Triples(lines), records)]
                case FailedAt(_, e) => r == Err(e) && data == old(data)
    {
      if filename !in files {
        return Err("AssertionError");
      }
      var lines := files[filename];
      nSatellites := |lines| / 3;
      var o := ParseAll(lines, ParseNoradRecord);
      if o.FailedAt? {
        return Err(o.error);
      }
      var table := Legacy.Tabulate(Legacy.Triples(lines), o.records);
      data := data + [table];
      return Ok(());
    }

    /** `search_index(name)`: the first object of the first table that
        answers `name` ignoring case, `False` when none does; with no table
        loaded `self.data[0]` raises IndexError. */
    method SearchIndex(name: string) returns (r: Result<Legacy.SearchHit>)
      requires Valid()
      ensures data == [] ==> r == Err("IndexError")
      ensures data != [] ==>
                var k := FirstNoradMatch(data[0], |data[0].names|, name);
                r == Ok(if k < |data[0].names| then Legacy.Hit(k) else Legacy.Miss)
    {
      if data == [] {
        return Err("IndexError");
      }
      var c := data[0];
      assert c in data;
      var n := |c.names|;
      var q := Lower(name);
      for i := 0 to n
        invariant forall j :: 0 <= j < i ==> !NoradMatches(c, j, name)
      {
        var indexName := NameKey(c.names[i]);
        var indexNumber := NumberKey(c.numbers[i]);
        if q == indexName || q == indexNumber {
          FirstNoradMatchIs(c, n, name, i);
          return Ok(Legacy.Hit(i));
        }
      }
      FirstNoradMatchIs(c, n, name, n);
      return Ok(Legacy.Miss);
    }
  }

  /** After a complete load the mean-anomaly column repeats the
      argument-of-perigee column and names are the raw first lines. */
  lemma NoradLoadedColumns(lines: seq<string>)
    requires Legacy.LoadRecords(lines, |lines| / 3, ParseNoradRecord).Loaded?
    ensures var c := Legacy.Tabulate(Legacy.Triples(lines),
                                     Legacy.LoadRecords(lines, |lines| / 3, ParseNoradRecord).records);
            c.HasLength(|lines| / 3) && c.meanAnomalies == c.arguments
            && forall i :: 0 <= i < |lines| / 3 ==> c.names[i] == lines[3 * i]
  {
    forall a, b | ParseNoradRecord(a, b).Ok?
      ensures ParseNoradRecord(a, b).value.meanAnomaly == ParseNoradRecord(a, b).value.argument
    {
    }
    Legacy.LoadedColumnsBy(lines, ParseNoradRecord);
  }

  // -------------------------------------------------------- Time_Manager

  /** `is_leap(year)`. */
  predicate IsLeap(year: int) {
    if year % 4 == 0 && year % 100 != 0 then true
    else if year % 400 == 0 then true
    else false
  }

  /** How the floor quotients by 4, 100 and 400 step from `year - 1` to
      `year`, and how the divisibilities nest. */
  lemma CenturySteps(year: int)
    ensures year / 4 - (year - 1) / 4 == if year % 4 == 0 then 1 else 0
    ensures year / 100 - (year - 1) / 100 == if year % 100 == 0 then 1 else 0
    ensures year / 400 - (year - 1) / 400 == if year % 400 == 0 then 1 else 0
    ensures year % 100 == 0 ==> year % 4 == 0
    ensures year % 400 == 0 ==> year % 100 == 0
  {
  }

  /** `is_leap` agrees with the proleptic Gregorian calendar that
      `datetime` counts in: a year has 366 days exactly when it is leap. */
  lemma IsLeapYearLength(year: int)
    ensures Current.DaysBeforeYear(year + 1) - Current.DaysBeforeYear(year)
            == if IsLeap(year) then 366 else 365
  {
    CenturySteps(year);
  }

  lemma IsLeapExamples()
    ensures IsLeap(2000) && IsLeap(2024) && !IsLeap(1900) && !IsLeap(2023)
  {
  }

  /** `datetime(2000, 1, 1, 12)` as a UTC timestamp: the days from
      1970-01-01 to 2000-01-01, plus half a day. */
  const JulianEpochTimestamp: real :=
    ((Current.DaysBeforeYear(2000) - Current.DaysBeforeYear(1970)) * 86400 + 12 * 3600) as real

  /** `julian_date(epoch)`. */
  function JulianDate(epoch: real): real {
    (epoch - JulianEpochTimestamp + 2451545.0 * 86400.0) / 86400.0
  }

  /** This Julian date is the one of sat_tracker/time_managing.py: the
      J2000 anchor is 946728000 s after the UNIX epoch. */
  lemma JulianDateAgrees(epoch: real)
    ensures JulianEpochTimestamp == 946728000.0
    ensures JulianDate(epoch) == TimeManaging.JulianDate(epoch)
    ensures JulianDate(JulianEpochTimestamp) == 2451545.0
  {
    assert Current.DaysBeforeYear(2000) - Current.DaysBeforeYear(1970) == 10957;
  }
}
