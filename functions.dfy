/** The helper functions of the first tracker generation (__functions.py):
    angles from degrees, minutes and seconds, the degree/radian
    conversions, and the parser of "43°33'45\"N 1°28'09\"E 166m" style
    coordinates. Reals are exact; `np.pi` is the double nearest to pi. */
module Functions {
  import opened Wrappers
  import PyText
  import SatTrackerDatabase

  /** The degree sign the coordinate text uses. */
  const Degree: char := '\U{00B0}'

  /** `angle(degrees, minutes, seconds)` in degrees. */
  function Angle(degrees: real, minutes: real, seconds: real): real {
    degrees + minutes / 60.0 + seconds / 3600.0
  }

  /** `degrees2radians(angle)`. */
  function DegreesToRadians(a: real): real {
    (2.0 * SatTrackerDatabase.Pi * a) / 360.0
  }

  /** `radians2degrees(angle)`. */
  function RadiansToDegrees(a: real): real {
    360.0 * a / (2.0 * SatTrackerDatabase.Pi)
  }

  /** An angle counts sixty minutes to the degree and sixty seconds to the
      minute; with minutes and seconds below 60 it stays below the next
      whole degree. */
  lemma AngleSexagesimal(d: real, m: real, s: real)
    ensures Angle(d, m, s) * 3600.0 == d * 3600.0 + m * 60.0 + s
    ensures 0.0 <= m && 0.0 <= s && m * 60.0 + s < 3600.0 ==> d <= Angle(d, m, s) < d + 1.0
    ensures Angle(d, 60.0, 0.0) == Angle(d + 1.0, 0.0, 0.0) && Angle(d, m, 60.0) == Angle(d, m + 1.0, 0.0)
  {
  }

  /** The two conversions are inverse to each other, and half a turn is pi
      radians. */
  lemma RadiansRoundTrip(x: real)
    ensures RadiansToDegrees(DegreesToRadians(x)) == x
    ensures DegreesToRadians(RadiansToDegrees(x)) == x
    ensures DegreesToRadians(180.0) == SatTrackerDatabase.Pi
  {
  }

  // ---------------------------------------------------- str_to_float_list

  /** `float()` of every field, or `None` if any field is not a float. */
  function FloatsOf(parts: seq<string>): Option<seq<real>> {
    if forall i :: 0 <= i < |parts| ==> PyText.ParseFloat(parts[i]).Some? then
      Some(seq(|parts|, i requires 0 <= i < |parts| => PyText.ParseFloat(parts[i]).value))
    else None
  }

  /** `str_to_float_list(string)`: splits on single spaces, then converts
      the fields. */
  method StrToFloatList(s: string) returns (r: Result<seq<real>>)
    ensures r.Ok? <==> FloatsOf(PyText.SplitOn(s, ' ')).Some?
    ensures r.Ok? ==> r.value == FloatsOf(PyText.SplitOn(s, ' ')).value
    ensures r.Err? ==> r.error == "ValueError"
  {
    r := FloatFields(PyText.SplitOn(s, ' '));
  }

  /** The loop of `str_to_float_list`: overwrites each field with its
      `float()`, in order; ValueError at the first field that is not a
      float. */
  method FloatFields(fields: seq<string>) returns (r: Result<seq<real>>)
    ensures r.Ok? <==> FloatsOf(fields).Some?
    ensures r.Ok? ==> r.value == FloatsOf(fields).value
    ensures r.Err? ==> r.error == "ValueError"
  {
    var n := |fields|;
    var values := new real[n];
    for i := 0 to n
      invariant forall j :: 0 <= j < i ==> PyText.ParseFloat(fields[j]) == Some(values[j])
    {
      ghost var before := values[..i];
      var v := PyText.ParseFloat(fields[i]);
      if v.None? {
        return Err("ValueError");
      }
      values[i] := v.value;
      assert values[..i] == before;
    }
    assert values[..] == FloatsOf(fields).value;
    return Ok(values[..]);
  }

  // ------------------------------------------------------ geo_coordinates

  /** The three `replace` calls that turn the degree, minute and second
      marks into spaces. */
  function Unmark(token: string): string {
    PyText.ReplaceChar(PyText.ReplaceChar(PyText.ReplaceChar(token, Degree, ' '), '\'', ' '), '"', ' ')
  }

  /** One angle token in radians: negated iff its last character is
      `negative`; the text before the last two characters is split on
      single spaces and its first three fields are degrees, minutes and
      seconds. ValueError for a field that is not a float, IndexError for
      fewer than three fields or an empty token. */
  function TokenAngle(token: string, negative: char): Result<real> {
    var t := Unmark(token);
    if |t| == 0 then Err("IndexError")
    else
      var sign := if t[|t| - 1] == negative then -1.0 else 1.0;
      var values :- Need(FloatsOf(PyText.SplitOn(PyText.DropLast(t, 2), ' ')), "ValueError");
      if |values| < 3 then Err("IndexError")
      else Ok(Signed(sign, values))
  }

  /** The first three values as degrees, minutes and seconds, converted
      to radians and multiplied by `sign`. */
  function Signed(sign: real, values: seq<real>): real
    requires |values| >= 3
  {
    sign * DegreesToRadians(Angle(values[0], values[1], values[2]))
  }

  /** `geo_coordinates(coords)`: exactly three whitespace-separated tokens
      (else ValueError from the unpacking); the elevation is the third
      token without its last (unit) character; the first value comes from
      the first token, negated for 'S', the second from the second token,
      negated for 'W'. */
  function GeoSpec(coords: string): Result<(real, real, real)> {
    var tokens := PyText.SplitWs(coords);
    if |tokens| != 3 then Err("ValueError")
    else
      var elevation :- Need(PyText.ParseFloat(PyText.DropLast(tokens[2], 1)), "ValueError");
      var first :- TokenAngle(tokens[0], 'S');
      var second :- TokenAngle(tokens[1], 'W');
      Ok((first, second, elevation))
  }

  /** The angle of one token, step by step as `geo_coordinates` does it. */
  method AngleOfToken(token: string, negative: char) returns (r: Result<real>)
    ensures r == TokenAngle(token, negative)
  {
    var t := PyText.ReplaceChar(token, Degree, ' ');
    t := PyText.ReplaceChar(t, '\'', ' ');
    t := PyText.ReplaceChar(t, '"', ' ');
    assert t == Unmark(token);
    if |t| == 0 {
      assert TokenAngle(token, negative) == Err("IndexError");
      return Err("IndexError");
    }
    var sign := if t[|t| - 1] == negative then -1.0 else 1.0;
    var values := StrToFloatList(PyText.DropLast(t, 2));
    ghost var floats := FloatsOf(PyText.SplitOn(PyText.DropLast(t, 2), ' '));
    if values.Err? {
      assert floats.None?;
      assert TokenAngle(token, negative) == Err("ValueError");
      return Err(values.error);
    }
    assert floats == Some(values.value);
    var v := values.value;
    if |v| < 3 {
      assert TokenAngle(token, negative) == Err("IndexError");
      return Err("IndexError");
    }
    return Ok(Signed(sign, v));
  }

  /** `geo_coordinates(coords)`. */
  method GeoCoordinates(coords: string) returns (r: Result<(real, real, real)>)
    ensures r == GeoSpec(coords)
  {
    var tokens := PyText.SplitWs(coords);
    if |tokens| != 3 {
      return Err("ValueError");
    }
    var elevation := PyText.ParseFloat(PyText.DropLast(tokens[2], 1));
    if elevation.None? {
      return Err("ValueError");
    }
    var first := AngleOfToken(tokens[0], 'S');
    if first.Err? {
      return Err(first.error);
    }
    var second := AngleOfToken(tokens[1], 'W');
    if second.Err? {
      return Err(second.error);
    }
    return Ok((first.value, second.value, elevation.value));
  }

  /** Anything but three tokens is refused. */
  lemma GeoNeedsThreeTokens(coords: string)
    requires GeoSpec(coords).Ok?
    ensures |PyText.SplitWs(coords)| == 3
  {
  }

  // ------------------------------------------------- the documented format

  /** A token such as 43°33'45"N: digit fields and a hemisphere letter. */
  datatype Dms = Dms(degrees: string, minutes: string, seconds: string, hemisphere: char)

  predicate WellFormed(x: Dms) {
    PyText.IsDigits(x.degrees) && PyText.IsDigits(x.minutes) && PyText.IsDigits(x.seconds)
    && !PyText.IsSpace(x.hemisphere) && x.hemisphere !in {Degree, '\'', '"'}
  }

  function DmsText(x: Dms): string {
    x.degrees + [Degree] + x.minutes + ['\''] + x.seconds + ['"'] + [x.hemisphere]
  }

  /** The angle such a token stands for, in degrees. */
  function DmsDegrees(x: Dms): real
    requires WellFormed(x)
  {
    Angle(PyText.DigitsValue(x.degrees) as real, PyText.DigitsValue(x.minutes) as real,
          PyText.DigitsValue(x.seconds) as real)
  }

  /** A digit string has no mark and no space in it. */
  lemma DigitsUnmarked(d: string)
    requires PyText.IsDigits(d)
    ensures Unmark(d) == d && PyText.NoSpace(d) && ' ' !in d
  {
    assert Degree !in d && '\'' !in d && '"' !in d;
    PyText.ReplaceCharAbsent(d, Degree, ' ');
    PyText.ReplaceCharAbsent(d, '\'', ' ');
    PyText.ReplaceCharAbsent(d, '"', ' ');
  }

  /** `float()` of a digit string is its value. */
  lemma DigitsFloat(d: string)
    requires PyText.IsDigits(d)
    ensures PyText.ParseFloat(d) == Some(PyText.DigitsValue(d) as real)
  {
    DigitsUnmarked(d);
    PyText.UnsignedFloat(d);
    PyText.NoExponent(d);
    PyText.MantissaOnly(d);
    assert PyText.IndexOf2(d, '.', '.') == |d|;
  }

  /** The marks of a well-formed token become spaces and nothing else
      changes. */
  lemma UnmarkDms(x: Dms)
    requires WellFormed(x)
    ensures Unmark(DmsText(x)) == x.degrees + " " + x.minutes + " " + x.seconds + " " + [x.hemisphere]
  {
    var t := DmsText(x);
    var u := x.degrees + " " + x.minutes + " " + x.seconds + " " + [x.hemisphere];
    DigitsUnmarked(x.degrees);
    DigitsUnmarked(x.minutes);
    DigitsUnmarked(x.seconds);
    var a, b, c := |x.degrees|, |x.degrees| + 1 + |x.minutes|, |x.degrees| + 1 + |x.minutes| + 1 + |x.seconds|;
    assert |Unmark(t)| == |u|;
    forall i | 0 <= i < |u| ensures Unmark(t)[i] == u[i] {
      if i < a {
        assert t[i] == x.degrees[i] && u[i] == x.degrees[i];
        assert x.degrees[i] in x.degrees;
      } else if i == a {
        assert t[i] == Degree;
      } else if i < b {
        assert t[i] == x.minutes[i - a - 1] && u[i] == x.minutes[i - a - 1];
        assert x.minutes[i - a - 1] in x.minutes;
      } else if i == b {
        assert t[i] == '\'';
      } else if i < c {
        assert t[i] == x.seconds[i - b - 1] && u[i] == x.seconds[i - b - 1];
        assert x.seconds[i - b - 1] in x.seconds;
      } else if i == c {
        assert t[i] == '"';
      } else {
        assert t[i] == x.hemisphere;
      }
    }
  }

  /** The values a well-formed token's digit fields stand for. */
  function DmsValues(x: Dms): seq<real> {
    [PyText.DigitsValue(x.degrees) as real, PyText.DigitsValue(x.minutes) as real,
     PyText.DigitsValue(x.seconds) as real]
  }

  /** With its marks turned into spaces and its last two characters
      dropped, a well-formed token splits into its three digit fields. */
  lemma DmsFields(x: Dms)
    requires WellFormed(x)
    ensures PyText.SplitOn(PyText.DropLast(Unmark(DmsText(x)), 2), ' ') == [x.degrees, x.minutes, x.seconds]
  {
    UnmarkDms(x);
    var t := Unmark(DmsText(x));
    var body := x.degrees + " " + x.minutes + " " + x.seconds;
    assert t == body + " " + [x.hemisphere];
    assert PyText.DropLast(t, 2) == body;
    DigitsUnmarked(x.degrees);
    DigitsUnmarked(x.minutes);
    DigitsUnmarked(x.seconds);
    assert body == x.degrees + [' '] + (x.minutes + [' '] + x.seconds);
    PyText.SplitOnFirst(x.degrees, ' ', x.minutes + [' '] + x.seconds);
    PyText.SplitOnFirst(x.minutes, ' ', x.seconds);
    PyText.SplitOnNoSep(x.seconds, ' ');
    ThreeItems(x.degrees, x.minutes, x.seconds);
  }

  /** Fields that all convert give the list of their values. */
  lemma FloatsOfAll(parts: seq<string>, values: seq<real>)
    requires |parts| == |values|
    requires forall i :: 0 <= i < |parts| ==> PyText.ParseFloat(parts[i]) == Some(values[i])
    ensures FloatsOf(parts) == Some(values)
  {
    assert FloatsOf(parts).value == values;
  }

  /** The three digit fields convert to their values. */
  lemma DmsFloats(x: Dms)
    requires WellFormed(x)
    ensures FloatsOf([x.degrees, x.minutes, x.seconds]) == Some(DmsValues(x))
  {
    var f, v := [x.degrees, x.minutes, x.seconds], DmsValues(x);
    DigitsFloat(x.degrees);
    DigitsFloat(x.minutes);
    DigitsFloat(x.seconds);
    forall i | 0 <= i < 3 ensures PyText.ParseFloat(f[i]) == Some(v[i]) {
      if i == 0 { assert f[i] == x.degrees; }
      else if i == 1 { assert f[i] == x.minutes; }
      else { assert f[i] == x.seconds; }
    }
    FloatsOfAll(f, v);
  }

  /** A sign of -1 negates the converted angle and a sign of 1 keeps it. */
  lemma SignedSign(negate: bool, v: seq<real>, degrees: real)
    requires |v| >= 3 && degrees == Angle(v[0], v[1], v[2])
    ensures Signed(if negate then -1.0 else 1.0, v)
            == if negate then -DegreesToRadians(degrees) else DegreesToRadians(degrees)
  {
  }

  /** A well-formed token reads as its angle in radians, negated exactly
      when its hemisphere letter is `negative`. */
  lemma TokenAngleDms(x: Dms, negative: char)
    requires WellFormed(x)
    ensures TokenAngle(DmsText(x), negative)
            == Ok(if x.hemisphere == negative then -DegreesToRadians(DmsDegrees(x)) else DegreesToRadians(DmsDegrees(x)))
  {
    var t := Unmark(DmsText(x));
    assert t[|t| - 1] == x.hemisphere;
    DmsFields(x);
    DmsFloats(x);
    var v := DmsValues(x);
    assert TokenAngle(DmsText(x), negative) == Ok(Signed(if x.hemisphere == negative then -1.0 else 1.0, v));
    SignedSign(x.hemisphere == negative, v, DmsDegrees(x));
    var r := if x.hemisphere == negative then -DegreesToRadians(DmsDegrees(x)) else DegreesToRadians(DmsDegrees(x));
    assert Signed(if x.hemisphere == negative then -1.0 else 1.0, v) == r;
    assert TokenAngle(DmsText(x), negative) == Ok(r);
  }

  /** A single token with no whitespace in it splits into itself. */
  lemma SplitWsOne(c: string)
    requires c != [] && PyText.NoSpace(c)
    ensures PyText.SplitWs(c) == [c]
  {
    PyText.LStripKeep(c);
    PyText.WordOfNoSpace(c, []);
    assert c + [] == c;
    assert c[|c|..] == [];
    assert PyText.SplitWs([]) == [];
  }

  /** Text that starts with a whitespace-free token and a space splits
      into that token and the split of the rest. */
  lemma SplitWsCons(s: string, p: string, q: string)
    requires s == p + [' '] + q && p != [] && PyText.NoSpace(p)
    ensures PyText.SplitWs(s) == [p] + PyText.SplitWs(q)
  {
    PyText.SplitWsFirstWord(p, ' ', q);
  }

  lemma ThreeItems<T>(a: T, b: T, c: T)
    ensures [a] + ([b] + [c]) == [a, b, c]
  {
  }

  /** Three tokens without whitespace, joined by single spaces, split back
      into those three tokens. */
  lemma SplitWsThree(a: string, b: string, c: string)
    requires a != [] && b != [] && c != []
    requires PyText.NoSpace(a) && PyText.NoSpace(b) && PyText.NoSpace(c)
    ensures PyText.SplitWs(a + " " + b + " " + c) == [a, b, c]
  {
    SplitWsCons(a + " " + b + " " + c, a, b + " " + c);
    SplitWsCons(b + " " + c, b, c);
    SplitWsOne(c);
    ThreeItems(a, b, c);
  }

  lemma DmsNoSpace(x: Dms)
    requires WellFormed(x)
    ensures PyText.NoSpace(DmsText(x)) && DmsText(x) != []
  {
    DigitsUnmarked(x.degrees);
    DigitsUnmarked(x.minutes);
    DigitsUnmarked(x.seconds);
    var t := DmsText(x);
    forall i | 0 <= i < |t| ensures !PyText.IsSpace(t[i]) {
      var a, b, c := |x.degrees|, |x.degrees| + 1 + |x.minutes|, |x.degrees| + 1 + |x.minutes| + 1 + |x.seconds|;
      if i < a { assert t[i] == x.degrees[i]; }
      else if a < i < b { assert t[i] == x.minutes[i - a - 1]; }
      else if b < i < c { assert t[i] == x.seconds[i - b - 1]; }
    }
  }

  /** The documented format: the first value is the first token's angle in
      radians (negative for 'S'), the second the second token's (negative
      for 'W'), and the elevation the third token's number without its unit
      letter. */
  lemma GeoOfDocumentedFormat(first: Dms, second: Dms, elevation: string, unit: char)
    requires WellFormed(first) && WellFormed(second)
    requires PyText.IsDigits(elevation) && !PyText.IsSpace(unit)
    ensures GeoSpec(DmsText(first) + " " + DmsText(second) + " " + elevation + [unit])
            == Ok((if first.hemisphere == 'S' then -DegreesToRadians(DmsDegrees(first)) else DegreesToRadians(DmsDegrees(first)),
                   if second.hemisphere == 'W' then -DegreesToRadians(DmsDegrees(second)) else DegreesToRadians(DmsDegrees(second)),
                   PyText.DigitsValue(elevation) as real))
  {
    var a, b, e := DmsText(first), DmsText(second), elevation + [unit];
    assert a + " " + b + " " + elevation + [unit] == a + " " + b + " " + e;
    DmsNoSpace(first);
    DmsNoSpace(second);
    DigitsUnmarked(elevation);
    assert PyText.NoSpace(e);
    SplitWsThree(a, b, e);
    assert PyText.DropLast(e, 1) == elevation;
    DigitsFloat(elevation);
    TokenAngleDms(first, 'S');
    TokenAngleDms(second, 'W');
    var r1 := if first.hemisphere == 'S' then -DegreesToRadians(DmsDegrees(first)) else DegreesToRadians(DmsDegrees(first));
    var r2 := if second.hemisphere == 'W' then -DegreesToRadians(DmsDegrees(second)) else DegreesToRadians(DmsDegrees(second));
    assert TokenAngle(a, 'S') == Ok(r1);
    assert TokenAngle(b, 'W') == Ok(r2);
    assert GeoSpec(a + " " + b + " " + e) == Ok((r1, r2, PyText.DigitsValue(elevation) as real));
  }
}
