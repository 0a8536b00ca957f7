/** The Python string built-ins the parsers of the repository lean on:
    `strip()`, `split()`, `split(c)`, slicing, `replace`, `lower()`,
    `int()`, `float()`, `str()` and the `in` substring test.  Each is
    written out here with the edge cases Python gives it (slices never
    raise, `split(c)` keeps empty fields, `int()` accepts surrounding
    whitespace and a sign), so that the parsers' error paths follow. */
module PyText {
  import opened Wrappers

  // ---------------------------------------------------------------- whitespace

  /** `str.isspace()` restricted to the ASCII range. */
  predicate IsSpace(c: char) {
    c == ' ' || c == '\t' || c == '\n' || c == '\r' || c == '\U{000B}' || c == '\U{000C}'
    || ('\U{001C}' <= c <= '\U{001F}')
  }

  predicate NoSpace(t: string) {
    forall i :: 0 <= i < |t| ==> !IsSpace(t[i])
  }

  /** `s.lstrip()`: the removed prefix is all whitespace and what remains
      does not start with whitespace. */
  function LStrip(s: string): (r: string)
    ensures |r| <= |s| && r == s[|s| - |r|..]
    ensures r == [] || !IsSpace(r[0])
    ensures forall i :: 0 <= i < |s| - |r| ==> IsSpace(s[i])
  {
    if s != [] && IsSpace(s[0]) then LStrip(s[1..]) else s
  }

  /** `s.rstrip()`: the removed suffix is all whitespace and what remains
      does not end with whitespace. */
  function RStrip(s: string): (r: string)
    ensures |r| <= |s| && r == s[..|r|]
    ensures r == [] || !IsSpace(r[|r| - 1])
    ensures forall i :: |r| <= i < |s| ==> IsSpace(s[i])
  {
    if s != [] && IsSpace(s[|s| - 1]) then RStrip(s[..|s| - 1]) else s
  }

  /** `s.strip()`. */
  function Strip(s: string): string {
    RStrip(LStrip(s))
  }

  lemma StripNoSpace(s: string)
    requires NoSpace(s)
    ensures Strip(s) == s
  {
  }

  /** The leading run of non-whitespace characters of `s`. */
  function Word(s: string): (w: string)
    ensures |w| <= |s| && w == s[..|w|] && NoSpace(w)
    ensures |w| == |s| || IsSpace(s[|w|])
  {
    if s == [] || IsSpace(s[0]) then [] else [s[0]] + Word(s[1..])
  }

  /** `s.split()` with no argument: the maximal runs of non-whitespace. */
  function SplitWs(s: string): (r: seq<string>)
    ensures Words(r)
    decreases |s|
  {
    var t := LStrip(s);
    if t == [] then [] else
    var w := Word(t);
    assert w != [];
    var rest := SplitWs(t[|w|..]);
    assert Words([w] + rest) by {
      forall i | 0 <= i < |[w] + rest| ensures ([w] + rest)[i] != [] && NoSpace(([w] + rest)[i]) {
        if i > 0 { assert ([w] + rest)[i] == rest[i - 1]; }
      }
    }
    [w] + rest
  }

  /** Every field is a non-empty run of non-whitespace characters. */
  predicate Words(r: seq<string>) {
    forall i :: 0 <= i < |r| ==> r[i] != [] && NoSpace(r[i])
  }

  lemma {:induction false} WordOfNoSpace(p: string, q: string)
    requires NoSpace(p)
    requires q == [] || IsSpace(q[0])
    ensures Word(p + q) == p
  {
    if p != [] {
      assert (p + q)[1..] == p[1..] + q;
      WordOfNoSpace(p[1..], q);
    }
  }

  lemma {:induction false} SplitWsAllSpace(s: string)
    requires forall i :: 0 <= i < |s| ==> IsSpace(s[i])
    ensures SplitWs(s) == []
  {
    assert LStrip(s) == [];
  }

  lemma LStripKeep(s: string)
    requires s == [] || !IsSpace(s[0])
    ensures LStrip(s) == s
  {
  }

  lemma LStripSpaceCons(c: char, q: string)
    requires IsSpace(c)
    ensures LStrip([c] + q) == LStrip(q)
  {
    assert ([c] + q)[1..] == q;
  }

  /** Splitting text that starts with a word followed by whitespace yields
      that word first. */
  lemma SplitWsFirstWord(p: string, c: char, q: string)
    requires p != [] && NoSpace(p) && IsSpace(c)
    ensures SplitWs(p + [c] + q) == [p] + SplitWs(q)
  {
    var s := p + ([c] + q);
    assert s == p + [c] + q;
    LStripKeep(s);
    WordOfNoSpace(p, [c] + q);
    assert s[|p|..] == [c] + q;
    assert SplitWs(s) == [p] + SplitWs([c] + q);
    LStripSpaceCons(c, q);
    assert SplitWs([c] + q) == SplitWs(q);
  }

  // ------------------------------------------------------------ split(sep)

  /** Inverse of `SplitOn`: `sep.join(parts)`. */
  function JoinOn(parts: seq<string>, sep: char): string
    requires |parts| >= 1
  {
    if |parts| == 1 then parts[0] else parts[0] + [sep] + JoinOn(parts[1..], sep)
  }

  /** `s.split(sep)` for a one-character separator: at least one field,
      empty fields kept, and no field holds the separator. */
  function SplitOn(s: string, sep: char): (r: seq<string>)
    ensures |r| >= 1
    ensures forall i :: 0 <= i < |r| ==> sep !in r[i]
  {
    if s == [] then [[]]
    else
      var rest := SplitOn(s[1..], sep);
      if s[0] == sep then
        assert ([[]] + rest)[1..] == rest;
        [[]] + rest
      else
        var r := [[s[0]] + rest[0]] + rest[1..];
        assert r[1..] == rest[1..];
        r
  }

  /** Joining the fields with the separator gives `s` back. */
  lemma {:induction false} SplitOnJoin(s: string, sep: char)
    ensures JoinOn(SplitOn(s, sep), sep) == s
  {
    if s != [] {
      SplitOnJoin(s[1..], sep);
      var rest := SplitOn(s[1..], sep);
      if s[0] == sep {
        assert ([[]] + rest)[1..] == rest;
      } else {
        var r := [[s[0]] + rest[0]] + rest[1..];
        assert r[1..] == rest[1..];
        assert |rest| > 1 ==> JoinOn(rest, sep) == rest[0] + [sep] + JoinOn(rest[1..], sep);
      }
    }
  }

  lemma {:induction false} SplitOnNoSep(x: string, sep: char)
    requires sep !in x
    ensures SplitOn(x, sep) == [x]
  {
    if x != [] {
      SplitOnNoSep(x[1..], sep);
      assert [x[0]] + x[1..] == x;
    }
  }

  lemma {:induction false} SplitOnFirst(x: string, sep: char, y: string)
    requires sep !in x
    ensures SplitOn(x + [sep] + y, sep) == [x] + SplitOn(y, sep)
  {
    if x == [] {
      assert x + [sep] + y == [sep] + y;
      assert ([sep] + y)[1..] == y;
    } else {
      var s := x + [sep] + y;
      assert s[1..] == x[1..] + [sep] + y;
      SplitOnFirst(x[1..], sep, y);
      assert [x[0]] + x[1..] == x;
    }
  }

  /** `sep.join` followed by `split(sep)` gives the fields back when no
      field contains the separator. */
  lemma {:induction false} SplitOnJoinOn(parts: seq<string>, sep: char)
    requires |parts| >= 1
    requires forall i :: 0 <= i < |parts| ==> sep !in parts[i]
    ensures SplitOn(JoinOn(parts, sep), sep) == parts
  {
    if |parts| == 1 {
      SplitOnNoSep(parts[0], sep);
    } else {
      SplitOnJoinOn(parts[1..], sep);
      SplitOnFirst(parts[0], sep, JoinOn(parts[1..], sep));
      assert [parts[0]] + parts[1..] == parts;
    }
  }

  /** Joining one more field appends the separator and the field. */
  lemma {:induction false} JoinOnSnoc(parts: seq<string>, x: string, sep: char)
    requires |parts| >= 1
    ensures JoinOn(parts + [x], sep) == JoinOn(parts, sep) + [sep] + x
  {
    if |parts| > 1 {
      assert (parts + [x])[1..] == parts[1..] + [x];
      JoinOnSnoc(parts[1..], x, sep);
    }
  }

  /** The joined text ends with the last field, preceded by the separator
      when there is more than one field. */
  lemma {:induction false} JoinOnLast(parts: seq<string>, sep: char)
    requires |parts| >= 1
    ensures var j := JoinOn(parts, sep); var l := parts[|parts| - 1];
            |l| <= |j| && j[|j| - |l|..] == l
            && (|parts| > 1 ==> |l| < |j| && j[|j| - |l| - 1] == sep)
  {
    if |parts| > 1 {
      JoinOnLast(parts[1..], sep);
      var j := JoinOn(parts, sep);
      var t := JoinOn(parts[1..], sep);
      assert j == parts[0] + [sep] + t;
      var l := parts[|parts| - 1];
      assert l == parts[1..][|parts[1..]| - 1];
      assert j[|j| - |t|..] == t;
      assert j[|j| - |l|..] == t[|t| - |l|..];
      if |parts| == 2 {
        assert t == l;
        assert j[|j| - |l| - 1] == sep;
      } else {
        assert j[|j| - |l| - 1] == t[|t| - |l| - 1];
      }
    }
  }

  // ----------------------------------------------------- slicing, replace

  function Min(a: int, b: int): int { if a <= b then a else b }

  /** Python `s[i:j]` for non-negative bounds: out-of-range bounds are
      clamped, never an error. */
  function Slice(s: string, i: nat, j: nat): (r: string)
    ensures |r| == if i < Min(j, |s|) then Min(j, |s|) - i else 0
    ensures forall k :: 0 <= k < |r| ==> r[k] == s[i + k]
  {
    if Min(j, |s|) <= i then [] else s[i..Min(j, |s|)]
  }

  /** Python `s[:-k]` for k >= 1. */
  function DropLast(s: string, k: nat): (r: string)
    ensures |r| == if |s| >= k then |s| - k else 0
    ensures r == s[..|r|]
  {
    if |s| >= k then s[..|s| - k] else []
  }

  /** Python `s.replace(a, b)` for one-character `a` and `b`. */
  function ReplaceChar(s: string, a: char, b: char): (r: string)
    ensures |r| == |s|
    ensures forall i :: 0 <= i < |s| ==> r[i] == (if s[i] == a then b else s[i])
  {
    seq(|s|, i requires 0 <= i < |s| => if s[i] == a then b else s[i])
  }

  lemma ReplaceCharAppend(x: string, y: string, a: char, b: char)
    ensures ReplaceChar(x + y, a, b) == ReplaceChar(x, a, b) + ReplaceChar(y, a, b)
  {
  }

  lemma ReplaceCharAbsent(x: string, a: char, b: char)
    requires a !in x
    ensures ReplaceChar(x, a, b) == x
  {
  }

  /** `s.lower()` for ASCII letters. */
  function Lower(s: string): (r: string)
    ensures |r| == |s|
    ensures forall i :: 0 <= i < |s| ==> r[i] == (if 'A' <= s[i] <= 'Z' then (s[i] as int + 32) as char else s[i])
  {
    seq(|s|, i requires 0 <= i < |s| => if 'A' <= s[i] <= 'Z' then (s[i] as int + 32) as char else s[i])
  }

  /** Python's `needle in hay` on strings. */
  predicate Contains(hay: string, needle: string)
    decreases |hay|
  {
    needle <= hay || (hay != [] && Contains(hay[1..], needle))
  }

  // ------------------------------------------------------------- digits

  predicate IsDigit(c: char) { '0' <= c <= '9' }

  predicate AllDigits(s: string) {
    forall i :: 0 <= i < |s| ==> IsDigit(s[i])
  }

  predicate IsDigits(s: string) { |s| > 0 && AllDigits(s) }

  function DigitValue(c: char): nat {
    if IsDigit(c) then c as int - '0' as int else 0
  }

  function Digit(d: nat): char
    requires d < 10
  {
    ('0' as int + d) as char
  }

  /** The value of a decimal digit string, most significant digit first. */
  function DigitsValue(s: string): nat {
    if s == [] then 0 else DigitsValue(s[..|s| - 1]) * 10 + DigitValue(s[|s| - 1])
  }

  function Pow10Nat(k: nat): (p: nat)
    ensures p >= 1
  {
    if k == 0 then 1 else 10 * Pow10Nat(k - 1)
  }

  /** A string of k digits is worth less than 10^k. */
  lemma {:induction false} DigitsValueBound(s: string)
    requires AllDigits(s)
    ensures DigitsValue(s) < Pow10Nat(|s|)
  {
    if s != [] {
      DigitsValueBound(s[..|s| - 1]);
    }
  }

  lemma DigitsValueSnoc(s: string, c: char)
    ensures DigitsValue(s + [c]) == DigitsValue(s) * 10 + DigitValue(c)
  {
    assert (s + [c])[..|s|] == s;
  }

  /** Reading two digit strings written one after the other. */
  lemma {:induction false} DigitsValueConcat(a: string, b: string)
    ensures DigitsValue(a + b) == DigitsValue(a) * Pow10Nat(|b|) + DigitsValue(b)
  {
    if b == [] {
      assert a + b == a;
    } else {
      var b', d := b[..|b| - 1], b[|b| - 1];
      assert b == b' + [d];
      assert a + b == (a + b') + [d];
      DigitsValueSnoc(a + b', d);
      DigitsValueSnoc(b', d);
      DigitsValueConcat(a, b');
      var x, p := DigitsValue(a), Pow10Nat(|b'|);
      assert Pow10Nat(|b|) == 10 * p;
      ShiftDigit(x, p, DigitsValue(b'), DigitValue(d));
    }
  }

  /** Appending one digit to `x * p + y`. */
  lemma ShiftDigit(x: int, p: int, y: int, z: int)
    ensures (x * p + y) * 10 + z == x * (10 * p) + (y * 10 + z)
  {
    assert (x * p + y) * 10 == x * p * 10 + y * 10;
    assert x * p * 10 == x * (10 * p);
  }

  // ------------------------------------------------------- int() and str()

  /** Python `int(s)` on text: surrounding whitespace, an optional sign and
      at least one decimal digit; anything else raises ValueError. */
  function ParseInt(s: string): Option<int> {
    var t := Strip(s);
    if |t| > 0 && (t[0] == '-' || t[0] == '+') then
      var v: int := DigitsValue(t[1..]);
      if IsDigits(t[1..]) then Some(if t[0] == '-' then -v else v)
      else None
    else if IsDigits(t) then Some(DigitsValue(t))
    else None
  }

  /** `str(n)` for n >= 0: the canonical decimal spelling, read back to n. */
  function NatToStr(n: nat): (r: string)
    ensures IsDigits(r) && DigitsValue(r) == n
    ensures r[0] == '0' ==> n == 0 && |r| == 1
  {
    if n < 10 then [Digit(n)]
    else
      var r := NatToStr(n / 10) + [Digit(n % 10)];
      assert r[..|r| - 1] == NatToStr(n / 10);
      r
  }

  /** Python `str(n)` on an int. */
  function IntToStr(n: int): string {
    if n < 0 then "-" + NatToStr(-n) else NatToStr(n)
  }

  /** `int(str(n)) == n`. */
  lemma ParseIntIntToStr(n: int)
    ensures ParseInt(IntToStr(n)) == Some(n)
  {
    var s := IntToStr(n);
    assert NoSpace(s);
    StripNoSpace(s);
    if n < 0 {
      assert s[1..] == NatToStr(-n);
    }
  }

  /** `str` is injective on ints. */
  lemma IntToStrInjective(a: int, b: int)
    requires IntToStr(a) == IntToStr(b)
    ensures a == b
  {
    ParseIntIntToStr(a);
    ParseIntIntToStr(b);
  }

  /** A digit string reads as its value through `int()`. */
  lemma ParseIntDigits(s: string)
    requires IsDigits(s)
    ensures ParseInt(s) == Some(DigitsValue(s))
  {
    assert NoSpace(s);
    StripNoSpace(s);
  }

  // -------------------------------------------------------------- float()

  function Pow10(k: int): (p: real)
    ensures p > 0.0
  {
    if k >= 0 then Pow10Nat(k) as real else 1.0 / (Pow10Nat(-k) as real)
  }

  /** Index of the first character of `s` satisfying `c == a || c == b`,
      or |s| if there is none. */
  function IndexOf2(s: string, a: char, b: char): (k: nat)
    ensures k <= |s|
    ensures forall i :: 0 <= i < k ==> s[i] != a && s[i] != b
    ensures k < |s| ==> s[k] == a || s[k] == b
  {
    if s == [] then 0
    else if s[0] == a || s[0] == b then 0
    else 1 + IndexOf2(s[1..], a, b)
  }

  /** The mantissa of a Python float literal: `digits`, `digits.`,
      `digits.digits` or `.digits`. */
  function ParseMantissa(m: string): Option<real> {
    var d := IndexOf2(m, '.', '.');
    if d == |m| then
      if IsDigits(m) then Some(DigitsValue(m) as real) else None
    else PointMantissa(m[..d], m[d + 1..])
  }

  /** A mantissa with a decimal point, given the digits on either side. */
  function PointMantissa(ip: string, fp: string): Option<real> {
    if AllDigits(ip) && AllDigits(fp) && (ip != [] || fp != []) then
      Some(DigitsValue(ip) as real + DigitsValue(fp) as real / Pow10(|fp|))
    else None
  }

  /** The exponent of a Python float literal: an optional sign and digits. */
  function ParseExponent(x: string): Option<int> {
    if |x| > 0 && (x[0] == '-' || x[0] == '+') then
      var v: int := DigitsValue(x[1..]);
      if IsDigits(x[1..]) then Some(if x[0] == '-' then -v else v)
      else None
    else if IsDigits(x) then Some(DigitsValue(x))
    else None
  }

  /** `m` times ten to the `e`, one power of ten at a time. */
  function Scaled(m: real, e: int): real
    decreases if e < 0 then -e else e
  {
    if e == 0 then m
    else if e > 0 then 10.0 * Scaled(m, e - 1)
    else Scaled(m, e + 1) / 10.0
  }

  /** Scaling is multiplication by the power of ten. */
  lemma {:induction false} ScaledIsProduct(m: real, e: int)
    ensures Scaled(m, e) == m * Pow10(e)
    decreases if e < 0 then -e else e
  {
    if e > 0 {
      ScaledIsProduct(m, e - 1);
      var p := Pow10Nat(e - 1) as real;
      assert Pow10(e) == 10.0 * p;
      assert 10.0 * (m * p) == m * (10.0 * p);
    } else if e < 0 {
      ScaledIsProduct(m, e + 1);
      var p := Pow10Nat(-e - 1) as real;
      assert Pow10(e) == 1.0 / (10.0 * p);
      assert Pow10(e + 1) == 1.0 / p by {
        if e + 1 == 0 { assert p == 1.0; }
      }
      assert m * (1.0 / p) / 10.0 == m * (1.0 / (10.0 * p));
    }
  }

  function ParseUnsignedFloat(u: string): Option<real> {
    var k := IndexOf2(u, 'e', 'E');
    var m := ParseMantissa(u[..k]);
    if m.None? then None
    else if k == |u| then m
    else
      match ParseExponent(u[k + 1..])
      case None => None
      case Some(e) => Some(Scaled(m.value, e))
  }

  /** Python `float(s)` on decimal text (surrounding whitespace, an optional
      sign, a mantissa and an optional exponent); anything else raises
      ValueError. */
  function ParseFloat(s: string): Option<real> {
    var t := Strip(s);
    if |t| > 0 && (t[0] == '-' || t[0] == '+') then Signed(t[0] == '-', ParseUnsignedFloat(t[1..]))
    else ParseUnsignedFloat(t)
  }

  /** A float read after a sign: negated for `-`. */
  function Signed(negative: bool, r: Option<real>): Option<real> {
    match r
    case None => None
    case Some(v) => Some(if negative then -v else v)
  }

  /** `float("0." + d)` for a digit field d is a fraction in [0, 1). */
  lemma FractionField(d: string)
    requires AllDigits(d)
    ensures ParseFloat("0." + d) == Some(DigitsValue(d) as real / Pow10(|d|))
    ensures 0.0 <= ParseFloat("0." + d).value < 1.0
  {
    var s := "0." + d;
    DecimalText(d);
    UnsignedFloat(s);
    NoExponent(s);
    MantissaOnly(s);
    FractionMantissa(d);
    DigitsValueBound(d);
    assert Pow10(|d|) == Pow10Nat(|d|) as real;
    DivBelowOne(DigitsValue(d) as real, Pow10(|d|));
  }

  /** "0." followed by digits holds only digits and one point. */
  lemma DecimalText(d: string)
    requires AllDigits(d)
    ensures NoSpace("0." + d)
    ensures forall i :: 0 <= i < |"0." + d| ==> ("0." + d)[i] == '.' || IsDigit(("0." + d)[i])
  {
    var s := "0." + d;
    forall i | 0 <= i < |s| ensures s[i] == '.' || IsDigit(s[i]) {
      if i >= 2 { assert s[i] == d[i - 2]; }
    }
  }

  lemma UnsignedFloat(s: string)
    requires NoSpace(s) && s != [] && IsDigit(s[0])
    ensures ParseFloat(s) == ParseUnsignedFloat(s)
  {
    StripNoSpace(s);
  }

  lemma MantissaOnly(u: string)
    requires IndexOf2(u, 'e', 'E') == |u|
    ensures ParseUnsignedFloat(u) == ParseMantissa(u)
  {
    assert u[..|u|] == u;
  }

  lemma DivBelowOne(a: real, b: real)
    requires 0.0 <= a < b
    ensures 0.0 <= a / b < 1.0
  {
  }

  lemma NoExponent(s: string)
    requires forall i :: 0 <= i < |s| ==> s[i] == '.' || IsDigit(s[i])
    ensures IndexOf2(s, 'e', 'E') == |s|
  {
    if s != [] { NoExponent(s[1..]); }
  }

  lemma FractionMantissa(d: string)
    requires AllDigits(d)
    ensures ParseMantissa("0." + d) == Some(DigitsValue(d) as real / Pow10(|d|))
  {
    var m := "0." + d;
    assert m[1..][0] == '.';
    assert IndexOf2(m[1..], '.', '.') == 0;
    assert IndexOf2(m, '.', '.') == 1;
    assert m[..1] == "0" && m[2..] == d;
    assert DigitsValue("0") == 0 by {
      assert "0"[..0] == [];
    }
    assert PointMantissa("0", d) == Some(DigitsValue(d) as real / Pow10(|d|));
  }

  /** An exponent `float` accepts holds a sign and digits only. */
  lemma ExponentNoSpace(x: string)
    requires ParseExponent(x).Some?
    ensures NoSpace(x)
  {
    if |x| > 0 && (x[0] == '-' || x[0] == '+') {
      forall i | 1 <= i < |x| ensures !IsSpace(x[i]) {
        assert x[i] == x[1..][i - 1];
      }
    }
  }

  /** The exponent marker after a mantissa of digits and points is the
      first one. */
  lemma {:induction false} IndexOfMarker(a: string, x: string)
    requires forall i :: 0 <= i < |a| ==> a[i] == '.' || IsDigit(a[i])
    ensures IndexOf2(a + "e" + x, 'e', 'E') == |a|
  {
    if a != [] {
      assert (a + "e" + x)[1..] == a[1..] + "e" + x;
      IndexOfMarker(a[1..], x);
    }
  }

  /** `float("0." + d + "e" + x)` for a digit field d and an exponent x is
      the fraction 0.d scaled by ten to the exponent. */
  lemma ExponentField(d: string, x: string)
    requires AllDigits(d) && ParseExponent(x).Some?
    ensures var u := "0." + d + "e" + x;
            NoSpace(u) && IsDigit(u[0])
            && ParseUnsignedFloat(u) == Some(Scaled(DigitsValue(d) as real / Pow10(|d|), ParseExponent(x).value))
  {
    var a := "0." + d;
    var u := a + "e" + x;
    ExponentText(d, x);
    IndexOfMarker(a, x);
    assert u[..|a|] == a && u[|a| + 1..] == x;
    FractionMantissa(d);
    UnsignedWithExponent(u, |a|);
  }

  /** "0." then digits, a marker and an exponent holds no whitespace. */
  lemma ExponentText(d: string, x: string)
    requires AllDigits(d) && ParseExponent(x).Some?
    ensures NoSpace("0." + d + "e" + x)
    ensures forall i :: 0 <= i < |"0." + d| ==> ("0." + d)[i] == '.' || IsDigit(("0." + d)[i])
  {
    var a := "0." + d;
    var u := a + "e" + x;
    DecimalText(d);
    ExponentNoSpace(x);
    forall i | 0 <= i < |u| ensures !IsSpace(u[i]) {
      if i > |a| { assert u[i] == x[i - |a| - 1]; }
    }
  }

  /** A fraction in [0, 1) scaled by ten to the e stays below ten to the e. */
  lemma ScaledBelow(m: real, e: int)
    requires 0.0 <= m < 1.0
    ensures 0.0 <= Scaled(m, e) < Pow10(e)
  {
    var p := Pow10(e);
    ScaledIsProduct(m, e);
    assert m * p < 1.0 * p;
  }

  /** Unsigned float text whose first exponent marker is at k. */
  lemma UnsignedWithExponent(u: string, k: nat)
    requires k < |u| && IndexOf2(u, 'e', 'E') == k
    requires ParseMantissa(u[..k]).Some? && ParseExponent(u[k + 1..]).Some?
    ensures ParseUnsignedFloat(u) == Some(Scaled(ParseMantissa(u[..k]).value, ParseExponent(u[k + 1..]).value))
  {
  }

  /** The number an implied-decimal field with a sign column stands for:
      plus or minus 0.d times ten to the e, negative iff the sign is `-`. */
  function ImpliedDecimal(sign: char, d: string, e: int): real {
    var v := Scaled(DigitsValue(d) as real / Pow10(|d|), e);
    if sign == '-' then -v else v
  }

  /** `float(c + "0." + d + "e" + x)` for a blank or sign column c, a
      digit field d and an exponent x is the implied-decimal value. */
  lemma SignedExponentField(c: char, d: string, x: string)
    requires c == ' ' || c == '-' || c == '+'
    requires AllDigits(d) && ParseExponent(x).Some?
    ensures ParseFloat([c] + ("0." + d + "e" + x)) == Some(ImpliedDecimal(c, d, ParseExponent(x).value))
  {
    var u := "0." + d + "e" + x;
    var v := Scaled(DigitsValue(d) as real / Pow10(|d|), ParseExponent(x).value);
    assert u != [] && IsDigit(u[0]) && ParseUnsignedFloat(u) == Some(v) by {
      ExponentField(d, x);
    }
    assert Strip([c] + u) == if c == ' ' then u else [c] + u by {
      ExponentText(d, x);
      var _ := StripColumn(c, u);
    }
    SignedFloat(c, u);
    SignedSome(c, ParseUnsignedFloat(u), v);
    assert ImpliedDecimal(c, d, ParseExponent(x).value) == if c == '-' then -v else v;
  }

  lemma SignedSome(c: char, w: Option<real>, v: real)
    requires w == Some(v)
    ensures (if c == ' ' then w else Signed(c == '-', w)) == Some(if c == '-' then -v else v)
  {
  }

  /** A leading blank or sign column before unsigned float text: the blank
      and `+` keep the value and `-` negates it. */
  lemma SignedFloat(c: char, u: string)
    requires c == ' ' || c == '-' || c == '+'
    requires u != [] && IsDigit(u[0])
    requires Strip([c] + u) == if c == ' ' then u else [c] + u
    ensures ParseFloat([c] + u)
            == if c == ' ' then ParseUnsignedFloat(u) else Signed(c == '-', ParseUnsignedFloat(u))
  {
    assert ([c] + u)[1..] == u;
  }

  /** Stripping a blank or sign column followed by text without spaces. */
  lemma StripColumn(c: char, u: string) returns (t: string)
    requires c == ' ' || c == '-' || c == '+'
    requires NoSpace(u) && u != [] && IsDigit(u[0])
    ensures t == [c] + u && Strip(t) == if c == ' ' then u else t
  {
    t := [c] + u;
    if c == ' ' {
      LStripSpaceCons(c, u);
      LStripKeep(u);
      StripNoSpace(u);
    } else {
      assert NoSpace(t);
      StripNoSpace(t);
    }
  }
}
