/** The configuration file of the Tkinter front end (Tkinter_GUI.py:182-231).
    It holds three lines:
      `DEFAULT_TOGGLE{name=d;name=d;…}` — one category per default source,
          spaces in the name written as `_`, d its toggle;
      `…{link;link;…}` — the default source links, never rewritten;
      `SUPP_SOURCES{name=link;…}` — the supplementary sources, or nothing
          between the braces.
    Loading splits each line on whitespace after blanking the braces and
    reads the second token; saving writes the three lines back.  The file
    itself is a parameter: loading reads `readlines()` of its text, saving
    returns the text written. */
module TkinterConfig {
  import opened Wrappers
  import opened PyText

  /** The fields `load_configuration` fills: `database_toggle`,
      `database_categories`, `database_sources` (`None` where not yet
      filled) and `database_supp`. */
  datatype Config = Config(toggles: seq<bool>, categories: seq<string>,
                           sources: seq<Option<string>>, supp: seq<seq<string>>)

  // ----------------------------------------------------------- readlines

  /** The length of the first line of non-empty `s`, its newline included. */
  function LineEnd(s: string): (k: nat)
    requires s != []
    ensures 0 < k <= |s|
    ensures '\n' !in s[..k - 1]
    ensures k < |s| ==> s[k - 1] == '\n'
  {
    if s[0] == '\n' || |s| == 1 then 1
    else
      var k := 1 + LineEnd(s[1..]);
      assert s[..k - 1] == [s[0]] + s[1..][..k - 2];
      k
  }

  /** `file.readlines()` on the file's text: every line keeps its newline,
      the last one may have none. */
  function ReadLines(s: string): seq<string>
    decreases |s|
  {
    if s == [] then []
    else
      var k := LineEnd(s);
      [s[..k]] + ReadLines(s[k..])
  }

  /** A line that ends at its only newline. */
  predicate IsLine(l: string) {
    l != [] && l[|l| - 1] == '\n' && '\n' !in l[..|l| - 1]
  }

  lemma {:induction false} LineEndOf(x: string, rest: string)
    requires '\n' !in x
    ensures LineEnd(x + "\n" + rest) == |x| + 1
  {
    var s := x + "\n" + rest;
    if x != [] {
      assert s[0] == x[0];
      assert s[1..] == x[1..] + "\n" + rest;
      LineEndOf(x[1..], rest);
    }
  }

  /** `readlines` yields a complete first line first. */
  lemma ReadLinesCons(l: string, rest: string)
    requires IsLine(l)
    ensures ReadLines(l + rest) == [l] + ReadLines(rest)
  {
    var x := l[..|l| - 1];
    assert l == x + "\n";
    LineEndOf(x, rest);
    var s := l + rest;
    assert s == x + "\n" + rest;
    assert s[..|l|] == l;
    assert s[|l|..] == rest;
  }

  /** Three complete lines read back as those three lines. */
  lemma ReadThree(a: string, b: string, c: string)
    requires IsLine(a) && IsLine(b) && IsLine(c)
    ensures ReadLines(a + b + c) == [a, b, c]
  {
    var bc := b + c;
    assert a + b + c == a + bc;
    ReadLinesCons(c, []);
    assert c + [] == c;
    assert ReadLines(c) == [c];
    ReadLinesCons(b, c);
    assert ReadLines(bc) == [b, c];
    ReadLinesCons(a, bc);
  }

  /** Every line `readlines` yields, except perhaps the last, is complete. */
  lemma {:induction false} ReadLinesShape(s: string)
    ensures forall i :: 0 <= i < |ReadLines(s)| - 1 ==> IsLine(ReadLines(s)[i])
    decreases |s|
  {
    if s != [] {
      var k := LineEnd(s);
      ReadLinesShape(s[k..]);
      var ls := ReadLines(s);
      assert ls == [s[..k]] + ReadLines(s[k..]);
      if |ls| > 1 {
        assert s[..k][..k - 1] == s[..k - 1];
        assert IsLine(s[..k]);
      }
      forall i | 1 <= i < |ls| - 1
        ensures IsLine(ls[i])
      {
        assert ls[i] == ReadLines(s[k..])[i - 1];
      }
    }
  }

  // -------------------------------------------------------------- tokens

  /** The whitespace `split()` splits at, and the two braces. */
  const Special: set<char> := {' ', '\t', '\n', '\r', '\U{000B}', '\U{000C}',
                               '\U{001C}', '\U{001D}', '\U{001E}', '\U{001F}', '{', '}'}

  /** A character that survives `split()` and the blanking of braces. */
  predicate Plain(c: char) {
    c !in Special
  }

  lemma SpaceSpecial(c: char)
    ensures IsSpace(c) <==> c in Special - {'{', '}'}
  {
  }

  lemma PlainNoSpace(s: string)
    requires AllPlain(s)
    ensures NoSpace(s)
  {
    forall i | 0 <= i < |s|
      ensures !IsSpace(s[i])
    {
      SpaceSpecial(s[i]);
    }
  }

  predicate AllPlain(s: string) {
    forall i :: 0 <= i < |s| ==> Plain(s[i])
  }

  /** `line.replace("{", " ").replace("}", " ").split()`. */
  function Tokens(line: string): seq<string> {
    SplitWs(ReplaceChar(ReplaceChar(line, '{', ' '), '}', ' '))
  }

  /** `….split()[1].split(";")`: fewer than two tokens raise IndexError. */
  function Items(line: string): Result<seq<string>> {
    var t := Tokens(line);
    if |t| < 2 then Err("IndexError") else Ok(SplitOn(t[1], ';'))
  }

  lemma TokensOf(line: string, b: string)
    requires ReplaceChar(ReplaceChar(line, '{', ' '), '}', ' ') == b
    ensures Tokens(line) == SplitWs(b)
  {
  }

  lemma BlankBraces(s: string)
    ensures ReplaceChar(ReplaceChar(s, '{', ' '), '}', ' ')
            == seq(|s|, i requires 0 <= i < |s| => if s[i] == '{' || s[i] == '}' then ' ' else s[i])
  {
  }

  lemma BlankFramed(tag: string, body: string)
    requires AllPlain(tag) && AllPlain(body)
    ensures ReplaceChar(ReplaceChar(tag + "{" + body + "}\n", '{', ' '), '}', ' ') == tag + [' '] + (body + " \n")
  {
    var s := tag + "{" + body + "}\n";
    BlankBraces(s);
    var r := tag + [' '] + (body + " \n");
    assert |s| == |r|;
    forall i | 0 <= i < |s|
      ensures (if s[i] == '{' || s[i] == '}' then ' ' else s[i]) == r[i]
    {
      if i < |tag| {
        assert s[i] == tag[i] && r[i] == tag[i];
      } else if i == |tag| {
      } else if i < |tag| + 1 + |body| {
        assert s[i] == body[i - |tag| - 1] && r[i] == body[i - |tag| - 1];
      }
    }
  }

  /** A line `tag{body}` read back: the tag, then the body when it is not
      empty. */
  lemma FramedTokens(tag: string, body: string)
    requires tag != [] && AllPlain(tag) && AllPlain(body)
    ensures Tokens(tag + "{" + body + "}\n") == [tag] + (if body == [] then [] else [body])
  {
    BlankFramed(tag, body);
    TokensOf(tag + "{" + body + "}\n", tag + [' '] + (body + " \n"));
    PlainNoSpace(tag);
    SplitWsFirstWord(tag, ' ', body + " \n");
    FramedTail(body);
  }

  /** The items of a line `tag{body}` with a body: the body split on `;`. */
  lemma FramedItems(tag: string, body: string)
    requires tag != [] && AllPlain(tag) && AllPlain(body) && body != []
    ensures Items(tag + "{" + body + "}\n") == Ok(SplitOn(body, ';'))
  {
    FramedTokens(tag, body);
  }

  lemma TagsPlain()
    ensures AllPlain("DEFAULT_TOGGLE") && AllPlain("SUPP_SOURCES")
    ensures "DEFAULT_TOGGLE{" == "DEFAULT_TOGGLE" + "{" && "SUPP_SOURCES{" == "SUPP_SOURCES" + "{"
  {
  }

  /** What follows the tag: the body, then the closing brace blanked. */
  lemma FramedTail(body: string)
    requires AllPlain(body)
    ensures SplitWs(body + " \n") == if body == [] then [] else [body]
  {
    if body == [] {
      assert body + " \n" == " \n";
      SplitWsAllSpace(" \n");
    } else {
      assert body + " \n" == body + [' '] + "\n";
      PlainNoSpace(body);
      SplitWsFirstWord(body, ' ', "\n");
      SplitWsAllSpace("\n");
    }
  }

  lemma BlankPrefix(tag: string, u: string, w: string)
    requires AllPlain(tag) && AllPlain(u)
    ensures var w' := ReplaceChar(ReplaceChar(w, '{', ' '), '}', ' ');
            ReplaceChar(ReplaceChar(tag + "{" + u + " " + w, '{', ' '), '}', ' ') == tag + [' '] + (u + [' '] + w')
  {
    var s := tag + "{" + u + " " + w;
    BlankBraces(s);
    BlankBraces(w);
    var w' := ReplaceChar(ReplaceChar(w, '{', ' '), '}', ' ');
    var r := tag + [' '] + (u + [' '] + w');
    assert |s| == |r|;
    forall i | 0 <= i < |s|
      ensures (if s[i] == '{' || s[i] == '}' then ' ' else s[i]) == r[i]
    {
      if i < |tag| {
        assert s[i] == tag[i] && r[i] == tag[i];
      } else if i == |tag| {
      } else if i < |tag| + 1 + |u| {
        assert s[i] == u[i - |tag| - 1] && r[i] == u[i - |tag| - 1];
      } else if i == |tag| + 1 + |u| {
      } else {
        assert s[i] == w[i - |tag| - 2 - |u|] && r[i] == w'[i - |tag| - 2 - |u|];
      }
    }
  }

  /** A line `tag{u w…` with a space after the word u: the second token is u. */
  lemma SecondTokenBeforeSpace(tag: string, u: string, w: string)
    requires tag != [] && AllPlain(tag) && u != [] && AllPlain(u)
    ensures |Tokens(tag + "{" + u + " " + w)| >= 2 && Tokens(tag + "{" + u + " " + w)[1] == u
  {
    var line := tag + "{" + u + " " + w;
    var w' := ReplaceChar(ReplaceChar(w, '{', ' '), '}', ' ');
    var b := tag + [' '] + (u + [' '] + w');
    BlankPrefix(tag, u, w);
    TokensOf(line, b);
    PlainNoSpace(tag);
    PlainNoSpace(u);
    SplitWsFirstWord(tag, ' ', u + [' '] + w');
    SplitWsFirstWord(u, ' ', w');
    var t := [tag] + ([u] + SplitWs(w'));
    assert Tokens(line) == t;
    assert t[1] == u;
  }

  /** No field holds a character of `bad`. */
  predicate NoneIn(parts: seq<string>, bad: set<char>) {
    forall i, j :: 0 <= i < |parts| && 0 <= j < |parts[i]| ==> parts[i][j] !in bad
  }

  /** Fields of `split(sep)` hold no character the text split lacks. */
  lemma {:induction false} SplitOnChars(s: string, sep: char, bad: set<char>)
    requires forall k :: 0 <= k < |s| ==> s[k] !in bad
    ensures NoneIn(SplitOn(s, sep), bad)
  {
    if s != [] {
      var tail := s[1..];
      assert forall k :: 0 <= k < |tail| ==> tail[k] !in bad by {
        forall k | 0 <= k < |tail| ensures tail[k] !in bad { assert tail[k] == s[k + 1]; }
      }
      SplitOnChars(tail, sep, bad);
      var rest := SplitOn(tail, sep);
      var r := SplitOn(s, sep);
      forall i, j | 0 <= i < |r| && 0 <= j < |r[i]|
        ensures r[i][j] !in bad
      {
        if s[0] == sep {
          assert r == [[]] + rest;
          assert r[i][j] == rest[i - 1][j];
        } else if i == 0 {
          assert r[0] == [s[0]] + rest[0];
          if j > 0 {
            assert r[i][j] == rest[0][j - 1];
          } else {
            assert r[i][j] == s[0];
          }
        } else {
          assert r[i][j] == rest[i][j];
        }
      }
    }
  }

  lemma StrippedChars(s: string, bad: set<char>)
    requires forall k :: 0 <= k < |s| ==> s[k] !in bad
    ensures forall k :: 0 <= k < |LStrip(s)| ==> LStrip(s)[k] !in bad
  {
    var t := LStrip(s);
    forall k | 0 <= k < |t|
      ensures t[k] !in bad
    {
      assert t[k] == s[|s| - |t| + k];
    }
  }

  lemma SuffixChars(t: string, n: nat, bad: set<char>)
    requires n <= |t|
    requires forall k :: 0 <= k < |t| ==> t[k] !in bad
    ensures forall k :: 0 <= k < |t[n..]| ==> t[n..][k] !in bad
  {
    forall k | 0 <= k < |t[n..]|
      ensures t[n..][k] !in bad
    {
      assert t[n..][k] == t[n + k];
    }
  }

  /** One step of `split()`: nothing for blank text, else the first word
      of the stripped text, then the split of what follows it. */
  lemma SplitWsStep(s: string)
    ensures LStrip(s) == [] ==> SplitWs(s) == []
    ensures var t := LStrip(s); var w := Word(t);
            t != [] ==> SplitWs(s) == [w] + SplitWs(t[|w|..])
  {
  }

  lemma NoneInCons(w: string, rest: seq<string>, bad: set<char>)
    requires forall k :: 0 <= k < |w| ==> w[k] !in bad
    requires NoneIn(rest, bad)
    ensures NoneIn([w] + rest, bad)
  {
    var r := [w] + rest;
    forall i, j | 0 <= i < |r| && 0 <= j < |r[i]|
      ensures r[i][j] !in bad
    {
      if i > 0 {
        assert r[i] == rest[i - 1];
      }
    }
  }

  /** Tokens of `split()` hold no character the text split lacks. */
  lemma {:induction false} SplitWsChars(s: string, bad: set<char>)
    requires forall k :: 0 <= k < |s| ==> s[k] !in bad
    ensures NoneIn(SplitWs(s), bad)
    decreases |s|
  {
    var t := LStrip(s);
    StrippedChars(s, bad);
    SplitWsStep(s);
    if t != [] {
      var w := Word(t);
      SuffixChars(t, |w|, bad);
      var tail := t[|w|..];
      SplitWsChars(tail, bad);
      assert forall k :: 0 <= k < |w| ==> w[k] == t[k];
      NoneInCons(w, SplitWs(tail), bad);
    }
  }

  /** Every token of a line is plain text. */
  lemma TokensPlain(line: string)
    ensures forall i :: 0 <= i < |Tokens(line)| ==> AllPlain(Tokens(line)[i])
  {
    var b := ReplaceChar(ReplaceChar(line, '{', ' '), '}', ' ');
    SplitWsChars(b, {'{', '}'});
    var t := Tokens(line);
    forall i, j | 0 <= i < |t| && 0 <= j < |t[i]|
      ensures Plain(t[i][j])
    {
      assert NoSpace(t[i]);
      SpaceSpecial(t[i][j]);
    }
  }

  /** Every field of a plain text split on `sep` is plain. */
  lemma SplitOnPlain(s: string, sep: char)
    requires AllPlain(s)
    ensures forall i :: 0 <= i < |SplitOn(s, sep)| ==> AllPlain(SplitOn(s, sep)[i])
  {
    SplitOnChars(s, sep, Special);
  }

  /** A field of a split holds no character the text lacks. */
  lemma SplitOnWithout(s: string, sep: char, c: char)
    requires c !in s
    ensures forall i :: 0 <= i < |SplitOn(s, sep)| ==> c !in SplitOn(s, sep)[i]
  {
    SplitOnChars(s, sep, {c});
  }

  // ----------------------------------------------------- the toggle line

  /** `str(int(b))`. */
  function Bit(b: bool): string {
    if b then "1" else "0"
  }

  /** `bool(int(item[-1]))`: an empty item raises IndexError, a last
      character that is not a digit ValueError. */
  function Toggle(item: string): Result<bool> {
    if item == [] then Err("IndexError")
    else if IsDigit(item[|item| - 1]) then Ok(item[|item| - 1] != '0')
    else Err("ValueError")
  }

  /** `item.split("=")[0].replace("_", " ")`. */
  function Category(item: string): string {
    ReplaceChar(SplitOn(item, '=')[0], '_', ' ')
  }

  /** The item `save_configuration` writes for a category after the first. */
  function SavedItem(category: string, b: bool): string {
    ReplaceChar(category, ' ', '_') + "=" + Bit(b)
  }

  /** The position of the first item whose toggle raises, or the count. */
  function FirstBad(items: seq<string>): (k: nat)
    ensures k <= |items|
    ensures forall j :: 0 <= j < k ==> Toggle(items[j]).Ok?
    ensures k < |items| ==> Toggle(items[k]).Err?
  {
    if items == [] || Toggle(items[0]).Err? then 0
    else 1 + FirstBad(items[1..])
  }

  lemma FirstBadIs(items: seq<string>, k: nat)
    requires k <= |items|
    requires forall j :: 0 <= j < k ==> Toggle(items[j]).Ok?
    requires k < |items| ==> Toggle(items[k]).Err?
    ensures FirstBad(items) == k
  {
  }

  function ToggleValues(items: seq<string>): seq<bool>
    requires forall j :: 0 <= j < |items| ==> Toggle(items[j]).Ok?
  {
    seq(|items|, j requires 0 <= j < |items| => Toggle(items[j]).value)
  }

  function Categories(items: seq<string>): seq<string> {
    seq(|items|, j requires 0 <= j < |items| => Category(items[j]))
  }

  /** `database_sources` after `n` slots of `None` were filled with the
      first `m` links. */
  function Filled(links: seq<string>, n: nat, m: nat): seq<Option<string>>
    requires m <= n && m <= |links|
  {
    seq(n, i requires 0 <= i < n => if i < m then Some(links[i]) else None)
  }

  /** `[e.split("=") for e in entries]`. */
  function Pairs(entries: seq<string>): seq<seq<string>> {
    seq(|entries|, i requires 0 <= i < |entries| => SplitOn(entries[i], '='))
  }

  // ---------------------------------------------------------------- load

  /** `load_configuration()` on the file's lines, from the fields `c`: the
      new fields and whether it raised.  Each field keeps what it had been
      given when the exception came. */
  function LoadConfig(lines: seq<string>, c: Config): (Config, Result<()>) {
    var c1 := c.(toggles := [], categories := []);
    if |lines| == 0 then (c1, Err("IndexError")) else
    var items := Items(lines[0]);
    if items.Err? then (c1, Err(items.error)) else
    var k := FirstBad(items.value);
    var c2 := c1.(toggles := ToggleValues(items.value[..k]), categories := Categories(items.value[..k]));
    if k < |items.value| then (c2, Err(Toggle(items.value[k]).error))
    else LoadLinks(lines, c2)
  }

  /** The rest of the load once the toggle line is read: the links line
      fills one source per category. */
  function LoadLinks(lines: seq<string>, c: Config): (Config, Result<()>)
    requires |lines| >= 1
  {
    if |lines| < 2 then (c, Err("IndexError")) else
    var links := Items(lines[1]);
    if links.Err? then (c, Err(links.error)) else
    var n := |c.categories|;
    var m := Min(n, |links.value|);
    var c3 := c.(sources := Filled(links.value, n, m));
    if m < n then (c3, Err("IndexError"))
    else LoadSupp(lines, c3)
  }

  /** The rest of the load once the sources are filled: the supplementary
      line is read only when it has more than one token. */
  function LoadSupp(lines: seq<string>, c: Config): (Config, Result<()>)
    requires |lines| >= 2
  {
    var c4 := c.(supp := []);
    if |lines| < 3 then (c4, Err("IndexError")) else
    var t3 := Tokens(lines[2]);
    if |t3| == 1 then (c4, Ok(()))
    else if |t3| == 0 then (c4, Err("IndexError"))
    else (c4.(supp := Pairs(SplitOn(t3[1], ';'))), Ok(()))
  }

  /** Whatever happens after the toggle line, the categories loaded are those
      of its items up to the first bad toggle. */
  lemma LoadedCategories(lines: seq<string>, c: Config)
    requires |lines| > 0 && Items(lines[0]).Ok?
    ensures LoadConfig(lines, c).0.categories
            == Categories(Items(lines[0]).value[..FirstBad(Items(lines[0]).value)])
  {
    var items := Items(lines[0]).value;
    var k := FirstBad(items);
    var c2 := c.(toggles := ToggleValues(items[..k]), categories := Categories(items[..k]));
    if k == |items| {
      assert LoadConfig(lines, c) == LoadLinks(lines, c2);
      LinksKeepCategories(lines, c2);
    }
  }

  /** Reading the links and supplementary lines leaves the categories. */
  lemma LinksKeepCategories(lines: seq<string>, c: Config)
    requires |lines| >= 1
    ensures LoadLinks(lines, c).0.categories == c.categories
  {
    if |lines| >= 2 {
      var links := Items(lines[1]);
      if links.Ok? {
        var n := |c.categories|;
        var m := Min(n, |links.value|);
        var c3 := c.(sources := Filled(links.value, n, m));
        if m == n {
          assert LoadLinks(lines, c) == LoadSupp(lines, c3);
          SuppKeepsCategories(lines, c3);
        }
      }
    }
  }

  /** Reading the supplementary line leaves the categories. */
  lemma SuppKeepsCategories(lines: seq<string>, c: Config)
    requires |lines| >= 2
    ensures LoadSupp(lines, c).0.categories == c.categories
  {
    if |lines| >= 3 {
      var t3 := Tokens(lines[2]);
      assert |t3| >= 2 ==> LoadSupp(lines, c).0 == c.(supp := Pairs(SplitOn(t3[1], ';')));
    }
  }

  /** The path a load that raised nothing takes: three lines, no bad toggle,
      and enough links for every category. */
  lemma LoadedPath(lines: seq<string>, c0: Config, c: Config)
    requires LoadConfig(lines, c0) == (c, Ok(()))
    ensures |lines| >= 3 && Items(lines[0]).Ok? && Items(lines[1]).Ok?
    ensures FirstBad(Items(lines[0]).value) == |Items(lines[0]).value|
    ensures |Items(lines[0]).value| <= |Items(lines[1]).value|
    ensures |Tokens(lines[2])| >= 1
  {
    assert |lines| > 0;
    var items := Items(lines[0]);
    assert items.Ok?;
    var k := FirstBad(items.value);
    assert k == |items.value|;
    var c2 := c0.(toggles := ToggleValues(items.value[..k]), categories := Categories(items.value[..k]));
    assert LoadConfig(lines, c0) == LoadLinks(lines, c2);
    assert |lines| >= 2;
    var links := Items(lines[1]);
    assert links.Ok?;
    var m := Min(|c2.categories|, |links.value|);
    assert m == |c2.categories|;
    var c3 := c2.(sources := Filled(links.value, m, m));
    assert LoadLinks(lines, c2) == LoadSupp(lines, c3);
  }

  /** A load that raised nothing took every toggle of the first line. */
  lemma LoadedFirst(lines: seq<string>, c0: Config, c: Config)
    requires LoadConfig(lines, c0) == (c, Ok(()))
    ensures |lines| >= 3 && Items(lines[0]).Ok?
    ensures c.categories == Categories(Items(lines[0]).value)
    ensures |c.toggles| == |c.categories| >= 1
  {
    LoadedPath(lines, c0, c);
    var items := Items(lines[0]).value;
    assert items[..|items|] == items;
    var c2 := c0.(toggles := ToggleValues(items), categories := Categories(items));
    assert LoadConfig(lines, c0) == LoadLinks(lines, c2);
    var links := Items(lines[1]).value;
    var c3 := c2.(sources := Filled(links, |items|, |items|));
    assert LoadLinks(lines, c2) == LoadSupp(lines, c3);
  }

  /** A load that raised nothing filled one source per category from the
      second line. */
  lemma LoadedSecond(lines: seq<string>, c0: Config, c: Config)
    requires LoadConfig(lines, c0) == (c, Ok(()))
    ensures |lines| >= 3 && Items(lines[1]).Ok?
    ensures |c.categories| <= |Items(lines[1]).value|
    ensures c.sources == Filled(Items(lines[1]).value, |c.categories|, |c.categories|)
  {
    LoadedPath(lines, c0, c);
    var items := Items(lines[0]).value;
    assert items[..|items|] == items;
    var c2 := c0.(toggles := ToggleValues(items), categories := Categories(items));
    assert LoadConfig(lines, c0) == LoadLinks(lines, c2);
    var links := Items(lines[1]).value;
    var c3 := c2.(sources := Filled(links, |items|, |items|));
    assert LoadLinks(lines, c2) == LoadSupp(lines, c3);
  }

  /** A load that raised nothing took the entries of the third line. */
  lemma LoadedThird(lines: seq<string>, c0: Config, c: Config)
    requires LoadConfig(lines, c0) == (c, Ok(()))
    ensures |lines| >= 3 && |Tokens(lines[2])| >= 1
    ensures |Tokens(lines[2])| == 1 ==> c.supp == []
    ensures |Tokens(lines[2])| >= 2 ==> c.supp == Pairs(SplitOn(Tokens(lines[2])[1], ';'))
  {
    LoadedPath(lines, c0, c);
    var items := Items(lines[0]).value;
    assert items[..|items|] == items;
    var c2 := c0.(toggles := ToggleValues(items), categories := Categories(items));
    assert LoadConfig(lines, c0) == LoadLinks(lines, c2);
    var links := Items(lines[1]).value;
    var c3 := c2.(sources := Filled(links, |items|, |items|));
    assert LoadLinks(lines, c2) == LoadSupp(lines, c3);
  }

  // ---------------------------------------------------------------- save

  /** `"".join` of the first k pieces written with `;` between them. */
  function JoinOrEmpty(parts: seq<string>): string {
    if parts == [] then "" else JoinOn(parts, ';')
  }

  /** The position of the first supplementary entry with fewer than two
      fields, where `entry[1]` raises, or the count. */
  function FirstUnpaired(entries: seq<seq<string>>): (k: nat)
    ensures k <= |entries|
    ensures forall j :: 0 <= j < k ==> |entries[j]| >= 2
    ensures k < |entries| ==> |entries[k]| < 2
  {
    if entries == [] || |entries[0]| < 2 then 0
    else 1 + FirstUnpaired(entries[1..])
  }

  /** `name + "=" + link` for each entry. */
  function PairTexts(entries: seq<seq<string>>): seq<string>
    requires forall j :: 0 <= j < |entries| ==> |entries[j]| >= 2
  {
    seq(|entries|, j requires 0 <= j < |entries| => entries[j][0] + "=" + entries[j][1])
  }

  /** The items of the toggle line after the first. */
  function LaterItems(c: Config, m: nat): seq<string>
    requires 1 <= m <= |c.categories| && m <= |c.toggles|
  {
    seq(m - 1, i requires 0 <= i < m - 1 => SavedItem(c.categories[i + 1], c.toggles[i + 1]))
  }

  /** What `save_configuration` writes, and whether it raised, once the
      first item of the toggle line is `first` and the supplementary loop
      walks `entries`; the copied line is `lines[1]` of the old file. */
  function SaveWith(c: Config, lines: seq<string>, first: string, entries: seq<seq<string>>): (string, Result<()>)
    requires |c.categories| > 0 && |c.toggles| > 0
  {
    var m := Min(|c.toggles|, |c.categories|);
    var t1 := "DEFAULT_TOGGLE{" + JoinOn([first] + LaterItems(c, m), ';');
    if |c.categories| < |c.toggles| then (t1, Err("IndexError")) else
    var t2 := t1 + "}\n";
    if |lines| < 2 then (t2, Err("IndexError")) else
    var t3 := t2 + lines[1] + "SUPP_SOURCES{";
    var k := FirstUnpaired(entries);
    if k < |entries| then (t3 + JoinOrEmpty(PairTexts(entries[..k])), Err("IndexError"))
    else (t3 + JoinOrEmpty(PairTexts(entries)) + "}\n", Ok(()))
  }

  /** The entries the supplementary loop of `save_configuration` walks:
      entry 0, then entries 0 to len-2. */
  function Shifted(supp: seq<seq<string>>): (r: seq<seq<string>>)
    ensures |r| == |supp|
  {
    if supp == [] then [] else [supp[0]] + supp[..|supp| - 1]
  }

  /** `save_configuration()` as written: the first category keeps its
      spaces and the supplementary entries are those of `Shifted`. */
  function SavedAsWritten(c: Config, lines: seq<string>): (string, Result<()>) {
    if |c.categories| == 0 || |c.toggles| == 0 then ("DEFAULT_TOGGLE{", Err("IndexError"))
    else SaveWith(c, lines, c.categories[0] + "=" + Bit(c.toggles[0]), Shifted(c.supp))
  }

  /** `save_configuration()` writing every category with `_` for its
      spaces and each supplementary entry once. */
  function SavedFixed(c: Config, lines: seq<string>): (string, Result<()>) {
    if |c.categories| == 0 || |c.toggles| == 0 then ("DEFAULT_TOGGLE{", Err("IndexError"))
    else SaveWith(c, lines, SavedItem(c.categories[0], c.toggles[0]), c.supp)
  }

  // ---------------------------------------------------------- round trip

  /** A category the file can hold: its spaces become `_` and nothing else
      in it is special to the file format. */
  predicate StorableName(name: string) {
    '_' !in name && ';' !in name && '=' !in name && AllPlain(ReplaceChar(name, ' ', '_'))
  }

  /** A name or link of a supplementary entry the file can hold. */
  predicate StorableField(f: string) {
    AllPlain(f) && ';' !in f && '=' !in f
  }

  /** A supplementary entry the file can hold: a name and a link. */
  predicate StorableEntry(e: seq<string>) {
    |e| == 2 && StorableField(e[0]) && StorableField(e[1])
  }

  predicate StorableEntries(supp: seq<seq<string>>) {
    forall i :: 0 <= i < |supp| ==> |supp[i]| == 2 && StorableField(supp[i][0]) && StorableField(supp[i][1])
  }

  /** Fields that a save writes and a load reads back: one category per
      toggle, storable names and entries, and the sources those of the old
      file's second line, which the save copies. */
  predicate Storable(c: Config, lines: seq<string>) {
    |c.categories| == |c.toggles| >= 1
    && (forall i :: 0 <= i < |c.categories| ==> StorableName(c.categories[i]))
    && StorableEntries(c.supp)
    && |lines| >= 2 && IsLine(lines[1])
    && Items(lines[1]).Ok? && |c.categories| <= |Items(lines[1]).value|
    && c.sources == Filled(Items(lines[1]).value, |c.categories|, |c.categories|)
  }

  /** The items of the toggle line the corrected save writes. */
  function SavedItems(c: Config): (r: seq<string>)
    requires |c.categories| == |c.toggles|
    ensures |r| == |c.categories|
  {
    seq(|c.categories|, i requires 0 <= i < |c.categories| => SavedItem(c.categories[i], c.toggles[i]))
  }

  lemma BitText(b: bool)
    ensures AllPlain(Bit(b)) && ';' !in Bit(b) && '=' !in Bit(b) && |Bit(b)| == 1
    ensures IsDigit(Bit(b)[0]) && (Bit(b)[0] != '0') == b
  {
  }

  lemma UnderscoreBack(name: string)
    requires '_' !in name
    ensures ReplaceChar(ReplaceChar(name, ' ', '_'), '_', ' ') == name
  {
  }

  /** A saved item reads back as its category and toggle. */
  lemma SavedItemLoads(name: string, b: bool)
    requires StorableName(name)
    ensures AllPlain(SavedItem(name, b)) && ';' !in SavedItem(name, b)
    ensures Toggle(SavedItem(name, b)) == Ok(b) && Category(SavedItem(name, b)) == name
  {
    var f := ReplaceChar(name, ' ', '_');
    var item := SavedItem(name, b);
    BitText(b);
    assert '=' !in f;
    assert item == f + ['='] + Bit(b);
    SplitOnFirst(f, '=', Bit(b));
    UnderscoreBack(name);
    assert item[|item| - 1] == Bit(b)[0];
  }

  lemma {:induction false} JoinOnPlain(parts: seq<string>, sep: char)
    requires |parts| >= 1 && Plain(sep)
    requires forall i :: 0 <= i < |parts| ==> AllPlain(parts[i])
    ensures AllPlain(JoinOn(parts, sep))
  {
    if |parts| > 1 {
      JoinOnPlain(parts[1..], sep);
    }
  }

  lemma {:induction false} JoinOnNonEmpty(parts: seq<string>, sep: char)
    requires |parts| >= 1 && parts[0] != []
    ensures JoinOn(parts, sep) != []
  {
  }

  /** Each saved item reads back as its category and toggle. */
  lemma SavedItemsLoad(c: Config)
    requires |c.categories| == |c.toggles|
    requires forall i :: 0 <= i < |c.categories| ==> StorableName(c.categories[i])
    ensures forall i :: 0 <= i < |c.categories| ==>
              AllPlain(SavedItems(c)[i]) && Toggle(SavedItems(c)[i]) == Ok(c.toggles[i])
              && Category(SavedItems(c)[i]) == c.categories[i]
  {
    var items := SavedItems(c);
    forall i | 0 <= i < |items|
      ensures AllPlain(items[i]) && Toggle(items[i]) == Ok(c.toggles[i])
      ensures Category(items[i]) == c.categories[i]
    {
      SavedItemLoads(c.categories[i], c.toggles[i]);
    }
  }

  /** The corrected toggle line reads back as the toggles and categories. */
  lemma ToggleLineLoads(c: Config)
    requires |c.categories| == |c.toggles| >= 1
    requires forall i :: 0 <= i < |c.categories| ==> StorableName(c.categories[i])
    ensures AllPlain(JoinOn(SavedItems(c), ';')) && JoinOn(SavedItems(c), ';') != []
    ensures Items("DEFAULT_TOGGLE{" + JoinOn(SavedItems(c), ';') + "}\n") == Ok(SavedItems(c))
    ensures FirstBad(SavedItems(c)) == |c.toggles|
    ensures ToggleValues(SavedItems(c)) == c.toggles && Categories(SavedItems(c)) == c.categories
  {
    var items := SavedItems(c);
    SavedItemsLoad(c);
    forall i | 0 <= i < |items|
      ensures ';' !in items[i]
    {
      SavedItemLoads(c.categories[i], c.toggles[i]);
    }
    var j := JoinOn(items, ';');
    JoinOnPlain(items, ';');
    JoinOnNonEmpty(items, ';');
    TagsPlain();
    FramedItems("DEFAULT_TOGGLE", j);
    SplitOnJoinOn(items, ';');
    FirstBadIs(items, |items|);
  }

  /** `name=link` splits back into the entry. */
  lemma PairTextLoads(e: seq<string>)
    requires StorableEntry(e)
    ensures AllPlain(e[0] + "=" + e[1]) && ';' !in e[0] + "=" + e[1] && e[0] + "=" + e[1] != []
    ensures SplitOn(e[0] + "=" + e[1], '=') == e
  {
    var p := e[0] + "=" + e[1];
    assert p == e[0] + ['='] + e[1];
    SplitOnFirst(e[0], '=', e[1]);
    SplitOnNoSep(e[1], '=');
    assert [e[0]] + [e[1]] == e;
  }

  /** Each entry written as `name=link` reads back as the entry. */
  lemma PairTextsLoad(supp: seq<seq<string>>)
    requires StorableEntries(supp)
    ensures forall i :: 0 <= i < |supp| ==>
              AllPlain(PairTexts(supp)[i]) && ';' !in PairTexts(supp)[i] && PairTexts(supp)[i] != []
              && SplitOn(PairTexts(supp)[i], '=') == supp[i]
  {
    var ps := PairTexts(supp);
    forall i | 0 <= i < |ps|
      ensures AllPlain(ps[i]) && ';' !in ps[i] && ps[i] != [] && SplitOn(ps[i], '=') == supp[i]
    {
      PairTextLoads(supp[i]);
    }
  }

  /** The corrected supplementary line reads back as the entries. */
  lemma SuppLineLoads(supp: seq<seq<string>>)
    requires StorableEntries(supp)
    ensures AllPlain(JoinOrEmpty(PairTexts(supp)))
    ensures supp == [] ==> |Tokens("SUPP_SOURCES{" + JoinOrEmpty(PairTexts(supp)) + "}\n")| == 1
    ensures supp != [] ==>
              |Tokens("SUPP_SOURCES{" + JoinOrEmpty(PairTexts(supp)) + "}\n")| >= 2
              && Pairs(SplitOn(Tokens("SUPP_SOURCES{" + JoinOrEmpty(PairTexts(supp)) + "}\n")[1], ';')) == supp
  {
    var ps := PairTexts(supp);
    var j := JoinOrEmpty(ps);
    TagsPlain();
    if supp == [] {
      assert j == [];
      FramedTokens("SUPP_SOURCES", j);
    } else {
      PairTextsLoad(supp);
      JoinOnPlain(ps, ';');
      JoinOnNonEmpty(ps, ';');
      SplitOnJoinOn(ps, ';');
      FramedTokens("SUPP_SOURCES", j);
      var t := Tokens("SUPP_SOURCES{" + j + "}\n");
      assert t[1] == j;
      assert SplitOn(j, ';') == ps;
      assert Pairs(ps) == supp;
    }
  }

  lemma FramedLine(tag: string, body: string)
    requires AllPlain(tag) && AllPlain(body)
    ensures IsLine(tag + "{" + body + "}\n")
  {
    var l := tag + "{" + body + "}\n";
    forall i | 0 <= i < |l| - 1
      ensures l[i] != '\n'
    {
      if i < |tag| {
        assert l[i] == tag[i];
      } else if |tag| < i < |tag| + 1 + |body| {
        assert l[i] == body[i - |tag| - 1];
      }
    }
  }

  /** The corrected toggle line: the items of every category. */
  lemma SaveWithToggles(c: Config, lines: seq<string>)
    requires |c.categories| == |c.toggles| >= 1 && |lines| >= 2
    ensures [SavedItem(c.categories[0], c.toggles[0])] + LaterItems(c, |c.toggles|) == SavedItems(c)
  {
  }

  /** Storable entries all have a second field: the save loop never raises. */
  lemma {:induction false} AllPaired(entries: seq<seq<string>>)
    requires StorableEntries(entries)
    ensures FirstUnpaired(entries) == |entries|
  {
    if entries != [] {
      var tail := entries[1..];
      assert forall i :: 0 <= i < |tail| ==> tail[i] == entries[i + 1];
      AllPaired(tail);
    }
  }

  /** The corrected save of storable fields raises nothing. */
  lemma SavedFixedText(c: Config, lines: seq<string>)
    requires Storable(c, lines)
    ensures SavedFixed(c, lines)
              == ("DEFAULT_TOGGLE{" + JoinOn(SavedItems(c), ';') + "}\n" + lines[1]
                  + "SUPP_SOURCES{" + JoinOrEmpty(PairTexts(c.supp)) + "}\n", Ok(()))
  {
    SaveWithToggles(c, lines);
    AllPaired(c.supp);
  }

  /** The saved text is the three lines, one after the other. */
  lemma ThreeLines(j1: string, l2: string, j3: string)
    ensures "DEFAULT_TOGGLE{" + j1 + "}\n" + l2 + "SUPP_SOURCES{" + j3 + "}\n"
            == ("DEFAULT_TOGGLE{" + j1 + "}\n") + l2 + ("SUPP_SOURCES{" + j3 + "}\n")
  {
  }

  /** A load that meets complete toggle, link and supplementary lines. */
  lemma LoadConfigOk(lines: seq<string>, c: Config, items: seq<string>, links: seq<string>)
    requires |lines| >= 3 && Items(lines[0]) == Ok(items) && FirstBad(items) == |items|
    requires Items(lines[1]) == Ok(links) && |items| <= |links|
    requires |Tokens(lines[2])| >= 1
    ensures LoadConfig(lines, c)
              == (Config(ToggleValues(items), Categories(items), Filled(links, |items|, |items|),
                         if |Tokens(lines[2])| == 1 then [] else Pairs(SplitOn(Tokens(lines[2])[1], ';'))),
                  Ok(()))
  {
    assert items[..|items|] == items;
    var n := |items|;
    var c2 := c.(toggles := ToggleValues(items), categories := Categories(items));
    assert LoadConfig(lines, c) == LoadLinks(lines, c2);
    var c3 := c2.(sources := Filled(links, n, n));
    assert LoadLinks(lines, c2) == LoadSupp(lines, c3);
  }

  /** The corrected save followed by a load gives the same fields back,
      whatever the fields were before the load. */
  lemma SavedFixedLoads(c: Config, lines: seq<string>, c0: Config)
    requires Storable(c, lines)
    ensures SavedFixed(c, lines).1 == Ok(())
    ensures LoadConfig(ReadLines(SavedFixed(c, lines).0), c0) == (c, Ok(()))
  {
    var items := SavedItems(c);
    var j1 := JoinOn(items, ';');
    var j3 := JoinOrEmpty(PairTexts(c.supp));
    var l1 := "DEFAULT_TOGGLE{" + j1 + "}\n";
    var l3 := "SUPP_SOURCES{" + j3 + "}\n";
    SavedFixedText(c, lines);
    ThreeLines(j1, lines[1], j3);
    TagsPlain();
    ToggleLineLoads(c);
    SuppLineLoads(c.supp);
    FramedLine("DEFAULT_TOGGLE", j1);
    FramedLine("SUPP_SOURCES", j3);
    ReadThree(l1, lines[1], l3);
    var read := [l1, lines[1], l3];
    LoadConfigOk(read, c0, items, Items(lines[1]).value);
  }

  // --------------------------------------------- loaded fields are storable

  lemma ItemsPlain(line: string)
    requires Items(line).Ok?
    ensures forall i :: 0 <= i < |Items(line).value| ==> AllPlain(Items(line).value[i]) && ';' !in Items(line).value[i]
  {
    TokensPlain(line);
    var t := Tokens(line);
    SplitOnPlain(t[1], ';');
  }

  /** A loaded category is storable. */
  lemma CategoryStorable(item: string)
    requires AllPlain(item) && ';' !in item
    ensures StorableName(Category(item))
  {
    var f := SplitOn(item, '=')[0];
    SplitOnPlain(item, '=');
    SplitOnWithout(item, '=', ';');
    var name := Category(item);
    assert ReplaceChar(name, ' ', '_') == f;
  }

  /** A loaded supplementary entry with exactly two fields is storable. */
  lemma EntryStorable(entry: string)
    requires AllPlain(entry) && ';' !in entry && |SplitOn(entry, '=')| == 2
    ensures StorableEntry(SplitOn(entry, '='))
  {
    SplitOnPlain(entry, '=');
    SplitOnWithout(entry, '=', ';');
  }

  /** The categories read from a toggle line are storable. */
  lemma LoadedToggles(line: string, categories: seq<string>)
    requires Items(line).Ok? && categories == Categories(Items(line).value)
    ensures forall i :: 0 <= i < |categories| ==> StorableName(categories[i])
  {
    var items := Items(line).value;
    ItemsPlain(line);
    forall i | 0 <= i < |categories|
      ensures StorableName(categories[i])
    {
      CategoryStorable(items[i]);
    }
  }

  /** The entries read from a supplementary line, when each has two fields,
      are storable. */
  lemma LoadedSupp(line: string, supp: seq<seq<string>>)
    requires |Tokens(line)| < 2 ==> supp == []
    requires |Tokens(line)| >= 2 ==> supp == Pairs(SplitOn(Tokens(line)[1], ';'))
    requires forall i :: 0 <= i < |supp| ==> |supp[i]| == 2
    ensures StorableEntries(supp)
  {
    var t := Tokens(line);
    if |t| >= 2 {
      TokensPlain(line);
      SplitOnPlain(t[1], ';');
      var entries := SplitOn(t[1], ';');
      forall i | 0 <= i < |supp|
        ensures StorableEntry(supp[i])
      {
        assert supp[i] == SplitOn(entries[i], '=');
        EntryStorable(entries[i]);
      }
    }
  }

  /** Fields loaded from a file whose supplementary entries each hold one
      `=` can be saved and read back. */
  lemma LoadedStorable(text: string, c0: Config, c: Config)
    requires LoadConfig(ReadLines(text), c0) == (c, Ok(()))
    requires forall i :: 0 <= i < |c.supp| ==> |c.supp[i]| == 2
    ensures Storable(c, ReadLines(text))
  {
    var lines := ReadLines(text);
    LoadedFirst(lines, c0, c);
    LoadedSecond(lines, c0, c);
    LoadedThird(lines, c0, c);
    LoadedToggles(lines[0], c.categories);
    LoadedSupp(lines[2], c.supp);
    ReadLinesShape(text);
    assert IsLine(lines[1]);
  }

  /** With the corrected save, saving what was loaded and loading again
      gives the same fields: the file is a fixed point of load-then-save. */
  lemma ConfigRoundTrip(text: string, c0: Config, c1: Config, c: Config)
    requires LoadConfig(ReadLines(text), c0) == (c, Ok(()))
    requires forall i :: 0 <= i < |c.supp| ==> |c.supp[i]| == 2
    ensures SavedFixed(c, ReadLines(text)).1 == Ok(())
    ensures LoadConfig(ReadLines(SavedFixed(c, ReadLines(text)).0), c1) == (c, Ok(()))
  {
    LoadedStorable(text, c0, c);
    SavedFixedLoads(c, ReadLines(text), c1);
  }

  // ------------------------------------------------------- as written

  /** `Shifted` keeps a list only when every entry equals the first. */
  lemma {:induction false} ShiftedKeeps(supp: seq<seq<string>>, i: nat)
    requires Shifted(supp) == supp && i < |supp|
    ensures supp[i] == supp[0]
  {
    if i > 0 {
      ShiftedKeeps(supp, i - 1);
      assert Shifted(supp)[i] == supp[i - 1];
    }
  }

  /** Without a space in the first category, the as-written save differs
      from the corrected one only in the entries it walks. */
  lemma AsWrittenIsFixedShifted(c: Config, lines: seq<string>)
    requires |c.categories| >= 1 && |c.toggles| >= 1 && ' ' !in c.categories[0]
    ensures SavedAsWritten(c, lines) == SavedFixed(c.(supp := Shifted(c.supp)), lines)
  {
    ReplaceCharAbsent(c.categories[0], ' ', '_');
    var first := c.categories[0] + "=" + Bit(c.toggles[0]);
    assert SavedItem(c.categories[0], c.toggles[0]) == first;
    var s := c.(supp := Shifted(c.supp));
    assert LaterItems(s, Min(|s.toggles|, |s.categories|)) == LaterItems(c, Min(|c.toggles|, |c.categories|));
  }

  /** When the first category has no space, the as-written save is the
      corrected save of the shifted entries: reloading it brings entry 0
      back twice and loses the last entry. */
  lemma AsWrittenShiftsSupp(c: Config, lines: seq<string>, c0: Config)
    requires Storable(c, lines) && ' ' !in c.categories[0]
    ensures SavedAsWritten(c, lines) == SavedFixed(c.(supp := Shifted(c.supp)), lines)
    ensures LoadConfig(ReadLines(SavedAsWritten(c, lines).0), c0) == (c.(supp := Shifted(c.supp)), Ok(()))
    ensures (exists i :: 0 <= i < |c.supp| && c.supp[i] != c.supp[0])
            ==> LoadConfig(ReadLines(SavedAsWritten(c, lines).0), c0) != (c, Ok(()))
  {
    var s := c.(supp := Shifted(c.supp));
    AsWrittenIsFixedShifted(c, lines);
    ShiftedStorable(c.supp);
    SavedFixedLoads(s, lines, c0);
    if exists i :: 0 <= i < |c.supp| && c.supp[i] != c.supp[0] {
      var i :| 0 <= i < |c.supp| && c.supp[i] != c.supp[0];
      if Shifted(c.supp) == c.supp {
        ShiftedKeeps(c.supp, i);
      }
    }
  }

  /** When the first category holds a space after a non-empty word u, the
      as-written save cannot be read back: the toggle line's second token
      is u alone, so the load raises or finds the single category u. */
  lemma AsWrittenFirstCategoryBreaks(c: Config, lines: seq<string>, c0: Config, u: string, v: string)
    requires Storable(c, lines) && c.categories[0] == u + " " + v && u != [] && ' ' !in u
    ensures LoadConfig(ReadLines(SavedAsWritten(c, lines).0), c0) != (c, Ok(()))
  {
    var read := ReadLines(SavedAsWritten(c, lines).0);
    AsWrittenFirstLine(c, lines, u, v);
    var items := [u];
    LoadedCategories(read, c0);
    SplitOnNoSep(u, '=');
    ReplaceCharAbsent(u, '_', ' ');
    assert Category(u) == u;
    assert Categories(items[..FirstBad(items)]) != c.categories by {
      assert FirstBad(items) == 1 ==> items[..1] == [u] && |u| < |c.categories[0]|;
    }
  }

  /** The as-written toggle line holds the single item u. */
  lemma AsWrittenFirstLine(c: Config, lines: seq<string>, u: string, v: string)
    requires Storable(c, lines) && c.categories[0] == u + " " + v && u != [] && ' ' !in u
    ensures |ReadLines(SavedAsWritten(c, lines).0)| > 0
    ensures Items(ReadLines(SavedAsWritten(c, lines).0)[0]) == Ok([u])
    ensures '_' !in u
  {
    var name := c.categories[0];
    var text := SavedAsWritten(c, lines).0;
    var w := v + "=" + Bit(c.toggles[0]) + JoinRest(c);
    var rest := lines[1] + "SUPP_SOURCES{" + JoinOrEmpty(PairTexts(Shifted(c.supp))) + "}\n";
    var l1 := "DEFAULT_TOGGLE{" + u + " " + w + "}\n";
    SavedAsWrittenText(c, lines);
    FirstLineSplit(u, v, Bit(c.toggles[0]), JoinRest(c), lines[1], JoinOrEmpty(PairTexts(Shifted(c.supp))));
    assert text == l1 + rest;
    HeadWordPlain(name, u, v);
    assert IsLine(l1) by {
      NoNewlineInName(name);
      TailChars(u, v, '\n');
      NoNewlineInRest(c, v);
      UnbracedLine(u, w);
    }
    ReadLinesCons(l1, rest);
    HeadWordItems(u, w);
  }

  /** What follows the first space of a name holds none of the characters
      the name lacks. */
  lemma TailChars(u: string, v: string, x: char)
    requires x !in u + " " + v
    ensures x !in v
  {
    var name := u + " " + v;
    assert forall i :: 0 <= i < |v| ==> v[i] == name[|u| + 1 + i];
  }

  /** A toggle line `DEFAULT_TOGGLE{u w}` holds the single item u. */
  lemma HeadWordItems(u: string, w: string)
    requires u != [] && AllPlain(u) && ';' !in u
    ensures Items("DEFAULT_TOGGLE{" + u + " " + w + "}\n") == Ok([u])
  {
    HeadWordTokens(u, w);
    SplitOnNoSep(u, ';');
    SecondTokenItems("DEFAULT_TOGGLE{" + u + " " + w + "}\n", u);
  }

  lemma HeadWordTokens(u: string, w: string)
    requires u != [] && AllPlain(u)
    ensures |Tokens("DEFAULT_TOGGLE{" + u + " " + w + "}\n")| >= 2
    ensures Tokens("DEFAULT_TOGGLE{" + u + " " + w + "}\n")[1] == u
  {
    TagsPlain();
    SecondTokenBeforeSpace("DEFAULT_TOGGLE", u, w + "}\n");
    ToggleLineText(u, w);
  }

  lemma ToggleLineText(u: string, w: string)
    ensures "DEFAULT_TOGGLE" + "{" + u + " " + (w + "}\n") == "DEFAULT_TOGGLE{" + u + " " + w + "}\n"
  {
  }

  /** A line whose second token has no `;` holds that token as its one item. */
  lemma SecondTokenItems(line: string, u: string)
    requires |Tokens(line)| >= 2 && Tokens(line)[1] == u && SplitOn(u, ';') == [u]
    ensures Items(line) == Ok([u])
  {
  }

  /** The word before the first space of a storable name is storable text. */
  lemma HeadWordPlain(name: string, u: string, v: string)
    requires StorableName(name) && name == u + " " + v && ' ' !in u
    ensures AllPlain(u) && '_' !in u && ';' !in u && '=' !in u
  {
    forall i | 0 <= i < |u|
      ensures Plain(u[i]) && u[i] != '_' && u[i] != ';' && u[i] != '='
    {
      assert name[i] == u[i];
      assert ReplaceChar(name, ' ', '_')[i] == u[i];
    }
  }

  /** A toggle line `DEFAULT_TOGGLE{u w}` with no newline in u or w is a
      complete line. */
  lemma UnbracedLine(u: string, w: string)
    requires '\n' !in u && '\n' !in w
    ensures IsLine("DEFAULT_TOGGLE{" + u + " " + w + "}\n")
  {
    var l1 := "DEFAULT_TOGGLE{" + u + " " + w + "}\n";
    forall i | 0 <= i < |l1| - 1
      ensures l1[i] != '\n'
    {
      if 15 <= i < 15 + |u| {
        assert l1[i] == u[i - 15];
      } else if 16 + |u| <= i < 16 + |u| + |w| {
        assert l1[i] == w[i - 16 - |u|];
      }
    }
  }

  /** The as-written text regrouped as its toggle line and the rest. */
  lemma FirstLineSplit(u: string, v: string, bit: string, later: string, l2: string, j3: string)
    ensures "DEFAULT_TOGGLE{" + (u + " " + v + "=" + bit + later) + "}\n" + l2 + "SUPP_SOURCES{" + j3 + "}\n"
            == ("DEFAULT_TOGGLE{" + u + " " + (v + "=" + bit + later) + "}\n") + (l2 + "SUPP_SOURCES{" + j3 + "}\n")
  {
  }

  /** The text of the toggle items after the first, each with its `;`. */
  function JoinRest(c: Config): string
    requires |c.categories| == |c.toggles| >= 1
  {
    var later := LaterItems(c, |c.toggles|);
    if later == [] then "" else [';'] + JoinOn(later, ';')
  }

  /** Joining a first part before the others. */
  lemma JoinFirst(first: string, later: seq<string>, sep: char)
    ensures JoinOn([first] + later, sep) == first + (if later == [] then "" else [sep] + JoinOn(later, sep))
  {
    var parts := [first] + later;
    if later != [] {
      assert parts[1..] == later;
    }
  }

  /** The shifted entries of storable entries are storable. */
  lemma ShiftedStorable(supp: seq<seq<string>>)
    requires StorableEntries(supp)
    ensures StorableEntries(Shifted(supp))
  {
    var s := Shifted(supp);
    forall i | 0 <= i < |s|
      ensures |s[i]| == 2 && StorableField(s[i][0]) && StorableField(s[i][1])
    {
      if i > 0 {
        assert s[i] == supp[i - 1];
      }
    }
  }

  /** The as-written save of storable fields raises nothing. */
  lemma SavedAsWrittenText(c: Config, lines: seq<string>)
    requires Storable(c, lines)
    ensures SavedAsWritten(c, lines)
            == ("DEFAULT_TOGGLE{" + (c.categories[0] + "=" + Bit(c.toggles[0]) + JoinRest(c)) + "}\n"
                + lines[1] + "SUPP_SOURCES{" + JoinOrEmpty(PairTexts(Shifted(c.supp))) + "}\n", Ok(()))
  {
    ShiftedStorable(c.supp);
    AllPaired(Shifted(c.supp));
    JoinFirst(c.categories[0] + "=" + Bit(c.toggles[0]), LaterItems(c, |c.toggles|), ';');
  }

  lemma NoNewlineInName(name: string)
    requires StorableName(name)
    ensures '\n' !in name
  {
  }

  lemma NoNewlineInRest(c: Config, v: string)
    requires |c.categories| == |c.toggles| >= 1
    requires forall i :: 0 <= i < |c.categories| ==> StorableName(c.categories[i])
    requires '\n' !in v
    ensures '\n' !in v + "=" + Bit(c.toggles[0]) + JoinRest(c)
  {
    var later := LaterItems(c, |c.toggles|);
    forall i | 0 <= i < |later|
      ensures AllPlain(later[i])
    {
      SavedItemLoads(c.categories[i + 1], c.toggles[i + 1]);
    }
    if later != [] {
      JoinOnPlain(later, ';');
    }
  }
}
