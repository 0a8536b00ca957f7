/*
 * The lists of the Tkinter front end (Tkinter_GUI.py): the search filter of
 * the search list, the merge-and-sort of the tracked list and the delete
 * of selected rows, as functions on the lists, with what they promise.
 */
module TkinterLists {
  import opened Wrappers
  import opened PyText

  // --------------------------------------------------------------- search

  /** The row test of `update_search_list`: the lowercased term inside the
      lowercased name, or the raw term inside the number's digits. */
  predicate Matches(term: string, name: string, number: int) {
    Contains(Lower(name), Lower(term)) || Contains(IntToStr(number), term)
  }

  /** For each catalog row, whether the search keeps it. */
  function Mask(term: string, names: seq<string>, numbers: seq<int>): (mask: seq<bool>)
    requires |names| == |numbers|
    ensures |mask| == |names|
    ensures forall i :: 0 <= i < |mask| ==> (mask[i] <==> Matches(term, names[i], numbers[i]))
  {
    seq(|names|, i requires 0 <= i < |names| => Matches(term, names[i], numbers[i]))
  }

  /** The positions below n that the mask keeps, in order. */
  function Hits(mask: seq<bool>, n: nat): (hits: seq<nat>)
    requires n <= |mask|
    ensures forall k :: 0 <= k < |hits| ==> hits[k] < n
  {
    if n == 0 then []
    else if mask[n - 1] then Hits(mask, n - 1) + [n - 1]
    else Hits(mask, n - 1)
  }

  /** The entries of s at the positions idx. */
  function Pick<T>(s: seq<T>, idx: seq<nat>): (r: seq<T>)
    requires forall k :: 0 <= k < |idx| ==> idx[k] < |s|
    ensures |r| == |idx|
  {
    seq(|idx|, k requires 0 <= k < |idx| => s[idx[k]])
  }

  lemma PickSnoc<T>(s: seq<T>, idx: seq<nat>, i: nat)
    requires forall k :: 0 <= k < |idx| ==> idx[k] < |s|
    requires i < |s|
    ensures Pick(s, idx + [i]) == Pick(s, idx) + [s[i]]
  {
  }

  /** The entries of s below n that the mask keeps, in order. */
  function Kept<T>(s: seq<T>, mask: seq<bool>, n: nat): seq<T>
    requires n <= |s| && n <= |mask|
  {
    if n == 0 then []
    else if mask[n - 1] then Kept(s, mask, n - 1) + [s[n - 1]]
    else Kept(s, mask, n - 1)
  }

  /** Keeping entry by entry picks the entries at the kept positions. */
  lemma {:induction false} KeptIsPick<T>(s: seq<T>, mask: seq<bool>, n: nat)
    requires n <= |s| && n <= |mask|
    ensures Kept(s, mask, n) == Pick(s, Hits(mask, n))
  {
    if n > 0 {
      KeptIsPick(s, mask, n - 1);
      if mask[n - 1] {
        PickSnoc(s, Hits(mask, n - 1), n - 1);
      }
    }
  }

  /** The kept positions are in list order, each once. */
  lemma {:induction false} HitsIncreasing(mask: seq<bool>, n: nat)
    requires n <= |mask|
    ensures forall k, l :: 0 <= k < l < |Hits(mask, n)| ==> Hits(mask, n)[k] < Hits(mask, n)[l]
  {
    if n > 0 {
      HitsIncreasing(mask, n - 1);
      var prev := Hits(mask, n - 1);
      if mask[n - 1] {
        var hits := prev + [n - 1];
        forall k, l | 0 <= k < l < |hits|
          ensures hits[k] < hits[l]
        {
          assert hits[k] == prev[k];
        }
      }
    }
  }

  /** A position is kept exactly when the mask keeps it. */
  lemma {:induction false} HitsExact(mask: seq<bool>, n: nat)
    requires n <= |mask|
    ensures forall i :: 0 <= i < n ==> (i in Hits(mask, n) <==> mask[i])
  {
    if n > 0 {
      HitsExact(mask, n - 1);
      var prev := Hits(mask, n - 1);
      assert n - 1 !in prev;
      if mask[n - 1] {
        assert forall i :: i in prev + [n - 1] <==> i in prev || i == n - 1;
      }
    }
  }

  /** The search keeps exactly the matching rows, each once, in list order. */
  lemma SearchHitsExact(term: string, names: seq<string>, numbers: seq<int>)
    requires |names| == |numbers|
    ensures forall k, l :: 0 <= k < l < |Hits(Mask(term, names, numbers), |names|)|
              ==> Hits(Mask(term, names, numbers), |names|)[k] < Hits(Mask(term, names, numbers), |names|)[l]
    ensures forall i :: 0 <= i < |names|
              ==> (i in Hits(Mask(term, names, numbers), |names|) <==> Matches(term, names[i], numbers[i]))
  {
    HitsIncreasing(Mask(term, names, numbers), |names|);
    HitsExact(Mask(term, names, numbers), |names|);
  }

  /** A mask keeping every row keeps every position. */
  lemma {:induction false} HitsAll(mask: seq<bool>, n: nat)
    requires n <= |mask|
    requires forall i :: 0 <= i < |mask| ==> mask[i]
    ensures Hits(mask, n) == seq(n, i => i)
  {
    if n > 0 {
      HitsAll(mask, n - 1);
    }
  }

  /** With an empty term every row is kept: the empty string is in every
      string. */
  lemma SearchAllOnEmptyTerm(names: seq<string>, numbers: seq<int>)
    requires |names| == |numbers|
    ensures Hits(Mask("", names, numbers), |names|) == seq(|names|, i => i)
  {
    var mask := Mask("", names, numbers);
    forall i | 0 <= i < |names|
      ensures mask[i]
    {
      assert [] <= Lower(names[i]);
      assert Contains(Lower(names[i]), Lower(""));
    }
    HitsAll(mask, |names|);
  }

  // ----------------------------------------------------------------- sort

  /** Python's `<` on strings: code point by code point, a proper prefix
      before the longer string. */
  predicate StrLess(a: string, b: string)
    decreases |a|
  {
    b != [] && (a == [] || a[0] < b[0] || (a[0] == b[0] && StrLess(a[1..], b[1..])))
  }

  lemma {:induction false} StrLessIrreflexive(a: string)
    ensures !StrLess(a, a)
    decreases |a|
  {
    if a != [] {
      StrLessIrreflexive(a[1..]);
    }
  }

  lemma {:induction false} StrLessTotal(a: string, b: string)
    ensures a == b || StrLess(a, b) || StrLess(b, a)
    decreases |a|
  {
    if a != [] && b != [] && a[0] == b[0] {
      StrLessTotal(a[1..], b[1..]);
      if a[1..] == b[1..] {
        assert a == [a[0]] + a[1..] && b == [b[0]] + b[1..];
      }
    }
  }

  lemma {:induction false} StrLessTrans(a: string, b: string, c: string)
    requires StrLess(a, b) && StrLess(b, c)
    ensures StrLess(a, c)
    decreases |a|
  {
    if a != [] && a[0] == b[0] && b[0] == c[0] {
      StrLessTrans(a[1..], b[1..], c[1..]);
    }
  }

  /** A row of the search and tracked lists: a name and its number. */
  type Row = (string, int)

  /** Python's `<` on `(name, number)` tuples. */
  predicate RowLess(p: Row, q: Row) {
    StrLess(p.0, q.0) || (p.0 == q.0 && p.1 < q.1)
  }

  predicate RowLeq(p: Row, q: Row) {
    p == q || RowLess(p, q)
  }

  lemma RowTotal(p: Row, q: Row)
    ensures RowLeq(p, q) || RowLeq(q, p)
  {
    StrLessTotal(p.0, q.0);
  }

  lemma RowLeqTrans(p: Row, q: Row, r: Row)
    requires RowLeq(p, q) && RowLeq(q, r)
    ensures RowLeq(p, r)
  {
    if p != q && q != r {
      if StrLess(p.0, q.0) && StrLess(q.0, r.0) {
        StrLessTrans(p.0, q.0, r.0);
      }
    }
  }

  lemma RowAntisym(p: Row, q: Row)
    requires RowLeq(p, q) && RowLeq(q, p)
    ensures p == q
  {
    if p != q {
      if StrLess(p.0, q.0) && StrLess(q.0, p.0) {
        StrLessTrans(p.0, q.0, p.0);
      }
      StrLessIrreflexive(p.0);
    }
  }

  predicate SortedRows(s: seq<Row>) {
    forall i, j :: 0 <= i < j < |s| ==> RowLeq(s[i], s[j])
  }

  /** x placed before the first row it does not exceed. */
  function Insert(x: Row, s: seq<Row>): (r: seq<Row>)
    ensures |r| == |s| + 1
    ensures multiset(r) == multiset(s) + multiset{x}
  {
    if s == [] || RowLeq(x, s[0]) then [x] + s
    else
      assert s == [s[0]] + s[1..];
      [s[0]] + Insert(x, s[1..])
  }

  /** `sorted` on rows, as an insertion sort. */
  function SortRows(s: seq<Row>): (r: seq<Row>)
    ensures |r| == |s|
    ensures multiset(r) == multiset(s)
  {
    if s == [] then []
    else
      assert s == [s[0]] + s[1..];
      Insert(s[0], SortRows(s[1..]))
  }

  /** Every row of s is at least the first row of sorted s. */
  lemma SortedHead(s: seq<Row>, y: Row)
    requires SortedRows(s) && s != [] && y in multiset(s)
    ensures RowLeq(s[0], y)
  {
    var k :| 0 <= k < |s| && s[k] == y;
    if k > 0 {
      assert RowLeq(s[0], s[k]);
    }
  }

  lemma {:induction false} InsertSorted(x: Row, s: seq<Row>)
    requires SortedRows(s)
    ensures SortedRows(Insert(x, s))
    decreases |s|
  {
    var r := Insert(x, s);
    if s == [] || RowLeq(x, s[0]) {
      forall i, j | 0 <= i < j < |r|
        ensures RowLeq(r[i], r[j])
      {
        if i == 0 && j > 1 {
          RowLeqTrans(x, s[0], s[j - 1]);
        } else if i > 0 {
          assert r[i] == s[i - 1] && r[j] == s[j - 1];
        }
      }
    } else {
      var tail := s[1..];
      assert SortedRows(tail) by {
        forall i, j | 0 <= i < j < |tail|
          ensures RowLeq(tail[i], tail[j])
        {
          assert tail[i] == s[i + 1] && tail[j] == s[j + 1];
        }
      }
      InsertSorted(x, tail);
      var rest := Insert(x, tail);
      RowTotal(x, s[0]);
      assert r == [s[0]] + rest;
      forall i, j | 0 <= i < j < |r|
        ensures RowLeq(r[i], r[j])
      {
        if i == 0 {
          var y := rest[j - 1];
          assert y in multiset(rest);
          if y == x {
          } else {
            assert y in multiset(tail);
            var m :| 0 <= m < |tail| && tail[m] == y;
            assert s[m + 1] == y;
          }
        } else {
          assert r[i] == rest[i - 1] && r[j] == rest[j - 1];
        }
      }
    }
  }

  /** The insertion sort sorts. */
  lemma {:induction false} SortRowsSorted(s: seq<Row>)
    ensures SortedRows(SortRows(s))
  {
    if s != [] {
      SortRowsSorted(s[1..]);
      InsertSorted(s[0], SortRows(s[1..]));
    }
  }

  lemma SortedTail(s: seq<Row>)
    requires SortedRows(s) && s != []
    ensures SortedRows(s[1..])
  {
    forall i, j | 0 <= i < j < |s[1..]|
      ensures RowLeq(s[1..][i], s[1..][j])
    {
      assert s[1..][i] == s[i + 1] && s[1..][j] == s[j + 1];
    }
  }

  lemma MultisetTail(a: seq<Row>, b: seq<Row>)
    requires a != [] && b != [] && a[0] == b[0] && multiset(a) == multiset(b)
    ensures multiset(a[1..]) == multiset(b[1..])
  {
    assert a == [a[0]] + a[1..] && b == [b[0]] + b[1..];
    forall y
      ensures multiset(a[1..])[y] == multiset(b[1..])[y]
    {
      assert multiset(a)[y] == multiset([a[0]])[y] + multiset(a[1..])[y];
      assert multiset(b)[y] == multiset([a[0]])[y] + multiset(b[1..])[y];
    }
  }

  /** A multiset of rows has one sorted order: any sort, Python's included,
      gives the rows of `SortRows`. */
  lemma {:induction false} SortedUnique(a: seq<Row>, b: seq<Row>)
    requires SortedRows(a) && SortedRows(b) && multiset(a) == multiset(b)
    ensures a == b
    decreases |a|
  {
    assert |a| == |multiset(a)| == |multiset(b)| == |b|;
    if a != [] {
      assert a[0] in multiset(a) && b[0] in multiset(b);
      SortedHead(b, a[0]);
      SortedHead(a, b[0]);
      RowAntisym(a[0], b[0]);
      MultisetTail(a, b);
      SortedTail(a);
      SortedTail(b);
      SortedUnique(a[1..], b[1..]);
      assert a == [a[0]] + a[1..] && b == [b[0]] + b[1..];
    }
  }

  // ---------------------------------------------------------- zip, unzip

  /** `zip(names, numbers)`: as many rows as the shorter list. */
  function Zip(names: seq<string>, numbers: seq<int>): (r: seq<Row>)
    ensures |r| == Min(|names|, |numbers|)
    ensures forall k :: 0 <= k < |r| ==> r[k] == (names[k], numbers[k])
  {
    seq(Min(|names|, |numbers|), k requires 0 <= k < Min(|names|, |numbers|) => (names[k], numbers[k]))
  }

  function Names(rows: seq<Row>): (r: seq<string>)
    ensures |r| == |rows|
  {
    seq(|rows|, k requires 0 <= k < |rows| => rows[k].0)
  }

  function Numbers(rows: seq<Row>): (r: seq<int>)
    ensures |r| == |rows|
  {
    seq(|rows|, k requires 0 <= k < |rows| => rows[k].1)
  }

  lemma ZipUnzip(rows: seq<Row>)
    ensures Zip(Names(rows), Numbers(rows)) == rows
  {
  }

  // --------------------------------------------------------------- select

  /** The tracked names and numbers after the selection loop of
      `search_select`: each picked row whose number is not yet among the
      numbers is appended to both lists. */
  function Merge(names: seq<string>, numbers: seq<int>, picks: seq<Row>): (r: (seq<string>, seq<int>))
    ensures names <= r.0 && numbers <= r.1
    ensures |r.0| - |names| == |r.1| - |numbers|
    decreases |picks|
  {
    if picks == [] then (names, numbers)
    else
      var m := Merge(names, numbers, picks[..|picks| - 1]);
      var p := picks[|picks| - 1];
      if p.1 in m.1 then m else (m.0 + [p.0], m.1 + [p.1])
  }

  /** `search_select` after the merge: the zipped rows sorted and unzipped,
      or ValueError when the zip is empty and the unpacking finds nothing. */
  function Select(names: seq<string>, numbers: seq<int>, picks: seq<Row>): (seq<string>, seq<int>, Result<()>) {
    var m := Merge(names, numbers, picks);
    var z := Zip(m.0, m.1);
    if z == [] then (m.0, m.1, Err("ValueError"))
    else
      var s := SortRows(z);
      (Names(s), Numbers(s), Ok(()))
  }

  predicate NoDup(s: seq<int>) {
    forall i, j :: 0 <= i < j < |s| ==> s[i] != s[j]
  }

  /** After the merge every picked number is among the numbers. */
  lemma {:induction false} MergeCovers(names: seq<string>, numbers: seq<int>, picks: seq<Row>)
    ensures forall p :: p in picks ==> p.1 in Merge(names, numbers, picks).1
    decreases |picks|
  {
    if picks != [] {
      var init := picks[..|picks| - 1];
      MergeCovers(names, numbers, init);
      var m := Merge(names, numbers, init);
      forall p | p in picks
        ensures p.1 in Merge(names, numbers, picks).1
      {
        if p in init {
          assert m.1 <= Merge(names, numbers, picks).1;
        } else {
          assert p == picks[|picks| - 1];
        }
      }
    }
  }

  /** The rows the merge appends are picked rows, their numbers new. */
  lemma {:induction false} MergeAddsPicks(names: seq<string>, numbers: seq<int>, picks: seq<Row>)
    requires |names| == |numbers|
    ensures forall j :: |numbers| <= j < |Merge(names, numbers, picks).1|
              ==> (Merge(names, numbers, picks).0[j], Merge(names, numbers, picks).1[j]) in picks
                  && Merge(names, numbers, picks).1[j] !in Merge(names, numbers, picks).1[..j]
    decreases |picks|
  {
    if picks != [] {
      var init := picks[..|picks| - 1];
      MergeAddsPicks(names, numbers, init);
      var m := Merge(names, numbers, init);
      var p := picks[|picks| - 1];
      var r := Merge(names, numbers, picks);
      forall j | |numbers| <= j < |r.1|
        ensures (r.0[j], r.1[j]) in picks && r.1[j] !in r.1[..j]
      {
        if j < |m.1| {
          assert r.0[j] == m.0[j] && r.1[j] == m.1[j] && r.1[..j] == m.1[..j];
          assert (m.0[j], m.1[j]) in init;
        } else {
          assert r.1 == m.1 + [p.1] && r.0 == m.0 + [p.0];
          assert r.1[..j] == m.1;
        }
      }
    }
  }

  /** Numbers without repeats stay without repeats. */
  lemma MergeNoDup(names: seq<string>, numbers: seq<int>, picks: seq<Row>)
    requires |names| == |numbers| && NoDup(numbers)
    ensures NoDup(Merge(names, numbers, picks).1)
  {
    var r := Merge(names, numbers, picks).1;
    MergeAddsPicks(names, numbers, picks);
    forall i, j | 0 <= i < j < |r|
      ensures r[i] != r[j]
    {
      if j < |numbers| {
        assert r[i] == numbers[i] && r[j] == numbers[j];
      } else {
        assert r[i] in r[..j];
      }
    }
  }

  /** A select that raises nothing leaves the merged rows, sorted, in two
      lists of one length; it raises exactly when one merged list is empty. */
  lemma SelectSorts(names: seq<string>, numbers: seq<int>, picks: seq<Row>)
    ensures Select(names, numbers, picks).2.Err?
            <==> Merge(names, numbers, picks).0 == [] || Merge(names, numbers, picks).1 == []
    ensures Select(names, numbers, picks).2.Ok? ==>
              |Select(names, numbers, picks).0| == |Select(names, numbers, picks).1|
              && SortedRows(Zip(Select(names, numbers, picks).0, Select(names, numbers, picks).1))
              && multiset(Zip(Select(names, numbers, picks).0, Select(names, numbers, picks).1))
                 == multiset(Zip(Merge(names, numbers, picks).0, Merge(names, numbers, picks).1))
  {
    var m := Merge(names, numbers, picks);
    var z := Zip(m.0, m.1);
    if z != [] {
      SortRowsSorted(z);
      ZipUnzip(SortRows(z));
    }
  }

  /** Tracked lists whose every row is a catalog row. */
  predicate RowsIn(names: seq<string>, numbers: seq<int>, catalog: seq<Row>) {
    |names| == |numbers| && forall k :: 0 <= k < |names| ==> (names[k], numbers[k]) in catalog
  }

  /** With tracked lists of one length, selecting catalog rows tracks catalog
      rows only: every name stays with its own number. */
  lemma SelectKeepsRows(names: seq<string>, numbers: seq<int>, picks: seq<Row>, catalog: seq<Row>)
    requires RowsIn(names, numbers, catalog)
    requires forall p :: p in picks ==> p in catalog
    ensures Select(names, numbers, picks).2.Ok?
            ==> RowsIn(Select(names, numbers, picks).0, Select(names, numbers, picks).1, catalog)
  {
    var m := Merge(names, numbers, picks);
    MergeAddsPicks(names, numbers, picks);
    var z := Zip(m.0, m.1);
    assert forall k :: 0 <= k < |z| ==> z[k] in catalog by {
      forall k | 0 <= k < |z|
        ensures z[k] in catalog
      {
        if k < |numbers| {
          assert m.0[k] == names[k] && m.1[k] == numbers[k];
        } else {
          assert (m.0[k], m.1[k]) in picks;
        }
      }
    }
    if z != [] {
      var s := SortRows(z);
      ZipUnzip(s);
      forall k | 0 <= k < |s|
        ensures s[k] in catalog
      {
        assert s[k] in multiset(z);
      }
    }
  }

  /** The rows a selection of list-box positions picks. */
  function Picked(shown: seq<string>, results: seq<int>, selection: seq<nat>): (r: seq<Row>)
    requires |shown| == |results|
    requires forall k :: 0 <= k < |selection| ==> selection[k] < |shown|
    ensures |r| == |selection|
    ensures forall k :: 0 <= k < |r| ==> r[k] == (shown[selection[k]], results[selection[k]])
  {
    seq(|selection|, k requires 0 <= k < |selection| => (shown[selection[k]], results[selection[k]]))
  }

  /** s without the entries whose position, counted from `from`, is in sel. */
  function Without<T>(s: seq<T>, sel: set<int>, from: int): (r: seq<T>)
    ensures |r| <= |s|
    decreases |s|
  {
    if s == [] then []
    else (if from in sel then [] else [s[0]]) + Without(s[1..], sel, from + 1)
  }

  /** Removing nothing keeps the list. */
  lemma {:induction false} WithoutNothing<T>(s: seq<T>, from: int)
    ensures Without(s, {}, from) == s
    decreases |s|
  {
    if s != [] {
      WithoutNothing(s[1..], from + 1);
    }
  }

  /** Removing k positions in range shortens the list by k. */
  lemma {:induction false} WithoutLength<T>(s: seq<T>, sel: set<int>, from: int)
    requires forall x :: x in sel ==> from <= x < from + |s|
    ensures |Without(s, sel, from)| == |s| - |sel|
    decreases |s|
  {
    if s != [] {
      var rest := sel - {from};
      assert forall x :: x in rest ==> from + 1 <= x < from + 1 + |s[1..]|;
      WithoutLength(s[1..], rest, from + 1);
      WithoutOthers(s[1..], sel, rest, from + 1);
      var tail := Without(s[1..], rest, from + 1);
      assert |tail| == |s| - 1 - |rest|;
      if from in sel {
        assert Without(s, sel, from) == tail;
        assert sel == rest + {from} && from !in rest;
        assert |sel| == |rest| + 1;
      } else {
        assert Without(s, sel, from) == [s[0]] + tail;
        assert rest == sel;
      }
    } else {
      assert forall x :: x !in sel;
      assert sel == {};
    }
  }

  /** Positions before `from` do not matter. */
  lemma {:induction false} WithoutOthers<T>(s: seq<T>, sel: set<int>, sel': set<int>, from: int)
    requires forall x :: from <= x ==> (x in sel <==> x in sel')
    ensures Without(s, sel, from) == Without(s, sel', from)
    decreases |s|
  {
    if s != [] {
      WithoutOthers(s[1..], sel, sel', from + 1);
    }
  }

  /** Popping position i, below every removed position, removes it too. */
  lemma {:induction false} WithoutPop<T>(s: seq<T>, sel: set<int>, i: nat)
    requires i < |s| && i !in sel
    requires forall x :: x in sel ==> x > i
    ensures |Without(s, sel, 0)| > i
    ensures Without(s, sel, 0)[..i] + Without(s, sel, 0)[i + 1..] == Without(s, sel + {i}, 0)
  {
    WithoutShift(s, sel, i, 0);
  }

  lemma {:induction false} WithoutShift<T>(s: seq<T>, sel: set<int>, i: nat, from: int)
    requires i < |s| && from + i !in sel
    requires forall x :: x in sel ==> x > from + i
    ensures |Without(s, sel, from)| > i
    ensures Without(s, sel, from)[..i] + Without(s, sel, from)[i + 1..] == Without(s, sel + {from + i}, from)
    decreases i
  {
    var w := Without(s, sel, from);
    var w' := Without(s, sel + {from + i}, from);
    if i == 0 {
      WithoutOthers(s[1..], sel, sel + {from}, from + 1);
      assert w == [s[0]] + Without(s[1..], sel, from + 1);
      assert w' == Without(s[1..], sel + {from}, from + 1);
    } else {
      WithoutShift(s[1..], sel, i - 1, from + 1);
      var t := Without(s[1..], sel, from + 1);
      assert w == [s[0]] + t;
      assert w' == [s[0]] + Without(s[1..], sel + {from + i}, from + 1);
      assert w[..i] == [s[0]] + t[..i - 1];
      assert w[i + 1..] == t[i..];
    }
  }

  /** The positions of a selection. */
  function Positions(selection: seq<nat>, k: nat): set<int>
    requires k <= |selection|
  {
    set j | k <= j < |selection| :: selection[j] as int
  }

  // -------------------------------------------------------- delete_all

  /** After the as-written `delete_all`, selecting a new row pairs its name
      with the first number that was tracked before. */
  lemma AsWrittenDeleteAllMispairs(numbers: seq<int>, name: string, number: int)
    requires numbers != [] && number !in numbers
    ensures Select([], numbers, [(name, number)]) == ([name], [numbers[0]], Ok(()))
    ensures numbers[0] != number
  {
    var picks := [(name, number)];
    assert picks[..0] == [];
    assert Merge([], numbers, picks[..0]) == ([], numbers);
    assert picks[|picks| - 1] == (name, number);
    var m := Merge([], numbers, picks);
    assert m == ([] + [name], numbers + [number]);
    var row := (name, numbers[0]);
    assert Zip(m.0, m.1) == [row];
    SortSingle(row);
  }

  /** After the as-written `delete_all`, selecting a row that was tracked
      before adds nothing and raises ValueError. */
  lemma AsWrittenDeleteAllBlocks(numbers: seq<int>, name: string, number: int)
    requires number in numbers
    ensures Select([], numbers, [(name, number)]) == ([], numbers, Err("ValueError"))
  {
    var picks := [(name, number)];
    assert picks[..0] == [];
    assert Merge([], numbers, picks[..0]) == ([], numbers);
    assert Merge([], numbers, picks) == ([], numbers);
  }

  /** After the corrected `delete_all`, selecting a row tracks that row. */
  lemma FixedDeleteAllSelects(name: string, number: int)
    ensures Select([], [], [(name, number)]) == ([name], [number], Ok(()))
  {
    var picks := [(name, number)];
    assert picks[..0] == [];
    assert Merge([], [], picks[..0]) == ([], []);
    assert picks[|picks| - 1] == (name, number);
    assert Merge([], [], picks) == ([] + [name], [] + [number]);
    assert Zip([name], [number]) == [(name, number)];
    SortSingle((name, number));
  }

  /** After the corrected `delete_all`, any selection of rows raises
      nothing unless it is empty, and leaves sorted lists of one length in
      which every name stays with its own number and every picked number is
      tracked. */
  lemma FixedDeleteAllSelectsAll(picks: seq<Row>)
    ensures Select([], [], picks).2.Ok? <==> picks != []
    ensures Select([], [], picks).2.Ok? ==>
              RowsIn(Select([], [], picks).0, Select([], [], picks).1, picks)
              && SortedRows(Zip(Select([], [], picks).0, Select([], [], picks).1))
              && forall p :: p in picks ==> p.1 in Select([], [], picks).1
  {
    var m := Merge([], [], picks);
    var r := Select([], [], picks);
    MergeCovers([], [], picks);
    SelectSorts([], [], picks);
    SelectKeepsRows([], [], picks, picks);
    if picks != [] {
      assert picks[0].1 in m.1;
    }
    if r.2.Ok? {
      forall p | p in picks
        ensures p.1 in r.1
      {
        var i :| 0 <= i < |m.1| && m.1[i] == p.1;
        var z := Zip(m.0, m.1);
        assert z[i] in multiset(z);
        assert z[i] in multiset(Zip(r.0, r.1));
        var j :| 0 <= j < |Zip(r.0, r.1)| && Zip(r.0, r.1)[j] == z[i];
        assert r.1[j] == p.1;
      }
    }
  }

  lemma SortSingle(row: Row)
    ensures SortRows([row]) == [row]
    ensures Names([row]) == [row.0] && Numbers([row]) == [row.1]
  {
    assert [row][1..] == [];
  }
}
