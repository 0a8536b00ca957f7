/** The 2D world map (src/gui/map2d.py): splitting a ground track where it
    crosses the antimeridian, the render-mode predicate, the map
    projection, the mode labels of the configuration dock, and the pruning
    of objects that are no longer visible.  Longitudes and latitudes are
    exact reals in degrees. */
module Map2d {
  import opened Wrappers
  import PyDict

  // ------------------------------------------------------ _splitWrapSegment

  function Abs(x: real): real {
    if x < 0.0 then -x else x
  }

  /** The default `threshold` of `_splitWrapSegment`. */
  const DefaultThreshold: real := 180.0

  /** `np.abs(np.diff(longitudes)) > threshold` at position `i - 1`: the
      track jumps between points `i - 1` and `i`. */
  predicate IsJump(lons: seq<real>, i: nat, threshold: real)
    requires 0 < i < |lons|
  {
    Abs(lons[i] - lons[i - 1]) > threshold
  }

  /** No two neighbouring longitudes are exactly a full turn apart, where
      the border interpolation would divide by zero. */
  predicate NoFullTurn(lons: seq<real>) {
    forall i :: 0 < i < |lons| ==> lons[i] - lons[i - 1] != 360.0 && lons[i - 1] - lons[i] != 360.0
  }

  predicate Increasing(idx: seq<nat>) {
    forall k, l :: 0 <= k < l < |idx| ==> idx[k] < idx[l]
  }

  /** The jump positions from `from` on, in increasing order. */
  function JumpsFrom(lons: seq<real>, threshold: real, from: nat): (r: seq<nat>)
    requires 1 <= from <= |lons|
    ensures forall k :: 0 <= k < |r| ==> from <= r[k] < |lons| && IsJump(lons, r[k], threshold)
    ensures Increasing(r)
    ensures forall i :: from <= i < |lons| && IsJump(lons, i, threshold) ==> i in r
    decreases |lons| - from
  {
    if from == |lons| then []
    else
      var rest := JumpsFrom(lons, threshold, from + 1);
      if IsJump(lons, from, threshold) then [from] + rest else rest
  }

  /** `np.where(jumps)[0] + 1`: the index after each jump. */
  function SplitIndices(lons: seq<real>, threshold: real): (r: seq<nat>)
    requires |lons| >= 1
    ensures forall k :: 0 <= k < |r| ==> 1 <= r[k] < |lons| && IsJump(lons, r[k], threshold)
    ensures Increasing(r)
    ensures forall i :: 1 <= i < |lons| && IsJump(lons, i, threshold) ==> i in r
  {
    JumpsFrom(lons, threshold, 1)
  }

  /** Cut positions strictly inside a sequence of length `n`, increasing. */
  predicate ValidCuts(idx: seq<nat>, n: nat) {
    n > 0 && Increasing(idx) && forall k :: 0 <= k < |idx| ==> 0 < idx[k] < n
  }

  function PieceStart(idx: seq<nat>, k: nat): nat
    requires k <= |idx|
  {
    if k == 0 then 0 else idx[k - 1]
  }

  function PieceEnd(idx: seq<nat>, n: nat, k: nat): nat
    requires k <= |idx|
  {
    if k == |idx| then n else idx[k]
  }

  lemma PieceBounds(idx: seq<nat>, n: nat, k: nat)
    requires ValidCuts(idx, n) && k <= |idx|
    ensures PieceStart(idx, k) < PieceEnd(idx, n, k) <= n
  {
  }

  /** `np.split(s, idx)`: the pieces between consecutive cuts. */
  function Pieces<T>(s: seq<T>, idx: seq<nat>): (p: seq<seq<T>>)
    requires ValidCuts(idx, |s|)
    ensures |p| == |idx| + 1
    ensures forall k :: 0 <= k <= |idx| ==>
              PieceStart(idx, k) < PieceEnd(idx, |s|, k) <= |s|
              && p[k] == s[PieceStart(idx, k)..PieceEnd(idx, |s|, k)]
  {
    forall k | 0 <= k <= |idx| {
      PieceBounds(idx, |s|, k);
    }
    seq(|idx| + 1, k requires 0 <= k <= |idx| => s[PieceStart(idx, k)..PieceEnd(idx, |s|, k)])
  }

  /** `a * x + b` for the line through `(xA, yA)` and `(xB, yB)`, with `a`
      and `b` computed as the source computes them. */
  function LineAt(xA: real, yA: real, xB: real, yB: real, x: real): real
    requires xB != xA
  {
    var a := (yB - yA) / (xB - xA);
    var b := yA - a * xA;
    a * x + b
  }

  /** The border points inserted at one crossing: `borderA` ends the
      segment before it, `borderB` starts the one after it, both at
      `latitude`. */
  datatype Crossing = Crossing(borderA: real, borderB: real, latitude: real)

  /** The crossing between `(prevLon, prevLat)` and `(nextLon, nextLat)`.
      Going east past 180 the track leaves at 180 and comes back at -180;
      going west it leaves at -180 and comes back at 180.  The border
      latitude is read off the line through the two points once the second
      is shifted by a full turn, at longitude 180. */
  function CrossingOf(prevLon: real, nextLon: real, prevLat: real, nextLat: real): (c: Crossing)
    requires prevLon - nextLon != 360.0 && nextLon - prevLon != 360.0
    ensures prevLon > nextLon ==> c.borderA == 180.0 && c.borderB == -180.0
    ensures prevLon <= nextLon ==> c.borderA == -180.0 && c.borderB == 180.0
  {
    if prevLon > nextLon then
      Crossing(180.0, -180.0, LineAt(prevLon, prevLat, nextLon + 360.0, nextLat, 180.0))
    else
      Crossing(-180.0, 180.0, LineAt(nextLon, nextLat, prevLon + 360.0, prevLat, 180.0))
  }

  /** The crossing of the `idx[k]`-th point. */
  function CrossingAt(lons: seq<real>, lats: seq<real>, idx: seq<nat>, k: nat): Crossing
    requires |lons| == |lats| && NoFullTurn(lons) && ValidCuts(idx, |lons|) && k < |idx|
  {
    var i := idx[k];
    CrossingOf(lons[i - 1], lons[i], lats[i - 1], lats[i])
  }

  /** Segment `k`: its piece of the track, preceded by the border point
      of crossing `k - 1` and followed by that of crossing `k`. */
  function Segment(lons: seq<real>, lats: seq<real>, idx: seq<nat>, k: nat): (seg: (seq<real>, seq<real>))
    requires |lons| == |lats| && NoFullTurn(lons) && ValidCuts(idx, |lons|) && k <= |idx|
  {
    var lonPiece := Pieces(lons, idx)[k];
    var latPiece := Pieces(lats, idx)[k];
    var lonHead := if k > 0 then [CrossingAt(lons, lats, idx, k - 1).borderB] else [];
    var latHead := if k > 0 then [CrossingAt(lons, lats, idx, k - 1).latitude] else [];
    var lonTail := if k < |idx| then [CrossingAt(lons, lats, idx, k).borderA] else [];
    var latTail := if k < |idx| then [CrossingAt(lons, lats, idx, k).latitude] else [];
    (lonHead + lonPiece + lonTail, latHead + latPiece + latTail)
  }

  /** The segments `_splitWrapSegment` returns. */
  function Segments(lons: seq<real>, lats: seq<real>, threshold: real): seq<(seq<real>, seq<real>)>
    requires |lons| == |lats| && NoFullTurn(lons)
  {
    if |lons| < 2 then [(lons, lats)]
    else
      var idx := SplitIndices(lons, threshold);
      if idx == [] then [(lons, lats)]
      else seq(|idx| + 1, k requires 0 <= k <= |idx| => Segment(lons, lats, idx, k))
  }

  /** One pass of the crossing loop: the linear interpolation of the
      border latitude and the choice of border longitudes. */
  method BorderPoints(previousLongitude: real, nextLongitude: real, previousLatitude: real, nextLatitude: real)
    returns (borderA: real, borderB: real, latitudeBorder: real)
    requires previousLongitude - nextLongitude != 360.0 && nextLongitude - previousLongitude != 360.0
    ensures Crossing(borderA, borderB, latitudeBorder)
            == CrossingOf(previousLongitude, nextLongitude, previousLatitude, nextLatitude)
  {
    var longitudeA, longitudeB, latitudeA, latitudeB;
    if previousLongitude > nextLongitude {
      longitudeA, longitudeB := previousLongitude, nextLongitude + 360.0;
      latitudeA, latitudeB := previousLatitude, nextLatitude;
      borderA, borderB := 180.0, -180.0;
    } else {
      longitudeA, longitudeB := nextLongitude, previousLongitude + 360.0;
      latitudeA, latitudeB := nextLatitude, previousLatitude;
      borderA, borderB := -180.0, 180.0;
    }
    var a := (latitudeB - latitudeA) / (longitudeB - longitudeA);
    var b := latitudeA - a * longitudeA;
    latitudeBorder := a * 180.0 + b;
  }

  /** Longitude segment `j` after `k` passes of the crossing loop:
      segments before `k` are finished, segment `k` has its leading border
      point only, and the later ones are still the bare pieces. */
  function PartialLon(lons: seq<real>, lats: seq<real>, idx: seq<nat>, k: nat, j: nat): seq<real>
    requires |lons| == |lats| && NoFullTurn(lons) && ValidCuts(idx, |lons|) && k <= |idx| && j <= |idx|
  {
    if j < k then Segment(lons, lats, idx, j).0
    else if j == k && k > 0 then [CrossingAt(lons, lats, idx, k - 1).borderB] + Pieces(lons, idx)[j]
    else Pieces(lons, idx)[j]
  }

  /** The same for latitude segment `j`. */
  function PartialLat(lons: seq<real>, lats: seq<real>, idx: seq<nat>, k: nat, j: nat): seq<real>
    requires |lons| == |lats| && NoFullTurn(lons) && ValidCuts(idx, |lons|) && k <= |idx| && j <= |idx|
  {
    if j < k then Segment(lons, lats, idx, j).1
    else if j == k && k > 0 then [CrossingAt(lons, lats, idx, k - 1).latitude] + Pieces(lats, idx)[j]
    else Pieces(lats, idx)[j]
  }

  /** All longitude segments after `k` passes. */
  function PartialLons(lons: seq<real>, lats: seq<real>, idx: seq<nat>, k: nat): (p: seq<seq<real>>)
    requires |lons| == |lats| && NoFullTurn(lons) && ValidCuts(idx, |lons|) && k <= |idx|
    ensures |p| == |idx| + 1
    ensures forall j :: 0 <= j <= |idx| ==> p[j] == PartialLon(lons, lats, idx, k, j)
  {
    seq(|idx| + 1, j requires 0 <= j <= |idx| => PartialLon(lons, lats, idx, k, j))
  }

  /** All latitude segments after `k` passes. */
  function PartialLats(lons: seq<real>, lats: seq<real>, idx: seq<nat>, k: nat): (p: seq<seq<real>>)
    requires |lons| == |lats| && NoFullTurn(lons) && ValidCuts(idx, |lons|) && k <= |idx|
    ensures |p| == |idx| + 1
    ensures forall j :: 0 <= j <= |idx| ==> p[j] == PartialLat(lons, lats, idx, k, j)
  {
    seq(|idx| + 1, j requires 0 <= j <= |idx| => PartialLat(lons, lats, idx, k, j))
  }

  /** `list(zip(lonSegs, latSegs))`. */
  function Zip(p: seq<seq<real>>, q: seq<seq<real>>): (r: seq<(seq<real>, seq<real>)>)
    requires |p| == |q|
    ensures |r| == |p|
    ensures forall j :: 0 <= j < |p| ==> r[j] == (p[j], q[j])
  {
    seq(|p|, j requires 0 <= j < |p| => (p[j], q[j]))
  }

  /** Pass `k` finishes segment `k`: its partial form plus the trailing
      border point is the full segment. */
  lemma PartialFinish(lons: seq<real>, lats: seq<real>, idx: seq<nat>, k: nat)
    requires |lons| == |lats| && NoFullTurn(lons) && ValidCuts(idx, |lons|) && k < |idx|
    ensures var c := CrossingAt(lons, lats, idx, k);
            PartialLon(lons, lats, idx, k, k) + [c.borderA] == Segment(lons, lats, idx, k).0
            && PartialLat(lons, lats, idx, k, k) + [c.latitude] == Segment(lons, lats, idx, k).1
  {
  }

  /** One pass of the crossing loop finishes segment `k` and starts
      segment `k + 1`. */
  lemma PartialStep(lons: seq<real>, lats: seq<real>, idx: seq<nat>, k: nat)
    requires |lons| == |lats| && NoFullTurn(lons) && ValidCuts(idx, |lons|) && k < |idx|
    ensures var c := CrossingAt(lons, lats, idx, k);
            var p := PartialLons(lons, lats, idx, k);
            var q := PartialLats(lons, lats, idx, k);
            PartialLons(lons, lats, idx, k + 1) == p[k := p[k] + [c.borderA]][k + 1 := [c.borderB] + p[k + 1]]
            && PartialLats(lons, lats, idx, k + 1) == q[k := q[k] + [c.latitude]][k + 1 := [c.latitude] + q[k + 1]]
  {
    var c := CrossingAt(lons, lats, idx, k);
    var p := PartialLons(lons, lats, idx, k);
    var q := PartialLats(lons, lats, idx, k);
    var p1 := p[k := p[k] + [c.borderA]][k + 1 := [c.borderB] + p[k + 1]];
    var q1 := q[k := q[k] + [c.latitude]][k + 1 := [c.latitude] + q[k + 1]];
    PartialFinish(lons, lats, idx, k);
    forall j | 0 <= j <= |idx|
      ensures PartialLon(lons, lats, idx, k + 1, j) == p1[j]
      ensures PartialLat(lons, lats, idx, k + 1, j) == q1[j]
    {
      if j == k + 1 {
        assert p[k + 1] == Pieces(lons, idx)[k + 1];
        assert q[k + 1] == Pieces(lats, idx)[k + 1];
      }
    }
  }

  /** After the last pass every segment is finished. */
  lemma PartialDone(lons: seq<real>, lats: seq<real>, idx: seq<nat>)
    requires |lons| == |lats| && NoFullTurn(lons) && ValidCuts(idx, |lons|) && idx != []
    ensures Zip(PartialLons(lons, lats, idx, |idx|), PartialLats(lons, lats, idx, |idx|))
            == SplitSegments(lons, lats, idx)
  {
    var m := |idx|;
    var z := Zip(PartialLons(lons, lats, idx, m), PartialLats(lons, lats, idx, m));
    forall j | 0 <= j <= m
      ensures z[j] == Segment(lons, lats, idx, j)
    {
      var seg := Segment(lons, lats, idx, j);
      if j == m {
        var c := CrossingAt(lons, lats, idx, m - 1);
        assert seg.0 == [c.borderB] + Pieces(lons, idx)[m] + [];
        assert seg.1 == [c.latitude] + Pieces(lats, idx)[m] + [];
      }
      assert PartialLon(lons, lats, idx, m, j) == seg.0;
      assert PartialLat(lons, lats, idx, m, j) == seg.1;
      assert z[j] == (seg.0, seg.1);
    }
  }

  /** `_splitWrapSegment(longitudes, latitudes, threshold)`: `np.split` at
      the index after every jump, then, crossing by crossing, a border point
      appended to segment k and prepended to segment k + 1. */
  method SplitWrapSegment(lons: seq<real>, lats: seq<real>, threshold: real)
    returns (segs: seq<(seq<real>, seq<real>)>)
    requires |lons| == |lats| && NoFullTurn(lons)
    ensures segs == Segments(lons, lats, threshold)
  {
    if |lons| < 2 {
      return [(lons, lats)];
    }
    var idx := SplitIndices(lons, threshold);
    if idx == [] {
      return [(lons, lats)];
    }
    var lonSegs := Pieces(lons, idx);
    var latSegs := Pieces(lats, idx);
    assert lonSegs == PartialLons(lons, lats, idx, 0);
    assert latSegs == PartialLats(lons, lats, idx, 0);
    for k := 0 to |idx|
      invariant lonSegs == PartialLons(lons, lats, idx, k)
      invariant latSegs == PartialLats(lons, lats, idx, k)
    {
      var index := idx[k];
      var borderA, borderB, latitudeBorder := BorderPoints(lons[index - 1], lons[index], lats[index - 1], lats[index]);
      PartialStep(lons, lats, idx, k);
      lonSegs := lonSegs[k := lonSegs[k] + [borderA]];
      latSegs := latSegs[k := latSegs[k] + [latitudeBorder]];
      lonSegs := lonSegs[k + 1 := [borderB] + lonSegs[k + 1]];
      latSegs := latSegs[k + 1 := [latitudeBorder] + latSegs[k + 1]];
    }
    PartialDone(lons, lats, idx);
    segs := Zip(lonSegs, latSegs);
  }

  // ------------------------------------------- what the segments promise

  /** Without two points or without a jump the track comes back whole, as
      one segment. */
  lemma SegmentsWhole(lons: seq<real>, lats: seq<real>, threshold: real)
    requires |lons| == |lats| && NoFullTurn(lons)
    ensures (forall i :: 0 < i < |lons| ==> !IsJump(lons, i, threshold))
            ==> Segments(lons, lats, threshold) == [(lons, lats)]
  {
    if |lons| >= 2 && SplitIndices(lons, threshold) != [] {
      assert IsJump(lons, SplitIndices(lons, threshold)[0], threshold);
    }
  }

  /** Segment `k` of the output, when the track is split. */
  lemma SegmentsAt(lons: seq<real>, lats: seq<real>, threshold: real, k: nat)
    requires |lons| == |lats| && NoFullTurn(lons) && |lons| >= 2
    requires SplitIndices(lons, threshold) != [] && k <= |SplitIndices(lons, threshold)|
    ensures var idx := SplitIndices(lons, threshold);
            |Segments(lons, lats, threshold)| == |idx| + 1
            && Segments(lons, lats, threshold)[k] == Segment(lons, lats, idx, k)
  {
  }

  /** The shape of segment `k`: its piece between the border points it
      carries. */
  lemma SegmentShape(lons: seq<real>, lats: seq<real>, idx: seq<nat>, k: nat)
    requires |lons| == |lats| && NoFullTurn(lons) && ValidCuts(idx, |lons|) && k <= |idx|
    ensures var seg := Segment(lons, lats, idx, k);
            var h := if k > 0 then 1 else 0;
            var n := |idx| + 1;
            |seg.0| == |Pieces(lons, idx)[k]| + BorderCount(k, n) && |seg.1| == |seg.0|
            && Interior(seg.0, k, n) == Pieces(lons, idx)[k]
            && Interior(seg.1, k, n) == Pieces(lats, idx)[k]
            && (k > 0 ==> seg.0[0] == CrossingAt(lons, lats, idx, k - 1).borderB
                          && seg.1[0] == CrossingAt(lons, lats, idx, k - 1).latitude)
            && (k < |idx| ==> seg.0[|seg.0| - 1] == CrossingAt(lons, lats, idx, k).borderA
                              && seg.1[|seg.1| - 1] == CrossingAt(lons, lats, idx, k).latitude)
  {
  }

  /** Before its trailing border point, segment `k` ends with the point
      before cut `k`. */
  lemma SegmentEnds(lons: seq<real>, lats: seq<real>, idx: seq<nat>, k: nat)
    requires |lons| == |lats| && NoFullTurn(lons) && ValidCuts(idx, |lons|) && k < |idx|
    ensures var seg := Segment(lons, lats, idx, k).0;
            |seg| >= 2 && seg[|seg| - 2] == lons[idx[k] - 1]
  {
    var p := Pieces(lons, idx);
    assert PieceEnd(idx, |lons|, k) == idx[k];
    assert p[k][|p[k]| - 1] == lons[idx[k] - 1];
  }

  /** After its leading border point, segment `k` starts with the point at
      cut `k - 1`. */
  lemma SegmentStarts(lons: seq<real>, lats: seq<real>, idx: seq<nat>, k: nat)
    requires |lons| == |lats| && NoFullTurn(lons) && ValidCuts(idx, |lons|) && 0 < k <= |idx|
    ensures var seg := Segment(lons, lats, idx, k).0;
            |seg| >= 2 && seg[1] == lons[idx[k - 1]]
  {
    var p := Pieces(lons, idx);
    assert PieceStart(idx, k) == idx[k - 1];
    assert p[k][0] == lons[idx[k - 1]];
  }

  /** The output around jump `k`. */
  lemma JumpBetweenAt(lons: seq<real>, lats: seq<real>, threshold: real, k: nat)
    requires |lons| == |lats| && NoFullTurn(lons) && |lons| >= 2
    requires k < |SplitIndices(lons, threshold)|
    ensures JumpBetween(Segments(lons, lats, threshold), lons, SplitIndices(lons, threshold)[k], k)
  {
    var idx := SplitIndices(lons, threshold);
    SegmentsAt(lons, lats, threshold, k);
    SegmentsAt(lons, lats, threshold, k + 1);
    SegmentEnds(lons, lats, idx, k);
    SegmentStarts(lons, lats, idx, k + 1);
  }

  /** With jumps there is one segment more than there are jumps; segment
      `k + 1` starts (after its border point) at the point after jump
      `k`, and segment `k` ends (before its border point) at the point
      before it. */
  lemma SegmentsSplitAtJumps(lons: seq<real>, lats: seq<real>, threshold: real)
    requires |lons| == |lats| && NoFullTurn(lons) && |lons| >= 2
    ensures |Segments(lons, lats, threshold)| == |SplitIndices(lons, threshold)| + 1
    ensures forall k :: 0 <= k < |SplitIndices(lons, threshold)| ==>
              JumpBetween(Segments(lons, lats, threshold), lons, SplitIndices(lons, threshold)[k], k)
  {
    var idx := SplitIndices(lons, threshold);
    if idx != [] {
      SegmentsAt(lons, lats, threshold, 0);
      forall k | 0 <= k < |idx|
        ensures JumpBetween(Segments(lons, lats, threshold), lons, idx[k], k)
      {
        JumpBetweenAt(lons, lats, threshold, k);
      }
    }
  }

  /** Segment `k` ends with the point before index `i`, then its border
      point; segment `k + 1` starts with its border point, then the point
      at `i`. */
  predicate JumpBetween(segs: seq<(seq<real>, seq<real>)>, lons: seq<real>, i: nat, k: nat) {
    k + 1 < |segs| && |segs[k].0| >= 2 && |segs[k + 1].0| >= 2 && 0 < i < |lons|
    && segs[k].0[|segs[k].0| - 2] == lons[i - 1]
    && segs[k + 1].0[1] == lons[i]
  }

  /** At crossing `k` segment `k` ends on one border and segment `k + 1`
      starts on the other: 180 then -180 when the longitude decreased
      across the jump, -180 then 180 when it increased; both border points
      carry the same latitude. */
  lemma SegmentsBorders(lons: seq<real>, lats: seq<real>, threshold: real, k: nat)
    requires |lons| == |lats| && NoFullTurn(lons) && |lons| >= 2
    requires k < |SplitIndices(lons, threshold)|
    ensures var segs := Segments(lons, lats, threshold);
            var i := SplitIndices(lons, threshold)[k];
            k + 1 < |segs| && |segs[k].0| > 0 && |segs[k].1| == |segs[k].0|
            && |segs[k + 1].0| > 0 && |segs[k + 1].1| > 0
            && segs[k].0[|segs[k].0| - 1] == (if lons[i - 1] > lons[i] then 180.0 else -180.0)
            && segs[k + 1].0[0] == -segs[k].0[|segs[k].0| - 1]
            && segs[k].1[|segs[k].1| - 1] == segs[k + 1].1[0]
  {
    var idx := SplitIndices(lons, threshold);
    SegmentsAt(lons, lats, threshold, k);
    SegmentsAt(lons, lats, threshold, k + 1);
    SegmentShape(lons, lats, idx, k);
    SegmentShape(lons, lats, idx, k + 1);
  }

  /** `a + b + ...`: the pieces joined back together. */
  function Concat<T>(parts: seq<seq<T>>): seq<T> {
    if parts == [] then [] else Concat(parts[..|parts| - 1]) + parts[|parts| - 1]
  }

  lemma {:induction false} ConcatPieces<T>(s: seq<T>, idx: seq<nat>, j: nat)
    requires ValidCuts(idx, |s|) && 1 <= j <= |idx| + 1
    ensures Concat(Pieces(s, idx)[..j]) == s[..PieceEnd(idx, |s|, j - 1)]
  {
    var p := Pieces(s, idx);
    assert p[..j][..j - 1] == p[..j - 1];
    if j > 1 {
      ConcatPieces(s, idx, j - 1);
      assert PieceStart(idx, j - 1) == PieceEnd(idx, |s|, j - 2);
      assert s[..PieceEnd(idx, |s|, j - 1)]
             == s[..PieceEnd(idx, |s|, j - 2)] + s[PieceStart(idx, j - 1)..PieceEnd(idx, |s|, j - 1)];
    } else {
      assert p[..j][..0] == [];
    }
  }

  /** `np.split` loses and repeats nothing. */
  lemma PiecesConcat<T>(s: seq<T>, idx: seq<nat>)
    requires ValidCuts(idx, |s|)
    ensures Concat(Pieces(s, idx)) == s
  {
    ConcatPieces(s, idx, |idx| + 1);
    assert Pieces(s, idx)[..|idx| + 1] == Pieces(s, idx);
  }

  /** How many border points segment `k` of `n` carries. */
  function BorderCount(k: nat, n: nat): nat {
    (if k > 0 then 1 else 0) + (if k + 1 < n then 1 else 0)
  }

  /** Segment `k` of `n` without its border points. */
  function Interior(seg: seq<real>, k: nat, n: nat): seq<real>
    requires |seg| >= BorderCount(k, n)
  {
    seg[(if k > 0 then 1 else 0)..|seg| - (if k + 1 < n then 1 else 0)]
  }

  /** Every segment is long enough to carry its border points. */
  predicate Bordered(parts: seq<seq<real>>) {
    forall k :: 0 <= k < |parts| ==> |parts[k]| >= BorderCount(k, |parts|)
  }

  /** The track the segments describe once the border points are dropped. */
  function Rebuild(parts: seq<seq<real>>): seq<real>
    requires Bordered(parts)
  {
    Concat(seq(|parts|, k requires 0 <= k < |parts| => Interior(parts[k], k, |parts|)))
  }

  function LonsOf(segs: seq<(seq<real>, seq<real>)>): seq<seq<real>> {
    seq(|segs|, k requires 0 <= k < |segs| => segs[k].0)
  }

  function LatsOf(segs: seq<(seq<real>, seq<real>)>): seq<seq<real>> {
    seq(|segs|, k requires 0 <= k < |segs| => segs[k].1)
  }

  /** The segments for cuts `idx`, as `Segments` builds them once the
      track is split. */
  function SplitSegments(lons: seq<real>, lats: seq<real>, idx: seq<nat>): (segs: seq<(seq<real>, seq<real>)>)
    requires |lons| == |lats| && NoFullTurn(lons) && ValidCuts(idx, |lons|)
    ensures |segs| == |idx| + 1
    ensures forall k :: 0 <= k <= |idx| ==> segs[k] == Segment(lons, lats, idx, k)
  {
    seq(|idx| + 1, k requires 0 <= k <= |idx| => Segment(lons, lats, idx, k))
  }

  lemma RebuildLons(lons: seq<real>, lats: seq<real>, idx: seq<nat>)
    requires |lons| == |lats| && NoFullTurn(lons) && ValidCuts(idx, |lons|)
    ensures var parts := LonsOf(SplitSegments(lons, lats, idx));
            Bordered(parts) && Rebuild(parts) == lons
  {
    var parts := LonsOf(SplitSegments(lons, lats, idx));
    var n := |idx| + 1;
    forall k | 0 <= k < n
      ensures |parts[k]| >= BorderCount(k, n) && Interior(parts[k], k, n) == Pieces(lons, idx)[k]
    {
      SegmentShape(lons, lats, idx, k);
    }
    assert seq(n, k requires 0 <= k < n => Interior(parts[k], k, n)) == Pieces(lons, idx);
    PiecesConcat(lons, idx);
  }

  lemma RebuildLats(lons: seq<real>, lats: seq<real>, idx: seq<nat>)
    requires |lons| == |lats| && NoFullTurn(lons) && ValidCuts(idx, |lons|)
    ensures var parts := LatsOf(SplitSegments(lons, lats, idx));
            Bordered(parts) && Rebuild(parts) == lats
  {
    var parts := LatsOf(SplitSegments(lons, lats, idx));
    var n := |idx| + 1;
    forall k | 0 <= k < n
      ensures |parts[k]| >= BorderCount(k, n) && Interior(parts[k], k, n) == Pieces(lats, idx)[k]
    {
      SegmentShape(lons, lats, idx, k);
    }
    assert seq(n, k requires 0 <= k < n => Interior(parts[k], k, n)) == Pieces(lats, idx);
    PiecesConcat(lats, idx);
  }

  /** A single segment carries no border point. */
  lemma RebuildOne(part: seq<real>)
    ensures Bordered([part]) && Rebuild([part]) == part
  {
    assert Interior(part, 0, 1) == part;
    assert seq(1, k requires 0 <= k < 1 => Interior([part][k], k, 1)) == [part];
    assert [part][..0] == [];
    assert Concat([part]) == Concat([]) + part;
  }

  /** Dropping the inserted border points and joining the segments gives
      back the input longitudes and latitudes exactly. */
  lemma SegmentsRebuild(lons: seq<real>, lats: seq<real>, threshold: real)
    requires |lons| == |lats| && NoFullTurn(lons)
    ensures var segs := Segments(lons, lats, threshold);
            Bordered(LonsOf(segs)) && Bordered(LatsOf(segs))
            && Rebuild(LonsOf(segs)) == lons && Rebuild(LatsOf(segs)) == lats
  {
    var segs := Segments(lons, lats, threshold);
    if |lons| < 2 || SplitIndices(lons, threshold) == [] {
      assert segs == [(lons, lats)];
      assert LonsOf(segs) == [lons] && LatsOf(segs) == [lats];
      RebuildOne(lons);
      RebuildOne(lats);
    } else {
      var idx := SplitIndices(lons, threshold);
      assert segs == SplitSegments(lons, lats, idx);
      RebuildLons(lons, lats, idx);
      RebuildLats(lons, lats, idx);
    }
  }

  /** When the track is split at all, every segment has at least two
      points. */
  lemma SegmentsAtLeastTwo(lons: seq<real>, lats: seq<real>, threshold: real)
    requires |lons| == |lats| && NoFullTurn(lons) && |Segments(lons, lats, threshold)| > 1
    ensures forall seg :: seg in Segments(lons, lats, threshold) ==> |seg.0| >= 2 && |seg.1| >= 2
  {
    var segs := Segments(lons, lats, threshold);
    var idx := SplitIndices(lons, threshold);
    forall k | 0 <= k < |segs|
      ensures |segs[k].0| >= 2 && |segs[k].1| >= 2
    {
      SegmentsAt(lons, lats, threshold, k);
      SegmentShape(lons, lats, idx, k);
      PieceBounds(idx, |lons|, k);
    }
  }

  /** Within a segment, apart from its border points, the track has no
      jump. */
  lemma PiecesJumpFree(lons: seq<real>, threshold: real, k: nat, i: nat)
    requires |lons| >= 2 && k <= |SplitIndices(lons, threshold)|
    requires var idx := SplitIndices(lons, threshold);
             PieceStart(idx, k) < i < PieceEnd(idx, |lons|, k)
    ensures !IsJump(lons, i, threshold)
  {
    var idx := SplitIndices(lons, threshold);
    forall l | 0 <= l < |idx|
      ensures idx[l] != i
    {
      if l < k {
        assert idx[l] <= PieceStart(idx, k);
      } else {
        assert PieceEnd(idx, |lons|, k) <= idx[l];
      }
    }
    assert i !in idx;
  }

  // ------------------------------------------- the border latitude

  /** The crossing as `_splitWrapSegment` computes it.  When the longitude
      increases across the jump (a westward crossing) it draws the line
      through `(nextLon + 360, nextLat)` and `(prevLon, prevLat)`: the two
      points are then 720 degrees minus the step apart instead of the step
      itself, so the line is not the track's. */
  function CrossingAsWritten(prevLon: real, nextLon: real, prevLat: real, nextLat: real): (c: Crossing)
    requires prevLon - nextLon != 360.0
    ensures prevLon > nextLon ==> c == CrossingOf(prevLon, nextLon, prevLat, nextLat)
  {
    if prevLon > nextLon then
      Crossing(180.0, -180.0, LineAt(prevLon, prevLat, nextLon + 360.0, nextLat, 180.0))
    else
      Crossing(-180.0, 180.0, LineAt(nextLon + 360.0, nextLat, prevLon, prevLat, 180.0))
  }

  /** A westward crossing from (-175, 0) to (165, 20): the track meets the
      border a quarter of the way along, at latitude 5, but the source puts
      the border points at latitude 71/7. */
  lemma CrossingAsWrittenOffTrack()
    ensures CrossingAsWritten(-175.0, 165.0, 0.0, 20.0).latitude == 71.0 / 7.0
    ensures CrossingOf(-175.0, 165.0, 0.0, 20.0).latitude == 5.0
  {
  }

  /** The corrected border latitude lies on the straight segment between the
      two points once the second is unwrapped across the border: at the
      border longitude (180 going east, -180 going west) the latitude has
      moved from `prevLat` in proportion to the longitude travelled. */
  lemma CrossingOnTrack(prevLon: real, nextLon: real, prevLat: real, nextLat: real)
    requires prevLon - nextLon != 360.0 && nextLon - prevLon != 360.0
    ensures var c := CrossingOf(prevLon, nextLon, prevLat, nextLat);
            var unwrapped := if prevLon > nextLon then nextLon + 360.0 else nextLon - 360.0;
            var border := if prevLon > nextLon then 180.0 else -180.0;
            (c.latitude - prevLat) * (unwrapped - prevLon) == (nextLat - prevLat) * (border - prevLon)
  {
    var c := CrossingOf(prevLon, nextLon, prevLat, nextLat);
    if prevLon > nextLon {
      var d := nextLon + 360.0 - prevLon;
      assert c.latitude == prevLat + (nextLat - prevLat) / d * (180.0 - prevLon);
    } else {
      var d := prevLon + 360.0 - nextLon;
      assert c.latitude == nextLat + (prevLat - nextLat) / d * (180.0 - nextLon);
    }
  }

  /** `LineAt` as a weighted step from the first point towards the
      second. */
  lemma LineAtStep(xA: real, yA: real, xB: real, yB: real, x: real)
    requires xB != xA
    ensures LineAt(xA, yA, xB, yB, x) == yA + (x - xA) / (xB - xA) * (yB - yA)
  {
    var d := xB - xA;
    var a := (yB - yA) / d;
    assert a * x - a * xA == a * (x - xA);
    assert a * (x - xA) == (x - xA) / d * (yB - yA);
  }

  /** For longitudes in [-180, 180] the corrected border latitude lies
      between the two latitudes. */
  lemma CrossingBetween(prevLon: real, nextLon: real, prevLat: real, nextLat: real)
    requires -180.0 <= prevLon <= 180.0 && -180.0 <= nextLon <= 180.0
    requires prevLon - nextLon != 360.0 && nextLon - prevLon != 360.0
    ensures var lat := CrossingOf(prevLon, nextLon, prevLat, nextLat).latitude;
            (prevLat <= nextLat ==> prevLat <= lat <= nextLat)
            && (nextLat <= prevLat ==> nextLat <= lat <= prevLat)
  {
    if prevLon > nextLon {
      LineBetween(prevLon, prevLat, nextLon + 360.0, nextLat);
    } else {
      LineBetween(nextLon, nextLat, prevLon + 360.0, prevLat);
    }
  }

  /** A line through two points on either side of longitude 180 meets it
      between their latitudes. */
  lemma LineBetween(xA: real, yA: real, xB: real, yB: real)
    requires xA <= 180.0 <= xB && xA < xB
    ensures var y := LineAt(xA, yA, xB, yB, 180.0);
            (yA <= yB ==> yA <= y <= yB) && (yB <= yA ==> yB <= y <= yA)
  {
    var t := (180.0 - xA) / (xB - xA);
    LineAtStep(xA, yA, xB, yB, 180.0);
    FractionInUnit(180.0 - xA, xB - xA);
    Between(yA, yB, t, LineAt(xA, yA, xB, yB, 180.0));
  }

  lemma FractionInUnit(x: real, d: real)
    requires 0.0 <= x <= d && d > 0.0
    ensures 0.0 <= x / d <= 1.0
  {
  }

  lemma Between(u: real, v: real, t: real, y: real)
    requires 0.0 <= t <= 1.0 && y == u + t * (v - u)
    ensures u <= v ==> u <= y <= v
    ensures v <= u ==> v <= y <= u
  {
    if u <= v {
      ScaleUp(u, v, t);
    }
    if v <= u {
      ScaleDown(u, v, t);
    }
  }

  lemma ScaleUp(u: real, v: real, t: real)
    requires 0.0 <= t <= 1.0 && u <= v
    ensures 0.0 <= t * (v - u) <= v - u
  {
    NonNegProduct(t, v - u);
    NonNegProduct(1.0 - t, v - u);
    assert (1.0 - t) * (v - u) == (v - u) - t * (v - u);
  }

  lemma ScaleDown(u: real, v: real, t: real)
    requires 0.0 <= t <= 1.0 && v <= u
    ensures v - u <= t * (v - u) <= 0.0
  {
    NonNegProduct(t, u - v);
    NonNegProduct(1.0 - t, u - v);
    assert t * (v - u) == -(t * (u - v));
    assert (1.0 - t) * (u - v) == (u - v) - t * (u - v);
  }

  lemma NonNegProduct(a: real, b: real)
    requires a >= 0.0 && b >= 0.0
    ensures a * b >= 0.0
  {
  }

  // ------------------------------------------------------ _shouldRender

  /** `_shouldRender(mode, isSelected, isToggled)`: nothing is drawn while
      its layer is switched off; otherwise "ALWAYS" is drawn, "WHEN_SELECTED"
      only for the selected object, and every other mode (meant: "NEVER")
      not at all. */
  function ShouldRender(mode: string, isSelected: bool, isToggled: bool): (r: bool)
    ensures r <==> isToggled && (mode == "ALWAYS" || (mode == "WHEN_SELECTED" && isSelected))
  {
    if !isToggled then false
    else if mode == "ALWAYS" then true
    else if mode == "WHEN_SELECTED" then isSelected
    else false
  }

  /** Selecting an object or switching its layer on never hides an item, and
      "NEVER" (or any unknown mode) hides it in every state. */
  lemma ShouldRenderMonotone(mode: string, isSelected: bool, isToggled: bool)
    ensures ShouldRender(mode, isSelected, isToggled) ==> ShouldRender(mode, true, isToggled)
    ensures ShouldRender(mode, isSelected, isToggled) ==> ShouldRender(mode, isSelected, true)
    ensures mode != "ALWAYS" && mode != "WHEN_SELECTED" ==> !ShouldRender(mode, isSelected, isToggled)
    ensures ShouldRender("ALWAYS", isSelected, true) && !ShouldRender("NEVER", isSelected, isToggled)
  {
  }

  // ------------------------------------------------------ _lonlatToCartesian

  /** `_lonlatToCartesian`: longitude -180..180 onto 0..mapWidth and
      latitude -90..90 onto 0..mapHeight, both linearly. */
  function LonLatToCartesian(lon: real, lat: real, mapWidth: real, mapHeight: real): (xy: (real, real))
  {
    ((lon + 180.0) / 360.0 * mapWidth, (lat + 90.0) / 180.0 * mapHeight)
  }

  /** The inverse projection, for a map of non-zero size. */
  function CartesianToLonLat(x: real, y: real, mapWidth: real, mapHeight: real): (ll: (real, real))
    requires mapWidth != 0.0 && mapHeight != 0.0
  {
    (x / mapWidth * 360.0 - 180.0, y / mapHeight * 180.0 - 90.0)
  }

  /** The corners of the map and the round trip through the inverse. */
  lemma LonLatToCartesianCorners(mapWidth: real, mapHeight: real)
    ensures LonLatToCartesian(-180.0, -90.0, mapWidth, mapHeight) == (0.0, 0.0)
    ensures LonLatToCartesian(180.0, 90.0, mapWidth, mapHeight) == (mapWidth, mapHeight)
    ensures LonLatToCartesian(0.0, 0.0, mapWidth, mapHeight) == (mapWidth / 2.0, mapHeight / 2.0)
  {
  }

  lemma LonLatRoundTrip(lon: real, lat: real, mapWidth: real, mapHeight: real)
    requires mapWidth != 0.0 && mapHeight != 0.0
    ensures var xy := LonLatToCartesian(lon, lat, mapWidth, mapHeight);
            CartesianToLonLat(xy.0, xy.1, mapWidth, mapHeight) == (lon, lat)
  {
    var a, b := (lon + 180.0) / 360.0, (lat + 90.0) / 180.0;
    var xy := LonLatToCartesian(lon, lat, mapWidth, mapHeight);
    assert xy.0 == a * mapWidth && xy.1 == b * mapHeight;
    ScaleBack(a, mapWidth);
    ScaleBack(b, mapHeight);
  }

  /** On a map of positive width, further east is further right (and the
      same for north and up). */
  lemma LonLatToCartesianMonotone(lon1: real, lon2: real, lat1: real, lat2: real, mapWidth: real, mapHeight: real)
    requires mapWidth > 0.0 && mapHeight > 0.0 && lon1 < lon2 && lat1 < lat2
    ensures LonLatToCartesian(lon1, lat1, mapWidth, mapHeight).0 < LonLatToCartesian(lon2, lat2, mapWidth, mapHeight).0
    ensures LonLatToCartesian(lon1, lat1, mapWidth, mapHeight).1 < LonLatToCartesian(lon2, lat2, mapWidth, mapHeight).1
  {
    var a1, a2 := (lon1 + 180.0) / 360.0, (lon2 + 180.0) / 360.0;
    assert a1 < a2;
    var b1, b2 := (lat1 + 90.0) / 180.0, (lat2 + 90.0) / 180.0;
    assert b1 < b2;
    ProductOrder(a1, a2, mapWidth);
    ProductOrder(b1, b2, mapHeight);
  }

  lemma ScaleBack(a: real, w: real)
    requires w != 0.0
    ensures a * w / w == a
  {
  }

  lemma ProductOrder(a: real, b: real, c: real)
    requires a < b && c > 0.0
    ensures a * c < b * c
  {
  }

  // ------------------------------------------------------ _modeToLabel

  /** `Object2dMapConfigDockWidget.MODES`: combo-box label to mode. */
  const Modes: seq<(string, string)> := [("Always", "ALWAYS"), ("When Selected", "WHEN_SELECTED"), ("Never", "NEVER")]

  /** The label `_modeToLabel` shows for a mode. */
  function LabelOf(mode: string): string {
    match PyDict.KeyOf(Modes, mode)
    case Some(caption) => caption
    case None => "Never"
  }

  /** `_modeToLabel(mode)`: the first label whose mode is `mode`, or
      "Never". */
  method ModeToLabel(mode: string) returns (caption: string)
    ensures caption == LabelOf(mode)
  {
    var i := 0;
    while i < |Modes|
      invariant 0 <= i <= |Modes|
      invariant PyDict.KeyOf(Modes, mode) == PyDict.KeyOf(Modes[i..], mode)
    {
      if Modes[i].1 == mode {
        return Modes[i].0;
      }
      assert Modes[i..][1..] == Modes[i + 1..];
      i := i + 1;
    }
    return "Never";
  }

  /** The three modes and their labels are each distinct. */
  lemma ModesUnique()
    ensures PyDict.UniqueKeys(Modes) && PyDict.UniqueValues(Modes)
  {
  }

  /** `MODES[_modeToLabel(m)] == m` for the three modes, an unknown mode
      shows "Never", and every label of the combo box comes back as
      itself. */
  lemma ModeLabelRoundTrip(mode: string, caption: string)
    ensures mode in ["ALWAYS", "WHEN_SELECTED", "NEVER"] ==> PyDict.Get(Modes, LabelOf(mode)) == Some(mode)
    ensures mode !in ["ALWAYS", "WHEN_SELECTED", "NEVER"] ==> LabelOf(mode) == "Never"
    ensures PyDict.Get(Modes, caption).Some? ==> LabelOf(PyDict.Get(Modes, caption).value) == caption
  {
    ModesUnique();
    if mode in ["ALWAYS", "WHEN_SELECTED", "NEVER"] {
      assert Modes[0].1 == "ALWAYS" && Modes[1].1 == "WHEN_SELECTED" && Modes[2].1 == "NEVER";
      PyDict.GetKeyOf(Modes, mode);
    }
    if PyDict.Get(Modes, caption).Some? {
      PyDict.KeyOfGet(Modes, caption);
    }
  }

  // ------------------------------------------------------ updateMap

  /** A pyqtgraph item on the map, known by the object it draws. */
  datatype Item = Item(norad: int)

  /** `m` without the keys in `gone`: `dict.pop(k, None)` for each. */
  function Without<V>(m: map<int, V>, gone: set<int>): (r: map<int, V>)
    ensures r.Keys == m.Keys - gone
    ensures forall k :: k in r ==> r[k] == m[k]
  {
    map k | k in m && k !in gone :: m[k]
  }

  /** Dropping one more key. */
  lemma WithoutStep<V>(m: map<int, V>, gone: set<int>, k: int)
    ensures Without(m, gone) - {k} == Without(m, gone + {k})
  {
  }

  /** The shown objects whose layer `_shouldRender` draws, given each
      object's render mode for that layer. */
  function Drawn(shown: set<int>, modes: map<int, string>, selected: Option<int>, layerOn: bool): set<int>
    requires shown <= modes.Keys
  {
    set k | k in shown && ShouldRender(modes[k], selected == Some(k), layerOn)
  }

  /** A dictionary of the adding loop of `updateMap` once the objects of
      `shown` outside `pending` were displayed: it has exactly the entries
      of `m0` outside the displayed objects and one entry per displayed
      object of `drawn`. Entries of `m0` that the loop did not reach are
      unchanged; so are the ones it drew when `keep` (an arrow that already
      exists is kept). */
  ghost predicate Layer<V>(m: map<int, V>, m0: map<int, V>, shown: set<int>, pending: set<int>, drawn: set<int>, keep: bool) {
    m.Keys == (m0.Keys - (shown - pending)) + (drawn - pending)
    && forall j :: j in m0 && (j !in shown || j in pending || (keep && j in drawn)) ==> m[j] == m0[j]
  }

  /** A layer step: the displayed object's entry is set when its layer is
      drawn (left as is when `keep` and present) and dropped otherwise. */
  lemma LayerStep<V>(m: map<int, V>, m0: map<int, V>, shown: set<int>, pending: set<int>, drawn: set<int>, k: int, v: V)
    requires k in pending && pending <= shown && drawn <= shown
    requires Layer(m, m0, shown, pending, drawn, false)
    ensures Layer(if k in drawn then m[k := v] else m - {k}, m0, shown, pending - {k}, drawn, false)
  {
  }

  /** The arrow step: a drawn track keeps its arrow or gets one. */
  lemma ArrowStep<V>(m: map<int, V>, m0: map<int, V>, shown: set<int>, pending: set<int>, drawn: set<int>, k: int, v: V)
    requires k in pending && pending <= shown && drawn <= shown
    requires Layer(m, m0, shown, pending, drawn, true)
    ensures Layer(if k !in drawn then m - {k} else if k in m then m else m[k := v], m0, shown, pending - {k}, drawn, true)
  {
  }

  /** A layer once every shown object was displayed. */
  lemma LayerDone<V>(m: map<int, V>, m0: map<int, V>, shown: set<int>, drawn: set<int>, keep: bool)
    requires Layer(m, m0, shown, {}, drawn, keep)
    ensures m.Keys == (m0.Keys - shown) + drawn
    ensures forall j :: j in m0 && (j !in shown || (keep && j in drawn)) ==> m[j] == m0[j]
  {
    assert shown - {} == shown && drawn - {} == drawn;
  }

  /** A dictionary of the adding loop that gains an entry for each
      displayed object that had none and keeps every old entry. */
  ghost predicate Added<V>(m: map<int, V>, m0: map<int, V>, shown: set<int>, pending: set<int>) {
    m.Keys == m0.Keys + (shown - pending) && forall j :: j in m0 ==> m[j] == m0[j]
  }

  lemma AddedStep<V>(m: map<int, V>, m0: map<int, V>, shown: set<int>, pending: set<int>, k: int, v: V)
    requires k in pending && pending <= shown
    requires Added(m, m0, shown, pending)
    ensures Added(if k in m then m else m[k := v], m0, shown, pending - {k})
  {
  }

  /** `_updateObjectDisplay` for one object on the spot, ground-track,
      footprint, arrow and label dictionaries, given whether its ground
      track and its footprint are drawn. A drawn layer gets a fresh curve
      list (the curves are drawing items: the list stands for them) and a
      drawn track keeps or gets its arrow; a layer not drawn is dropped.
      The spot and the label are created when missing. */
  method DisplayObject(k: int, trackOn: bool, footprintOn: bool,
                       spots: map<int, Item>, tracks: map<int, seq<Item>>, footprints: map<int, seq<Item>>,
                       arrows: map<int, Item>, labels: map<int, Item>)
    returns (spots': map<int, Item>, tracks': map<int, seq<Item>>, footprints': map<int, seq<Item>>,
             arrows': map<int, Item>, labels': map<int, Item>)
    ensures tracks' == if trackOn then tracks[k := []] else tracks - {k}
    ensures arrows' == if !trackOn then arrows - {k} else if k in arrows then arrows else arrows[k := Item(k)]
    ensures footprints' == if footprintOn then footprints[k := []] else footprints - {k}
    ensures spots' == if k in spots then spots else spots[k := Item(k)]
    ensures labels' == if k in labels then labels else labels[k := Item(k)]
  {
    spots', tracks', footprints', arrows', labels' := spots, tracks, footprints, arrows, labels;
    if trackOn {
      tracks' := tracks'[k := []];
      if k !in arrows' {
        arrows' := arrows'[k := Item(k)];
      }
    } else {
      tracks' := tracks' - {k};
      arrows' := arrows' - {k};
    }
    if footprintOn {
      footprints' := footprints'[k := []];
    } else {
      footprints' := footprints' - {k};
    }
    if k !in spots' {
      spots' := spots'[k := Item(k)];
    }
    if k !in labels' {
      labels' := labels'[k := Item(k)];
    }
  }

  /** The adding loop of `updateMap` on the five dictionaries: each object
      of `shown`, in some order, displayed as `DisplayObject` says. */
  method DisplayAll(shown: set<int>, trackModes: map<int, string>, footprintModes: map<int, string>,
                    selected: Option<int>, showGroundTrack: bool, showFootprint: bool,
                    spots0: map<int, Item>, tracks0: map<int, seq<Item>>, footprints0: map<int, seq<Item>>,
                    arrows0: map<int, Item>, labels0: map<int, Item>)
    returns (spots: map<int, Item>, tracks: map<int, seq<Item>>, footprints: map<int, seq<Item>>,
             arrows: map<int, Item>, labels: map<int, Item>)
    requires shown <= trackModes.Keys && shown <= footprintModes.Keys
    ensures Added(spots, spots0, shown, {}) && Added(labels, labels0, shown, {})
    ensures Layer(tracks, tracks0, shown, {}, Drawn(shown, trackModes, selected, showGroundTrack), false)
    ensures Layer(arrows, arrows0, shown, {}, Drawn(shown, trackModes, selected, showGroundTrack), true)
    ensures Layer(footprints, footprints0, shown, {}, Drawn(shown, footprintModes, selected, showFootprint), false)
  {
    ghost var drawnTracks := Drawn(shown, trackModes, selected, showGroundTrack);
    ghost var drawnFootprints := Drawn(shown, footprintModes, selected, showFootprint);
    spots, tracks, footprints, arrows, labels := spots0, tracks0, footprints0, arrows0, labels0;
    var pending := shown;
    while pending != {}
      invariant pending <= shown
      invariant Added(spots, spots0, shown, pending)
      invariant Added(labels, labels0, shown, pending)
      invariant Layer(tracks, tracks0, shown, pending, drawnTracks, false)
      invariant Layer(arrows, arrows0, shown, pending, drawnTracks, true)
      invariant Layer(footprints, footprints0, shown, pending, drawnFootprints, false)
      decreases pending
    {
      var noradIndex := Pick(pending);
      var isSelected := selected == Some(noradIndex);
      var trackOn := ShouldRender(trackModes[noradIndex], isSelected, showGroundTrack);
      var footprintOn := ShouldRender(footprintModes[noradIndex], isSelected, showFootprint);
      assert trackOn <==> noradIndex in drawnTracks;
      assert footprintOn <==> noradIndex in drawnFootprints;
      LayerStep(tracks, tracks0, shown, pending, drawnTracks, noradIndex, []);
      LayerStep(footprints, footprints0, shown, pending, drawnFootprints, noradIndex, []);
      ArrowStep(arrows, arrows0, shown, pending, drawnTracks, noradIndex, Item(noradIndex));
      AddedStep(spots, spots0, shown, pending, noradIndex, Item(noradIndex));
      AddedStep(labels, labels0, shown, pending, noradIndex, Item(noradIndex));
      spots, tracks, footprints, arrows, labels :=
        DisplayObject(noradIndex, trackOn, footprintOn, spots, tracks, footprints, arrows, labels);
      pending := pending - {noradIndex};
    }
  }

  /** Some element of a non-empty set: an iteration order the source
      leaves to the set. */
  method Pick(s: set<int>) returns (x: int)
    requires s != {}
    ensures x in s
  {
    HasElement(s);
    x :| x in s;
  }

  lemma HasElement(s: set<int>)
    requires s != {}
    ensures exists x :: x in s
  {
    if forall x :: x !in s {
      assert false;
    }
  }

  /** The per-object items of the 2D map, each dictionary keyed by catalog
      number. */
  class Map2dWidget {
    var objectSpots: map<int, Item>
    var objectGroundTracks: map<int, seq<Item>>
    var objectFootprints: map<int, seq<Item>>
    var objectArrows: map<int, Item>
    var objectLabels: map<int, Item>
    var selectedObject: Option<int>

    constructor()
      ensures objectSpots == map[] && objectGroundTracks == map[] && objectFootprints == map[]
      ensures objectArrows == map[] && objectLabels == map[] && selectedObject == None
    {
      objectSpots, objectGroundTracks, objectFootprints := map[], map[], map[];
      objectArrows, objectLabels := map[], map[];
      selectedObject := None;
    }

    /** The removal loop of `updateMap`: every object with a spot that is
        not visible loses its spot and, where present, its ground track,
        footprint, arrow and label.  Objects without a spot keep their other
        items. */
    method PruneInvisible(visible: set<int>)
      modifies this
      ensures var gone := old(objectSpots).Keys - visible;
              objectSpots == Without(old(objectSpots), gone)
              && objectGroundTracks == Without(old(objectGroundTracks), gone)
              && objectFootprints == Without(old(objectFootprints), gone)
              && objectArrows == Without(old(objectArrows), gone)
              && objectLabels == Without(old(objectLabels), gone)
      ensures objectSpots.Keys <= visible
      ensures selectedObject == old(selectedObject)
    {
      var pending := objectSpots.Keys;
      ghost var done: set<int> := {};
      ghost var g: set<int> := {};
      while pending != {}
        invariant pending + done == old(objectSpots).Keys && pending !! done
        invariant g == done - visible
        invariant objectSpots == Without(old(objectSpots), g)
        invariant objectGroundTracks == Without(old(objectGroundTracks), g)
        invariant objectFootprints == Without(old(objectFootprints), g)
        invariant objectArrows == Without(old(objectArrows), g)
        invariant objectLabels == Without(old(objectLabels), g)
        invariant selectedObject == old(selectedObject)
        decreases pending
      {
        var noradIndex := Pick(pending);
        if noradIndex !in visible {
          WithoutStep(old(objectSpots), g, noradIndex);
          WithoutStep(old(objectGroundTracks), g, noradIndex);
          WithoutStep(old(objectFootprints), g, noradIndex);
          WithoutStep(old(objectArrows), g, noradIndex);
          WithoutStep(old(objectLabels), g, noradIndex);
          Pop(noradIndex);
          g := g + {noradIndex};
        }
        pending := pending - {noradIndex};
        done := done + {noradIndex};
      }
    }

    /** `pop(noradIndex, None)` on the five item dictionaries. */
    method Pop(noradIndex: int)
      modifies this
      ensures objectSpots == old(objectSpots) - {noradIndex}
      ensures objectGroundTracks == old(objectGroundTracks) - {noradIndex}
      ensures objectFootprints == old(objectFootprints) - {noradIndex}
      ensures objectArrows == old(objectArrows) - {noradIndex}
      ensures objectLabels == old(objectLabels) - {noradIndex}
      ensures selectedObject == old(selectedObject)
    {
      objectSpots := objectSpots - {noradIndex};
      objectGroundTracks := objectGroundTracks - {noradIndex};
      objectFootprints := objectFootprints - {noradIndex};
      objectArrows := objectArrows - {noradIndex};
      objectLabels := objectLabels - {noradIndex};
    }

    /** `updateMap` on the ids that are visible, the ids that have a
        position, the selection, each object's ground-track and footprint
        render modes, and the two layer switches. The removal loop drops
        every item of the objects that are no longer visible; then every
        visible object with a position is displayed. */
    method UpdateMap(visible: set<int>, positioned: set<int>, selected: Option<int>,
                     trackModes: map<int, string>, footprintModes: map<int, string>,
                     showGroundTrack: bool, showFootprint: bool)
      requires visible * positioned <= trackModes.Keys && visible * positioned <= footprintModes.Keys
      modifies this
      ensures selectedObject == selected
      ensures objectSpots.Keys == (old(objectSpots).Keys * visible) + (visible * positioned)
      ensures objectSpots.Keys <= visible
      ensures forall k :: k in old(objectSpots) && k in visible ==> objectSpots[k] == old(objectSpots)[k]
      ensures var gone := old(objectSpots).Keys - visible;
              objectLabels.Keys == (old(objectLabels).Keys - gone) + (visible * positioned)
              && forall k :: k in old(objectLabels) && k !in gone ==> objectLabels[k] == old(objectLabels)[k]
      ensures var gone := old(objectSpots).Keys - visible;
              var shown := visible * positioned;
              var drawn := Drawn(shown, trackModes, selected, showGroundTrack);
              objectGroundTracks.Keys == (old(objectGroundTracks).Keys - gone - shown) + drawn
              && objectArrows.Keys == (old(objectArrows).Keys - gone - shown) + drawn
              && (forall k :: k in old(objectGroundTracks) && k !in gone && k !in shown ==>
                    objectGroundTracks[k] == old(objectGroundTracks)[k])
              && (forall k :: k in old(objectArrows) && k !in gone && (k !in shown || k in drawn) ==>
                    objectArrows[k] == old(objectArrows)[k])
      ensures var gone := old(objectSpots).Keys - visible;
              var shown := visible * positioned;
              objectFootprints.Keys == (old(objectFootprints).Keys - gone - shown)
                                       + Drawn(shown, footprintModes, selected, showFootprint)
              && forall k :: k in old(objectFootprints) && k !in gone && k !in shown ==>
                   objectFootprints[k] == old(objectFootprints)[k]
    {
      selectedObject := selected;
      PruneInvisible(visible);
      AddVisible(visible * positioned, trackModes, footprintModes, showGroundTrack, showFootprint);
    }

    /** The adding loop of `updateMap` (`_updateObjectDisplay` for each
        shown object). A ground track that `_shouldRender` draws gets a
        fresh curve list and keeps or gets its arrow; one it does not draw
        loses both. A drawn footprint gets a fresh curve list; one not drawn
        is dropped. Every shown object gets a spot and a label when it has
        none, and keeps the ones it has. The curves in a list are drawing
        items: the list stands for them. */
    method AddVisible(shown: set<int>, trackModes: map<int, string>, footprintModes: map<int, string>,
                      showGroundTrack: bool, showFootprint: bool)
      requires shown <= trackModes.Keys && shown <= footprintModes.Keys
      modifies this
      ensures selectedObject == old(selectedObject)
      ensures objectSpots.Keys == old(objectSpots).Keys + shown
      ensures objectLabels.Keys == old(objectLabels).Keys + shown
      ensures forall k :: k in old(objectSpots) ==> objectSpots[k] == old(objectSpots)[k]
      ensures forall k :: k in old(objectLabels) ==> objectLabels[k] == old(objectLabels)[k]
      ensures var drawn := Drawn(shown, trackModes, selectedObject, showGroundTrack);
              objectGroundTracks.Keys == (old(objectGroundTracks).Keys - shown) + drawn
              && objectArrows.Keys == (old(objectArrows).Keys - shown) + drawn
              && (forall k :: k in old(objectGroundTracks) && k !in shown ==>
                    objectGroundTracks[k] == old(objectGroundTracks)[k])
              && (forall k :: k in old(objectArrows) && (k !in shown || k in drawn) ==>
                    objectArrows[k] == old(objectArrows)[k])
      ensures objectFootprints.Keys == (old(objectFootprints).Keys - shown)
                                       + Drawn(shown, footprintModes, selectedObject, showFootprint)
      ensures forall k :: k in old(objectFootprints) && k !in shown ==> objectFootprints[k] == old(objectFootprints)[k]
    {
      var spots, tracks, footprints, arrows, labels :=
        DisplayAll(shown, trackModes, footprintModes, selectedObject, showGroundTrack, showFootprint,
                   objectSpots, objectGroundTracks, objectFootprints, objectArrows, objectLabels);
      LayerDone(tracks, objectGroundTracks, shown, Drawn(shown, trackModes, selectedObject, showGroundTrack), false);
      LayerDone(arrows, objectArrows, shown, Drawn(shown, trackModes, selectedObject, showGroundTrack), true);
      LayerDone(footprints, objectFootprints, shown, Drawn(shown, footprintModes, selectedObject, showFootprint), false);
      assert shown - {} == shown;
      objectSpots, objectGroundTracks, objectFootprints, objectArrows, objectLabels :=
        spots, tracks, footprints, arrows, labels;
    }
  }
}
