/** The tracker of the `sat_tracker` package (sat_tracker/tracker.py): a
    list of tracked objects, picked out of the catalog by name or number,
    and the propagator handles rebuilt from their raw element lines after
    every addition.  Propagation itself is not part of this model. */
module Tracker {
  import opened Wrappers
  import opened SatTrackerDatabase
  import Catalog = TleDatabase

  /** What the tracker knows about its objects: `tracked_objects`,
      `tracked_indexes` and `n_tracked_objects`. */
  datatype Tracked = Tracked(objects: seq<string>, indexes: seq<nat>, count: int)

  /** The tracker with nothing added yet. */
  const Empty := Tracked([], [], 0)

  /** Every index points at a stored [name, line 1, line 2] triple. */
  predicate Indexable(data: seq<seq<string>>, indexes: seq<nat>) {
    forall k :: 0 <= k < |indexes| ==> indexes[k] < |data| && |data[indexes[k]]| == 3
  }

  /** The count agrees with both lists, and each tracked name is the name
      line of the catalog entry its index points at. */
  predicate Consistent(t: Tracked, data: seq<seq<string>>) {
    t.count == |t.objects| == |t.indexes|
    && Indexable(data, t.indexes)
    && forall k :: 0 <= k < |t.objects| ==> t.objects[k] == data[t.indexes[k]][0]
  }

  /** A search result that can be looked up in `data`. */
  predicate HitIn(h: SearchHit, data: seq<seq<string>>) {
    h.Hit? ==> h.index < |data| && |data[h.index]| == 3
  }

  /** What `search_index` answers for a catalog in the given state, as
      `TleDatabase.SearchIndex` promises. */
  function Search(columns: Option<Columns>, n: nat, q: Query): (r: Result<SearchHit>)
    requires columns.Some? ==> columns.value.HasLength(n)
    ensures r.Ok? && r.value.Hit? ==> columns.Some? && r.value.index < n && Matches(columns.value, r.value.index, q)
    ensures r.Ok? && r.value.Hit? ==> forall j :: 0 <= j < r.value.index ==> !Matches(columns.value, j, q)
    ensures r.Err? <==> n != 0 && columns.None?
  {
    if n == 0 then Ok(Miss)
    else if columns.None? then Err("IndexError")
    else
      var k := FirstMatch(columns.value, n, q);
      Ok(if k < n then Hit(k) else Miss)
  }

  /** `add_object` once the search has answered `h`: only a truthy answer
      is tracked, so the answer 0 is dropped like a miss. */
  function AfterAdd(t: Tracked, data: seq<seq<string>>, h: SearchHit): Tracked
    requires HitIn(h, data)
  {
    if Truthy(h) then Tracked(t.objects + [data[h.index][0]], t.indexes + [h.index], t.count + 1)
    else t
  }

  /** `add_object` testing `index is not False` instead of the index's
      truthiness, so that the first catalog entry can be tracked. */
  function AfterAddFixed(t: Tracked, data: seq<seq<string>>, h: SearchHit): Tracked
    requires HitIn(h, data)
  {
    if h.Hit? then Tracked(t.objects + [data[h.index][0]], t.indexes + [h.index], t.count + 1)
    else t
  }

  /** Both versions of `add_object` keep the count and the lists in step
      with the catalog. */
  lemma AddKeepsConsistent(t: Tracked, data: seq<seq<string>>, h: SearchHit)
    requires Consistent(t, data) && HitIn(h, data)
    ensures Consistent(AfterAdd(t, data, h), data)
    ensures Consistent(AfterAddFixed(t, data, h), data)
  {
  }

  /** Adding the same object twice tracks it twice. */
  lemma AddTwiceTracksTwice(t: Tracked, data: seq<seq<string>>, h: SearchHit)
    requires HitIn(h, data) && Truthy(h)
    ensures var t2 := AfterAdd(AfterAdd(t, data, h), data, h);
            t2.indexes == t.indexes + [h.index, h.index]
            && t2.objects == t.objects + [data[h.index][0], data[h.index][0]]
            && t2.count == t.count + 2
  {
  }

  /** A run of `add_object` calls whose searches answered `hits`, oldest
      first. */
  function AddAll(data: seq<seq<string>>, hits: seq<SearchHit>): Tracked
    requires forall i :: 0 <= i < |hits| ==> HitIn(hits[i], data)
  {
    if hits == [] then Empty
    else AfterAdd(AddAll(data, hits[..|hits| - 1]), data, hits[|hits| - 1])
  }

  /** The same run with the corrected test. */
  function AddAllFixed(data: seq<seq<string>>, hits: seq<SearchHit>): Tracked
    requires forall i :: 0 <= i < |hits| ==> HitIn(hits[i], data)
  {
    if hits == [] then Empty
    else AfterAddFixed(AddAllFixed(data, hits[..|hits| - 1]), data, hits[|hits| - 1])
  }

  /** The indexes of the truthy answers, in order. */
  function TruthyIndexes(hits: seq<SearchHit>): seq<nat> {
    if hits == [] then []
    else
      var last := hits[|hits| - 1];
      TruthyIndexes(hits[..|hits| - 1]) + (if Truthy(last) then [last.index] else [])
  }

  /** The indexes of all the answers that found something, in order. */
  function HitIndexes(hits: seq<SearchHit>): seq<nat> {
    if hits == [] then []
    else
      var last := hits[|hits| - 1];
      HitIndexes(hits[..|hits| - 1]) + (if last.Hit? then [last.index] else [])
  }

  /** After any run of additions the tracker holds exactly the truthy
      answers, in order, with the count and names in step; index 0, the
      first catalog entry, is never among them. */
  lemma {:induction false} AddAllTracksTruthy(data: seq<seq<string>>, hits: seq<SearchHit>)
    requires forall i :: 0 <= i < |hits| ==> HitIn(hits[i], data)
    ensures var t := AddAll(data, hits);
            t.indexes == TruthyIndexes(hits) && Consistent(t, data) && 0 !in t.indexes
  {
    if hits != [] {
      var front := hits[..|hits| - 1];
      assert forall i :: 0 <= i < |front| ==> front[i] == hits[i];
      AddAllTracksTruthy(data, front);
      AddKeepsConsistent(AddAll(data, front), data, hits[|hits| - 1]);
    }
  }

  /** With the corrected test every answer that found something is
      tracked, the first catalog entry included. */
  lemma {:induction false} AddAllFixedTracksHits(data: seq<seq<string>>, hits: seq<SearchHit>)
    requires forall i :: 0 <= i < |hits| ==> HitIn(hits[i], data)
    ensures var t := AddAllFixed(data, hits);
            t.indexes == HitIndexes(hits) && Consistent(t, data)
            && (Hit(0) in hits ==> 0 in t.indexes)
  {
    if hits != [] {
      var front := hits[..|hits| - 1];
      assert forall i :: 0 <= i < |front| ==> front[i] == hits[i];
      assert hits == front + [hits[|hits| - 1]];
      AddAllFixedTracksHits(data, front);
      AddKeepsConsistent(AddAllFixed(data, front), data, hits[|hits| - 1]);
    }
  }

  /** `load_estimator`'s list: one handle per tracked index, in order, built
      from that entry's two element lines. */
  function Handles(data: seq<seq<string>>, indexes: seq<nat>): (hs: seq<Catalog.Satrec>)
    requires Indexable(data, indexes)
    ensures |hs| == |indexes|
  {
    seq(|indexes|, k requires 0 <= k < |indexes| => Catalog.Twoline2rv(data[indexes[k]][1], data[indexes[k]][2]))
  }

  /** Handle k and tracked name k come from the same catalog triple. */
  lemma HandlesMatchObjects(t: Tracked, data: seq<seq<string>>)
    requires Consistent(t, data)
    ensures var hs := Handles(data, t.indexes);
            forall k :: 0 <= k < |t.objects| ==>
              [t.objects[k], hs[k].line1, hs[k].line2] == data[t.indexes[k]]
  {
    var hs := Handles(data, t.indexes);
    forall k | 0 <= k < |t.objects|
      ensures [t.objects[k], hs[k].line1, hs[k].line2] == data[t.indexes[k]]
    {
      var e := data[t.indexes[k]];
      assert [e[0], e[1], e[2]] == e;
    }
  }

  class Tracker {
    /** `self.database`, the catalog searched and read. */
    const database: SatTrackerDatabase.TleDatabase
    /** `self.estimator`: None until the first addition. */
    var estimator: Option<seq<Catalog.Satrec>>
    var trackedObjects: seq<string>
    var trackedIndexes: seq<nat>
    var nTrackedObjects: int

    function State(): Tracked
      reads this
    {
      Tracked(trackedObjects, trackedIndexes, nTrackedObjects)
    }

    /** The tracked lists agree with the catalog, and a built estimator has
        one handle per tracked object. */
    predicate Valid()
      reads this, database
    {
      database.Valid() && Consistent(State(), database.data)
      && (estimator.Some? ==> estimator.value == Handles(database.data, trackedIndexes))
    }

    /** `__init__` over a catalog already built; nothing is tracked. */
    constructor(database: SatTrackerDatabase.TleDatabase)
      requires database.Valid()
      ensures this.database == database && State() == Empty && estimator == None
      ensures Valid()
    {
      this.database := database;
      estimator := None;
      trackedObjects := [];
      trackedIndexes := [];
      nTrackedObjects := 0;
    }

    /** `add_object(name)`: a failed search raises; an answer of 0 or
        `False` leaves everything as it was (the warning is not modelled);
        a truthy index i appends the name line of entry i and i, rebuilds
        the estimator and counts the object. */
    method AddObject(q: Query) returns (r: Result<()>)
      requires Valid()
      modifies this`estimator, this`trackedObjects, this`trackedIndexes, this`nTrackedObjects
      ensures Valid()
      ensures var s := Search(old(database.deconstructedData), old(database.nSatellites), q);
              s.Err? ==> r == Err(s.error) && State() == old(State()) && estimator == old(estimator)
      ensures var s := Search(old(database.deconstructedData), old(database.nSatellites), q);
              s.Ok? ==> r == Ok(()) && HitIn(s.value, database.data)
                        && State() == AfterAdd(old(State()), database.data, s.value)
                        && (Truthy(s.value) ==> estimator == Some(Handles(database.data, trackedIndexes)))
                        && (!Truthy(s.value) ==> estimator == old(estimator))
    {
      var h := database.SearchIndex(q);
      if h.Err? {
        return Err(h.error);
      }
      if Truthy(h.value) {
        var i := h.value.index;
        trackedObjects := trackedObjects + [database.data[i][0]];
        trackedIndexes := trackedIndexes + [i];
        LoadEstimator();
        nTrackedObjects := nTrackedObjects + 1;
      }
      return Ok(());
    }

    /** `add_object` with the corrected test: any index found, 0 included,
        is tracked. */
    method AddObjectFixed(q: Query) returns (r: Result<()>)
      requires Valid()
      modifies this`estimator, this`trackedObjects, this`trackedIndexes, this`nTrackedObjects
      ensures Valid()
      ensures var s := Search(old(database.deconstructedData), old(database.nSatellites), q);
              s.Err? ==> r == Err(s.error) && State() == old(State()) && estimator == old(estimator)
      ensures var s := Search(old(database.deconstructedData), old(database.nSatellites), q);
              s.Ok? ==> r == Ok(()) && HitIn(s.value, database.data)
                        && State() == AfterAddFixed(old(State()), database.data, s.value)
                        && (s.value.Hit? ==> estimator == Some(Handles(database.data, trackedIndexes)))
                        && (s.value.Miss? ==> estimator == old(estimator))
    {
      var h := database.SearchIndex(q);
      if h.Err? {
        return Err(h.error);
      }
      if h.value.Hit? {
        var i := h.value.index;
        trackedObjects := trackedObjects + [database.data[i][0]];
        trackedIndexes := trackedIndexes + [i];
        LoadEstimator();
        nTrackedObjects := nTrackedObjects + 1;
      }
      return Ok(());
    }

    /** `load_estimator()`: one handle per tracked index, in order. */
    method LoadEstimator()
      requires Indexable(database.data, trackedIndexes)
      modifies this`estimator
      ensures estimator == Some(Handles(database.data, trackedIndexes))
    {
      var satellites: seq<Catalog.Satrec> := [];
      for k := 0 to |trackedIndexes|
        invariant satellites == Handles(database.data, trackedIndexes[..k])
      {
        var i := trackedIndexes[k];
        satellites := satellites + [Catalog.Twoline2rv(database.data[i][1], database.data[i][2])];
      }
      assert trackedIndexes[..|trackedIndexes|] == trackedIndexes;
      estimator := Some(satellites);
    }
  }
}
