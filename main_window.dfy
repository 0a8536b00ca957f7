/** The main window's tracked-object bookkeeping (src/gui/mainWindow.py):
    the list of active NORAD ids, the selected id, and the per-object
    display configurations stored in the settings. Docks, views, the
    database lookup and saving the settings file are not modelled. */
module MainWindow {
  import opened Wrappers
  import PyText
  import PyDict
  import TimeManaging
  import opened Utilities

  /** `CentralViewWidget.TABS`: tab index to the name stored in
      'CURRENT_TAB'. */
  const Tabs: seq<(int, string)> := [(0, "2D_MAP"), (1, "3D_VIEW")]

  /** No id occurs twice. */
  predicate Distinct(a: seq<int>) {
    forall i, j :: 0 <= i < j < |a| ==> a[i] != a[j]
  }

  /** Every id in `active` has an entry in both views' 'OBJECTS'. */
  predicate Configured(active: seq<int>, s: Settings) {
    forall id :: id in active ==>
      PyText.IntToStr(id) in s.map2d.objects && PyText.IntToStr(id) in s.view3d.objects
  }

  // --------------------------------------------------------------- opening

  /** What `__init__` reads from the loaded settings before the window
      exists: 'VISUALIZATION' / 'ACTIVE_OBJECTS' (line 38) and, while
      building the menus, '3D_VIEW' / 'SHOW_AXES' (line 100); either one
      missing raises KeyError. */
  function StartupActiveObjects(s: Settings): Result<seq<int>> {
    match s.visualization
    case None => Err("KeyError")
    case Some(v) => if s.view3d.showAxes.None? then Err("KeyError") else Ok(v.activeObjects)
  }

  /** The settings file written on first start does not open: it has no
      'VISUALIZATION' section, and even with one added it has no
      'SHOW_AXES' toggle. */
  lemma DefaultSettingsDoNotOpen()
    ensures StartupActiveObjects(DefaultSettings()) == Err("KeyError")
    ensures StartupActiveObjects(DefaultSettings().(visualization := Some(Visualization([25544], "3D_VIEW"))))
            == Err("KeyError")
  {
  }

  /** The corrected defaults open on the ISS alone, which has its display
      configurations in both views, and select the 3D tab (index 1). */
  lemma CorrectedDefaultsOpen()
    ensures StartupActiveObjects(CorrectedDefaultSettings()) == Ok([25544])
    ensures Configured([25544], CorrectedDefaultSettings())
    ensures PyDict.KeyOf(Tabs, CorrectedDefaultSettings().visualization.value.currentTab) == Some(1)
  {
    assert PyText.IntToStr(25544) == "25544";
    assert Tabs[0].1 != "3D_VIEW";
  }

  // ----------------------------------------------------------- addObjects

  /** The active list after appending, in order, each id of `ids` not yet
      in it. */
  function AppendNew(active: seq<int>, ids: seq<int>): seq<int>
    decreases |ids|
  {
    if ids == [] then active
    else
      var a := AppendNew(active, ids[..|ids| - 1]);
      if ids[|ids| - 1] in a then a else a + [ids[|ids| - 1]]
  }

  /** The keys `addObjects` makes sure exist: `str(id)` for each id it
      actually appends. */
  function NewKeys(active: seq<int>, ids: seq<int>): set<string> {
    set id | id in ids && id !in active :: PyText.IntToStr(id)
  }

  /** `objects` with an entry `default` added for each key of `keys` it
      lacks. */
  function EnsureConfigs<V>(objects: map<string, V>, keys: set<string>, default: V): (m: map<string, V>)
    ensures m.Keys == objects.Keys + keys
    ensures forall k :: k in objects ==> m[k] == objects[k]
    ensures forall k :: k in keys && k !in objects ==> m[k] == default
  {
    map k | k in objects.Keys + keys :: if k in objects then objects[k] else default
  }

  /** The settings after `addObjects(ids)` started from `active`: new
      entries in both 'OBJECTS' maps and the list written back to
      'VISUALIZATION'. */
  function Added(s: Settings, active: seq<int>, ids: seq<int>): Settings
    requires s.visualization.Some?
  {
    s.(map2d := s.map2d.(objects := EnsureConfigs(s.map2d.objects, NewKeys(active, ids), s.map2d.defaultConfig)),
       view3d := s.view3d.(objects := EnsureConfigs(s.view3d.objects, NewKeys(active, ids), s.view3d.defaultConfig)),
       visualization := Some(s.visualization.value.(activeObjects := AppendNew(active, ids))))
  }

  /** An id ends up active iff it was active or was to be added. */
  lemma {:induction false} AppendNewMembers(active: seq<int>, ids: seq<int>, x: int)
    ensures x in AppendNew(active, ids) <==> x in active || x in ids
    decreases |ids|
  {
    if ids != [] {
      var init := ids[..|ids| - 1];
      AppendNewMembers(active, init, x);
      assert ids == init + [ids[|ids| - 1]];
    }
  }

  /** The old list stays in front, unchanged. */
  lemma {:induction false} AppendNewPrefix(active: seq<int>, ids: seq<int>)
    ensures |active| <= |AppendNew(active, ids)|
    ensures AppendNew(active, ids)[..|active|] == active
    decreases |ids|
  {
    if ids != [] {
      AppendNewPrefix(active, ids[..|ids| - 1]);
    }
  }

  /** Adding never creates a duplicate. */
  lemma {:induction false} AppendNewDistinct(active: seq<int>, ids: seq<int>)
    requires Distinct(active)
    ensures Distinct(AppendNew(active, ids))
    decreases |ids|
  {
    if ids != [] {
      AppendNewDistinct(active, ids[..|ids| - 1]);
    }
  }

  /** Adding ids that are all active already changes nothing. */
  lemma {:induction false} AppendNewActive(active: seq<int>, ids: seq<int>)
    requires forall x :: x in ids ==> x in active
    ensures AppendNew(active, ids) == active
    decreases |ids|
  {
    if ids != [] {
      var init, last := ids[..|ids| - 1], ids[|ids| - 1];
      assert ids == init + [last];
      AppendNewActive(active, init);
      assert last in active;
    }
  }

  /** After adding, every active id has both display configurations, and
      every configuration that existed before is kept as it was. */
  lemma AddedConfigured(s: Settings, active: seq<int>, ids: seq<int>)
    requires s.visualization.Some? && Configured(active, s)
    ensures Configured(AppendNew(active, ids), Added(s, active, ids))
    ensures forall k :: k in s.map2d.objects ==> Added(s, active, ids).map2d.objects[k] == s.map2d.objects[k]
    ensures forall k :: k in s.view3d.objects ==> Added(s, active, ids).view3d.objects[k] == s.view3d.objects[k]
  {
    var t := Added(s, active, ids);
    forall id | id in AppendNew(active, ids)
      ensures PyText.IntToStr(id) in t.map2d.objects && PyText.IntToStr(id) in t.view3d.objects
    {
      AppendNewMembers(active, ids, id);
      if id !in active {
        assert PyText.IntToStr(id) in NewKeys(active, ids);
      }
    }
  }

  /** One more id for `AppendNew`. */
  lemma AppendNewStep(active: seq<int>, ids: seq<int>, i: nat)
    requires i < |ids|
    ensures AppendNew(active, ids[..i + 1])
            == (var a := AppendNew(active, ids[..i]); if ids[i] in a then a else a + [ids[i]])
  {
    assert ids[..i + 1][..i] == ids[..i];
  }

  /** One more id for `NewKeys`: its key joins unless the id is active
      already. */
  lemma NewKeysStep(active: seq<int>, ids: seq<int>, i: nat)
    requires i < |ids|
    ensures NewKeys(active, ids[..i + 1])
            == if ids[i] in AppendNew(active, ids[..i]) then NewKeys(active, ids[..i])
               else NewKeys(active, ids[..i]) + {PyText.IntToStr(ids[i])}
  {
    var keys := NewKeys(active, ids[..i]);
    assert ids[..i + 1] == ids[..i] + [ids[i]];
    AppendNewMembers(active, ids[..i], ids[i]);
    if ids[i] in active {
      assert NewKeys(active, ids[..i + 1]) == keys;
    } else {
      assert NewKeys(active, ids[..i + 1]) == keys + {PyText.IntToStr(ids[i])};
    }
  }

  /** Ensuring one more key: the map is unchanged if it has the key, else
      the key gets the default. */
  lemma EnsureConfigsStep<V>(objects: map<string, V>, keys: set<string>, k: string, default: V)
    ensures EnsureConfigs(objects, keys + {k}, default)
            == (var m := EnsureConfigs(objects, keys, default); if k in m then m else m[k := default])
  {
  }

  /** `s` with both 'OBJECTS' maps replaced. */
  function WithObjects(s: Settings, objects2d: map<string, MapObjectConfig>, objects3d: map<string, ViewObjectConfig>): Settings {
    s.(map2d := s.map2d.(objects := objects2d), view3d := s.view3d.(objects := objects3d))
  }

  // ------------------------------------------------- removeSelectedObjects

  /** `list.remove(x)` guarded by `x in list`: drops the first occurrence
      of `x`, if any, and keeps the rest in order. */
  function RemoveFirst(a: seq<int>, x: int): seq<int> {
    if a == [] then []
    else if a[0] == x then a[1..]
    else [a[0]] + RemoveFirst(a[1..], x)
  }

  /** `remove` takes away one occurrence of `x` if there is one, and
      nothing when there is none. */
  lemma {:induction false} RemoveFirstMultiset(a: seq<int>, x: int)
    ensures multiset(RemoveFirst(a, x)) == multiset(a) - multiset{x}
    ensures x !in a ==> RemoveFirst(a, x) == a
  {
    if a != [] {
      assert a == [a[0]] + a[1..];
      RemoveFirstMultiset(a[1..], x);
    }
  }

  /** The position of the first occurrence of `x`. */
  function FirstIndex(a: seq<int>, x: int): (j: nat)
    requires x in a
    ensures j < |a| && a[j] == x && x !in a[..j]
  {
    if a[0] == x then 0
    else
      assert a == [a[0]] + a[1..];
      var j := FirstIndex(a[1..], x) + 1;
      assert a[..j] == [a[0]] + a[1..][..j - 1];
      j
  }

  /** `remove` cuts out exactly the first occurrence and keeps the order of
      the rest. */
  lemma {:induction false} RemoveFirstAt(a: seq<int>, x: int)
    requires x in a
    ensures RemoveFirst(a, x) == a[..FirstIndex(a, x)] + a[FirstIndex(a, x) + 1..]
  {
    if a[0] != x {
      assert a == [a[0]] + a[1..];
      RemoveFirstAt(a[1..], x);
      var j := FirstIndex(a[1..], x);
      assert a[..j + 1] == [a[0]] + a[1..][..j];
      assert a[j + 2..] == a[1..][j + 1..];
    }
  }

  /** The active list after removing, in order, each id of `ids`. */
  function RemoveAll(active: seq<int>, ids: seq<int>): seq<int>
    decreases |ids|
  {
    if ids == [] then active
    else RemoveFirst(RemoveAll(active, ids[..|ids| - 1]), ids[|ids| - 1])
  }

  /** The selection after removing `ids`: cleared iff the selected id is
      one of them. */
  function ClearedSelection(selected: Option<int>, ids: seq<int>): Option<int> {
    if selected.Some? && selected.value in ids then None else selected
  }

  /** Each listed id takes away one occurrence, if there is one. */
  lemma {:induction false} RemoveAllMultiset(active: seq<int>, ids: seq<int>)
    ensures multiset(RemoveAll(active, ids)) == multiset(active) - multiset(ids)
    decreases |ids|
  {
    if ids != [] {
      var init := ids[..|ids| - 1];
      RemoveAllMultiset(active, init);
      RemoveFirstMultiset(RemoveAll(active, init), ids[|ids| - 1]);
      assert ids == init + [ids[|ids| - 1]];
    }
  }

  /** In a duplicate-free list an id occurs once or not at all. */
  lemma {:induction false} DistinctCount(a: seq<int>, x: int)
    requires Distinct(a)
    ensures multiset(a)[x] == if x in a then 1 else 0
  {
    if a != [] {
      assert a == [a[0]] + a[1..];
      assert Distinct(a[1..]) by {
        forall i, j | 0 <= i < j < |a[1..]| ensures a[1..][i] != a[1..][j] {
          assert a[1..][i] == a[i + 1] && a[1..][j] == a[j + 1];
        }
      }
      assert a[0] !in a[1..] by {
        forall i | 0 <= i < |a[1..]| ensures a[1..][i] != a[0] {
          assert a[1..][i] == a[i + 1];
        }
      }
      DistinctCount(a[1..], x);
      assert multiset(a) == multiset{a[0]} + multiset(a[1..]);
    }
  }

  /** Removing from a duplicate-free list keeps it duplicate-free. */
  lemma RemoveFirstDistinct(a: seq<int>, x: int)
    requires Distinct(a)
    ensures Distinct(RemoveFirst(a, x))
  {
    RemoveFirstMultiset(a, x);
    if x in a {
      RemoveFirstAt(a, x);
      var j := FirstIndex(a, x);
      var r := RemoveFirst(a, x);
      forall p, q | 0 <= p < q < |r| ensures r[p] != r[q] {
        var p' := if p < j then p else p + 1;
        var q' := if q < j then q else q + 1;
        assert r[p] == a[p'] && r[q] == a[q'];
      }
    }
  }

  /** Removing from a duplicate-free list keeps it duplicate-free. */
  lemma {:induction false} RemoveAllDistinct(active: seq<int>, ids: seq<int>)
    requires Distinct(active)
    ensures Distinct(RemoveAll(active, ids))
    decreases |ids|
  {
    if ids != [] {
      RemoveAllDistinct(active, ids[..|ids| - 1]);
      RemoveFirstDistinct(RemoveAll(active, ids[..|ids| - 1]), ids[|ids| - 1]);
    }
  }

  /** From a duplicate-free list, removal leaves exactly the ids that were
      active and not listed. */
  lemma RemoveAllMembers(active: seq<int>, ids: seq<int>, x: int)
    requires Distinct(active)
    ensures x in RemoveAll(active, ids) <==> x in active && x !in ids
  {
    RemoveAllMultiset(active, ids);
    RemoveAllDistinct(active, ids);
    DistinctCount(active, x);
    DistinctCount(RemoveAll(active, ids), x);
  }

  /** Removal deletes no configuration, so the remaining active ids are
      still configured. */
  lemma RemoveAllConfigured(active: seq<int>, ids: seq<int>, s: Settings)
    requires Configured(active, s)
    ensures Configured(RemoveAll(active, ids), s)
  {
    RemoveAllMultiset(active, ids);
    forall id | id in RemoveAll(active, ids) ensures id in active {
      assert id in multiset(RemoveAll(active, ids));
    }
  }

  /** Removing an id the front part lacks only touches the back part. */
  lemma {:induction false} RemoveFirstAppend(a: seq<int>, t: seq<int>, x: int)
    requires x !in a
    ensures RemoveFirst(a + t, x) == a + RemoveFirst(t, x)
  {
    if a == [] {
      assert a + t == t;
    } else {
      assert (a + t)[0] == a[0] != x;
      assert (a + t)[1..] == a[1..] + t;
      RemoveFirstAppend(a[1..], t, x);
      assert a == [a[0]] + a[1..];
    }
  }

  /** Removing ids the front part lacks only touches the back part. */
  lemma {:induction false} RemoveAllAppend(a: seq<int>, t: seq<int>, ids: seq<int>)
    requires forall x :: x in ids ==> x !in a
    ensures RemoveAll(a + t, ids) == a + RemoveAll(t, ids)
    decreases |ids|
  {
    if ids != [] {
      var init := ids[..|ids| - 1];
      assert forall x :: x in init ==> x in ids;
      RemoveAllAppend(a, t, init);
      assert ids[|ids| - 1] in ids;
      RemoveFirstAppend(a, RemoveAll(t, init), ids[|ids| - 1]);
    }
  }

  /** Removing what was just added, from a list that had none of it, gives
      the list back. */
  lemma AddThenRemove(active: seq<int>, ids: seq<int>)
    requires Distinct(active) && forall x :: x in ids ==> x !in active
    ensures RemoveAll(AppendNew(active, ids), ids) == active
  {
    var b := AppendNew(active, ids);
    AppendNewDistinct(active, ids);
    AppendNewPrefix(active, ids);
    var t := b[|active|..];
    assert b == active + t;
    assert Distinct(t) by {
      forall i, j | 0 <= i < j < |t| ensures t[i] != t[j] {
        assert t[i] == b[|active| + i] && t[j] == b[|active| + j];
      }
    }
    RemoveAllAppend(active, t, ids);
    RemoveAllMultiset(t, ids);
    forall x ensures multiset(RemoveAll(t, ids))[x] == 0 {
      DistinctCount(t, x);
      if x in t {
        AppendNewMembers(active, ids, x);
        var i :| 0 <= i < |t| && t[i] == x;
        assert b[|active| + i] == x;
        assert x !in active;
        assert x in multiset(ids);
      }
    }
    assert multiset(RemoveAll(t, ids)) == multiset{};
  }

  // -------------------------------------------------------- onObjectSelected

  /** The value an `objectSelected` signal may carry. */
  datatype PyValue = PyNone | PyBool(b: bool) | PyInt(i: int) | PyFloat(f: real)
                   | PyStr(s: string) | PyList(items: seq<PyValue>)

  /** Python `int(v)`; `None` stands for the TypeError or ValueError it
      raises. */
  function IntOf(v: PyValue): Option<int> {
    match v
    case PyNone => None
    case PyBool(b) => Some(if b then 1 else 0)
    case PyInt(i) => Some(i)
    case PyFloat(f) => Some(TimeManaging.Fix(f))
    case PyStr(s) => PyText.ParseInt(s)
    case PyList(_) => None
  }

  /** The selection `onObjectSelected(v)` makes: `None` and the empty list
      clear it, a list stands for its first element, and a value `int()`
      cannot convert clears it. */
  function Selection(v: PyValue): Option<int> {
    match v
    case PyNone => None
    case PyList(items) => if items == [] then None else IntOf(items[0])
    case _ => IntOf(v)
  }

  /** An id, its text and a list starting with either all select that id. */
  lemma SelectionOfId(n: int, rest: seq<PyValue>)
    ensures Selection(PyInt(n)) == Some(n)
    ensures Selection(PyStr(PyText.IntToStr(n))) == Some(n)
    ensures Selection(PyList([PyInt(n)] + rest)) == Some(n)
    ensures Selection(PyList([PyStr(PyText.IntToStr(n))] + rest)) == Some(n)
  {
    PyText.ParseIntIntToStr(n);
    assert IntOf(PyStr(PyText.IntToStr(n))) == Some(n);
    assert ([PyInt(n)] + rest)[0] == PyInt(n);
    assert ([PyStr(PyText.IntToStr(n))] + rest)[0] == PyStr(PyText.IntToStr(n));
  }

  /** What clears the selection: nothing, an empty list, and a list whose
      first element is itself a list or `None`. */
  lemma SelectionCleared(rest: seq<PyValue>, inner: seq<PyValue>)
    ensures Selection(PyNone) == None
    ensures Selection(PyList([])) == None
    ensures Selection(PyList([PyList(inner)] + rest)) == None
    ensures Selection(PyList([PyNone] + rest)) == None
  {
    assert ([PyList(inner)] + rest)[0] == PyList(inner);
    assert ([PyNone] + rest)[0] == PyNone;
  }

  /** Text that does not start with a digit or a sign, such as a satellite
      name, clears the selection. */
  lemma SelectionOfName(name: string)
    requires PyText.NoSpace(name)
    requires name == [] || (!PyText.IsDigit(name[0]) && name[0] != '-' && name[0] != '+')
    ensures Selection(PyStr(name)) == None
  {
    PyText.StripNoSpace(name);
    assert PyText.ParseInt(name) == None by {
      var t := PyText.Strip(name);
      assert t == name;
      if t != [] {
        assert !PyText.IsDigit(t[0]);
        assert !PyText.IsDigits(t);
      }
    }
    assert IntOf(PyStr(name)) == None;
  }

  /** A float selects its value truncated toward zero; a boolean selects 0
      or 1. */
  lemma SelectionOfNumber(f: real, b: bool)
    ensures Selection(PyFloat(f)).Some?
    ensures var n := Selection(PyFloat(f)).value; -1.0 < f - n as real < 1.0 && (n >= 0 <==> f > -1.0)
    ensures Selection(PyBool(b)) == Some(if b then 1 else 0)
  {
  }

  // --------------------------------------------- reset / set as default

  /** `_resetObject2dMapConfig`: with a selection, its 2D entry becomes a
      copy of the default configuration. */
  function ResetEntry(m: Map2dSettings, selected: Option<int>): Map2dSettings {
    if selected.None? then m
    else m.(objects := m.objects[PyText.IntToStr(selected.value) := m.defaultConfig])
  }

  /** `_setObject2dMapConfigAsDefault`: with a selection, its 2D entry
      becomes the default configuration; KeyError if it has none. */
  function AsDefault(m: Map2dSettings, selected: Option<int>): Result<Map2dSettings> {
    if selected.None? then Ok(m)
    else if PyText.IntToStr(selected.value) !in m.objects then Err("KeyError")
    else Ok(m.(defaultConfig := m.objects[PyText.IntToStr(selected.value)]))
  }

  /** Reset touches the selected entry only, and gives it the default. */
  lemma ResetOnlySelected(m: Map2dSettings, selected: Option<int>)
    ensures selected.None? ==> ResetEntry(m, selected) == m
    ensures selected.Some? ==> ResetEntry(m, selected).objects[PyText.IntToStr(selected.value)] == m.defaultConfig
    ensures ResetEntry(m, selected).objects.Keys
            == m.objects.Keys + (if selected.Some? then {PyText.IntToStr(selected.value)} else {})
    ensures forall k :: k in m.objects && (selected.None? || k != PyText.IntToStr(selected.value))
              ==> ResetEntry(m, selected).objects[k] == m.objects[k]
    ensures ResetEntry(m, selected).defaultConfig == m.defaultConfig
  {
  }

  /** Resetting twice is resetting once, and setting the default right
      after a reset changes nothing. */
  lemma ResetThenAsDefault(m: Map2dSettings, selected: Option<int>)
    ensures ResetEntry(ResetEntry(m, selected), selected) == ResetEntry(m, selected)
    ensures AsDefault(ResetEntry(m, selected), selected) == Ok(ResetEntry(m, selected))
  {
  }

  /** Making an entry the default and then resetting it leaves every entry
      as it was. */
  lemma AsDefaultThenReset(m: Map2dSettings, selected: Option<int>)
    requires AsDefault(m, selected).Ok?
    ensures ResetEntry(AsDefault(m, selected).value, selected).objects == m.objects
  {
  }

  /** A selected id that is configured can be made the default. */
  lemma AsDefaultConfigured(s: Settings, selected: Option<int>)
    requires selected.Some? ==> Configured([selected.value], s)
    ensures AsDefault(s.map2d, selected).Ok?
  {
    if selected.Some? {
      assert selected.value in [selected.value];
    }
  }

  // -------------------------------------------------------------- window

  /** The state `MainWindow` keeps about tracked objects. */
  class MainWindow {
    var settings: Settings
    var activeObjects: seq<int>
    var selectedObject: Option<int>

    /** The active list is mirrored in 'VISUALIZATION' / 'ACTIVE_OBJECTS'. */
    ghost predicate Valid()
      reads this
    {
      settings.visualization.Some? && settings.visualization.value.activeObjects == activeObjects
    }

    constructor Init(s: Settings, active: seq<int>)
      ensures settings == s && activeObjects == active && selectedObject == None
    {
      settings := s;
      activeObjects := active;
      selectedObject := None;
    }

    /** Building the window from loaded settings: the active list is read
        from 'VISUALIZATION' and nothing is selected; KeyError when the
        settings lack what the window reads. */
    static method Open(s: Settings) returns (r: Result<MainWindow>)
      ensures r.Ok? <==> StartupActiveObjects(s).Ok?
      ensures r.Err? ==> r.error == "KeyError"
      ensures r.Ok? ==> fresh(r.value) && r.value.Valid() && r.value.settings == s
                        && r.value.activeObjects == StartupActiveObjects(s).value
                        && r.value.selectedObject == None
    {
      var startup := StartupActiveObjects(s);
      if startup.Err? {
        return Err(startup.error);
      }
      var w := new MainWindow.Init(s, startup.value);
      return Ok(w);
    }

    /** `addObjects(noradIndices)`. */
    method AddObjects(noradIndices: seq<int>)
      requires Valid()
      modifies this
      ensures Valid()
      ensures activeObjects == AppendNew(old(activeObjects), noradIndices)
      ensures settings == Added(old(settings), old(activeObjects), noradIndices)
      ensures selectedObject == old(selectedObject)
    {
      ghost var s0 := settings;
      ghost var a0 := activeObjects;
      var i := 0;
      while i < |noradIndices|
        invariant 0 <= i <= |noradIndices|
        invariant activeObjects == AppendNew(a0, noradIndices[..i])
        invariant settings == WithObjects(s0, settings.map2d.objects, settings.view3d.objects)
        invariant settings.map2d.objects == EnsureConfigs(s0.map2d.objects, NewKeys(a0, noradIndices[..i]), s0.map2d.defaultConfig)
        invariant settings.view3d.objects == EnsureConfigs(s0.view3d.objects, NewKeys(a0, noradIndices[..i]), s0.view3d.defaultConfig)
        invariant selectedObject == old(selectedObject)
      {
        var noradIndex := noradIndices[i];
        AppendNewStep(a0, noradIndices, i);
        NewKeysStep(a0, noradIndices, i);
        if noradIndex in activeObjects {
          i := i + 1;
          continue;
        }
        activeObjects := activeObjects + [noradIndex];
        var key := PyText.IntToStr(noradIndex);
        EnsureConfigsStep(s0.map2d.objects, NewKeys(a0, noradIndices[..i]), key, s0.map2d.defaultConfig);
        EnsureConfigsStep(s0.view3d.objects, NewKeys(a0, noradIndices[..i]), key, s0.view3d.defaultConfig);
        if key !in settings.map2d.objects {
          settings := WithObjects(settings, settings.map2d.objects[key := settings.map2d.defaultConfig], settings.view3d.objects);
        }
        if key !in settings.view3d.objects {
          settings := WithObjects(settings, settings.map2d.objects, settings.view3d.objects[key := settings.view3d.defaultConfig]);
        }
        i := i + 1;
      }
      assert noradIndices[..i] == noradIndices;
      settings := settings.(visualization := Some(settings.visualization.value.(activeObjects := activeObjects)));
    }

    /** `removeSelectedObjects(noradIndices)`. */
    method RemoveSelectedObjects(noradIndices: seq<int>)
      requires Valid()
      modifies this
      ensures Valid()
      ensures activeObjects == RemoveAll(old(activeObjects), noradIndices)
      ensures selectedObject == ClearedSelection(old(selectedObject), noradIndices)
      ensures settings == old(settings).(visualization := Some(old(settings).visualization.value.(activeObjects := activeObjects)))
    {
      var i := 0;
      while i < |noradIndices|
        invariant 0 <= i <= |noradIndices|
        invariant activeObjects == RemoveAll(old(activeObjects), noradIndices[..i])
        invariant selectedObject == ClearedSelection(old(selectedObject), noradIndices[..i])
        invariant settings == old(settings)
      {
        var noradIndex := noradIndices[i];
        assert noradIndices[..i + 1][..i] == noradIndices[..i];
        assert noradIndices[..i + 1] == noradIndices[..i] + [noradIndex];
        RemoveFirstMultiset(activeObjects, noradIndex);
        if noradIndex in activeObjects {
          activeObjects := RemoveFirst(activeObjects, noradIndex);
        }
        if selectedObject == Some(noradIndex) {
          selectedObject := None;
        }
        i := i + 1;
      }
      assert noradIndices[..i] == noradIndices;
      settings := settings.(visualization := Some(settings.visualization.value.(activeObjects := activeObjects)));
    }

    /** `onObjectSelected(noradIndex)`, up to the database lookup. */
    method OnObjectSelected(noradIndex: PyValue)
      modifies this
      ensures selectedObject == Selection(noradIndex)
      ensures settings == old(settings) && activeObjects == old(activeObjects)
    {
      var v := noradIndex;
      if v.PyNone? {
        v := PyList([]);
      }
      if v.PyList? {
        if |v.items| == 0 {
          selectedObject := None;
          return;
        }
        v := v.items[0];
      }
      selectedObject := IntOf(v);
    }

    /** `_resetObject2dMapConfig()`. */
    method ResetObject2dMapConfig()
      modifies this
      ensures settings == old(settings).(map2d := ResetEntry(old(settings).map2d, selectedObject))
      ensures activeObjects == old(activeObjects) && selectedObject == old(selectedObject)
    {
      if selectedObject == None {
        return;
      }
      var key := PyText.IntToStr(selectedObject.value);
      settings := settings.(map2d := settings.map2d.(objects := settings.map2d.objects[key := settings.map2d.defaultConfig]));
    }

    /** `_setObject2dMapConfigAsDefault()`. */
    method SetObject2dMapConfigAsDefault() returns (r: Result<()>)
      modifies this
      ensures r.Ok? <==> AsDefault(old(settings).map2d, selectedObject).Ok?
      ensures r.Err? ==> r.error == "KeyError" && settings == old(settings)
      ensures r.Ok? ==> settings == old(settings).(map2d := AsDefault(old(settings).map2d, selectedObject).value)
      ensures activeObjects == old(activeObjects) && selectedObject == old(selectedObject)
    {
      if selectedObject == None {
        return Ok(());
      }
      var key := PyText.IntToStr(selectedObject.value);
      if key !in settings.map2d.objects {
        return Err("KeyError");
      }
      settings := settings.(map2d := settings.map2d.(defaultConfig := settings.map2d.objects[key]));
      return Ok(());
    }
  }
}
