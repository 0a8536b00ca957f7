/** The camera and the per-object data of the 3D globe view
    (src/gui/earth3D.py, `View3dWidget`). Mouse and wheel events become
    explicit calls carrying the event's coordinates and wheel delta; the
    OpenGL drawing is left out, and the object that picking finds under the
    cursor is a parameter. */
module Earth3d {
  import opened Wrappers
  import PyText

  /** Kilometres. */
  const EarthRadius: real := 6371.0
  const EarthMoonDistance: real := 384400.0

  /** The zoom range: just outside the globe, out to the Moon's distance
      (both in Earth radii, with the same 1.15 margin). */
  const MinZoom: real := 1.15
  const MaxZoom: real := EarthMoonDistance / EarthRadius * 1.15

  /** The camera may tilt at most this many degrees above or below the
      equator. */
  const MaxTilt: real := 89.0

  /** Python's `max(lo, min(hi, x))`. */
  function Clamp(lo: real, hi: real, x: real): (r: real)
    ensures lo <= hi ==> lo <= r <= hi
    ensures lo <= x <= hi ==> r == x
    ensures x < lo ==> r == lo
    ensures lo <= hi < x ==> r == hi
  {
    var m := if hi <= x then hi else x;
    if lo >= m then lo else m
  }

  /** The camera fields: distance, tilt and turn in degrees, and the last
      cursor position of a drag. */
  datatype Camera = Camera(zoom: real, rotX: real, rotY: real, lastPosX: int, lastPosY: int)

  /** The camera as `__init__` sets it up. */
  const InitialCamera: Camera := Camera(5.0, 45.0, 225.0, 0, 0)

  /** The bounds that the wheel and drag handlers enforce. */
  predicate InBounds(c: Camera) {
    MinZoom <= c.zoom <= MaxZoom && -MaxTilt <= c.rotX <= MaxTilt
  }

  /** `mousePressEvent` with the left button: the drag starts at (x, y). */
  function Pressed(c: Camera, x: int, y: int): (r: Camera)
    ensures r.zoom == c.zoom && r.rotX == c.rotX && r.rotY == c.rotY
    ensures (r.lastPosX, r.lastPosY) == (x, y)
  {
    c.(lastPosX := x, lastPosY := y)
  }

  /** `mouseMoveEvent` with the left button held: the camera turns half a
      degree per pixel of horizontal motion and tilts half a degree per
      pixel of vertical motion, the tilt clamped to +-89 degrees. */
  function Dragged(c: Camera, x: int, y: int): (r: Camera)
    ensures -MaxTilt <= r.rotX <= MaxTilt
    ensures r.rotY - c.rotY == 0.5 * (x - c.lastPosX) as real
    ensures -MaxTilt <= c.rotX + 0.5 * (y - c.lastPosY) as real <= MaxTilt ==>
      r.rotX - c.rotX == 0.5 * (y - c.lastPosY) as real
    ensures r.zoom == c.zoom && (r.lastPosX, r.lastPosY) == (x, y)
  {
    var dx := x - c.lastPosX;
    var dy := y - c.lastPosY;
    Camera(c.zoom, Clamp(-MaxTilt, MaxTilt, c.rotX + dy as real * 0.5), c.rotY + dx as real * 0.5, x, y)
  }

  /** The factor one wheel event applies: in (0.9) when the wheel turns
      forward, out (1.1) otherwise, a zero delta included. */
  function ZoomFactor(angleDeltaY: int): (f: real)
    ensures angleDeltaY > 0 ==> f < 1.0
    ensures angleDeltaY <= 0 ==> f > 1.0
  {
    if angleDeltaY as real / 120.0 > 0.0 then 0.9 else 1.1
  }

  /** `wheelEvent`: the zoom scaled by `ZoomFactor`, then clamped to
      [MinZoom, MaxZoom]; nothing else changes. */
  function Wheeled(c: Camera, angleDeltaY: int): (r: Camera)
    ensures MinZoom <= r.zoom <= MaxZoom
    ensures r.rotX == c.rotX && r.rotY == c.rotY && r.lastPosX == c.lastPosX && r.lastPosY == c.lastPosY
  {
    c.(zoom := Clamp(MinZoom, MaxZoom, c.zoom * ZoomFactor(angleDeltaY)))
  }

  /** The initial camera lies within the bounds, so the handlers keep them
      for ever. */
  lemma InitialInBounds()
    ensures InBounds(InitialCamera)
    ensures MinZoom < MaxZoom
  {
  }

  /** Each handler keeps the camera within its bounds. */
  lemma HandlersKeepBounds(c: Camera, x: int, y: int, angleDeltaY: int)
    requires InBounds(c)
    ensures InBounds(Pressed(c, x, y))
    ensures InBounds(Dragged(c, x, y))
    ensures InBounds(Wheeled(c, angleDeltaY))
  {
  }

  /** Within the bounds, a forward wheel step never zooms out and a
      backward one never zooms in; at the ends of the range the zoom
      stays put. */
  lemma WheelDirection(c: Camera, angleDeltaY: int)
    requires InBounds(c)
    ensures angleDeltaY > 0 ==> Wheeled(c, angleDeltaY).zoom <= c.zoom
    ensures angleDeltaY <= 0 ==> Wheeled(c, angleDeltaY).zoom >= c.zoom
    ensures angleDeltaY > 0 && c.zoom == MinZoom ==> Wheeled(c, angleDeltaY).zoom == MinZoom
    ensures angleDeltaY <= 0 && c.zoom == MaxZoom ==> Wheeled(c, angleDeltaY).zoom == MaxZoom
  {
    var z := c.zoom * ZoomFactor(angleDeltaY);
    if angleDeltaY > 0 {
      assert z <= c.zoom;
    } else {
      assert z >= c.zoom;
    }
  }

  /** A move to where the cursor already is changes nothing. */
  lemma DragInPlace(c: Camera, x: int, y: int)
    ensures Dragged(Dragged(c, x, y), x, y) == Dragged(c, x, y)
  {
  }

  /** Two drags add up to one drag straight to the end point, unless the
      tilt was clamped on the way: the turn always composes, the tilt
      whenever the intermediate tilt stayed within the bounds. */
  lemma DragsCompose(c: Camera, x1: int, y1: int, x2: int, y2: int)
    requires -MaxTilt <= c.rotX + 0.5 * (y1 - c.lastPosY) as real <= MaxTilt
    ensures Dragged(Dragged(c, x1, y1), x2, y2) == Dragged(c, x2, y2)
  {
    var d := Dragged(c, x1, y1);
    assert d.rotX == c.rotX + 0.5 * (y1 - c.lastPosY) as real;
    assert d.rotX + 0.5 * (y2 - y1) as real == c.rotX + 0.5 * (y2 - c.lastPosY) as real;
    assert d.rotY + 0.5 * (x2 - x1) as real == c.rotY + 0.5 * (x2 - c.lastPosX) as real;
  }

  /** A position vector. */
  type Vec = (real, real, real)

  /** What the orbit engine hands the view for one object. */
  datatype ObjectView = ObjectView(position: Vec, orbitPath: seq<Vec>, name: string)

  /** The dictionary keys of the visible ids, `{str(id) | id in visible}`. */
  function KeySet(visible: set<int>): set<string> {
    set id | id in visible :: PyText.IntToStr(id)
  }

  /** `{str(id): values[id] for id in visible}`. */
  function Keyed<V>(visible: set<int>, values: map<int, V>): (m: map<string, V>)
    requires visible <= values.Keys
    ensures m.Keys == KeySet(visible)
    ensures forall id :: id in visible ==> m[PyText.IntToStr(id)] == values[id]
  {
    forall a, b | PyText.IntToStr(a) == PyText.IntToStr(b)
      ensures a == b
    {
      PyText.IntToStrInjective(a, b);
    }
    map id | id in visible :: PyText.IntToStr(id) := values[id]
  }

  /** Reading a key of a `Keyed` dictionary back with `int()` recovers
      the visible id it was made from, and its entry is that id's value. */
  lemma KeyedLookup<V>(visible: set<int>, values: map<int, V>, k: string)
    requires visible <= values.Keys
    requires k in Keyed(visible, values)
    ensures PyText.ParseInt(k).Some? && PyText.ParseInt(k).value in visible
    ensures Keyed(visible, values)[k] == values[PyText.ParseInt(k).value]
  {
    var id :| id in visible && PyText.IntToStr(id) == k;
    PyText.ParseIntIntToStr(id);
  }

  /** The camera and object state of `View3dWidget`. */
  class View3d {
    var zoom: real
    var rotX: real
    var rotY: real
    var lastPosX: int
    var lastPosY: int
    var selectedObject: Option<int>
    var visibleNorads: set<int>
    var objectSpotData: map<string, Vec>
    var objectOrbitData: map<string, seq<Vec>>
    var objectNameData: map<string, string>

    function CameraState(): Camera
      reads this
    {
      Camera(zoom, rotX, rotY, lastPosX, lastPosY)
    }

    function Data(): (Option<int>, set<int>, map<string, Vec>, map<string, seq<Vec>>, map<string, string>)
      reads this
    {
      (selectedObject, visibleNorads, objectSpotData, objectOrbitData, objectNameData)
    }

    predicate Valid()
      reads this
    {
      InBounds(CameraState())
    }

    /** `__init__`: the initial camera, no selection and no object data. */
    constructor()
      ensures CameraState() == InitialCamera && Valid()
      ensures Data() == (None, {}, map[], map[], map[])
    {
      zoom, rotX, rotY := 5.0, 45.0, 225.0;
      lastPosX, lastPosY := 0, 0;
      selectedObject, visibleNorads := None, {};
      objectSpotData, objectOrbitData, objectNameData := map[], map[], map[];
      InitialInBounds();
    }

    /** `mousePressEvent`. A left-button press records the drag start,
        then looks up the spot of every visible id (KeyError when one is
        missing) to pick the nearest object drawn within 20 pixels of the
        cursor. The OpenGL projection that measures those distances is left
        out: `picked` is the object it finds, if any. A picked object
        becomes the selection and is emitted; otherwise the selection
        stays. Other buttons change nothing. */
    method MousePress(leftButton: bool, x: int, y: int, picked: Option<int>) returns (r: Result<()>, emitted: Option<int>)
      requires Valid()
      requires picked.Some? ==> picked.value in visibleNorads
      modifies this
      ensures CameraState() == if leftButton then Pressed(old(CameraState()), x, y) else old(CameraState())
      ensures r.Err? <==> leftButton && !(KeySet(visibleNorads) <= objectSpotData.Keys)
      ensures r.Err? ==> r.error == "KeyError"
      ensures emitted == if leftButton && r.Ok? then picked else None
      ensures selectedObject == if emitted.Some? then emitted else old(selectedObject)
      ensures (visibleNorads, objectSpotData, objectOrbitData, objectNameData)
              == old((visibleNorads, objectSpotData, objectOrbitData, objectNameData))
      ensures Valid()
    {
      r, emitted := Ok(()), None;
      if leftButton {
        lastPosX := x;
        lastPosY := y;
        if !(KeySet(visibleNorads) <= objectSpotData.Keys) {
          return Err("KeyError"), None;
        }
        if picked.Some? {
          selectedObject := picked;
          emitted := picked;
        }
      }
    }

    /** `mouseMoveEvent`: with the left button held, the drag branch;
        otherwise hover detection, which leaves the camera alone. */
    method MouseMove(leftButton: bool, x: int, y: int)
      requires Valid()
      modifies this
      ensures CameraState() == if leftButton then Dragged(old(CameraState()), x, y) else old(CameraState())
      ensures Data() == old(Data()) && Valid()
    {
      if leftButton {
        var dx, dy := x - lastPosX, y - lastPosY;
        rotY := rotY + dx as real * 0.5;
        rotX := rotX + dy as real * 0.5;
        rotX := Clamp(-MaxTilt, MaxTilt, rotX);
        lastPosX, lastPosY := x, y;
      }
    }

    /** `wheelEvent`. */
    method Wheel(angleDeltaY: int)
      requires Valid()
      modifies this
      ensures CameraState() == Wheeled(old(CameraState()), angleDeltaY)
      ensures Data() == old(Data()) && Valid()
    {
      var delta := angleDeltaY as real / 120.0;
      zoom := zoom * (if delta > 0.0 then 0.9 else 1.1);
      zoom := Clamp(MinZoom, MaxZoom, zoom);
    }

    /** `updateData`: records the selection and the visible ids, then
        rebuilds the three per-object dictionaries keyed by `str(id)`. An
        id missing from `objects` raises KeyError in the first dictionary
        comprehension, after the selection and the visible ids were
        recorded and before any dictionary was replaced. */
    method UpdateData(objects: map<int, ObjectView>, visible: set<int>, selected: Option<int>) returns (r: Result<()>)
      modifies this
      ensures selectedObject == selected && visibleNorads == visible
      ensures CameraState() == old(CameraState())
      ensures r.Ok? <==> visible <= objects.Keys
      ensures r.Err? ==> r.error == "KeyError"
      ensures r.Err? ==> (objectSpotData, objectOrbitData, objectNameData) == old((objectSpotData, objectOrbitData, objectNameData))
      ensures r.Ok? ==> objectSpotData.Keys == objectOrbitData.Keys == objectNameData.Keys == KeySet(visible)
      ensures r.Ok? ==> forall id :: id in visible ==>
        objectSpotData[PyText.IntToStr(id)] == objects[id].position &&
        objectOrbitData[PyText.IntToStr(id)] == objects[id].orbitPath &&
        objectNameData[PyText.IntToStr(id)] == objects[id].name
    {
      selectedObject, visibleNorads := selected, visible;
      if !(visible <= objects.Keys) {
        return Err("KeyError");
      }
      objectSpotData := Keyed(visible, map id | id in objects :: objects[id].position);
      objectOrbitData := Keyed(visible, map id | id in objects :: objects[id].orbitPath);
      objectNameData := Keyed(visible, map id | id in objects :: objects[id].name);
      r := Ok(());
    }
  }
}
