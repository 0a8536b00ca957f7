/** The settings file's contents and the per-object display defaults
    (src/gui/utilities.py). The JSON dictionaries become typed records; a
    key the literal leaves out is an `Option` that is `None`. */
module Utilities {
  import opened Wrappers
  import PyDict
  import Map2d

  /** An RGB or RGBA tuple. */
  type Color = seq<real>

  datatype SpotStyle = SpotStyle(size: int, color: Color)

  /** A drawn layer: its render mode ("ALWAYS", "WHEN_SELECTED" or "NEVER"),
      its line width and its colour. */
  datatype LineStyle = LineStyle(mode: string, width: int, color: Color)

  /** One object's entry under '2D_MAP' / 'OBJECTS'. */
  datatype MapObjectConfig = MapObjectConfig(spot: SpotStyle, groundTrack: LineStyle, footprint: LineStyle)

  /** One object's entry under '3D_VIEW' / 'OBJECTS'. */
  datatype ViewObjectConfig = ViewObjectConfig(spot: SpotStyle, orbit: LineStyle)

  /** `giveDefaultObject2DMapConfig()`. */
  function DefaultObject2DMapConfig(): MapObjectConfig {
    MapObjectConfig(
      SpotStyle(10, [255.0, 85.0, 0.0]),
      LineStyle("WHEN_SELECTED", 1, [255.0, 85.0, 0.0]),
      LineStyle("NEVER", 1, [0.0, 180.0, 255.0]))
  }

  /** `giveDefaultObject3DViewConfig()`. */
  function DefaultObject3DViewConfig(): ViewObjectConfig {
    ViewObjectConfig(
      SpotStyle(10, [1.0, 0.33, 0.0, 1.0]),
      LineStyle("WHEN_SELECTED", 2, [1.0, 0.33, 0.0, 1.0]))
  }

  /** What the default configurations draw: a new object's ground track and
      orbit appear exactly while it is selected and the layer is switched
      on, its footprint never, and its spot has the same size in both
      views. */
  lemma DefaultConfigsRender(isSelected: bool, isToggled: bool)
    ensures Map2d.ShouldRender(DefaultObject2DMapConfig().groundTrack.mode, isSelected, isToggled)
            <==> isSelected && isToggled
    ensures !Map2d.ShouldRender(DefaultObject2DMapConfig().footprint.mode, isSelected, isToggled)
    ensures Map2d.ShouldRender(DefaultObject3DViewConfig().orbit.mode, isSelected, isToggled)
            <==> isSelected && isToggled
    ensures DefaultObject2DMapConfig().spot.size == DefaultObject3DViewConfig().spot.size == 10
    ensures DefaultObject2DMapConfig().groundTrack.width == DefaultObject2DMapConfig().footprint.width == 1
    ensures DefaultObject3DViewConfig().orbit.width == 2
  {
  }

  /** Every mode a default configuration uses is one of the three the
      configuration docks offer, so their label lookup finds it. */
  lemma DefaultModesListed()
    ensures PyDict.KeyOf(Map2d.Modes, DefaultObject2DMapConfig().groundTrack.mode) == Some("When Selected")
    ensures PyDict.KeyOf(Map2d.Modes, DefaultObject2DMapConfig().footprint.mode) == Some("Never")
    ensures PyDict.KeyOf(Map2d.Modes, DefaultObject3DViewConfig().orbit.mode) == Some("When Selected")
  {
    assert Map2d.Modes[0].1 != "WHEN_SELECTED";
    assert Map2d.Modes[1].1 == "WHEN_SELECTED";
    assert Map2d.Modes[0].1 != "NEVER" && Map2d.Modes[1].1 != "NEVER";
    assert Map2d.Modes[2].1 == "NEVER";
  }

  // ------------------------------------------------------------- settings

  datatype WindowSettings = WindowSettings(maximized: bool, x: int, y: int, width: int, height: int)

  /** The 'DATA' section (its interval key is spelt 'UPDATE_INTERNAL_DAYS'). */
  datatype DataSettings = DataSettings(updateInternalDays: int, autoDownload: bool)

  /** The 'VISUALIZATION' section the main window reads and writes. */
  datatype Visualization = Visualization(activeObjects: seq<int>, currentTab: string)

  /** The '2D_MAP' section; per-object entries are keyed by `str(noradId)`. */
  datatype Map2dSettings = Map2dSettings(
    defaultConfig: MapObjectConfig,
    objects: map<string, MapObjectConfig>,
    showSun: bool, showNight: bool, showFootprint: bool, showGroundTrack: bool, showVernal: bool)

  /** The '3D_VIEW' section. The axes toggles are optional because the
      literal writes 'SHOW_ECI_AXES' and 'SHOW_ECEF_AXES' while the window
      reads 'SHOW_AXES'. */
  datatype View3dSettings = View3dSettings(
    defaultConfig: ViewObjectConfig,
    objects: map<string, ViewObjectConfig>,
    showOrbits: bool, showEarth: bool,
    showAxes: Option<bool>, showEciAxes: Option<bool>, showEcefAxes: Option<bool>,
    showEarthGrid: bool)

  /** The whole settings dictionary. 'ACTIVE_OBJECTS' and 'CURRENT_TAB' may
      sit at the top level, inside 'VISUALIZATION', or both. */
  datatype Settings = Settings(
    window: WindowSettings,
    data: DataSettings,
    activeObjects: Option<seq<int>>,
    currentTab: Option<string>,
    visualization: Option<Visualization>,
    map2d: Map2dSettings,
    view3d: View3dSettings)

  /** The dictionary `generateDefaultSettingsJson` writes, as written. */
  function DefaultSettings(): Settings {
    Settings(
      WindowSettings(false, 300, 300, 1200, 600),
      DataSettings(2, true),
      Some([25544]), Some("3D_VIEW"),
      None,
      Map2dSettings(DefaultObject2DMapConfig(), map["25544" := DefaultObject2DMapConfig()],
                    true, true, true, true, false),
      View3dSettings(DefaultObject3DViewConfig(), map["25544" := DefaultObject3DViewConfig()],
                     true, true, None, Some(false), Some(false), false))
  }

  /** The defaults the main window can open: the tracked list and the tab
      inside 'VISUALIZATION', and a single 'SHOW_AXES' toggle. */
  function CorrectedDefaultSettings(): Settings {
    var s := DefaultSettings();
    s.(activeObjects := None, currentTab := None,
       visualization := Some(Visualization([25544], "3D_VIEW")),
       view3d := s.view3d.(showAxes := Some(false), showEciAxes := None, showEcefAxes := None))
  }

  /** The written defaults track the ISS (NORAD 25544) alone, at the top
      level and without a 'VISUALIZATION' section; its per-object entries
      are the default configurations, and so are the defaults themselves. */
  lemma DefaultSettingsTrackIss()
    ensures DefaultSettings().activeObjects == Some([25544])
    ensures DefaultSettings().currentTab == Some("3D_VIEW")
    ensures DefaultSettings().visualization.None?
    ensures DefaultSettings().view3d.showAxes.None?
    ensures DefaultSettings().map2d.objects.Keys == DefaultSettings().view3d.objects.Keys == {"25544"}
    ensures DefaultSettings().map2d.objects["25544"] == DefaultSettings().map2d.defaultConfig
    ensures DefaultSettings().view3d.objects["25544"] == DefaultSettings().view3d.defaultConfig
  {
  }

  /** The corrected defaults keep everything else of the written ones. */
  lemma CorrectedDefaultsKeepRest()
    ensures CorrectedDefaultSettings().window == DefaultSettings().window
    ensures CorrectedDefaultSettings().data == DefaultSettings().data
    ensures CorrectedDefaultSettings().map2d == DefaultSettings().map2d
    ensures CorrectedDefaultSettings().view3d.objects == DefaultSettings().view3d.objects
    ensures CorrectedDefaultSettings().view3d.defaultConfig == DefaultSettings().view3d.defaultConfig
    ensures CorrectedDefaultSettings().visualization == Some(Visualization(DefaultSettings().activeObjects.value, DefaultSettings().currentTab.value))
  {
  }

  // ------------------------------------------------------ getKeyFromValue

  /** `getKeyFromValue(dictionary, target)`: scans the items in order and
      returns the first key whose value equals `target`; KeyError when no
      value does. */
  method GetKeyFromValue<K, V(==)>(dictionary: seq<(K, V)>, target: V) returns (r: Result<K>)
    ensures r.Ok? <==> exists i :: 0 <= i < |dictionary| && dictionary[i].1 == target
    ensures r.Ok? ==> PyDict.KeyOf(dictionary, target) == Some(r.value)
    ensures r.Err? ==> r.error == "KeyError"
  {
    var i := 0;
    while i < |dictionary|
      invariant 0 <= i <= |dictionary|
      invariant PyDict.KeyOf(dictionary[i..], target) == PyDict.KeyOf(dictionary, target)
    {
      var (key, value) := dictionary[i];
      if value == target {
        return Ok(key);
      }
      assert dictionary[i..][1..] == dictionary[i + 1..];
      i := i + 1;
    }
    return Err("KeyError");
  }
}
