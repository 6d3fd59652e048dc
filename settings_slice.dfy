/** The `settings` store slice: visualization, camera, performance and
    interface preferences. The partial-update reducers spread a payload of
    some fields over a group; a patch here holds `Some` for each field the
    payload carries. */
module SettingsSlice {
  import opened Wrappers
  import opened Numbers

  datatype Theme = Dark | Light
  datatype ColorScheme = DefaultScheme | Colorblind | Monochrome
  datatype Detail = Low | Medium | High
  datatype PanelSide = Left | Right
  datatype ViewMode = TwoD | ThreeD

  datatype Vector3 = Vector3(x: real, y: real, z: real)

  datatype VisualizationSettings = VisualizationSettings(
    autoRotate: bool,
    rotationSpeed: real,
    showGrid: bool,
    showAxes: bool,
    showPressureZones: bool,
    showVolumeProfile: bool,
    theme: Theme,
    colorScheme: ColorScheme,
    transparency: real,
    levelOfDetail: Detail)

  /** `Partial<VisualizationSettings>`. */
  datatype VisualizationPatch = VisualizationPatch(
    autoRotate: Option<bool>,
    rotationSpeed: Option<real>,
    showGrid: Option<bool>,
    showAxes: Option<bool>,
    showPressureZones: Option<bool>,
    showVolumeProfile: Option<bool>,
    theme: Option<Theme>,
    colorScheme: Option<ColorScheme>,
    transparency: Option<real>,
    levelOfDetail: Option<Detail>)
  {
    /** `{ ...s, ...this }`. */
    function Apply(s: VisualizationSettings): VisualizationSettings {
      VisualizationSettings(
        autoRotate.GetOr(s.autoRotate), rotationSpeed.GetOr(s.rotationSpeed),
        showGrid.GetOr(s.showGrid), showAxes.GetOr(s.showAxes),
        showPressureZones.GetOr(s.showPressureZones), showVolumeProfile.GetOr(s.showVolumeProfile),
        theme.GetOr(s.theme), colorScheme.GetOr(s.colorScheme),
        transparency.GetOr(s.transparency), levelOfDetail.GetOr(s.levelOfDetail))
    }

    /** `{ ...this, ...q }`: the fields of `q` win. */
    function Then(q: VisualizationPatch): VisualizationPatch {
      VisualizationPatch(
        Or(q.autoRotate, autoRotate), Or(q.rotationSpeed, rotationSpeed),
        Or(q.showGrid, showGrid), Or(q.showAxes, showAxes),
        Or(q.showPressureZones, showPressureZones), Or(q.showVolumeProfile, showVolumeProfile),
        Or(q.theme, theme), Or(q.colorScheme, colorScheme),
        Or(q.transparency, transparency), Or(q.levelOfDetail, levelOfDetail))
    }
  }

  const NoVisualizationChange: VisualizationPatch :=
    VisualizationPatch(None, None, None, None, None, None, None, None, None, None)

  /** The first option if it holds a value, else the second. */
  function Or<T>(a: Option<T>, b: Option<T>): (r: Option<T>)
    ensures r.Some? <==> a.Some? || b.Some?
    ensures a.Some? ==> r == a
    ensures a.None? ==> r == b
  {
    if a.Some? then a else b
  }

  /** Spreading an empty payload changes nothing, spreading the same payload
      again changes nothing more, and two spreads in a row are one spread of
      the merged payload. */
  lemma VisualizationPatchLaws(s: VisualizationSettings, p: VisualizationPatch, q: VisualizationPatch)
    ensures NoVisualizationChange.Apply(s) == s
    ensures p.Apply(p.Apply(s)) == p.Apply(s)
    ensures q.Apply(p.Apply(s)) == p.Then(q).Apply(s)
  {
  }

  datatype CameraSettings = CameraSettings(
    position: Vector3,
    target: Vector3,
    fov: real,
    near: real,
    far: real,
    enableDamping: bool,
    dampingFactor: real,
    enableZoom: bool,
    enablePan: bool,
    enableRotate: bool,
    autoRotate: bool,
    autoRotateSpeed: real)

  /** `Partial<CameraSettings>`. */
  datatype CameraPatch = CameraPatch(
    position: Option<Vector3>,
    target: Option<Vector3>,
    fov: Option<real>,
    near: Option<real>,
    far: Option<real>,
    enableDamping: Option<bool>,
    dampingFactor: Option<real>,
    enableZoom: Option<bool>,
    enablePan: Option<bool>,
    enableRotate: Option<bool>,
    autoRotate: Option<bool>,
    autoRotateSpeed: Option<real>)
  {
    function Apply(s: CameraSettings): CameraSettings {
      CameraSettings(
        position.GetOr(s.position), target.GetOr(s.target), fov.GetOr(s.fov),
        near.GetOr(s.near), far.GetOr(s.far), enableDamping.GetOr(s.enableDamping),
        dampingFactor.GetOr(s.dampingFactor), enableZoom.GetOr(s.enableZoom),
        enablePan.GetOr(s.enablePan), enableRotate.GetOr(s.enableRotate),
        autoRotate.GetOr(s.autoRotate), autoRotateSpeed.GetOr(s.autoRotateSpeed))
    }
  }

  /** A camera payload touches exactly the fields it carries. */
  lemma CameraPatchLaws(s: CameraSettings, p: CameraPatch)
    ensures p.Apply(p.Apply(s)) == p.Apply(s)
    ensures p.autoRotate.None? ==> p.Apply(s).autoRotate == s.autoRotate
    ensures p.autoRotate.Some? ==> p.Apply(s).autoRotate == p.autoRotate.value
    ensures p == CameraPatch(None, None, None, None, None, None, None, None, None, None, None, None) ==>
              p.Apply(s) == s
  {
  }

  datatype PerformanceSettings = PerformanceSettings(
    targetFPS: real,
    enableLOD: bool,
    maxParticles: real,
    renderDistance: real)

  datatype PerformancePatch = PerformancePatch(
    targetFPS: Option<real>,
    enableLOD: Option<bool>,
    maxParticles: Option<real>,
    renderDistance: Option<real>)
  {
    function Apply(s: PerformanceSettings): PerformanceSettings {
      PerformanceSettings(targetFPS.GetOr(s.targetFPS), enableLOD.GetOr(s.enableLOD),
                          maxParticles.GetOr(s.maxParticles), renderDistance.GetOr(s.renderDistance))
    }
  }

  datatype UiSettings = UiSettings(
    showControlPanel: bool,
    showStats: bool,
    showTooltips: bool,
    panelPosition: PanelSide,
    viewMode: ViewMode)

  datatype UiPatch = UiPatch(
    showControlPanel: Option<bool>,
    showStats: Option<bool>,
    showTooltips: Option<bool>,
    panelPosition: Option<PanelSide>,
    viewMode: Option<ViewMode>)
  {
    function Apply(s: UiSettings): UiSettings {
      UiSettings(showControlPanel.GetOr(s.showControlPanel), showStats.GetOr(s.showStats),
                 showTooltips.GetOr(s.showTooltips), panelPosition.GetOr(s.panelPosition),
                 viewMode.GetOr(s.viewMode))
    }
  }

  /** "2d" becomes "3d" and anything else becomes "2d". */
  function OtherViewMode(m: ViewMode): (r: ViewMode)
    ensures r != m
  {
    if m == TwoD then ThreeD else TwoD
  }

  /** Switching the view mode twice restores it. */
  lemma OtherViewModeTwice(m: ViewMode)
    ensures OtherViewMode(OtherViewMode(m)) == m
  {
  }

  datatype SettingsState = SettingsState(
    visualization: VisualizationSettings,
    camera: CameraSettings,
    performance: PerformanceSettings,
    ui: UiSettings)

  const Initial: SettingsState := SettingsState(
    VisualizationSettings(true, 1.0, true, true, true, false, Dark, DefaultScheme, 0.8, Medium),
    CameraSettings(Vector3(10.0, 10.0, 10.0), Vector3(0.0, 0.0, 0.0), 75.0, 0.1, 1000.0,
                   true, 0.05, true, true, true, true, 2.0),
    PerformanceSettings(60.0, true, 10000.0, 100.0),
    UiSettings(true, false, true, Right, ThreeD))

  class SettingsStore {
    var visualization: VisualizationSettings
    var camera: CameraSettings
    var performance: PerformanceSettings
    var ui: UiSettings

    function State(): SettingsState
      reads this
    {
      SettingsState(visualization, camera, performance, ui)
    }

    constructor ()
      ensures State() == Initial
    {
      visualization, camera := Initial.visualization, Initial.camera;
      performance, ui := Initial.performance, Initial.ui;
    }

    method UpdateVisualizationSettings(p: VisualizationPatch)
      modifies this
      ensures State() == old(State()).(visualization := p.Apply(old(visualization)))
    {
      visualization := p.Apply(visualization);
    }

    method UpdateCameraSettings(p: CameraPatch)
      modifies this
      ensures State() == old(State()).(camera := p.Apply(old(camera)))
    {
      camera := p.Apply(camera);
    }

    method SetTheme(theme: Theme)
      modifies this
      ensures State() == old(State()).(visualization := old(visualization).(theme := theme))
    {
      visualization := visualization.(theme := theme);
    }

    /** Flips auto-rotation and copies the new value to the camera, so the
        two flags agree afterwards whatever they were before. */
    method ToggleAutoRotate()
      modifies this
      ensures visualization == old(visualization).(autoRotate := !old(visualization.autoRotate))
      ensures camera == old(camera).(autoRotate := visualization.autoRotate)
      ensures performance == old(performance) && ui == old(ui)
      ensures camera.autoRotate == visualization.autoRotate
    {
      visualization := visualization.(autoRotate := !visualization.autoRotate);
      camera := camera.(autoRotate := visualization.autoRotate);
    }

    /** One speed for both the visualization and the camera. */
    method SetRotationSpeed(speed: real)
      modifies this
      ensures State() == old(State()).(visualization := old(visualization).(rotationSpeed := speed),
                                       camera := old(camera).(autoRotateSpeed := speed))
    {
      visualization := visualization.(rotationSpeed := speed);
      camera := camera.(autoRotateSpeed := speed);
    }

    method ToggleGrid()
      modifies this
      ensures State() == old(State()).(visualization := old(visualization).(showGrid := !old(visualization.showGrid)))
    {
      visualization := visualization.(showGrid := !visualization.showGrid);
    }

    method ToggleAxes()
      modifies this
      ensures State() == old(State()).(visualization := old(visualization).(showAxes := !old(visualization.showAxes)))
    {
      visualization := visualization.(showAxes := !visualization.showAxes);
    }

    method TogglePressureZones()
      modifies this
      ensures State() == old(State()).(visualization :=
                                         old(visualization).(showPressureZones := !old(visualization.showPressureZones)))
    {
      visualization := visualization.(showPressureZones := !visualization.showPressureZones);
    }

    method ToggleVolumeProfile()
      modifies this
      ensures State() == old(State()).(visualization :=
                                         old(visualization).(showVolumeProfile := !old(visualization.showVolumeProfile)))
    {
      visualization := visualization.(showVolumeProfile := !visualization.showVolumeProfile);
    }

    /** The transparency is stored clamped to [0, 1]. */
    method SetTransparency(value: real)
      modifies this
      ensures State() == old(State()).(visualization := old(visualization).(transparency := Clamp01(value)))
      ensures 0.0 <= visualization.transparency <= 1.0
    {
      visualization := visualization.(transparency := Clamp01(value));
    }

    method SetLevelOfDetail(detail: Detail)
      modifies this
      ensures State() == old(State()).(visualization := old(visualization).(levelOfDetail := detail))
    {
      visualization := visualization.(levelOfDetail := detail);
    }

    method UpdatePerformanceSettings(p: PerformancePatch)
      modifies this
      ensures State() == old(State()).(performance := p.Apply(old(performance)))
    {
      performance := p.Apply(performance);
    }

    method UpdateUiSettings(p: UiPatch)
      modifies this
      ensures State() == old(State()).(ui := p.Apply(old(ui)))
    {
      ui := p.Apply(ui);
    }

    method ToggleControlPanel()
      modifies this
      ensures State() == old(State()).(ui := old(ui).(showControlPanel := !old(ui.showControlPanel)))
    {
      ui := ui.(showControlPanel := !ui.showControlPanel);
    }

    method ToggleStats()
      modifies this
      ensures State() == old(State()).(ui := old(ui).(showStats := !old(ui.showStats)))
    {
      ui := ui.(showStats := !ui.showStats);
    }

    method ToggleViewMode()
      modifies this
      ensures State() == old(State()).(ui := old(ui).(viewMode := OtherViewMode(old(ui.viewMode))))
    {
      ui := ui.(viewMode := if ui.viewMode == TwoD then ThreeD else TwoD);
    }

    method SetViewMode(mode: ViewMode)
      modifies this
      ensures State() == old(State()).(ui := old(ui).(viewMode := mode))
    {
      ui := ui.(viewMode := mode);
    }

    method ResetSettings()
      modifies this
      ensures State() == Initial
    {
      visualization, camera := Initial.visualization, Initial.camera;
      performance, ui := Initial.performance, Initial.ui;
    }
  }
}
