/**
 * The "GuiConfig" group of the kscreengenierc file as KScreenGenieGUI uses
 * it: a key/value store read with defaults at start-up and written by the
 * window-move and QML save handlers.
 */
module GuiConfig {

  datatype Point = Point(x: int, y: int)

  /** A stored entry, typed as the reader expects it. */
  datatype ConfigValue = PointValue(point: Point) | BoolValue(flag: bool) | IntValue(number: int)

  type ConfigGroup = map<string, ConfigValue>

  const WindowPositionKey: string := "window-position"
  const IncludePointerKey: string := "includePointer"
  const IncludeDecorationsKey: string := "includeDecorations"
  const CaptureModeIndexKey: string := "captureModeIndex"

  /** KConfigGroup::readEntry: the stored value, or the default when the key is absent or of another type. */
  function ReadPoint(cfg: ConfigGroup, key: string, default: Point): (r: Point)
    ensures key !in cfg ==> r == default
    ensures forall p :: key in cfg && cfg[key] == PointValue(p) ==> r == p
  {
    if key in cfg && cfg[key].PointValue? then cfg[key].point else default
  }

  function ReadBool(cfg: ConfigGroup, key: string, default: bool): (r: bool)
    ensures key !in cfg ==> r == default
    ensures forall b :: key in cfg && cfg[key] == BoolValue(b) ==> r == b
  {
    if key in cfg && cfg[key].BoolValue? then cfg[key].flag else default
  }

  function ReadInt(cfg: ConfigGroup, key: string, default: int): (r: int)
    ensures key !in cfg ==> r == default
    ensures forall i :: key in cfg && cfg[key] == IntValue(i) ==> r == i
  {
    if key in cfg && cfg[key].IntValue? then cfg[key].number else default
  }

  /** What init reads: the window position and the state handed to the QML front end. */
  datatype GuiSettings = GuiSettings(
    position: Point,
    includePointer: bool,
    includeDecorations: bool,
    captureModeIndex: int)

  /**
   * The reads of init, with their defaults: position (50, 50), both
   * checkboxes on, capture mode 0.
   */
  function LoadSettings(cfg: ConfigGroup): (s: GuiSettings)
    ensures WindowPositionKey !in cfg ==> s.position == Point(50, 50)
    ensures IncludePointerKey !in cfg ==> s.includePointer
    ensures IncludeDecorationsKey !in cfg ==> s.includeDecorations
    ensures CaptureModeIndexKey !in cfg ==> s.captureModeIndex == 0
    ensures forall p :: WindowPositionKey in cfg && cfg[WindowPositionKey] == PointValue(p) ==> s.position == p
    ensures forall b :: IncludePointerKey in cfg && cfg[IncludePointerKey] == BoolValue(b) ==> s.includePointer == b
    ensures forall b :: IncludeDecorationsKey in cfg && cfg[IncludeDecorationsKey] == BoolValue(b) ==> s.includeDecorations == b
    ensures forall i :: CaptureModeIndexKey in cfg && cfg[CaptureModeIndexKey] == IntValue(i) ==> s.captureModeIndex == i
  {
    GuiSettings(
      ReadPoint(cfg, WindowPositionKey, Point(50, 50)),
      ReadBool(cfg, IncludePointerKey, true),
      ReadBool(cfg, IncludeDecorationsKey, true),
      ReadInt(cfg, CaptureModeIndexKey, 0))
  }

  /** An empty configuration loads the defaults. */
  lemma LoadDefaults()
    ensures LoadSettings(map[]) == GuiSettings(Point(50, 50), true, true, 0)
  {
  }

  /** moveEvent: stores the new window position; the next start-up reads it back. */
  function WritePosition(cfg: ConfigGroup, pos: Point): (r: ConfigGroup)
    ensures r.Keys == cfg.Keys + {WindowPositionKey}
    ensures forall k :: k in cfg && k != WindowPositionKey ==> r[k] == cfg[k]
    ensures LoadSettings(r) == LoadSettings(cfg).(position := pos)
  {
    cfg[WindowPositionKey := PointValue(pos)]
  }

  /** saveCheckboxStatesConfig: stores both flags; nothing else changes. */
  function WriteCheckboxStates(cfg: ConfigGroup, includePointer: bool, includeDecorations: bool): (r: ConfigGroup)
    ensures r.Keys == cfg.Keys + {IncludePointerKey, IncludeDecorationsKey}
    ensures forall k :: k in cfg && k != IncludePointerKey && k != IncludeDecorationsKey ==> r[k] == cfg[k]
    ensures LoadSettings(r) == LoadSettings(cfg).(includePointer := includePointer, includeDecorations := includeDecorations)
  {
    cfg[IncludePointerKey := BoolValue(includePointer)][IncludeDecorationsKey := BoolValue(includeDecorations)]
  }

  /** saveCaptureModeConfig: stores the capture mode index; nothing else changes. */
  function WriteCaptureMode(cfg: ConfigGroup, modeIndex: int): (r: ConfigGroup)
    ensures r.Keys == cfg.Keys + {CaptureModeIndexKey}
    ensures forall k :: k in cfg && k != CaptureModeIndexKey ==> r[k] == cfg[k]
    ensures LoadSettings(r) == LoadSettings(cfg).(captureModeIndex := modeIndex)
  {
    cfg[CaptureModeIndexKey := IntValue(modeIndex)]
  }
}
