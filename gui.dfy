/**
 * KScreenGenieGUI: the main window's visibility around a capture, its
 * append-only "Send To..." menu, the dispatch of a triggered menu action,
 * and its reads and writes of the GuiConfig group.
 */
module Gui {
  import opened Base
  import opened Capture
  import opened SendTo
  import opened GuiConfig

  /** The captured image shown by the image provider; its pixels are opaque here. */
  datatype Pixmap = Pixmap(width: nat, height: nat, pixels: seq<int>)

  /** A signal the window emits. */
  datatype Signal = NewScreenshotRequest(capture: CaptureRequest) | SendToSignal(sendTo: SendRequest)

  /** A qWarning message. */
  datatype Warning = InvalidCaptureMode | SenderNotAnAction

  class KScreenGenieGUI {
    var visible: bool
    var screenshot: Option<Pixmap>      // the pixmap held by the image provider
    var menu: seq<MenuEntry>            // mSendToMenu
    var menuActions: seq<Action>        // mMenuActions
    var config: ConfigGroup             // the GuiConfig group of kscreengenierc
    var position: Point                 // the window position
    var qmlSettings: GuiSettings        // what init handed to the QML front end
    var signals: seq<Signal>            // every signal emitted, oldest first
    var warnings: seq<Warning>          // every qWarning, oldest first

    /** mMenuActions holds exactly the actions of the menu, in menu order. */
    ghost predicate Valid()
      reads this
    {
      menuActions == ActionsOf(menu)
    }

    /** The constructor: a hidden widget with an empty menu over the given configuration. */
    constructor (cfg: ConfigGroup)
      ensures Valid()
      ensures !visible && screenshot == None
      ensures menu == [] && menuActions == []
      ensures config == cfg && signals == [] && warnings == []
    {
      visible := false;
      screenshot := None;
      menu := [];
      menuActions := [];
      config := cfg;
      position := Point(0, 0);
      qmlSettings := GuiSettings(Point(0, 0), false, false, 0);
      signals := [];
      warnings := [];
    }

    /** init: moves the window and loads the checkbox states and capture mode, with defaults. */
    method Init()
      modifies this`position, this`qmlSettings
      ensures qmlSettings == LoadSettings(config)
      ensures position == qmlSettings.position
    {
      var settings := LoadSettings(config);
      position := settings.position;
      qmlSettings := settings;
    }

    /** moveEvent: the new position is written to the configuration. */
    method MoveEvent(pos: Point)
      modifies this`position, this`config
      ensures position == pos
      ensures config == WritePosition(old(config), pos)
    {
      position := pos;
      config := WritePosition(config, pos);
    }

    /** addSendToAction: the new action goes at the end of both lists. */
    method AddSendToAction(icon: Icon, name: string, data: ActionData)
      requires Valid()
      modifies this`menu, this`menuActions
      ensures Valid()
      ensures menu == old(menu) + [ActionEntry(Action(icon, name, data))]
      ensures menuActions == old(menuActions) + [Action(icon, name, data)]
    {
      var action := Action(icon, name, data);
      ActionsOfAppend(menu, ActionEntry(action));
      menuActions := menuActions + [action];
      menu := menu + [ActionEntry(action)];
    }

    /** addSendToSeperator: a separator goes at the end of the menu only. */
    method AddSendToSeperator()
      requires Valid()
      modifies this`menu
      ensures Valid()
      ensures menu == old(menu) + [Separator]
    {
      ActionsOfAppend(menu, Separator);
      menu := menu + [Separator];
    }

    /**
     * captureScreenshot: hides the window, then either emits the capture
     * request for a known token, leaving the window hidden, or warns and
     * shows the window again.
     */
    method CaptureScreenshot(captureMode: string, delayMsec: int, includePointer: bool, includeDecorations: bool)
      modifies this`visible, this`signals, this`warnings
      ensures visible <==> ResolveMode(captureMode).None?
      ensures ResolveMode(captureMode).Some? ==>
        signals == old(signals) + [NewScreenshotRequest(CaptureRequest(
          ResolveMode(captureMode).value, delayMsec, includePointer, includeDecorations))]
        && warnings == old(warnings)
      ensures ResolveMode(captureMode).None? ==>
        signals == old(signals) && warnings == old(warnings) + [InvalidCaptureMode]
    {
      visible := false;  // hide()
      var mode := ResolveMode(captureMode);
      match mode
      case None =>
        warnings := warnings + [InvalidCaptureMode];
        visible := true;  // show()
      case Some(m) =>
        signals := signals + [NewScreenshotRequest(CaptureRequest(m, delayMsec, includePointer, includeDecorations))];
    }

    /** setScreenshotAndShow: stores the pixmap, then shows the window. */
    method SetScreenshotAndShow(pixmap: Pixmap)
      modifies this`screenshot, this`visible
      ensures screenshot == Some(pixmap)
      ensures visible
    {
      screenshot := Some(pixmap);
      visible := true;
    }

    /**
     * sendToRequest: the triggering sender is None when it is not an
     * action; otherwise the action's data is dispatched, emitting at most
     * one request.
     */
    method SendToRequest(sender: Option<Action>, registry: map<string, Service>)
      modifies this`signals, this`warnings
      ensures sender.None? ==> signals == old(signals) && warnings == old(warnings) + [SenderNotAnAction]
      ensures sender.Some? ==> warnings == old(warnings)
      ensures sender.Some? && Dispatch(sender.value.data, registry).None? ==> signals == old(signals)
      ensures sender.Some? && Dispatch(sender.value.data, registry).Some? ==>
        signals == old(signals) + [SendToSignal(Dispatch(sender.value.data, registry).value)]
    {
      if sender.None? {
        warnings := warnings + [SenderNotAnAction];
        return;
      }
      var request := Dispatch(sender.value.data, registry);
      if request.Some? {
        signals := signals + [SendToSignal(request.value)];
      }
    }

    /** saveCheckboxStatesConfig. */
    method SaveCheckboxStatesConfig(includePointer: bool, includeDecorations: bool)
      modifies this`config
      ensures config == WriteCheckboxStates(old(config), includePointer, includeDecorations)
    {
      config := WriteCheckboxStates(config, includePointer, includeDecorations);
    }

    /** saveCaptureModeConfig. */
    method SaveCaptureModeConfig(modeIndex: int)
      modifies this`config
      ensures config == WriteCaptureMode(old(config), modeIndex)
    {
      config := WriteCaptureMode(config, modeIndex);
    }
  }

  /**
   * One capture cycle as a client sees it: a known token hides the window
   * and emits one request; the delivered image shows it again. An unknown
   * token leaves the window shown and emits nothing.
   */
  method CaptureCycle(gui: KScreenGenieGUI, captureMode: string, delayMsec: int, pixmap: Pixmap)
    modifies gui`visible, gui`signals, gui`warnings, gui`screenshot
    ensures gui.visible
    ensures ResolveMode(captureMode).Some? ==>
      && gui.signals == old(gui.signals) + [NewScreenshotRequest(CaptureRequest(
           ResolveMode(captureMode).value, delayMsec, true, true))]
      && gui.warnings == old(gui.warnings)
      && gui.screenshot == Some(pixmap)
    ensures ResolveMode(captureMode).None? ==>
      && gui.signals == old(gui.signals)
      && gui.warnings == old(gui.warnings) + [InvalidCaptureMode]
      && gui.screenshot == old(gui.screenshot)
  {
    gui.CaptureScreenshot(captureMode, delayMsec, true, true);
    if !gui.visible {
      gui.SetScreenshotAndShow(pixmap);
    }
  }
}
