/**
 * The capture-mode vocabulary of KScreenGenieGUI::captureScreenshot: the
 * string token sent by the QML front end and the grab mode it selects.
 */
module Capture {
  import opened Base

  /** ImageGrabber::GrabMode without InvalidChoice, which is modelled as None. */
  datatype GrabMode = FullScreen | CurrentScreen | ActiveWindow | RectangularRegion

  /** What newScreenshotRequest carries to the image grabber. */
  datatype CaptureRequest = CaptureRequest(
    mode: GrabMode,
    delayMsec: int,
    includePointer: bool,
    includeDecorations: bool)

  /** The token the front end uses for each mode. */
  function ModeToken(m: GrabMode): string {
    match m
    case FullScreen => "fullScreen"
    case CurrentScreen => "currentScreen"
    case ActiveWindow => "activeWindow"
    case RectangularRegion => "rectangularRegion"
  }

  /**
   * The if-chain of captureScreenshot: exactly the four known tokens are
   * accepted, each yielding the mode whose token it is.
   */
  function ResolveMode(token: string): (r: Option<GrabMode>)
    ensures r.Some? <==> token in {"fullScreen", "currentScreen", "activeWindow", "rectangularRegion"}
    ensures r.Some? ==> ModeToken(r.value) == token
  {
    if token == "fullScreen" then Some(FullScreen)
    else if token == "currentScreen" then Some(CurrentScreen)
    else if token == "activeWindow" then Some(ActiveWindow)
    else if token == "rectangularRegion" then Some(RectangularRegion)
    else None
  }

  /** Each mode's token resolves back to that mode, and to no other. */
  lemma ResolveModeToken(m: GrabMode, token: string)
    ensures ResolveMode(ModeToken(m)) == Some(m)
    ensures ResolveMode(token) == Some(m) <==> token == ModeToken(m)
  {
  }
}
