/**
 * The application-wide settings object the settings pages read and write
 * (SpectacleConfig::instance()). Only the entries those pages touch are
 * modelled, as plain fields; how they reach the disk is not modelled.
 */
module Settings {

  class SpectacleConfig {
    // save options
    var defaultSaveLocation: string
    var autoSaveFilenameFormat: string
    var saveImageFormat: string
    var copySaveLocationToClipboard: bool
    // general options
    var useLightRegionMaskColour: bool
    var rememberLastRectangularRegion: bool
    var alwaysRememberRegion: bool
    var showMagnifierChecked: bool
  }
}
