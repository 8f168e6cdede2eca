# KScreenGenie / Spectacle screenshot front end: a Dafny model

This project models three pieces of the screenshot front end's logic and proves properties about them.

- **The main window, `KScreenGenieGUI`** (`gui.dfy`, with `capture.dfy`, `sendto.dfy` and `guiconfig.dfy`).
  - The capture request. One of four mode tokens from the QML front end selects a grab mode. Any other token is rejected with a warning.
  - The window's visibility. The window hides before a capture. It shows again when the token is rejected or when the captured pixmap arrives.
  - The "Send To..." menu. It is an append-only sequence of actions and separators. `mMenuActions` is kept as the actions of the menu, in menu order.
  - Dispatch. A triggered action's data (kind, payload) becomes at most one typed request: clipboard, open-with, a system service, or a KIPI plugin action.
  - The `GuiConfig` configuration group. It is read with defaults at start-up and written by the move and save handlers.
- **The save options page, `SaveOptionsPage`** (`saveoptions.dfy`).
  - Typing a file name that ends, ignoring case, with `.` plus a supported format strips that extension and selects the format in the combo box. The last matching format in list order wins.
  - The combo box items are the supported formats upper-cased.
  - The page has a dirty flag. Saving stores the format lower-cased. Resetting looks it up upper-cased.
- **The general options page, `GeneralOptionsPage`** (`generaloptions.dfy`).
  - Two checkboxes.
  - An exclusive three-way radio group: Never / Always / Until closed. It is stored as two flags, remember-last and always-remember.
  - A dirty flag.

Shared pieces:
- `qtstring.dfy` models the QString operations the code uses: ASCII case mapping, case-insensitive `endsWith`, `chop` and `toLongLong`. It also defines a decimal printer in the manner of `QString::number`. The code does not call it; it is the partner against which the `toLongLong` round trip is proved.
- `spectacleconfig.dfy` holds the application settings object as plain fields.
- `base.dfy` holds `Option`.

Objects whose fields the source updates become classes: the window, the two pages and the settings object. Each widget's relevant state is a field of its page or window. Emitted signals and `qWarning` messages are recorded in append-only log fields (`signals`, `warnings`). The pure decisions are functions that the methods' contracts refer to: token resolution, dispatch, suffix matching, the flag encoding and the configuration reads and writes. The properties are proved about those functions.

## Model

| member | source | states |
|---|---|---|
| Capture.ResolveMode | src/KScreenGenieGUI.cpp:170-182 | A mode is produced exactly for the four tokens `fullScreen`, `currentScreen`, `activeWindow`, `rectangularRegion`. The mode produced is the one whose token was given. Any other token is rejected. |
| Capture.ResolveModeToken | src/KScreenGenieGUI.cpp:170-177 | Each mode's token resolves to that mode, and a token resolves to a mode only if it is that mode's token. |
| Gui.KScreenGenieGUI.CaptureScreenshot | src/KScreenGenieGUI.cpp:163-185 | A known token leaves the window hidden. It appends one capture request carrying the resolved mode, the delay and both flags unchanged. An unknown token appends no request, logs one warning and leaves the window visible. |
| Gui.KScreenGenieGUI.SetScreenshotAndShow | src/KScreenGenieGUI.cpp:187-195 | The pixmap is stored, and the window is then visible. |
| Gui.CaptureCycle | src/KScreenGenieGUI.cpp:163-195 | Only visibility, the two logs and the stored image can change, and the window ends visible. For a known token, a capture followed by the delivered image appends exactly the request with the resolved mode and delay, logs no warning, and stores that image. For an unknown token, nothing is emitted, one warning is logged and the stored image is unchanged. |
| Gui.KScreenGenieGUI.AddSendToAction | src/KScreenGenieGUI.cpp:148-156 | The action is appended at the end of both the menu and `mMenuActions`, and earlier entries are unchanged. It keeps `mMenuActions` equal to the menu's actions. |
| Gui.KScreenGenieGUI.AddSendToSeperator | src/KScreenGenieGUI.cpp:158-161 | A separator is appended to the menu only, and `mMenuActions` is unchanged. The invariant is kept. |
| SendTo.ActionsOfAppend | src/KScreenGenieGUI.cpp:148-161 | Appending an entry to the menu appends its action, if any, to the menu's actions. A separator appends nothing. |
| SendTo.ActionsOf | src/KScreenGenieGUI.cpp:154-155 | The contents `mMenuActions` must have: at most as many entries as the menu, and an action is among them exactly when the menu holds it as an action entry. |
| SendTo.ActionsOfConcat | src/KScreenGenieGUI.cpp:154-160 | The actions of a concatenated menu are the concatenation of the two parts' actions. |
| SendTo.Dispatch | src/KScreenGenieGUI.cpp:207-224 | Clipboard is emitted exactly for hardcoded `clipboard`, and open-with exactly for hardcoded `application`. A service request, carrying the registry lookup of the payload, is emitted exactly for service actions. A KIPI request, carrying the payload parsed as an integer, is emitted exactly for KIPI actions. Nothing is emitted exactly for any other hardcoded payload. |
| SendTo.ServiceByMenuId | src/KScreenGenieGUI.cpp:217 | `KService::serviceByMenuId` over the given registry: a service is found exactly when the menu id is registered, and it is the registered one. Otherwise the result is None, the null pointer. |
| SendTo.KipiDispatchRoundTrip | src/KScreenGenieGUI.cpp:220-222 | A KIPI action whose payload is the decimal form of a 64-bit id dispatches a request with that same id. |
| Gui.KScreenGenieGUI.SendToRequest | src/KScreenGenieGUI.cpp:197-225 | A sender that is not an action logs one warning and emits nothing. Otherwise at most one request is emitted, namely what `Dispatch` gives for the action's data. |
| QtString.ToLongLong | src/KScreenGenieGUI.cpp:222 | The parsed value is always within the 64-bit range. A plain digit string within range parses to its value. |
| QtString.ToLongLongRoundTrip | src/KScreenGenieGUI.cpp:222 | Every 64-bit integer written in decimal parses back to itself. |
| QtString.DecimalDigitsValue | src/KScreenGenieGUI.cpp:222 | The decimal digits of a natural number are non-empty, all digits, and have that number as their value. |
| GuiConfig.LoadSettings | src/KScreenGenieGUI.cpp:125-129 | A missing key reads as its default: position (50, 50), both checkboxes on, capture mode 0. A stored value of the right type is read as stored. |
| GuiConfig.LoadDefaults | src/KScreenGenieGUI.cpp:55-129 | A corollary of `LoadSettings` for the empty configuration: it loads position (50, 50), both checkboxes on and capture mode 0. |
| GuiConfig.ReadPoint | src/KScreenGenieGUI.cpp:55 | `readEntry` with a default: an absent key reads as the default, and a stored point reads as itself. |
| GuiConfig.ReadBool | src/KScreenGenieGUI.cpp:125-126 | `readEntry` with a default: an absent key reads as the default, and a stored flag reads as itself. |
| GuiConfig.ReadInt | src/KScreenGenieGUI.cpp:129 | `readEntry` with a default: an absent key reads as the default, and a stored integer reads as itself. |
| Gui.KScreenGenieGUI.Init | src/KScreenGenieGUI.cpp:45-133 | The window moves to the loaded position, and the QML front end receives the loaded checkbox states and capture mode. |
| GuiConfig.WritePosition | src/KScreenGenieGUI.cpp:142 | Only `window-position` is written. Every other key is unchanged. Loading afterwards gives the new position and all other settings as before. |
| Gui.KScreenGenieGUI.MoveEvent | src/KScreenGenieGUI.cpp:137-144 | The new position is written to the configuration. |
| GuiConfig.WriteCheckboxStates | src/KScreenGenieGUI.cpp:232-233 | Only `includePointer` and `includeDecorations` are written. Every other key is unchanged. Loading afterwards gives the two new flags and all other settings as before. |
| Gui.KScreenGenieGUI.SaveCheckboxStatesConfig | src/KScreenGenieGUI.cpp:227-235 | The configuration becomes the old one with both flags written. |
| GuiConfig.WriteCaptureMode | src/KScreenGenieGUI.cpp:242 | Only `captureModeIndex` is written. Every other key is unchanged. Loading afterwards gives the new index and all other settings as before. |
| Gui.KScreenGenieGUI.SaveCaptureModeConfig | src/KScreenGenieGUI.cpp:237-244 | The configuration becomes the old one with the index written. |
| Gui.KScreenGenieGUI.constructor | src/KScreenGenieGUI.cpp:22-33 | The window starts hidden, with an empty menu and action list, no image and empty logs. |
| SaveOptions.ComboItems | src/Gui/SettingsDialog/SaveOptionsPage.cpp:80-86 | The items are exactly the supported formats upper-cased, one per format, in the writer's order. |
| SaveOptions.FindText | src/Gui/SettingsDialog/SaveOptionsPage.cpp:166 | The result is -1 exactly when the text is not an item. Otherwise it is the first index holding the text. |
| SaveOptions.LastMatch | src/Gui/SettingsDialog/SaveOptionsPage.cpp:66-73 | The result is the last format in list order whose `.`-prefixed name ends the text, ignoring case. It is None exactly when no format matches. |
| SaveOptions.EditedStep | src/Gui/SettingsDialog/SaveOptionsPage.cpp:66-73 | Each loop pass tests the original text. A matching format replaces the outcome so far, and a non-matching one leaves it as it was. |
| SaveOptions.MatchedFormatFound | src/Gui/SettingsDialog/SaveOptionsPage.cpp:72 | The upper-cased matched format is always one of the combo items, so the lookup never gives -1. |
| SaveOptions.StripKeepsTypedName | src/Gui/SettingsDialog/SaveOptionsPage.cpp:68-71 | On a match, chopping `|fmt|+1` characters leaves the typed prefix unchanged. That prefix plus `.` plus the format spells the typed text again, up to case. |
| QtString.EndsWithCI | src/Gui/SettingsDialog/SaveOptionsPage.cpp:68 | `endsWith` with `Qt::CaseInsensitive`. It holds when the suffix is no longer than the text and the text's tail equals the suffix after ASCII lower-casing. A match implies the suffix fits, and an exact suffix always matches. |
| QtString.EndsWithCIIgnoresCase | src/Gui/SettingsDialog/SaveOptionsPage.cpp:68 | Upper-casing the typed text never changes whether it ends with a suffix, ignoring case. |
| SaveOptions.NamesFormat | src/Gui/SettingsDialog/SaveOptionsPage.cpp:68 | The handler's test: the text ends with `.` plus the format, ignoring case. On a match the text is longer than the format and has a literal `.` just before it. |
| QtString.ToUpper | src/Gui/SettingsDialog/SaveOptionsPage.cpp:83 | `toUpper`, used at lines 72, 83 and 166: the length is kept and no lower-case ASCII letter is left. |
| QtString.ToLower | src/Gui/SettingsDialog/SaveOptionsPage.cpp:143 | `toLower`, used at line 143: the length is kept and no upper-case ASCII letter is left. |
| SaveOptions.SaveOptionsPage.CurrentText | src/Gui/SettingsDialog/SaveOptionsPage.cpp:143 | `QComboBox::currentText`: the current item when there is one. The result is always one of the items or the empty string. |
| QtString.Chop | src/Gui/SettingsDialog/SaveOptionsPage.cpp:70 | The result is a prefix of the string, shorter by n characters, or empty when n exceeds the length. |
| SaveOptions.SaveOptionsPage.TextEdited | src/Gui/SettingsDialog/SaveOptionsPage.cpp:63-75 | The page is marked dirty. With no match, the name and the combo index are unchanged. With a match, the name is the text with the last matching format's extension removed, and the combo shows that format upper-cased. |
| SaveOptions.SaveOptionsPage.MarkDirty | src/Gui/SettingsDialog/SaveOptionsPage.cpp:128-131 | The changes flag is set. |
| SaveOptions.SaveOptionsPage.SelectFormat | src/Gui/SettingsDialog/SaveOptionsPage.cpp:87 | The chosen item becomes current. The page becomes dirty when the current text changed. |
| SaveOptions.SaveOptionsPage.EditSaveLocation | src/Gui/SettingsDialog/SaveOptionsPage.cpp:45 | The location is set. The page becomes dirty when the text changed. |
| SaveOptions.SaveOptionsPage.SetCopyPathToClipboard | src/Gui/SettingsDialog/SaveOptionsPage.cpp:50 | The checkbox is set. The page becomes dirty when its state changed. |
| SaveOptions.SaveOptionsPage.SaveChanges | src/Gui/SettingsDialog/SaveOptionsPage.cpp:133-149 | The location, the name format and the checkbox are stored as shown. The combo text is stored lower-cased. The changes flag is cleared. |
| SaveOptions.SaveOptionsPage.ResetChanges | src/Gui/SettingsDialog/SaveOptionsPage.cpp:151-175 | The name, location and checkbox are loaded. The combo moves only when the upper-cased stored format is an item. Otherwise the previous index is kept. The changes flag is cleared. |
| SaveOptions.SaveOptionsPage.constructor | src/Gui/SettingsDialog/SaveOptionsPage.cpp:36-126 | The combo is filled and its first item made current. The page is then loaded from the configuration, and it is not dirty. |
| QtString.UpperOfLower | src/Gui/SettingsDialog/SaveOptionsPage.cpp:143-166 | Upper-casing a lower-cased string equals upper-casing it directly. |
| SaveOptions.UpperIdempotent | src/Gui/SettingsDialog/SaveOptionsPage.cpp:83 | Upper-casing twice equals upper-casing once, so every combo item is upper-case. |
| SaveOptions.SavedFormatReselected | src/Gui/SettingsDialog/SaveOptionsPage.cpp:143-166 | An upper-case combo text is stored lower-cased and looked up upper-cased. The lookup selects an item with that same text, and it finds one whenever the text is an item. |
| SaveOptions.SaveThenReset | src/Gui/SettingsDialog/SaveOptionsPage.cpp:133-175 | Save followed by reset leaves the same name, location, checkbox and combo text, and a clean page. |
| GeneralOptions.EncodeRemember | src/Gui/SettingsDialog/GeneralOptionsPage.cpp:86-87 | Remember-last is stored exactly for Always or Until closed, and always-remember exactly for Always. So always-remember implies remember-last, and Never stores both false. |
| GeneralOptions.ResetSelection | src/Gui/SettingsDialog/GeneralOptionsPage.cpp:98-99 | Always-remember selects Always. Remember-last alone selects Until closed. With both flags clear, the previous selection is kept. |
| GeneralOptions.RememberRoundTrip | src/Gui/SettingsDialog/GeneralOptionsPage.cpp:86-99 | Encoding a selection and resetting from the result, with that selection still checked, gives the same selection for all three choices. |
| GeneralOptions.ResetFromSavedFlags | src/Gui/SettingsDialog/GeneralOptionsPage.cpp:86-99 | Stored Always or Until-closed flags reset to that choice whatever was checked before. Stored Never flags keep whatever was checked before. |
| GeneralOptions.GeneralOptionsPage.SetRememberChecked | src/Gui/SettingsDialog/GeneralOptionsPage.cpp:98-99 | In the exclusive group, checking a button selects it. Unchecking never changes the selection. |
| GeneralOptions.GeneralOptionsPage.SelectRemember | src/Gui/SettingsDialog/GeneralOptionsPage.cpp:58-67 | The clicked choice is selected. The page becomes dirty when the selection changed. |
| GeneralOptions.GeneralOptionsPage.SetUseLightBackground | src/Gui/SettingsDialog/GeneralOptionsPage.cpp:46-47 | The checkbox is set. The page becomes dirty when its state changed. |
| GeneralOptions.GeneralOptionsPage.SetShowMagnifier | src/Gui/SettingsDialog/GeneralOptionsPage.cpp:51-52 | The checkbox is set. The page becomes dirty when its state changed. |
| GeneralOptions.GeneralOptionsPage.MarkDirty | src/Gui/SettingsDialog/GeneralOptionsPage.cpp:76-79 | The changes flag is set. |
| GeneralOptions.GeneralOptionsPage.SaveChanges | src/Gui/SettingsDialog/GeneralOptionsPage.cpp:81-91 | Both checkboxes are stored as checked. The selection is stored as its flag encoding. The changes flag is cleared. |
| GeneralOptions.GeneralOptionsPage.ResetChanges | src/Gui/SettingsDialog/GeneralOptionsPage.cpp:93-103 | Both checkboxes are loaded. The selection is the result of checking "until closed", then "always", from the stored flags. The changes flag is cleared. |
| GeneralOptions.GeneralOptionsPage.constructor | src/Gui/SettingsDialog/GeneralOptionsPage.cpp:33-74 | Never is checked first, and the page is then loaded from the configuration. It is not dirty. |
| GeneralOptions.SaveThenReset | src/Gui/SettingsDialog/GeneralOptionsPage.cpp:81-103 | Save followed by reset leaves both checkboxes and the radio selection as they were, and a clean page. |

Exactly one radio button is checked at all times. This holds by construction: the selection is a value of the three-valued type `RememberChoice`.

Reset with both flags clear keeps the current selection. In an exclusive `QButtonGroup`, `setChecked(false)` on the checked button is refused. So when the stored flags say Never, `resetChanges` leaves checked whatever is checked at that moment. It does not check Never. The round trip therefore holds when the selection has not changed since the save, and `ResetFromSavedFlags` states both cases.

## Left out

- The capture delay conversion `captureDelay * 1000` is floating point. The model takes the delay as an integer number of milliseconds.
- Qt widget construction, layouts, QML loading, `invokeMethod` calls, the help menu, the button box, i18n strings and the help text are not modelled. So are re-entrant signal delivery and the `qDebug` line.
- `SendToActionsPopulator`, the discovery of KIPI plugins and services, and `handleSendToKipi` are not part of this model. Only the append side (`addSendToAction`, `addSendToSeperator`) is modelled. No order of discovery is assumed.
- `KService::serviceByMenuId` is a given registry map. A missing entry is `None`, and the request is still emitted with it, as the source emits a null pointer.
- The `KConfig` storage is modelled as typed values in a map. Its textual encoding, `openConfig` and `sync` are left out. A stored value of another type reads as the default.
- `SpectacleConfig` is a plain object with the fields the two pages use. Its own defaults and persistence are not part of this model.
- `QImageWriter::supportedImageFormats()` is a given sequence, the same on every call. `fromLocal8Bit` is the identity.
- `QtString.ToUpper`, `QtString.ToLower` and `QtString.EndsWithCI` map the case of ASCII letters only. Unicode case mapping and case folding are left out.
- `QtString.ToLongLong` skips ASCII white space only, not all Unicode spaces.
- The URL of the save location is kept as its displayed text. The `QUrl` parsing round trip is left out.
- How `SendToActionsPopulator` encodes a KIPI action id is not shown. `SendTo.KipiDispatchRoundTrip` assumes it is `QString::number(id)`.
- `src/KipiInterface/KSGKipiInterface.h` only declares an adapter over the external KIPI API and has no logic to model.
