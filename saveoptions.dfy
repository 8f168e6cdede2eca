/**
 * SaveOptionsPage: the save location, the file-name pattern with its
 * image-format combo box, and the "changes made" flag of the page.
 */
module SaveOptions {
  import opened Base
  import opened QtString
  import opened Settings

  /** The combo box items: every supported format upper-cased, in the writer's order. */
  method ComboItems(formats: seq<string>) returns (items: seq<string>)
    ensures |items| == |formats|
    ensures forall i :: 0 <= i < |formats| ==> items[i] == ToUpper(formats[i])
  {
    items := [];
    for i := 0 to |formats|
      invariant |items| == i
      invariant forall k :: 0 <= k < i ==> items[k] == ToUpper(formats[k])
    {
      items := items + [ToUpper(formats[i])];
    }
  }

  /** QComboBox::findText: the first item equal to text, or -1 when there is none. */
  function FindText(items: seq<string>, text: string): (r: int)
    ensures -1 <= r < |items|
    ensures r == -1 <==> text !in items
    ensures r >= 0 ==> items[r] == text && text !in items[..r]
  {
    if |items| == 0 then -1
    else if items[0] == text then 0
    else
      var k := FindText(items[1..], text);
      if k == -1 then -1 else k + 1
  }

  /** The test of the textEdited handler: the name ends with "." and the format, ignoring case. */
  predicate NamesFormat(text: string, fmt: string)
    ensures NamesFormat(text, fmt) ==> |fmt| + 1 <= |text| && text[|text| - |fmt| - 1] == '.'
  {
    var matched := EndsWithCI(text, "." + fmt);
    assert matched ==> ToLower(text[|text| - |fmt| - 1..])[0] == LowerChar(text[|text| - |fmt| - 1]);
    matched
  }

  /**
   * The last format, in list order, that the text names. Every pass of the
   * handler's loop tests the text as typed, so the last match decides.
   */
  function LastMatch(text: string, formats: seq<string>): (r: Option<nat>)
    ensures r.Some? ==> r.value < |formats| && NamesFormat(text, formats[r.value])
    ensures r.Some? ==> forall k :: r.value < k < |formats| ==> !NamesFormat(text, formats[k])
    ensures r.None? <==> forall k :: 0 <= k < |formats| ==> !NamesFormat(text, formats[k])
  {
    if |formats| == 0 then None
    else if NamesFormat(text, formats[|formats| - 1]) then Some(|formats| - 1)
    else LastMatch(text, formats[..|formats| - 1])
  }

  /** The name field after the handler has run over formats. */
  function EditedName(text: string, formats: seq<string>): string {
    match LastMatch(text, formats)
    case None => text
    case Some(j) => Chop(text, |formats[j]| + 1)
  }

  /** The combo box index after the handler has run over formats, starting from oldIndex. */
  function EditedIndex(text: string, formats: seq<string>, items: seq<string>, oldIndex: int): int {
    match LastMatch(text, formats)
    case None => oldIndex
    case Some(j) => FindText(items, ToUpper(formats[j]))
  }

  /** One more pass of the handler's loop: only a matching format changes the outcome. */
  lemma EditedStep(text: string, formats: seq<string>, i: nat, items: seq<string>, oldIndex: int)
    requires i < |formats|
    ensures EditedName(text, formats[..i + 1]) ==
      if NamesFormat(text, formats[i]) then Chop(text, |formats[i]| + 1) else EditedName(text, formats[..i])
    ensures EditedIndex(text, formats[..i + 1], items, oldIndex) ==
      if NamesFormat(text, formats[i]) then FindText(items, ToUpper(formats[i])) else EditedIndex(text, formats[..i], items, oldIndex)
  {
    assert formats[..i + 1][..i] == formats[..i];
  }

  /** A matched format is always found among the upper-cased items. */
  lemma MatchedFormatFound(text: string, formats: seq<string>, items: seq<string>)
    requires |items| == |formats| && forall i :: 0 <= i < |formats| ==> items[i] == ToUpper(formats[i])
    requires LastMatch(text, formats).Some?
    ensures var j := LastMatch(text, formats).value;
      var r := FindText(items, ToUpper(formats[j]));
      0 <= r && items[r] == ToUpper(formats[j])
  {
  }

  /**
   * Stripping a matched extension keeps what was typed before it,
   * character for character, and the name plus "." plus the format spells
   * the typed text again up to case.
   */
  lemma StripKeepsTypedName(text: string, fmt: string)
    requires NamesFormat(text, fmt)
    ensures var name := Chop(text, |fmt| + 1);
      |name| + |fmt| + 1 == |text| && name == text[..|name|] && ToLower(name + "." + fmt) == ToLower(text)
  {
    var name := Chop(text, |fmt| + 1);
    assert text == name + text[|name|..];
    LowerAppend(name, text[|name|..]);
    LowerAppend(name, "." + fmt);
    assert name + "." + fmt == name + ("." + fmt);
  }

  lemma UpperIdempotent(s: string)
    ensures ToUpper(ToUpper(s)) == ToUpper(s)
  {
  }

  /**
   * An upper-case combo text, stored lower-cased and looked up again
   * upper-cased, selects an item with that same text, and is found
   * whenever it is one of the items.
   */
  lemma SavedFormatReselected(items: seq<string>, text: string)
    requires ToUpper(text) == text
    ensures var j := FindText(items, ToUpper(ToLower(text)));
      (j >= 0 ==> items[j] == text) && (text in items ==> j >= 0)
  {
    UpperOfLower(text);
  }

  class SaveOptionsPage {
    const formats: seq<string>      // QImageWriter::supportedImageFormats()
    var comboItems: seq<string>     // the items of mSaveImageFormat
    var currentIndex: int           // its current index, -1 for none
    var saveLocation: string        // mUrlRequester, as displayed
    var saveNameFormat: string      // mSaveNameFormat
    var copyPathToClipboard: bool   // mCopyPathToClipboard
    var changesMade: bool           // mChangesMade

    ghost predicate Valid()
      reads this
    {
      && |comboItems| == |formats|
      && (forall i :: 0 <= i < |formats| ==> comboItems[i] == ToUpper(formats[i]))
      && -1 <= currentIndex < |comboItems|
    }

    /** QComboBox::currentText: the current item, or the empty string when none is current. */
    function CurrentText(): (r: string)
      reads this
      ensures 0 <= currentIndex < |comboItems| ==> r == comboItems[currentIndex]
      ensures r in comboItems || r == ""
    {
      if 0 <= currentIndex < |comboItems| then comboItems[currentIndex] else ""
    }

    /**
     * The constructor: the combo box is filled (its first item becoming
     * current) and the page is loaded from the configuration.
     */
    constructor (supportedFormats: seq<string>, cfg: SpectacleConfig)
      ensures Valid() && formats == supportedFormats
      ensures saveNameFormat == cfg.autoSaveFilenameFormat
      ensures saveLocation == cfg.defaultSaveLocation
      ensures copyPathToClipboard == cfg.copySaveLocationToClipboard
      ensures FindText(comboItems, ToUpper(cfg.saveImageFormat)) >= 0 ==>
        currentIndex == FindText(comboItems, ToUpper(cfg.saveImageFormat))
      ensures FindText(comboItems, ToUpper(cfg.saveImageFormat)) < 0 ==>
        currentIndex == if |supportedFormats| > 0 then 0 else -1
      ensures !changesMade
    {
      formats := supportedFormats;
      var items := ComboItems(supportedFormats);
      comboItems := items;
      currentIndex := if |items| > 0 then 0 else -1;
      saveLocation := "";
      saveNameFormat := "";
      copyPathToClipboard := false;
      changesMade := false;
      new;
      ResetChanges(cfg);
    }

    /** markDirty. */
    method MarkDirty()
      modifies this`changesMade
      ensures changesMade
    {
      changesMade := true;
    }

    /**
     * The user types newText into the name field: the page is marked dirty,
     * and when the text names a supported format, the last such format is
     * stripped from the text and selected in the combo box.
     */
    method TextEdited(newText: string)
      requires Valid()
      modifies this`saveNameFormat, this`currentIndex, this`changesMade
      ensures Valid() && changesMade
      ensures saveNameFormat == EditedName(newText, formats)
      ensures currentIndex == EditedIndex(newText, formats, comboItems, old(currentIndex))
      ensures LastMatch(newText, formats).Some? ==>
        CurrentText() == ToUpper(formats[LastMatch(newText, formats).value])
    {
      MarkDirty();
      saveNameFormat := newText;
      for i := 0 to |formats|
        invariant changesMade
        invariant saveNameFormat == EditedName(newText, formats[..i])
        invariant currentIndex == EditedIndex(newText, formats[..i], comboItems, old(currentIndex))
      {
        EditedStep(newText, formats, i, comboItems, old(currentIndex));
        var fmt := formats[i];
        if NamesFormat(newText, fmt) {
          saveNameFormat := Chop(newText, |fmt| + 1);
          currentIndex := FindText(comboItems, ToUpper(fmt));
        }
      }
      assert formats[..|formats|] == formats;
      if LastMatch(newText, formats).Some? {
        MatchedFormatFound(newText, formats, comboItems);
      }
    }

    /** The user picks a combo item; the page is dirty when the current text changed. */
    method SelectFormat(index: int)
      requires Valid() && 0 <= index < |comboItems|
      modifies this`currentIndex, this`changesMade
      ensures Valid() && currentIndex == index
      ensures changesMade == (old(changesMade) || comboItems[index] != old(CurrentText()))
    {
      var before := CurrentText();
      currentIndex := index;
      if CurrentText() != before {
        MarkDirty();
      }
    }

    /** The user edits the save location; the page is dirty when the text changed. */
    method EditSaveLocation(url: string)
      modifies this`saveLocation, this`changesMade
      ensures saveLocation == url
      ensures changesMade == (old(changesMade) || url != old(saveLocation))
    {
      if url != saveLocation {
        saveLocation := url;
        MarkDirty();
      }
    }

    /** The user toggles the clipboard checkbox; the page is dirty when its state changed. */
    method SetCopyPathToClipboard(checked: bool)
      modifies this`copyPathToClipboard, this`changesMade
      ensures copyPathToClipboard == checked
      ensures changesMade == (old(changesMade) || checked != old(copyPathToClipboard))
    {
      if checked != copyPathToClipboard {
        copyPathToClipboard := checked;
        MarkDirty();
      }
    }

    /** saveChanges: the page's values go to the configuration, the format lower-cased. */
    method SaveChanges(cfg: SpectacleConfig)
      modifies cfg`defaultSaveLocation, cfg`autoSaveFilenameFormat, cfg`saveImageFormat,
               cfg`copySaveLocationToClipboard, this`changesMade
      ensures cfg.defaultSaveLocation == saveLocation
      ensures cfg.autoSaveFilenameFormat == saveNameFormat
      ensures cfg.saveImageFormat == ToLower(CurrentText())
      ensures cfg.copySaveLocationToClipboard == copyPathToClipboard
      ensures !changesMade
    {
      cfg.defaultSaveLocation := saveLocation;
      cfg.autoSaveFilenameFormat := saveNameFormat;
      cfg.saveImageFormat := ToLower(CurrentText());
      cfg.copySaveLocationToClipboard := copyPathToClipboard;
      changesMade := false;
    }

    /**
     * resetChanges: the page is loaded from the configuration; the combo box
     * moves only when the upper-cased stored format is one of its items.
     */
    method ResetChanges(cfg: SpectacleConfig)
      requires Valid()
      modifies this`saveNameFormat, this`saveLocation, this`copyPathToClipboard,
               this`currentIndex, this`changesMade
      ensures Valid()
      ensures saveNameFormat == cfg.autoSaveFilenameFormat
      ensures saveLocation == cfg.defaultSaveLocation
      ensures copyPathToClipboard == cfg.copySaveLocationToClipboard
      ensures FindText(comboItems, ToUpper(cfg.saveImageFormat)) >= 0 ==>
        currentIndex == FindText(comboItems, ToUpper(cfg.saveImageFormat))
      ensures FindText(comboItems, ToUpper(cfg.saveImageFormat)) < 0 ==>
        currentIndex == old(currentIndex)
      ensures !changesMade
    {
      saveNameFormat := cfg.autoSaveFilenameFormat;
      saveLocation := cfg.defaultSaveLocation;
      copyPathToClipboard := cfg.copySaveLocationToClipboard;
      var index := FindText(comboItems, ToUpper(cfg.saveImageFormat));
      if index >= 0 {
        currentIndex := index;
      }
      changesMade := false;
    }
  }

  /**
   * Saving and then resetting a page gives back what it showed: the same
   * name, location, checkbox and combo text, and a clean page.
   */
  method SaveThenReset(page: SaveOptionsPage, cfg: SpectacleConfig)
    requires page.Valid()
    modifies page, cfg
    ensures page.Valid()
    ensures page.saveNameFormat == old(page.saveNameFormat)
    ensures page.saveLocation == old(page.saveLocation)
    ensures page.copyPathToClipboard == old(page.copyPathToClipboard)
    ensures page.CurrentText() == old(page.CurrentText())
    ensures !page.changesMade
  {
    var shown := page.CurrentText();
    if 0 <= page.currentIndex {
      UpperIdempotent(page.formats[page.currentIndex]);
    }
    assert ToUpper(shown) == shown;
    page.SaveChanges(cfg);
    SavedFormatReselected(page.comboItems, shown);
    page.ResetChanges(cfg);
  }
}
