/**
 * GeneralOptionsPage: two checkboxes, the exclusive "remember selected
 * area" radio group, and the "changes made" flag of the page.
 */
module GeneralOptions {
  import opened Settings

  /** The checked button of the exclusive radio group; one is always checked. */
  datatype RememberChoice = Never | Always | UntilClosed

  /** The two configuration flags the radio group is stored as. */
  datatype RememberFlags = RememberFlags(rememberLast: bool, alwaysRemember: bool)

  /**
   * What saveChanges stores for a selection: remember-last for either
   * remembering choice, always-remember only for Always. The stored pair
   * never has always-remember without remember-last.
   */
  function EncodeRemember(c: RememberChoice): (f: RememberFlags)
    ensures f.alwaysRemember ==> f.rememberLast
    ensures f.rememberLast <==> c != Never
    ensures f.alwaysRemember <==> c == Always
  {
    RememberFlags(c == UntilClosed || c == Always, c == Always)
  }

  /**
   * What resetChanges leaves checked: it checks "until closed" when
   * remember-last is set, then "always" when always-remember is set. A
   * cleared flag unchecks nothing, since the checked button of an
   * exclusive group cannot be unchecked, so with both flags clear the
   * selection stays as it was.
   */
  function ResetSelection(selection: RememberChoice, f: RememberFlags): (r: RememberChoice)
    ensures f.alwaysRemember ==> r == Always
    ensures !f.alwaysRemember && f.rememberLast ==> r == UntilClosed
    ensures !f.alwaysRemember && !f.rememberLast ==> r == selection
  {
    if f.alwaysRemember then Always
    else if f.rememberLast then UntilClosed
    else selection
  }

  /** Saving and resetting with the selection unchanged in between restores it, for each choice. */
  lemma RememberRoundTrip(c: RememberChoice)
    ensures ResetSelection(c, EncodeRemember(c)) == c
  {
  }

  /**
   * Any stored pair that saveChanges can produce decodes to the choice
   * that produced it, whatever was checked before, except Never, which
   * decodes to the previous selection.
   */
  lemma ResetFromSavedFlags(prev: RememberChoice, c: RememberChoice)
    ensures c != Never ==> ResetSelection(prev, EncodeRemember(c)) == c
    ensures c == Never ==> ResetSelection(prev, EncodeRemember(c)) == prev
  {
  }

  class GeneralOptionsPage {
    var useLightBackground: bool     // mUseLightBackground
    var showMagnifier: bool          // mShowMagnifier
    var selection: RememberChoice    // the checked button of the remember group
    var changesMade: bool            // mChangesMade

    /** The constructor: "Never" is checked first, then the page is loaded from the configuration. */
    constructor (cfg: SpectacleConfig)
      ensures useLightBackground == cfg.useLightRegionMaskColour
      ensures showMagnifier == cfg.showMagnifierChecked
      ensures selection == ResetSelection(Never, RememberFlags(cfg.rememberLastRectangularRegion, cfg.alwaysRememberRegion))
      ensures !changesMade
    {
      useLightBackground := false;
      showMagnifier := false;
      selection := Never;
      changesMade := false;
      new;
      ResetChanges(cfg);
    }

    /** markDirty. */
    method MarkDirty()
      modifies this`changesMade
      ensures changesMade
    {
      changesMade := true;
    }

    /**
     * QAbstractButton::setChecked on one button of the exclusive group:
     * checking a button makes it the selection; unchecking never changes
     * the selection.
     */
    method SetRememberChecked(button: RememberChoice, checked: bool)
      modifies this`selection
      ensures checked ==> selection == button
      ensures !checked ==> selection == old(selection)
    {
      if checked {
        selection := button;
      }
    }

    /** The user clicks a radio button; the page is dirty when the selection changed. */
    method SelectRemember(button: RememberChoice)
      modifies this`selection, this`changesMade
      ensures selection == button
      ensures changesMade == (old(changesMade) || button != old(selection))
    {
      var before := selection;
      SetRememberChecked(button, true);
      if selection != before {
        MarkDirty();
      }
    }

    /** The user toggles the light-background checkbox; the page is dirty when its state changed. */
    method SetUseLightBackground(checked: bool)
      modifies this`useLightBackground, this`changesMade
      ensures useLightBackground == checked
      ensures changesMade == (old(changesMade) || checked != old(useLightBackground))
    {
      if checked != useLightBackground {
        useLightBackground := checked;
        MarkDirty();
      }
    }

    /** The user toggles the magnifier checkbox; the page is dirty when its state changed. */
    method SetShowMagnifier(checked: bool)
      modifies this`showMagnifier, this`changesMade
      ensures showMagnifier == checked
      ensures changesMade == (old(changesMade) || checked != old(showMagnifier))
    {
      if checked != showMagnifier {
        showMagnifier := checked;
        MarkDirty();
      }
    }

    /** saveChanges: both checkboxes and the encoded radio selection go to the configuration. */
    method SaveChanges(cfg: SpectacleConfig)
      modifies cfg`useLightRegionMaskColour, cfg`rememberLastRectangularRegion,
               cfg`alwaysRememberRegion, cfg`showMagnifierChecked, this`changesMade
      ensures cfg.useLightRegionMaskColour == useLightBackground
      ensures RememberFlags(cfg.rememberLastRectangularRegion, cfg.alwaysRememberRegion) == EncodeRemember(selection)
      ensures cfg.showMagnifierChecked == showMagnifier
      ensures !changesMade
    {
      cfg.useLightRegionMaskColour := useLightBackground;
      cfg.rememberLastRectangularRegion := selection == UntilClosed || selection == Always;
      cfg.alwaysRememberRegion := selection == Always;
      cfg.showMagnifierChecked := showMagnifier;
      changesMade := false;
    }

    /** resetChanges: the page is loaded from the configuration, "until closed" checked before "always". */
    method ResetChanges(cfg: SpectacleConfig)
      modifies this
      ensures useLightBackground == cfg.useLightRegionMaskColour
      ensures showMagnifier == cfg.showMagnifierChecked
      ensures selection == ResetSelection(old(selection), RememberFlags(cfg.rememberLastRectangularRegion, cfg.alwaysRememberRegion))
      ensures !changesMade
    {
      useLightBackground := cfg.useLightRegionMaskColour;
      SetRememberChecked(UntilClosed, cfg.rememberLastRectangularRegion);
      SetRememberChecked(Always, cfg.alwaysRememberRegion);
      showMagnifier := cfg.showMagnifierChecked;
      changesMade := false;
    }
  }

  /**
   * Saving and then resetting a page gives back what it showed: the same
   * checkboxes, the same radio selection, and a clean page.
   */
  method SaveThenReset(page: GeneralOptionsPage, cfg: SpectacleConfig)
    modifies page, cfg
    ensures page.useLightBackground == old(page.useLightBackground)
    ensures page.showMagnifier == old(page.showMagnifier)
    ensures page.selection == old(page.selection)
    ensures !page.changesMade
  {
    page.SaveChanges(cfg);
    RememberRoundTrip(page.selection);
    page.ResetChanges(cfg);
  }
}
