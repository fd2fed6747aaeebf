/** The store holding whether the decorative background is shown. */
module MagicBackground {

  class MagicBackgroundStore {
    var isBackgroundVisible: bool

    /** The background starts hidden. */
    constructor ()
      ensures !isBackgroundVisible
    {
      isBackgroundVisible := false;
    }

    /** `toggleBackground`: flip the flag. */
    method ToggleBackground()
      modifies this
      ensures isBackgroundVisible == !old(isBackgroundVisible)
    {
      isBackgroundVisible := !isBackgroundVisible;
    }

    /** `clearMagicBackgroundSettings`: hide the background, whatever the state. */
    method ClearMagicBackgroundSettings()
      modifies this
      ensures !isBackgroundVisible
    {
      isBackgroundVisible := false;
    }
  }

  /** Toggling twice restores the flag. */
  method ToggleTwiceRestores(store: MagicBackgroundStore)
    modifies store
    ensures store.isBackgroundVisible == old(store.isBackgroundVisible)
  {
    store.ToggleBackground();
    store.ToggleBackground();
  }

  /** Clearing twice is clearing once. */
  method ClearTwiceIsClearOnce(store: MagicBackgroundStore)
    modifies store
    ensures !store.isBackgroundVisible
  {
    store.ClearMagicBackgroundSettings();
    store.ClearMagicBackgroundSettings();
  }
}
