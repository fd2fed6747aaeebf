/**
 * The settings dialog: a local copy of key, base URL and model name that the
 * user edits, compares against the store (`isChanged`), saves into it or resets
 * from it, plus the "clear all settings" action that empties both stores.
 */
module SettingDialog {
  import opened Wrappers
  import opened ApiSettings
  import opened MagicBackground

  /** The token field starts as a number; typing into it stores the typed text. */
  datatype TokensInput = Tokens(n: int) | Typed(text: string)

  /** `localSettings`. */
  datatype LocalSettings = LocalSettings(
    apiKey: string,
    apiBaseUrl: string,
    modelName: string,
    maxTokens: TokensInput)

  /** The inputs of the dialog, named by the field they edit. */
  datatype Field = ApiKeyField | ApiBaseUrlField | ModelNameField | MaxTokensField

  /** `{ ...prev, [field]: value }` on the local settings. */
  function WithField(local: LocalSettings, field: Field, value: string): LocalSettings
  {
    match field
    case ApiKeyField => local.(apiKey := value)
    case ApiBaseUrlField => local.(apiBaseUrl := value)
    case ModelNameField => local.(modelName := value)
    case MaxTokensField => local.(maxTokens := Typed(value))
  }

  /** An input edits its own field, to the typed value, and no other field. */
  lemma WithFieldFrame(local: LocalSettings, field: Field, value: string)
    ensures var r := WithField(local, field, value);
            (if field == ApiKeyField then r.apiKey == value else r.apiKey == local.apiKey) &&
            (if field == ApiBaseUrlField then r.apiBaseUrl == value else r.apiBaseUrl == local.apiBaseUrl) &&
            (if field == ModelNameField then r.modelName == value else r.modelName == local.modelName) &&
            (if field == MaxTokensField then r.maxTokens == Typed(value) else r.maxTokens == local.maxTokens)
  {
  }

  /** The value `isChanged` gets: some of the three saved fields differs from the store. */
  predicate Differs(local: LocalSettings, apiKey: string, apiBaseUrl: string, modelName: string)
  {
    local.apiKey != apiKey || local.apiBaseUrl != apiBaseUrl || local.modelName != modelName
  }

  /** The local copy of the store's three fields, with the token field set back to 100. */
  function FromStore(apiKey: string, apiBaseUrl: string, modelName: string): LocalSettings
  {
    LocalSettings(apiKey, apiBaseUrl, modelName, Tokens(100))
  }

  /** The token field never counts as a change. */
  lemma DiffersIgnoresTokens(local: LocalSettings, tokens: TokensInput, apiKey: string, apiBaseUrl: string, modelName: string)
    ensures Differs(local.(maxTokens := tokens), apiKey, apiBaseUrl, modelName) == Differs(local, apiKey, apiBaseUrl, modelName)
  {
  }

  /** A copy taken from the store is unchanged with respect to it. */
  lemma FromStoreUnchanged(apiKey: string, apiBaseUrl: string, modelName: string)
    ensures !Differs(FromStore(apiKey, apiBaseUrl, modelName), apiKey, apiBaseUrl, modelName)
  {
  }

  /**
   * One edit to a copy that matched the store is a change exactly when it
   * puts a different value into one of the three saved fields.
   */
  lemma EditMakesChange(apiKey: string, apiBaseUrl: string, modelName: string, field: Field, value: string)
    ensures Differs(WithField(FromStore(apiKey, apiBaseUrl, modelName), field, value), apiKey, apiBaseUrl, modelName)
        <==> (field == ApiKeyField && value != apiKey) ||
             (field == ApiBaseUrlField && value != apiBaseUrl) ||
             (field == ModelNameField && value != modelName)
  {
  }

  /** `apiBaseUrl || "http://localhost:11434/v1"`: an empty URL falls back to the local server. */
  function OrLocalBaseUrl(url: string): string
  {
    if url == "" then LocalBaseUrl else url
  }

  class Setting {
    const store: ApiSettingsStore
    const background: MagicBackgroundStore

    var localSettings: LocalSettings
    var isChanged: bool
    var showApiKey: bool
    var isFetchingModels: bool

    /** The Save and Reset buttons are disabled exactly when nothing is changed. */
    function ButtonsDisabled(): bool
      reads this
    {
      !isChanged
    }

    /**
     * The dialog once its mount effects have run: the local copy is the
     * store's, the token field 100, and nothing is changed.
     */
    constructor (store: ApiSettingsStore, background: MagicBackgroundStore)
      ensures this.store == store && this.background == background
      ensures localSettings == FromStore(store.apiKey, store.apiBaseUrl, store.modelName)
      ensures !isChanged && !showApiKey && !isFetchingModels
    {
      this.store := store;
      this.background := background;
      localSettings := FromStore(store.apiKey, store.apiBaseUrl, store.modelName);
      isChanged := false;
      showApiKey := false;
      isFetchingModels := false;
    }

    /** The effect run when the store's key, URL or model changes: copy them in. */
    method SyncFromStore()
      modifies this`localSettings
      ensures localSettings == FromStore(store.apiKey, store.apiBaseUrl, store.modelName)
    {
      localSettings := LocalSettings(store.apiKey, store.apiBaseUrl, store.modelName, Tokens(100));
    }

    /** The effect run after every change of the local copy or the store: recompute `isChanged`. */
    method UpdateIsChanged()
      modifies this`isChanged
      ensures isChanged == Differs(localSettings, store.apiKey, store.apiBaseUrl, store.modelName)
      ensures ButtonsDisabled() <==>
                localSettings.apiKey == store.apiKey &&
                localSettings.apiBaseUrl == store.apiBaseUrl &&
                localSettings.modelName == store.modelName
    {
      isChanged :=
        localSettings.apiKey != store.apiKey ||
        localSettings.apiBaseUrl != store.apiBaseUrl ||
        localSettings.modelName != store.modelName;
    }

    /** Typing into an input: that field of the local copy only. */
    method HandleInputChange(field: Field, value: string)
      modifies this`localSettings
      ensures localSettings == WithField(old(localSettings), field, value)
    {
      localSettings := WithField(localSettings, field, value);
    }

    /** Save: the store takes the three fields; the token field is never stored. */
    method HandleSave()
      modifies store`apiKey, store`apiBaseUrl, store`modelName
      ensures store.Snapshot() == old(store.Snapshot()).(
                apiKey := localSettings.apiKey,
                apiBaseUrl := localSettings.apiBaseUrl,
                modelName := localSettings.modelName)
      ensures !Differs(localSettings, store.apiKey, store.apiBaseUrl, store.modelName)
    {
      store.SetApiKey(localSettings.apiKey);
      store.SetApiBaseUrl(localSettings.apiBaseUrl);
      store.SetModelName(localSettings.modelName);
    }

    /** Reset: the local copy is the store's again. */
    method HandleReset()
      modifies this`localSettings
      ensures localSettings == FromStore(store.apiKey, store.apiBaseUrl, store.modelName)
      ensures !Differs(localSettings, store.apiKey, store.apiBaseUrl, store.modelName)
    {
      localSettings := LocalSettings(store.apiKey, store.apiBaseUrl, store.modelName, Tokens(100));
    }

    method ToggleShowApiKey()
      modifies this`showApiKey
      ensures showApiKey == !old(showApiKey)
    {
      showApiKey := !showApiKey;
    }

    /**
     * Fetch the model list through the store; the busy flag is raised for the
     * request and lowered after it. The result tells which notice is shown.
     */
    method HandleFetchModels(response: ModelsResponse) returns (succeeded: bool)
      modifies store`availableModels, this`isFetchingModels
      ensures !isFetchingModels
      ensures succeeded <==> response.Received? && response.ok
      ensures succeeded ==> store.Snapshot() == old(store.Snapshot()).(availableModels := response.data)
      ensures !succeeded ==> store.Snapshot() == old(store.Snapshot())
    {
      isFetchingModels := true;
      var _, error := store.FetchAvailableModels(response);
      succeeded := error.None?;
      isFetchingModels := false;
    }

    /**
     * Clear everything: both stores go back to their defaults and the local
     * copy gets an empty key and model, the token field 100, and the URL the
     * store held before clearing (or the local server's when that was empty).
     */
    method HandleClearAllSettings()
      modifies store, background, this`localSettings
      ensures store.Snapshot() == DefaultSettings(store.inBrowser, store.envApiBase)
      ensures !background.isBackgroundVisible
      ensures localSettings == LocalSettings("", OrLocalBaseUrl(old(store.apiBaseUrl)), "", Tokens(100))
    {
      var previousBaseUrl := store.apiBaseUrl;
      store.ClearAllSettings();
      background.ClearMagicBackgroundSettings();
      localSettings := LocalSettings("", OrLocalBaseUrl(previousBaseUrl), "", Tokens(100));
    }
  }

  /** Reset followed by the `isChanged` effect leaves nothing changed; resetting again changes nothing. */
  method ResetThenRender(dialog: Setting)
    modifies dialog
    ensures dialog.localSettings == FromStore(dialog.store.apiKey, dialog.store.apiBaseUrl, dialog.store.modelName)
    ensures !dialog.isChanged && dialog.ButtonsDisabled()
  {
    dialog.HandleReset();
    ghost var once := dialog.localSettings;
    dialog.HandleReset();
    assert dialog.localSettings == once;
    dialog.UpdateIsChanged();
  }

  /** Save followed by the store-sync and `isChanged` effects leaves nothing changed. */
  method SaveThenRender(dialog: Setting)
    modifies dialog, dialog.store
    ensures !dialog.isChanged
    ensures dialog.localSettings.maxTokens == Tokens(100)
  {
    dialog.HandleSave();
    dialog.SyncFromStore();
    dialog.UpdateIsChanged();
  }

  /** Clearing, then the store-sync effect: the local copy is the cleared store's. */
  method ClearThenRender(dialog: Setting)
    modifies dialog, dialog.store, dialog.background
    ensures dialog.localSettings ==
              FromStore("", InitialApiBaseUrl(dialog.store.inBrowser, dialog.store.envApiBase), "")
    ensures !dialog.isChanged
  {
    dialog.HandleClearAllSettings();
    dialog.SyncFromStore();
    dialog.UpdateIsChanged();
  }
}
