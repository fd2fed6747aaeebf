/**
 * The API settings store: key, base URL, model name, the models the server
 * offers, a token limit and a seed. The base URL's default comes from the
 * environment when that holds an http(s) URL.
 */
module ApiSettings {
  import opened Wrappers

  /** One entry of the `GET {base}/models` listing. */
  datatype Model = Model(id: string, object: string, created: int, ownedBy: string)

  /** The base URL used when the environment offers none. */
  const LocalBaseUrl: string := "http://localhost:11434/v1"

  predicate StartsWith(s: string, prefix: string)
  {
    |prefix| <= |s| && s[..|prefix|] == prefix
  }

  /** The environment is consulted only in a browser, and only an http(s) URL is taken. */
  predicate UsableEnvBase(inBrowser: bool, envApiBase: Option<string>)
  {
    inBrowser && envApiBase.Some? && envApiBase.value != "" && StartsWith(envApiBase.value, "http")
  }

  /**
   * `getInitialApiBaseUrl`: the environment's `OPENAI_API_BASE` when it is set
   * and starts with "http" (and a window exists), the local server otherwise.
   */
  function InitialApiBaseUrl(inBrowser: bool, envApiBase: Option<string>): string
  {
    if UsableEnvBase(inBrowser, envApiBase) then envApiBase.value else LocalBaseUrl
  }

  /**
   * The environment's value is returned exactly when it is usable (or happens
   * to equal the local server's URL), the local server otherwise; either way
   * the result starts with "http".
   */
  lemma InitialApiBaseUrlSpec(inBrowser: bool, envApiBase: Option<string>)
    ensures envApiBase.Some? ==>
              (InitialApiBaseUrl(inBrowser, envApiBase) == envApiBase.value <==>
               UsableEnvBase(inBrowser, envApiBase) || envApiBase.value == LocalBaseUrl)
    ensures !UsableEnvBase(inBrowser, envApiBase) ==> InitialApiBaseUrl(inBrowser, envApiBase) == LocalBaseUrl
    ensures StartsWith(InitialApiBaseUrl(inBrowser, envApiBase), "http")
  {
    assert LocalBaseUrl[..4] == "http";
  }

  /** The stored values, as one record. */
  datatype Settings = Settings(
    apiKey: string,
    apiBaseUrl: string,
    modelName: string,
    availableModels: seq<Model>,
    maxTokens: int,
    seed: Option<int>)

  /** The initial state, which `clearAllSettings` also restores. */
  function DefaultSettings(inBrowser: bool, envApiBase: Option<string>): Settings
  {
    Settings("", InitialApiBaseUrl(inBrowser, envApiBase), "", [], 100, Some(1337))
  }

  /** What the models request answers: a status with a listing, or no answer at all. */
  datatype ModelsResponse =
    | Received(ok: bool, status: int, data: seq<Model>)
    | Unanswered(reason: string)

  /** The error `fetchAvailableModels` re-throws to its caller. */
  datatype FetchError = HttpStatus(status: int) | NetworkFailure(reason: string)

  class ApiSettingsStore {
    // The environment the store was created in.
    const inBrowser: bool
    const envApiBase: Option<string>

    var apiKey: string
    var apiBaseUrl: string
    var modelName: string
    var availableModels: seq<Model>
    var maxTokens: int
    var seed: Option<int>

    function Snapshot(): Settings
      reads this
    {
      Settings(apiKey, apiBaseUrl, modelName, availableModels, maxTokens, seed)
    }

    /** Store creation: empty key and model, no models, 100 tokens, seed 1337. */
    constructor (inBrowser: bool, envApiBase: Option<string>)
      ensures this.inBrowser == inBrowser && this.envApiBase == envApiBase
      ensures Snapshot() == DefaultSettings(inBrowser, envApiBase)
    {
      this.inBrowser := inBrowser;
      this.envApiBase := envApiBase;
      apiKey := "";
      apiBaseUrl := InitialApiBaseUrl(inBrowser, envApiBase);
      modelName := "";
      availableModels := [];
      maxTokens := 100;
      seed := Some(1337);
    }

    method SetApiKey(value: string)
      modifies this`apiKey
      ensures Snapshot() == old(Snapshot()).(apiKey := value)
    {
      apiKey := value;
    }

    method SetApiBaseUrl(value: string)
      modifies this`apiBaseUrl
      ensures Snapshot() == old(Snapshot()).(apiBaseUrl := value)
    {
      apiBaseUrl := value;
    }

    method SetModelName(value: string)
      modifies this`modelName
      ensures Snapshot() == old(Snapshot()).(modelName := value)
    {
      modelName := value;
    }

    method SetAvailableModels(models: seq<Model>)
      modifies this`availableModels
      ensures Snapshot() == old(Snapshot()).(availableModels := models)
    {
      availableModels := models;
    }

    method SetMaxTokens(value: int)
      modifies this`maxTokens
      ensures Snapshot() == old(Snapshot()).(maxTokens := value)
    {
      maxTokens := value;
    }

    method SetSeed(value: Option<int>)
      modifies this`seed
      ensures Snapshot() == old(Snapshot()).(seed := value)
    {
      seed := value;
    }

    /**
     * `fetchAvailableModels`: request `{base}/models`; a successful answer
     * replaces the model list, anything else leaves the store as it was and
     * is handed back to the caller as an error.
     */
    method FetchAvailableModels(response: ModelsResponse) returns (url: string, error: Option<FetchError>)
      modifies this`availableModels
      ensures url == old(apiBaseUrl) + "/models"
      ensures error.None? <==> response.Received? && response.ok
      ensures error.None? ==> Snapshot() == old(Snapshot()).(availableModels := response.data)
      ensures error.Some? ==> Snapshot() == old(Snapshot())
      ensures response.Received? && !response.ok ==> error == Some(HttpStatus(response.status))
    {
      url := apiBaseUrl + "/models";
      match response
      case Unanswered(reason) =>
        error := Some(NetworkFailure(reason));
      case Received(ok, status, data) =>
        if !ok {
          error := Some(HttpStatus(status));
        } else {
          availableModels := data;
          error := None;
        }
    }

    /** `clearAllSettings`: all six fields back to their initial values. */
    method ClearAllSettings()
      modifies this
      ensures Snapshot() == DefaultSettings(inBrowser, envApiBase)
    {
      apiKey := "";
      apiBaseUrl := InitialApiBaseUrl(inBrowser, envApiBase);
      modelName := "";
      availableModels := [];
      maxTokens := 100;
      seed := Some(1337);
    }
  }

  /** Clearing twice leaves the same state as clearing once. */
  method ClearTwiceIsClearOnce(store: ApiSettingsStore)
    modifies store
    ensures store.Snapshot() == DefaultSettings(store.inBrowser, store.envApiBase)
  {
    store.ClearAllSettings();
    ghost var once := store.Snapshot();
    store.ClearAllSettings();
    assert store.Snapshot() == once;
  }
}
