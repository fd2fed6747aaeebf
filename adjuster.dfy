/**
 * The rewrite orchestrator: input text and the current parameter vector feed a
 * debounced generation call against a chat-completion endpoint; a successful
 * answer moves the current output and its parameters to "previous", a failure
 * shows an error placeholder instead.
 */
module Adjuster {
  import opened Wrappers
  import opened Parameters
  import opened ApiSettings
  import Grid

  // ---------------------------------------------------------------------------
  // Whitespace trimming (`String.prototype.trim`)

  /** The characters `trim` removes: ECMAScript white space and line terminators. */
  predicate IsSpace(c: char)
  {
    c == ' ' || c == '\t' || c == '\n' || c == '\r' || c == '\U{000B}' || c == '\U{000C}' ||
    c == '\U{00A0}' || c == '\U{1680}' || ('\U{2000}' <= c <= '\U{200A}') ||
    c == '\U{2028}' || c == '\U{2029}' || c == '\U{202F}' || c == '\U{205F}' ||
    c == '\U{3000}' || c == '\U{FEFF}'
  }

  /** The length of the run of white space at the start of `s`. */
  function LeadingSpace(s: string): (n: nat)
    ensures n <= |s|
    ensures forall i :: 0 <= i < n ==> IsSpace(s[i])
    ensures n < |s| ==> !IsSpace(s[n])
  {
    if |s| == 0 || !IsSpace(s[0]) then 0 else 1 + LeadingSpace(s[1..])
  }

  /** The length of the run of white space at the end of `s`. */
  function TrailingSpace(s: string): (n: nat)
    ensures n <= |s|
    ensures forall i :: |s| - n <= i < |s| ==> IsSpace(s[i])
    ensures n < |s| ==> !IsSpace(s[|s| - 1 - n])
  {
    if |s| == 0 || !IsSpace(s[|s| - 1]) then 0 else 1 + TrailingSpace(s[..|s| - 1])
  }

  /** `s.trim()`. */
  function Trim(s: string): string
  {
    var t := s[LeadingSpace(s)..];
    t[..|t| - TrailingSpace(t)]
  }

  /**
   * `trim` returns the part of `s` between its leading and trailing white space:
   * a slice of `s` that neither starts nor ends with white space, everything
   * cut off being white space.
   */
  lemma TrimSpec(s: string)
    ensures var a := LeadingSpace(s);
            var r := Trim(s);
            a + |r| <= |s| && r == s[a..a + |r|] &&
            (forall i :: 0 <= i < a ==> IsSpace(s[i])) &&
            (forall i :: a + |r| <= i < |s| ==> IsSpace(s[i])) &&
            (r != [] ==> !IsSpace(r[0]) && !IsSpace(r[|r| - 1]))
  {
    var a := LeadingSpace(s);
    var t := s[a..];
    var b := TrailingSpace(t);
    var r := Trim(s);
    assert r == t[..|t| - b];
    TrimTail(s, a, t, b);
    if r != [] {
      assert r[0] == t[0];
      assert r[|r| - 1] == t[|t| - 1 - b];
    }
  }

  /** What the trailing cut removes from the rest `t` of `s` is white space of `s`. */
  lemma TrimTail(s: string, a: nat, t: string, b: nat)
    requires a <= |s| && t == s[a..]
    requires b <= |t| && forall i :: |t| - b <= i < |t| ==> IsSpace(t[i])
    ensures forall i :: a + (|t| - b) <= i < |s| ==> IsSpace(s[i])
  {
    forall i | a + (|t| - b) <= i < |s| ensures IsSpace(s[i]) {
      assert s[i] == t[i - a];
    }
  }

  /** Text without surrounding white space is left as it is; so trimming twice is trimming once. */
  lemma TrimIdempotent(s: string)
    ensures Trim(Trim(s)) == Trim(s)
  {
    var r := Trim(s);
    TrimSpec(s);
    assert LeadingSpace(r) == 0;
    assert TrailingSpace(r) == 0;
    assert r[0..] == r;
  }

  // ---------------------------------------------------------------------------
  // The request

  datatype Message = Message(role: string, content: string)

  /** The values that occur in the request body. */
  datatype Json = JString(s: string) | JNumber(n: real) | JMessages(messages: seq<Message>)

  /** The fixed instruction sent as the system message (the component's template literal, indentation included). */
  const SystemMessage: string :=
    "You are a skilled writer tasked with rewriting text.\n" +
    "        Adjust the input text while maintaining its original meaning and intent.\n" +
    "        DO NOT mention or explain the adjustment process or parameters in your response."

  const UserPrefix: string := "Rewrite the following text: \""

  /** The user message: the input text, quoted, after a fixed instruction. */
  function UserMessage(text: string): string
  {
    UserPrefix + text + "\""
  }

  /** The input text back out of a user message. */
  function QuotedText(message: string): string
    requires |UserPrefix| < |message|
  {
    message[|UserPrefix|..|message| - 1]
  }

  /** The user message carries the input text unaltered. */
  lemma UserMessageRoundTrip(text: string)
    ensures |UserPrefix| < |UserMessage(text)|
    ensures QuotedText(UserMessage(text)) == text
  {
    var m := UserMessage(text);
    assert |UserPrefix| == 29;
    assert m[29..|m| - 1] == text;
  }

  /**
   * `{ model, messages: [system, user], max_tokens, ...params }`; keys spread
   * from `params` come last and so win over the fixed ones.
   */
  function RequestBody(modelName: string, maxTokens: int, text: string, params: ParameterVector): map<string, Json>
  {
    map[
      "model" := JString(modelName),
      "messages" := JMessages([Message("system", SystemMessage), Message("user", UserMessage(text))]),
      "max_tokens" := JNumber(maxTokens as real)
    ] + map k | k in params :: JNumber(params[k])
  }

  /** The keys a parameter vector must avoid so as not to overwrite a fixed field. */
  predicate NoFixedKeys(params: ParameterVector)
  {
    "model" !in params && "messages" !in params && "max_tokens" !in params
  }

  /**
   * The body holds the three fixed fields and every parameter with its value,
   * and nothing else; the fixed fields keep their values unless a parameter
   * of the same name overwrites them; there are exactly two messages, system
   * then user, the user one quoting the text.
   */
  lemma RequestBodySpec(modelName: string, maxTokens: int, text: string, params: ParameterVector)
    ensures var body := RequestBody(modelName, maxTokens, text, params);
            body.Keys == {"model", "messages", "max_tokens"} + params.Keys &&
            (forall k :: k in params ==> body[k] == JNumber(params[k])) &&
            ("model" !in params ==> body["model"] == JString(modelName)) &&
            ("max_tokens" !in params ==> body["max_tokens"] == JNumber(maxTokens as real)) &&
            ("messages" !in params ==>
               body["messages"].JMessages? && |body["messages"].messages| == 2 &&
               body["messages"].messages[0] == Message("system", SystemMessage) &&
               body["messages"].messages[1] == Message("user", UserPrefix + text + "\"") &&
               QuotedText(body["messages"].messages[1].content) == text)
  {
    UserMessageRoundTrip(text);
  }

  /** No catalogue key of the grid clashes with a fixed field. */
  lemma GridKeysAvoidFixedFields(params: ParameterVector)
    requires params.Keys <= Grid.GridParameters().Keys
    ensures NoFixedKeys(params)
  {
  }

  /** The call to the completion endpoint. */
  datatype Request = Request(url: string, authorization: string, body: map<string, Json>)

  function CompletionRequest(apiKey: string, apiBaseUrl: string, modelName: string, maxTokens: int,
                             text: string, params: ParameterVector): Request
  {
    Request(apiBaseUrl + "/chat/completions", "Bearer " + apiKey, RequestBody(modelName, maxTokens, text, params))
  }

  // ---------------------------------------------------------------------------
  // The response

  /**
   * What comes back: a status with, when the body has one, the first choice's
   * message content; or no answer at all.
   */
  datatype CompletionResponse =
    | Answered(ok: bool, status: int, content: Option<string>)
    | NoAnswer(reason: string)

  /** The new output a response yields, or `None` for the error path. */
  function NewOutput(response: CompletionResponse): Option<string>
  {
    match response
    case NoAnswer(_) => None
    case Answered(ok, _, content) =>
      if !ok then None
      else match content
        case None => None
        case Some(c) => Some(Trim(c))
  }

  /**
   * A response succeeds exactly when it is an ok answer with content; a
   * non-ok status, a missing content or no answer all take the error path.
   */
  lemma NewOutputSpec(response: CompletionResponse)
    ensures NewOutput(response).Some? <==> response.Answered? && response.ok && response.content.Some?
    ensures NewOutput(response).Some? ==> NewOutput(response).value == Trim(response.content.value)
    ensures response.Answered? && !response.ok ==> NewOutput(response) == None
  {
  }

  const ErrorPlaceholder: string := "Error adjusting text"

  /** Generation is only attempted for text of more than three characters. */
  predicate LongEnough(text: string)
  {
    |text| > 3
  }

  // ---------------------------------------------------------------------------
  // The component

  /** The parameters the component starts with. */
  function InitialParams(): ParameterVector
  {
    map[
      "temperature" := 0.7, "top_p" := 0.9, "top_k" := 50.0, "frequency_penalty" := 0.0,
      "presence_penalty" := 0.0, "repetition_penalty" := 1.0, "length_penalty" := 0.0,
      "diversity_penalty" := 0.0]
  }

  /** They are exactly the defaults of the grid's catalogue. */
  lemma InitialParamsAreGridDefaults()
    ensures InitialParams() == Defaults(Grid.GridParameters())
  {
    var d := Defaults(Grid.GridParameters());
    assert d.Keys == InitialParams().Keys;
  }

  /**
   * One call of the debounced generator: the arguments, and the output text and
   * parameters that the generator's closure saw when it was called (those are
   * what a success moves to "previous").
   */
  datatype Invocation = Invocation(text: string, params: ParameterVector, seenOutput: string, seenParams: ParameterVector)

  class ToneAdjuster {
    var inputText: string
    var outputText: string
    var previousOutput: string
    var currentParams: ParameterVector
    var previousParams: Option<ParameterVector>
    var isLoading: bool
    /** The debouncer's register: the latest call not yet run. */
    var pending: Option<Invocation>
    /** The call whose request is awaiting its response. */
    var inFlight: Option<Invocation>

    constructor ()
      ensures inputText == "" && outputText == "" && previousOutput == ""
      ensures currentParams == InitialParams() && previousParams == None
      ensures !isLoading && pending == None && inFlight == None
    {
      inputText, outputText, previousOutput := "", "", "";
      currentParams := InitialParams();
      previousParams := None;
      isLoading := false;
      pending, inFlight := None, None;
    }

    /** The text box changed: store the text; call the generator only for more than three characters. */
    method HandleInputChange(text: string)
      modifies this`inputText, this`pending
      ensures inputText == text
      ensures LongEnough(text) ==> pending == Some(Invocation(text, currentParams, outputText, currentParams))
      ensures !LongEnough(text) ==> pending == old(pending)
    {
      inputText := text;
      if |text| > 3 {
        pending := Some(Invocation(text, currentParams, outputText, currentParams));
      }
    }

    /**
     * The parameter surface reported a new vector: store it; call the
     * generator with it only if the current text has more than three characters.
     */
    method HandleParameterChange(newParameters: ParameterVector)
      modifies this`currentParams, this`pending
      ensures currentParams == newParameters
      ensures LongEnough(inputText) ==>
                pending == Some(Invocation(inputText, newParameters, outputText, old(currentParams)))
      ensures !LongEnough(inputText) ==> pending == old(pending)
    {
      var seen := currentParams;
      currentParams := newParameters;
      if |inputText| > 3 {
        pending := Some(Invocation(inputText, newParameters, outputText, seen));
      }
    }

    /**
     * The debounce delay elapsed: run the latest pending call. Text of three
     * characters or fewer does nothing; otherwise the loading flag goes up and
     * the completion request is issued.
     */
    method StartGeneration(settings: ApiSettingsStore) returns (request: Option<Request>)
      modifies this`pending, this`inFlight, this`isLoading
      ensures pending == None
      ensures old(pending).None? || !LongEnough(old(pending).value.text) ==>
                request == None && inFlight == old(inFlight) && isLoading == old(isLoading)
      ensures old(pending).Some? && LongEnough(old(pending).value.text) ==>
                var call := old(pending).value;
                isLoading && inFlight == Some(call) &&
                request == Some(CompletionRequest(settings.apiKey, settings.apiBaseUrl, settings.modelName,
                                                  settings.maxTokens, call.text, call.params))
    {
      request := None;
      if pending.Some? {
        var call := pending.value;
        pending := None;
        if |call.text| > 3 {
          isLoading := true;
          inFlight := Some(call);
          request := Some(CompletionRequest(settings.apiKey, settings.apiBaseUrl, settings.modelName,
                                            settings.maxTokens, call.text, call.params));
        }
      }
    }

    /**
     * The response arrived. Success: the output and parameters the call saw
     * become "previous", the trimmed content and the sent parameters become
     * current. Failure: only the output changes, to the error placeholder.
     * Either way the loading flag goes down.
     */
    method FinishGeneration(response: CompletionResponse)
      modifies this`outputText, this`previousOutput, this`currentParams, this`previousParams,
               this`isLoading, this`inFlight
      ensures old(inFlight).None? ==>
                outputText == old(outputText) && previousOutput == old(previousOutput) &&
                currentParams == old(currentParams) && previousParams == old(previousParams) &&
                isLoading == old(isLoading) && inFlight == None
      ensures old(inFlight).Some? ==> !isLoading && inFlight == None
      ensures old(inFlight).Some? && NewOutput(response).Some? ==>
                var call := old(inFlight).value;
                previousOutput == call.seenOutput && previousParams == Some(call.seenParams) &&
                outputText == NewOutput(response).value && currentParams == call.params
      ensures old(inFlight).Some? && NewOutput(response).None? ==>
                outputText == ErrorPlaceholder && previousOutput == old(previousOutput) &&
                previousParams == old(previousParams) && currentParams == old(currentParams)
    {
      if inFlight.Some? {
        var call := inFlight.value;
        var result := NewOutput(response);
        if result.Some? {
          previousOutput := call.seenOutput;
          previousParams := Some(call.seenParams);
          outputText := result.value;
          currentParams := call.params;
        } else {
          outputText := ErrorPlaceholder;
        }
        isLoading := false;
        inFlight := None;
      }
    }
  }

  /**
   * Typing a short text after the component is idle never produces a request,
   * however often the parameters change meanwhile.
   */
  method ShortTextNeverRequests(adjuster: ToneAdjuster, settings: ApiSettingsStore,
                                text: string, params: seq<ParameterVector>)
    returns (request: Option<Request>)
    requires adjuster.pending == None && !LongEnough(text)
    modifies adjuster
    ensures request == None && adjuster.pending == None
    ensures adjuster.isLoading == old(adjuster.isLoading) && adjuster.inFlight == old(adjuster.inFlight)
  {
    adjuster.HandleInputChange(text);
    var i := 0;
    while i < |params|
      invariant 0 <= i <= |params|
      invariant adjuster.inputText == text && adjuster.pending == None
      invariant adjuster.isLoading == old(adjuster.isLoading) && adjuster.inFlight == old(adjuster.inFlight)
    {
      adjuster.HandleParameterChange(params[i]);
      i := i + 1;
    }
    request := adjuster.StartGeneration(settings);
  }

  /** A successful cycle: the old output and parameters move to "previous". */
  method SuccessfulCycle(adjuster: ToneAdjuster, settings: ApiSettingsStore, text: string, content: string)
    requires LongEnough(text) && adjuster.inFlight == None
    modifies adjuster
    ensures adjuster.previousOutput == old(adjuster.outputText)
    ensures adjuster.previousParams == Some(old(adjuster.currentParams))
    ensures adjuster.outputText == Trim(content)
    ensures adjuster.currentParams == old(adjuster.currentParams)
    ensures !adjuster.isLoading
  {
    adjuster.HandleInputChange(text);
    var request := adjuster.StartGeneration(settings);
    assert adjuster.isLoading;
    adjuster.FinishGeneration(Answered(true, 200, Some(content)));
  }
}
