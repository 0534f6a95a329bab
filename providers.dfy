/**
 * The shared part of kitchen/infrastructure/external_services/llm/providers: the provider
 * exceptions, the parameter values the providers pass to the agent, the chat-message
 * flattening both providers perform, and `ProviderFactory`, whose class-level registry
 * and instance table are mutated by `register`, `get_provider` and `reset`.
 */
module LLMProviders {
  import opened Wrappers
  import opened Text

  /** The classes of providers/exceptions.py; every one but ProviderError derives from it. */
  datatype ErrorKind =
    | ProviderError
    | AuthenticationError
    | RateLimitError
    | InvalidResponseError
    | ConfigurationError
    | SchemaValidationError

  /** An exception a provider raises: a ValueError, or one of the provider exceptions. */
  datatype Raised = ValueError(message: string) | ProviderFailure(kind: ErrorKind, message: string)

  /** An exception the agent (or the code around it) raised inside a provider's `try`. */
  datatype AgentFailure = AgentValueError(text: string) | AgentError(text: string)

  /** A keyword-argument or configuration value: None, a number (int, float or bool) or text. */
  datatype Value = NoneValue | Number(n: real) | Text(s: string)

  /** A chat message: the dictionary of its keys. */
  type Message = map<string, string>

  /** The message both providers raise for a message without "role" or "content". */
  const MissingKeysMessage := "Each message must have 'role' and 'content' keys"

  predicate HasRoleAndContent(m: Message)
  {
    "role" in m && "content" in m
  }

  predicate AllHaveRoleAndContent(ms: seq<Message>)
  {
    forall i :: 0 <= i < |ms| ==> HasRoleAndContent(ms[i])
  }

  lemma AllHaveRoleAndContentOfLonger(ms: seq<Message>, i: nat)
    requires i < |ms| && AllHaveRoleAndContent(ms[..i]) && HasRoleAndContent(ms[i])
    ensures AllHaveRoleAndContent(ms[..i + 1])
  {
    var longer := ms[..i + 1];
    forall k | 0 <= k < |longer| ensures HasRoleAndContent(longer[k]) {
      if k < i {
        assert longer[k] == ms[..i][k];
      }
    }
  }

  /** The roles the flattening writes a line for. */
  predicate KnownRole(role: string)
  {
    role == "user" || role == "model" || role == "assistant" || role == "system"
  }

  /** The speaker label of a known role. */
  function Speaker(role: string): string
    requires KnownRole(role)
  {
    if role == "user" then "User: "
    else if role == "system" then "System: "
    else "Assistant: "
  }

  /**
   * The line one message contributes: its speaker, its content and a newline; nothing
   * for another role. (A message without both keys is refused before any line is
   * written; it contributes nothing here.)
   */
  function ChatLine(m: Message): (line: string)
    ensures line == "" <==> !Speaks(m)
    ensures line != "" ==> line[|line| - 1] == '\n'
  {
    if !HasRoleAndContent(m) then ""
    else
      var role := m["role"];
      if role == "user" then "User: " + m["content"] + "\n"
      else if role == "model" || role == "assistant" then "Assistant: " + m["content"] + "\n"
      else if role == "system" then "System: " + m["content"] + "\n"
      else ""
  }

  /** Each known role gets its speaker label; every other role is silent. */
  lemma ChatLineSpec(m: Message)
    requires HasRoleAndContent(m)
    ensures KnownRole(m["role"]) ==> ChatLine(m) == Speaker(m["role"]) + m["content"] + "\n"
    ensures !KnownRole(m["role"]) ==> ChatLine(m) == ""
  {
  }

  /** The lines of the messages, in order. */
  function Transcript(ms: seq<Message>): (t: string)
    ensures t == "" <==> forall i :: 0 <= i < |ms| ==> !Speaks(ms[i])
  {
    if |ms| == 0 then ""
    else Transcript(ms[..|ms| - 1]) + ChatLine(ms[|ms| - 1])
  }

  /** A message that writes a line. */
  predicate Speaks(m: Message)
  {
    HasRoleAndContent(m) && KnownRole(m["role"])
  }

  /** The messages that write a line, in order. */
  function KnownOnly(ms: seq<Message>): (r: seq<Message>)
    ensures forall i :: 0 <= i < |r| ==> Speaks(r[i]) && r[i] in ms
  {
    if |ms| == 0 then []
    else KnownOnly(ms[..|ms| - 1]) + (if Speaks(ms[|ms| - 1]) then [ms[|ms| - 1]] else [])
  }

  lemma DropLastOfAppend<X>(a: seq<X>, b: seq<X>)
    requires |b| > 0
    ensures (a + b)[..|a + b| - 1] == a + b[..|b| - 1]
    ensures (a + b)[|a + b| - 1] == b[|b| - 1]
  {
  }

  lemma ConcatAssoc(x: string, y: string, z: string)
    ensures (x + y) + z == x + (y + z)
  {
  }

  /** Extending a prefix of the messages by one message adds that message's line. */
  lemma TranscriptOfLonger(ms: seq<Message>, i: nat)
    requires i < |ms|
    ensures Transcript(ms[..i + 1]) == Transcript(ms[..i]) + ChatLine(ms[i])
  {
    assert ms[..i + 1][..i] == ms[..i];
  }

  /** The transcript of a conversation is the transcript of its beginning followed by that of its end. */
  lemma {:induction false} TranscriptAppend(a: seq<Message>, b: seq<Message>)
    ensures Transcript(a + b) == Transcript(a) + Transcript(b)
  {
    if |b| == 0 {
      assert a + b == a;
    } else {
      var init := b[..|b| - 1];
      TranscriptAppend(a, init);
      DropLastOfAppend(a, b);
      ConcatAssoc(Transcript(a), Transcript(init), ChatLine(b[|b| - 1]));
    }
  }

  /**
   * Messages of another role leave no trace: the transcript is that of the known-role
   * messages alone, each written as its speaker, content and newline.
   */
  lemma {:induction false} TranscriptSkipsUnknownRoles(ms: seq<Message>)
    ensures Transcript(ms) == Transcript(KnownOnly(ms))
  {
    if |ms| > 0 {
      var init := ms[..|ms| - 1];
      var last := ms[|ms| - 1];
      TranscriptSkipsUnknownRoles(init);
      if Speaks(last) {
        TranscriptAppend(KnownOnly(init), [last]);
        assert [last][..0] == [];
      } else {
        assert KnownOnly(ms) == KnownOnly(init);
      }
    }
  }

  // ---------------------------------------------------------------------------
  // ProviderFactory
  // ---------------------------------------------------------------------------

  /** `ProviderType`, with the value an f-string renders. */
  datatype ProviderType = Gemini | OpenAI | Anthropic
  {
    function Value(): string
    {
      match this
      case Gemini => "gemini"
      case OpenAI => "openai"
      case Anthropic => "anthropic"
    }
  }

  /** A provider class, by name. */
  datatype ProviderClass = ProviderClass(name: string)

  /** A provider instance: the class it was built from and the keyword arguments it was built with. */
  class ProviderInstance {
    const cls: ProviderClass
    const kwargs: map<string, Value>

    constructor (cls: ProviderClass, kwargs: map<string, Value>)
      ensures this.cls == cls && this.kwargs == kwargs
    {
      this.cls := cls;
      this.kwargs := kwargs;
    }
  }

  /** The ConfigurationError `get_provider` raises for a type with no registered class. */
  function NotRegisteredError(t: ProviderType): (e: Raised)
    ensures e.ProviderFailure? && e.kind == ConfigurationError
    ensures StartsWith(e.message, "Provider ") && Contains(e.message, t.Value())
  {
    assert ("Provider " + t.Value() + " not registered")[..9] == "Provider ";
    assert OccursAt("Provider " + t.Value() + " not registered", t.Value(), 9);
    ProviderFailure(ConfigurationError, "Provider " + t.Value() + " not registered")
  }

  /** `ProviderFactory`: the class-level `_registry` and `_instances` dictionaries. */
  class ProviderFactory {
    var registry: map<ProviderType, ProviderClass>
    var instances: map<ProviderType, ProviderInstance>

    /** The state at import: nothing registered, nothing built. */
    constructor ()
      ensures registry == map[] && instances == map[]
    {
      registry := map[];
      instances := map[];
    }

    /** `register`: the class is recorded, replacing any earlier one; instances are untouched. */
    method Register(t: ProviderType, cls: ProviderClass)
      modifies this
      ensures registry == old(registry)[t := cls]
      ensures instances == old(instances)
    {
      registry := registry[t := cls];
    }

    /**
     * `get_provider`. An existing instance is returned whatever the registry and the
     * keyword arguments say; without one, an unregistered type is refused, and otherwise
     * the registered class is built with the keyword arguments and kept. `initFailure`
     * is the exception that class's constructor raises with these arguments, if any; it
     * propagates and nothing is kept.
     */
    method GetProvider(t: ProviderType, kwargs: map<string, Value>, initFailure: Option<Raised>)
      returns (r: Result<ProviderInstance, Raised>)
      modifies this
      ensures registry == old(registry)
      ensures t in old(instances) ==> r == Ok(old(instances)[t]) && instances == old(instances)
      ensures t !in old(instances) && t !in registry ==> r == Err(NotRegisteredError(t)) && instances == old(instances)
      ensures t !in old(instances) && t in registry && initFailure.Some? ==>
        r == Err(initFailure.value) && instances == old(instances)
      ensures t !in old(instances) && t in registry && initFailure.None? ==>
        r.Ok? && fresh(r.value) && r.value.cls == registry[t] && r.value.kwargs == kwargs &&
        instances == old(instances)[t := r.value]
    {
      if t !in instances {
        if t !in registry {
          return Err(NotRegisteredError(t));
        }
        if initFailure.Some? {
          return Err(initFailure.value);
        }
        var instance := new ProviderInstance(registry[t], kwargs);
        instances := instances[t := instance];
      }
      return Ok(instances[t]);
    }

    /** `reset`: every instance is dropped; the registrations survive. */
    method Reset()
      modifies this
      ensures instances == map[]
      ensures registry == old(registry)
    {
      instances := map[];
    }
  }

  /**
   * The first successful `get_provider` builds one instance; a second call, with any
   * keyword arguments and even after the type was registered again with another class,
   * returns that same instance; after `reset` the next call builds a new one.
   */
  method InstanceReuse(f: ProviderFactory, t: ProviderType, k1: map<string, Value>, k2: map<string, Value>,
                       other: ProviderClass)
    requires t !in f.instances && t in f.registry
    modifies f
    ensures f.registry == old(f.registry)[t := other]
  {
    var first := f.GetProvider(t, k1, None);
    assert first.Ok? && first.value.kwargs == k1;
    f.Register(t, other);
    var second := f.GetProvider(t, k2, None);
    assert second == first;
    assert second.value.cls == old(f.registry)[t];
    f.Reset();
    var third := f.GetProvider(t, k2, None);
    assert third.Ok? && third.value != first.value && third.value.cls == other;
  }
}

/**
 * kitchen/infrastructure/external_services/llm/providers/gemini/services.py: the guards,
 * the merge of the configuration with the call's keyword arguments, the chat flattening
 * into one prompt, and the classification of failures. The agent is a parameter.
 */
module GeminiService {
  import opened Wrappers
  import opened Text
  import opened LLMProviders

  /** The `GeminiConfig` values the provider passes on. */
  datatype GeminiConfig = GeminiConfig(temperature: real, maxOutputTokens: Option<int>, topP: real, topK: int)

  /** The configuration's defaults, before the call's keyword arguments. */
  function Defaults(cfg: GeminiConfig): map<string, Value>
  {
    map["temperature" := Number(cfg.temperature),
        "max_tokens" := if cfg.maxOutputTokens.Some? then Number(cfg.maxOutputTokens.value as real) else NoneValue,
        "top_p" := Number(cfg.topP),
        "top_k" := Number(cfg.topK as real)]
  }

  /** What comparing a text `max_tokens` with 0 raises. */
  const TypeErrorText := "'<=' not supported between instances of 'str' and 'int'"

  /**
   * The params dictionary: the defaults overridden by the keyword arguments, with a
   * `max_tokens` of at most 0 popped. A text `max_tokens` cannot be compared with 0 and
   * raises a TypeError inside the `try`.
   */
  function MergedParams(cfg: GeminiConfig, kwargs: map<string, Value>): (r: Result<map<string, Value>, string>)
    ensures r.Err? <==> (var merged := Defaults(cfg) + kwargs; merged["max_tokens"].Text?)
    ensures r.Err? ==> r.error == TypeErrorText
    ensures r.Ok? ==> forall k :: k != "max_tokens" ==>
      (k in r.value <==> k in kwargs || k in Defaults(cfg)) &&
      (k in r.value ==> r.value[k] == if k in kwargs then kwargs[k] else Defaults(cfg)[k])
    ensures r.Ok? ==> var mt := if "max_tokens" in kwargs then kwargs["max_tokens"] else Defaults(cfg)["max_tokens"];
      ("max_tokens" in r.value <==> !(mt.Number? && mt.n <= 0.0)) &&
      ("max_tokens" in r.value ==> r.value["max_tokens"] == mt)
  {
    var params := Defaults(cfg) + kwargs;
    match params["max_tokens"]
    case Text(_) => Err(TypeErrorText)
    case Number(n) => if n <= 0.0 then Ok(params - {"max_tokens"}) else Ok(params)
    case NoneValue => Ok(params)
  }

  /** A call value overrides the configured one, so the configured `max_tokens` is dropped when the call asks for 0 or less. */
  lemma NonPositiveMaxTokensDropped(cfg: GeminiConfig, kwargs: map<string, Value>, n: real)
    requires "max_tokens" in kwargs && kwargs["max_tokens"] == Number(n) && n <= 0.0
    ensures MergedParams(cfg, kwargs).Ok? && "max_tokens" !in MergedParams(cfg, kwargs).value
    ensures forall k :: k in kwargs && k != "max_tokens" ==> MergedParams(cfg, kwargs).value[k] == kwargs[k]
  {
  }

  /** The three operations whose failures are classified, each with its own messages. */
  datatype Operation = Generate | Extract | Chat

  function AuthenticationMessage(e: string): string { "Authentication failed with Gemini: " + e }
  function RateLimitMessage(e: string): string { "Rate limit exceeded with Gemini: " + e }

  /** The message of the InvalidResponseError each operation falls back to. */
  function FallbackMessage(op: Operation, e: string): string
  {
    match op
    case Generate => "Error with Gemini: " + e
    case Extract => "Failed to extract schema from Gemini response: " + e
    case Chat => "Error in Gemini chat: " + e
  }

  /** The substring tests on the lower-cased text of the exception, in the order each `except` performs them. */
  function Classify(op: Operation, e: string): (r: Raised)
    ensures r.ProviderFailure?
  {
    var lower := Lower(e);
    if Contains(lower, "authentication") || Contains(lower, "api key") ||
       (op == Generate && Contains(lower, "unauthorized")) then
      ProviderFailure(AuthenticationError, AuthenticationMessage(e))
    else if Contains(lower, "rate limit") || Contains(lower, "quota") then
      ProviderFailure(RateLimitError, RateLimitMessage(e))
    else if op == Extract && (Contains(lower, "schema") || Contains(lower, "validation")) then
      ProviderFailure(SchemaValidationError, FallbackMessage(Extract, e))
    else
      ProviderFailure(InvalidResponseError, FallbackMessage(op, e))
  }

  /**
   * The classification reads the text without regard to case, keeps the exception's text
   * in its message, and never yields a SchemaValidationError outside `extract`.
   */
  lemma ClassifySpec(op: Operation, e: string, e': string)
    ensures Lower(e) == Lower(e') ==> Classify(op, e).kind == Classify(op, e').kind
    ensures Classify(op, e).kind in {AuthenticationError, RateLimitError, SchemaValidationError, InvalidResponseError}
    ensures Classify(op, e).kind == SchemaValidationError ==> op == Extract
    ensures Classify(op, e).kind == AuthenticationError <==>
      Contains(Lower(e), "authentication") || Contains(Lower(e), "api key") ||
      (op == Generate && Contains(Lower(e), "unauthorized"))
    ensures Classify(op, e).kind == RateLimitError <==>
      !(Contains(Lower(e), "authentication") || Contains(Lower(e), "api key") ||
        (op == Generate && Contains(Lower(e), "unauthorized"))) &&
      (Contains(Lower(e), "rate limit") || Contains(Lower(e), "quota"))
    ensures Classify(op, e).kind == SchemaValidationError <==>
      !(Contains(Lower(e), "authentication") || Contains(Lower(e), "api key") ||
        (op == Generate && Contains(Lower(e), "unauthorized"))) &&
      !(Contains(Lower(e), "rate limit") || Contains(Lower(e), "quota")) &&
      op == Extract && (Contains(Lower(e), "schema") || Contains(Lower(e), "validation"))
    ensures Classify(op, e).kind == InvalidResponseError <==>
      !(Contains(Lower(e), "authentication") || Contains(Lower(e), "api key") ||
        (op == Generate && Contains(Lower(e), "unauthorized"))) &&
      !(Contains(Lower(e), "rate limit") || Contains(Lower(e), "quota")) &&
      !(op == Extract && (Contains(Lower(e), "schema") || Contains(Lower(e), "validation")))
    ensures Classify(op, e).message == match Classify(op, e).kind
      case AuthenticationError => AuthenticationMessage(e)
      case RateLimitError => RateLimitMessage(e)
      case _ => FallbackMessage(op, e)
  {
  }

  /** The guard both `generate` and `extract` apply to the prompt. */
  const EmptyPromptMessage := "Prompt must be a non-empty string"

  /**
   * What a successful agent run returns, as the two conversions see it: whether it is a
   * `FinalResult`, `str(result.data)` and `str(result)`.
   */
  datatype RunResult = RunResult(isFinalResult: bool, dataText: string, resultText: string)

  /**
   * `generate`. `run(prompt, params)` is the agent's run; both branches of the result
   * handling answer `str(result.data)`; everything raised inside the `try`, a ValueError
   * included, is classified as a generation failure.
   */
  function GenerateText(cfg: GeminiConfig, prompt: string, kwargs: map<string, Value>,
                        run: (string, map<string, Value>) -> Result<RunResult, AgentFailure>): (r: Result<string, Raised>)
    ensures prompt == "" ==> r == Err(ValueError(EmptyPromptMessage))
    ensures r.Ok? <==> prompt != "" && MergedParams(cfg, kwargs).Ok? && run(prompt, MergedParams(cfg, kwargs).value).Ok?
    ensures r.Ok? ==> MergedParams(cfg, kwargs).Ok? && r.value == run(prompt, MergedParams(cfg, kwargs).value).value.dataText
    ensures prompt != "" && MergedParams(cfg, kwargs).Err? ==>
      r == Err(Classify(Generate, MergedParams(cfg, kwargs).error))
    ensures prompt != "" && MergedParams(cfg, kwargs).Ok? && run(prompt, MergedParams(cfg, kwargs).value).Err? ==>
      r == Err(Classify(Generate, run(prompt, MergedParams(cfg, kwargs).value).error.text))
    ensures prompt != "" && r.Err? ==> r.error.ProviderFailure?
  {
    if prompt == "" then Err(ValueError(EmptyPromptMessage))
    else
      match MergedParams(cfg, kwargs)
      case Err(typeError) => Err(Classify(Generate, typeError))
      case Ok(params) =>
        match run(prompt, params)
        case Ok(result) => Ok(result.dataText)
        case Err(failure) => Err(Classify(Generate, failure.text))
  }

  /** What the agent's run of an extraction gives: the converted model, a result that does not convert, or a failure. */
  datatype Extraction<R> = Extracted(value: R) | Unconvertible(reason: string) | ExtractionFailed(failure: AgentFailure)

  const SchemaMessage := "Schema must be a valid Pydantic model class"

  /** The ValueError raised when no conversion of the agent's result to the schema works. */
  function ConversionError(schemaName: string, reason: string): string
  {
    "Could not convert result to schema " + schemaName + ": " + reason
  }

  /**
   * `extract`. `schemaIsModel` is whether the schema is a Pydantic model class, and
   * `run` the agent's run with the schema as result type, followed by the conversions.
   */
  function ExtractData<R>(cfg: GeminiConfig, prompt: string, schemaName: string, schemaIsModel: bool,
                          kwargs: map<string, Value>,
                          run: (string, map<string, Value>) -> Extraction<R>): (r: Result<R, Raised>)
    ensures prompt == "" ==> r == Err(ValueError(EmptyPromptMessage))
    ensures prompt != "" && !schemaIsModel ==> r == Err(ValueError(SchemaMessage))
    ensures r.Ok? <==> (prompt != "" && schemaIsModel && MergedParams(cfg, kwargs).Ok? &&
                        run(prompt, MergedParams(cfg, kwargs).value).Extracted?)
    ensures r.Ok? ==> MergedParams(cfg, kwargs).Ok? && r.value == run(prompt, MergedParams(cfg, kwargs).value).value
    ensures prompt != "" && schemaIsModel && MergedParams(cfg, kwargs).Err? ==>
      r == Err(Classify(Extract, MergedParams(cfg, kwargs).error))
    ensures (prompt != "" && schemaIsModel && MergedParams(cfg, kwargs).Ok? &&
      run(prompt, MergedParams(cfg, kwargs).value).Unconvertible?) ==>
      r == Err(Classify(Extract, ConversionError(schemaName, run(prompt, MergedParams(cfg, kwargs).value).reason)))
    ensures (prompt != "" && schemaIsModel && MergedParams(cfg, kwargs).Ok? &&
      run(prompt, MergedParams(cfg, kwargs).value).ExtractionFailed?) ==>
      r == Err(Classify(Extract, run(prompt, MergedParams(cfg, kwargs).value).failure.text))
    ensures prompt != "" && schemaIsModel && r.Err? ==> r.error.ProviderFailure?
  {
    if prompt == "" then Err(ValueError(EmptyPromptMessage))
    else if !schemaIsModel then Err(ValueError(SchemaMessage))
    else
      match MergedParams(cfg, kwargs)
      case Err(typeError) => Err(Classify(Extract, typeError))
      case Ok(params) =>
        match run(prompt, params)
        case Extracted(value) => Ok(value)
        case Unconvertible(reason) => Err(Classify(Extract, ConversionError(schemaName, reason)))
        case ExtractionFailed(failure) => Err(Classify(Extract, failure.text))
  }

  /** An empty prompt, and for `extract` a schema that is not a model, are refused before the agent is consulted. */
  lemma GuardsPrecedeTheAgent<R>(cfg: GeminiConfig, prompt: string, schemaName: string, schemaIsModel: bool,
                                 kwargs: map<string, Value>,
                                 run1: (string, map<string, Value>) -> Result<RunResult, AgentFailure>,
                                 run2: (string, map<string, Value>) -> Result<RunResult, AgentFailure>,
                                 ex1: (string, map<string, Value>) -> Extraction<R>,
                                 ex2: (string, map<string, Value>) -> Extraction<R>)
    ensures prompt == "" ==>
      (GenerateText(cfg, prompt, kwargs, run1) == Err(ValueError(EmptyPromptMessage)) &&
       GenerateText(cfg, prompt, kwargs, run2) == Err(ValueError(EmptyPromptMessage)))
    ensures prompt == "" || !schemaIsModel ==>
      (ExtractData(cfg, prompt, schemaName, schemaIsModel, kwargs, ex1) == ExtractData(cfg, prompt, schemaName, schemaIsModel, kwargs, ex2) &&
       ExtractData(cfg, prompt, schemaName, schemaIsModel, kwargs, ex1).Err? &&
       ExtractData(cfg, prompt, schemaName, schemaIsModel, kwargs, ex1).error.ValueError?)
    ensures prompt != "" && GenerateText(cfg, prompt, kwargs, run1).Err? ==>
      GenerateText(cfg, prompt, kwargs, run1).error.ProviderFailure?
  {
  }

  /**
   * A result that cannot be converted is never reported as an invalid response: the text
   * of the ValueError names the schema, so the classification calls it a schema error
   * unless it also mentions authentication or a rate limit.
   */
  lemma UnconvertibleIsSchemaError(schemaName: string, reason: string)
    ensures Classify(Extract, ConversionError(schemaName, reason)).kind != InvalidResponseError
  {
    var prefix := "Could not convert result to schema ";
    var e := ConversionError(schemaName, reason);
    assert e == prefix + (schemaName + ": " + reason);
    assert Lower(e)[28..34] == "schema" by {
      forall i | 28 <= i < 34 ensures Lower(e)[i] == "schema"[i - 28] {
        assert e[i] == prefix[i];
      }
    }
    assert OccursAt(Lower(e), "schema", 28);
  }

  /** A message from the user. */
  predicate FromUser(m: Message)
  {
    HasRoleAndContent(m) && m["role"] == "user"
  }

  /** The content of the last "user" message, or "" when there is none. */
  function LastUserContent(ms: seq<Message>): string
  {
    if |ms| == 0 then ""
    else if FromUser(ms[|ms| - 1]) then ms[|ms| - 1]["content"]
    else LastUserContent(ms[..|ms| - 1])
  }

  lemma LastUserContentOfLonger(ms: seq<Message>, i: nat)
    requires i < |ms|
    ensures LastUserContent(ms[..i + 1]) == if FromUser(ms[i]) then ms[i]["content"] else LastUserContent(ms[..i])
  {
    assert ms[..i + 1][..i] == ms[..i];
  }

  /** The question is the content of the last "user" message, or "" when no message is from the user. */
  lemma {:induction false} LastUserContentSpec(ms: seq<Message>, j: int)
    requires 0 <= j < |ms| && FromUser(ms[j])
    requires forall i :: j < i < |ms| ==> !FromUser(ms[i])
    ensures LastUserContent(ms) == ms[j]["content"]
    decreases |ms|
  {
    if j < |ms| - 1 {
      var init := ms[..|ms| - 1];
      assert init[j] == ms[j];
      LastUserContentSpec(init, j);
    }
  }

  lemma {:induction false} NoUserNoContent(ms: seq<Message>)
    requires forall i :: 0 <= i < |ms| ==> !FromUser(ms[i])
    ensures LastUserContent(ms) == ""
  {
    if |ms| > 0 {
      NoUserNoContent(ms[..|ms| - 1]);
    }
  }

  /** The question: the last user message's content, or, when that is empty or absent, the last message's content. */
  function Question(ms: seq<Message>): (q: string)
    requires |ms| > 0 && AllHaveRoleAndContent(ms)
    ensures forall j :: 0 <= j < |ms| && FromUser(ms[j]) && (forall i :: j < i < |ms| ==> !FromUser(ms[i])) ==>
      q == if ms[j]["content"] != "" then ms[j]["content"] else ms[|ms| - 1]["content"]
    ensures (forall i :: 0 <= i < |ms| ==> !FromUser(ms[i])) ==> q == ms[|ms| - 1]["content"]
  {
    var asked := LastUserContent(ms);
    assert forall j :: 0 <= j < |ms| && FromUser(ms[j]) && (forall i :: j < i < |ms| ==> !FromUser(ms[i])) ==>
      asked == ms[j]["content"] by {
      forall j | 0 <= j < |ms| && FromUser(ms[j]) && (forall i :: j < i < |ms| ==> !FromUser(ms[i])) {
        LastUserContentSpec(ms, j);
      }
    }
    assert (forall i :: 0 <= i < |ms| ==> !FromUser(ms[i])) ==> asked == "" by {
      if forall i :: 0 <= i < |ms| ==> !FromUser(ms[i]) {
        NoUserNoContent(ms);
      }
    }
    if asked == "" then ms[|ms| - 1]["content"] else asked
  }

  /** The one prompt the conversation is flattened into. */
  function ChatPrompt(summary: string, question: string): string
  {
    "Previous conversation:\n" + summary + "\n\nUser's question: " + question +
    "\n\nPlease respond to the user's last question."
  }

  const EmptyMessagesMessage := "Messages must be a non-empty list"

  /**
   * `chat`: an empty list is refused; a message without "role" or "content" raises a
   * ValueError that the `except ValueError` re-raises unchanged, as it does a ValueError
   * from the agent; anything else is classified as a chat failure. Unlike `generate`, the
   * answer is `str(result.data)` only for a `FinalResult`, and `str(result)` otherwise.
   */
  function ChatOutcome(cfg: GeminiConfig, messages: seq<Message>, kwargs: map<string, Value>,
                       run: (string, map<string, Value>) -> Result<RunResult, AgentFailure>): (r: Result<string, Raised>)
    ensures |messages| == 0 ==> r == Err(ValueError(EmptyMessagesMessage))
    ensures |messages| > 0 && MergedParams(cfg, kwargs).Err? ==>
      r == Err(Classify(Chat, MergedParams(cfg, kwargs).error))
    ensures |messages| > 0 && MergedParams(cfg, kwargs).Ok? && !AllHaveRoleAndContent(messages) ==>
      r == Err(ValueError(MissingKeysMessage))
    ensures r.Ok? <==>
      |messages| > 0 && AllHaveRoleAndContent(messages) && MergedParams(cfg, kwargs).Ok? &&
      run(ChatPrompt(Transcript(messages), Question(messages)), MergedParams(cfg, kwargs).value).Ok?
    ensures r.Ok? ==>
      var result := run(ChatPrompt(Transcript(messages), Question(messages)), MergedParams(cfg, kwargs).value).value;
      r.value == if result.isFinalResult then result.dataText else result.resultText
    ensures (|messages| > 0 && AllHaveRoleAndContent(messages) && MergedParams(cfg, kwargs).Ok? &&
      run(ChatPrompt(Transcript(messages), Question(messages)), MergedParams(cfg, kwargs).value).Err? &&
      run(ChatPrompt(Transcript(messages), Question(messages)), MergedParams(cfg, kwargs).value).error.AgentError?) ==>
      r == Err(Classify(Chat, run(ChatPrompt(Transcript(messages), Question(messages)), MergedParams(cfg, kwargs).value).error.text))
    ensures r.Err? && r.error.ValueError? && |messages| > 0 && AllHaveRoleAndContent(messages) ==>
      MergedParams(cfg, kwargs).Ok? &&
      run(ChatPrompt(Transcript(messages), Question(messages)), MergedParams(cfg, kwargs).value) ==
        Err(AgentValueError(r.error.message))
  {
    if |messages| == 0 then Err(ValueError(EmptyMessagesMessage))
    else
      match MergedParams(cfg, kwargs)
      case Err(typeError) => Err(Classify(Chat, typeError))
      case Ok(params) =>
        if !AllHaveRoleAndContent(messages) then Err(ValueError(MissingKeysMessage))
        else
          match run(ChatPrompt(Transcript(messages), Question(messages)), params)
          case Ok(result) => Ok(if result.isFinalResult then result.dataText else result.resultText)
          case Err(AgentValueError(text)) => Err(ValueError(text))
          case Err(AgentError(text)) => Err(Classify(Chat, text))
  }

  /**
   * The pass over the messages: the summary and the latest user question accumulate,
   * and the pass stops at the first message without "role" or "content".
   */
  method Summarize(messages: seq<Message>) returns (wellFormed: bool, summary: string, question: string)
    ensures wellFormed <==> AllHaveRoleAndContent(messages)
    ensures wellFormed ==> summary == Transcript(messages) && question == LastUserContent(messages)
  {
    summary := "";
    question := "";
    var i := 0;
    while i < |messages|
      invariant 0 <= i <= |messages|
      invariant AllHaveRoleAndContent(messages[..i])
      invariant summary == Transcript(messages[..i])
      invariant question == LastUserContent(messages[..i])
    {
      var msg := messages[i];
      if !("role" in msg && "content" in msg) {
        return false, summary, question;
      }
      AllHaveRoleAndContentOfLonger(messages, i);
      TranscriptOfLonger(messages, i);
      LastUserContentOfLonger(messages, i);
      var role := msg["role"];
      var content := msg["content"];
      var line := "";
      if role == "user" {
        question := content;
        line := "User: " + content + "\n";
      } else if role == "model" || role == "assistant" {
        line := "Assistant: " + content + "\n";
      } else if role == "system" {
        line := "System: " + content + "\n";
      }
      assert line == ChatLine(msg);
      assert question == LastUserContent(messages[..i + 1]);
      summary := summary + line;
      assert summary == Transcript(messages[..i + 1]);
      i := i + 1;
    }
    assert messages[..i] == messages;
    return true, summary, question;
  }

  /** `chat`, step by step: the guard, the params, the pass over the messages, the prompt and the agent. */
  method ChatWith(cfg: GeminiConfig, messages: seq<Message>, kwargs: map<string, Value>,
                  run: (string, map<string, Value>) -> Result<RunResult, AgentFailure>) returns (r: Result<string, Raised>)
    ensures r == ChatOutcome(cfg, messages, kwargs, run)
  {
    if |messages| == 0 {
      return Err(ValueError(EmptyMessagesMessage));
    }
    var merged := MergedParams(cfg, kwargs);
    if merged.Err? {
      return Err(Classify(Chat, merged.error));
    }
    var wellFormed, summary, question := Summarize(messages);
    if !wellFormed {
      return Err(ValueError(MissingKeysMessage));
    }
    if question == "" {
      question := messages[|messages| - 1]["content"];
    }
    var prompt := "Previous conversation:\n" + summary + "\n\nUser's question: " + question +
      "\n\nPlease respond to the user's last question.";
    var outcome := run(prompt, merged.value);
    match outcome
    case Ok(result) =>
      if result.isFinalResult {
        return Ok(result.dataText);
      }
      return Ok(result.resultText);
    case Err(AgentValueError(text)) => return Err(ValueError(text));
    case Err(AgentError(text)) => return Err(Classify(Chat, text));
  }

  /**
   * With well-formed messages, the agent is asked exactly once, with the prompt made of
   * the transcript of the known-role messages and the question; which messages of
   * another role are present makes no difference to it.
   */
  lemma ChatPromptIgnoresUnknownRoles(ms: seq<Message>)
    requires |ms| > 0 && AllHaveRoleAndContent(ms)
    ensures ChatPrompt(Transcript(ms), Question(ms)) == ChatPrompt(Transcript(KnownOnly(ms)), Question(ms))
  {
    TranscriptSkipsUnknownRoles(ms);
  }
}

/**
 * kitchen/infrastructure/external_services/llm/providers/openai/services.py: the API-key
 * check of the constructor, the generation keyword arguments, `_extract_json`, the chat
 * conversation and `_handle_openai_error`. The agent and pydantic's validation are
 * parameters.
 */
module OpenAIService {
  import opened Wrappers
  import opened Text
  import opened LLMProviders

  /** The values the constructor copies from `OpenAIConfig`. */
  datatype OpenAIConfig = OpenAIConfig(apiKey: string, temperature: Value, maxTokens: Value, topP: Value,
                                       frequencyPenalty: Value, presencePenalty: Value)

  const MissingKeyText := "OpenAI API key is not set. Please set the OPENAI_API_KEY environment variable or in your application settings."

  /**
   * The constructor: an empty key is replaced by the application settings' key when they
   * have one; still empty, it raises ConfigurationError, which its own `except` wraps
   * into another ConfigurationError. `modelFailure` is what building the model raises.
   */
  function Init(cfg: OpenAIConfig, settingsKey: Option<string>, modelFailure: Option<string>): (r: Result<OpenAIConfig, Raised>)
    ensures r.Ok? ==> r.value.apiKey != ""
    ensures (cfg.apiKey == "" && (settingsKey.None? || settingsKey.value == "")) ==>
      r == Err(ProviderFailure(ConfigurationError, "Failed to initialize OpenAIProvider: " + MissingKeyText))
    ensures r.Err? ==> r.error.ProviderFailure? && r.error.kind == ConfigurationError
  {
    var key := if cfg.apiKey == "" && settingsKey.Some? then settingsKey.value else cfg.apiKey;
    if key == "" then Err(ProviderFailure(ConfigurationError, "Failed to initialize OpenAIProvider: " + MissingKeyText))
    else if modelFailure.Some? then Err(ProviderFailure(ConfigurationError, "Failed to initialize OpenAIProvider: " + modelFailure.value))
    else Ok(cfg.(apiKey := key))
  }

  /** The keys of the generation keyword arguments. */
  const GenerationKeys: set<string> := {"temperature", "max_tokens", "top_p", "frequency_penalty", "presence_penalty"}

  function Configured(cfg: OpenAIConfig, k: string): Value
    requires k in GenerationKeys
  {
    if k == "temperature" then cfg.temperature
    else if k == "max_tokens" then cfg.maxTokens
    else if k == "top_p" then cfg.topP
    else if k == "frequency_penalty" then cfg.frequencyPenalty
    else cfg.presencePenalty
  }

  /** `kwargs.get(k, configured)` for each key, then the comprehension that drops None. */
  function GenerationKwargs(cfg: OpenAIConfig, kwargs: map<string, Value>): (m: map<string, Value>)
    ensures m.Keys <= GenerationKeys
    ensures forall k :: k in m ==> m[k] != NoneValue
    ensures forall k :: k in GenerationKeys && k in kwargs ==>
      (k in m <==> kwargs[k] != NoneValue) && (k in m ==> m[k] == kwargs[k])
    ensures forall k :: k in GenerationKeys && k !in kwargs ==>
      (k in m <==> Configured(cfg, k) != NoneValue) && (k in m ==> m[k] == Configured(cfg, k))
  {
    map k | k in GenerationKeys && (if k in kwargs then kwargs[k] else Configured(cfg, k)) != NoneValue ::
      if k in kwargs then kwargs[k] else Configured(cfg, k)
  }

  /** An explicit None in the call drops the key even when the configuration sets it. */
  lemma ExplicitNoneDropsConfigured(cfg: OpenAIConfig, kwargs: map<string, Value>)
    requires "max_tokens" in kwargs && kwargs["max_tokens"] == NoneValue && cfg.maxTokens != NoneValue
    ensures "max_tokens" !in GenerationKwargs(cfg, kwargs)
  {
  }

  /**
   * `_handle_openai_error`: it always raises a provider error, tested in order for
   * authentication, rate limit and schema validation, with the generic error last; the
   * first two tests are case-sensitive. The message ends with the error's text.
   */
  function HandleError(e: string): (r: Raised)
    ensures r.ProviderFailure?
    ensures r.kind == AuthenticationError <==> Contains(e, "Unauthorized") || Contains(e, "Authentication")
    ensures r.kind == RateLimitError <==>
      !(Contains(e, "Unauthorized") || Contains(e, "Authentication")) &&
      (Contains(e, "Rate limit") || Contains(e, "RateLimitError"))
    ensures r.kind == SchemaValidationError <==>
      !(Contains(e, "Unauthorized") || Contains(e, "Authentication")) &&
      !(Contains(e, "Rate limit") || Contains(e, "RateLimitError")) &&
      Contains(Lower(e), "validation error")
    ensures r.kind == ProviderError <==>
      !(Contains(e, "Unauthorized") || Contains(e, "Authentication")) &&
      !(Contains(e, "Rate limit") || Contains(e, "RateLimitError")) &&
      !Contains(Lower(e), "validation error")
    ensures |e| <= |r.message| && r.message[|r.message| - |e|..] == e
  {
    if Contains(e, "Unauthorized") || Contains(e, "Authentication") then
      ProviderFailure(AuthenticationError, "OpenAI authentication error: " + e)
    else if Contains(e, "Rate limit") || Contains(e, "RateLimitError") then
      ProviderFailure(RateLimitError, "OpenAI rate limit error: " + e)
    else if Contains(Lower(e), "validation error") then
      ProviderFailure(SchemaValidationError, "Schema validation error: " + e)
    else
      ProviderFailure(ProviderError, "OpenAI error: " + e)
  }

  predicate NoUpperCase(s: string)
  {
    forall i :: 0 <= i < |s| ==> !('A' <= s[i] <= 'Z')
  }

  /** A needle with a character the text lacks does not occur in it. */
  lemma AbsentChar(s: string, needle: string, k: int)
    requires 0 <= k < |needle| && needle[k] !in s
    ensures !Contains(s, needle)
  {
    forall i | 0 <= i <= |s| - |needle| ensures !OccursAt(s, needle, i) {
      assert s[i..i + |needle|][k] == s[i + k];
    }
  }

  /**
   * OpenAI's classification is case-sensitive where Gemini's is not: a message written
   * in lower case is never an authentication or rate-limit error here, and is an
   * invalid-response or schema error only by its "validation error" wording.
   */
  lemma LowerCaseNeverAuthentication(e: string)
    requires NoUpperCase(e)
    ensures HandleError(e).kind != AuthenticationError && HandleError(e).kind != RateLimitError
    ensures HandleError(e).kind == SchemaValidationError <==> Contains(Lower(e), "validation error")
  {
    assert 'U' !in e && 'A' !in e && 'R' !in e;
    AbsentChar(e, "Unauthorized", 0);
    AbsentChar(e, "Authentication", 0);
    AbsentChar(e, "Rate limit", 0);
    AbsentChar(e, "RateLimitError", 0);
  }

  // ---------------------------------------------------------------------------
  // _extract_json
  // ---------------------------------------------------------------------------

  const Fence := "```"

  /** The first occurrence of `needle` at or after `from`. */
  function FindFrom(s: string, needle: string, from: nat): (r: Option<nat>)
    requires |needle| > 0
    ensures r.Some? ==> from <= r.value && OccursAt(s, needle, r.value)
    ensures r.Some? ==> forall j :: from <= j < r.value ==> !OccursAt(s, needle, j)
    ensures r.None? ==> forall j :: from <= j ==> !OccursAt(s, needle, j)
    decreases |s| - from
  {
    if from + |needle| > |s| then None
    else if OccursAt(s, needle, from) then Some(from)
    else FindFrom(s, needle, from + 1)
  }

  /** The first occurrence is found. */
  lemma FindFromAt(s: string, needle: string, from: nat, k: nat)
    requires |needle| > 0 && from <= k && OccursAt(s, needle, k)
    requires forall j :: from <= j < k ==> !OccursAt(s, needle, j)
    ensures FindFrom(s, needle, from) == Some(k)
  {
  }

  /** The first index of `c`. */
  function FirstIndex(s: string, c: char): (r: Option<nat>)
    ensures r.Some? ==> r.value < |s| && s[r.value] == c && forall j :: 0 <= j < r.value ==> s[j] != c
    ensures r.None? ==> forall j :: 0 <= j < |s| ==> s[j] != c
  {
    if |s| == 0 then None
    else if s[0] == c then Some(0)
    else match FirstIndex(s[1..], c)
      case None => None
      case Some(k) => Some(k + 1)
  }

  /** The last index of `c`. */
  function LastIndex(s: string, c: char): (r: Option<nat>)
    ensures r.Some? ==> r.value < |s| && s[r.value] == c && forall j :: r.value < j < |s| ==> s[j] != c
    ensures r.None? ==> forall j :: 0 <= j < |s| ==> s[j] != c
  {
    if |s| == 0 then None
    else if s[|s| - 1] == c then Some(|s| - 1)
    else LastIndex(s[..|s| - 1], c)
  }

  /** No fence starts at a character other than a backtick. */
  lemma NotFenceAt(s: string, j: int)
    requires 0 <= j < |s| && s[j] != '`'
    ensures !OccursAt(s, Fence, j)
  {
    if j + 3 <= |s| {
      assert s[j..j + 3][0] == s[j];
    }
  }

  /** After an opening fence tagged "json", the next fence cannot start inside the tag. */
  lemma FenceAfterTag(text: string, open: nat)
    ensures OccursAt(text, "json", open + 3) && FindFrom(text, Fence, open + 3).Some? ==>
      FindFrom(text, Fence, open + 7).Some?
  {
    if OccursAt(text, "json", open + 3) && FindFrom(text, Fence, open + 3).Some? {
      var q := FindFrom(text, Fence, open + 3).value;
      forall j | open + 3 <= j < open + 7 ensures !OccursAt(text, Fence, j) {
        assert text[j] == text[open + 3..open + 7][j - open - 3];
        NotFenceAt(text, j);
      }
      assert open + 7 <= q;
    }
  }

  /**
   * The span `_extract_json`'s regular expressions select, as positions. The fenced
   * pattern matches from the first fence when another fence follows it; a "json" tag
   * right after it is consumed; the group runs to the next fence. Otherwise the span from
   * the first "{" to the last "}" is taken, and otherwise the whole text.
   */
  function JsonSpan(text: string): (r: (nat, nat))
    ensures r.0 <= r.1 <= |text|
  {
    var open := FindFrom(text, Fence, 0);
    if open.Some? && FindFrom(text, Fence, open.value + 3).Some? then
      var tagged := OccursAt(text, "json", open.value + 3);
      var start := if tagged then open.value + 7 else open.value + 3;
      FenceAfterTag(text, open.value);
      (start, FindFrom(text, Fence, start).value)
    else
      var lb := FirstIndex(text, '{');
      var rb := LastIndex(text, '}');
      if lb.Some? && rb.Some? && lb.value < rb.value then (lb.value, rb.value + 1)
      else (0, |text|)
  }

  /** `_extract_json`: the selected span, stripped. */
  function ExtractJson(text: string): string
  {
    var span := JsonSpan(text);
    Strip(text[span.0..span.1])
  }

  /** Whatever branch is taken, the extracted JSON is a stripped piece of the text. */
  lemma ExtractJsonStrippedPiece(text: string)
    ensures Contains(text, ExtractJson(text)) && Strip(ExtractJson(text)) == ExtractJson(text)
  {
    var span := JsonSpan(text);
    StrippedSliceOccurs(text, span.0, span.1);
  }

  /** A text without backticks has no fence. */
  lemma NoBacktickNoFence(s: string, from: nat)
    requires forall i :: 0 <= i < |s| ==> s[i] != '`'
    ensures FindFrom(s, Fence, from).None?
  {
    forall j | from <= j < |s| ensures !OccursAt(s, Fence, j) {
      NotFenceAt(s, j);
    }
  }

  /**
   * A body between two fences, with no backtick before the first or inside, comes back
   * stripped, whatever follows the closing fence.
   */
  lemma FencedBodyRecovered(a: string, body: string, rest: string)
    requires forall i :: 0 <= i < |a| ==> a[i] != '`'
    requires forall i :: 0 <= i < |body| ==> body[i] != '`'
    requires !StartsWith(body, "json")
    ensures ExtractJson(a + Fence + body + Fence + rest) == Strip(body)
  {
    var text := a + Fence + body + Fence + rest;
    var o := |a|;
    var c := o + 3 + |body|;
    FencesFound(a, body, rest);
    UntaggedBody(a, body, rest);
    ExtractUntagged(text, o, c);
    BodyBetweenFences(a, body, rest);
  }

  /**
   * A body behind a "json"-tagged opening fence, with no backtick before the fence or
   * inside, comes back stripped without the tag, whatever follows the closing fence.
   */
  lemma TaggedFencedBodyRecovered(a: string, body: string, rest: string)
    requires forall i :: 0 <= i < |a| ==> a[i] != '`'
    requires forall i :: 0 <= i < |body| ==> body[i] != '`'
    ensures ExtractJson(a + Fence + "json" + body + Fence + rest) == Strip(body)
  {
    var tagged := "json" + body;
    TaggedLacksBacktick(body);
    var text := a + Fence + tagged + Fence + rest;
    assert a + Fence + "json" + body + Fence + rest == text;
    FencesFound(a, tagged, rest);
    BodyAfterTag(a, body, rest);
    ExtractTagged(text, |a|, |a| + 7 + |body|);
  }

  /** Tagging a body without backticks adds none. */
  lemma TaggedLacksBacktick(body: string)
    requires forall i :: 0 <= i < |body| ==> body[i] != '`'
    ensures forall i :: 0 <= i < |"json" + body| ==> ("json" + body)[i] != '`'
  {
    forall i | 0 <= i < |"json" + body| ensures ("json" + body)[i] != '`' {
      if i >= 4 {
        assert ("json" + body)[i] == body[i - 4];
      }
    }
  }

  /** The tag follows the first fence, and the slice between the tag and the closing fence is the body. */
  lemma BodyAfterTag(a: string, body: string, rest: string)
    ensures OccursAt(a + Fence + ("json" + body) + Fence + rest, "json", |a| + 3)
    ensures (a + Fence + ("json" + body) + Fence + rest)[|a| + 7..|a| + 7 + |body|] == body
  {
    var text := a + Fence + ("json" + body) + Fence + rest;
    assert text == (a + Fence) + "json" + body + (Fence + rest);
    assert text[|a| + 3..|a| + 7] == "json";
  }

  /**
   * With a "json"-tagged opening fence at `o` and the next fence at `c`, the body after
   * the tag is taken.
   */
  lemma ExtractTagged(text: string, o: nat, c: nat)
    requires FindFrom(text, Fence, 0) == Some(o) && FindFrom(text, Fence, o + 3) == Some(c)
    requires OccursAt(text, "json", o + 3)
    ensures o + 7 <= c <= |text|
    ensures ExtractJson(text) == Strip(text[o + 7..c])
  {
    forall j | o + 3 <= j < o + 7 ensures !OccursAt(text, Fence, j) {
      assert text[j] == text[o + 3..o + 7][j - o - 3];
      NotFenceAt(text, j);
    }
    FindFromAt(text, Fence, o + 7, c);
    assert JsonSpan(text) == (o + 7, c);
  }

  /** The slice between the two fences is the body. */
  lemma BodyBetweenFences(a: string, body: string, rest: string)
    ensures (a + Fence + body + Fence + rest)[|a| + 3..|a| + 3 + |body|] == body
  {
    var text := a + Fence + body + Fence + rest;
    assert text == (a + Fence) + body + (Fence + rest);
  }

  /** With an untagged opening fence at `o` and the next fence at `c`, the body between them is taken. */
  lemma ExtractUntagged(text: string, o: nat, c: nat)
    requires FindFrom(text, Fence, 0) == Some(o) && FindFrom(text, Fence, o + 3) == Some(c)
    requires !OccursAt(text, "json", o + 3)
    ensures o + 3 <= c <= |text|
    ensures ExtractJson(text) == Strip(text[o + 3..c])
  {
    assert JsonSpan(text) == (o + 3, c);
  }

  /** The first fence of the text is the one after `a`, and the next one closes `body`. */
  lemma FencesFound(a: string, body: string, rest: string)
    requires forall i :: 0 <= i < |a| ==> a[i] != '`'
    requires forall i :: 0 <= i < |body| ==> body[i] != '`'
    ensures FindFrom(a + Fence + body + Fence + rest, Fence, 0) == Some(|a|)
    ensures FindFrom(a + Fence + body + Fence + rest, Fence, |a| + 3) == Some(|a| + 3 + |body|)
  {
    var text := a + Fence + body + Fence + rest;
    var o := |a|;
    var c := o + 3 + |body|;
    assert text[o..o + 3] == Fence;
    assert text[c..c + 3] == Fence;
    forall j | 0 <= j < o ensures !OccursAt(text, Fence, j) {
      assert text[j] == a[j];
      NotFenceAt(text, j);
    }
    forall j | o + 3 <= j < c ensures !OccursAt(text, Fence, j) {
      assert text[j] == body[j - o - 3];
      NotFenceAt(text, j);
    }
    FindFromAt(text, Fence, 0, o);
    FindFromAt(text, Fence, o + 3, c);
  }

  /** A body that does not start with "json" leaves no tag after the opening fence. */
  lemma UntaggedBody(a: string, body: string, rest: string)
    requires forall i :: 0 <= i < |body| ==> body[i] != '`'
    requires !StartsWith(body, "json")
    ensures !OccursAt(a + Fence + body + Fence + rest, "json", |a| + 3)
  {
    var text := a + Fence + body + Fence + rest;
    var o := |a|;
    var c := o + 3 + |body|;
    if |body| >= 4 {
      assert text[o + 3..o + 7] == body[..4];
    } else if o + 7 <= |text| {
      assert text[c] == '`';
      assert text[o + 3..o + 7][|body|] == text[c];
    }
  }

  /**
   * With no backtick in the text, a JSON object with no "{" before it and no "}" after
   * it comes back exactly.
   */
  lemma BareObjectRecovered(a: string, mid: string, b: string)
    requires forall i :: 0 <= i < |a + "{" + mid + "}" + b| ==> (a + "{" + mid + "}" + b)[i] != '`'
    requires forall i :: 0 <= i < |a| ==> a[i] != '{'
    requires forall i :: 0 <= i < |b| ==> b[i] != '}'
    ensures ExtractJson(a + "{" + mid + "}" + b) == "{" + mid + "}"
  {
    var text := a + "{" + mid + "}" + b;
    NoBacktickNoFence(text, 0);
    var lb := |a|;
    var rb := |a| + 1 + |mid|;
    assert text[lb] == '{';
    assert text[rb] == '}';
    forall j | 0 <= j < lb ensures text[j] != '{' {
      assert text[j] == a[j];
    }
    forall j | rb < j < |text| ensures text[j] != '}' {
      assert text[j] == b[j - rb - 1];
    }
    assert FirstIndex(text, '{') == Some(lb);
    assert LastIndex(text, '}') == Some(rb);
    assert text[lb..rb + 1] == "{" + mid + "}";
    StripTrimmed("{" + mid + "}");
  }

  /** Text with neither a backtick nor a "{" comes back stripped. */
  lemma PlainTextStripped(text: string)
    requires forall i :: 0 <= i < |text| ==> text[i] != '`' && text[i] != '{'
    ensures ExtractJson(text) == Strip(text)
  {
    NoBacktickNoFence(text, 0);
    assert JsonSpan(text) == (0, |text|);
    assert text[0..|text|] == text;
  }

  /**
   * `chat`'s conversation: a line per known-role message and the closing "Assistant: ".
   * A malformed message raises a ValueError inside the `try`, which is handed to
   * `_handle_openai_error` like every other failure.
   */
  function ChatOutcome(cfg: OpenAIConfig, messages: seq<Message>, kwargs: map<string, Value>,
                       run: (string, map<string, Value>) -> Result<string, AgentFailure>): (r: Result<string, Raised>)
    ensures !AllHaveRoleAndContent(messages) ==> r == Err(HandleError(MissingKeysMessage))
    ensures r.Ok? <==> AllHaveRoleAndContent(messages) && run(Transcript(messages) + "Assistant: ", GenerationKwargs(cfg, kwargs)).Ok?
    ensures r.Ok? ==> r.value == run(Transcript(messages) + "Assistant: ", GenerationKwargs(cfg, kwargs)).value
    ensures r.Err? ==> r.error.ProviderFailure?
  {
    if !AllHaveRoleAndContent(messages) then Err(HandleError(MissingKeysMessage))
    else
      match run(Transcript(messages) + "Assistant: ", GenerationKwargs(cfg, kwargs))
      case Ok(text) => Ok(text)
      case Err(failure) => Err(HandleError(failure.text))
  }

  /** `chat`, step by step: the keyword arguments, then the conversation built by appends. */
  method ChatWith(cfg: OpenAIConfig, messages: seq<Message>, kwargs: map<string, Value>,
                  run: (string, map<string, Value>) -> Result<string, AgentFailure>) returns (r: Result<string, Raised>)
    ensures r == ChatOutcome(cfg, messages, kwargs, run)
  {
    var generationKwargs := GenerationKwargs(cfg, kwargs);
    var wellFormed, conversation := Conversation(messages);
    if !wellFormed {
      return Err(HandleError(MissingKeysMessage));
    }
    conversation := conversation + "Assistant: ";
    var result := run(conversation, generationKwargs);
    match result
    case Ok(text) => return Ok(text);
    case Err(failure) => return Err(HandleError(failure.text));
  }

  /**
   * The loop of `chat` that appends a line per message; it stops at the first message
   * without both keys, where the source raises.
   */
  method Conversation(messages: seq<Message>) returns (wellFormed: bool, conversation: string)
    ensures wellFormed <==> AllHaveRoleAndContent(messages)
    ensures wellFormed ==> conversation == Transcript(messages)
  {
    conversation := "";
    var i := 0;
    while i < |messages|
      invariant 0 <= i <= |messages|
      invariant AllHaveRoleAndContent(messages[..i])
      invariant conversation == Transcript(messages[..i])
    {
      var msg := messages[i];
      if !("role" in msg && "content" in msg) {
        return false, conversation;
      }
      AllHaveRoleAndContentOfLonger(messages, i);
      TranscriptOfLonger(messages, i);
      var line := LineFor(msg);
      conversation := conversation + line;
      i := i + 1;
    }
    assert messages[..i] == messages;
    return true, conversation;
  }

  /** The line the loop of `chat` appends for one message that has both keys. */
  method LineFor(msg: Message) returns (line: string)
    requires "role" in msg && "content" in msg
    ensures line == ChatLine(msg)
  {
    var role := msg["role"];
    var content := msg["content"];
    line := "";
    if role == "user" {
      line := "User: " + content + "\n";
    } else if role == "model" || role == "assistant" {
      line := "Assistant: " + content + "\n";
    } else if role == "system" {
      line := "System: " + content + "\n";
    }
  }

  /**
   * Unlike Gemini's, OpenAI's chat accepts an empty list and sends just "Assistant: ";
   * and a malformed message is handed to `_handle_openai_error`, so it never surfaces
   * as a ValueError.
   */
  lemma ChatEdgeCases(cfg: OpenAIConfig, messages: seq<Message>, kwargs: map<string, Value>,
                      run: (string, map<string, Value>) -> Result<string, AgentFailure>)
    ensures ChatOutcome(cfg, [], kwargs, run) ==
      match run("Assistant: ", GenerationKwargs(cfg, kwargs))
      case Ok(text) => Ok(text)
      case Err(failure) => Err(HandleError(failure.text))
    ensures !AllHaveRoleAndContent(messages) ==>
      ChatOutcome(cfg, messages, kwargs, run) == Err(HandleError(MissingKeysMessage))
    ensures ChatOutcome(cfg, messages, kwargs, run).Err? ==> ChatOutcome(cfg, messages, kwargs, run).error.ProviderFailure?
  {
    assert Transcript([]) + "Assistant: " == "Assistant: ";
  }

  /**
   * `generate`: the prompt is run with the filtered keyword arguments; it answers the
   * agent's text exactly when the run succeeds, and otherwise raises what
   * `_handle_openai_error` makes of the failure's text, always a provider error.
   */
  function GenerateText(cfg: OpenAIConfig, prompt: string, kwargs: map<string, Value>,
                        run: (string, map<string, Value>) -> Result<string, AgentFailure>): (r: Result<string, Raised>)
    ensures r.Ok? <==> run(prompt, GenerationKwargs(cfg, kwargs)).Ok?
    ensures r.Ok? ==> r.value == run(prompt, GenerationKwargs(cfg, kwargs)).value
    ensures r.Err? ==> r.error == HandleError(run(prompt, GenerationKwargs(cfg, kwargs)).error.text)
    ensures r.Err? ==> r.error.ProviderFailure?
  {
    match run(prompt, GenerationKwargs(cfg, kwargs))
    case Ok(text) => Ok(text)
    case Err(failure) => Err(HandleError(failure.text))
  }
}
