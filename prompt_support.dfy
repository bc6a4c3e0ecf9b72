/**
 * The deterministic helpers at the front and back of every prompt: choosing
 * the provider and model, rendering the context map as prompt text, and
 * cutting the JSON payload out of a free-form reply.
 */
module PromptSupport {
  import opened Optional
  import opened PhpValues
  import opened PhpStrings

  /** The text-generation backends the client knows. */
  datatype ProviderEnum = Ollama | OpenAI | Anthropic | Mistral

  /** `getProviderEnum`: known names map to their backend, anything else to Ollama. */
  function ProviderFromName(name: string): (p: ProviderEnum)
    ensures name == "openai" <==> p == OpenAI
    ensures name == "anthropic" <==> p == Anthropic
    ensures name == "mistral" <==> p == Mistral
    ensures p == Ollama <==> name !in {"openai", "anthropic", "mistral"}
  {
    match name
    case "ollama" => Ollama
    case "openai" => OpenAI
    case "anthropic" => Anthropic
    case "mistral" => Mistral
    case _ => Ollama
  }

  /** The configuration name of each backend. */
  function ProviderName(p: ProviderEnum): string
  {
    match p
    case Ollama => "ollama"
    case OpenAI => "openai"
    case Anthropic => "anthropic"
    case Mistral => "mistral"
  }

  /** Every backend is reached from its own configuration name. */
  lemma ProviderNameRoundTrip(p: ProviderEnum)
    ensures ProviderFromName(ProviderName(p)) == p
  {
  }

  /**
   * The part of the package configuration the provider reads.  A key missing
   * from the configuration is `None` (or, for `default_models`, absent from
   * the map); `enable_cache` missing reads as false.
   */
  datatype Config = Config(
    defaultProvider: Option<string>,
    defaultModels: map<string, string>,
    systemPrompt: Option<string>,
    defaultPrompt: Option<string>,
    contextPrompt: Option<string>,
    enableCache: bool)

  /**
   * The in-code defaults `getConfig` hands to `config->get('faker-ai', …)`
   * (and returns from its `catch`).  They apply only when the container holds
   * no `faker-ai` configuration at all; they are not the values of the
   * package's own `config/faker-ai.php`, which the service provider merges in
   * and in which caching is on.
   */
  const BuiltInConfig: Config := Config(
    Some("ollama"),
    map["ollama" := "llama3", "openai" := "gpt-3.5-turbo",
        "anthropic" := "claude-3-sonnet-20240229", "mistral" := "mistral-tiny"],
    Some("You are a helpful assistant that generates fake data for testing purposes."),
    Some("Generate a "),
    Some("Generate a %s based on this context: %s"),
    false)

  /**
   * `getConfig`: the `faker-ai` configuration the container holds (the
   * package's file merged with any published copy) when there is one,
   * `None` meaning no `faker-ai` configuration is registered at all;
   * otherwise the in-code defaults, in which caching is off and every known
   * backend has a default model.
   */
  function GetConfig(registered: Option<Config>): Config
  {
    registered.GetOr(BuiltInConfig)
  }

  /**
   * A registered configuration is taken as it is; without any, the in-code
   * defaults have the cache off, a default model for every known backend, and sends requests
   * to Ollama's llama3 unless told otherwise.
   */
  lemma GetConfigChoices(registered: Option<Config>)
    ensures registered.Some? ==> GetConfig(registered) == registered.value
    ensures registered.None? ==> !GetConfig(registered).enableCache
    ensures registered.None? ==> forall p :: ResolveModel(None, GetConfig(registered), ProviderName(p)).Some?
    ensures registered.None? ==>
      ResolveProvider(None, GetConfig(registered)) == "ollama" && ResolveModel(None, GetConfig(registered), "ollama") == Some("llama3")
  {
  }

  /** `$provider ?? $config['default_provider'] ?? 'ollama'`. */
  function ResolveProvider(explicit: Option<string>, config: Config): (name: string)
    ensures explicit.Some? ==> name == explicit.value
    ensures explicit.None? && config.defaultProvider.Some? ==> name == config.defaultProvider.value
    ensures explicit.None? && config.defaultProvider.None? ==> name == "ollama"
  {
    explicit.GetOr(config.defaultProvider.GetOr("ollama"))
  }

  /** `$model ?? ($config['default_models'][$provider] ?? null)`, looked up by the raw provider name. */
  function ResolveModel(explicit: Option<string>, config: Config, provider: string): (model: Option<string>)
    ensures explicit.Some? ==> model == explicit
    ensures explicit.None? ==> (model.Some? <==> provider in config.defaultModels)
    ensures explicit.None? && provider in config.defaultModels ==> model == Some(config.defaultModels[provider])
  {
    if explicit.Some? then explicit
    else if provider in config.defaultModels then Some(config.defaultModels[provider])
    else None
  }

  /**
   * A provider name the package does not know is sent to Ollama, and, unless a
   * model is given, it gets no model at all when the configured model table
   * only lists the four known names.
   */
  lemma UnknownProviderGetsOllamaWithoutModel(explicit: Option<string>, config: Config)
    requires config.defaultModels.Keys <= {"ollama", "openai", "anthropic", "mistral"}
    requires ResolveProvider(explicit, config) !in {"ollama", "openai", "anthropic", "mistral"}
    ensures ProviderFromName(ResolveProvider(explicit, config)) == Ollama
    ensures ResolveModel(None, config, ResolveProvider(explicit, config)) == None
  {
  }

  /** `$config['default_system_prompt'] ?? ''`. */
  function SystemPrompt(config: Config): string
  {
    config.systemPrompt.GetOr("")
  }

  // ---------------------------------------------------------------------------
  // formatContextForPrompt

  /**
   * How `"{$value}"` renders a context value: arrays are JSON-encoded first
   * (by `encode`, PHP's `json_encode`), true is "1", false and null are empty.
   */
  function PromptText(v: Value, encode: Value -> string): string
  {
    match v
    case Null => ""
    case Bool(b) => if b then "1" else ""
    case Num(lit) => lit
    case Str(s) => s
    case List(_) => encode(v)
    case Map(_) => encode(v)
  }

  /** One `"key: value"` segment. */
  function Segment(entry: (string, Value), encode: Value -> string): string
  {
    entry.0 + ": " + PromptText(entry.1, encode)
  }

  /** The segments of a context, one per entry, in the array's order. */
  function Segments(context: Entries, encode: Value -> string): (parts: seq<string>)
    ensures |parts| == |context|
    ensures forall i :: 0 <= i < |context| ==> parts[i] == Segment(context[i], encode)
  {
    seq(|context|, i requires 0 <= i < |context| => Segment(context[i], encode))
  }

  /** What `formatContextForPrompt` produces: the segments joined by ", ". */
  function FormatContext(context: Entries, encode: Value -> string): string
  {
    Join(", ", Segments(context, encode))
  }

  /** An empty context renders as "", a one-entry context as its one segment. */
  lemma FormatContextSmall(context: Entries, encode: Value -> string)
    ensures |context| == 0 ==> FormatContext(context, encode) == ""
    ensures |context| == 1 ==> FormatContext(context, encode) == Segment(context[0], encode)
  {
  }

  /** Each further entry adds ", " and its own segment at the end. */
  lemma FormatContextSnoc(context: Entries, entry: (string, Value), encode: Value -> string)
    requires |context| > 0
    ensures FormatContext(context + [entry], encode) == FormatContext(context, encode) + ", " + Segment(entry, encode)
  {
    assert Segments(context + [entry], encode) == Segments(context, encode) + [Segment(entry, encode)];
    JoinSnoc(", ", Segments(context, encode), Segment(entry, encode));
  }

  /** `formatContextForPrompt`: one segment per entry collected in a loop, then `implode(', ', ...)`. */
  method FormatContextForPrompt(context: Entries, encode: Value -> string) returns (text: string)
    ensures text == FormatContext(context, encode)
  {
    var formatted: seq<string> := [];
    for i := 0 to |context|
      invariant formatted == Segments(context[..i], encode)
    {
      var (key, value) := context[i];
      var rendered := PromptText(value, encode);
      formatted := formatted + [key + ": " + rendered];
      assert context[..i + 1] == context[..i] + [context[i]];
    }
    assert context[..|context|] == context;
    text := Join(", ", formatted);
  }

  // ---------------------------------------------------------------------------
  // JSON span extraction: preg_match('/\{.*\}/s') and preg_match('/\[.*\]/s')

  function FirstIndexOf(s: string, c: char): (r: Option<nat>)
    ensures r.Some? ==> r.value < |s| && s[r.value] == c && c !in s[..r.value]
    ensures r.None? ==> c !in s
  {
    if |s| == 0 then None
    else if s[0] == c then Some(0)
    else match FirstIndexOf(s[1..], c)
      case Some(i) => (assert s[..i + 1] == [s[0]] + s[1..][..i]; Some(i + 1))
      case None => None
  }

  function LastIndexOf(s: string, c: char): (r: Option<nat>)
    ensures r.Some? ==> r.value < |s| && s[r.value] == c && c !in s[r.value + 1..]
    ensures r.None? ==> c !in s
  {
    if |s| == 0 then None
    else if s[|s| - 1] == c then Some(|s| - 1)
    else match LastIndexOf(s[..|s| - 1], c)
      case Some(i) => (assert s[i + 1..] == s[..|s| - 1][i + 1..] + [s[|s| - 1]]; Some(i))
      case None => (assert s == s[..|s| - 1] + [s[|s| - 1]]; None)
  }

  /**
   * The text the provider hands to `json_decode`: the leftmost greedy match of
   * `open .* close` (dot matching newlines), i.e. from the first `open` to the
   * last `close`, or the whole text when there is no such match.
   */
  function JsonSpan(s: string, open: char, close: char): (r: string)
    ensures r == s || (|r| >= 2 && r[0] == open && r[|r| - 1] == close)
  {
    match (FirstIndexOf(s, open), LastIndexOf(s, close))
    case (Some(i), Some(j)) => if i < j then s[i..j + 1] else s
    case _ => s
  }

  /** The first occurrence is the one with no earlier occurrence before it. */
  lemma {:induction false} FirstIndexOfAt(s: string, c: char, i: nat)
    requires i < |s| && s[i] == c && c !in s[..i]
    ensures FirstIndexOf(s, c) == Some(i)
  {
    if i > 0 {
      assert s[0] == s[..i][0];
      assert s[1..][..i - 1] == s[1..i];
      FirstIndexOfAt(s[1..], c, i - 1);
    }
  }

  /** The last occurrence is the one with no later occurrence after it. */
  lemma {:induction false} LastIndexOfAt(s: string, c: char, j: nat)
    requires j < |s| && s[j] == c && c !in s[j + 1..]
    ensures LastIndexOf(s, c) == Some(j)
    decreases |s|
  {
    if j < |s| - 1 {
      assert s[|s| - 1] == s[j + 1..][|s| - 2 - j];
      assert s[..|s| - 1][j + 1..] == s[j + 1..|s| - 1];
      LastIndexOfAt(s[..|s| - 1], c, j);
    }
  }

  /**
   * A JSON object or array embedded in prose is cut out exactly, provided the
   * prose before it has no opening and the prose after it no closing
   * character.
   */
  lemma {:induction false} JsonSpanOfEmbedded(prefix: string, body: string, suffix: string, open: char, close: char)
    requires |body| >= 2 && body[0] == open && body[|body| - 1] == close
    requires open !in prefix && close !in suffix
    ensures JsonSpan(prefix + body + suffix, open, close) == body
  {
    var s := prefix + body + suffix;
    var i := |prefix|;
    var j := |prefix| + |body| - 1;
    assert s[i] == open && s[..i] == prefix;
    assert s[j] == close && s[j + 1..] == suffix;
    FirstIndexOfAt(s, open, i);
    LastIndexOfAt(s, close, j);
    assert s[i..j + 1] == body;
  }

  /** Without an opening character followed somewhere by a closing one, the whole text is decoded. */
  lemma JsonSpanWithoutMatch(s: string, open: char, close: char)
    requires forall i, j :: 0 <= i < j < |s| && s[i] == open ==> s[j] != close
    ensures JsonSpan(s, open, close) == s
  {
  }
}
