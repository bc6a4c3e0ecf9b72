/**
 * `FakerAIPromptProvider`: the four generating entry points (`promptAI`,
 * `promptAIObject`, `createAIObject`, `createAIBatch`), each of which
 * resolves a backend, consults the cache, sends one prompt to the text
 * client, post-processes the reply and, on failure, either rethrows or falls
 * back to locally made-up data.
 *
 * The text client, the JSON codec and the cache store are outside the
 * package: the client is a function from request to reply passed to each
 * call, `json_encode`/`json_decode` are functions fixed when the provider is
 * made, and the cache is a map owned by the provider object.  Each entry
 * point is specified by a function returning its outcome, the new cache and
 * the requests it sent; the methods of the class are proved against them.
 */
module PromptProvider {
  import opened Optional
  import opened PhpValues
  import opened PhpStrings
  import opened PromptSupport
  import opened Fallbacks
  import opened Synthetic

  // ---------------------------------------------------------------------------
  // The outside world

  /**
   * A cache key, by its ingredients.  The package hashes the context, seed and
   * field lists with `md5(json_encode(...))` (an empty context or seed, and an
   * empty or null field list, give an empty hash); the hashes are taken to be
   * injective, so the key keeps the lists themselves.  A null model is the
   * empty string in the key, and object types are lower-cased.
   */
  datatype CacheKey =
    | FieldKey(provider: string, model: string, term: string, context: Entries)
    | FieldsKey(provider: string, model: string, fields: seq<string>, context: Entries)
    | CreateKey(provider: string, model: string, objectKey: string, seed: Entries, required: seq<string>)
    | BatchKey(provider: string, model: string, objectKey: string, count: int, seed: Entries, required: seq<string>)

  /** What the entry points put in the cache: a trimmed answer, an object, or a list of objects. */
  datatype Cached = CachedText(text: string) | CachedObject(entries: Entries) | CachedBatch(objects: seq<Entries>)

  type Cache = map<CacheKey, Cached>

  /** `"{$model}"` in a cache key: null renders as the empty string. */
  function ModelKey(model: Option<string>): string
  {
    model.GetOr("")
  }

  /**
   * The prompt sent to the client, by its ingredients: the exact English
   * wording around them is not modelled.
   */
  datatype Prompt =
    | FieldPrompt(template: string, term: string, context: Option<string>)
    | FieldsPrompt(fields: seq<string>, context: Option<string>)
    | ObjectPrompt(objectType: string, seed: Option<string>, required: seq<string>)
    | BatchPrompt(objectType: string, count: int, seed: Option<string>, required: seq<string>)

  /** One text-generation request: backend, model (possibly none), system prompt and prompt. */
  datatype Request = Request(provider: ProviderEnum, model: Option<string>, systemPrompt: string, prompt: Prompt)

  /** The client's answer, or the exception it raised. */
  datatype Reply = Generated(text: string) | ClientError(message: string)

  /** `json_decode($text, true)` and whether `json_last_error()` reports an error. */
  datatype JsonResult = InvalidJson | Json(value: Value)

  /** Why an entry point threw (only when `throwOnError` is set). */
  datatype Failure = ClientFailure(message: string) | DecodeFailure | NotAnArrayOfObjects

  datatype Outcome<T> = Returned(value: T) | Thrown(failure: Failure)

  /** What one call does: its outcome, the cache afterwards and the requests it sent. */
  datatype Effects<T> = Effects(outcome: Outcome<T>, cache: Cache, sent: seq<Request>)

  /** `promptAI`'s `$fallback`: null, a string, or a callable. */
  datatype PromptFallback = NoFallback | TextFallback(text: string) | CallableFallback(produce: () -> Value)

  datatype FieldArgs = FieldArgs(
    term: string, provider: Option<string>, model: Option<string>,
    context: Entries, fallback: PromptFallback, throwOnError: bool)

  datatype FieldsArgs = FieldsArgs(
    fields: seq<string>, context: Entries, provider: Option<string>, model: Option<string>,
    fallbacks: Fallbacks, throwOnError: bool)

  datatype CreateArgs = CreateArgs(
    objectType: string, seed: Entries, required: seq<string>, provider: Option<string>,
    model: Option<string>, fallbacks: Fallbacks, throwOnError: bool)

  datatype BatchArgs = BatchArgs(
    objectType: string, count: int, seed: Entries, required: seq<string>, provider: Option<string>,
    model: Option<string>, fallbacks: Fallbacks, throwOnError: bool)

  // ---------------------------------------------------------------------------
  // The cache invariant

  /**
   * What each kind of entry holds: answers under `promptAI` keys, objects with
   * every requested field (camel-cased or as given) under `promptAIObject`
   * keys, objects with every required field under `createAIObject` keys, and
   * under `createAIBatch` keys `count` such objects (for a non-negative count).
   */
  predicate Fits(key: CacheKey, cached: Cached)
  {
    match key
    case FieldKey(_, _, _, _) => cached.CachedText?
    case FieldsKey(_, _, fields, _) =>
      cached.CachedObject? && forall f :: f in fields ==> HasKey(cached.entries, Camel(f)) || HasKey(cached.entries, f)
    case CreateKey(_, _, _, _, required) =>
      cached.CachedObject? && forall f :: f in required ==> HasKey(cached.entries, f)
    case BatchKey(_, _, _, count, _, required) =>
      && cached.CachedBatch?
      && (count >= 0 ==> |cached.objects| == count)
      && forall i, f :: 0 <= i < |cached.objects| && f in required ==> HasKey(cached.objects[i], f)
  }

  predicate CacheShaped(cache: Cache)
  {
    forall key :: key in cache ==> Fits(key, cache[key])
  }

  /** Storing an entry that fits its key keeps the cache shaped. */
  lemma CacheShapedUpdate(cache: Cache, key: CacheKey, cached: Cached)
    requires CacheShaped(cache) && Fits(key, cached)
    ensures CacheShaped(cache[key := cached])
  {
  }

  // ---------------------------------------------------------------------------
  // Replies the model covers

  /** The JSON payload of a reply: trimmed, the span between `open` and `close` cut out, decoded. */
  function DecodeReply(decode: string -> JsonResult, text: string, open: char, close: char): JsonResult
  {
    decode(JsonSpan(Trim(text), open, close))
  }

  /** A well-formed object reply decodes to a JSON object. */
  predicate ObjectReply(decode: string -> JsonResult, reply: Reply)
  {
    reply.Generated? && DecodeReply(decode, reply.text, '{', '}').Json? ==>
      DecodeReply(decode, reply.text, '{', '}').value.Map?
  }

  ghost predicate ObjectReplies(client: Request -> Reply, decode: string -> JsonResult)
  {
    forall request :: ObjectReply(decode, client(request))
  }

  /** A decoded batch is a list of JSON objects, or something `createAIBatch` rejects outright. */
  predicate BatchValue(v: Value)
  {
    (v.Map? ==> |v.entries| == 0) && (v.List? ==> forall i :: 0 <= i < |v.items| ==> v.items[i].Map?)
  }

  predicate BatchReply(decode: string -> JsonResult, reply: Reply)
  {
    reply.Generated? && DecodeReply(decode, reply.text, '[', ']').Json? ==>
      BatchValue(DecodeReply(decode, reply.text, '[', ']').value)
  }

  ghost predicate BatchReplies(client: Request -> Reply, decode: string -> JsonResult)
  {
    forall request :: BatchReply(decode, client(request))
  }

  /** `!is_array($decoded) || empty($decoded)` is false. */
  predicate NonEmptyArray(v: Value)
  {
    (v.List? && |v.items| > 0) || (v.Map? && |v.entries| > 0)
  }

  // ---------------------------------------------------------------------------
  // Shared pieces

  /** A cached object; only objects are ever stored under object keys (see `CacheShaped`). */
  function CachedEntries(cached: Cached): Entries
  {
    if cached.CachedObject? then cached.entries else []
  }

  /** A cached batch; only batches are ever stored under batch keys (see `CacheShaped`). */
  function CachedObjects(cached: Cached): seq<Entries>
  {
    if cached.CachedBatch? then cached.objects else []
  }

  /** A decoded object reply; replies decode to objects (see `ObjectReply`). */
  function DecodedEntries(v: Value): Entries
  {
    if v.Map? then v.entries else []
  }

  /** A decoded batch reply's objects; batch replies hold objects only (see `BatchReply`). */
  function DecodedObjects(v: Value): seq<Entries>
  {
    if v.List? then seq(|v.items|, i requires 0 <= i < |v.items| => DecodedEntries(v.items[i])) else []
  }

  /** `Cache::get($cacheKey)` as `promptAI` returns it. */
  function CachedValue(cached: Cached): Value
  {
    match cached
    case CachedText(t) => Str(t)
    case CachedObject(m) => Map(m)
    case CachedBatch(objects) => List(seq(|objects|, i requires 0 <= i < |objects| => Map(objects[i])))
  }

  function ContextText(context: Entries, encode: Value -> string): (r: Option<string>)
    ensures r.None? <==> |context| == 0
  {
    if |context| == 0 then None else Some(FormatContext(context, encode))
  }

  function CamelAll(fields: seq<string>): (r: seq<string>)
    ensures |r| == |fields| && forall i :: 0 <= i < |fields| ==> r[i] == Camel(fields[i])
  {
    seq(|fields|, i requires 0 <= i < |fields| => Camel(fields[i]))
  }

  /** `promptAI`'s error path without `throwOnError`: the string, the callable's value, or null. */
  function FallbackResult(fallback: PromptFallback): Value
  {
    match fallback
    case NoFallback => Null
    case TextFallback(s) => Str(s)
    case CallableFallback(produce) => produce()
  }

  function FieldPromptFor(config: Config, term: string, context: Entries, encode: Value -> string): Prompt
  {
    if |context| == 0 then FieldPrompt(config.defaultPrompt.GetOr("Generate a "), Camel(term), None)
    else FieldPrompt(config.contextPrompt.GetOr("Generate a %s based on this context: %s"), Camel(term),
                     Some(FormatContext(context, encode)))
  }

  function RequestFor(config: Config, provider: Option<string>, model: Option<string>, prompt: Prompt): Request
  {
    var name := ResolveProvider(provider, config);
    Request(ProviderFromName(name), ResolveModel(model, config, name), SystemPrompt(config), prompt)
  }

  // ---------------------------------------------------------------------------
  // The four entry points, as functions

  function FieldKeyFor(config: Config, args: FieldArgs): CacheKey
  {
    var name := ResolveProvider(args.provider, config);
    FieldKey(name, ModelKey(ResolveModel(args.model, config, name)), args.term, args.context)
  }

  /** `promptAI`. */
  function PromptAISpec(config: Config, encode: Value -> string, cache: Cache, args: FieldArgs, client: Request -> Reply)
    : Effects<Value>
  {
    var key := FieldKeyFor(config, args);
    if config.enableCache && key in cache then Effects(Returned(CachedValue(cache[key])), cache, [])
    else
      var request := FieldRequestFor(config, args, encode);
      FieldReplyEffects(config, cache, key, request, client(request), args)
  }

  function FieldRequestFor(config: Config, args: FieldArgs, encode: Value -> string): Request
  {
    RequestFor(config, args.provider, args.model, FieldPromptFor(config, args.term, args.context, encode))
  }

  /** `promptAI` once the client has answered `request` with `reply`. */
  function FieldReplyEffects(config: Config, cache: Cache, key: CacheKey, request: Request, reply: Reply, args: FieldArgs)
    : Effects<Value>
  {
    match reply
    case Generated(text) =>
      var result := Trim(text);
      Effects(Returned(Str(result)), if config.enableCache then cache[key := CachedText(result)] else cache, [request])
    case ClientError(message) =>
      if args.throwOnError then Effects(Thrown(ClientFailure(message)), cache, [request])
      else Effects(Returned(FallbackResult(args.fallback)), cache, [request])
  }

  function FieldsKeyFor(config: Config, args: FieldsArgs): CacheKey
  {
    var name := ResolveProvider(args.provider, config);
    FieldsKey(name, ModelKey(ResolveModel(args.model, config, name)), args.fields, args.context)
  }

  function FieldsRequestFor(config: Config, args: FieldsArgs, encode: Value -> string): Request
  {
    RequestFor(config, args.provider, args.model, FieldsPrompt(CamelAll(args.fields), ContextText(args.context, encode)))
  }

  /** `promptAIObject`. */
  function PromptAIObjectSpec(config: Config, encode: Value -> string, decode: string -> JsonResult, cache: Cache,
                              args: FieldsArgs, client: Request -> Reply): Effects<Entries>
  {
    var key := FieldsKeyFor(config, args);
    if config.enableCache && key in cache then Effects(Returned(CachedEntries(cache[key])), cache, [])
    else
      var request := FieldsRequestFor(config, args, encode);
      FieldsReplyEffects(config, decode, cache, key, request, client(request), args)
  }

  /** `promptAIObject` once the client has answered `request` with `reply`. */
  function FieldsReplyEffects(config: Config, decode: string -> JsonResult, cache: Cache, key: CacheKey,
                              request: Request, reply: Reply, args: FieldsArgs): Effects<Entries>
  {
    match reply
    case ClientError(message) => Effects(FieldsFailed(args, ClientFailure(message)), cache, [request])
    case Generated(text) =>
      match DecodeReply(decode, text, '{', '}')
      case InvalidJson => Effects(FieldsFailed(args, DecodeFailure), cache, [request])
      case Json(v) =>
        var result := PatchFields(DecodedEntries(v), args.fields, args.fallbacks);
        Effects(Returned(result), if config.enableCache then cache[key := CachedObject(result)] else cache, [request])
  }

  function CreateKeyFor(config: Config, args: CreateArgs): CacheKey
  {
    var name := ResolveProvider(args.provider, config);
    CreateKey(name, ModelKey(ResolveModel(args.model, config, name)), Lower(args.objectType), args.seed, args.required)
  }

  function CreateRequestFor(config: Config, args: CreateArgs, encode: Value -> string): Request
  {
    RequestFor(config, args.provider, args.model, ObjectPrompt(args.objectType, ContextText(args.seed, encode), args.required))
  }

  /** `createAIObject`. */
  function CreateAIObjectSpec(config: Config, encode: Value -> string, decode: string -> JsonResult, cache: Cache,
                              args: CreateArgs, client: Request -> Reply): Effects<Entries>
  {
    var key := CreateKeyFor(config, args);
    if config.enableCache && key in cache then Effects(Returned(CachedEntries(cache[key])), cache, [])
    else
      var request := CreateRequestFor(config, args, encode);
      CreateReplyEffects(config, decode, cache, key, request, client(request), args)
  }

  /** `createAIObject` once the client has answered `request` with `reply`. */
  function CreateReplyEffects(config: Config, decode: string -> JsonResult, cache: Cache, key: CacheKey,
                              request: Request, reply: Reply, args: CreateArgs): Effects<Entries>
  {
    match reply
    case ClientError(message) => Effects(CreateFailed(args, ClientFailure(message)), cache, [request])
    case Generated(text) =>
      match DecodeReply(decode, text, '{', '}')
      case InvalidJson => Effects(CreateFailed(args, DecodeFailure), cache, [request])
      case Json(v) =>
        var result := FillRequired(DecodedEntries(v), args.required, args.fallbacks);
        Effects(Returned(result), if config.enableCache then cache[key := CachedObject(result)] else cache, [request])
  }

  function BatchKeyFor(config: Config, args: BatchArgs): CacheKey
  {
    var name := ResolveProvider(args.provider, config);
    BatchKey(name, ModelKey(ResolveModel(args.model, config, name)), Lower(args.objectType), args.count, args.seed, args.required)
  }

  function BatchRequestFor(config: Config, args: BatchArgs, encode: Value -> string): Request
  {
    RequestFor(config, args.provider, args.model,
               BatchPrompt(args.objectType, args.count, ContextText(args.seed, encode), args.required))
  }

  /** `createAIBatch`. */
  function CreateAIBatchSpec(config: Config, encode: Value -> string, decode: string -> JsonResult, cache: Cache,
                             args: BatchArgs, client: Request -> Reply): Effects<seq<Entries>>
  {
    var key := BatchKeyFor(config, args);
    if config.enableCache && key in cache then Effects(Returned(CachedObjects(cache[key])), cache, [])
    else
      var request := BatchRequestFor(config, args, encode);
      BatchReplyEffects(config, decode, cache, key, request, client(request), args)
  }

  /** `createAIBatch` once the client has answered `request` with `reply`. */
  function BatchReplyEffects(config: Config, decode: string -> JsonResult, cache: Cache, key: CacheKey,
                             request: Request, reply: Reply, args: BatchArgs): Effects<seq<Entries>>
  {
    match reply
    case ClientError(message) => Effects(BatchFailed(args, ClientFailure(message)), cache, [request])
    case Generated(text) =>
      match DecodeReply(decode, text, '[', ']')
      case InvalidJson => Effects(BatchFailed(args, DecodeFailure), cache, [request])
      case Json(v) =>
        if !NonEmptyArray(v) then Effects(BatchFailed(args, NotAnArrayOfObjects), cache, [request])
        else
          var result := ShapeBatch(DecodedObjects(v), args.count, args.objectType, args.seed, args.required, args.fallbacks);
          Effects(Returned(result), if config.enableCache then cache[key := CachedBatch(result)] else cache, [request])
  }

  /**
   * The catch-all answer of `promptAIObject` to a failure: rethrow it when
   * `throwOnError` is set, otherwise return the fallback object.
   */
  function FieldsFailed(args: FieldsArgs, failure: Failure): (r: Outcome<Entries>)
    ensures r.Thrown? <==> args.throwOnError
    ensures r.Thrown? ==> r.failure == failure
  {
    if args.throwOnError then Thrown(failure) else Returned(FallbackValues(args.fields, args.fallbacks))
  }

  /** The answer of `createAIObject` to a failure: rethrow it, or return the basic object. */
  function CreateFailed(args: CreateArgs, failure: Failure): (r: Outcome<Entries>)
    ensures r.Thrown? <==> args.throwOnError
    ensures r.Thrown? ==> r.failure == failure
  {
    if args.throwOnError then Thrown(failure) else Returned(BasicObject(args.objectType, args.seed, args.required, args.fallbacks))
  }

  /** The answer of `createAIBatch` to a failure: rethrow it, or return the basic batch. */
  function BatchFailed(args: BatchArgs, failure: Failure): (r: Outcome<seq<Entries>>)
    ensures r.Thrown? <==> args.throwOnError
    ensures r.Thrown? ==> r.failure == failure
  {
    if args.throwOnError then Thrown(failure)
    else Returned(BasicBatch(args.objectType, args.count, args.seed, args.required, args.fallbacks))
  }

  /** Building `promptAIObject`'s failure answer with the fallback loop. */
  method FailFields(args: FieldsArgs, failure: Failure) returns (r: Outcome<Entries>)
    ensures r == FieldsFailed(args, failure)
  {
    if args.throwOnError {
      r := Thrown(failure);
    } else {
      var values := GetFallbackValues(args.fields, args.fallbacks);
      r := Returned(values);
    }
  }

  /** Building `createAIObject`'s failure answer with `getBasicObject`. */
  method FailCreate(args: CreateArgs, failure: Failure) returns (r: Outcome<Entries>)
    ensures r == CreateFailed(args, failure)
  {
    if args.throwOnError {
      r := Thrown(failure);
    } else {
      var basic := GetBasicObject(args.objectType, args.seed, args.required, args.fallbacks);
      r := Returned(basic);
    }
  }

  /** Building `createAIBatch`'s failure answer with `getBasicBatch`. */
  method FailBatch(args: BatchArgs, failure: Failure) returns (r: Outcome<seq<Entries>>)
    ensures r == BatchFailed(args, failure)
  {
    if args.throwOnError {
      r := Thrown(failure);
    } else {
      var basics := GetBasicBatch(args.objectType, args.count, args.seed, args.required, args.fallbacks);
      r := Returned(basics);
    }
  }

  // ---------------------------------------------------------------------------
  // The provider object

  class FakerAIPromptProvider {
    const config: Config
    const encode: Value -> string
    const decode: string -> JsonResult
    /** The cache store, as far as this package's keys are concerned. */
    var cache: Cache
    /** Every request sent to a client so far. */
    ghost var sent: seq<Request>

    predicate Valid()
      reads this
    {
      CacheShaped(cache)
    }

    /**
     * A provider over the configuration the container holds when it is built
     * (or the in-code defaults) and an existing cache store.
     */
    constructor (registered: Option<Config>, encode: Value -> string, decode: string -> JsonResult, store: Cache)
      requires CacheShaped(store)
      ensures Valid()
      ensures config == GetConfig(registered) && this.encode == encode && this.decode == decode
      ensures cache == store && sent == []
    {
      config := GetConfig(registered);
      this.encode := encode;
      this.decode := decode;
      cache := store;
      sent := [];
    }

    method PromptAI(args: FieldArgs, client: Request -> Reply) returns (r: Outcome<Value>)
      requires Valid()
      modifies this
      ensures Valid()
      ensures var e := PromptAISpec(config, encode, old(cache), args, client);
        r == e.outcome && cache == e.cache && sent == old(sent) + e.sent
    {
      var provider := ResolveProvider(args.provider, config);
      var providerEnum := ProviderFromName(provider);
      var model := ResolveModel(args.model, config, provider);
      var key := FieldKey(provider, ModelKey(model), args.term, args.context);
      if config.enableCache && key in cache {
        return Returned(CachedValue(cache[key]));
      }
      var formattedTerm := Camel(args.term);
      var prompt;
      if |args.context| > 0 {
        var contextStr := FormatContextForPrompt(args.context, encode);
        prompt := FieldPrompt(config.contextPrompt.GetOr("Generate a %s based on this context: %s"), formattedTerm, Some(contextStr));
      } else {
        prompt := FieldPrompt(config.defaultPrompt.GetOr("Generate a "), formattedTerm, None);
      }
      var request := Request(providerEnum, model, SystemPrompt(config), prompt);
      assert key == FieldKeyFor(config, args) && request == FieldRequestFor(config, args, encode);
      var reply := client(request);
      assert PromptAISpec(config, encode, cache, args, client) == FieldReplyEffects(config, cache, key, request, reply, args);
      r := HandleFieldReply(args, key, request, reply);
    }

    /** The part of the entry point after the client has answered `request` with `reply`. */
    method HandleFieldReply(args: FieldArgs, key: CacheKey, request: Request, reply: Reply) returns (r: Outcome<Value>)
      requires Valid() && key == FieldKeyFor(config, args)
      modifies this
      ensures Valid()
      ensures var e := FieldReplyEffects(config, old(cache), key, request, reply, args);
        r == e.outcome && cache == e.cache && sent == old(sent) + e.sent
    {
      ghost var e := FieldReplyEffects(config, cache, key, request, reply, args);
      sent := sent + [request];
      match reply {
        case Generated(text) =>
          var result := Trim(text);
          if config.enableCache {
            CacheShapedUpdate(cache, key, CachedText(result));
            cache := cache[key := CachedText(result)];
          }
          r := Returned(Str(result));
        case ClientError(message) =>
          if args.throwOnError {
            r := Thrown(ClientFailure(message));
          } else {
            match args.fallback {
              case TextFallback(s) => r := Returned(Str(s));
              case CallableFallback(produce) => r := Returned(produce());
              case NoFallback => r := Returned(Null);
            }
          }
      }
    }

    method PromptAIObject(args: FieldsArgs, client: Request -> Reply) returns (r: Outcome<Entries>)
      requires Valid() && ObjectReplies(client, decode)
      modifies this
      ensures Valid()
      ensures var e := PromptAIObjectSpec(config, encode, decode, old(cache), args, client);
        r == e.outcome && cache == e.cache && sent == old(sent) + e.sent
    {
      var provider := ResolveProvider(args.provider, config);
      var providerEnum := ProviderFromName(provider);
      var model := ResolveModel(args.model, config, provider);
      var key := FieldsKey(provider, ModelKey(model), args.fields, args.context);
      if config.enableCache && key in cache {
        return Returned(CachedEntries(cache[key]));
      }
      var formattedFields := CamelAll(args.fields);
      var contextStr := None;
      if |args.context| > 0 {
        var s := FormatContextForPrompt(args.context, encode);
        contextStr := Some(s);
      }
      var request := Request(providerEnum, model, SystemPrompt(config), FieldsPrompt(formattedFields, contextStr));
      assert key == FieldsKeyFor(config, args) && request == FieldsRequestFor(config, args, encode);
      var reply := client(request);
      assert PromptAIObjectSpec(config, encode, decode, cache, args, client) == FieldsReplyEffects(config, decode, cache, key, request, reply, args);
      r := HandleFieldsReply(args, key, request, reply);
    }

    /** The part of the entry point after the client has answered `request` with `reply`. */
    method HandleFieldsReply(args: FieldsArgs, key: CacheKey, request: Request, reply: Reply) returns (r: Outcome<Entries>)
      requires Valid() && key == FieldsKeyFor(config, args)
      modifies this
      ensures Valid()
      ensures var e := FieldsReplyEffects(config, decode, old(cache), key, request, reply, args);
        r == e.outcome && cache == e.cache && sent == old(sent) + e.sent
    {
      sent := sent + [request];
      match reply {
        case ClientError(message) =>
          r := FailFields(args, ClientFailure(message));
        case Generated(text) =>
          var result := Trim(text);
          var decoded := decode(JsonSpan(result, '{', '}'));
          match decoded {
            case InvalidJson =>
              r := FailFields(args, DecodeFailure);
            case Json(v) =>
              var patched := PatchMissingFields(DecodedEntries(v), args.fields, args.fallbacks);
              if config.enableCache {
                PatchFieldsShape(DecodedEntries(v), args.fields, args.fallbacks);
                CacheShapedUpdate(cache, key, CachedObject(patched));
                cache := cache[key := CachedObject(patched)];
              }
              r := Returned(patched);
          }
      }
    }

    method CreateAIObject(args: CreateArgs, client: Request -> Reply) returns (r: Outcome<Entries>)
      requires Valid() && ObjectReplies(client, decode)
      modifies this
      ensures Valid()
      ensures var e := CreateAIObjectSpec(config, encode, decode, old(cache), args, client);
        r == e.outcome && cache == e.cache && sent == old(sent) + e.sent
    {
      var provider := ResolveProvider(args.provider, config);
      var providerEnum := ProviderFromName(provider);
      var model := ResolveModel(args.model, config, provider);
      var key := CreateKey(provider, ModelKey(model), Lower(args.objectType), args.seed, args.required);
      if config.enableCache && key in cache {
        return Returned(CachedEntries(cache[key]));
      }
      var seedStr := None;
      if |args.seed| > 0 {
        var s := FormatContextForPrompt(args.seed, encode);
        seedStr := Some(s);
      }
      var request := Request(providerEnum, model, SystemPrompt(config), ObjectPrompt(args.objectType, seedStr, args.required));
      assert key == CreateKeyFor(config, args) && request == CreateRequestFor(config, args, encode);
      var reply := client(request);
      assert CreateAIObjectSpec(config, encode, decode, cache, args, client) == CreateReplyEffects(config, decode, cache, key, request, reply, args);
      r := HandleCreateReply(args, key, request, reply);
    }

    /** The part of the entry point after the client has answered `request` with `reply`. */
    method HandleCreateReply(args: CreateArgs, key: CacheKey, request: Request, reply: Reply) returns (r: Outcome<Entries>)
      requires Valid() && key == CreateKeyFor(config, args)
      modifies this
      ensures Valid()
      ensures var e := CreateReplyEffects(config, decode, old(cache), key, request, reply, args);
        r == e.outcome && cache == e.cache && sent == old(sent) + e.sent
    {
      sent := sent + [request];
      match reply {
        case ClientError(message) =>
          r := FailCreate(args, ClientFailure(message));
        case Generated(text) =>
          var result := Trim(text);
          var decoded := decode(JsonSpan(result, '{', '}'));
          match decoded {
            case InvalidJson =>
              r := FailCreate(args, DecodeFailure);
            case Json(v) =>
              var obj := DecodedEntries(v);
              if |args.required| > 0 {
                obj := FillRequiredFields(obj, args.required, args.fallbacks);
              }
              if config.enableCache {
                FillRequiredShape(DecodedEntries(v), args.required, args.fallbacks);
                CacheShapedUpdate(cache, key, CachedObject(obj));
                cache := cache[key := CachedObject(obj)];
              }
              r := Returned(obj);
          }
      }
    }

    method CreateAIBatch(args: BatchArgs, client: Request -> Reply) returns (r: Outcome<seq<Entries>>)
      requires Valid() && BatchReplies(client, decode)
      modifies this
      ensures Valid()
      ensures var e := CreateAIBatchSpec(config, encode, decode, old(cache), args, client);
        r == e.outcome && cache == e.cache && sent == old(sent) + e.sent
    {
      var provider := ResolveProvider(args.provider, config);
      var providerEnum := ProviderFromName(provider);
      var model := ResolveModel(args.model, config, provider);
      var key := BatchKey(provider, ModelKey(model), Lower(args.objectType), args.count, args.seed, args.required);
      if config.enableCache && key in cache {
        return Returned(CachedObjects(cache[key]));
      }
      var seedStr := None;
      if |args.seed| > 0 {
        var s := FormatContextForPrompt(args.seed, encode);
        seedStr := Some(s);
      }
      var request := Request(providerEnum, model, SystemPrompt(config),
                             BatchPrompt(args.objectType, args.count, seedStr, args.required));
      assert key == BatchKeyFor(config, args) && request == BatchRequestFor(config, args, encode);
      var reply := client(request);
      assert CreateAIBatchSpec(config, encode, decode, cache, args, client) == BatchReplyEffects(config, decode, cache, key, request, reply, args);
      r := HandleBatchReply(args, key, request, reply);
    }

    /** The part of the entry point after the client has answered `request` with `reply`. */
    method HandleBatchReply(args: BatchArgs, key: CacheKey, request: Request, reply: Reply) returns (r: Outcome<seq<Entries>>)
      requires Valid() && key == BatchKeyFor(config, args)
      modifies this
      ensures Valid()
      ensures var e := BatchReplyEffects(config, decode, old(cache), key, request, reply, args);
        r == e.outcome && cache == e.cache && sent == old(sent) + e.sent
    {
      sent := sent + [request];
      match reply {
        case ClientError(message) =>
          r := FailBatch(args, ClientFailure(message));
        case Generated(text) =>
          var result := Trim(text);
          var decoded := decode(JsonSpan(result, '[', ']'));
          match decoded {
            case InvalidJson =>
              r := FailBatch(args, DecodeFailure);
            case Json(v) =>
              if !NonEmptyArray(v) {
                r := FailBatch(args, NotAnArrayOfObjects);
              } else {
                var objects := ShapeDecodedBatch(DecodedObjects(v), args.count, args.objectType,
                                                 args.seed, args.required, args.fallbacks);
                if config.enableCache {
                  ShapeBatchFits(DecodedObjects(v), args.count, args.objectType, args.seed, args.required, args.fallbacks);
                  CacheShapedUpdate(cache, key, CachedBatch(objects));
                  cache := cache[key := CachedBatch(objects)];
                }
                r := Returned(objects);
              }
          }
      }
    }
  }

  /** A shaped batch fits its cache key: `count` objects when `count` is not negative, every required field in each. */
  lemma ShapeBatchFits(items: seq<Entries>, count: int, objectType: string, seed: Entries, required: seq<string>, fallbacks: Fallbacks)
    ensures var r := ShapeBatch(items, count, objectType, seed, required, fallbacks);
      && (count >= 0 ==> |r| == count)
      && forall i, f :: 0 <= i < |r| && f in required ==> HasKey(r[i], f)
  {
    var r := ShapeBatch(items, count, objectType, seed, required, fallbacks);
    if count >= 0 {
      ShapeBatchShape(items, count, objectType, seed, required, fallbacks);
    }
    var padded := Pad(SliceFront(items, count), count, BasicObject(objectType, seed, required, fallbacks));
    forall i, f | 0 <= i < |r| && f in required ensures HasKey(r[i], f) {
      FillRequiredShape(padded[i], required, fallbacks);
    }
  }
  /** With fallback callables that never return null, every required field of every shaped object is set. */
  lemma ShapeBatchFilled(items: seq<Entries>, count: int, objectType: string, seed: Entries, required: seq<string>, fallbacks: Fallbacks)
    requires ProducersNonNull(fallbacks)
    ensures var r := ShapeBatch(items, count, objectType, seed, required, fallbacks);
      forall i, f :: 0 <= i < |r| && f in required ==> IsSet(r[i], f)
  {
    var r := ShapeBatch(items, count, objectType, seed, required, fallbacks);
    var padded := Pad(SliceFront(items, count), count, BasicObject(objectType, seed, required, fallbacks));
    forall i, f | 0 <= i < |r| && f in required ensures IsSet(r[i], f) {
      FillRequiredShape(padded[i], required, fallbacks);
    }
  }


  // ---------------------------------------------------------------------------
  // Properties of the entry points

  /**
   * With the cache on, a `promptAI` call whose answer was stored is repeated
   * from the cache: same result, no request, whatever the client would say.
   */
  lemma PromptAIRepeatServedFromCache(config: Config, encode: Value -> string, cache: Cache, args: FieldArgs,
                                      client: Request -> Reply, later: Request -> Reply)
    requires config.enableCache
    ensures var first := PromptAISpec(config, encode, cache, args, client);
      FieldKeyFor(config, args) in first.cache ==>
        PromptAISpec(config, encode, first.cache, args, later) == Effects(first.outcome, first.cache, [])
  {
  }

  /**
   * `promptAI` asks the client at most once, and only on a cache miss; it
   * stores only a trimmed answer the client gave, and only with the cache on;
   * with the cache on, every fresh answer is stored under the call's key.
   */
  lemma PromptAICachesAnswersOnly(config: Config, encode: Value -> string, cache: Cache, args: FieldArgs, client: Request -> Reply)
    ensures var e := PromptAISpec(config, encode, cache, args, client);
      && |e.sent| <= 1
      && (e.sent == [] <==> config.enableCache && FieldKeyFor(config, args) in cache)
      && (e.sent == [] ==> e.outcome == Returned(CachedValue(cache[FieldKeyFor(config, args)])) && e.cache == cache)
      && (e.cache == cache || (
            && config.enableCache && |e.sent| == 1 && client(e.sent[0]).Generated?
            && e.outcome == Returned(Str(Trim(client(e.sent[0]).text)))
            && e.cache == cache[FieldKeyFor(config, args) := CachedText(Trim(client(e.sent[0]).text))]))
      && (config.enableCache && |e.sent| == 1 && client(e.sent[0]).Generated? ==>
            && e.cache == cache[FieldKeyFor(config, args) := CachedText(Trim(client(e.sent[0]).text))]
            && FieldKeyFor(config, args) in e.cache)
  {
  }

  /**
   * A fresh `promptAI` answer has no leading or trailing blanks; when the
   * client fails, the call throws exactly when `throwOnError` is set and
   * otherwise returns the fallback string, the fallback callable's value, or null.
   */
  lemma PromptAIOutcome(config: Config, encode: Value -> string, cache: Cache, args: FieldArgs, client: Request -> Reply)
    ensures var e := PromptAISpec(config, encode, cache, args, client);
      && (|e.sent| == 1 && client(e.sent[0]).Generated? ==>
            e.outcome.Returned? && e.outcome.value.Str? && var s := e.outcome.value.s;
            |s| > 0 ==> !IsTrimmed(s[0]) && !IsTrimmed(s[|s| - 1]))
      && (|e.sent| == 1 && client(e.sent[0]).ClientError? ==>
            (e.outcome.Thrown? <==> args.throwOnError)
            && (!args.throwOnError ==> e.outcome.value == FallbackResult(args.fallback))
            && e.cache == cache)
  {
    var key := FieldKeyFor(config, args);
    if !(config.enableCache && key in cache) {
      var request := FieldRequestFor(config, args, encode);
      assert PromptAISpec(config, encode, cache, args, client) == FieldReplyEffects(config, cache, key, request, client(request), args);
      match client(request)
      case Generated(text) =>
        assert PromptAISpec(config, encode, cache, args, client).outcome == Returned(Str(Trim(text)));
      case ClientError(_) =>
    }
  }

  /** Storing a `promptAI` answer keeps the cache shaped. */
  lemma PromptAIKeepsCacheShaped(config: Config, encode: Value -> string, cache: Cache, args: FieldArgs, client: Request -> Reply)
    requires CacheShaped(cache)
    ensures CacheShaped(PromptAISpec(config, encode, cache, args, client).cache)
  {
    var e := PromptAISpec(config, encode, cache, args, client);
    if e.cache != cache {
      CacheShapedUpdate(cache, FieldKeyFor(config, args), e.cache[FieldKeyFor(config, args)]);
    }
  }

  /**
   * Whatever happens short of an exception, `promptAIObject` returns an object
   * holding every requested field, camel-cased or as given; when the client
   * fails or the reply is not JSON, the object returned is the fallback
   * object, whose keys are exactly the requested names as given; and the
   * cache stays shaped.
   */
  lemma PromptAIObjectHasFields(config: Config, encode: Value -> string, decode: string -> JsonResult, cache: Cache,
                                args: FieldsArgs, client: Request -> Reply)
    requires CacheShaped(cache)
    ensures var e := PromptAIObjectSpec(config, encode, decode, cache, args, client);
      && (e.outcome.Returned? ==>
            forall f :: f in args.fields ==> HasKey(e.outcome.value, Camel(f)) || HasKey(e.outcome.value, f))
      && (!args.throwOnError ==> e.outcome.Returned?)
      && (e.outcome.Thrown? ==> e.cache == cache)
      && (|e.sent| == 1 && !args.throwOnError &&
          (client(e.sent[0]).ClientError? || DecodeReply(decode, client(e.sent[0]).text, '{', '}').InvalidJson?) ==>
            && e.outcome.value == FallbackValues(args.fields, args.fallbacks)
            && (forall k :: HasKey(e.outcome.value, k) <==> k in args.fields)
            && e.cache == cache)
      && CacheShaped(e.cache)
  {
    var key := FieldsKeyFor(config, args);
    var e := PromptAIObjectSpec(config, encode, decode, cache, args, client);
    if config.enableCache && key in cache {
      assert Fits(key, cache[key]);
    } else {
      var request := FieldsRequestFor(config, args, encode);
      FallbackValuesShape(args.fields, args.fallbacks);
      match client(request)
      case ClientError(_) =>
      case Generated(text) =>
        match DecodeReply(decode, text, '{', '}')
        case InvalidJson =>
        case Json(v) =>
          PatchFieldsShape(DecodedEntries(v), args.fields, args.fallbacks);
          if config.enableCache {
            CacheShapedUpdate(cache, key, CachedObject(e.outcome.value));
          }
    }
  }

  /**
   * A decoded `promptAIObject` reply is kept as it came: its keys stay in
   * place, its non-null values are unchanged, and only missing fields are added.
   */
  lemma PromptAIObjectKeepsReply(config: Config, encode: Value -> string, decode: string -> JsonResult, cache: Cache,
                                 args: FieldsArgs, client: Request -> Reply)
    requires !(config.enableCache && FieldsKeyFor(config, args) in cache)
    requires var text := client(FieldsRequestFor(config, args, encode));
      text.Generated? && DecodeReply(decode, text.text, '{', '}').Json?
    ensures var v := DecodeReply(decode, client(FieldsRequestFor(config, args, encode)).text, '{', '}').value;
      var e := PromptAIObjectSpec(config, encode, decode, cache, args, client);
      e.outcome.Returned? && Extends(DecodedEntries(v), e.outcome.value)
  {
    var v := DecodeReply(decode, client(FieldsRequestFor(config, args, encode)).text, '{', '}').value;
    PatchFieldsShape(DecodedEntries(v), args.fields, args.fallbacks);
  }

  /**
   * `promptAIObject` serves a cached object without asking the client, asks
   * it at most once otherwise, and stores only an object decoded from a reply,
   * only with the cache on; fallback objects are never stored, and with the
   * cache on every object decoded from a fresh reply is stored under the key.
   */
  lemma PromptAIObjectCachesSuccessOnly(config: Config, encode: Value -> string, decode: string -> JsonResult, cache: Cache,
                                        args: FieldsArgs, client: Request -> Reply)
    ensures var e := PromptAIObjectSpec(config, encode, decode, cache, args, client);
      var key := FieldsKeyFor(config, args);
      && |e.sent| <= 1
      && (e.sent == [] <==> config.enableCache && key in cache)
      && (e.sent == [] ==> e.outcome == Returned(CachedEntries(cache[key])) && e.cache == cache)
      && (e.cache == cache || (
            && config.enableCache && |e.sent| == 1 && client(e.sent[0]).Generated?
            && DecodeReply(decode, client(e.sent[0]).text, '{', '}').Json?
            && e.outcome.Returned? && e.cache == cache[key := CachedObject(e.outcome.value)]))
      && (config.enableCache && |e.sent| == 1 && client(e.sent[0]).Generated?
          && DecodeReply(decode, client(e.sent[0]).text, '{', '}').Json? ==>
            e.outcome.Returned? && e.cache == cache[key := CachedObject(e.outcome.value)] && key in e.cache)
  {
    var key := FieldsKeyFor(config, args);
    if !(config.enableCache && key in cache) {
      var request := FieldsRequestFor(config, args, encode);
      assert PromptAIObjectSpec(config, encode, decode, cache, args, client) == FieldsReplyEffects(config, decode, cache, key, request, client(request), args);
      match client(request)
      case ClientError(_) =>
      case Generated(text) =>
        match DecodeReply(decode, text, '{', '}')
        case InvalidJson =>
        case Json(v) =>
    }
  }

  /** With the cache on, a stored `promptAIObject` result is repeated without a request. */
  lemma PromptAIObjectRepeatServedFromCache(config: Config, encode: Value -> string, decode: string -> JsonResult, cache: Cache,
                                            args: FieldsArgs, client: Request -> Reply, later: Request -> Reply)
    requires config.enableCache
    ensures var first := PromptAIObjectSpec(config, encode, decode, cache, args, client);
      FieldsKeyFor(config, args) in first.cache ==>
        PromptAIObjectSpec(config, encode, decode, first.cache, args, later) == Effects(first.outcome, first.cache, [])
  {
  }

  /**
   * Short of an exception, `createAIObject` returns an object holding every
   * required field, the cache stays shaped, and a call whose client fails or
   * whose reply is not JSON falls back to the basic object, leaving the cache
   * as it was.
   */
  lemma CreateAIObjectHasRequired(config: Config, encode: Value -> string, decode: string -> JsonResult, cache: Cache,
                                  args: CreateArgs, client: Request -> Reply)
    requires CacheShaped(cache)
    ensures var e := CreateAIObjectSpec(config, encode, decode, cache, args, client);
      && (e.outcome.Returned? ==> forall f :: f in args.required ==> HasKey(e.outcome.value, f))
      && (!args.throwOnError ==> e.outcome.Returned?)
      && (e.outcome.Thrown? ==> e.cache == cache)
      && (|e.sent| == 1 && !args.throwOnError &&
          (client(e.sent[0]).ClientError? || DecodeReply(decode, client(e.sent[0]).text, '{', '}').InvalidJson?) ==>
            e.outcome.value == BasicObject(args.objectType, args.seed, args.required, args.fallbacks) && e.cache == cache)
      && CacheShaped(e.cache)
  {
    var key := CreateKeyFor(config, args);
    var e := CreateAIObjectSpec(config, encode, decode, cache, args, client);
    if config.enableCache && key in cache {
      assert Fits(key, cache[key]);
    } else {
      var request := CreateRequestFor(config, args, encode);
      BasicObjectShape(args.objectType, args.seed, args.required, args.fallbacks);
      match client(request)
      case ClientError(_) =>
      case Generated(text) =>
        match DecodeReply(decode, text, '{', '}')
        case InvalidJson =>
        case Json(v) =>
          FillRequiredShape(DecodedEntries(v), args.required, args.fallbacks);
          if config.enableCache {
            CacheShapedUpdate(cache, key, CachedObject(e.outcome.value));
          }
    }
  }

  /**
   * `createAIObject` serves a cached object without asking the client, asks
   * it at most once otherwise, and stores only an object decoded from a reply,
   * only with the cache on; basic objects are never stored, and with the
   * cache on every object decoded from a fresh reply is stored under the key.
   */
  lemma CreateAIObjectCachesSuccessOnly(config: Config, encode: Value -> string, decode: string -> JsonResult, cache: Cache,
                                        args: CreateArgs, client: Request -> Reply)
    ensures var e := CreateAIObjectSpec(config, encode, decode, cache, args, client);
      var key := CreateKeyFor(config, args);
      && |e.sent| <= 1
      && (e.sent == [] <==> config.enableCache && key in cache)
      && (e.sent == [] ==> e.outcome == Returned(CachedEntries(cache[key])) && e.cache == cache)
      && (e.cache == cache || (
            && config.enableCache && |e.sent| == 1 && client(e.sent[0]).Generated?
            && DecodeReply(decode, client(e.sent[0]).text, '{', '}').Json?
            && e.outcome.Returned? && e.cache == cache[key := CachedObject(e.outcome.value)]))
      && (config.enableCache && |e.sent| == 1 && client(e.sent[0]).Generated?
          && DecodeReply(decode, client(e.sent[0]).text, '{', '}').Json? ==>
            e.outcome.Returned? && e.cache == cache[key := CachedObject(e.outcome.value)] && key in e.cache)
  {
    var key := CreateKeyFor(config, args);
    if !(config.enableCache && key in cache) {
      var request := CreateRequestFor(config, args, encode);
      assert CreateAIObjectSpec(config, encode, decode, cache, args, client) == CreateReplyEffects(config, decode, cache, key, request, client(request), args);
      match client(request)
      case ClientError(_) =>
      case Generated(text) =>
        match DecodeReply(decode, text, '{', '}')
        case InvalidJson =>
        case Json(v) =>
    }
  }

  /** With the cache on, a stored `createAIObject` result is repeated without a request. */
  lemma CreateAIObjectRepeatServedFromCache(config: Config, encode: Value -> string, decode: string -> JsonResult, cache: Cache,
                                            args: CreateArgs, client: Request -> Reply, later: Request -> Reply)
    requires config.enableCache
    ensures var first := CreateAIObjectSpec(config, encode, decode, cache, args, client);
      CreateKeyFor(config, args) in first.cache ==>
        CreateAIObjectSpec(config, encode, decode, first.cache, args, later) == Effects(first.outcome, first.cache, [])
  {
  }

  /** Object types differing only in case share `createAIObject` cache entries. */
  lemma CreateKeyIgnoresCase(config: Config, args: CreateArgs, objectType: string)
    requires Lower(objectType) == Lower(args.objectType)
    ensures CreateKeyFor(config, args.(objectType := objectType)) == CreateKeyFor(config, args)
  {
  }

  /**
   * For a non-negative count, `createAIBatch` returns exactly `count` objects,
   * each holding every required field, unless it throws; the cache stays
   * shaped; and a call whose client fails, whose reply is not JSON, or whose
   * reply decodes to something other than a non-empty array returns the basic
   * batch, leaving the cache as it was.
   */
  lemma CreateAIBatchHasCount(config: Config, encode: Value -> string, decode: string -> JsonResult, cache: Cache,
                              args: BatchArgs, client: Request -> Reply)
    requires CacheShaped(cache)
    ensures var e := CreateAIBatchSpec(config, encode, decode, cache, args, client);
      && (e.outcome.Returned? && args.count >= 0 ==> |e.outcome.value| == args.count)
      && (e.outcome.Returned? ==>
            forall i, f :: 0 <= i < |e.outcome.value| && f in args.required ==> HasKey(e.outcome.value[i], f))
      && (!args.throwOnError ==> e.outcome.Returned?)
      && (e.outcome.Thrown? ==> e.cache == cache)
      && (|e.sent| == 1 && !args.throwOnError &&
          (|| client(e.sent[0]).ClientError?
           || DecodeReply(decode, client(e.sent[0]).text, '[', ']').InvalidJson?
           || !NonEmptyArray(DecodeReply(decode, client(e.sent[0]).text, '[', ']').value)) ==>
            e.outcome.value == BasicBatch(args.objectType, args.count, args.seed, args.required, args.fallbacks)
            && e.cache == cache)
      && CacheShaped(e.cache)
  {
    var key := BatchKeyFor(config, args);
    var e := CreateAIBatchSpec(config, encode, decode, cache, args, client);
    if config.enableCache && key in cache {
      assert Fits(key, cache[key]);
    } else {
      var request := BatchRequestFor(config, args, encode);
      BasicBatchFilled(args.objectType, args.count, args.seed, args.required, args.fallbacks);
      match client(request)
      case ClientError(_) =>
      case Generated(text) =>
        match DecodeReply(decode, text, '[', ']')
        case InvalidJson =>
        case Json(v) =>
          if NonEmptyArray(v) {
            ShapeBatchFits(DecodedObjects(v), args.count, args.objectType, args.seed, args.required, args.fallbacks);
            if config.enableCache {
              CacheShapedUpdate(cache, key, CachedBatch(e.outcome.value));
            }
          }
    }
  }

  /**
   * Freshly made batches set every required field in every object (to a
   * non-null value) when no fallback callable yields null.
   */
  lemma CreateAIBatchFreshFieldsSet(config: Config, encode: Value -> string, decode: string -> JsonResult, cache: Cache,
                                    args: BatchArgs, client: Request -> Reply)
    requires !(config.enableCache && BatchKeyFor(config, args) in cache)
    requires ProducersNonNull(args.fallbacks)
    ensures var e := CreateAIBatchSpec(config, encode, decode, cache, args, client);
      e.outcome.Returned? ==>
        forall i, f :: 0 <= i < |e.outcome.value| && f in args.required ==> IsSet(e.outcome.value[i], f)
  {
    var key := BatchKeyFor(config, args);
    var e := CreateAIBatchSpec(config, encode, decode, cache, args, client);
    var request := BatchRequestFor(config, args, encode);
    BasicBatchFilled(args.objectType, args.count, args.seed, args.required, args.fallbacks);
    match client(request)
    case ClientError(_) =>
    case Generated(text) =>
      match DecodeReply(decode, text, '[', ']')
      case InvalidJson =>
      case Json(v) =>
        if NonEmptyArray(v) {
          ShapeBatchFilled(DecodedObjects(v), args.count, args.objectType, args.seed, args.required, args.fallbacks);
        }
  }

  /**
   * When the client fails and the seed holds a string, the fallback batch
   * holds pairwise different objects.
   */
  lemma CreateAIBatchFallbackDistinct(config: Config, encode: Value -> string, decode: string -> JsonResult, cache: Cache,
                                      args: BatchArgs, client: Request -> Reply, k: string, i: nat, j: nat)
    requires !(config.enableCache && BatchKeyFor(config, args) in cache)
    requires client(BatchRequestFor(config, args, encode)).ClientError? && !args.throwOnError
    requires Lookup(args.seed, k).Str? && i < args.count && j < args.count && i != j
    ensures var e := CreateAIBatchSpec(config, encode, decode, cache, args, client);
      e.outcome.Returned? && e.outcome.value[i] != e.outcome.value[j]
  {
    BasicBatchDistinct(args.objectType, args.count, args.seed, args.required, args.fallbacks, k, i, j);
  }

  /**
   * `createAIBatch` serves a cached batch without asking the client, asks it
   * at most once otherwise, and stores only a batch built from a decoded,
   * non-empty array, only with the cache on; basic batches are never stored,
   * and with the cache on every such shaped batch is stored under the key.
   */
  lemma CreateAIBatchCachesSuccessOnly(config: Config, encode: Value -> string, decode: string -> JsonResult, cache: Cache,
                                       args: BatchArgs, client: Request -> Reply)
    ensures var e := CreateAIBatchSpec(config, encode, decode, cache, args, client);
      var key := BatchKeyFor(config, args);
      && |e.sent| <= 1
      && (e.sent == [] <==> config.enableCache && key in cache)
      && (e.sent == [] ==> e.outcome == Returned(CachedObjects(cache[key])) && e.cache == cache)
      && (e.cache == cache || (
            && config.enableCache && |e.sent| == 1 && client(e.sent[0]).Generated?
            && DecodeReply(decode, client(e.sent[0]).text, '[', ']').Json?
            && NonEmptyArray(DecodeReply(decode, client(e.sent[0]).text, '[', ']').value)
            && e.outcome.Returned? && e.cache == cache[key := CachedBatch(e.outcome.value)]))
      && (config.enableCache && |e.sent| == 1 && client(e.sent[0]).Generated?
          && DecodeReply(decode, client(e.sent[0]).text, '[', ']').Json?
          && NonEmptyArray(DecodeReply(decode, client(e.sent[0]).text, '[', ']').value) ==>
            e.outcome.Returned? && e.cache == cache[key := CachedBatch(e.outcome.value)] && key in e.cache)
  {
    var key := BatchKeyFor(config, args);
    if !(config.enableCache && key in cache) {
      var request := BatchRequestFor(config, args, encode);
      assert CreateAIBatchSpec(config, encode, decode, cache, args, client) == BatchReplyEffects(config, decode, cache, key, request, client(request), args);
      match client(request)
      case ClientError(_) =>
      case Generated(text) =>
        match DecodeReply(decode, text, '[', ']')
        case InvalidJson =>
        case Json(v) =>
          if NonEmptyArray(v) && config.enableCache {
            var result := ShapeBatch(DecodedObjects(v), args.count, args.objectType, args.seed, args.required, args.fallbacks);
            assert BatchReplyEffects(config, decode, cache, key, request, client(request), args)
              == Effects(Returned(result), cache[key := CachedBatch(result)], [request]);
          }
    }
  }

  /** With the cache on, a stored `createAIBatch` result is repeated without a request. */
  lemma CreateAIBatchRepeatServedFromCache(config: Config, encode: Value -> string, decode: string -> JsonResult, cache: Cache,
                                           args: BatchArgs, client: Request -> Reply, later: Request -> Reply)
    requires config.enableCache
    ensures var first := CreateAIBatchSpec(config, encode, decode, cache, args, client);
      BatchKeyFor(config, args) in first.cache ==>
        CreateAIBatchSpec(config, encode, decode, first.cache, args, later) == Effects(first.outcome, first.cache, [])
  {
    var key := BatchKeyFor(config, args);
    if key !in cache {
      var request := BatchRequestFor(config, args, encode);
      match client(request)
      case ClientError(_) =>
      case Generated(text) =>
        match DecodeReply(decode, text, '[', ']')
        case InvalidJson =>
        case Json(v) =>
    }
  }
}
