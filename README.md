# laravel-faker-ai: the prompt provider and the AI-context factory trait

This project models the core of the PHP package `jordan-price/laravel-faker-ai`,
a Faker provider that asks a large-language-model client for fake data:

- `FakerAIPromptProvider` has four entry points:
  - `promptAI` asks for one value;
  - `promptAIObject` asks for one object with named fields;
  - `createAIObject` asks for one object of a given type;
  - `createAIBatch` asks for `count` objects of a given type.

  Each entry point works the same way:
  - it resolves the provider and the model from the arguments and the
    package configuration;
  - it looks up a cache entry keyed by its arguments;
  - on a miss it builds a prompt and sends one request to the client;
  - it trims the reply and, for the object and batch paths, cuts the JSON
    object or array out of it and decodes it;
  - it fills in missing fields from the caller's fallbacks or from a
    built-in table;
  - it stores a successful result in the cache when caching is enabled.

  On a client error or an undecodable reply it either throws
  (`throwOnError`) or returns a synthetic result built without the model:
  - fallback values for `promptAIObject`;
  - a "basic object" for `createAIObject`;
  - a "basic batch" of numbered basic objects for `createAIBatch`.
- `HasAIContext` is a trait for Laravel model factories. It keeps:
  - an on/off flag;
  - a context seed;
  - the list of fields the model should generate.

  `createMany` either hands over to the factory's own `createMany`, or asks
  for one `createAIBatch` and splices the chosen fields of object `i` into
  the attributes of model `i`.

## How the model is built

- PHP arrays with string keys are ordered association lists
  (`PhpValues.Entries`):
  - a lookup finds the first entry with the key, and an absent key reads
    as null;
  - `isset` means "present and not null", and `??` is `LookupOr`;
  - an assignment replaces the value in place or appends a new entry;
  - `array_merge` is `Merge`.
- JSON values are `PhpValues.Value`. `json_encode` and `json_decode` are
  functions given to the provider when it is built.
- The text-generation client is a function from `Request` to `Reply`,
  passed to each call. The provider records every request it sends in a
  ghost history `sent`. That is how "the client was not asked" is stated.
- The prompt text is not built. A `Prompt` value holds what the text is
  made of: the camel-cased term or fields, the rendered context, the object
  type, the count and the required fields.
- A cache key is the tuple of its ingredients:
  - provider;
  - model, with a missing model as `""`;
  - term, or fields;
  - context or seed;
  - lower-cased object type;
  - count;
  - required fields.
- Every entry point is a total function (`PromptAISpec`,
  `PromptAIObjectSpec`, `CreateAIObjectSpec`, `CreateAIBatchSpec`). Each
  returns the outcome, the new cache and the requests sent. The methods of
  the class `FakerAIPromptProvider` are proved to have exactly those
  effects. They also keep the cache invariant `CacheShaped`: every stored
  entry has the shape its key promises.
- Each loop of the source is a method proved equal to a function:
  - `FormatContextForPrompt`;
  - `GetFallbackValues`;
  - `PatchMissingFields`;
  - `FillRequiredFields`;
  - `GetBasicObject`;
  - `GetBasicBatch`;
  - `PadWithBasicObjects`;
  - `FillEachObject`;
  - `CreateManyWithAI`.

  The properties are lemmas about those functions.
- The trait is the class `HasAIContext.AIContextFactory`. Its fields are
  the trait's three properties. The framework hooks are constants of the
  class:
  - the model's base name;
  - `getRawAttributes`, given the attribute overrides and the model's index.

## Model

| member | source | states |
|---|---|---|
| PromptSupport.ProviderFromName | src/Providers/FakerAIPromptProvider.php:42-51 | "openai", "anthropic" and "mistral" select their own backend (each an if-and-only-if); every other name, "ollama" included, selects Ollama |
| PromptSupport.ProviderNameRoundTrip | src/Providers/FakerAIPromptProvider.php:42-51 | every backend is selected by its own configuration name |
| PromptSupport.GetConfigChoices | src/Providers/FakerAIPromptProvider.php:173-207 | a registered `faker-ai` configuration is used as it is; without any faker-ai configuration, caching is off, every known backend has a default model, and the default is Ollama with llama3 |
| PromptSupport.ResolveProvider | src/Providers/FakerAIPromptProvider.php:81 | an explicit provider wins, then the configured default, then "ollama" |
| PromptSupport.ResolveModel | src/Providers/FakerAIPromptProvider.php:83 | an explicit model wins; otherwise there is a model exactly when the configured table lists the provider name, and it is that entry |
| PromptSupport.UnknownProviderGetsOllamaWithoutModel | src/Providers/FakerAIPromptProvider.php:81-83 | an unknown provider name is sent to Ollama and, with only the four known names in the table, gets no default model |
| PromptSupport.Segments | src/Providers/FakerAIPromptProvider.php:157-163 | reference definition: one "key: value" segment per context entry, in the array's order; the rendering property is carried by FormatContextSnoc and FormatContextForPrompt |
| PromptSupport.FormatContextSmall | src/Providers/FakerAIPromptProvider.php:153-166 | an empty context renders as the empty string, a one-entry context as its single segment |
| PromptSupport.FormatContextSnoc | src/Providers/FakerAIPromptProvider.php:153-166 | each further entry appends ", " and its own segment, so the rendering is the segments joined by ", " |
| PromptSupport.FormatContextForPrompt | src/Providers/FakerAIPromptProvider.php:153-166 | the loop returns the segments of all entries joined by ", " |
| PromptSupport.FirstIndexOf | src/Providers/FakerAIPromptProvider.php:277 | the index found holds the character and nothing before it does; none is found only when the character is absent |
| PromptSupport.LastIndexOf | src/Providers/FakerAIPromptProvider.php:277 | the index found holds the character and nothing after it does; none is found only when the character is absent |
| PromptSupport.JsonSpan | src/Providers/FakerAIPromptProvider.php:276-281 | the text to decode is either the whole reply or a span that starts with the opening and ends with the closing character |
| PromptSupport.JsonSpanOfEmbedded | src/Providers/FakerAIPromptProvider.php:624-629 | a JSON object or array embedded in prose, with no opening character before it and no closing one after it, is cut out exactly |
| PromptSupport.JsonSpanWithoutMatch | src/Providers/FakerAIPromptProvider.php:443-447 | when no opening character is followed by a closing one, the whole reply is decoded |
| PhpStrings.Camel | src/Providers/FakerAIPromptProvider.php:96 | a camel-cased name has no spaces, dashes or underscores |
| PhpStrings.CamelIdempotent | src/Providers/FakerAIPromptProvider.php:298 | camel-casing a camel-cased name changes nothing |
| PhpStrings.CamelOfCamelName | src/Providers/FakerAIPromptProvider.php:298-299 | a name already in camel case is its own camel form |
| PhpStrings.Lower | src/Providers/FakerAIPromptProvider.php:407 | reference definition of ASCII `strtolower`, character by character; its use in the cache keys is carried by CreateKeyIgnoresCase |
| PhpStrings.UcWords | src/Providers/FakerAIPromptProvider.php:544-545 | `ucwords` upper-cases the first character and every character after a whitespace delimiter, keeps every other character, and keeps the length of the type name |
| PhpStrings.Trim | src/Providers/FakerAIPromptProvider.php:117 | the trimmed reply is the slice left after removing blank runs at both ends, and neither of its ends is blank |
| PhpStrings.DecimalRoundTrip | src/Providers/FakerAIPromptProvider.php:718 | the decimal text of a seed number reads back as that number |
| PhpStrings.DecimalInjective | src/Providers/FakerAIPromptProvider.php:718 | different seed numbers have different decimal texts |
| PhpStrings.JoinSnoc | src/Providers/FakerAIPromptProvider.php:165 | `implode` of one more part adds the separator and that part at the end |
| PhpValues.Set | src/Providers/FakerAIPromptProvider.php:301 | after an assignment, the key holds the new value, every other key reads as before, and the key keeps its place or is appended |
| PhpValues.CoalesceAssign | src/Providers/FakerAIPromptProvider.php:523-545 | `$r[k] = $r[k] ?? v` is exactly "set k to v unless it is set" |
| PhpValues.SetIfUnsetExtends | src/Providers/FakerAIPromptProvider.php:512-514 | filling an unset key keeps every key in place and every non-null value |
| PhpValues.MergeLookup | src/Traits/HasAIContext.php:84 | after `array_merge`, a key of the later array reads its value there and any other key reads as before; the keys are those of both arrays |
| PhpValues.MergeKeepsOrder | src/Traits/HasAIContext.php:84 | `array_merge` keeps the earlier array's keys in their places at the front |
| Fallbacks.FindFallback | src/Providers/FakerAIPromptProvider.php:353-354 | a fallback is found exactly when the caller's table has an entry for the field, and it is that entry |
| Fallbacks.ExplicitFallback | src/Providers/FakerAIPromptProvider.php:353-355 | an explicit fallback applies exactly when the table has a non-null entry for the field |
| Fallbacks.DefaultFallbackEmpty | src/Providers/FakerAIPromptProvider.php:359-371 | the built-in text is empty exactly for the names outside the built-in table |
| Fallbacks.FallbackValueChoice | src/Providers/FakerAIPromptProvider.php:351-372 | an explicit fallback gives its value, or the callable's result; otherwise the result is the built-in string for the camel-cased name, empty exactly when the name is not in the table |
| Fallbacks.FallbackValueNonNull | src/Providers/FakerAIPromptProvider.php:351-372 | with callables that never return null, a fallback value is never null |
| Fallbacks.FallbackValuesShape | src/Providers/FakerAIPromptProvider.php:333-342 | the fallback object has exactly the requested fields as keys, each holding its fallback value |
| Fallbacks.FallbackValuesDistinct | src/Providers/FakerAIPromptProvider.php:333-342 | the fallback object has no key twice |
| Fallbacks.GetFallbackValues | src/Providers/FakerAIPromptProvider.php:333-342 | the loop builds the fallback object |
| Fallbacks.FillRequiredShape | src/Providers/FakerAIPromptProvider.php:463-469 | filling required fields keeps every key and non-null value, adds each missing required field with its fallback, and touches no other key |
| Fallbacks.FillRequiredUnchanged | src/Providers/FakerAIPromptProvider.php:463-469 | an object whose required fields are all set (or whose fallbacks are null) is left as it is |
| Fallbacks.FillRequiredFields | src/Providers/FakerAIPromptProvider.php:463-469 | the loop fills the required fields as specified |
| Fallbacks.PatchFieldPlacement | src/Providers/FakerAIPromptProvider.php:297-303 | a field set under its camel or original name is left alone; otherwise an explicit fallback is stored under the original name, else the built-in one under the camel name |
| Fallbacks.PatchFieldsShape | src/Providers/FakerAIPromptProvider.php:297-303 | after patching, the decoded values are kept, every requested field is present under its camel or original name, and every new key is one of those names |
| Fallbacks.PatchMissingFields | src/Providers/FakerAIPromptProvider.php:297-303 | the loop patches the decoded object field by field as specified |
| Fallbacks.PatchFieldsSnoc | src/Providers/FakerAIPromptProvider.php:297-303 | patching one more field is one more patch step on the result |
| Synthetic.Skeleton | src/Providers/FakerAIPromptProvider.php:521-546 | every default of every type's skeleton is set, and no key appears twice |
| Synthetic.ApplyDefaultsShape | src/Providers/FakerAIPromptProvider.php:521-546 | applying the defaults keeps the object's keys and non-null values, sets every default key, leaves other keys alone and adds nothing else |
| Synthetic.BasicObjectShape | src/Providers/FakerAIPromptProvider.php:501-549 | the basic object keeps the seed's set values, has every required field with its value or fallback, has every default key of its type, and has no other keys |
| Synthetic.BasicObjectKeepsSeed | src/Providers/FakerAIPromptProvider.php:507 | a set seed value survives unchanged |
| Synthetic.BasicObjectHasRequired | src/Providers/FakerAIPromptProvider.php:510-516 | a required field is present and holds a set value or its fallback |
| Synthetic.BasicObjectIsFilled | src/Providers/FakerAIPromptProvider.php:501-549 | filling required fields again does not change a basic object |
| Synthetic.ApplyDefaultsStep | src/Providers/FakerAIPromptProvider.php:523-545 | applying the defaults is one `??` assignment followed by the remaining defaults |
| Synthetic.GetBasicObject | src/Providers/FakerAIPromptProvider.php:501-549 | the method builds the basic object as specified |
| Synthetic.ApplySkeleton | src/Providers/FakerAIPromptProvider.php:519-546 | the type switch leaves the object exactly as the skeleton defaults of the lower-cased type, applied with `??` in order, leave it |
| Synthetic.IndexSeedLookup | src/Providers/FakerAIPromptProvider.php:713-721 | in the seed numbered n, each string value gets " n" appended and other values are unchanged |
| Synthetic.BasicBatchAt | src/Providers/FakerAIPromptProvider.php:702-727 | a basic batch has `count` objects (none for a count below one), and object i is the basic object on the seed numbered i+1 |
| Synthetic.BasicBatchShape | src/Providers/FakerAIPromptProvider.php:702-727 | every object of a basic batch has every required field, the number in its string seed values, and its other seed values unchanged |
| Synthetic.BasicBatchFilled | src/Providers/FakerAIPromptProvider.php:702-727 | every object of a basic batch has every required field, and each is set when no fallback callable returns null |
| Synthetic.NumberedSeedValue | src/Providers/FakerAIPromptProvider.php:713-723 | a numbered string seed value reaches the basic object, and other set seed values are kept |
| Synthetic.BasicBatchDistinct | src/Providers/FakerAIPromptProvider.php:712-718 | with a string seed value, no two objects of a basic batch are equal |
| Synthetic.GetBasicBatch | src/Providers/FakerAIPromptProvider.php:702-727 | the nested loops build the basic batch as specified |
| Synthetic.NumberSeed | src/Providers/FakerAIPromptProvider.php:713-721 | the inner loop gives the seed numbered i+1: each string value gets " " and the number appended, every other entry is unchanged |
| Synthetic.SliceFront | src/Providers/FakerAIPromptProvider.php:654 | `array_slice(…, 0, count)` is a prefix: `count` items at most, and for a negative count all but the last `-count` |
| Synthetic.ShapeBatchShape | src/Providers/FakerAIPromptProvider.php:653-669 | for a count of at least zero, the shaped batch has exactly `count` objects: the decoded ones first (with required fields filled), then basic objects; every one has every required field |
| Synthetic.ShapeBatchNegativeCount | src/Providers/FakerAIPromptProvider.php:654-657 | a negative count drops objects from the end of the decoded array and adds no basic objects |
| Synthetic.PadWithBasicObjects | src/Providers/FakerAIPromptProvider.php:655-657 | the padding loop appends basic objects until there are `count` |
| Synthetic.PadByPosition | src/Providers/FakerAIPromptProvider.php:655-657 | a sequence that starts with the objects and continues with the filler up to `count` is the padded batch |
| Synthetic.FillEachObject | src/Providers/FakerAIPromptProvider.php:660-669 | the loop fills the required fields of every object |
| Synthetic.ShapeDecodedBatch | src/Providers/FakerAIPromptProvider.php:653-669 | slicing, padding and filling give the shaped batch |
| PromptProvider.CacheShapedUpdate | src/Providers/FakerAIPromptProvider.php:120-123 | storing an entry that fits its key keeps every cache entry fitting its key |
| PromptProvider.CamelAll | src/Providers/FakerAIPromptProvider.php:250-252 | reference definition: the prompt's field list is each requested field camel-cased, in order |
| PromptProvider.ContextText | src/Providers/FakerAIPromptProvider.php:98-106 | the prompt carries rendered context exactly when the context is not empty |
| PromptProvider.FakerAIPromptProvider.constructor | src/Providers/FakerAIPromptProvider.php:31-35 | a new provider stores the container it is given, modelled by the `faker-ai` configuration that container holds (or the in-code defaults when it holds none); it starts from a well-shaped cache store and has sent nothing |
| PromptProvider.FakerAIPromptProvider.PromptAI | src/Providers/FakerAIPromptProvider.php:70-145 | the call has exactly the outcome, new cache and requests of `promptAI`'s specification and keeps the cache well shaped |
| PromptProvider.FakerAIPromptProvider.PromptAIObject | src/Providers/FakerAIPromptProvider.php:223-324 | the call has exactly the outcome, new cache and requests of `promptAIObject`'s specification and keeps the cache well shaped |
| PromptProvider.FakerAIPromptProvider.CreateAIObject | src/Providers/FakerAIPromptProvider.php:390-490 | the call has exactly the outcome, new cache and requests of `createAIObject`'s specification and keeps the cache well shaped |
| PromptProvider.FakerAIPromptProvider.CreateAIBatch | src/Providers/FakerAIPromptProvider.php:567-690 | the call has exactly the outcome, new cache and requests of `createAIBatch`'s specification and keeps the cache well shaped |
| PromptProvider.PromptAIRepeatServedFromCache | src/Providers/FakerAIPromptProvider.php:86-92 | with caching on, a repeated `promptAI` call whose answer was stored returns the same result with no request, whatever the client says |
| PromptProvider.PromptAICachesAnswersOnly | src/Providers/FakerAIPromptProvider.php:90-123 | at most one request, none exactly on a cache hit, which returns the stored value; the cache changes only to store the trimmed answer, and only with caching on; with caching on, a fresh answer is always stored under the call's key |
| PromptProvider.PromptAIOutcome | src/Providers/FakerAIPromptProvider.php:117-144 | a fresh answer has no blank ends; on a client error the call throws exactly when `throwOnError` is set, and otherwise returns the fallback string, the callable's value or null, with the cache unchanged |
| PromptProvider.FieldsFailed | src/Providers/FakerAIPromptProvider.php:312-323 | a failure is rethrown unchanged exactly when `throwOnError` is set; otherwise the call returns instead of throwing |
| PromptProvider.CreateFailed | src/Providers/FakerAIPromptProvider.php:478-489 | a failure is rethrown unchanged exactly when `throwOnError` is set; otherwise the call returns instead of throwing |
| PromptProvider.BatchFailed | src/Providers/FakerAIPromptProvider.php:678-689 | a failure is rethrown unchanged exactly when `throwOnError` is set; otherwise the call returns instead of throwing |
| PromptProvider.PromptAIKeepsCacheShaped | src/Providers/FakerAIPromptProvider.php:120-123 | `promptAI` keeps every cache entry fitting its key |
| PromptProvider.PromptAIObjectHasFields | src/Providers/FakerAIPromptProvider.php:223-324 | a returned object has every requested field under its camel or original name; without `throwOnError` nothing is thrown; a throw leaves the cache unchanged; when the client fails or the reply is not JSON, the fallback object is returned, its keys are exactly the requested names as given, and the cache is unchanged; the cache stays well shaped |
| PromptProvider.PromptAIObjectKeepsReply | src/Providers/FakerAIPromptProvider.php:284-303 | a decoded reply keeps its keys in place and its non-null values; only missing fields are added |
| PromptProvider.PromptAIObjectCachesSuccessOnly | src/Providers/FakerAIPromptProvider.php:244-309 | at most one request, none exactly on a cache hit, which returns the stored object; only an object decoded from a reply is stored, and only with caching on; fallback objects are never stored; with caching on, a fresh decoded object is always stored under the call's key |
| PromptProvider.PromptAIObjectRepeatServedFromCache | src/Providers/FakerAIPromptProvider.php:239-246 | with caching on, a repeated call whose object was stored returns it with no request |
| PromptProvider.CreateAIObjectHasRequired | src/Providers/FakerAIPromptProvider.php:390-490 | a returned object has every required field; without `throwOnError` nothing is thrown; when the client fails or the reply is not JSON, the basic object is returned and the cache is unchanged; the cache stays well shaped |
| PromptProvider.CreateAIObjectCachesSuccessOnly | src/Providers/FakerAIPromptProvider.php:413-475 | at most one request, none exactly on a cache hit, which returns the stored object; only an object decoded from a reply is stored, and only with caching on; basic objects are never stored; with caching on, a fresh decoded object is always stored under the call's key |
| PromptProvider.CreateAIObjectRepeatServedFromCache | src/Providers/FakerAIPromptProvider.php:406-415 | with caching on, a repeated call whose object was stored returns it with no request |
| PromptProvider.CreateKeyIgnoresCase | src/Providers/FakerAIPromptProvider.php:407-410 | object types that differ only in letter case share a cache entry |
| PromptProvider.ShapeBatchFits | src/Providers/FakerAIPromptProvider.php:653-669 | a shaped batch fits its cache key: `count` objects when the count is not negative, and every required field in each |
| PromptProvider.ShapeBatchFilled | src/Providers/FakerAIPromptProvider.php:653-669 | when no fallback callable returns null, every required field of every shaped object is set |
| PromptProvider.CreateAIBatchHasCount | src/Providers/FakerAIPromptProvider.php:567-690 | a returned batch has exactly `count` objects for a count of at least zero, and every object has every required field; without `throwOnError` nothing is thrown; when the client fails, the reply is not JSON, or it decodes to something other than a non-empty array, the basic batch is returned and the cache is unchanged; the cache stays well shaped |
| PromptProvider.CreateAIBatchFreshFieldsSet | src/Providers/FakerAIPromptProvider.php:645-669 | when the batch is made afresh and no fallback callable returns null, every required field of every object is set |
| PromptProvider.CreateAIBatchFallbackDistinct | src/Providers/FakerAIPromptProvider.php:678-689 | when the client fails and errors are not thrown, the fallback batch has no two equal objects if the seed has a string value |
| PromptProvider.CreateAIBatchCachesSuccessOnly | src/Providers/FakerAIPromptProvider.php:591-675 | at most one request, none exactly on a cache hit, which returns the stored batch; only a batch built from a decoded non-empty array is stored, and only with caching on; basic batches are never stored; with caching on, every such batch is stored under the call's key |
| PromptProvider.CreateAIBatchRepeatServedFromCache | src/Providers/FakerAIPromptProvider.php:584-593 | with caching on, a repeated call whose batch was stored returns it with no request |
| HasAIContext.SpliceLookup | src/Traits/HasAIContext.php:153-157 | after splicing, a chosen field set in the AI object reads the AI value and every other key reads the base attribute; no key is added except chosen fields that the AI object sets |
| HasAIContext.SpliceNothing | src/Traits/HasAIContext.php:147 | a missing AI object (`?? []`) leaves the base attributes unchanged |
| HasAIContext.ModelsWithAI | src/Traits/HasAIContext.php:130-166 | one model per unit of quantity (none for less than one): a callable or an array counts as one |
| HasAIContext.ModelsTakeAIFields | src/Traits/HasAIContext.php:145-163 | model i reads each chosen field from AI object i when it is set there, and every other attribute from the base; beyond the AI data the base is unchanged |
| HasAIContext.AIContextFactory.constructor | src/Traits/HasAIContext.php:21-35 | a factory starts with AI context on, an empty seed and no AI fields |
| HasAIContext.AIContextFactory.WithAIContext | src/Traits/HasAIContext.php:42-51 | turns AI context on and merges a non-empty seed into the context seed |
| HasAIContext.AIContextFactory.WithoutAIContext | src/Traits/HasAIContext.php:58-62 | turns AI context off and changes nothing else |
| HasAIContext.AIContextFactory.AIFields | src/Traits/HasAIContext.php:70-74 | replaces the AI field list and changes nothing else |
| HasAIContext.AIContextFactory.AIContext | src/Traits/HasAIContext.php:82-86 | merges the seed into the context seed and changes nothing else |
| HasAIContext.AIContextFactory.CreateManyWithAI | src/Traits/HasAIContext.php:130-166 | the loop creates the models as specified |
| HasAIContext.AIContextFactory.CreateMany | src/Traits/HasAIContext.php:94-120 | with AI context off or no AI fields, hands over to the factory and leaves the provider alone; with no quantity, fails with a type error; otherwise makes one batch request for the model's type, count, seed and fields, never throws, and builds the models from it |
| HasAIContext.CreateManyUsesBatch | src/Traits/HasAIContext.php:102-119 | for a count n of at least zero, there are exactly n models and n batch objects, model i takes each chosen field set in object i, and other attributes come from the base |
| HasAIContext.FreshCreateManyFillsAIFields | src/Traits/HasAIContext.php:108-119 | when the batch is made afresh, every chosen field of every model is set and comes from the batch object with the model's index |

## Left out

- Prompt wording: the text of the prompts and `sprintf` are not modelled. A request carries the prompt's ingredients (`Prompt`), so the model cannot say anything about the exact text sent.
- The cache key is modelled by its ingredients. `md5`/`json_encode` are treated as injective, and two argument lists whose key strings happen to coincide through the `:` separators are not modelled as colliding.
- A null model and the empty model name produce the same cache key, as in the source's string interpolation. The model keeps that (`ModelKey`).
- The cache key leaves out the fallbacks and `throwOnError`. The object and batch keys lower-case the type (`CreateKeyIgnoresCase`). All of these are modelled as written.
- Cache TTLs and expiry: entries never expire in the model, and `cache_ttl` is not modelled.
- The `method_exists(Cache::class, …)` and `method_exists(Log::class, …)` guards are taken as true. Logging is left out because it has no effect on results.
- The shipped `config/faker-ai.php` enables caching with a 1440-minute TTL and has a longer system prompt. The service provider merges that file into the container, so an installed package reads it. `getConfig`'s in-code defaults, which disable caching with 60 minutes, apply only when the container holds no `faker-ai` configuration at all. `GetConfig` takes the container's configuration as a parameter (`None` when there is none); the file's values are not modelled.
- PromptProvider.FakerAIPromptProvider.constructor: the configuration is read once, when the provider is built. The source calls `getConfig()` again at the start of every entry point. A configuration change between two calls on the same provider is therefore not modelled.
- `getConfig`'s `catch` branch returns the same defaults, so it is not modelled separately. Configuration lookup failures are I/O.
- `json_encode` and `json_decode` are abstract functions. `Value.Num` keeps a number's literal text, and no number arithmetic or formatting is modelled.
- `Lower`, `Camel` and `UcWords` are ASCII-only. Laravel's `Str::camel` cache and multibyte case mapping are not modelled.
- PHP arrays with integer keys are not modelled. Objects have string keys, and lists are `Value.List`.
- PromptProvider.FakerAIPromptProvider.PromptAIObject and PromptProvider.FakerAIPromptProvider.CreateAIObject: as a choice of scope, the model covers replies that decode to a JSON object. Both methods require this of every reply that decodes (`ObjectReplies`). The specification functions give the empty object for any other value, and the methods never reach it. PHP treats other decoded values as follows:
  - A list such as `[1,2]` is an integer-keyed array. The missing fields are added beside its integer keys, and it is cached and returned. Integer-keyed arrays are not modelled.
  - A decoded `null` or `false` becomes an array when the first field is written into it, and the call succeeds.
  - A number, `true` or a string raises an `Error` when a field is written into it. When no field is written, it raises one at the `array` return type. `catch (\Exception)` does not catch either.
- PromptProvider.FakerAIPromptProvider.CreateAIBatch: as a choice of scope, the model covers decoded arrays that are a list of objects or are empty. The method requires this of every reply (`BatchReplies`). PHP handles the other cases as follows:
  - A non-empty JSON object such as `{"a":1}`, or a list holding scalars, passes the non-empty-array test.
  - It is sliced to `count` entries, keeping its string keys, and padded with basic objects.
  - Without required fields nothing is written, and the batch is cached and returned as it is.
  - With required fields, each value has them written into it. A `null` or `false` value becomes an array and the call succeeds. A number, `true` or a string value raises an `Error`, which `catch (\Exception)` does not catch.
- Fallbacks.FallbackValueNonNull: a fallback callable that returns null is allowed, but the "always set" lemmas assume `ProducersNonNull`. Without it, only "present" is proved.
- Fallback callables are modelled as values they produce (`Producer`), called without arguments. Side effects of calling them are not modelled.
- Fallbacks.ExplicitFallback: a `Given` value is always returned as it is. In PHP, `getFallbackValue` calls every fallback for which `is_callable` holds. That includes a string naming a global function (such as `'time'`, or `'next'`, which raises `ArgumentCountError`) and an `[object, 'method']` array. The model needs such fallbacks encoded as `Producer`. `promptAI` checks `is_string` before `is_callable`, so there the same string is a plain text fallback (`TextFallback`).
- HasAIContext.AIContextFactory.CreateMany: `parent::createMany`, `getRawAttributes`, `state(...)->create`, `newCollection` and `class_basename` are framework code. They are modelled as a delegation result, a function of the overrides and the index, a `CreatedModel` record, and a constant type name. Persistence is not modelled.
- HasAIContext.AIContextFactory.CreateMany: a `null` quantity with AI context on reaches `createAIBatch`'s `int $count` parameter. The model returns `TypeError` instead of raising it.
- A callable quantity leaves `$attributes` undefined in `createManyWithAI`, so `getRawAttributes` receives null. `BaseAttributes` gives `None` for it.
- The factory trait always calls `createAIBatch` with no provider, model or fallbacks and `throwOnError = false`, as the source does.
- The initial cache store is assumed to be well shaped (`CacheShaped`). Entries written under these keys by other code are not modelled.
