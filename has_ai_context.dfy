/**
 * `HasAIContext`: the factory mix-in that, when several models are created at
 * once, asks `createAIBatch` for one related batch of objects and copies the
 * chosen AI fields of object `i` into model `i`.
 *
 * The factory's own machinery is outside the package: `getRawAttributes` is
 * a function of the attribute overrides and the model's index (the factory
 * definition may draw fresh fake data for each model), the model's class
 * basename is a constant, and creating a model is recorded as the attributes
 * and callback it was created with.
 */
module HasAIContext {
  import opened Optional
  import opened PhpValues
  import opened PromptSupport
  import opened Fallbacks
  import opened Synthetic
  import opened PromptProvider

  /** A callable passed to `createMany`, by identity. */
  datatype Callback = Callback(id: nat)

  /** `createMany`'s `$quantity`: null, a count, an attribute array, or a callable. */
  datatype Quantity = Unspecified | Count(n: int) | Attributes(overrides: Entries) | Invoke(callback: Callback)

  /** A model created by `state($attributes)->create([], $callback)`. */
  datatype CreatedModel = CreatedModel(attributes: Entries, callback: Option<Callback>)

  /**
   * What `createMany` does: hand over to the factory's own `createMany`, fail
   * with PHP's `TypeError` (a null count reaching the batch call), or return
   * the models it created.
   */
  datatype CreateManyResult = ParentCreateMany(quantity: Quantity, callback: Option<Callback>) | TypeError | Models(models: seq<CreatedModel>)

  /** `is_callable($quantity) || is_array($quantity) ? 1 : $quantity`. */
  function ModelCount(quantity: Quantity): int
    requires !quantity.Unspecified?
  {
    if quantity.Count? then quantity.n else 1
  }

  /** The `$attributes` given to `getRawAttributes`: undefined (so null) after a callable. */
  function BaseAttributes(quantity: Quantity): Option<Entries>
  {
    match quantity
    case Attributes(a) => Some(a)
    case Invoke(_) => None
    case _ => Some([])
  }

  /** `$aiData[$i] ?? []`. */
  function AIRow(aiData: seq<Entries>, i: nat): Entries
  {
    if i < |aiData| then aiData[i] else []
  }

  /** Copy each listed field that is set in `ai` over `m`, in list order. */
  function Splice(m: Entries, ai: Entries, fields: seq<string>): Entries
    decreases |fields|
  {
    if |fields| == 0 then m
    else
      var prev := Splice(m, ai, fields[..|fields| - 1]);
      var f := fields[|fields| - 1];
      if IsSet(ai, f) then Set(prev, f, Lookup(ai, f)) else prev
  }

  /** One more loop step copies one more field. */
  lemma SpliceSnoc(m: Entries, ai: Entries, fields: seq<string>, p: nat)
    requires p < |fields|
    ensures Splice(m, ai, fields[..p + 1]) ==
      if IsSet(ai, fields[p]) then Set(Splice(m, ai, fields[..p]), fields[p], Lookup(ai, fields[p])) else Splice(m, ai, fields[..p])
  {
    assert fields[..p + 1][..p] == fields[..p];
  }

  /** The inner loop of `createManyWithAI`: copy the AI fields one model's row sets. */
  method SpliceFields(m: Entries, ai: Entries, fields: seq<string>) returns (r: Entries)
    ensures r == Splice(m, ai, fields)
  {
    r := m;
    for p := 0 to |fields|
      invariant r == Splice(m, ai, fields[..p])
    {
      var field := fields[p];
      SpliceSnoc(m, ai, fields, p);
      if IsSet(ai, field) {
        r := Set(r, field, Lookup(ai, field));
      }
    }
    assert fields[..|fields|] == fields;
  }

  /**
   * After the splice, a listed field set in the AI row reads as the AI value;
   * every other key reads as before, and the keys are the old ones plus the
   * listed fields set in the AI row.
   */
  lemma {:induction false} SpliceLookup(m: Entries, ai: Entries, fields: seq<string>, k: string)
    ensures Lookup(Splice(m, ai, fields), k) == if k in fields && IsSet(ai, k) then Lookup(ai, k) else Lookup(m, k)
    ensures HasKey(Splice(m, ai, fields), k) <==> HasKey(m, k) || (k in fields && IsSet(ai, k))
    decreases |fields|
  {
    if |fields| > 0 {
      var init := fields[..|fields| - 1];
      SpliceLookup(m, ai, init, k);
      var prev := Splice(m, ai, init);
      var f := fields[|fields| - 1];
      InInitOrLast(fields);
      if IsSet(ai, f) {
        assert Keys(Set(prev, f, Lookup(ai, f))) == if HasKey(prev, f) then Keys(prev) else Keys(prev) + [f];
      }
    }
  }

  /**
   * `createManyWithAI`: `ModelCount(quantity)` models (none for a count below
   * one), model `i` made from the raw attributes with the AI fields of row `i`
   * spliced in, and a callable quantity taking the callback's place.
   */
  function ModelsWithAI(aiData: seq<Entries>, quantity: Quantity, callback: Option<Callback>, aiFields: seq<string>,
                        rawAttributes: (Option<Entries>, nat) -> Entries): (models: seq<CreatedModel>)
    requires !quantity.Unspecified?
    ensures |models| == if ModelCount(quantity) > 0 then ModelCount(quantity) else 0
  {
    var n := ModelCount(quantity);
    var cb := if quantity.Invoke? then Some(quantity.callback) else callback;
    seq(if n > 0 then n else 0, i requires 0 <= i =>
      CreatedModel(Splice(rawAttributes(BaseAttributes(quantity), i), AIRow(aiData, i), aiFields), cb))
  }

  /**
   * Model `i` takes each AI field that row `i` sets from row `i`, and every
   * other attribute from the factory's raw attributes.
   */
  lemma ModelsTakeAIFields(aiData: seq<Entries>, quantity: Quantity, callback: Option<Callback>, aiFields: seq<string>,
                           rawAttributes: (Option<Entries>, nat) -> Entries, i: nat, k: string)
    requires !quantity.Unspecified? && i < ModelCount(quantity)
    ensures var m := ModelsWithAI(aiData, quantity, callback, aiFields, rawAttributes)[i];
      Lookup(m.attributes, k) ==
        if k in aiFields && IsSet(AIRow(aiData, i), k) then Lookup(AIRow(aiData, i), k)
        else Lookup(rawAttributes(BaseAttributes(quantity), i), k)
    ensures i >= |aiData| ==>
      ModelsWithAI(aiData, quantity, callback, aiFields, rawAttributes)[i].attributes == rawAttributes(BaseAttributes(quantity), i)
  {
    SpliceLookup(rawAttributes(BaseAttributes(quantity), i), AIRow(aiData, i), aiFields, k);
    if i >= |aiData| {
      SpliceNothing(rawAttributes(BaseAttributes(quantity), i), aiFields);
    }
  }

  /** An empty AI row changes nothing. */
  lemma {:induction false} SpliceNothing(m: Entries, fields: seq<string>)
    ensures Splice(m, [], fields) == m
    decreases |fields|
  {
    if |fields| > 0 {
      SpliceNothing(m, fields[..|fields| - 1]);
    }
  }

  /** The batch request `createMany` makes: default backend, no fallbacks, no exceptions. */
  function BatchArgsFor(objectType: string, quantity: Quantity, seed: Entries, aiFields: seq<string>): BatchArgs
    requires !quantity.Unspecified?
  {
    BatchArgs(objectType, ModelCount(quantity), seed, aiFields, None, None, [], false)
  }

  class AIContextFactory {
    var useAIContext: bool
    var aiContextSeed: Entries
    var aiFields: seq<string>
    /** `class_basename($this->modelName())`. */
    const objectType: string
    /** `getRawAttributes($attributes)` for the model with the given index. */
    const rawAttributes: (Option<Entries>, nat) -> Entries

    constructor (objectType: string, rawAttributes: (Option<Entries>, nat) -> Entries)
      ensures useAIContext && aiContextSeed == [] && aiFields == []
      ensures this.objectType == objectType && this.rawAttributes == rawAttributes
    {
      useAIContext := true;
      aiContextSeed := [];
      aiFields := [];
      this.objectType := objectType;
      this.rawAttributes := rawAttributes;
    }

    /** `withAIContext`: switch AI context on and merge a non-empty seed into the current one. */
    method WithAIContext(contextSeed: Entries)
      modifies this
      ensures useAIContext && aiFields == old(aiFields)
      ensures aiContextSeed == if |contextSeed| == 0 then old(aiContextSeed) else Merge(old(aiContextSeed), contextSeed)
    {
      useAIContext := true;
      if |contextSeed| > 0 {
        aiContextSeed := Merge(aiContextSeed, contextSeed);
      }
    }

    /** `withoutAIContext`. */
    method WithoutAIContext()
      modifies this
      ensures !useAIContext && aiContextSeed == old(aiContextSeed) && aiFields == old(aiFields)
    {
      useAIContext := false;
    }

    /** `aiFields`: replace the list of AI fields. */
    method AIFields(fields: seq<string>)
      modifies this
      ensures aiFields == fields && useAIContext == old(useAIContext) && aiContextSeed == old(aiContextSeed)
    {
      aiFields := fields;
    }

    /** `aiContext`: merge more seed information into the current seed. */
    method AIContext(seed: Entries)
      modifies this
      ensures aiContextSeed == Merge(old(aiContextSeed), seed)
      ensures useAIContext == old(useAIContext) && aiFields == old(aiFields)
    {
      aiContextSeed := Merge(aiContextSeed, seed);
    }

    /** `createManyWithAI`, loop by loop. */
    method CreateManyWithAI(aiData: seq<Entries>, quantity: Quantity, callback: Option<Callback>) returns (models: seq<CreatedModel>)
      requires !quantity.Unspecified?
      ensures models == ModelsWithAI(aiData, quantity, callback, aiFields, rawAttributes)
    {
      var cb := callback;
      var attributes: Option<Entries>;
      var count: int;
      if quantity.Invoke? {
        cb := Some(quantity.callback);
        count := 1;
        attributes := None;
      } else if quantity.Attributes? {
        attributes := Some(quantity.overrides);
        count := 1;
      } else {
        attributes := Some([]);
        count := quantity.n;
      }
      assert attributes == BaseAttributes(quantity) && count == ModelCount(quantity);
      models := [];
      var i := 0;
      while i < count
        invariant 0 <= i <= (if count > 0 then count else 0)
        invariant |models| == i
        invariant forall j :: 0 <= j < i ==>
          models[j] == CreatedModel(Splice(rawAttributes(attributes, j), AIRow(aiData, j), aiFields), cb)
      {
        var aiAttributes := if i < |aiData| then aiData[i] else [];
        var modelAttributes := SpliceFields(rawAttributes(attributes, i), aiAttributes, aiFields);
        models := models + [CreatedModel(modelAttributes, cb)];
        i := i + 1;
      }
    }

    /**
     * `createMany`: without AI context or AI fields, the factory's own
     * `createMany`; otherwise one `createAIBatch` call for the model type, the
     * context seed and the AI fields, whose objects `createManyWithAI` spreads
     * over the models.
     */
    method CreateMany(quantity: Quantity, callback: Option<Callback>, faker: FakerAIPromptProvider, client: Request -> Reply)
      returns (result: CreateManyResult)
      requires faker.Valid() && BatchReplies(client, faker.decode)
      modifies faker
      ensures faker.Valid()
      ensures !useAIContext || |aiFields| == 0 ==> result == ParentCreateMany(quantity, callback) && unchanged(faker)
      ensures useAIContext && |aiFields| > 0 && quantity.Unspecified? ==> result == TypeError && unchanged(faker)
      ensures useAIContext && |aiFields| > 0 && !quantity.Unspecified? ==>
        var e := CreateAIBatchSpec(faker.config, faker.encode, faker.decode, old(faker.cache),
                                   BatchArgsFor(objectType, quantity, aiContextSeed, aiFields), client);
        && e.outcome.Returned?
        && result == Models(ModelsWithAI(e.outcome.value, quantity, callback, aiFields, rawAttributes))
        && faker.cache == e.cache && faker.sent == old(faker.sent) + e.sent
    {
      if !useAIContext || |aiFields| == 0 {
        return ParentCreateMany(quantity, callback);
      }
      if quantity.Unspecified? {
        return TypeError;
      }
      var count := ModelCount(quantity);
      var args := BatchArgs(objectType, count, aiContextSeed, aiFields, None, None, [], false);
      CreateAIBatchHasCount(faker.config, faker.encode, faker.decode, faker.cache, args, client);
      var outcome := faker.CreateAIBatch(args, client);
      var aiObjects := outcome.value;
      var models := CreateManyWithAI(aiObjects, quantity, callback);
      result := Models(models);
    }
  }

  /**
   * With AI context on, AI fields chosen and a count `n` of at least zero,
   * `createMany` makes exactly `n` models, and model `i` reads each AI field
   * that object `i` of the batch sets from that object.
   */
  lemma CreateManyUsesBatch(config: Config, encode: Value -> string, decode: string -> JsonResult, cache: Cache,
                            objectType: string, seed: Entries, aiFields: seq<string>, n: int, callback: Option<Callback>,
                            rawAttributes: (Option<Entries>, nat) -> Entries, client: Request -> Reply, i: nat, k: string)
    requires CacheShaped(cache) && n >= 0 && i < n
    ensures var e := CreateAIBatchSpec(config, encode, decode, cache, BatchArgsFor(objectType, Count(n), seed, aiFields), client);
      && e.outcome.Returned? && |e.outcome.value| == n
      && var models := ModelsWithAI(e.outcome.value, Count(n), callback, aiFields, rawAttributes);
      && |models| == n
      && (k in aiFields && IsSet(e.outcome.value[i], k) ==> Lookup(models[i].attributes, k) == Lookup(e.outcome.value[i], k))
      && (k !in aiFields ==> Lookup(models[i].attributes, k) == Lookup(rawAttributes(Some([]), i), k))
  {
    var args := BatchArgsFor(objectType, Count(n), seed, aiFields);
    CreateAIBatchHasCount(config, encode, decode, cache, args, client);
    var e := CreateAIBatchSpec(config, encode, decode, cache, args, client);
    ModelsTakeAIFields(e.outcome.value, Count(n), callback, aiFields, rawAttributes, i, k);
  }

  /**
   * When the batch is made afresh (no cache entry served it), every AI field
   * of every model created by `createMany` comes from the batch object with
   * the model's index.
   */
  lemma FreshCreateManyFillsAIFields(config: Config, encode: Value -> string, decode: string -> JsonResult, cache: Cache,
                                     objectType: string, seed: Entries, aiFields: seq<string>, n: int, callback: Option<Callback>,
                                     rawAttributes: (Option<Entries>, nat) -> Entries, client: Request -> Reply, i: nat, k: string)
    requires CacheShaped(cache) && i < n && k in aiFields
    requires !(config.enableCache && BatchKeyFor(config, BatchArgsFor(objectType, Count(n), seed, aiFields)) in cache)
    ensures var e := CreateAIBatchSpec(config, encode, decode, cache, BatchArgsFor(objectType, Count(n), seed, aiFields), client);
      && e.outcome.Returned? && |e.outcome.value| == n && IsSet(e.outcome.value[i], k)
      && Lookup(ModelsWithAI(e.outcome.value, Count(n), callback, aiFields, rawAttributes)[i].attributes, k)
         == Lookup(e.outcome.value[i], k)
  {
    var args := BatchArgsFor(objectType, Count(n), seed, aiFields);
    CreateAIBatchHasCount(config, encode, decode, cache, args, client);
    CreateAIBatchFreshFieldsSet(config, encode, decode, cache, args, client);
    CreateManyUsesBatch(config, encode, decode, cache, objectType, seed, aiFields, n, callback, rawAttributes, client, i, k);
  }
}
