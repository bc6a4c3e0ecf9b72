/**
 * The objects the provider makes up itself: `getBasicObject` (seed, then
 * required fields, then a per-type skeleton), `getBasicBatch` (one basic
 * object per index, with the seed's strings numbered), and the shaping of a
 * decoded batch in `createAIBatch` (cut to `count`, pad with basic objects,
 * fill required fields).
 */
module Synthetic {
  import opened PhpValues
  import opened PhpStrings
  import opened Fallbacks

  predicate AllSet(defaults: Entries)
  {
    forall i :: 0 <= i < |defaults| ==> defaults[i].1 != Null
  }

  /** The placeholder keys `getBasicObject` adds for a (lower-cased) object type. */
  function Skeleton(lowerType: string): (defaults: Entries)
    ensures AllSet(defaults) && DistinctKeys(defaults)
  {
    match lowerType
    case "product" =>
      [("name", Str("Sample Product")), ("description", Str("A sample product description.")), ("price", Num("99.99"))]
    case "user" =>
      [("name", Str("John Doe")), ("email", Str("user@example.com")), ("role", Str("user"))]
    case "blogpost" => ArticleSkeleton()
    case "post" => ArticleSkeleton()
    case "article" => ArticleSkeleton()
    case _ =>
      [("name", Str("Sample " + UcWords(lowerType))), ("description", Str("Sample description for " + UcWords(lowerType)))]
  }

  function ArticleSkeleton(): Entries
  {
    [("title", Str("Sample Article")), ("content", Str("This is a sample article content.")), ("author", Str("Anonymous"))]
  }

  /** `$m[$k] = $m[$k] ?? $default` for each skeleton entry in order. */
  function ApplyDefaults(m: Entries, defaults: Entries): Entries
    decreases |defaults|
  {
    if |defaults| == 0 then m
    else ApplyDefaults(SetIfUnset(m, defaults[0].0, defaults[0].1), defaults[1..])
  }

  /** One default: an unset key gets the (non-null) default, nothing else changes. */
  lemma SetIfUnsetShape(m: Entries, k: string, v: Value)
    requires v != Null
    ensures Extends(m, SetIfUnset(m, k, v)) && IsSet(SetIfUnset(m, k, v), k)
    ensures forall k' :: k' != k ==> Lookup(SetIfUnset(m, k, v), k') == Lookup(m, k')
    ensures forall k' :: HasKey(SetIfUnset(m, k, v), k') ==> HasKey(m, k') || k' == k
  {
    SetIfUnsetExtends(m, k, v);
    var r := SetIfUnset(m, k, v);
    forall k' | HasKey(r, k') ensures HasKey(m, k') || k' == k {
      assert Keys(r) == Keys(m) || Keys(r) == Keys(m) + [k];
    }
  }

  /**
   * Defaults only fill keys that are absent or null: every non-null value and
   * every key keeps its place, every default key ends up set, and a key that is
   * not a default key reads as before.
   */
  lemma {:induction false} ApplyDefaultsShape(m: Entries, defaults: Entries)
    requires AllSet(defaults)
    ensures Extends(m, ApplyDefaults(m, defaults))
    ensures forall i :: 0 <= i < |defaults| ==> IsSet(ApplyDefaults(m, defaults), defaults[i].0)
    ensures forall k :: !HasKey(defaults, k) ==> Lookup(ApplyDefaults(m, defaults), k) == Lookup(m, k)
    ensures forall k :: HasKey(ApplyDefaults(m, defaults), k) ==> HasKey(m, k) || HasKey(defaults, k)
    decreases |defaults|
  {
    if |defaults| > 0 {
      var (k0, v0) := defaults[0];
      var rest := defaults[1..];
      var m' := SetIfUnset(m, k0, v0);
      var r := ApplyDefaults(m', rest);
      assert AllSet(rest);
      ApplyDefaultsShape(m', rest);
      SetIfUnsetShape(m, k0, v0);
      ExtendsTransitive(m, m', r);
      ExtendsKeeps(m', r, k0);
      forall i | 0 <= i < |defaults| ensures IsSet(r, defaults[i].0) {
        if i > 0 { assert rest[i - 1] == defaults[i]; }
      }
      forall k | !HasKey(defaults, k) ensures Lookup(r, k) == Lookup(m, k) {
        Uncons(defaults, k);
      }
      forall k | HasKey(r, k) ensures HasKey(m, k) || HasKey(defaults, k) {
        Uncons(defaults, k);
      }
    }
  }

  /** `getBasicObject`: the seed, then the required fields, then the type skeleton. */
  function BasicObject(objectType: string, seed: Entries, required: seq<string>, fallbacks: Fallbacks): Entries
  {
    ApplyDefaults(FillRequired(seed, required, fallbacks), Skeleton(Lower(objectType)))
  }

  /** A non-null seed value survives into the basic object. */
  lemma BasicObjectKeepsSeed(objectType: string, seed: Entries, required: seq<string>, fallbacks: Fallbacks, k: string)
    requires IsSet(seed, k)
    ensures Lookup(BasicObject(objectType, seed, required, fallbacks), k) == Lookup(seed, k)
  {
    var filled := FillRequired(seed, required, fallbacks);
    FillRequiredShape(seed, required, fallbacks);
    ApplyDefaultsShape(filled, Skeleton(Lower(objectType)));
    ExtendsTransitive(seed, filled, BasicObject(objectType, seed, required, fallbacks));
    ExtendsKeeps(seed, BasicObject(objectType, seed, required, fallbacks), k);
  }

  /** A required field is present in the basic object, set unless its fallback is null. */
  lemma BasicObjectHasRequired(objectType: string, seed: Entries, required: seq<string>, fallbacks: Fallbacks, f: string)
    requires f in required
    ensures var r := BasicObject(objectType, seed, required, fallbacks);
      HasKey(r, f) && (IsSet(r, f) || Lookup(r, f) == FallbackValue(f, fallbacks))
  {
    var filled := FillRequired(seed, required, fallbacks);
    FillRequiredShape(seed, required, fallbacks);
    ApplyDefaultsShape(filled, Skeleton(Lower(objectType)));
    ExtendsKeeps(filled, BasicObject(objectType, seed, required, fallbacks), f);
  }

  /**
   * A basic object starts from the seed verbatim (keys in place, non-null
   * values never overwritten), has every required field and every skeleton
   * key of its type, and no other keys.
   */
  lemma BasicObjectShape(objectType: string, seed: Entries, required: seq<string>, fallbacks: Fallbacks)
    ensures var r := BasicObject(objectType, seed, required, fallbacks);
      && Extends(seed, r)
      && (forall k :: IsSet(seed, k) ==> Lookup(r, k) == Lookup(seed, k))
      && (forall f :: f in required ==> HasKey(r, f))
      && (forall f :: f in required ==> IsSet(r, f) || Lookup(r, f) == FallbackValue(f, fallbacks))
      && (ProducersNonNull(fallbacks) ==> forall f :: f in required ==> IsSet(r, f))
      && (forall i :: 0 <= i < |Skeleton(Lower(objectType))| ==> IsSet(r, Skeleton(Lower(objectType))[i].0))
      && (forall k :: HasKey(r, k) ==> HasKey(seed, k) || k in required || HasKey(Skeleton(Lower(objectType)), k))
  {
    var filled := FillRequired(seed, required, fallbacks);
    var skeleton := Skeleton(Lower(objectType));
    var r := BasicObject(objectType, seed, required, fallbacks);
    FillRequiredShape(seed, required, fallbacks);
    ApplyDefaultsShape(filled, skeleton);
    ExtendsTransitive(seed, filled, r);
    forall k | IsSet(seed, k) ensures Lookup(r, k) == Lookup(seed, k) {
      BasicObjectKeepsSeed(objectType, seed, required, fallbacks, k);
    }
    forall f | f in required ensures HasKey(r, f) && (IsSet(r, f) || Lookup(r, f) == FallbackValue(f, fallbacks)) {
      BasicObjectHasRequired(objectType, seed, required, fallbacks, f);
    }
    if ProducersNonNull(fallbacks) {
      forall f | f in required ensures IsSet(r, f) {
        ExtendsKeeps(filled, r, f);
      }
    }
    forall k | HasKey(r, k) ensures HasKey(seed, k) || k in required || HasKey(skeleton, k) {
      if HasKey(filled, k) && !HasKey(seed, k) && k !in required {
        FillRequiredNewKeys(seed, required, fallbacks, k);
      }
    }
  }

  /** Filling required fields adds no key other than a required one. */
  lemma {:induction false} FillRequiredNewKeys(m: Entries, required: seq<string>, fallbacks: Fallbacks, k: string)
    requires HasKey(FillRequired(m, required, fallbacks), k)
    ensures HasKey(m, k) || k in required
    decreases |required|
  {
    if |required| > 0 {
      var init := required[..|required| - 1];
      var last := required[|required| - 1];
      var prev := FillRequired(m, init, fallbacks);
      assert Keys(FillRequired(m, required, fallbacks)) ==
        if IsSet(prev, last) || HasKey(prev, last) then Keys(prev) else Keys(prev) + [last];
      if k != last {
        FillRequiredNewKeys(m, init, fallbacks, k);
      }
    }
  }

  /** Filling the required fields of a basic object again changes nothing. */
  lemma BasicObjectIsFilled(objectType: string, seed: Entries, required: seq<string>, fallbacks: Fallbacks)
    ensures var b := BasicObject(objectType, seed, required, fallbacks); FillRequired(b, required, fallbacks) == b
  {
    BasicObjectShape(objectType, seed, required, fallbacks);
    FillRequiredUnchanged(BasicObject(objectType, seed, required, fallbacks), required, fallbacks);
  }

  /** One `??` assignment of `getBasicObject` is one step of `ApplyDefaults`. */
  lemma ApplyDefaultsStep(m: Entries, defaults: Entries, k: string, v: Value)
    requires |defaults| > 0 && defaults[0] == (k, v)
    ensures ApplyDefaults(m, defaults) == ApplyDefaults(Set(m, k, LookupOr(m, k, v)), defaults[1..])
  {
    CoalesceAssign(m, k, v);
  }

  /** `getBasicObject`, statement by statement. */
  method GetBasicObject(objectType: string, seedInfo: Entries, requiredFields: seq<string>, fallbacks: Fallbacks)
    returns (result: Entries)
    ensures result == BasicObject(objectType, seedInfo, requiredFields, fallbacks)
  {
    result := seedInfo;
    if |requiredFields| > 0 {
      result := FillRequiredFields(result, requiredFields, fallbacks);
    }
    var lowerType := Lower(objectType);
    result := ApplySkeleton(result, lowerType);
  }

  /** The `switch` of `getBasicObject`: one `??` assignment per default of the type. */
  method ApplySkeleton(obj: Entries, lowerType: string) returns (result: Entries)
    ensures result == ApplyDefaults(obj, Skeleton(lowerType))
  {
    result := obj;
    // `rest` is what is left of the skeleton after the assignments so far.
    ghost var rest := Skeleton(lowerType);
    if lowerType == "product" {
      assert rest == [("name", Str("Sample Product")), ("description", Str("A sample product description.")), ("price", Num("99.99"))];
      ApplyDefaultsStep(result, rest, "name", Str("Sample Product"));
      result, rest := Set(result, "name", LookupOr(result, "name", Str("Sample Product"))), rest[1..];
      ApplyDefaultsStep(result, rest, "description", Str("A sample product description."));
      result, rest := Set(result, "description", LookupOr(result, "description", Str("A sample product description."))), rest[1..];
      ApplyDefaultsStep(result, rest, "price", Num("99.99"));
      result, rest := Set(result, "price", LookupOr(result, "price", Num("99.99"))), rest[1..];
    } else if lowerType == "user" {
      assert rest == [("name", Str("John Doe")), ("email", Str("user@example.com")), ("role", Str("user"))];
      ApplyDefaultsStep(result, rest, "name", Str("John Doe"));
      result, rest := Set(result, "name", LookupOr(result, "name", Str("John Doe"))), rest[1..];
      ApplyDefaultsStep(result, rest, "email", Str("user@example.com"));
      result, rest := Set(result, "email", LookupOr(result, "email", Str("user@example.com"))), rest[1..];
      ApplyDefaultsStep(result, rest, "role", Str("user"));
      result, rest := Set(result, "role", LookupOr(result, "role", Str("user"))), rest[1..];
    } else if lowerType == "blogpost" || lowerType == "post" || lowerType == "article" {
      assert rest == ArticleSkeleton();
      ApplyDefaultsStep(result, rest, "title", Str("Sample Article"));
      result, rest := Set(result, "title", LookupOr(result, "title", Str("Sample Article"))), rest[1..];
      ApplyDefaultsStep(result, rest, "content", Str("This is a sample article content."));
      result, rest := Set(result, "content", LookupOr(result, "content", Str("This is a sample article content."))), rest[1..];
      ApplyDefaultsStep(result, rest, "author", Str("Anonymous"));
      result, rest := Set(result, "author", LookupOr(result, "author", Str("Anonymous"))), rest[1..];
    } else {
      var name := Str("Sample " + UcWords(lowerType));
      var description := Str("Sample description for " + UcWords(lowerType));
      assert rest == [("name", name), ("description", description)];
      ApplyDefaultsStep(result, rest, "name", name);
      result, rest := Set(result, "name", LookupOr(result, "name", name)), rest[1..];
      ApplyDefaultsStep(result, rest, "description", description);
      result, rest := Set(result, "description", LookupOr(result, "description", description)), rest[1..];
    }
    assert rest == [];
  }

  // ---------------------------------------------------------------------------
  // getBasicBatch

  /** The seed of object number `n` (1-based): every string value gets " n" appended. */
  function IndexSeed(seed: Entries, n: nat): (r: Entries)
    ensures |r| == |seed|
    ensures forall i :: 0 <= i < |seed| ==> r[i].0 == seed[i].0
  {
    seq(|seed|, i requires 0 <= i < |seed| =>
      (seed[i].0, if seed[i].1.Str? then Str(seed[i].1.s + " " + Decimal(n)) else seed[i].1))
  }

  /** Reading a numbered seed: strings carry the number, other values are unchanged. */
  lemma IndexSeedLookup(seed: Entries, n: nat, k: string)
    ensures Lookup(IndexSeed(seed, n), k) ==
      if Lookup(seed, k).Str? then Str(Lookup(seed, k).s + " " + Decimal(n)) else Lookup(seed, k)
  {
    IndexOfSameKeys(seed, IndexSeed(seed, n), k);
  }

  /** `make(1), …, make(count)` in order; nothing when `count` is not positive. */
  function Numbered<T>(count: int, make: nat -> T): (r: seq<T>)
    ensures |r| == if count > 0 then count else 0
    decreases count
  {
    if count <= 0 then [] else Numbered(count - 1, make) + [make(count)]
  }

  /** Element `i` of a numbered sequence is made from the number `i + 1`. */
  lemma {:induction false} NumberedAt<T>(count: int, make: nat -> T, i: nat)
    requires i < count
    ensures Numbered(count, make)[i] == make(i + 1)
    decreases count
  {
    if i < count - 1 {
      NumberedAt(count - 1, make, i);
    }
  }

  /** The basic object built on the seed numbered `n`. */
  function NumberedBasicObject(objectType: string, seed: Entries, required: seq<string>, fallbacks: Fallbacks): nat -> Entries
  {
    (n: nat) => BasicObject(objectType, IndexSeed(seed, n), required, fallbacks)
  }

  /** `getBasicBatch`: `count` basic objects, the `n`-th built on the seed numbered `n`. */
  function BasicBatch(objectType: string, count: int, seed: Entries, required: seq<string>, fallbacks: Fallbacks): seq<Entries>
  {
    Numbered(count, NumberedBasicObject(objectType, seed, required, fallbacks))
  }

  /** A basic batch has `count` objects (none when `count` is not positive); object `i` is built on the seed numbered `i + 1`. */
  lemma BasicBatchAt(objectType: string, count: int, seed: Entries, required: seq<string>, fallbacks: Fallbacks, i: nat)
    ensures |BasicBatch(objectType, count, seed, required, fallbacks)| == if count > 0 then count else 0
    ensures i < count ==>
      BasicBatch(objectType, count, seed, required, fallbacks)[i] == BasicObject(objectType, IndexSeed(seed, i + 1), required, fallbacks)
  {
    if i < count {
      NumberedAt(count, NumberedBasicObject(objectType, seed, required, fallbacks), i);
    }
  }

  /**
   * Object `i` of a basic batch has every required field, its seed's string
   * values suffixed with " " and its 1-based index, and its seed's other
   * non-null values unchanged.
   */
  lemma BasicBatchShape(objectType: string, count: int, seed: Entries, required: seq<string>, fallbacks: Fallbacks, i: nat, k: string)
    requires i < count
    ensures var o := BasicBatch(objectType, count, seed, required, fallbacks)[i];
      && (forall f :: f in required ==> HasKey(o, f))
      && (Lookup(seed, k).Str? ==> Lookup(o, k) == Str(Lookup(seed, k).s + " " + Decimal(i + 1)))
      && (IsSet(seed, k) && !Lookup(seed, k).Str? ==> Lookup(o, k) == Lookup(seed, k))
  {
    BasicBatchAt(objectType, count, seed, required, fallbacks, i);
    NumberedSeedValue(objectType, seed, required, fallbacks, i + 1, k);
  }

  /**
   * The basic object built on the seed numbered `n` has every required field,
   * the number in its string seed values, and its other seed values unchanged.
   */
  lemma NumberedSeedValue(objectType: string, seed: Entries, required: seq<string>, fallbacks: Fallbacks, n: nat, k: string)
    ensures var o := BasicObject(objectType, IndexSeed(seed, n), required, fallbacks);
      && (forall f :: f in required ==> HasKey(o, f))
      && (Lookup(seed, k).Str? ==> Lookup(o, k) == Str(Lookup(seed, k).s + " " + Decimal(n)))
      && (IsSet(seed, k) && !Lookup(seed, k).Str? ==> Lookup(o, k) == Lookup(seed, k))
  {
    forall f | f in required ensures HasKey(BasicObject(objectType, IndexSeed(seed, n), required, fallbacks), f) {
      BasicObjectHasRequired(objectType, IndexSeed(seed, n), required, fallbacks, f);
    }
    IndexSeedLookup(seed, n, k);
    if IsSet(seed, k) {
      BasicObjectKeepsSeed(objectType, IndexSeed(seed, n), required, fallbacks, k);
    }
  }

  /** Two different numbers appended to the same string give different strings. */
  lemma NumberedStringsDiffer(s: string, m: nat, n: nat)
    requires m != n
    ensures s + " " + Decimal(m) != s + " " + Decimal(n)
  {
    var a := s + " " + Decimal(m);
    var b := s + " " + Decimal(n);
    if a == b {
      assert Decimal(m) == a[|s| + 1..];
      assert Decimal(n) == b[|s| + 1..];
      DecimalInjective(m, n);
    }
  }

  /** Every object of a basic batch has every required field, set when fallback callables never return null. */
  lemma BasicBatchFilled(objectType: string, count: int, seed: Entries, required: seq<string>, fallbacks: Fallbacks)
    ensures var b := BasicBatch(objectType, count, seed, required, fallbacks);
      && (forall i, f :: 0 <= i < |b| && f in required ==> HasKey(b[i], f))
      && (ProducersNonNull(fallbacks) ==> forall i, f :: 0 <= i < |b| && f in required ==> IsSet(b[i], f))
  {
    var b := BasicBatch(objectType, count, seed, required, fallbacks);
    forall i, f | 0 <= i < |b| && f in required ensures HasKey(b[i], f) && (ProducersNonNull(fallbacks) ==> IsSet(b[i], f)) {
      BasicBatchAt(objectType, count, seed, required, fallbacks, i);
      BasicObjectShape(objectType, IndexSeed(seed, i + 1), required, fallbacks);
    }
  }

  /** Objects whose value at `k` carries their own (different) numbers are different. */
  lemma NumberedAtKeyDiffer(objects: seq<Entries>, k: string, s: string, i: nat, j: nat)
    requires i < |objects| && j < |objects| && i != j
    requires Lookup(objects[i], k) == Str(s + " " + Decimal(i + 1))
    requires Lookup(objects[j], k) == Str(s + " " + Decimal(j + 1))
    ensures objects[i] != objects[j]
  {
    NumberedStringsDiffer(s, i + 1, j + 1);
  }

  /**
   * Numbering keeps the objects of a basic batch apart: when the seed holds a
   * string, no two objects of the batch are equal.
   */
  lemma BasicBatchDistinct(objectType: string, count: int, seed: Entries, required: seq<string>, fallbacks: Fallbacks, k: string, i: nat, j: nat)
    requires Lookup(seed, k).Str?
    requires i < count && j < count && i != j
    ensures BasicBatch(objectType, count, seed, required, fallbacks)[i] != BasicBatch(objectType, count, seed, required, fallbacks)[j]
  {
    BasicBatchShape(objectType, count, seed, required, fallbacks, i, k);
    BasicBatchShape(objectType, count, seed, required, fallbacks, j, k);
    NumberedAtKeyDiffer(BasicBatch(objectType, count, seed, required, fallbacks), k, Lookup(seed, k).s, i, j);
  }

  /** The inner loop of `getBasicBatch`: append " n" to every string value of the seed. */
  method NumberSeed(seedInfo: Entries, n: nat) returns (currentSeed: Entries)
    ensures currentSeed == IndexSeed(seedInfo, n)
  {
    currentSeed := seedInfo;
    if |currentSeed| > 0 {
      for p := 0 to |currentSeed|
        invariant |currentSeed| == |seedInfo|
        invariant forall q :: 0 <= q < p ==> currentSeed[q] == IndexSeed(seedInfo, n)[q]
        invariant forall q :: p <= q < |seedInfo| ==> currentSeed[q] == seedInfo[q]
      {
        var (key, value) := currentSeed[p];
        if value.Str? {
          currentSeed := currentSeed[p := (key, Str(value.s + " " + Decimal(n)))];
        }
      }
    }
  }

  /** `getBasicBatch`: the counting loop, with the inner loop that numbers the seed. */
  method GetBasicBatch(objectType: string, count: int, seedInfo: Entries, requiredFields: seq<string>, fallbacks: Fallbacks)
    returns (result: seq<Entries>)
    ensures result == BasicBatch(objectType, count, seedInfo, requiredFields, fallbacks)
  {
    result := [];
    var i := 0;
    ghost var make := NumberedBasicObject(objectType, seedInfo, requiredFields, fallbacks);
    while i < count
      invariant 0 <= i <= (if count > 0 then count else 0)
      invariant result == Numbered(i, make)
    {
      var currentSeed := NumberSeed(seedInfo, i + 1);
      var basic := GetBasicObject(objectType, currentSeed, requiredFields, fallbacks);
      result := result + [basic];
      i := i + 1;
    }
    assert count <= 0 ==> Numbered(count, make) == [];
  }

  // ---------------------------------------------------------------------------
  // createAIBatch: shaping a decoded, non-empty batch

  /** `array_slice($items, 0, $count)`: a negative length drops that many from the end. */
  function SliceFront(items: seq<Entries>, count: int): (r: seq<Entries>)
    ensures count >= 0 ==> |r| == if count < |items| then count else |items|
    ensures count < 0 ==> |r| == if |items| + count > 0 then |items| + count else 0
    ensures r == items[..|r|]
  {
    if count >= 0 then items[..if count < |items| then count else |items|]
    else items[..if |items| + count > 0 then |items| + count else 0]
  }

  /** Append copies of `filler` until there are `count` objects. */
  function Pad(objects: seq<Entries>, count: int, filler: Entries): (r: seq<Entries>)
  {
    if |objects| >= count then objects
    else objects + seq(count - |objects|, _ => filler)
  }

  /** The by-reference required-field loop over every object. */
  function FillEach(objects: seq<Entries>, required: seq<string>, fallbacks: Fallbacks): (r: seq<Entries>)
    ensures |r| == |objects|
  {
    seq(|objects|, i requires 0 <= i < |objects| => FillRequired(objects[i], required, fallbacks))
  }

  /** What `createAIBatch` returns for a decoded, non-empty list of objects. */
  function ShapeBatch(items: seq<Entries>, count: int, objectType: string, seed: Entries, required: seq<string>, fallbacks: Fallbacks)
    : seq<Entries>
  {
    FillEach(Pad(SliceFront(items, count), count, BasicObject(objectType, seed, required, fallbacks)), required, fallbacks)
  }

  /**
   * For a non-negative `count` the batch has exactly `count` objects: the first
   * decoded ones with their required fields filled in, then unnumbered basic
   * objects; every object has every required field.
   */
  lemma ShapeBatchShape(items: seq<Entries>, count: int, objectType: string, seed: Entries, required: seq<string>, fallbacks: Fallbacks)
    requires count >= 0
    ensures var r := ShapeBatch(items, count, objectType, seed, required, fallbacks);
      && |r| == count
      && (forall i :: 0 <= i < count && i < |items| ==> r[i] == FillRequired(items[i], required, fallbacks))
      && (forall i :: |items| <= i < count ==> r[i] == BasicObject(objectType, seed, required, fallbacks))
      && (forall i, f :: 0 <= i < count && f in required ==> HasKey(r[i], f))
  {
    var r := ShapeBatch(items, count, objectType, seed, required, fallbacks);
    var basic := BasicObject(objectType, seed, required, fallbacks);
    var padded := Pad(SliceFront(items, count), count, basic);
    BasicObjectIsFilled(objectType, seed, required, fallbacks);
    assert |padded| == count;
    forall i | |items| <= i < count ensures r[i] == basic {
      assert padded[i] == basic;
    }
    forall i, f | 0 <= i < count && f in required ensures HasKey(r[i], f) {
      FillRequiredShape(padded[i], required, fallbacks);
    }
  }

  /** A negative `count` cuts that many objects off the end of the decoded list and pads nothing. */
  lemma ShapeBatchNegativeCount(items: seq<Entries>, count: int, objectType: string, seed: Entries, required: seq<string>, fallbacks: Fallbacks)
    requires count < 0
    ensures |ShapeBatch(items, count, objectType, seed, required, fallbacks)| == if |items| + count > 0 then |items| + count else 0
  {
  }

  /** The padding loop of `createAIBatch`: append basic objects while fewer than `count`. */
  method PadWithBasicObjects(objects: seq<Entries>, count: int, objectType: string, seedInfo: Entries, requiredFields: seq<string>, fallbacks: Fallbacks)
    returns (padded: seq<Entries>)
    ensures padded == Pad(objects, count, BasicObject(objectType, seedInfo, requiredFields, fallbacks))
  {
    padded := objects;
    ghost var basicSpec := BasicObject(objectType, seedInfo, requiredFields, fallbacks);
    while |padded| < count
      invariant |objects| <= |padded| && padded[..|objects|] == objects
      invariant |objects| < count ==> |padded| <= count
      invariant |objects| >= count ==> padded == objects
      invariant forall j :: |objects| <= j < |padded| ==> padded[j] == basicSpec
      decreases count - |padded|
    {
      var basic := GetBasicObject(objectType, seedInfo, requiredFields, fallbacks);
      padded := padded + [basic];
    }
    PadByPosition(objects, count, basicSpec, padded);
  }

  /** A sequence that is `objects` followed by `filler`s up to `count` is the padded sequence. */
  lemma PadByPosition(objects: seq<Entries>, count: int, filler: Entries, padded: seq<Entries>)
    requires |objects| <= |padded| && padded[..|objects|] == objects
    requires |padded| == if |objects| >= count then |objects| else count
    requires forall j :: |objects| <= j < |padded| ==> padded[j] == filler
    ensures padded == Pad(objects, count, filler)
  {
    if |objects| < count {
      var p := Pad(objects, count, filler);
      assert |p| == |padded|;
      forall j | 0 <= j < |p| ensures p[j] == padded[j] {
        if j < |objects| {
          assert padded[j] == padded[..|objects|][j];
        }
      }
    }
  }

  /** The by-reference loop of `createAIBatch` that fills each object's required fields. */
  method FillEachObject(objects: seq<Entries>, requiredFields: seq<string>, fallbacks: Fallbacks)
    returns (filled: seq<Entries>)
    ensures filled == FillEach(objects, requiredFields, fallbacks)
  {
    filled := objects;
    if |requiredFields| > 0 {
      for i := 0 to |filled|
        invariant |filled| == |objects|
        invariant forall j :: 0 <= j < i ==> filled[j] == FillRequired(objects[j], requiredFields, fallbacks)
        invariant forall j :: i <= j < |filled| ==> filled[j] == objects[j]
      {
        var obj := FillRequiredFields(filled[i], requiredFields, fallbacks);
        filled := filled[i := obj];
      }
    } else {
      forall j | 0 <= j < |objects| ensures objects[j] == FillRequired(objects[j], requiredFields, fallbacks) {
      }
    }
  }

  /** `createAIBatch` after a successful decode: slice, pad, then fill each object. */
  method ShapeDecodedBatch(items: seq<Entries>, count: int, objectType: string, seedInfo: Entries, requiredFields: seq<string>, fallbacks: Fallbacks)
    returns (objects: seq<Entries>)
    ensures objects == ShapeBatch(items, count, objectType, seedInfo, requiredFields, fallbacks)
  {
    objects := SliceFront(items, count);
    objects := PadWithBasicObjects(objects, count, objectType, seedInfo, requiredFields, fallbacks);
    objects := FillEachObject(objects, requiredFields, fallbacks);
  }
}
