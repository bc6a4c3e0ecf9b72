/**
 * Fallback values for fields the model did not (or could not) produce:
 * `getFallbackValue`, `getFallbackValues`, and the two loops that patch
 * missing fields into a decoded object (`promptAIObject` by camel or original
 * name, `createAIObject` / `createAIBatch` / `getBasicObject` by name).
 */
module Fallbacks {
  import opened Optional
  import opened PhpValues
  import opened PhpStrings

  /** An entry of the `$fallbacks` argument: a literal value or a zero-argument callable. */
  datatype FallbackSpec = Given(value: Value) | Producer(produce: () -> Value)

  /** `$fallbacks`: field name to fallback, in order; null and `[]` are both the empty sequence. */
  type Fallbacks = seq<(string, FallbackSpec)>

  /** The first fallback entry for `field`, if any. */
  function FindFallback(fallbacks: Fallbacks, field: string): (r: Option<FallbackSpec>)
    ensures r.None? <==> forall i :: 0 <= i < |fallbacks| ==> fallbacks[i].0 != field
    ensures r.Some? ==> exists i :: 0 <= i < |fallbacks| && fallbacks[i].0 == field && fallbacks[i].1 == r.value
  {
    if |fallbacks| == 0 then None
    else if fallbacks[0].0 == field then Some(fallbacks[0].1)
    else
      var r := FindFallback(fallbacks[1..], field);
      assert r.Some? ==> exists i :: 0 <= i < |fallbacks| && fallbacks[i].0 == field && fallbacks[i].1 == r.value by {
        if r.Some? {
          var i :| 0 <= i < |fallbacks[1..]| && fallbacks[1..][i].0 == field && fallbacks[1..][i].1 == r.value;
          assert fallbacks[i + 1] == fallbacks[1..][i];
        }
      }
      r
  }

  /**
   * `isset($fallbacks[$field])` and, when it holds, the value the fallback
   * gives: a callable is invoked, a literal is used as is.
   */
  function ExplicitFallback(fallbacks: Fallbacks, field: string): (r: Option<Value>)
    ensures r.Some? ==> FindFallback(fallbacks, field).Some?
    ensures r.None? <==> FindFallback(fallbacks, field).None? || FindFallback(fallbacks, field) == Some(Given(Null))
  {
    match FindFallback(fallbacks, field)
    case Some(Given(v)) => if v != Null then Some(v) else None
    case Some(Producer(f)) => Some(f())
    case None => None
  }

  /** Every callable fallback produces a non-null value. */
  predicate ProducersNonNull(fallbacks: Fallbacks)
  {
    forall i :: 0 <= i < |fallbacks| && fallbacks[i].1.Producer? ==> fallbacks[i].1.produce() != Null
  }

  /** The field names (after camel-casing) that have a built-in default. */
  const DefaultFallbackNames: set<string> := {
    "name", "title", "description", "content", "text", "summary", "excerpt", "features",
    "metaDescription", "seoDescription", "bio", "biography", "interests", "hobbies",
    "pros", "cons", "review", "feedback" }

  /** The built-in default for a camel-cased field name; "" for names outside the table. */
  function DefaultFallback(camelName: string): string
  {
    match camelName
    case "name" => "Sample Name"
    case "title" => "Sample Name"
    case "description" => "Sample description text."
    case "content" => "Sample description text."
    case "text" => "Sample description text."
    case "summary" => "Brief sample text."
    case "excerpt" => "Brief sample text."
    case "features" => "Feature 1, Feature 2, Feature 3"
    case "metaDescription" => "Sample meta description for SEO purposes."
    case "seoDescription" => "Sample meta description for SEO purposes."
    case "bio" => "Sample biography text."
    case "biography" => "Sample biography text."
    case "interests" => "Reading, Travel, Technology"
    case "hobbies" => "Reading, Travel, Technology"
    case "pros" => "Good quality, Fast delivery, Excellent support"
    case "cons" => "Limited options, Higher price"
    case "review" => "This is a sample review."
    case "feedback" => "This is a sample review."
    case _ => ""
  }

  /**
   * `getFallbackValue`: an explicit, non-null fallback for the field wins;
   * otherwise the built-in table keyed on the camel-cased name decides, and a
   * name outside the table gets "" (never null).
   */
  function FallbackValue(field: string, fallbacks: Fallbacks): Value
  {
    match ExplicitFallback(fallbacks, field)
    case Some(v) => v
    case None => Str(DefaultFallback(Camel(field)))
  }

  /** The built-in text is empty exactly for the names outside the built-in table. */
  lemma DefaultFallbackEmpty(camelName: string)
    ensures DefaultFallback(camelName) == "" <==> camelName !in DefaultFallbackNames
  {
  }

  /**
   * An explicit fallback gives its value (or its callable's result); otherwise
   * the value is the built-in string for the camel-cased name, empty exactly
   * when that name is outside the table.
   */
  lemma FallbackValueChoice(field: string, fallbacks: Fallbacks)
    ensures ExplicitFallback(fallbacks, field).Some? ==> FallbackValue(field, fallbacks) == ExplicitFallback(fallbacks, field).value
    ensures ExplicitFallback(fallbacks, field).None? ==>
      FallbackValue(field, fallbacks).Str? && (FallbackValue(field, fallbacks).s == "" <==> Camel(field) !in DefaultFallbackNames)
  {
    DefaultFallbackEmpty(Camel(field));
  }

  /** With callables that never return null, a fallback value is never null. */
  lemma FallbackValueNonNull(field: string, fallbacks: Fallbacks)
    requires ProducersNonNull(fallbacks)
    ensures FallbackValue(field, fallbacks) != Null
  {
    match FindFallback(fallbacks, field)
    case Some(Producer(f)) =>
      var i :| 0 <= i < |fallbacks| && fallbacks[i].0 == field && fallbacks[i].1 == Producer(f);
    case Some(Given(v)) =>
    case None =>
  }

  // ---------------------------------------------------------------------------
  // getFallbackValues

  /** `getFallbackValues`: `$result[$field] = getFallbackValue($field)` for each field in order. */
  function FallbackValues(fields: seq<string>, fallbacks: Fallbacks): Entries
    decreases |fields|
  {
    if |fields| == 0 then []
    else
      var last := fields[|fields| - 1];
      Set(FallbackValues(fields[..|fields| - 1], fallbacks), last, FallbackValue(last, fallbacks))
  }

  /**
   * The fallback map has exactly the requested (original, not camel-cased)
   * field names as keys, each mapped to its fallback value.
   */
  lemma {:induction false} FallbackValuesShape(fields: seq<string>, fallbacks: Fallbacks)
    ensures forall k :: HasKey(FallbackValues(fields, fallbacks), k) <==> k in fields
    ensures forall f :: f in fields ==> Lookup(FallbackValues(fields, fallbacks), f) == FallbackValue(f, fallbacks)
    decreases |fields|
  {
    if |fields| > 0 {
      var init := fields[..|fields| - 1];
      var last := fields[|fields| - 1];
      FallbackValuesShape(init, fallbacks);
      InInitOrLast(fields);
      var prev := FallbackValues(init, fallbacks);
      var r := FallbackValues(fields, fallbacks);
      forall k ensures HasKey(r, k) <==> k in fields {
        assert Keys(r) == if HasKey(prev, last) then Keys(prev) else Keys(prev) + [last];
      }
    }
  }

  /** Each requested field name occurs once as a key of the fallback map. */
  lemma {:induction false} FallbackValuesDistinct(fields: seq<string>, fallbacks: Fallbacks)
    ensures DistinctKeys(FallbackValues(fields, fallbacks))
    decreases |fields|
  {
    if |fields| > 0 {
      var init := fields[..|fields| - 1];
      var last := fields[|fields| - 1];
      FallbackValuesDistinct(init, fallbacks);
      var prev := FallbackValues(init, fallbacks);
      var r := FallbackValues(fields, fallbacks);
      if HasKey(prev, last) {
        var i := IndexOf(prev, last).value;
        assert r == prev[i := (last, FallbackValue(last, fallbacks))];
      } else {
        assert r == prev + [(last, FallbackValue(last, fallbacks))];
        forall i | 0 <= i < |prev| ensures prev[i].0 != last {
          assert Keys(prev)[i] == prev[i].0;
        }
      }
    }
  }

  method GetFallbackValues(fields: seq<string>, fallbacks: Fallbacks) returns (result: Entries)
    ensures result == FallbackValues(fields, fallbacks)
  {
    result := [];
    for i := 0 to |fields|
      invariant result == FallbackValues(fields[..i], fallbacks)
    {
      var field := fields[i];
      FallbackValuesSnoc(fields, i, fallbacks);
      result := Set(result, field, FallbackValue(field, fallbacks));
    }
    assert fields[..|fields|] == fields;
  }

  /** One more loop step sets one more field. */
  lemma FallbackValuesSnoc(fields: seq<string>, i: nat, fallbacks: Fallbacks)
    requires i < |fields|
    ensures FallbackValues(fields[..i + 1], fallbacks) == Set(FallbackValues(fields[..i], fallbacks), fields[i], FallbackValue(fields[i], fallbacks))
  {
    assert fields[..i + 1][..i] == fields[..i];
  }

  // ---------------------------------------------------------------------------
  // Required fields: `if (!isset($o[$field])) $o[$field] = getFallbackValue($field)`

  function FillField(m: Entries, field: string, fallbacks: Fallbacks): Entries
  {
    SetIfUnset(m, field, FallbackValue(field, fallbacks))
  }

  /** The required-field loop, over the fields in order. */
  function FillRequired(m: Entries, required: seq<string>, fallbacks: Fallbacks): Entries
    decreases |required|
  {
    if |required| == 0 then m
    else FillField(FillRequired(m, required[..|required| - 1], fallbacks), required[|required| - 1], fallbacks)
  }

  /**
   * Filling required fields keeps every key and every non-null value, leaves
   * other keys alone, and leaves every required field present (set, when
   * fallback callables never return null).
   */
  lemma {:induction false} FillRequiredShape(m: Entries, required: seq<string>, fallbacks: Fallbacks)
    ensures Extends(m, FillRequired(m, required, fallbacks))
    ensures forall f :: f in required ==> HasKey(FillRequired(m, required, fallbacks), f)
    ensures forall k :: k !in required ==> Lookup(FillRequired(m, required, fallbacks), k) == Lookup(m, k)
    ensures ProducersNonNull(fallbacks) ==> forall f :: f in required ==> IsSet(FillRequired(m, required, fallbacks), f)
    ensures forall f :: f in required ==>
      IsSet(FillRequired(m, required, fallbacks), f) || Lookup(FillRequired(m, required, fallbacks), f) == FallbackValue(f, fallbacks)
    decreases |required|
  {
    if |required| > 0 {
      var init := required[..|required| - 1];
      var last := required[|required| - 1];
      InInitOrLast(required);
      FillRequiredShape(m, init, fallbacks);
      var prev := FillRequired(m, init, fallbacks);
      var r := FillRequired(m, required, fallbacks);
      SetIfUnsetExtends(prev, last, FallbackValue(last, fallbacks));
      ExtendsTransitive(m, prev, r);
      forall f | f in required ensures HasKey(r, f) {
        ExtendsKeeps(prev, r, f);
      }
      if ProducersNonNull(fallbacks) {
        FallbackValueNonNull(last, fallbacks);
        forall f | f in required ensures IsSet(r, f) {
          ExtendsKeeps(prev, r, f);
        }
      }
    }
  }

  /**
   * An object whose required fields are all present, and set unless their
   * fallback is null anyway, is left exactly as it is.
   */
  lemma {:induction false} FillRequiredUnchanged(m: Entries, required: seq<string>, fallbacks: Fallbacks)
    requires forall f :: f in required ==> HasKey(m, f) && (IsSet(m, f) || FallbackValue(f, fallbacks) == Null)
    ensures FillRequired(m, required, fallbacks) == m
    decreases |required|
  {
    if |required| > 0 {
      var init := required[..|required| - 1];
      var last := required[|required| - 1];
      assert forall f :: f in init ==> f in required;
      FillRequiredUnchanged(m, init, fallbacks);
      if !IsSet(m, last) {
        SetSameValue(m, last, Null);
      }
    }
  }

  /** One more loop step fills one more field. */
  lemma FillRequiredSnoc(m: Entries, required: seq<string>, i: nat, fallbacks: Fallbacks)
    requires i < |required|
    ensures FillRequired(m, required[..i + 1], fallbacks) == FillField(FillRequired(m, required[..i], fallbacks), required[i], fallbacks)
  {
    assert required[..i + 1][..i] == required[..i];
  }

  /** The required-field loop as `createAIObject`, `getBasicObject` and `createAIBatch` run it. */
  method FillRequiredFields(obj: Entries, required: seq<string>, fallbacks: Fallbacks) returns (result: Entries)
    ensures result == FillRequired(obj, required, fallbacks)
  {
    result := obj;
    for i := 0 to |required|
      invariant result == FillRequired(obj, required[..i], fallbacks)
    {
      var field := required[i];
      FillRequiredSnoc(obj, required, i, fallbacks);
      if !IsSet(result, field) {
        result := Set(result, field, FallbackValue(field, fallbacks));
      }
    }
    assert required[..|required|] == required;
  }

  // ---------------------------------------------------------------------------
  // promptAIObject: a field counts as present under its camel or its original name

  /** Patch one requested field into a decoded object. */
  function PatchField(m: Entries, field: string, fallbacks: Fallbacks): Entries
  {
    var camel := Camel(field);
    if IsSet(m, camel) || IsSet(m, field) then m
    else
      var key := if ExplicitFallback(fallbacks, field).Some? then field else camel;
      Set(m, key, FallbackValue(key, fallbacks))
  }

  function PatchFields(m: Entries, fields: seq<string>, fallbacks: Fallbacks): Entries
    decreases |fields|
  {
    if |fields| == 0 then m
    else PatchField(PatchFields(m, fields[..|fields| - 1], fallbacks), fields[|fields| - 1], fallbacks)
  }

  /**
   * A field missing under both names is inserted under its original name with
   * its explicit fallback when it has one, and otherwise under its camel name
   * with the fallback for that name; a field present under either name is left
   * as it is.
   */
  lemma PatchFieldPlacement(m: Entries, field: string, fallbacks: Fallbacks)
    ensures IsSet(m, Camel(field)) || IsSet(m, field) ==> PatchField(m, field, fallbacks) == m
    ensures !IsSet(m, Camel(field)) && !IsSet(m, field) && ExplicitFallback(fallbacks, field).Some? ==>
      PatchField(m, field, fallbacks) == Set(m, field, ExplicitFallback(fallbacks, field).value)
    ensures !IsSet(m, Camel(field)) && !IsSet(m, field) && ExplicitFallback(fallbacks, field).None? ==>
      PatchField(m, field, fallbacks) == Set(m, Camel(field), FallbackValue(Camel(field), fallbacks))
    ensures ExplicitFallback(fallbacks, Camel(field)).None? ==>
      FallbackValue(Camel(field), fallbacks) == Str(DefaultFallback(Camel(field)))
  {
    CamelIdempotent(field);
  }

  /**
   * After patching, every requested field is present under its camel or its
   * original name (set, when fallback callables never return null), every
   * value the decoded object had is kept, and every key that was not there
   * before is one of the requested names.
   */
  lemma {:induction false} PatchFieldsShape(m: Entries, fields: seq<string>, fallbacks: Fallbacks)
    ensures Extends(m, PatchFields(m, fields, fallbacks))
    ensures forall f :: f in fields ==>
      HasKey(PatchFields(m, fields, fallbacks), Camel(f)) || HasKey(PatchFields(m, fields, fallbacks), f)
    ensures ProducersNonNull(fallbacks) ==> forall f :: f in fields ==>
      IsSet(PatchFields(m, fields, fallbacks), Camel(f)) || IsSet(PatchFields(m, fields, fallbacks), f)
    ensures forall k :: HasKey(PatchFields(m, fields, fallbacks), k) && !HasKey(m, k) ==>
      exists f :: f in fields && (k == f || k == Camel(f))
    decreases |fields|
  {
    if |fields| > 0 {
      var init := fields[..|fields| - 1];
      var last := fields[|fields| - 1];
      InInitOrLast(fields);
      PatchFieldsShape(m, init, fallbacks);
      var prev := PatchFields(m, init, fallbacks);
      var r := PatchFields(m, fields, fallbacks);
      assert r == PatchField(prev, last, fallbacks);
      PatchFieldStep(prev, last, fallbacks);
      ExtendsTransitive(m, prev, r);
      forall f | f in fields ensures HasKey(r, Camel(f)) || HasKey(r, f) {
        ExtendsKeeps(prev, r, f);
        ExtendsKeeps(prev, r, Camel(f));
      }
      if ProducersNonNull(fallbacks) {
        forall f | f in fields ensures IsSet(r, Camel(f)) || IsSet(r, f) {
          ExtendsKeeps(prev, r, f);
          ExtendsKeeps(prev, r, Camel(f));
        }
      }
      forall k | HasKey(r, k) && !HasKey(m, k) ensures exists f :: f in fields && (k == f || k == Camel(f)) {
        if !HasKey(prev, k) {
          assert last in fields;
        }
      }
    }
  }

  /** One patch step keeps the object, provides the field, and adds no key but its two names. */
  lemma PatchFieldStep(m: Entries, field: string, fallbacks: Fallbacks)
    ensures var r := PatchField(m, field, fallbacks);
      && Extends(m, r)
      && (HasKey(r, Camel(field)) || HasKey(r, field))
      && (ProducersNonNull(fallbacks) ==> IsSet(r, Camel(field)) || IsSet(r, field))
      && forall k :: HasKey(r, k) && !HasKey(m, k) ==> k == field || k == Camel(field)
  {
    var r := PatchField(m, field, fallbacks);
    var camel := Camel(field);
    if !(IsSet(m, camel) || IsSet(m, field)) {
      var key := if ExplicitFallback(fallbacks, field).Some? then field else camel;
      assert r == SetIfUnset(m, key, FallbackValue(key, fallbacks));
      SetIfUnsetExtends(m, key, FallbackValue(key, fallbacks));
      if ProducersNonNull(fallbacks) { FallbackValueNonNull(key, fallbacks); }
      assert Keys(r) == if HasKey(m, key) then Keys(m) else Keys(m) + [key];
    } else {
      ExtendsReflexive(m);
      assert HasKey(m, camel) || HasKey(m, field) by {
        if IsSet(m, camel) { assert IndexOf(m, camel).Some?; } else { assert IndexOf(m, field).Some?; }
      }
    }
  }

  /** The patch loop of `promptAIObject`. */
  method PatchMissingFields(decoded: Entries, fields: seq<string>, fallbacks: Fallbacks) returns (result: Entries)
    ensures result == PatchFields(decoded, fields, fallbacks)
  {
    result := decoded;
    for i := 0 to |fields|
      invariant result == PatchFields(decoded, fields[..i], fallbacks)
    {
      ghost var before := result;
      var field := fields[i];
      var camelField := Camel(field);
      if !IsSet(result, camelField) && !IsSet(result, field) {
        var fieldKey := if ExplicitFallback(fallbacks, field).Some? then field else camelField;
        result := Set(result, fieldKey, FallbackValue(fieldKey, fallbacks));
      }
      assert result == PatchField(before, field, fallbacks);
      PatchFieldsSnoc(decoded, fields, i, fallbacks);
    }
    assert fields[..|fields|] == fields;
  }

  lemma PatchFieldsSnoc(m: Entries, fields: seq<string>, i: nat, fallbacks: Fallbacks)
    requires i < |fields|
    ensures PatchFields(m, fields[..i + 1], fallbacks) == PatchField(PatchFields(m, fields[..i], fallbacks), fields[i], fallbacks)
  {
    assert fields[..i + 1][..i] == fields[..i];
  }
}
