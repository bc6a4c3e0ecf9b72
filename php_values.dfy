/**
 * PHP values as the package sees them after `json_decode($text, true)`, and
 * the string-keyed PHP arrays it builds and patches.
 *
 * A PHP array with string keys is an ordered dictionary: modelled as a
 * sequence of (key, value) entries.  Reading a key that is absent yields
 * null, and `isset($a[$k])` / `$a[$k] ?? $d` treat a key that maps to null
 * exactly like an absent one.  Assigning `$a[$k] = $v` overwrites the entry in
 * place when the key exists and appends it otherwise.
 */
module PhpValues {
  import opened Optional

  datatype Value =
    | Null
    | Bool(b: bool)
    | Num(literal: string)      // numbers stay opaque: the package does no arithmetic on them
    | Str(s: string)
    | List(items: seq<Value>)
    | Map(entries: seq<(string, Value)>)

  type Entries = seq<(string, Value)>

  /** The keys of an array, in insertion order. */
  function Keys(m: Entries): (ks: seq<string>)
    ensures |ks| == |m|
    ensures forall i :: 0 <= i < |m| ==> ks[i] == m[i].0
  {
    seq(|m|, i requires 0 <= i < |m| => m[i].0)
  }

  predicate HasKey(m: Entries, k: string)
  {
    k in Keys(m)
  }

  /** No key occurs twice: every array PHP itself builds has this shape. */
  predicate DistinctKeys(m: Entries)
  {
    forall i, j :: 0 <= i < j < |m| ==> m[i].0 != m[j].0
  }

  /** Position of the entry for `k`, if any. */
  function IndexOf(m: Entries, k: string): (r: Option<nat>)
    ensures r.Some? ==> r.value < |m| && m[r.value].0 == k
    ensures r.Some? ==> forall j :: 0 <= j < r.value ==> m[j].0 != k
    ensures r.None? <==> !HasKey(m, k)
  {
    if |m| == 0 then None
    else if m[0].0 == k then Some(0)
    else match IndexOf(m[1..], k)
      case Some(i) => Some(i + 1)
      case None => None
  }

  /** `$m[$k] ?? null`: the value stored under `k`, or null when there is none. */
  function Lookup(m: Entries, k: string): Value
  {
    match IndexOf(m, k)
    case Some(i) => m[i].1
    case None => Null
  }

  /** `isset($m[$k])`. */
  predicate IsSet(m: Entries, k: string)
  {
    Lookup(m, k) != Null
  }

  /** `$m[$k] ?? $default`. */
  function LookupOr(m: Entries, k: string, default: Value): Value
  {
    if IsSet(m, k) then Lookup(m, k) else default
  }

  /** `$m[$k] = $v`. */
  function Set(m: Entries, k: string, v: Value): (r: Entries)
    ensures Lookup(r, k) == v && HasKey(r, k)
    ensures forall k' :: k' != k ==> Lookup(r, k') == Lookup(m, k')
    ensures Keys(r) == if HasKey(m, k) then Keys(m) else Keys(m) + [k]
  {
    match IndexOf(m, k)
    case Some(i) => SetInPlace(m, k, v, i); m[i := (k, v)]
    case None => SetAppend(m, k, v); m + [(k, v)]
  }

  /** Overwriting the entry of an existing key. */
  lemma SetInPlace(m: Entries, k: string, v: Value, i: nat)
    requires IndexOf(m, k) == Some(i)
    ensures var r := m[i := (k, v)];
      && Lookup(r, k) == v && HasKey(r, k)
      && (forall k' :: k' != k ==> Lookup(r, k') == Lookup(m, k'))
      && Keys(r) == Keys(m)
  {
    var r := m[i := (k, v)];
    IndexOfByPosition(r, k, i);
    forall k' | k' != k ensures Lookup(r, k') == Lookup(m, k') {
      IndexOfSameKeys(m, r, k');
    }
    assert Keys(r) == Keys(m);
  }

  /** Appending the entry of a new key. */
  lemma SetAppend(m: Entries, k: string, v: Value)
    requires !HasKey(m, k)
    ensures var r := m + [(k, v)];
      && Lookup(r, k) == v && HasKey(r, k)
      && (forall k' :: k' != k ==> Lookup(r, k') == Lookup(m, k'))
      && Keys(r) == Keys(m) + [k]
  {
    var r := m + [(k, v)];
    IndexOfByPosition(r, k, |m|);
    forall k' | k' != k ensures Lookup(r, k') == Lookup(m, k') {
      IndexOfExtended(m, r, k');
    }
    assert Keys(r) == Keys(m) + [k];
  }

  /** `$m[$k] = $m[$k] ?? $v`: fill a key that is absent or null, keep it otherwise. */
  function SetIfUnset(m: Entries, k: string, v: Value): Entries
  {
    if IsSet(m, k) then m else Set(m, k, v)
  }

  /** `array_merge($a, $b)` for string keys: `b`'s values win, keys of `a` keep their places. */
  function Merge(a: Entries, b: Entries): Entries
    decreases |b|
  {
    if |b| == 0 then a else Merge(Set(a, b[0].0, b[0].1), b[1..])
  }

  /**
   * `m'` is `m` with possibly more entries appended and null values filled in:
   * every key keeps its place and every non-null value is kept.
   */
  ghost predicate Extends(m: Entries, m': Entries)
  {
    && |m| <= |m'|
    && forall i :: 0 <= i < |m| ==> m'[i].0 == m[i].0 && (m[i].1 != Null ==> m'[i].1 == m[i].1)
  }

  // ---------------------------------------------------------------------------
  // Lemmas about positions

  /** A name is in a non-empty list exactly when it is in all but the last, or is the last. */
  lemma InInitOrLast(xs: seq<string>)
    requires |xs| > 0
    ensures forall x :: x in xs <==> x in xs[..|xs| - 1] || x == xs[|xs| - 1]
  {
    assert xs == xs[..|xs| - 1] + [xs[|xs| - 1]];
  }

  lemma {:induction false} IndexOfByPosition(m: Entries, k: string, i: nat)
    requires i < |m| && m[i].0 == k
    requires forall j :: 0 <= j < i ==> m[j].0 != k
    ensures IndexOf(m, k) == Some(i)
  {
    if i > 0 {
      assert m[0].0 != k;
      IndexOfByPosition(m[1..], k, i - 1);
    }
  }

  /** Lookups through the first entry of a non-empty array. */
  lemma Uncons(m: Entries, k: string)
    requires |m| > 0
    ensures HasKey(m, k) <==> m[0].0 == k || HasKey(m[1..], k)
    ensures Lookup(m, k) == if m[0].0 == k then m[0].1 else Lookup(m[1..], k)
  {
    assert Keys(m) == [m[0].0] + Keys(m[1..]);
  }

  /** Two arrays with the same keys in the same places find every key at the same place. */
  lemma IndexOfSameKeys(m: Entries, m': Entries, k: string)
    requires |m| == |m'|
    requires forall i :: 0 <= i < |m| ==> m'[i].0 == m[i].0
    ensures IndexOf(m', k) == IndexOf(m, k)
  {
    assert Keys(m) == Keys(m');
    match IndexOf(m, k)
    case Some(i) => IndexOfByPosition(m', k, i);
    case None =>
  }

  /** A key that has a place in `m` keeps it when entries are appended. */
  lemma IndexOfExtended(m: Entries, m': Entries, k: string)
    requires |m| <= |m'|
    requires forall i :: 0 <= i < |m| ==> m'[i].0 == m[i].0
    requires HasKey(m, k) || !HasKey(m'[|m|..], k)
    ensures IndexOf(m', k) == IndexOf(m, k)
  {
    match IndexOf(m, k)
    case Some(i) => IndexOfByPosition(m', k, i);
    case None =>
      forall j | 0 <= j < |m'| ensures m'[j].0 != k {
        if j < |m| {
          assert Keys(m)[j] == m[j].0;
        } else {
          assert Keys(m'[|m|..])[j - |m|] == m'[j].0;
        }
      }
      assert k !in Keys(m');
  }

  // ---------------------------------------------------------------------------
  // Extends: what "fill in, never overwrite" guarantees

  lemma {:induction false} ExtendsReflexive(m: Entries)
    ensures Extends(m, m)
  {
  }

  lemma ExtendsTransitive(m1: Entries, m2: Entries, m3: Entries)
    requires Extends(m1, m2) && Extends(m2, m3)
    ensures Extends(m1, m3)
  {
  }

  /** Extending an array keeps every key and every non-null value it had. */
  lemma ExtendsKeeps(m: Entries, m': Entries, k: string)
    requires Extends(m, m')
    ensures HasKey(m, k) ==> HasKey(m', k)
    ensures IsSet(m, k) ==> Lookup(m', k) == Lookup(m, k)
  {
    if HasKey(m, k) {
      var i := IndexOf(m, k).value;
      IndexOfByPosition(m', k, i);
      assert Keys(m')[i] == k;
    }
  }

  lemma SetIfUnsetExtends(m: Entries, k: string, v: Value)
    ensures Extends(m, SetIfUnset(m, k, v))
  {
    if !IsSet(m, k) {
      var r := Set(m, k, v);
      match IndexOf(m, k)
      case Some(i) => assert r == m[i := (k, v)] && m[i].1 == Null;
      case None => assert r == m + [(k, v)];
    }
  }

  /** `$m[$k] = $m[$k] ?? $v` is exactly "fill if unset". */
  lemma CoalesceAssign(m: Entries, k: string, v: Value)
    ensures Set(m, k, LookupOr(m, k, v)) == SetIfUnset(m, k, v)
  {
    if IsSet(m, k) {
      var i := IndexOf(m, k).value;
      assert m[i := (k, m[i].1)] == m;
    }
  }

  /** Writing the value a present key already holds changes nothing. */
  lemma SetSameValue(m: Entries, k: string, v: Value)
    requires HasKey(m, k) && Lookup(m, k) == v
    ensures Set(m, k, v) == m
  {
    var i := IndexOf(m, k).value;
    assert m[i := (k, v)] == m;
  }

  // ---------------------------------------------------------------------------
  // array_merge

  /**
   * `array_merge($a, $b)`: a key of `b` takes `b`'s value, every other key keeps
   * `a`'s, and the keys of `a` come first, in their old order.
   */
  lemma {:induction false} MergeLookup(a: Entries, b: Entries, k: string)
    requires DistinctKeys(b)
    ensures Lookup(Merge(a, b), k) == if HasKey(b, k) then Lookup(b, k) else Lookup(a, k)
    ensures HasKey(Merge(a, b), k) <==> HasKey(a, k) || HasKey(b, k)
    decreases |b|
  {
    if |b| > 0 {
      var a' := Set(a, b[0].0, b[0].1);
      var b' := b[1..];
      assert DistinctKeys(b');
      MergeLookup(a', b', k);
      Uncons(b, k);
      if k == b[0].0 {
        forall j | 0 <= j < |b'| ensures b'[j].0 != k {
          assert b[j + 1].0 != b[0].0;
        }
        assert k !in Keys(b');
      } else {
        assert HasKey(a', k) <==> HasKey(a, k) by {
          assert Keys(a') == if HasKey(a, b[0].0) then Keys(a) else Keys(a) + [b[0].0];
        }
      }
    }
  }

  /** The keys of `a` keep their positions in `array_merge($a, $b)`. */
  lemma {:induction false} MergeKeepsOrder(a: Entries, b: Entries)
    ensures |Merge(a, b)| >= |a|
    ensures Keys(Merge(a, b))[..|a|] == Keys(a)
    decreases |b|
  {
    if |b| > 0 {
      var a' := Set(a, b[0].0, b[0].1);
      MergeKeepsOrder(a', b[1..]);
      assert Keys(a')[..|a|] == Keys(a);
    }
  }
}
