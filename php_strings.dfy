/**
 * The string helpers the prompt provider calls: `Str::camel`, `strtolower` /
 * `Str::lower`, `ucwords`, `trim`, integer-to-string conversion and
 * `implode`.  Case mapping is ASCII only (see README).
 */
module PhpStrings {

  function LowerChar(c: char): (r: char)
  {
    if 'A' <= c <= 'Z' then (c as int + 32) as char else c
  }

  function UpperChar(c: char): (r: char)
  {
    if 'a' <= c <= 'z' then (c as int - 32) as char else c
  }

  /** `strtolower($s)`. */
  function Lower(s: string): (r: string)
    ensures |r| == |s|
    ensures forall i :: 0 <= i < |s| ==> r[i] == LowerChar(s[i])
  {
    seq(|s|, i requires 0 <= i < |s| => LowerChar(s[i]))
  }

  // ---------------------------------------------------------------------------
  // Str::camel

  /** The characters `Str::studly` treats as word breaks. */
  predicate IsWordBreak(c: char)
  {
    c == '-' || c == '_' || c == ' '
  }

  predicate NoWordBreaks(s: string)
  {
    forall i :: 0 <= i < |s| ==> !IsWordBreak(s[i])
  }

  /**
   * `Str::studly` from some point on: word breaks are dropped and the first
   * character of every word is upper-cased.  `wordStart` says whether the next
   * character begins a word.
   */
  function StudlyFrom(s: string, wordStart: bool): (r: string)
    ensures NoWordBreaks(r)
    ensures |r| <= |s|
    decreases |s|
  {
    if |s| == 0 then []
    else if IsWordBreak(s[0]) then StudlyFrom(s[1..], true)
    else [if wordStart then UpperChar(s[0]) else s[0]] + StudlyFrom(s[1..], false)
  }

  /** `lcfirst`. */
  function LowerFirst(s: string): string
  {
    if |s| == 0 then s else [LowerChar(s[0])] + s[1..]
  }

  /** `Str::camel($s)` = `lcfirst(Str::studly($s))`. */
  function Camel(s: string): (r: string)
    ensures NoWordBreaks(r)
  {
    LowerFirst(StudlyFrom(s, true))
  }

  /** Studly-casing text without word breaks only touches its first character. */
  lemma {:induction false} StudlyOfWord(s: string, wordStart: bool)
    requires NoWordBreaks(s)
    ensures StudlyFrom(s, wordStart) == if |s| == 0 then s else [if wordStart then UpperChar(s[0]) else s[0]] + s[1..]
    decreases |s|
  {
    if |s| > 0 {
      StudlyOfWord(s[1..], false);
    }
  }

  lemma CaseRoundTrip(c: char)
    ensures LowerChar(UpperChar(LowerChar(c))) == LowerChar(c)
  {
  }

  /** Camel-casing a camel-cased name changes nothing. */
  lemma CamelIdempotent(s: string)
    ensures Camel(Camel(s)) == Camel(s)
  {
    var t := StudlyFrom(s, true);
    var c := Camel(s);
    StudlyOfWord(c, true);
    if |t| > 0 {
      CaseRoundTrip(t[0]);
      assert c == [LowerChar(t[0])] + t[1..];
      assert Camel(c) == [LowerChar(UpperChar(LowerChar(t[0])))] + t[1..];
    }
  }

  /** A name already in camel case (no breaks, lower-case first letter) is its own camel form. */
  lemma CamelOfCamelName(s: string)
    requires NoWordBreaks(s)
    requires |s| > 0 ==> LowerChar(UpperChar(s[0])) == s[0]
    ensures Camel(s) == s
  {
    StudlyOfWord(s, true);
  }

  // ---------------------------------------------------------------------------
  // ucwords

  /** The default word delimiters of `ucwords`. */
  predicate IsUcWordsDelimiter(c: char)
  {
    c == ' ' || c == '\t' || c == '\r' || c == '\n' || c as int == 0x0C || c as int == 0x0B
  }

  /** `ucwords` from a position where a word starts exactly when `wordStart` holds. */
  function UcWordsFrom(s: string, wordStart: bool): (r: string)
    ensures |r| == |s|
    ensures forall i :: 0 <= i < |s| ==>
      r[i] == (if (if i == 0 then wordStart else IsUcWordsDelimiter(s[i - 1])) then UpperChar(s[i]) else s[i])
    decreases |s|
  {
    if |s| == 0 then []
    else [if wordStart then UpperChar(s[0]) else s[0]] + UcWordsFrom(s[1..], IsUcWordsDelimiter(s[0]))
  }

  /**
   * `ucwords($s)`: upper-case the first character of every word, a word
   * starting at the beginning and after each delimiter; nothing else changes.
   */
  function UcWords(s: string): (r: string)
    ensures |r| == |s|
    ensures forall i :: 0 <= i < |s| ==>
      r[i] == (if i == 0 || IsUcWordsDelimiter(s[i - 1]) then UpperChar(s[i]) else s[i])
  {
    UcWordsFrom(s, true)
  }

  // ---------------------------------------------------------------------------
  // trim

  /** The characters `trim` strips by default. */
  predicate IsTrimmed(c: char)
  {
    c == ' ' || c == '\t' || c == '\n' || c == '\r' || c == '\0' || c as int == 0x0B
  }

  /** The first position at or after `from` that `trim` keeps (or `|s|`). */
  function TrimFrom(s: string, from: nat): (n: nat)
    requires from <= |s|
    ensures from <= n <= |s|
    ensures forall i :: from <= i < n ==> IsTrimmed(s[i])
    ensures n < |s| ==> !IsTrimmed(s[n])
    decreases |s| - from
  {
    if from < |s| && IsTrimmed(s[from]) then TrimFrom(s, from + 1) else from
  }

  /** The end of what `trim` keeps of `s[..to]`: only blanks lie between it and `to`. */
  function TrimTo(s: string, to: nat): (n: nat)
    requires to <= |s|
    ensures n <= to
    ensures forall i :: n <= i < to ==> IsTrimmed(s[i])
    ensures n > 0 ==> !IsTrimmed(s[n - 1])
  {
    if to > 0 && IsTrimmed(s[to - 1]) then TrimTo(s, to - 1) else to
  }

  /** How many blanks `trim` strips from the front of `s`. */
  function LeadingBlanks(s: string): (n: nat)
    ensures n <= |s|
  {
    TrimFrom(s, 0)
  }

  /**
   * `trim($s)`: the middle of `s`; everything stripped before and after it is
   * blank, and it neither starts nor ends with a blank.
   */
  function Trim(s: string): (r: string)
    ensures LeadingBlanks(s) + |r| <= |s| && r == s[LeadingBlanks(s)..LeadingBlanks(s) + |r|]
    ensures forall i :: 0 <= i < LeadingBlanks(s) ==> IsTrimmed(s[i])
    ensures forall i :: LeadingBlanks(s) + |r| <= i < |s| ==> IsTrimmed(s[i])
    ensures |r| > 0 ==> !IsTrimmed(r[0]) && !IsTrimmed(r[|r| - 1])
  {
    var start := TrimFrom(s, 0);
    if start == |s| then "" else s[start..TrimTo(s, |s|)]
  }

  // ---------------------------------------------------------------------------
  // Integers as text

  function DigitChar(d: nat): (c: char)
    requires d < 10
    ensures '0' <= c <= '9'
  {
    ('0' as int + d) as char
  }

  predicate AllDigits(s: string)
  {
    forall i :: 0 <= i < |s| ==> '0' <= s[i] <= '9'
  }

  /** PHP's conversion of a non-negative int to a string, in decimal. */
  function Decimal(n: nat): (s: string)
    ensures |s| >= 1 && AllDigits(s)
  {
    if n < 10 then [DigitChar(n)] else Decimal(n / 10) + [DigitChar(n % 10)]
  }

  /** The number a string of decimal digits denotes. */
  function DigitsValue(s: string): nat
    requires AllDigits(s)
  {
    if |s| == 0 then 0 else 10 * DigitsValue(s[..|s| - 1]) + (s[|s| - 1] as int - '0' as int)
  }

  /** Reading back the decimal text of `n` gives `n`: distinct numbers print differently. */
  lemma {:induction false} DecimalRoundTrip(n: nat)
    ensures DigitsValue(Decimal(n)) == n
  {
    var s := Decimal(n);
    if n >= 10 {
      DecimalRoundTrip(n / 10);
      assert s[..|s| - 1] == Decimal(n / 10);
    }
  }

  lemma DecimalInjective(m: nat, n: nat)
    requires Decimal(m) == Decimal(n)
    ensures m == n
  {
    DecimalRoundTrip(m);
    DecimalRoundTrip(n);
  }

  // ---------------------------------------------------------------------------
  // implode

  /** `implode($sep, $parts)`. */
  function Join(sep: string, parts: seq<string>): (r: string)
    ensures |parts| == 0 ==> r == ""
    ensures |parts| == 1 ==> r == parts[0]
  {
    if |parts| == 0 then ""
    else if |parts| == 1 then parts[0]
    else Join(sep, parts[..|parts| - 1]) + sep + parts[|parts| - 1]
  }

  /** Appending one more part adds the separator and that part at the end. */
  lemma JoinSnoc(sep: string, parts: seq<string>, p: string)
    requires |parts| > 0
    ensures Join(sep, parts + [p]) == Join(sep, parts) + sep + p
  {
    assert (parts + [p])[..|parts|] == parts;
  }
}
