/**
 * Python values and the handful of built-ins the lead-finder core applies to them:
 * truthiness, `str()`, `str.lower()`, `str.strip()`, `str.replace()`, `in` on strings,
 * `", ".join(...)` and `int()`.
 */
module Values {

  datatype Option<+T> = None | Some(value: T)

  /** A Python value as it occurs in a record, a cache entry or a decoded JSON document. */
  datatype Value =
    | VNone
    | VBool(b: bool)
    | VInt(i: int)
    | VStr(s: string)
    | VList(items: seq<Value>)
    | VDict(fields: map<string, Value>)

  /** A dict with string keys: a business record, a filter set, a parsed JSON object. */
  type Record = map<string, Value>

  /** Python truthiness, the test `if v:` makes. */
  predicate Truthy(v: Value) {
    match v
    case VNone => false
    case VBool(b) => b
    case VInt(i) => i != 0
    case VStr(s) => s != ""
    case VList(xs) => xs != []
    case VDict(m) => m != map[]
  }

  /** `d.get(k, default)`; `d.get(k)` is `Get(d, k, VNone)`. */
  function Get(d: Record, k: string, default: Value): Value {
    if k in d then d[k] else default
  }

  /** A dict display `{k1: v1, k2: v2, ...}`: the keys in order, a later pair replacing an earlier one. */
  function DictOf(pairs: seq<(string, Value)>): Record
    decreases |pairs|
  {
    if pairs == [] then map[]
    else DictOf(pairs[..|pairs| - 1])[pairs[|pairs| - 1].0 := pairs[|pairs| - 1].1]
  }

  /** A key listed once, or last, in a dict display maps to its value. */
  lemma {:induction false} DictOfLookup(pairs: seq<(string, Value)>, i: int)
    requires 0 <= i < |pairs| && forall j :: i < j < |pairs| ==> pairs[j].0 != pairs[i].0
    ensures pairs[i].0 in DictOf(pairs) && DictOf(pairs)[pairs[i].0] == pairs[i].1
    decreases |pairs|
  {
    if i < |pairs| - 1 {
      var init := pairs[..|pairs| - 1];
      assert init[i] == pairs[i];
      DictOfLookup(init, i);
    }
  }

  predicate DistinctKeys(pairs: seq<(string, Value)>) {
    forall i, j :: 0 <= i < j < |pairs| ==> pairs[i].0 != pairs[j].0
  }

  /** A dict display with distinct keys maps each listed key to its listed value. */
  lemma DictOfDistinct(pairs: seq<(string, Value)>)
    requires DistinctKeys(pairs)
    ensures forall i :: 0 <= i < |pairs| ==> pairs[i].0 in DictOf(pairs) && DictOf(pairs)[pairs[i].0] == pairs[i].1
  {
    forall i | 0 <= i < |pairs|
      ensures pairs[i].0 in DictOf(pairs) && DictOf(pairs)[pairs[i].0] == pairs[i].1
    {
      DictOfLookup(pairs, i);
    }
  }

  /** The record with `key` set to the text of an element, where the element exists. */
  function WithOpt(company: Record, key: string, text: Option<string>): (r: Record)
    ensures r.Keys <= company.Keys + {key} && company.Keys <= r.Keys
  {
    if text.Some? then company[key := VStr(text.value)] else company
  }

  /** A value that is either falsy or a string: one on which `if v: v.lower()` cannot raise. */
  predicate TextOrFalsy(v: Value) {
    !Truthy(v) || v.VStr?
  }

  /** Python's `str(v)`.  Lists and dicts are rendered by a placeholder. */
  function Show(v: Value): string {
    match v
    case VNone => "None"
    case VBool(b) => if b then "True" else "False"
    case VInt(i) => IntToString(i)
    case VStr(s) => s
    case VList(_) => "[...]"
    case VDict(_) => "{...}"
  }

  function Min(a: int, b: int): int {
    if a <= b then a else b
  }

  // ---------------------------------------------------------------- characters

  /** `str.isspace()` for one character: the characters Python's `strip()` removes. */
  predicate IsSpace(c: char) {
    var n := c as int;
    (9 <= n <= 13) || (28 <= n <= 32) || n == 0x85 || n == 0xA0 || n == 0x1680
    || (0x2000 <= n <= 0x200A) || n == 0x2028 || n == 0x2029 || n == 0x202F
    || n == 0x205F || n == 0x3000
  }

  predicate IsDigit(c: char) {
    '0' <= c <= '9'
  }

  function LowerChar(c: char): char {
    if 'A' <= c <= 'Z' then (c as int + 32) as char else c
  }

  // ---------------------------------------------------------------- strings

  /** `s.lower()`, restricted to ASCII letters. */
  function Lower(s: string): string {
    seq(|s|, i requires 0 <= i < |s| => LowerChar(s[i]))
  }

  /** Python's `sub in s` on strings. */
  predicate Contains(s: string, sub: string)
    decreases |s|
  {
    sub <= s || (|s| > 0 && Contains(s[1..], sub))
  }

  /** `s.replace(pat, with)`: every non-overlapping occurrence, scanned left to right. */
  function Replace(s: string, pat: string, with: string): string
    requires pat != []
    decreases |s|
  {
    if s == [] then []
    else if pat <= s then with + Replace(s[|pat|..], pat, with)
    else [s[0]] + Replace(s[1..], pat, with)
  }

  function StripLeft(s: string): string {
    if |s| > 0 && IsSpace(s[0]) then StripLeft(s[1..]) else s
  }

  function StripRight(s: string): string {
    if |s| > 0 && IsSpace(s[|s| - 1]) then StripRight(s[..|s| - 1]) else s
  }

  /** `s.strip()` */
  function Strip(s: string): string {
    StripRight(StripLeft(s))
  }

  /** `sep.join(items)` */
  function Join(sep: string, items: seq<string>): string {
    if |items| == 0 then ""
    else if |items| == 1 then items[0]
    else items[0] + sep + Join(sep, items[1..])
  }

  /** `s[:n]` for n >= 0 (Python clamps the slice). */
  function Take(s: string, n: nat): (r: string)
    ensures |r| == Min(n, |s|) && r <= s
  {
    if n <= |s| then s[..n] else s
  }

  // ---------------------------------------------------------------- integers

  function DigitChar(d: int): char
    requires 0 <= d <= 9
  {
    ('0' as int + d) as char
  }

  function NatToString(n: nat): string
    decreases n
  {
    if n < 10 then [DigitChar(n)] else NatToString(n / 10) + [DigitChar(n % 10)]
  }

  /** `str(i)` for an int. */
  function IntToString(i: int): string {
    if i < 0 then "-" + NatToString(-i) else NatToString(i)
  }

  predicate AllDigits(s: string) {
    forall k :: 0 <= k < |s| ==> IsDigit(s[k])
  }

  /** The number a non-empty run of decimal digits denotes. */
  function DigitsValue(s: string): nat
    requires AllDigits(s)
    decreases |s|
  {
    if s == [] then 0 else DigitsValue(s[..|s| - 1]) * 10 + (s[|s| - 1] as int - '0' as int)
  }

  /**
   * Python's `int(text)`: surrounding white space, an optional sign, then
   * one or more ASCII digits.  None where Python raises ValueError.
   */
  function ParseInt(text: string): Option<int> {
    var t := Strip(text);
    if |t| > 0 && (t[0] == '-' || t[0] == '+') then
      var body := t[1..];
      if |body| > 0 && AllDigits(body) then
        var magnitude: int := DigitsValue(body);
        Some(if t[0] == '-' then -magnitude else magnitude)
      else None
    else if |t| > 0 && AllDigits(t) then Some(DigitsValue(t))
    else None
  }

  /** Python's `int(v)`: None where Python raises ValueError or TypeError. */
  function PyInt(v: Value): Option<int> {
    match v
    case VInt(i) => Some(i)
    case VBool(b) => Some(if b then 1 else 0)
    case VStr(s) => ParseInt(s)
    case _ => None
  }

  // ---------------------------------------------------------------- keyword tests

  /**
   * Some keyword of the list occurs in the text: what a `for keyword in ...:
   * if keyword in text: ...; break` loop detects.
   */
  predicate AnyContained(keywords: seq<string>, text: string) {
    exists j :: 0 <= j < |keywords| && Contains(text, keywords[j])
  }

  /** `sum(1 for keyword in keywords if keyword in text)` */
  function CountContained(keywords: seq<string>, text: string): (n: nat)
    ensures n <= |keywords|
    ensures n == 0 <==> !AnyContained(keywords, text)
  {
    if keywords == [] then 0
    else
      var rest := CountContained(keywords[1..], text);
      assert AnyContained(keywords[1..], text) ==> AnyContained(keywords, text) by {
        if AnyContained(keywords[1..], text) {
          var j :| 0 <= j < |keywords[1..]| && Contains(text, keywords[1..][j]);
          assert Contains(text, keywords[j + 1]);
        }
      }
      (if Contains(text, keywords[0]) then 1 else 0) + rest
  }

  predicate Distinct(keywords: seq<string>) {
    forall i, j :: 0 <= i < j < |keywords| ==> keywords[i] != keywords[j]
  }

  /** The keywords of the list that occur in the text. */
  function Matched(keywords: seq<string>, text: string): set<string> {
    set k | k in keywords && Contains(text, k)
  }

  // ---------------------------------------------------------------- lemmas

  lemma DistinctTail(keywords: seq<string>)
    requires Distinct(keywords) && keywords != []
    ensures Distinct(keywords[1..]) && keywords[0] !in keywords[1..]
  {
    var rest := keywords[1..];
    forall i, j | 0 <= i < j < |rest| ensures rest[i] != rest[j] {
      assert rest[i] == keywords[i + 1] && rest[j] == keywords[j + 1];
    }
    forall j | 0 <= j < |rest| ensures rest[j] != keywords[0] {
      assert rest[j] == keywords[j + 1];
    }
  }

  lemma MatchedCons(keywords: seq<string>, text: string)
    requires keywords != []
    ensures Matched(keywords, text)
            == (if Contains(text, keywords[0]) then {keywords[0]} else {}) + Matched(keywords[1..], text)
  {
    assert keywords == [keywords[0]] + keywords[1..];
  }

  /** Over a list without repetitions, the count is the number of distinct keywords found. */
  lemma {:induction false} CountContainedIsDistinctMatches(keywords: seq<string>, text: string)
    requires Distinct(keywords)
    ensures CountContained(keywords, text) == |Matched(keywords, text)|
  {
    if keywords != [] {
      var rest := keywords[1..];
      DistinctTail(keywords);
      CountContainedIsDistinctMatches(rest, text);
      MatchedCons(keywords, text);
      assert keywords[0] !in Matched(rest, text);
    } else {
      assert Matched(keywords, text) == {};
    }
  }

  /** The empty string occurs in every string, and every string occurs in itself. */
  lemma ContainsEmptyAndSelf(s: string)
    ensures Contains(s, "") && Contains(s, s)
  {
  }

  /** A string occurs in a longer one only if it is no longer than it. */
  lemma {:induction false} ContainsShorter(s: string, sub: string)
    requires Contains(s, sub)
    ensures |sub| <= |s|
    decreases |s|
  {
    if !(sub <= s) {
      ContainsShorter(s[1..], sub);
    }
  }

  lemma {:induction false} LowerIdempotent(s: string)
    ensures Lower(Lower(s)) == Lower(s)
  {
    assert |Lower(Lower(s))| == |Lower(s)|;
    forall i | 0 <= i < |s| ensures Lower(Lower(s))[i] == Lower(s)[i] {
      assert Lower(s)[i] == LowerChar(s[i]);
    }
  }

  lemma {:induction false} NatToStringDigits(n: nat)
    ensures |NatToString(n)| > 0 && AllDigits(NatToString(n))
    ensures DigitsValue(NatToString(n)) == n
    decreases n
  {
    if n >= 10 {
      NatToStringDigits(n / 10);
      var p := NatToString(n / 10);
      var s := p + [DigitChar(n % 10)];
      assert s[..|s| - 1] == p;
      assert AllDigits(s) by {
        forall k | 0 <= k < |s| ensures IsDigit(s[k]) {
          if k < |p| { assert s[k] == p[k]; }
        }
      }
    }
  }

  lemma {:induction false} StripNoSpaceEnds(s: string)
    requires |s| > 0 && !IsSpace(s[0]) && !IsSpace(s[|s| - 1])
    ensures Strip(s) == s
  {
  }

  /** `int(str(i)) == i` for every int. */
  lemma {:induction false} ParseIntOfIntToString(i: int)
    ensures ParseInt(IntToString(i)) == Some(i)
  {
    var n: nat := if i < 0 then -i else i;
    NatToStringDigits(n);
    var digits := NatToString(n);
    var t := IntToString(i);
    assert IsDigit(digits[0]) && IsDigit(digits[|digits| - 1]);
    if i < 0 {
      assert t == "-" + digits;
      assert t[|t| - 1] == digits[|digits| - 1];
      StripNoSpaceEnds(t);
      assert t[1..] == digits;
    } else {
      assert t == digits;
      StripNoSpaceEnds(t);
    }
  }
}
