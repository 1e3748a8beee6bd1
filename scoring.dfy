/**
 * Pieces the four lead scorers share: the building-age bands, the two loops
 * over a keyword list (`for k in ...: if k in text: ...; break` and
 * `sum(1 for k in ... if k in text)`), and the keyword list that the generic
 * scraper scorer and the Company scorer both use.  Each scorer keeps its own
 * weights in its own module.
 */
module Scoring {
  import opened Values

  /** The sixteen energy keywords (scrapers/base_scraper.py:124-126, models/company.py:125-127). */
  const EnergyKeywords: seq<string> := [
    "energy", "utilities", "building", "property", "office", "commercial",
    "industrial", "manufacturing", "factory", "school", "hospital",
    "hotel", "retail", "restaurant", "mall", "warehouse"
  ]

  /** The age bonus: +20 for more than 30 years, +15 for more than 20, +10 for more than 10. */
  function AgeBand(age: int): (b: int)
    ensures b == 0 || b == 10 || b == 15 || b == 20
    ensures b == 20 <==> age > 30
    ensures b == 0 <==> age <= 10
    ensures b == 15 <==> 20 < age <= 30
  {
    if age > 30 then 20 else if age > 20 then 15 else if age > 10 then 10 else 0
  }

  /** The first-match loop with `break`: whether some keyword occurs in the text. */
  method FirstHit(keywords: seq<string>, text: string) returns (hit: bool)
    ensures hit == AnyContained(keywords, text)
  {
    hit := false;
    var i := 0;
    while i < |keywords|
      invariant 0 <= i <= |keywords|
      invariant !exists j :: 0 <= j < i && Contains(text, keywords[j])
    {
      if Contains(text, keywords[i]) {
        hit := true;
        break;
      }
      i := i + 1;
    }
  }

  /** `sum(1 for keyword in keywords if keyword in text)` */
  method CountHits(keywords: seq<string>, text: string) returns (n: nat)
    ensures n == CountContained(keywords, text)
  {
    n := 0;
    var i := 0;
    while i < |keywords|
      invariant 0 <= i <= |keywords|
      invariant n + CountContained(keywords[i..], text) == CountContained(keywords, text)
    {
      assert keywords[i..][1..] == keywords[i + 1..];
      if Contains(text, keywords[i]) {
        n := n + 1;
      }
      i := i + 1;
    }
  }

  /** The characters of `str(v).lower()` for a falsy value: "none", "false", "0", "", "[...]" or "{...}". */
  predicate InertChar(c: char) {
    c in "nonefals0[.]{} "
  }

  predicate InertText(s: string) {
    forall i :: 0 <= i < |s| ==> InertChar(s[i])
  }

  lemma FalsyTextInert(v: Value)
    requires !Truthy(v)
    ensures InertText(Lower(Show(v)))
  {
    var t := Lower(Show(v));
    match v
    case VNone =>
      assert t == "none";
    case VBool(_) =>
      assert t == "false";
    case VInt(_) =>
      assert Show(v) == [DigitChar(0)];
    case VStr(_) =>
    case VList(_) =>
      assert t == "[...]";
    case VDict(_) =>
      assert t == "{...}";
  }

  /** Every character of an occurring string occurs in the text. */
  lemma {:induction false} ContainedChars(s: string, sub: string)
    requires Contains(s, sub)
    ensures forall i :: 0 <= i < |sub| ==> sub[i] in s
    decreases |s|
  {
    if sub <= s {
      forall i | 0 <= i < |sub| ensures sub[i] in s {
        assert s[i] == sub[i];
      }
    } else {
      ContainedChars(s[1..], sub);
      forall i | 0 <= i < |sub| ensures sub[i] in s {
        assert sub[i] in s[1..];
      }
    }
  }

  /** A keyword holding a character the text lacks does not occur in it. */
  lemma NotContainedForeign(text: string, keyword: string, i: int)
    requires InertText(text) && 0 <= i < |keyword| && !InertChar(keyword[i])
    ensures !Contains(text, keyword)
  {
    if Contains(text, keyword) {
      ContainedChars(text, keyword);
    }
  }

  /** The position of a character in each energy keyword that no falsy value's text holds. */
  const EnergyForeign: seq<int> := [3, 0, 0, 0, 3, 0, 0, 0, 2, 1, 0, 0, 0, 0, 0, 0]

  lemma {:induction false} NoEnergyKeywordInInertText(text: string)
    requires InertText(text)
    ensures !AnyContained(EnergyKeywords, text)
  {
    forall j | 0 <= j < |EnergyKeywords| ensures !Contains(text, EnergyKeywords[j]) {
      NotContainedForeign(text, EnergyKeywords[j], EnergyForeign[j]);
    }
  }

  lemma EnergyKeywordsDistinct()
    ensures Distinct(EnergyKeywords)
  {
  }
}
