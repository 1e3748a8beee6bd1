/**
 * The bounded result loop the scrapers share: each result either yields a
 * company or is skipped, and the loop stops once `max_results` companies
 * are kept.  Also the subject both scrapers log with `record_search`.
 */
module Collect {
  import opened Values

  /**
   * A scraper's inner result loop: the outcomes `results[from..]` in turn
   * (None where the result was skipped), appending each company to `kept`
   * and stopping once `max` are kept.
   */
  function Scan(kept: seq<Record>, results: seq<Option<Record>>, from: nat, max: int): seq<Record>
    decreases |results| - from
  {
    if from >= |results| || |kept| >= max then kept
    else Scan(if results[from].Some? then kept + [results[from].value] else kept, results, from + 1, max)
  }

  /** The companies a list of results yields, in order. */
  function Somes(results: seq<Option<Record>>): (r: seq<Record>)
    ensures |r| <= |results|
  {
    if results == [] then []
    else (if results[0].Some? then [results[0].value] else []) + Somes(results[1..])
  }

  /** The first `n` of `s` (all of them when there are fewer). */
  function First(s: seq<Record>, n: int): (r: seq<Record>)
    ensures r <= s
    ensures |r| == if n < 0 then 0 else if n < |s| then n else |s|
  {
    if n < 0 then [] else if n < |s| then s[..n] else s
  }

  lemma {:induction false} SomesAppend(a: seq<Option<Record>>, b: seq<Option<Record>>)
    ensures Somes(a + b) == Somes(a) + Somes(b)
    decreases |a|
  {
    if a != [] {
      var head := if a[0].Some? then [a[0].value] else [];
      assert (a + b)[0] == a[0] && (a + b)[1..] == a[1..] + b;
      assert Somes(a + b) == head + Somes(a[1..] + b);
      SomesAppend(a[1..], b);
      assert head + (Somes(a[1..]) + Somes(b)) == (head + Somes(a[1..])) + Somes(b);
    } else {
      assert a + b == b;
    }
  }

  /** A scan from `from` keeps the first `max` of what was kept plus what the results from `from` yield. */
  lemma {:induction false} ScanFirst(kept: seq<Record>, results: seq<Option<Record>>, from: nat, max: int)
    requires from <= |results| && |kept| <= max
    ensures Scan(kept, results, from, max) == First(kept + Somes(results[from..]), max)
    decreases |results| - from
  {
    if from < |results| {
      var rest := results[from..];
      assert rest[1..] == results[from + 1..];
      if |kept| < max {
        var next := if results[from].Some? then kept + [results[from].value] else kept;
        ScanFirst(next, results, from + 1, max);
        assert next + Somes(results[from + 1..]) == kept + Somes(rest);
      }
    } else {
      assert results[from..] == [];
    }
  }

  /** The scan keeps at most `max` companies (once `kept` has at most `max`), each kept or from `results`. */
  lemma {:induction false} ScanBound(kept: seq<Record>, results: seq<Option<Record>>, from: nat, max: int,
                                     P: Record -> bool)
    requires |kept| <= max
    requires forall i | 0 <= i < |results| && results[i].Some? :: P(results[i].value)
    ensures |Scan(kept, results, from, max)| <= max
    ensures kept <= Scan(kept, results, from, max)
    ensures forall c | c in Scan(kept, results, from, max) :: c in kept || P(c)
    decreases |results| - from
  {
    if from < |results| && |kept| < max {
      var next := if results[from].Some? then kept + [results[from].value] else kept;
      ScanBound(next, results, from + 1, max, P);
    }
  }

  /** The search subject as the scrapers log it: `f"{category} in {city}, {state}"`, where None prints as "None". */
  function SearchTerm(category: Option<string>, city: string, state: string): string {
    (if category.None? then "None" else category.value) + " in " + city + ", " + state
  }
}
