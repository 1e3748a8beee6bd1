/**
 * scrapers/googlemaps_scraper.py without the browser: its lead score, the
 * record read from one details panel (with the review fallback for the
 * description), and the collection loop of `search_businesses` over the
 * result lists the page showed, one list per scroll.
 */
module GoogleMaps {
  import opened Values
  import opened Scoring
  import opened Store
  import opened BaseScraper
  import opened Collect

  const SourceName: string := "Google Maps"

  // ================================================================ calculate_lead_score

  /** +10 website, +10 address, +5 phone, +5 description. */
  function PresenceBonus(company: Record): (b: int)
    ensures 0 <= b <= 30
  {
    (if Truthy(Get(company, "website", VNone)) then 10 else 0)
    + (if Truthy(Get(company, "address", VNone)) then 10 else 0)
    + (if Truthy(Get(company, "phone", VNone)) then 5 else 0)
    + (if Truthy(Get(company, "description", VNone)) then 5 else 0)
  }

  /** +10 once for an energy keyword in the category; None where `.lower()` meets a non-string. */
  function CategoryBonus(company: Record): (b: Option<int>)
    ensures b.None? <==> !TextOrFalsy(Get(company, "category", VNone))
    ensures b.Some? ==>
      (b.value == 10 <==> (Truthy(Get(company, "category", VNone))
                           && AnyContained(EnergyKeywords, Lower(Get(company, "category", VNone).s))))
    ensures b.Some? ==> b.value == 0 || b.value == 10
  {
    var category := Get(company, "category", VNone);
    if !Truthy(category) then Some(0)
    else if !category.VStr? then None
    else Some(if AnyContained(EnergyKeywords, Lower(category.s)) then 10 else 0)
  }

  /** The Google Maps score; None where the method raises. */
  function GMScore(company: Record): (s: Option<int>)
    ensures s.None? <==> !TextOrFalsy(Get(company, "category", VNone))
    ensures s.Some? ==> 50 <= s.value <= 90
  {
    match CategoryBonus(company)
    case None => None
    case Some(category) => Some(Min(50 + PresenceBonus(company) + category, 100))
  }

  /** `calculate_lead_score(company)`, with its for/break keyword loop. */
  method CalculateLeadScore(company: Record) returns (s: Option<int>)
    ensures s == GMScore(company)
  {
    var score := 50;
    if Truthy(Get(company, "website", VNone)) {
      score := score + 10;
    }
    if Truthy(Get(company, "address", VNone)) {
      score := score + 10;
    }
    if Truthy(Get(company, "phone", VNone)) {
      score := score + 5;
    }
    if Truthy(Get(company, "description", VNone)) {
      score := score + 5;
    }
    var category := Get(company, "category", VNone);
    if Truthy(category) {
      if !category.VStr? {
        return None;
      }
      var hit := FirstHit(EnergyKeywords, Lower(category.s));
      if hit {
        score := score + 10;
      }
    }
    s := Some(Min(score, 100));
  }

  /** The cap never binds: the largest sum is 50 + 10 + 10 + 5 + 5 + 10 = 90. */
  lemma CapNeverBinds(company: Record)
    requires TextOrFalsy(Get(company, "category", VNone))
    ensures GMScore(company) == Some(50 + PresenceBonus(company) + CategoryBonus(company).value)
  {
  }

  /** The score reads website, address, phone, description and category only. */
  lemma GMScoreReadsFiveFields(a: Record, b: Record)
    requires forall k | k in {"website", "address", "phone", "description", "category"} :: Get(a, k, VNone) == Get(b, k, VNone)
    ensures GMScore(a) == GMScore(b)
  {
    assert Get(a, "website", VNone) == Get(b, "website", VNone);
    assert Get(a, "address", VNone) == Get(b, "address", VNone);
    assert Get(a, "phone", VNone) == Get(b, "phone", VNone);
    assert Get(a, "description", VNone) == Get(b, "description", VNone);
    assert Get(a, "category", VNone) == Get(b, "category", VNone);
  }

  // ================================================================ _extract_business_info

  /** What `re.search(r"(.*?),\s*(.*?),\s*(\w{2})\s*(\d{5})?", address)` captured (zip "" when group 4 is empty). */
  datatype AddressMatch = AddressMatch(street: string, city: string, state: string, zip: string)

  /** The address button's text and the pattern's match on it. */
  datatype AddressText = AddressText(full: string, parsed: Option<AddressMatch>)

  /**
   * The texts of one details panel, as the stripped getters return them;
   * None where the element is absent.  `reviews` holds the text of each
   * review-term element.
   */
  datatype Panel = Panel(
    name: Option<string>,
    address: Option<AddressText>,
    phone: Option<string>,
    website: Option<string>,
    category: Option<string>,
    description: Option<string>,
    reviews: seq<string>)

  /** The non-empty review texts, in order. */
  function NonEmpty(texts: seq<string>): (r: seq<string>)
    ensures |r| <= |texts|
    ensures forall i :: 0 <= i < |r| ==> r[i] != ""
    ensures r == [] <==> forall i :: 0 <= i < |texts| ==> texts[i] == ""
    decreases |texts|
  {
    if texts == [] then []
    else
      var init := NonEmpty(texts[..|texts| - 1]);
      assert forall i :: 0 <= i < |texts| - 1 ==> texts[..|texts| - 1][i] == texts[i];
      if texts[|texts| - 1] != "" then init + [texts[|texts| - 1]] else init
  }

  /** The review loop: `review_points` gathered one element at a time. */
  method ReviewPoints(texts: seq<string>) returns (points: seq<string>)
    ensures points == NonEmpty(texts)
  {
    points := [];
    var i := 0;
    while i < |texts|
      invariant 0 <= i <= |texts|
      invariant points == NonEmpty(texts[..i])
    {
      assert texts[..i + 1][..i] == texts[..i];
      if texts[i] != "" {
        points := points + [texts[i]];
      }
      i := i + 1;
    }
    assert texts[..|texts|] == texts;
  }

  function WithAddress(company: Record, address: Option<AddressText>): (r: Record)
    ensures r.Keys <= company.Keys + {"address", "city", "state", "zipcode"}
  {
    match address
    case None => company
    case Some(AddressText(full, None)) => company["address" := VStr(full)]
    case Some(AddressText(_, Some(m))) =>
      company["address" := VStr(Strip(m.street))]["city" := VStr(Strip(m.city))]
             ["state" := VStr(Strip(m.state))]["zipcode" := VStr(m.zip)]
  }

  /** The record `_extract_business_info` reads from one panel. */
  function BusinessInfo(p: Panel): (r: Record)
    ensures r.Keys <= {"name", "address", "city", "state", "zipcode", "phone", "website", "category", "description"}
  {
    var named := WithOpt(map[], "name", p.name);
    var located := WithAddress(named, p.address);
    var described := WithOpt(WithOpt(WithOpt(WithOpt(located, "phone", p.phone), "website", p.website),
                                     "category", p.category), "description", p.description);
    var points := NonEmpty(p.reviews);
    if points != [] && !Truthy(Get(described, "description", VNone)) then
      described["description" := VStr("Customer reviews highlight: " + Join("; ", points))]
    else described
  }

  /**
   * The description is the panel's own when it is non-empty; otherwise the
   * joined non-empty reviews when there are any; otherwise the (empty) text
   * of the element, or nothing.
   */
  lemma ReviewFallback(p: Panel)
    ensures var d := Get(BusinessInfo(p), "description", VNone);
      && (p.description.Some? && p.description.value != "" ==> d == VStr(p.description.value))
      && ((p.description.None? || p.description.value == "") && NonEmpty(p.reviews) != [] ==>
            d == VStr("Customer reviews highlight: " + Join("; ", NonEmpty(p.reviews))))
      && (NonEmpty(p.reviews) == [] ==> d == (if p.description.Some? then VStr(p.description.value) else VNone))
  {
  }

  /** The panel never supplies a source or a score: `add_source_info` sets both. */
  lemma BusinessInfoHasNoSourceOrScore(p: Panel)
    ensures "source" !in BusinessInfo(p) && "lead_score" !in BusinessInfo(p)
  {
  }

  // ================================================================ search_businesses

  /** `if 'city' not in company`: the search's city and state. */
  function WithLocation(company: Record, city: string, state: string): (r: Record)
    ensures "city" in company ==> r == company
    ensures "city" !in company ==> r == company["city" := VStr(city)]["state" := VStr(state)]
  {
    if "city" in company then company else company["city" := VStr(city)]["state" := VStr(state)]
  }

  /**
   * The company one clicked result yields, or None where it is dropped: the
   * click or the panel failed (`panel` None), the score raised, or the
   * record has no name.
   */
  function Processed(panel: Option<Panel>, city: string, state: string): Option<Record> {
    if panel.None? then None
    else match SourceInfo(WithLocation(BusinessInfo(panel.value), city, state), SourceName, GMScore)
      case None => None
      case Some(company) => if Truthy(Get(company, "name", VNone)) then Some(company) else None
  }

  /** What every collected company carries: a name, a city, the source and a score in [50, 90]. */
  predicate Collected(company: Record) {
    && Truthy(Get(company, "name", VNone))
    && "city" in company
    && "source" in company && company["source"] == VStr(SourceName)
    && "lead_score" in company && company["lead_score"].VInt? && 50 <= company["lead_score"].i <= 90
  }

  lemma ProcessedIsCollected(panel: Option<Panel>, city: string, state: string)
    requires Processed(panel, city, state).Some?
    ensures Collected(Processed(panel, city, state).value)
  {
    var p := panel.value;
    BusinessInfoHasNoSourceOrScore(p);
    var company := WithLocation(BusinessInfo(p), city, state);
    assert "source" !in company && "lead_score" !in company;
  }

  /** What each result of one list yields, in order. */
  function ProcessedAll(elements: seq<Option<Panel>>, city: string, state: string): (r: seq<Option<Record>>)
    ensures |r| == |elements|
    decreases |elements|
  {
    if elements == [] then []
    else ProcessedAll(elements[..|elements| - 1], city, state) + [Processed(elements[|elements| - 1], city, state)]
  }

  lemma {:induction false} ProcessedAllAt(elements: seq<Option<Panel>>, city: string, state: string, i: int)
    requires 0 <= i < |elements|
    ensures ProcessedAll(elements, city, state)[i] == Processed(elements[i], city, state)
    decreases |elements|
  {
    if i < |elements| - 1 {
      ProcessedAllAt(elements[..|elements| - 1], city, state, i);
    }
  }

  /**
   * The outer loop: one result list per round of scrolling, each scanned from
   * the position given by the number kept so far, until `max` are kept or the
   * page stops growing.
   */
  function Rounds(kept: seq<Record>, rounds: seq<seq<Option<Panel>>>, max: int, city: string, state: string): seq<Record>
    decreases |rounds|
  {
    if rounds == [] || |kept| >= max then kept
    else Rounds(Scan(kept, ProcessedAll(rounds[0], city, state), |kept|, max), rounds[1..], max, city, state)
  }

  lemma ProcessedAllCollected(elements: seq<Option<Panel>>, city: string, state: string)
    ensures forall i | 0 <= i < |elements| && ProcessedAll(elements, city, state)[i].Some? ::
      Collected(ProcessedAll(elements, city, state)[i].value)
  {
    var results := ProcessedAll(elements, city, state);
    forall i | 0 <= i < |results| && results[i].Some? ensures Collected(results[i].value) {
      ProcessedAllAt(elements, city, state, i);
      ProcessedIsCollected(elements[i], city, state);
    }
  }

  /** Never more than `max_results` companies; each has a name, a city, the source and a score. */
  lemma {:induction false} RoundsBound(kept: seq<Record>, rounds: seq<seq<Option<Panel>>>, max: int, city: string, state: string)
    requires |kept| <= max || kept == []
    ensures |Rounds(kept, rounds, max, city, state)| <= max || Rounds(kept, rounds, max, city, state) == kept
    ensures forall c | c in Rounds(kept, rounds, max, city, state) :: c in kept || Collected(c)
    decreases |rounds|
  {
    if rounds != [] && |kept| < max {
      ProcessedAllCollected(rounds[0], city, state);
      assert |ProcessedAll(rounds[0], city, state)| == |rounds[0]|;
      ScanBound(kept, ProcessedAll(rounds[0], city, state), |kept|, max, Collected);
      var next := Scan(kept, ProcessedAll(rounds[0], city, state), |kept|, max);
      RoundsBound(next, rounds[1..], max, city, state);
      forall c | c in Rounds(kept, rounds, max, city, state) ensures c in kept || Collected(c) {
        if c in next && c !in kept {
          assert Collected(c);
        }
      }
    }
  }

  /** The body of the inner loop for the clicked result `elements[j]`. */
  method ProcessResult(elements: seq<Option<Panel>>, j: int, city: string, state: string) returns (company: Option<Record>)
    requires 0 <= j < |elements|
    ensures company == ProcessedAll(elements, city, state)[j]
  {
    ProcessedAllAt(elements, city, state, j);
    var panel := elements[j];
    if panel.None? {
      return None;
    }
    var info := WithLocation(BusinessInfo(panel.value), city, state);
    company := AddSourceInfo(info, SourceName, GMScore);
    if company.Some? && !Truthy(Get(company.value, "name", VNone)) {
      company := None;
    }
  }

  /** One pass of the inner `for` loop over `result_elements[results_found:]`. */
  method ScanRound(kept: seq<Record>, elements: seq<Option<Panel>>, maxResults: int, city: string, state: string)
    returns (companies: seq<Record>)
    ensures companies == Scan(kept, ProcessedAll(elements, city, state), |kept|, maxResults)
  {
    ghost var results := ProcessedAll(elements, city, state);
    companies := kept;
    var j := |kept|;
    while j < |elements| && |companies| < maxResults
      invariant |kept| <= j
      invariant Scan(companies, results, j, maxResults) == Scan(kept, results, |kept|, maxResults)
      decreases |elements| - j
    {
      var company := ProcessResult(elements, j, city, state);
      if company.Some? {
        companies := companies + [company.value];
      }
      j := j + 1;
    }
  }

  /** The outer `while` loop: scan, scroll, and stop at `max_results` or when the page stops growing. */
  method CollectRounds(rounds: seq<seq<Option<Panel>>>, maxResults: int, city: string, state: string)
    returns (companies: seq<Record>)
    ensures companies == Rounds([], rounds, maxResults, city, state)
  {
    companies := [];
    var r := 0;
    while r < |rounds| && |companies| < maxResults
      invariant 0 <= r <= |rounds|
      invariant Rounds(companies, rounds[r..], maxResults, city, state) == Rounds([], rounds, maxResults, city, state)
      decreases |rounds| - r
    {
      assert rounds[r..][1..] == rounds[r + 1..];
      companies := ScanRound(companies, rounds[r], maxResults, city, state);
      r := r + 1;
    }
    if r == |rounds| {
      assert rounds[r..] == [];
    }
  }

  /**
   * `search_businesses(city, state, category, max_results)`; `rounds` are the
   * result lists the page showed after each scroll, the last being the one
   * after which the page stopped growing.
   */
  method SearchBusinesses(db: Database, rounds: seq<seq<Option<Panel>>>, city: string, state: string,
                          category: Option<string>, maxResults: int, stamp: string)
    returns (companies: seq<Record>)
    requires db.Valid()
    modifies db`searches
    ensures db.Valid()
    ensures companies == Rounds([], rounds, maxResults, city, state)
    ensures db.searches == old(db.searches)
              + [HistoryEntry(|old(db.searches)| + 1, SourceName, SearchTerm(category, city, state), |companies|, stamp)]
  {
    companies := CollectRounds(rounds, maxResults, city, state);
    var _ := db.RecordSearch(SourceName, SearchTerm(category, city, state), |companies|, stamp);
  }

  /** The search keeps at most `max_results` companies, each with a name, a city, the source and a score. */
  lemma SearchBound(rounds: seq<seq<Option<Panel>>>, maxResults: int, city: string, state: string)
    ensures var found := Rounds([], rounds, maxResults, city, state);
      && |found| <= (if maxResults < 0 then 0 else maxResults)
      && forall c | c in found :: Collected(c)
  {
    RoundsBound([], rounds, maxResults, city, state);
  }

  // ---------------------------------------------------------------- re-scanned results

  lemma {:induction false} ProcessedAllPrefix(a: seq<Option<Panel>>, b: seq<Option<Panel>>, city: string, state: string)
    requires a <= b
    ensures ProcessedAll(a, city, state) == ProcessedAll(b, city, state)[..|a|]
    decreases |b|
  {
    if |a| < |b| {
      var init := b[..|b| - 1];
      assert a <= init;
      ProcessedAllPrefix(a, init, city, state);
      assert ProcessedAll(b, city, state)[..|init|] == ProcessedAll(init, city, state);
    } else {
      assert a == b;
    }
  }

  /** Each list of results extends the one before it: scrolling only appends. */
  predicate Growing(rounds: seq<seq<Option<Panel>>>) {
    forall k | 0 <= k < |rounds| - 1 :: rounds[k] <= rounds[k + 1]
  }

  /**
   * The outer loop as evidently intended: each round resumes after the last
   * result already clicked (`seen`), not at the number of companies kept.
   */
  function FreshRounds(kept: seq<Record>, seen: nat, rounds: seq<seq<Option<Panel>>>, max: int, city: string, state: string): seq<Record>
    decreases |rounds|
  {
    if rounds == [] || |kept| >= max then kept
    else FreshRounds(Scan(kept, ProcessedAll(rounds[0], city, state), seen, max), |rounds[0]|, rounds[1..], max, city, state)
  }

  lemma GrowingTail(rounds: seq<seq<Option<Panel>>>)
    requires Growing(rounds) && rounds != []
    ensures Growing(rounds[1..])
  {
    forall k | 0 <= k < |rounds[1..]| - 1 ensures rounds[1..][k] <= rounds[1..][k + 1] {
      assert rounds[1..][k] == rounds[k + 1];
    }
  }

  lemma GrowingPrefix(rounds: seq<seq<Option<Panel>>>, k: int)
    requires Growing(rounds) && 0 <= k < |rounds|
    ensures rounds[k] <= rounds[|rounds| - 1]
    decreases |rounds| - k
  {
    if k < |rounds| - 1 {
      GrowingPrefix(rounds, k + 1);
    }
  }

  /** Once `max` companies are kept from a prefix of `last`, the rest of `last` adds none. */
  lemma FirstOfPrefix(last: seq<Option<Record>>, seen: nat, n: nat, max: int)
    requires seen <= n <= |last|
    ensures |First(Somes(last[..seen]), max)| >= max ==> First(Somes(last[..seen]), max) == First(Somes(last), max)
    ensures First(Somes(last[..seen]) + Somes(last[seen..n]), max) == First(Somes(last[..n]), max)
  {
    assert last[..seen] + last[seen..n] == last[..n];
    SomesAppend(last[..seen], last[seen..n]);
    assert last[..seen] + last[seen..] == last;
    SomesAppend(last[..seen], last[seen..]);
  }

  /** One scan of the corrected loop: resuming at `seen` extends the kept prefix to the whole list. */
  lemma FreshScan(kept: seq<Record>, seen: nat, results: seq<Option<Record>>, last: seq<Option<Record>>, max: int)
    requires |results| <= |last| && results == last[..|results|] && seen <= |results|
    requires kept == First(Somes(last[..seen]), max) && |kept| < max
    ensures Scan(kept, results, seen, max) == First(Somes(last[..|results|]), max)
  {
    ScanFirst(kept, results, seen, max);
    assert results[seen..] == last[seen..|results|];
    FirstOfPrefix(last, seen, |results|, max);
    assert kept == Somes(last[..seen]);
  }

  lemma {:induction false} FreshRoundsFirst(kept: seq<Record>, seen: nat, rounds: seq<seq<Option<Panel>>>, max: int,
                                            city: string, state: string, last: seq<Option<Record>>)
    requires rounds != [] && Growing(rounds) && last == ProcessedAll(rounds[|rounds| - 1], city, state)
    requires seen <= |rounds[0]| && seen <= |last| && kept == First(Somes(last[..seen]), max)
    ensures FreshRounds(kept, seen, rounds, max, city, state) == First(Somes(last), max)
    decreases |rounds|
  {
    var n := |rounds[0]|;
    GrowingPrefix(rounds, 0);
    ProcessedAllPrefix(rounds[0], rounds[|rounds| - 1], city, state);
    var results := ProcessedAll(rounds[0], city, state);
    FirstOfPrefix(last, seen, n, max);
    if |kept| < max {
      FreshScan(kept, seen, results, last, max);
      var next := Scan(kept, results, seen, max);
      if |rounds| == 1 {
        assert last[..n] == last;
      } else {
        GrowingTail(rounds);
        assert rounds[1..][0] == rounds[1] && rounds[0] <= rounds[1];
        FreshRoundsFirst(next, n, rounds[1..], max, city, state, last);
      }
    }
  }

  /**
   * As intended, while scrolling only appends results, the search keeps the
   * first `max_results` companies the final list yields, each clicked once.
   */
  lemma FreshRoundsKeepFirst(rounds: seq<seq<Option<Panel>>>, max: int, city: string, state: string)
    requires rounds != [] && Growing(rounds)
    ensures FreshRounds([], 0, rounds, max, city, state)
            == First(Somes(ProcessedAll(rounds[|rounds| - 1], city, state)), max)
  {
    var last := ProcessedAll(rounds[|rounds| - 1], city, state);
    assert last[..0] == [];
    FreshRoundsFirst([], 0, rounds, max, city, state, last);
  }

  /** A panel that yields a company: a name and nothing else. */
  const NamedPanel: Panel := Panel(Some("Acme Offices"), None, None, None, None, None, [])

  lemma NamedPanelInfo()
    ensures BusinessInfo(NamedPanel) == map["name" := VStr("Acme Offices")]
  {
    assert WithOpt(map[], "name", NamedPanel.name) == map["name" := VStr("Acme Offices")];
  }

  lemma NamedPanelYields(city: string, state: string)
    ensures Processed(Some(NamedPanel), city, state).Some?
  {
    NamedPanelInfo();
    var info := WithLocation(map["name" := VStr("Acme Offices")], city, state);
    assert Get(info, "category", VNone) == VNone;
    assert GMScore(info["source" := VStr(SourceName)]) == Some(50);
  }

  /** The scans behind the counterexample, for any company `x`. */
  lemma RescanSteps(x: Record)
    ensures Scan([], [None, Some(x)], 0, 5) == [x]
    ensures Scan([x], [None, Some(x), None], 1, 5) == [x, x]
    ensures Scan([x], [None, Some(x), None], 2, 5) == [x]
  {
    var r1: seq<Option<Record>> := [None, Some(x)];
    var r2: seq<Option<Record>> := [None, Some(x), None];
    assert Scan([], r1, 0, 5) == Scan([], r1, 1, 5) == Scan([x], r1, 2, 5);
    assert r2[1] == Some(x) && [x] + [x] == [x, x];
    assert Scan([x], r2, 1, 5) == Scan([x, x], r2, 2, 5) == Scan([x, x], r2, 3, 5);
    assert Scan([x], r2, 2, 5) == Scan([x], r2, 3, 5);
  }

  /** The rounds of the counterexample, for any company `c` a clicked result yields. */
  lemma RescannedTwice(x: Option<Panel>, c: Record, city: string, state: string)
    requires ProcessedAll([None, x], city, state) == [None, Some(c)]
    requires ProcessedAll([None, x, None], city, state) == [None, Some(c), None]
    ensures var rounds := [[None, x], [None, x, None]];
      && Growing(rounds)
      && Rounds([], rounds, 5, city, state) == [c, c]
      && FreshRounds([], 0, rounds, 5, city, state) == [c]
  {
    var r1: seq<Option<Panel>> := [None, x];
    var r2: seq<Option<Panel>> := [None, x, None];
    RescanSteps(c);
    var rounds := [r1, r2];
    assert rounds[1..] == [r2] && rounds[1..][1..] == [];
    assert Rounds([], rounds, 5, city, state) == Rounds([c], [r2], 5, city, state) == [c, c];
    assert FreshRounds([], 0, rounds, 5, city, state) == FreshRounds([c], 2, [r2], 5, city, state) == [c];
  }

  lemma NamedRounds(city: string, state: string)
    ensures Processed(Some(NamedPanel), city, state).Some?
    ensures var c := Processed(Some(NamedPanel), city, state).value;
      && ProcessedAll([None, Some(NamedPanel)], city, state) == [None, Some(c)]
      && ProcessedAll([None, Some(NamedPanel), None], city, state) == [None, Some(c), None]
  {
    NamedPanelYields(city, state);
    var r1: seq<Option<Panel>> := [None, Some(NamedPanel)];
    var r2: seq<Option<Panel>> := [None, Some(NamedPanel), None];
    ProcessedAllAt(r1, city, state, 0);
    ProcessedAllAt(r1, city, state, 1);
    ProcessedAllAt(r2, city, state, 0);
    ProcessedAllAt(r2, city, state, 1);
    ProcessedAllAt(r2, city, state, 2);
  }

  /**
   * As written, results skipped in one round are counted against the slice
   * start of the next: a failed click followed by a company, then a scroll
   * that appends one more failure, clicks the company twice and keeps it
   * twice, although the page lists it once.
   */
  lemma RescannedResultKeptTwice(city: string, state: string)
    ensures var rounds := [[None, Some(NamedPanel)], [None, Some(NamedPanel), None]];
      && Growing(rounds)
      && |Rounds([], rounds, 5, city, state)| == 2
      && |FreshRounds([], 0, rounds, 5, city, state)| == 1
  {
    NamedRounds(city, state);
    RescannedTwice(Some(NamedPanel), Processed(Some(NamedPanel), city, state).value, city, state);
  }

  /** `get_business_details(company)`: the panel already gave everything. */
  function GetBusinessDetails(company: Record): (r: Record)
    ensures r == company
  {
    company
  }
}
