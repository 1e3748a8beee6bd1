/**
 * What every scraper inherits from scrapers/base_scraper.py: the generic lead
 * score, the business-name similarity test, the source/score stamping of a
 * scraped record, and the detail fetch over a batch, which consults the cache
 * before calling the scraper's own `get_business_details`.
 */
module BaseScraper {
  import opened Values
  import opened Scoring
  import opened Store

  // ================================================================ calculate_lead_score

  /** +20/+15/+10 by building age; nothing when `year_built` is falsy or `int()` rejects it. */
  function AgeBonus(company: Record, currentYear: int): (b: int)
    ensures 0 <= b <= 20
    ensures PyInt(Get(company, "year_built", VNone)).None? ==> b == 0
  {
    var year := Get(company, "year_built", VNone);
    if !Truthy(year) then 0
    else match PyInt(year)
      case None => 0
      case Some(y) => AgeBand(currentYear - y)
  }

  function PresenceBonus(company: Record): (b: int)
    ensures 0 <= b <= 30
  {
    (if Truthy(Get(company, "website", VNone)) then 10 else 0)
    + (if Truthy(Get(company, "contact_person", VNone)) || Truthy(Get(company, "contact_title", VNone)) then 10 else 0)
    + (if Truthy(Get(company, "email", VNone)) || Truthy(Get(company, "phone", VNone)) then 5 else 0)
    + (if Truthy(Get(company, "description", VNone)) then 5 else 0)
  }

  /** Only the first of "large", "medium", "small" in `str(building_size).lower()` counts. */
  function SizeBonus(company: Record): (b: int)
    ensures b == 0 || b == 5 || b == 10 || b == 15
  {
    var size := Get(company, "building_size", VNone);
    if !Truthy(size) then 0
    else
      var text := Lower(Show(size));
      if Contains(text, "large") then 15
      else if Contains(text, "medium") then 10
      else if Contains(text, "small") then 5
      else 0
  }

  /** `str(description).lower() + " " + str(category).lower()`, both defaulting to "". */
  function KeywordText(company: Record): string {
    Lower(Show(Get(company, "description", VStr("")))) + " " + Lower(Show(Get(company, "category", VStr(""))))
  }

  function KeywordBonus(company: Record): (b: int)
    ensures 0 <= b <= 15
  {
    Min(3 * CountContained(EnergyKeywords, KeywordText(company)), 15)
  }

  /** The generic lead score: base 50 plus the bonuses, capped at 100. */
  function BaseScore(company: Record, currentYear: int): (s: int)
    ensures 50 <= s <= 100
  {
    Min(50 + AgeBonus(company, currentYear) + PresenceBonus(company) + SizeBonus(company) + KeywordBonus(company), 100)
  }

  /** `BaseScraper.calculate_lead_score`, accumulating its `score +=` steps. */
  method CalculateLeadScore(company: Record, currentYear: int) returns (score: int)
    ensures score == BaseScore(company, currentYear)
  {
    score := 50;
    var year := Get(company, "year_built", VNone);
    if Truthy(year) {
      var parsed := PyInt(year);
      if parsed.Some? {
        var age := currentYear - parsed.value;
        if age > 30 {
          score := score + 20;
        } else if age > 20 {
          score := score + 15;
        } else if age > 10 {
          score := score + 10;
        }
      }
    }
    assert score == 50 + AgeBonus(company, currentYear);
    if Truthy(Get(company, "website", VNone)) {
      score := score + 10;
    }
    if Truthy(Get(company, "contact_person", VNone)) || Truthy(Get(company, "contact_title", VNone)) {
      score := score + 10;
    }
    if Truthy(Get(company, "email", VNone)) || Truthy(Get(company, "phone", VNone)) {
      score := score + 5;
    }
    if Truthy(Get(company, "description", VNone)) {
      score := score + 5;
    }
    assert score == 50 + AgeBonus(company, currentYear) + PresenceBonus(company);
    var size := Get(company, "building_size", VNone);
    if Truthy(size) {
      var sizeText := Lower(Show(size));
      if Contains(sizeText, "large") {
        score := score + 15;
      } else if Contains(sizeText, "medium") {
        score := score + 10;
      } else if Contains(sizeText, "small") {
        score := score + 5;
      }
    }
    assert score == 50 + AgeBonus(company, currentYear) + PresenceBonus(company) + SizeBonus(company);
    var matches := CountHits(EnergyKeywords, KeywordText(company));
    score := score + Min(matches * 3, 15);
    score := Min(score, 100);
  }

  /** A record whose every field is falsy (or absent) scores exactly the base 50. */
  lemma {:induction false} BaseScoreOfEmptyRecord(company: Record, currentYear: int)
    requires forall k | k in company :: !Truthy(company[k])
    ensures BaseScore(company, currentYear) == 50
  {
    var description := Get(company, "description", VStr(""));
    var category := Get(company, "category", VStr(""));
    FalsyTextInert(description);
    FalsyTextInert(category);
    var text := KeywordText(company);
    assert InertText(text) by {
      var a, b := Lower(Show(description)), Lower(Show(category));
      assert text == a + " " + b;
      forall i | 0 <= i < |text| ensures InertChar(text[i]) {
        if i < |a| { assert text[i] == a[i]; }
        else if i > |a| { assert text[i] == b[i - |a| - 1]; }
      }
    }
    NoEnergyKeywordInInertText(text);
  }

  /** The keyword bonus is 3 per distinct energy keyword found, capped at 15. */
  lemma KeywordBonusCountsDistinct(company: Record)
    ensures KeywordBonus(company) == Min(3 * |Matched(EnergyKeywords, KeywordText(company))|, 15)
  {
    EnergyKeywordsDistinct();
    CountContainedIsDistinctMatches(EnergyKeywords, KeywordText(company));
  }

  /** A `year_built` that `int()` rejects scores as if it were absent. */
  lemma NonIntegerYearAddsNothing(company: Record, currentYear: int)
    requires "year_built" in company && PyInt(company["year_built"]).None?
    ensures BaseScore(company, currentYear) == BaseScore(company - {"year_built"}, currentYear)
  {
    var rest := company - {"year_built"};
    assert forall k :: k != "year_built" ==> Get(rest, k, VNone) == Get(company, k, VNone);
    assert KeywordText(rest) == KeywordText(company);
  }

  /** "large" anywhere wins over "medium" and "small"; the size bonus is never a sum. */
  lemma SizeBonusFirstWordOnly(company: Record)
    requires Contains(Lower(Show(Get(company, "building_size", VNone))), "large")
    ensures SizeBonus(company) == 15
  {
    var size := Get(company, "building_size", VNone);
    if !Truthy(size) {
      FalsyTextInert(size);
      NotContainedForeign(Lower(Show(size)), "large", 2);
    }
  }

  // ================================================================ similar_names

  /** The business suffixes removed, in this order. */
  const Suffixes: seq<string> := [" inc", " llc", " corp", " company", " co", " ltd"]

  /** `name = name.replace(suffix, '')` for each suffix in turn. */
  function WithoutSuffixes(name: string, suffixes: seq<string>): string
    requires forall j :: 0 <= j < |suffixes| ==> suffixes[j] != ""
    decreases |suffixes|
  {
    if suffixes == [] then name
    else WithoutSuffixes(Replace(name, suffixes[0], ""), suffixes[1..])
  }

  /** The lower-cased, suffix-free, trimmed name compared. */
  function CleanName(name: string): string {
    Strip(WithoutSuffixes(Lower(name), Suffixes))
  }

  /** Equal cleaned names, or one contained in the other. */
  predicate NamesSimilar(name1: string, name2: string) {
    var a, b := CleanName(name1), CleanName(name2);
    a == b || Contains(b, a) || Contains(a, b)
  }

  /** `similar_names(name1, name2)`, with the source's suffix loop. */
  method SimilarNames(name1: string, name2: string) returns (similar: bool)
    ensures similar == NamesSimilar(name1, name2)
  {
    var n1, n2 := Lower(name1), Lower(name2);
    var i := 0;
    while i < |Suffixes|
      invariant 0 <= i <= |Suffixes|
      invariant WithoutSuffixes(n1, Suffixes[i..]) == WithoutSuffixes(Lower(name1), Suffixes)
      invariant WithoutSuffixes(n2, Suffixes[i..]) == WithoutSuffixes(Lower(name2), Suffixes)
    {
      assert Suffixes[i..][1..] == Suffixes[i + 1..];
      n1 := Replace(n1, Suffixes[i], "");
      n2 := Replace(n2, Suffixes[i], "");
      i := i + 1;
    }
    var a, b := Strip(n1), Strip(n2);
    similar := a == b || Contains(b, a) || Contains(a, b);
  }

  /** Similarity is reflexive and symmetric, and holds when a cleaned name is empty or contained in the other. */
  lemma SimilarNamesBasics(name1: string, name2: string)
    ensures NamesSimilar(name1, name1)
    ensures NamesSimilar(name1, name2) == NamesSimilar(name2, name1)
    ensures CleanName(name1) == "" || CleanName(name2) == "" ==> NamesSimilar(name1, name2)
    ensures Contains(CleanName(name2), CleanName(name1)) ==> NamesSimilar(name1, name2)
  {
  }

  /** Similarity ignores letter case. */
  lemma SimilarNamesIgnoresCase(name1: string, name2: string)
    ensures NamesSimilar(Lower(name1), name2) == NamesSimilar(name1, name2)
    ensures NamesSimilar(name1, Lower(name2)) == NamesSimilar(name1, name2)
  {
    LowerIdempotent(name1);
    LowerIdempotent(name2);
  }

  // ================================================================ add_source_info

  /** The record with `source` filled in where absent. */
  function WithSource(company: Record, sourceName: string): Record {
    if "source" in company then company else company["source" := VStr(sourceName)]
  }

  /**
   * `add_source_info(company)`: `source` and then `lead_score` are filled in
   * only where absent; the score comes from the scraper's own scorer, given
   * as `scorer` (None where it raises), and is computed on the record that
   * already has its source.  None where the scorer raises.
   */
  function SourceInfo(company: Record, sourceName: string, scorer: Record -> Option<int>): (r: Option<Record>)
    ensures r.Some? ==> r.value.Keys == company.Keys + {"source", "lead_score"}
    ensures r.Some? ==> forall k | k in company :: r.value[k] == company[k]
    ensures r.Some? && "source" !in company ==> r.value["source"] == VStr(sourceName)
    ensures r.None? <==> "lead_score" !in company && scorer(WithSource(company, sourceName)).None?
    ensures r.Some? && "lead_score" !in company ==>
      r.value["lead_score"] == VInt(scorer(WithSource(company, sourceName)).value)
  {
    var withSource := WithSource(company, sourceName);
    if "lead_score" in company then Some(withSource)
    else match scorer(withSource)
      case None => None
      case Some(s) => Some(withSource["lead_score" := VInt(s)])
  }

  /** The in-place update of `add_source_info`, step by step. */
  method AddSourceInfo(company: Record, sourceName: string, scorer: Record -> Option<int>) returns (r: Option<Record>)
    ensures r == SourceInfo(company, sourceName, scorer)
  {
    var updated := company;
    if "source" !in updated {
      updated := updated["source" := VStr(sourceName)];
    }
    if "lead_score" !in updated {
      var score := scorer(updated);
      if score.None? {
        return None;
      }
      updated := updated["lead_score" := VInt(score.value)];
    }
    r := Some(updated);
  }

  /** Stamping twice is stamping once. */
  lemma SourceInfoIdempotent(company: Record, sourceName: string, scorer: Record -> Option<int>)
    requires SourceInfo(company, sourceName, scorer).Some?
    ensures SourceInfo(SourceInfo(company, sourceName, scorer).value, sourceName, scorer) == SourceInfo(company, sourceName, scorer)
  {
    var once := SourceInfo(company, sourceName, scorer).value;
    assert "source" in once && "lead_score" in once;
  }

  // ================================================================ get_business_details_batch

  /** `f"company_details_{source}_{name}_{city}_{state}"` */
  function DetailKey(sourceName: string, company: Record): string {
    "company_details_" + sourceName + "_" + Show(Get(company, "name", VNone)) + "_"
    + Show(Get(company, "city", VNone)) + "_" + Show(Get(company, "state", VNone))
  }

  /** The configuration the cache calls read. */
  datatype CacheConfig = CacheConfig(enabled: bool, expiry: int, codec: Codec)

  /**
   * One company of the batch: a truthy cached dict is overlaid on the input; a
   * truthy cached value of another kind makes `{**company, **cached}` raise, so
   * the input is kept; otherwise the scraper's own fetch runs (None where it
   * raises, keeping the input) and its result is cached.  `readAt` is the
   * clock at `cache_get`, `writeAt` the clock at `cache_set`.
   */
  function DetailStep(cache: map<string, CacheEntry>, company: Record, sourceName: string, readAt: int, writeAt: int,
                      config: CacheConfig, fetch: Record -> Option<Record>): (Record, map<string, CacheEntry>)
  {
    var key := DetailKey(sourceName, company);
    var cached := CacheLookup(cache, key, readAt, config.enabled, config.expiry, config.codec);
    if Truthy(cached) then
      (if cached.VDict? then company + cached.fields else company, cache)
    else match fetch(company)
      case None => (company, cache)
      case Some(details) => (details, CacheStore(cache, key, VDict(details), writeAt, config.enabled, config.codec))
  }

  /** The company at position k of the batch, handled on cache `c` with its two clock readings. */
  function DetailAt(companies: seq<Record>, sourceName: string, clock: seq<(int, int)>, config: CacheConfig,
                    fetch: Record -> Option<Record>): (Cache, nat) -> (Record, Cache)
  {
    (c: Cache, k: nat) =>
      if k < |companies| && k < |clock| then DetailStep(c, companies[k], sourceName, clock[k].0, clock[k].1, config, fetch)
      else (map[], c)
  }

  /**
   * The results and the cache after the batch loop has handled `companies`;
   * `clock[i]` holds the two clock readings taken for company i.
   */
  function DetailBatch(cache: Cache, companies: seq<Record>, sourceName: string, clock: seq<(int, int)>,
                       config: CacheConfig, fetch: Record -> Option<Record>): (seq<Record>, Cache)
  {
    FoldN(DetailAt(companies, sourceName, clock, config, fetch), cache, |companies|)
  }

  /**
   * `get_business_details_batch(companies)`; `fetch` is the scraper's
   * `get_business_details`, and `clock[i]` the times `cache_get` and
   * `cache_set` read for company i.
   */
  method GetBusinessDetailsBatch(db: Database, companies: seq<Record>, sourceName: string, clock: seq<(int, int)>,
                                 fetch: Record -> Option<Record>) returns (results: seq<Record>)
    requires |clock| == |companies|
    modifies db`cache
    ensures var config := CacheConfig(db.cacheEnabled, db.cacheExpiry, db.codec);
      (results, db.cache) == DetailBatch(old(db.cache), companies, sourceName, clock, config, fetch)
  {
    var config := CacheConfig(db.cacheEnabled, db.cacheExpiry, db.codec);
    results := [];
    var i := 0;
    while i < |companies|
      invariant 0 <= i <= |companies|
      invariant (results, db.cache) == FoldN(DetailAt(companies, sourceName, clock, config, fetch), old(db.cache), i)
    {
      var r := GetDetailsCached(db, companies[i], sourceName, clock[i].0, clock[i].1, fetch);
      results := results + [r];
      i := i + 1;
    }
  }

  /** The body of the batch loop for one company. */
  method GetDetailsCached(db: Database, company: Record, sourceName: string, readAt: int, writeAt: int,
                          fetch: Record -> Option<Record>) returns (r: Record)
    modifies db`cache
    ensures (r, db.cache) == DetailStep(old(db.cache), company, sourceName, readAt, writeAt,
                                        CacheConfig(db.cacheEnabled, db.cacheExpiry, db.codec), fetch)
  {
    var key := DetailKey(sourceName, company);
    var cached := db.CacheGet(key, readAt);
    if Truthy(cached) {
      r := if cached.VDict? then company + cached.fields else company;
    } else {
      var details := fetch(company);
      if details.None? {
        r := company;
      } else {
        var _ := db.CacheSet(key, VDict(details.value), writeAt);
        r := details.value;
      }
    }
  }

  /**
   * One result per input, in order; each stands for the input at its
   * position: the input overlaid by the cached fields, the fetched record, or
   * the input itself.
   */
  lemma DetailBatchResultCases(cache: Cache, companies: seq<Record>, sourceName: string,
                               clock: seq<(int, int)>, config: CacheConfig, fetch: Record -> Option<Record>, i: int)
    requires |clock| == |companies| && 0 <= i < |companies|
    ensures |DetailBatch(cache, companies, sourceName, clock, config, fetch).0| == |companies|
    ensures var r := DetailBatch(cache, companies, sourceName, clock, config, fetch).0[i];
      r == companies[i] || fetch(companies[i]) == Some(r)
      || exists fields: Record :: r == companies[i] + fields
  {
    var step := DetailAt(companies, sourceName, clock, config, fetch);
    FoldNAt(step, cache, |companies|, i);
    StepCases(FoldN(step, cache, i).1, companies[i], sourceName, clock[i].0, clock[i].1, config, fetch);
  }

  /** One step's result is the input overlaid by cached fields, the fetched record, or the input itself. */
  lemma StepCases(cache: Cache, company: Record, sourceName: string,
                  readAt: int, writeAt: int, config: CacheConfig, fetch: Record -> Option<Record>)
    ensures var r := DetailStep(cache, company, sourceName, readAt, writeAt, config, fetch).0;
      r == company || fetch(company) == Some(r) || exists fields: Record :: r == company + fields
  {
    var cached := CacheLookup(cache, DetailKey(sourceName, company), readAt, config.enabled, config.expiry, config.codec);
    if Truthy(cached) && cached.VDict? {
      assert DetailStep(cache, company, sourceName, readAt, writeAt, config, fetch).0 == company + cached.fields;
    }
  }

  /**
   * With an empty cache, two companies with the same key: if the second
   * `cache_get` comes before the first `cache_set` has expired, the second
   * gets the fetched details from the cache, overlaid on itself; once it has
   * expired, the second is fetched again and cached anew.
   */
  lemma FetchedDetailsAreReused(company: Record, details: Record, sourceName: string, clock: seq<(int, int)>,
                                config: CacheConfig, fetch: Record -> Option<Record>)
    requires |clock| == 2 && config.enabled && SoundCodec(config.codec)
    requires fetch(company) == Some(details) && details != map[]
    ensures var key := DetailKey(sourceName, company);
      var text := config.codec.encode(VDict(details));
      DetailBatch(map[], [company, company], sourceName, clock, config, fetch) ==
        if clock[1].0 < clock[0].1 + config.expiry
        then ([details, company + details], map[key := CacheEntry(text, clock[0].1)])
        else ([details, details], map[key := CacheEntry(text, clock[1].1)])
  {
    var key := DetailKey(sourceName, company);
    var step := DetailAt([company, company], sourceName, clock, config, fetch);
    var stored := map[key := CacheEntry(config.codec.encode(VDict(details)), clock[0].1)];
    assert CacheLookup(map[], key, clock[0].0, config.enabled, config.expiry, config.codec) == VNone;
    assert DetailStep(map[], company, sourceName, clock[0].0, clock[0].1, config, fetch) == (details, stored);
    var first := FoldN(step, map[], 1);
    assert first.0 == [details] && first.1 == stored;
    assert config.codec.decode(config.codec.encode(VDict(details))) == Some(VDict(details));
    if clock[1].0 < clock[0].1 + config.expiry {
      assert CacheLookup(stored, key, clock[1].0, config.enabled, config.expiry, config.codec) == VDict(details);
      assert DetailStep(stored, company, sourceName, clock[1].0, clock[1].1, config, fetch) == (company + details, stored);
      assert step(stored, 1) == (company + details, stored);
      assert FoldN(step, map[], 2) == (first.0 + [step(first.1, 1).0], step(first.1, 1).1);
      assert first.0 + [company + details] == [details, company + details];
    } else {
      assert CacheLookup(stored, key, clock[1].0, config.enabled, config.expiry, config.codec) == VNone;
      var restored := map[key := CacheEntry(config.codec.encode(VDict(details)), clock[1].1)];
      assert stored[key := CacheEntry(config.codec.encode(VDict(details)), clock[1].1)] == restored;
      assert DetailStep(stored, company, sourceName, clock[1].0, clock[1].1, config, fetch) == (details, restored);
      assert step(stored, 1) == (details, restored);
      assert FoldN(step, map[], 2) == (first.0 + [step(first.1, 1).0], step(first.1, 1).1);
      assert first.0 + [details] == [details, details];
    }
  }

  /** When the cache is off, a batch is the scraper's fetch applied to each input (inputs kept where it raises). */
  lemma DetailBatchWithoutCache(cache: Cache, companies: seq<Record>, sourceName: string,
                                clock: seq<(int, int)>, config: CacheConfig, fetch: Record -> Option<Record>)
    requires |clock| == |companies| && !config.enabled
    ensures var r := DetailBatch(cache, companies, sourceName, clock, config, fetch);
      r.1 == cache
      && forall i :: 0 <= i < |companies| ==>
           r.0[i] == (match fetch(companies[i]) case Some(d) => d case None => companies[i])
  {
    var step := DetailAt(companies, sourceName, clock, config, fetch);
    forall c: Cache, k: nat ensures step(c, k).1 == c {
      if k < |companies| {
        assert CacheLookup(c, DetailKey(sourceName, companies[k]), clock[k].0, false, config.expiry, config.codec) == VNone;
      }
    }
    FoldNKeepsCache(step, cache, |companies|);
    forall i | 0 <= i < |companies|
      ensures FoldN(step, cache, |companies|).0[i] == (match fetch(companies[i]) case Some(d) => d case None => companies[i])
    {
      FoldNAt(step, cache, |companies|, i);
      FoldNKeepsCache(step, cache, i);
    }
  }

}
