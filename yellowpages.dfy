/**
 * scrapers/yellowpages_scraper.py without the browser: the search URL's
 * slugs, the record read from one result listing, the page loop of
 * `search_businesses`, and the enrichment `get_business_details` applies
 * from a business's detail page.  The scraper scores with the generic
 * `BaseScraper` score.
 */
module YellowPages {
  import opened Values
  import opened Store
  import opened BaseScraper
  import opened Collect

  const SourceName: string := "YellowPages"
  const BaseUrl: string := "https://www.yellowpages.com"

  // ================================================================ slugs

  /** `text.lower().replace(' ', '-')` */
  function Slug(text: string): string {
    Replace(Lower(text), " ", "-")
  }

  lemma {:induction false} ReplaceSpaces(s: string)
    ensures |Replace(s, " ", "-")| == |s|
    ensures forall i | 0 <= i < |s| :: Replace(s, " ", "-")[i] == if s[i] == ' ' then '-' else s[i]
    decreases |s|
  {
    if s != [] {
      ReplaceSpaces(s[1..]);
      assert " " <= s <==> s[0] == ' ';
      var r := Replace(s, " ", "-");
      assert r == (if s[0] == ' ' then "-" else [s[0]]) + Replace(s[1..], " ", "-");
      forall i | 0 <= i < |s| ensures r[i] == if s[i] == ' ' then '-' else s[i] {
        if i > 0 {
          assert r[i] == Replace(s[1..], " ", "-")[i - 1] && s[1..][i - 1] == s[i];
        }
      }
    }
  }

  /** The slug is the text character for character: a space becomes "-", a capital its lower case. */
  lemma SlugChars(text: string)
    ensures |Slug(text)| == |text|
    ensures forall i | 0 <= i < |text| :: Slug(text)[i] == if text[i] == ' ' then '-' else LowerChar(text[i])
    ensures forall i | 0 <= i < |text| :: Slug(text)[i] != ' '
  {
    ReplaceSpaces(Lower(text));
  }

  /** The category part of the search URL: "office-buildings" without a category. */
  function CategorySlug(category: Option<string>): string {
    if category.Some? && category.value != "" then Slug(category.value) else "office-buildings"
  }

  /** `f"{city.lower().replace(' ', '-')}-{state.lower()}"` */
  function LocationSlug(city: string, state: string): string {
    Slug(city) + "-" + Lower(state)
  }

  /** Both slugs, as the search URL is built from them. */
  lemma SlugsSpec(category: Option<string>, city: string, state: string)
    ensures category.None? || category.value == "" ==> CategorySlug(category) == "office-buildings"
    ensures category.Some? && category.value != "" ==>
      var c := category.value;
      && |CategorySlug(category)| == |c|
      && forall i | 0 <= i < |c| :: CategorySlug(category)[i] == if c[i] == ' ' then '-' else LowerChar(c[i])
    ensures var l := LocationSlug(city, state);
      && |l| == |city| + 1 + |state|
      && l[..|city|] == Slug(city) && l[|city|] == '-' && l[|city| + 1..] == Lower(state)
  {
    SlugChars(city);
    if category.Some? && category.value != "" {
      SlugChars(category.value);
    }
    var l := LocationSlug(city, state);
    assert l == Slug(city) + "-" + Lower(state);
  }

  /** `f"{YELLOWPAGES_BASE_URL}/{formatted_category}/{formatted_location}"` */
  function SearchUrl(category: Option<string>, city: string, state: string): (url: string)
    ensures BaseUrl + "/" <= url
  {
    BaseUrl + "/" + CategorySlug(category) + "/" + LocationSlug(city, state)
  }

  // ================================================================ one listing

  /** What `re.match(r"(.*?),\s*(\w{2})\s*(\d{5})?", locality)` captured (zip "" when group 3 is empty). */
  datatype LocalityMatch = LocalityMatch(city: string, state: string, zip: string)

  /**
   * The texts of one result listing, as the stripped getters return them;
   * None where the element is absent.  `locality` is None where the element
   * is absent or the pattern does not match.
   */
  datatype Listing = Listing(
    name: Option<string>,
    address: Option<string>,
    locality: Option<LocalityMatch>,
    phone: Option<string>,
    website: Option<string>,
    categories: Option<string>,
    years: Option<string>)

  function WithLocality(company: Record, locality: Option<LocalityMatch>, city: string, state: string): (r: Record)
    ensures r.Keys <= company.Keys + {"city", "state", "zipcode"} && company.Keys <= r.Keys
    ensures "city" in r && ("city" !in company ==> "state" in r)
    ensures forall k | k in company && k !in {"city", "state", "zipcode"} :: r[k] == company[k]
  {
    match locality
    case Some(m) => company["city" := VStr(Strip(m.city))]["state" := VStr(Strip(m.state))]["zipcode" := VStr(m.zip)]
    case None =>
      if "city" in company then company else company["city" := VStr(city)]["state" := VStr(state)]
  }

  /** `str(current_year - int(years))`, only where `int()` accepts the text. */
  function WithYearBuilt(company: Record, years: Option<string>, currentYear: int): Record {
    if years.Some? && ParseInt(years.value).Some? then
      company["year_built" := VStr(IntToString(currentYear - ParseInt(years.value).value))]
    else company
  }

  lemma YearBuiltKeys(company: Record, years: Option<string>, currentYear: int)
    ensures var r := WithYearBuilt(company, years, currentYear);
      && r.Keys == company.Keys + (if years.Some? && ParseInt(years.value).Some? then {"year_built"} else {})
      && forall k | k in company && k != "year_built" :: r[k] == company[k]
  {
  }

  /** The search category where the listing shows none (None prints as nothing: the key holds None). */
  function CategoryValue(categories: Option<string>, category: Option<string>): Value {
    if categories.Some? then VStr(categories.value)
    else if category.Some? then VStr(category.value) else VNone
  }

  /** The keys a listing can fill in. */
  const ListingKeys: set<string> := {"name", "address", "city", "state", "zipcode", "phone", "website", "category", "year_built"}

  /** The fields a listing fills in before its founding year. */
  function ListingBase(l: Listing, city: string, state: string, category: Option<string>): Record
    requires l.name.Some?
  {
    var located := WithLocality(WithOpt(map["name" := VStr(l.name.value)], "address", l.address), l.locality, city, state);
    WithOpt(WithOpt(located, "phone", l.phone), "website", l.website)["category" := CategoryValue(l.categories, category)]
  }

  lemma ListingBaseKeys(l: Listing, city: string, state: string, category: Option<string>)
    requires l.name.Some?
    ensures var r := ListingBase(l, city, state, category);
      && r.Keys <= ListingKeys - {"year_built"}
      && "name" in r && "city" in r && "state" in r && "category" in r
      && r["name"] == VStr(l.name.value) && r["category"] == CategoryValue(l.categories, category)
  {
    var named := map["name" := VStr(l.name.value)];
    var addressed := WithOpt(named, "address", l.address);
    assert addressed.Keys <= {"name", "address"} && addressed["name"] == VStr(l.name.value);
    var located := WithLocality(addressed, l.locality, city, state);
    assert located.Keys <= {"name", "address", "city", "state", "zipcode"} && "state" in located;
    var contact := WithOpt(WithOpt(located, "phone", l.phone), "website", l.website);
    assert contact["name"] == VStr(l.name.value);
  }

  /** The record read from a listing before `add_source_info`; None where it has no name element. */
  function ListingInfo(l: Listing, city: string, state: string, category: Option<string>, currentYear: int): (r: Option<Record>)
    ensures r.Some? <==> l.name.Some?
  {
    if l.name.None? then None
    else Some(WithYearBuilt(ListingBase(l, city, state, category), l.years, currentYear))
  }

  /** The generic score as `add_source_info` calls it: it never raises. */
  function Scorer(currentYear: int): Record -> Option<int> {
    c => Some(BaseScore(c, currentYear))
  }

  /** The company one listing yields; None where it has no name or processing it raised (`listing` None). */
  function Listed(listing: Option<Listing>, city: string, state: string, category: Option<string>, currentYear: int): Option<Record> {
    if listing.None? then None
    else match ListingInfo(listing.value, city, state, category, currentYear)
      case None => None
      case Some(info) => SourceInfo(info, SourceName, Scorer(currentYear))
  }

  /** What every listed company carries. */
  predicate ListedShape(company: Record) {
    && "name" in company && company["name"].VStr?
    && "city" in company && "state" in company && "category" in company
    && "source" in company && company["source"] == VStr(SourceName)
    && "lead_score" in company && company["lead_score"].VInt? && 50 <= company["lead_score"].i <= 100
  }

  lemma StampKeysNotListed()
    ensures "source" !in ListingKeys && "lead_score" !in ListingKeys
  {
    assert |"source"| == 6 && |"lead_score"| == 10;
    assert forall k | k in ListingKeys :: |k| != 6 || k[0] != 's';
    assert forall k | k in ListingKeys :: |k| != 10 || k[0] != 'l';
  }

  lemma ListingInfoKeys(l: Listing, city: string, state: string, category: Option<string>, currentYear: int)
    requires l.name.Some?
    ensures var info := ListingInfo(l, city, state, category, currentYear).value;
      && "source" !in info && "lead_score" !in info
      && "name" in info && info["name"] == VStr(l.name.value)
      && "city" in info && "state" in info && "category" in info
  {
    ListingBaseKeys(l, city, state, category);
    YearBuiltKeys(ListingBase(l, city, state, category), l.years, currentYear);
    StampKeysNotListed();
  }

  lemma ListedIsShaped(listing: Option<Listing>, city: string, state: string, category: Option<string>, currentYear: int)
    requires Listed(listing, city, state, category, currentYear).Some?
    ensures ListedShape(Listed(listing, city, state, category, currentYear).value)
  {
    ListingInfoKeys(listing.value, city, state, category, currentYear);
  }

  /**
   * The fallbacks of one listing: the search's city and state where the
   * locality gives none, the search category where the listing shows none,
   * and a founding year only where `int()` accepts the years in business.
   */
  lemma ListingFallbacks(l: Listing, city: string, state: string, category: Option<string>, currentYear: int)
    requires l.name.Some?
    ensures var info := ListingInfo(l, city, state, category, currentYear).value;
      && (l.locality.None? ==> info["city"] == VStr(city) && info["state"] == VStr(state))
      && (l.locality.Some? ==> info["city"] == VStr(Strip(l.locality.value.city))
                               && info["state"] == VStr(Strip(l.locality.value.state)))
      && (l.categories.None? ==> info["category"] == (if category.Some? then VStr(category.value) else VNone))
      && ("year_built" in info <==> l.years.Some? && ParseInt(l.years.value).Some?)
      && ("year_built" in info ==>
            info["year_built"].VStr? && ParseInt(info["year_built"].s) == Some(currentYear - ParseInt(l.years.value).value))
  {
    var base := ListingBase(l, city, state, category);
    ListingBaseKeys(l, city, state, category);
    LocalityFallback(l, city, state, category);
    var info := ListingInfo(l, city, state, category, currentYear).value;
    assert info == WithYearBuilt(base, l.years, currentYear);
    YearBuiltKeys(base, l.years, currentYear);
    assert "city" != "year_built" && "state" != "year_built" && "category" != "year_built";
    if "year_built" in info {
      ParseIntOfIntToString(currentYear - ParseInt(l.years.value).value);
    }
  }

  lemma LocalityFallback(l: Listing, city: string, state: string, category: Option<string>)
    requires l.name.Some?
    ensures var base := ListingBase(l, city, state, category);
      && (l.locality.None? ==> base["city"] == VStr(city) && base["state"] == VStr(state))
      && (l.locality.Some? ==> base["city"] == VStr(Strip(l.locality.value.city))
                               && base["state"] == VStr(Strip(l.locality.value.state)))
  {
    var named := map["name" := VStr(l.name.value)];
    var addressed := WithOpt(named, "address", l.address);
    assert "city" !in addressed by {
      assert addressed.Keys <= {"name", "address"};
    }
    var located := WithLocality(addressed, l.locality, city, state);
    var contact := WithOpt(WithOpt(located, "phone", l.phone), "website", l.website);
    assert "city" != "phone" && "city" != "website" && "city" != "category";
    assert "state" != "phone" && "state" != "website" && "state" != "category";
    assert contact["city"] == located["city"] && contact["state"] == located["state"];
  }

  /** The name, address and location of one listing, filled field by field. */
  method ReadLocation(l: Listing, city: string, state: string) returns (company: Record)
    requires l.name.Some?
    ensures company == WithLocality(WithOpt(map["name" := VStr(l.name.value)], "address", l.address), l.locality, city, state)
  {
    company := map["name" := VStr(l.name.value)];
    if l.address.Some? {
      company := company["address" := VStr(l.address.value)];
    }
    if l.locality.Some? {
      company := company["city" := VStr(Strip(l.locality.value.city))]["state" := VStr(Strip(l.locality.value.state))]
                        ["zipcode" := VStr(l.locality.value.zip)];
    }
    if "city" !in company {
      company := company["city" := VStr(city)]["state" := VStr(state)];
    }
  }

  /** The founding year estimated from the years in business. */
  method ReadYearBuilt(company: Record, years: Option<string>, currentYear: int) returns (r: Record)
    ensures r == WithYearBuilt(company, years, currentYear)
  {
    r := company;
    if years.Some? {
      var count := ParseInt(years.value);
      if count.Some? {
        r := r["year_built" := VStr(IntToString(currentYear - count.value))];
      }
    }
  }

  /** The record of one listing, filled field by field. */
  method ReadListing(l: Listing, city: string, state: string, category: Option<string>, currentYear: int)
    returns (info: Option<Record>)
    ensures info == ListingInfo(l, city, state, category, currentYear)
  {
    if l.name.None? {
      return None;
    }
    var company := ReadLocation(l, city, state);
    if l.phone.Some? {
      company := company["phone" := VStr(l.phone.value)];
    }
    if l.website.Some? {
      company := company["website" := VStr(l.website.value)];
    }
    company := company["category" := CategoryValue(l.categories, category)];
    assert company == ListingBase(l, city, state, category);
    company := ReadYearBuilt(company, l.years, currentYear);
    info := Some(company);
  }

  /** The body of the listing loop for `elements[j]`. */
  method ExtractListing(elements: seq<Option<Listing>>, j: int, city: string, state: string, category: Option<string>,
                        currentYear: int) returns (company: Option<Record>)
    requires 0 <= j < |elements|
    ensures company == ListedAll(elements, city, state, category, currentYear)[j]
  {
    ListedAllAt(elements, city, state, category, currentYear, j);
    var listing := elements[j];
    if listing.None? {
      return None;
    }
    var info := ReadListing(listing.value, city, state, category, currentYear);
    if info.None? {
      return None;
    }
    company := AddSourceInfo(info.value, SourceName, Scorer(currentYear));
  }

  // ================================================================ search_businesses

  /** What each listing of one page yields, in order. */
  function ListedAll(elements: seq<Option<Listing>>, city: string, state: string, category: Option<string>, currentYear: int)
    : (r: seq<Option<Record>>)
    ensures |r| == |elements|
    decreases |elements|
  {
    if elements == [] then []
    else ListedAll(elements[..|elements| - 1], city, state, category, currentYear)
         + [Listed(elements[|elements| - 1], city, state, category, currentYear)]
  }

  lemma {:induction false} ListedAllAt(elements: seq<Option<Listing>>, city: string, state: string, category: Option<string>,
                                       currentYear: int, i: int)
    requires 0 <= i < |elements|
    ensures ListedAll(elements, city, state, category, currentYear)[i] == Listed(elements[i], city, state, category, currentYear)
    decreases |elements|
  {
    if i < |elements| - 1 {
      ListedAllAt(elements[..|elements| - 1], city, state, category, currentYear, i);
    }
  }

  lemma ListedAllShaped(elements: seq<Option<Listing>>, city: string, state: string, category: Option<string>, currentYear: int)
    ensures forall i | 0 <= i < |elements| && ListedAll(elements, city, state, category, currentYear)[i].Some? ::
      ListedShape(ListedAll(elements, city, state, category, currentYear)[i].value)
  {
    forall i | 0 <= i < |elements| && ListedAll(elements, city, state, category, currentYear)[i].Some?
      ensures ListedShape(ListedAll(elements, city, state, category, currentYear)[i].value)
    {
      ListedAllAt(elements, city, state, category, currentYear, i);
      ListedIsShaped(elements[i], city, state, category, currentYear);
    }
  }

  /**
   * The page loop: each page's listings in turn until `max` companies are
   * kept, a page shows no listings, or there is no next page (`pages` ends).
   */
  function Pages(kept: seq<Record>, pages: seq<seq<Option<Listing>>>, max: int, city: string, state: string,
                 category: Option<string>, currentYear: int): seq<Record>
    decreases |pages|
  {
    if pages == [] || |kept| >= max || pages[0] == [] then kept
    else Pages(Scan(kept, ListedAll(pages[0], city, state, category, currentYear), 0, max), pages[1..], max,
               city, state, category, currentYear)
  }

  /** The outcomes of every listing on the pages visited: those before the first empty page. */
  function Visited(pages: seq<seq<Option<Listing>>>, city: string, state: string, category: Option<string>, currentYear: int)
    : seq<Option<Record>>
    decreases |pages|
  {
    if pages == [] || pages[0] == [] then []
    else ListedAll(pages[0], city, state, category, currentYear) + Visited(pages[1..], city, state, category, currentYear)
  }

  lemma FirstOfFirst(a: seq<Record>, b: seq<Record>, max: int)
    requires max >= 0
    ensures First(First(a, max) + b, max) == First(a + b, max)
  {
    if max < |a| {
      assert (a + b)[..max] == a[..max];
      assert (a[..max] + b)[..max] == a[..max];
    }
  }

  /** The loop keeps the first `max_results` companies the visited pages yield, in page order. */
  lemma {:induction false} PagesKeepFirst(kept: seq<Record>, pages: seq<seq<Option<Listing>>>, max: int, city: string,
                                          state: string, category: Option<string>, currentYear: int)
    requires |kept| <= max
    ensures Pages(kept, pages, max, city, state, category, currentYear)
            == First(kept + Somes(Visited(pages, city, state, category, currentYear)), max)
    decreases |pages|
  {
    var visited := Visited(pages, city, state, category, currentYear);
    if pages == [] || pages[0] == [] {
      assert visited == [] && kept + Somes(visited) == kept;
    } else if |kept| >= max {
      assert (kept + Somes(visited))[..max] == kept;
    } else {
      var results := ListedAll(pages[0], city, state, category, currentYear);
      var rest := Visited(pages[1..], city, state, category, currentYear);
      ScanFirst(kept, results, 0, max);
      assert results[0..] == results;
      var next := Scan(kept, results, 0, max);
      PagesKeepFirst(next, pages[1..], max, city, state, category, currentYear);
      FirstOfFirst(kept + Somes(results), Somes(rest), max);
      SomesAppend(results, rest);
      assert kept + Somes(results) + Somes(rest) == kept + Somes(visited);
    }
  }

  /** The number kept never exceeds `max_results`, and each has a name, a city, a category, the source and a score. */
  lemma {:induction false} PagesBound(kept: seq<Record>, pages: seq<seq<Option<Listing>>>, max: int, city: string,
                                      state: string, category: Option<string>, currentYear: int)
    requires |kept| <= max
    ensures |Pages(kept, pages, max, city, state, category, currentYear)| <= max
    ensures forall c | c in Pages(kept, pages, max, city, state, category, currentYear) :: c in kept || ListedShape(c)
    decreases |pages|
  {
    if pages != [] && |kept| < max && pages[0] != [] {
      var results := ListedAll(pages[0], city, state, category, currentYear);
      ListedAllShaped(pages[0], city, state, category, currentYear);
      ScanBound(kept, results, 0, max, ListedShape);
      var next := Scan(kept, results, 0, max);
      PagesBound(next, pages[1..], max, city, state, category, currentYear);
    }
  }

  /** One page's `for element in business_elements` loop. */
  method ScanPage(kept: seq<Record>, elements: seq<Option<Listing>>, maxResults: int, city: string, state: string,
                  category: Option<string>, currentYear: int) returns (companies: seq<Record>)
    ensures companies == Scan(kept, ListedAll(elements, city, state, category, currentYear), 0, maxResults)
  {
    ghost var results := ListedAll(elements, city, state, category, currentYear);
    companies := kept;
    var j := 0;
    while j < |elements| && |companies| < maxResults
      invariant 0 <= j <= |elements|
      invariant Scan(companies, results, j, maxResults) == Scan(kept, results, 0, maxResults)
      decreases |elements| - j
    {
      var company := ExtractListing(elements, j, city, state, category, currentYear);
      if company.Some? {
        companies := companies + [company.value];
      }
      j := j + 1;
    }
  }

  /** The `while results_found < max_results` loop over the pages. */
  method CollectPages(pages: seq<seq<Option<Listing>>>, maxResults: int, city: string, state: string,
                      category: Option<string>, currentYear: int) returns (companies: seq<Record>)
    ensures companies == Pages([], pages, maxResults, city, state, category, currentYear)
  {
    companies := [];
    var p := 0;
    while p < |pages| && |companies| < maxResults
      invariant 0 <= p <= |pages|
      invariant Pages(companies, pages[p..], maxResults, city, state, category, currentYear)
                == Pages([], pages, maxResults, city, state, category, currentYear)
      decreases |pages| - p
    {
      if pages[p] == [] {
        break;
      }
      assert pages[p..][1..] == pages[p + 1..];
      companies := ScanPage(companies, pages[p], maxResults, city, state, category, currentYear);
      p := p + 1;
    }
    if p == |pages| {
      assert pages[p..] == [];
    }
  }

  /** `search_businesses(city, state, category, max_results)` over the pages the site serves, in order. */
  method SearchBusinesses(db: Database, pages: seq<seq<Option<Listing>>>, city: string, state: string,
                          category: Option<string>, maxResults: int, currentYear: int, stamp: string)
    returns (companies: seq<Record>)
    requires db.Valid()
    modifies db`searches
    ensures db.Valid()
    ensures companies == Pages([], pages, maxResults, city, state, category, currentYear)
    ensures db.searches == old(db.searches)
              + [HistoryEntry(|old(db.searches)| + 1, SourceName, SearchTerm(category, city, state), |companies|, stamp)]
  {
    companies := CollectPages(pages, maxResults, city, state, category, currentYear);
    var _ := db.RecordSearch(SourceName, SearchTerm(category, city, state), |companies|, stamp);
  }

  /** The search: the first `max_results` companies of the visited pages, each fully shaped. */
  lemma SearchSpec(pages: seq<seq<Option<Listing>>>, maxResults: int, city: string, state: string,
                   category: Option<string>, currentYear: int)
    requires maxResults >= 0
    ensures var found := Pages([], pages, maxResults, city, state, category, currentYear);
      && found == First(Somes(Visited(pages, city, state, category, currentYear)), maxResults)
      && |found| <= maxResults
      && forall c | c in found :: ListedShape(c)
  {
    PagesKeepFirst([], pages, maxResults, city, state, category, currentYear);
    PagesBound([], pages, maxResults, city, state, category, currentYear);
  }

  // ================================================================ _extract_business_details

  /** A contact heading and the text of the paragraph after it (None where there is none). */
  datatype Contact = Contact(title: string, person: Option<string>)

  /** An "about" label and the text of its value (None where the lookup raised). */
  datatype AboutItem = AboutItem(heading: string, value: Option<string>)

  /** The texts of a business's detail page. */
  datatype DetailPage = DetailPage(
    description: Option<string>,
    services: seq<string>,
    contacts: seq<Contact>,
    about: seq<AboutItem>)

  const ContactTitles: seq<string> := ["owner", "manager", "president", "ceo"]

  /** The keys the detail page may add or change. */
  const DetailKeys: set<string> := {
    "description", "category", "contact_title", "contact_person", "year_built", "building_size", "email", "lead_score"
  }

  /** The services appended to the category, or made the category where there is none. */
  function MergeServices(company: Record, services: seq<string>): (r: Record)
    ensures r.Keys == company.Keys + (if services == [] then {} else {"category"})
    ensures forall k | k in company && k != "category" :: r[k] == company[k]
  {
    if services == [] then company
    else if "category" in company then
      company["category" := VStr(Show(company["category"]) + ", " + Join(", ", services))]
    else company["category" := VStr(Join(", ", services))]
  }

  lemma {:induction false} JoinContains(sep: string, items: seq<string>, i: int)
    requires 0 <= i < |items|
    ensures Contains(Join(sep, items), items[i])
    decreases |items|
  {
    ContainsEmptyAndSelf(items[i]);
    if |items| > 1 {
      if i == 0 {
        PrefixContained(Join(sep, items), items[0]);
      } else {
        JoinContains(sep, items[1..], i - 1);
        SuffixContains(items[0] + sep, Join(sep, items[1..]), items[i]);
      }
    }
  }

  lemma PrefixContained(s: string, p: string)
    requires p <= s
    ensures Contains(s, p)
  {
  }

  lemma {:induction false} SuffixContains(a: string, b: string, sub: string)
    requires Contains(b, sub)
    ensures Contains(a + b, sub)
    decreases |a|
  {
    if a == [] {
      assert a + b == b;
    } else {
      SuffixContains(a[1..], b, sub);
      assert (a + b)[1..] == a[1..] + b;
    }
  }

  /** The merged category keeps the old one's text in front and contains every service. */
  lemma MergedCategory(company: Record, services: seq<string>)
    requires services != []
    ensures var r := MergeServices(company, services);
      && r["category"].VStr?
      && ("category" in company ==> Show(company["category"]) + ", " <= r["category"].s)
      && forall i | 0 <= i < |services| :: Contains(r["category"].s, services[i])
  {
    var r := MergeServices(company, services);
    forall i | 0 <= i < |services| ensures Contains(r["category"].s, services[i]) {
      JoinContains(", ", services, i);
      if "category" in company {
        SuffixContains(Show(company["category"]) + ", ", Join(", ", services), services[i]);
        assert r["category"].s == Show(company["category"]) + ", " + Join(", ", services);
      }
    }
  }

  /** One contact: kept only under a decision-making title. */
  function ApplyContact(company: Record, contact: Contact): (r: Record)
    ensures r.Keys <= company.Keys + {"contact_title", "contact_person"} && company.Keys <= r.Keys
    ensures forall k | k in company && k !in {"contact_title", "contact_person"} :: r[k] == company[k]
  {
    if Lower(contact.title) in ContactTitles then
      var titled := company["contact_title" := VStr(contact.title)];
      if contact.person.Some? then titled["contact_person" := VStr(contact.person.value)] else titled
    else company
  }

  function ApplyContacts(company: Record, contacts: seq<Contact>): (r: Record)
    ensures r.Keys <= company.Keys + {"contact_title", "contact_person"} && company.Keys <= r.Keys
    ensures forall k | k in company && k !in {"contact_title", "contact_person"} :: r[k] == company[k]
    decreases |contacts|
  {
    if contacts == [] then company
    else ApplyContact(ApplyContacts(company, contacts[..|contacts| - 1]), contacts[|contacts| - 1])
  }

  /** A `contact_title` the page set is one of owner, manager, president, ceo (in any case). */
  predicate TitleFrom(before: Record, after: Record) {
    "contact_title" in after ==>
      ("contact_title" in before && after["contact_title"] == before["contact_title"])
      || (after["contact_title"].VStr? && Lower(after["contact_title"].s) in ContactTitles)
  }

  lemma {:induction false} ContactTitleFiltered(company: Record, contacts: seq<Contact>)
    ensures TitleFrom(company, ApplyContacts(company, contacts))
    decreases |contacts|
  {
    if contacts != [] {
      ContactTitleFiltered(company, contacts[..|contacts| - 1]);
    }
  }

  /** One about entry: the first of year established, building size, email the label names, given a value. */
  function ApplyAbout(company: Record, item: AboutItem): (r: Record)
    ensures r.Keys <= company.Keys + {"year_built", "building_size", "email"} && company.Keys <= r.Keys
    ensures forall k | k in company && k !in {"year_built", "building_size", "email"} :: r[k] == company[k]
  {
    if item.value.None? || item.value.value == "" then company
    else
      var text := Lower(item.heading);
      if Contains(text, "year established") then company["year_built" := VStr(item.value.value)]
      else if Contains(text, "building size") then company["building_size" := VStr(item.value.value)]
      else if Contains(text, "email") then company["email" := VStr(item.value.value)]
      else company
  }

  function ApplyAbouts(company: Record, about: seq<AboutItem>): (r: Record)
    ensures r.Keys <= company.Keys + {"year_built", "building_size", "email"} && company.Keys <= r.Keys
    ensures forall k | k in company && k !in {"year_built", "building_size", "email"} :: r[k] == company[k]
    decreases |about|
  {
    if about == [] then company
    else ApplyAbout(ApplyAbouts(company, about[..|about| - 1]), about[|about| - 1])
  }

  /** The record after the detail page: description, services, contacts, about entries, then a fresh score. */
  function Enriched(company: Record, page: DetailPage, currentYear: int): Record {
    var merged := MergeServices(WithOpt(company, "description", page.description), page.services);
    var details := ApplyAbouts(ApplyContacts(merged, page.contacts), page.about);
    details["lead_score" := VInt(BaseScore(details, currentYear))]
  }

  /** The detail page adds or changes only the detail keys, and leaves a score in [50, 100]. */
  lemma EnrichedKeepsOtherFields(company: Record, page: DetailPage, currentYear: int)
    ensures var r := Enriched(company, page, currentYear);
      && r.Keys <= company.Keys + DetailKeys
      && (forall k | k in company && k !in DetailKeys :: k in r && r[k] == company[k])
      && r["lead_score"].VInt? && 50 <= r["lead_score"].i <= 100
  {
    var described := WithOpt(company, "description", page.description);
    assert forall k | k in company && k != "description" :: k in described && described[k] == company[k];
    var merged := MergeServices(described, page.services);
    var contacted := ApplyContacts(merged, page.contacts);
    var details := ApplyAbouts(contacted, page.about);
    assert forall k | k in company && k !in DetailKeys :: details[k] == contacted[k] == merged[k] == described[k];
  }

  /** The services step of `_extract_business_details`. */
  method ReadServices(company: Record, services: seq<string>) returns (r: Record)
    ensures r == MergeServices(company, services)
  {
    r := company;
    if services != [] {
      if "category" in r {
        r := r["category" := VStr(Show(r["category"]) + ", " + Join(", ", services))];
      } else {
        r := r["category" := VStr(Join(", ", services))];
      }
    }
  }

  /** The contacts loop of `_extract_business_details`. */
  method ReadContacts(company: Record, contacts: seq<Contact>) returns (r: Record)
    ensures r == ApplyContacts(company, contacts)
  {
    r := company;
    var i := 0;
    while i < |contacts|
      invariant 0 <= i <= |contacts|
      invariant r == ApplyContacts(company, contacts[..i])
    {
      assert contacts[..i + 1][..i] == contacts[..i];
      var contact := contacts[i];
      if Lower(contact.title) in ContactTitles {
        r := r["contact_title" := VStr(contact.title)];
        if contact.person.Some? {
          r := r["contact_person" := VStr(contact.person.value)];
        }
      }
      i := i + 1;
    }
    assert contacts[..|contacts|] == contacts;
  }

  /** The about loop of `_extract_business_details`. */
  method ReadAbout(company: Record, about: seq<AboutItem>) returns (r: Record)
    ensures r == ApplyAbouts(company, about)
  {
    r := company;
    var i := 0;
    while i < |about|
      invariant 0 <= i <= |about|
      invariant r == ApplyAbouts(company, about[..i])
    {
      assert about[..i + 1][..i] == about[..i];
      var item := about[i];
      if item.value.Some? && item.value.value != "" {
        var text := Lower(item.heading);
        if Contains(text, "year established") {
          r := r["year_built" := VStr(item.value.value)];
        } else if Contains(text, "building size") {
          r := r["building_size" := VStr(item.value.value)];
        } else if Contains(text, "email") {
          r := r["email" := VStr(item.value.value)];
        }
      }
      i := i + 1;
    }
    assert about[..|about|] == about;
  }

  /** `_extract_business_details(company)`, updating the record in place. */
  method ExtractBusinessDetails(company: Record, page: DetailPage, currentYear: int) returns (r: Record)
    ensures r == Enriched(company, page, currentYear)
  {
    r := company;
    if page.description.Some? {
      r := r["description" := VStr(page.description.value)];
    }
    r := ReadServices(r, page.services);
    r := ReadContacts(r, page.contacts);
    r := ReadAbout(r, page.about);
    ghost var details := r;
    var score := CalculateLeadScore(r, currentYear);
    r := r["lead_score" := VInt(score)];
    assert r == details["lead_score" := VInt(BaseScore(details, currentYear))];
  }

  // ================================================================ get_business_details

  /** One search result: its name text (None without a name element) and its detail page (None where opening it raised). */
  datatype SearchResult = SearchResult(name: Option<string>, page: Option<DetailPage>)

  /** The detail page of the first result whose name is similar and whose page opened. */
  function FirstDetailPage(results: seq<SearchResult>, name: string): (p: Option<DetailPage>)
    decreases |results|
  {
    if results == [] then None
    else if results[0].name.Some? && NamesSimilar(results[0].name.value, name) && results[0].page.Some? then results[0].page
    else FirstDetailPage(results[1..], name)
  }

  predicate Opens(result: SearchResult, name: string) {
    result.name.Some? && NamesSimilar(result.name.value, name) && result.page.Some?
  }

  /** The page found is that of the first result that opens; None exactly when none does. */
  lemma {:induction false} FirstDetailPageSpec(results: seq<SearchResult>, name: string)
    ensures FirstDetailPage(results, name).None? <==> forall i | 0 <= i < |results| :: !Opens(results[i], name)
    ensures FirstDetailPage(results, name).Some? ==>
      exists i | 0 <= i < |results| :: Opens(results[i], name) && results[i].page == FirstDetailPage(results, name)
        && forall j | 0 <= j < i :: !Opens(results[j], name)
    decreases |results|
  {
    if results != [] {
      FirstDetailPageSpec(results[1..], name);
      if !Opens(results[0], name) && FirstDetailPage(results, name).Some? {
        var i :| 0 <= i < |results[1..]| && Opens(results[1..][i], name) && results[1..][i].page == FirstDetailPage(results, name)
          && forall j | 0 <= j < i :: !Opens(results[1..][j], name);
        assert Opens(results[i + 1], name) && forall j | 0 <= j < i + 1 :: !Opens(results[j], name) by {
          forall j | 0 <= j < i + 1 ensures !Opens(results[j], name) {
            if j > 0 {
              assert results[j] == results[1..][j - 1];
            }
          }
        }
      }
      if FirstDetailPage(results, name).None? {
        forall i | 0 <= i < |results| ensures !Opens(results[i], name) {
          if i > 0 {
            assert results[i] == results[1..][i - 1];
          }
        }
      }
    }
  }

  /**
   * `get_business_details(company)`; `search` is the search page's results,
   * None where it did not load.  The record comes back unchanged without a
   * name and a city, where building the search URL raises, without a loaded
   * search page, or without a result that opens.
   */
  function Details(company: Record, search: Option<seq<SearchResult>>, currentYear: int): Record {
    var name := Get(company, "name", VNone);
    var city := Get(company, "city", VNone);
    if !Truthy(name) || !Truthy(city) then company
    else if !name.VStr? || !city.VStr? || "state" !in company || !company["state"].VStr? || search.None? then company
    else match FirstDetailPage(search.value, name.s)
      case None => company
      case Some(page) => Enriched(company, page, currentYear)
  }

  /** Without a name or a city the record comes back as it is. */
  lemma DetailsNeedNameAndCity(company: Record, search: Option<seq<SearchResult>>, currentYear: int)
    requires !Truthy(Get(company, "name", VNone)) || !Truthy(Get(company, "city", VNone))
    ensures Details(company, search, currentYear) == company
  {
  }

  /** The details only add or change the detail keys, and the score stays in range. */
  lemma DetailsKeepOtherFields(company: Record, search: Option<seq<SearchResult>>, currentYear: int)
    ensures var r := Details(company, search, currentYear);
      && r.Keys <= company.Keys + DetailKeys
      && (forall k | k in company && k !in DetailKeys :: r[k] == company[k])
      && (r != company ==> r["lead_score"].VInt? && 50 <= r["lead_score"].i <= 100)
  {
    var name := Get(company, "name", VNone);
    if Truthy(name) && Truthy(Get(company, "city", VNone)) && name.VStr? && search.Some? {
      var page := FirstDetailPage(search.value, name.s);
      if page.Some? {
        EnrichedKeepsOtherFields(company, page.value, currentYear);
      }
    }
  }

  /** The result loop of `get_business_details`, stopping at the first similar name whose page opens. */
  method GetBusinessDetails(company: Record, search: Option<seq<SearchResult>>, currentYear: int) returns (r: Record)
    ensures r == Details(company, search, currentYear)
  {
    r := company;
    var name := Get(company, "name", VNone);
    var city := Get(company, "city", VNone);
    if !Truthy(name) || !Truthy(city) {
      return;
    }
    if !name.VStr? || !city.VStr? || "state" !in company || !company["state"].VStr? || search.None? {
      return;
    }
    var results := search.value;
    var i := 0;
    while i < |results|
      invariant 0 <= i <= |results|
      invariant FirstDetailPage(results[i..], name.s) == FirstDetailPage(results, name.s)
    {
      assert results[i..][1..] == results[i + 1..];
      var result := results[i];
      if result.name.Some? {
        var similar := SimilarNames(result.name.value, name.s);
        if similar && result.page.Some? {
          r := ExtractBusinessDetails(company, result.page.value, currentYear);
          return;
        }
      }
      i := i + 1;
    }
    assert results[i..] == [];
  }
}
