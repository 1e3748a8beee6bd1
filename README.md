# LeadGen core, modelled in Dafny

LeadGen finds sales leads for an energy-efficiency company. It scrapes
business listings from Yellow Pages and Google Maps, asks an OpenAI model for
leads and analyses, stores everything in a local SQLite database with a
key/value cache, and exports the leads as CSV, HubSpot CSV or outreach e-mails.
This project models the deterministic logic under the scraping and model
calls, and proves what that logic promises:

- the four lead scorers (generic scraper, `Company` dataclass, Google Maps,
  AI leads), each a specification function next to a method that follows the
  source's `score +=` steps and keyword loops;
- the database as a class `Store.Database` whose fields are the companies
  table, the row-id sequence, the cache table and the two history logs, with
  the insert, update, query, count, history and cache operations;
- record shaping: `Company.from_dict` / `to_dict`, `add_source_info`,
  `similar_names`, the batch detail loop with its cache, the Yellow Pages and
  Google Maps listing readers and search loops, the AI lead mappings, and the
  AI analyzer's cache merge and score blend;
- the CSV, HubSpot and outreach-e-mail exporters, with files modelled as the
  rows or text written to them.

Python values are one datatype `Values.Value` (None, bool, int, str, list,
dict), and a record is a `map<string, Value>`. An exception the source raises
and catches is an `Option` result or a branch that keeps the input, as the
source's `except` does. Everything from outside the program is a parameter:
clock readings, the page contents, the model's replies and the JSON codec.

Modules, in dependency order: `Values` (Python built-ins), `Collect` (the
"keep the first `max_results`" scans), `Scoring` (shared score helpers),
`Store` (database.py), `BaseScraper`, `CompanyModel`, `GoogleMaps`,
`YellowPages`, `LeadFinder`, `Analyzer`, `Files`, `CsvExporter` and
`HubSpotExporter`.

## Model

| member | source | states |
|---|---|---|
| Scoring.AgeBand | scrapers/base_scraper.py:88-93 | the age bonus is 20 exactly above 30 years, 15 above 20 up to 30, 10 above 10, otherwise 0 |
| Scoring.FirstHit | models/company.py:129-132 | the for/break keyword loop finds a hit iff some keyword occurs in the text |
| Scoring.CountHits | scrapers/base_scraper.py:133 | the loop counts the keywords of the list that occur in the text |
| Scoring.NoEnergyKeywordInInertText | scrapers/base_scraper.py:128-133 | the text of falsy description and category fields contains no energy keyword |
| Scoring.FalsyTextInert | scrapers/base_scraper.py:128-131 | `str(v).lower()` of a falsy value is built only from characters no energy keyword needs |
| Scoring.EnergyKeywordsDistinct | scrapers/base_scraper.py:124-126 | the energy keyword list has no repeats |
| Values.CountContainedIsDistinctMatches | scrapers/base_scraper.py:133 | over a repeat-free list, the keyword count is the number of distinct keywords found |
| Values.ParseIntOfIntToString | scrapers/yellowpages_scraper.py:133-134 | `int(str(i)) == i` for every integer |
| Values.LowerIdempotent | scrapers/base_scraper.py:142-143 | lower-casing twice is lower-casing once |
| Values.DictOfDistinct | exporters/hubspot_exporter.py:58-73 | a dict display with distinct keys maps each listed key to its listed value |
| Collect.ScanFirst | scrapers/yellowpages_scraper.py:74-76 | a result loop that stops at `max_results` keeps the first `max_results` of what was kept plus what the results yield |
| Collect.ScanBound | scrapers/yellowpages_scraper.py:74-76 | the loop keeps at most `max_results` companies, extends what was kept, and adds only companies the results yield |
| Collect.SomesAppend | scrapers/yellowpages_scraper.py:74-151 | what two lists of results yield is what each yields, in order |
| BaseScraper.BaseScore | scrapers/base_scraper.py:76-137 | the generic score lies in [50, 100] |
| BaseScraper.AgeBonus | scrapers/base_scraper.py:81-95 | the age bonus lies in [0, 20] and is 0 for a `year_built` that `int()` rejects |
| BaseScraper.SizeBonus | scrapers/base_scraper.py:114-121 | the size bonus is one of 0, 5, 10, 15: never a sum |
| BaseScraper.PresenceBonus | scrapers/base_scraper.py:98-111 | the presence bonuses sum to at most 30 |
| BaseScraper.KeywordBonus | scrapers/base_scraper.py:133-134 | the keyword bonus lies in [0, 15] |
| BaseScraper.CalculateLeadScore | scrapers/base_scraper.py:76-137 | the method's `score +=` steps give exactly the generic score |
| BaseScraper.BaseScoreOfEmptyRecord | scrapers/base_scraper.py:76-137 | a record whose every field is falsy or absent scores exactly 50 |
| BaseScraper.KeywordBonusCountsDistinct | scrapers/base_scraper.py:124-134 | the keyword bonus is 3 per distinct energy keyword in description + " " + category, capped at 15 |
| BaseScraper.NonIntegerYearAddsNothing | scrapers/base_scraper.py:81-95 | a `year_built` that `int()` rejects scores as if it were absent |
| BaseScraper.SizeBonusFirstWordOnly | scrapers/base_scraper.py:114-121 | "large" anywhere in the size text gives 15, whatever else the text holds |
| BaseScraper.SimilarNames | scrapers/base_scraper.py:140-151 | the suffix loop decides the specification's similarity |
| BaseScraper.SimilarNamesBasics | scrapers/base_scraper.py:146-151 | similarity is reflexive and symmetric, and holds when a cleaned name is empty or contained in the other |
| BaseScraper.SimilarNamesIgnoresCase | scrapers/base_scraper.py:142-143 | lower-casing either name does not change the answer |
| BaseScraper.SourceInfo | scrapers/base_scraper.py:153-161 | `source` and then `lead_score` are added only where absent, every existing key is kept, and the result is None exactly when the scorer raises on a record without a score |
| BaseScraper.AddSourceInfo | scrapers/base_scraper.py:153-161 | the in-place steps give the specification's record |
| BaseScraper.SourceInfoIdempotent | scrapers/base_scraper.py:155-159 | stamping a stamped record changes nothing |
| BaseScraper.GetBusinessDetailsBatch | scrapers/base_scraper.py:43-74 | the loop's results and cache are the batch fold over the companies, each company with its own `cache_get` and `cache_set` clock readings |
| BaseScraper.GetDetailsCached | scrapers/base_scraper.py:51-68 | one pass of the loop body: a truthy cached dict is overlaid, a miss fetches and caches, a failure keeps the input |
| BaseScraper.DetailBatchResultCases | scrapers/base_scraper.py:45-68 | one result per input, in order; each is the input overlaid by cached fields, the fetched record, or the input itself |
| BaseScraper.StepCases | scrapers/base_scraper.py:56-68 | one step yields the input overlaid by cached fields, the fetched record, or the input |
| BaseScraper.FetchedDetailsAreReused | scrapers/base_scraper.py:54-64 | with an empty cache, the second of two companies with the same key gets the first one's fetched details from the cache while that entry is unexpired at its `cache_get`, and otherwise is fetched again and cached anew |
| BaseScraper.DetailBatchWithoutCache | scrapers/base_scraper.py:45-68 | with caching off the batch is the fetch applied to each input (the input where it raises) and the cache is unchanged |
| CompanyModel.Defaults | models/company.py:17-36 | the optional fields take their defaults: "" for text, None for id, 50 for lead_score |
| CompanyModel.KeptFields | models/company.py:51-60 | the kept dict has exactly the given keys that are fields, with the lead_score coercion applied |
| CompanyModel.FromDict | models/company.py:39-62 | `from_dict` succeeds iff the required fields are given, and then yields every field |
| CompanyModel.ToDict | models/company.py:64-71 | `to_dict` writes every field, and `scraped_at` |
| CompanyModel.FromDictFields | models/company.py:39-62 | a given field keeps its value (a string lead_score becomes its int or 50), an absent one takes its default, and other keys are dropped |
| CompanyModel.FromDictLeadScoreString | models/company.py:51-56 | a numeric lead_score string becomes its value, any other string 50 |
| CompanyModel.FromDictScrapedAtFallback | models/company.py:44-49 | an unparseable `scraped_at` string, or none at all, becomes `now` |
| CompanyModel.ToDictFromDictRoundTrip | models/company.py:39-71 | `from_dict(to_dict(c)) == c` for a well-formed company whose ISO time parses back |
| CompanyModel.ToDictKeepsFields | models/company.py:58-71 | the fields `to_dict` writes are the ones `from_dict` keeps, unchanged |
| CompanyModel.ReplaceAbsent | models/company.py:47 | `replace` leaves a string without the pattern unchanged |
| CompanyModel.AgeBonus | models/company.py:78-91 | the age bonus lies in [0, 20] and is 0 for a non-integer `year_built` |
| CompanyModel.SizeBonus | models/company.py:94-102 | the size bonus is 0, 5, 10 or 15, and None exactly where `.lower()` meets a truthy non-string |
| CompanyModel.PresenceBonus | models/company.py:104-118 | the presence bonuses sum to at most 30 |
| CompanyModel.CategoryBonus | models/company.py:121-132 | the category adds 5 at most once, exactly when an energy keyword occurs in it, and raises for a truthy non-string |
| CompanyModel.CompanyScore | models/company.py:73-135 | the dataclass score lies in [50, 100], and is None exactly when `.lower()` raises |
| CompanyModel.CalculateLeadScore | models/company.py:73-135 | the method's steps give exactly the dataclass score |
| CompanyModel.AgeScore | models/company.py:78-91 | the age steps give the age bonus |
| CompanyModel.SizeScore | models/company.py:94-102 | the size steps give the size bonus |
| CompanyModel.CategoryScore | models/company.py:121-132 | the keyword loop gives the category bonus |
| CompanyModel.DefaultText | models/company.py:19-36 | every text field defaults to "" |
| CompanyModel.BlankCompanyScore | models/company.py:73-135 | a company whose scored text fields are all "" scores exactly 50 |
| CompanyModel.AbsentTextIsBlank | models/company.py:18-36 | a text field the dict does not give is "" in the company |
| CompanyModel.RequiredOnlyIsBlank | models/company.py:13-36 | a company built from the required fields only has "" in every text field |
| CompanyModel.DefaultCompanyScoresBase | models/company.py:13-36 | a company with only name, city and state set scores exactly 50 |
| GoogleMaps.PresenceBonus | scrapers/googlemaps_scraper.py:220-234 | website, address, phone and description add at most 30 |
| GoogleMaps.CategoryBonus | scrapers/googlemaps_scraper.py:236-248 | the category adds 10 at most once, exactly when an energy keyword occurs in it, and raises for a truthy non-string |
| GoogleMaps.GMScore | scrapers/googlemaps_scraper.py:216-251 | the Google Maps score lies in [50, 90], and is None exactly when `.lower()` raises |
| GoogleMaps.CalculateLeadScore | scrapers/googlemaps_scraper.py:216-251 | the method's steps give exactly the Google Maps score |
| GoogleMaps.CapNeverBinds | scrapers/googlemaps_scraper.py:250-251 | the `min(score, 100)` cap never changes the sum |
| GoogleMaps.GMScoreReadsFiveFields | scrapers/googlemaps_scraper.py:216-251 | two records that agree on website, address, phone, description and category score the same |
| GoogleMaps.NonEmpty | scrapers/googlemaps_scraper.py:194-198 | the kept review texts are the non-empty ones, in order |
| GoogleMaps.ReviewPoints | scrapers/googlemaps_scraper.py:192-198 | the review loop gathers exactly the non-empty texts |
| GoogleMaps.WithAddress | scrapers/googlemaps_scraper.py:157-169 | the address element adds only address, city, state and zipcode |
| GoogleMaps.BusinessInfo | scrapers/googlemaps_scraper.py:147-207 | the panel yields only the nine panel fields |
| GoogleMaps.ReviewFallback | scrapers/googlemaps_scraper.py:186-201 | the description is the panel's own when non-empty, else "Customer reviews highlight: " + the non-empty reviews joined by "; " when there are any |
| GoogleMaps.BusinessInfoHasNoSourceOrScore | scrapers/googlemaps_scraper.py:147-207 | the panel never yields a source or a score |
| GoogleMaps.WithLocation | scrapers/googlemaps_scraper.py:83-85 | city and state are set from the search only when the record has no city |
| GoogleMaps.ProcessedIsCollected | scrapers/googlemaps_scraper.py:80-93 | a collected company has a name, a city, the source and a score |
| GoogleMaps.ProcessedAll | scrapers/googlemaps_scraper.py:68-115 | one outcome per result element |
| GoogleMaps.ProcessedAllCollected | scrapers/googlemaps_scraper.py:80-93 | every company a result list yields is fully shaped |
| GoogleMaps.RoundsBound | scrapers/googlemaps_scraper.py:63-135 | the search loop keeps at most `max_results` companies, each fully shaped |
| GoogleMaps.ProcessResult | scrapers/googlemaps_scraper.py:72-115 | one click gives the outcome of that result |
| GoogleMaps.ScanRound | scrapers/googlemaps_scraper.py:68-70 | one inner pass scans from `results_found` and stops at `max_results` |
| GoogleMaps.CollectRounds | scrapers/googlemaps_scraper.py:63-136 | the outer loop gives the rounds fold |
| GoogleMaps.SearchBusinesses | scrapers/googlemaps_scraper.py:52-141 | the search returns the rounds fold and logs one search with its count |
| GoogleMaps.SearchBound | scrapers/googlemaps_scraper.py:63-119 | the search keeps at most `max_results` companies, each with a name, a city, the source and a score |
| GoogleMaps.FreshScan | scrapers/googlemaps_scraper.py:68-70 | resuming after the results already clicked extends the kept prefix |
| GoogleMaps.FreshRoundsKeepFirst | scrapers/googlemaps_scraper.py:63-136 | with the corrected resume point, the search keeps the first `max_results` companies of the final list, each once |
| GoogleMaps.RescannedResultKeptTwice | scrapers/googlemaps_scraper.py:68-93 | as written, a failed click before a company makes the next round click it again and keep it twice |
| GoogleMaps.RescannedTwice | scrapers/googlemaps_scraper.py:68-93 | the counterexample rounds keep a company twice as written and once as corrected |
| GoogleMaps.GetBusinessDetails | scrapers/googlemaps_scraper.py:209-214 | the details step returns its input unchanged |
| YellowPages.SlugChars | scrapers/yellowpages_scraper.py:38 | the slug has the text's length, a space becomes "-", every other character its lower case |
| YellowPages.SlugsSpec | scrapers/yellowpages_scraper.py:36-44 | the category slug defaults to "office-buildings"; the location slug is the city slug, "-", and the lower-cased state |
| YellowPages.SearchUrl | scrapers/yellowpages_scraper.py:47 | the search URL starts with the base URL and "/" |
| YellowPages.WithLocality | scrapers/yellowpages_scraper.py:94-107 | the locality adds only city, state and zipcode, and a city is always present afterwards |
| YellowPages.YearBuiltKeys | scrapers/yellowpages_scraper.py:127-136 | `year_built` is added exactly when `int()` accepts the years in business |
| YellowPages.ListingBaseKeys | scrapers/yellowpages_scraper.py:79-124 | a named listing has a name, city, state and category |
| YellowPages.ListingInfo | scrapers/yellowpages_scraper.py:79-136 | a listing yields a record iff it has a name element |
| YellowPages.ListingInfoKeys | scrapers/yellowpages_scraper.py:79-136 | the listing record has no source or score before `add_source_info` |
| YellowPages.ListedIsShaped | scrapers/yellowpages_scraper.py:139-142 | every listed company has a name, city, state, category, the source and a score in [50, 100] |
| YellowPages.ListingFallbacks | scrapers/yellowpages_scraper.py:104-136 | the search's city and state stand in for a missing locality, the search category for missing categories, and `year_built` is `current_year - years` only where `int()` accepts |
| YellowPages.LocalityFallback | scrapers/yellowpages_scraper.py:93-107 | an unparsed locality leaves the search's city and state; a parsed one its stripped parts |
| YellowPages.ReadLocation | scrapers/yellowpages_scraper.py:82-107 | the field-by-field steps give the name, address and location |
| YellowPages.ReadYearBuilt | scrapers/yellowpages_scraper.py:127-136 | the steps give the year estimate |
| YellowPages.ReadListing | scrapers/yellowpages_scraper.py:79-136 | the steps give the listing record |
| YellowPages.ExtractListing | scrapers/yellowpages_scraper.py:78-151 | one pass of the listing loop gives the outcome of that listing |
| YellowPages.ListedAll | scrapers/yellowpages_scraper.py:74-151 | one outcome per listing |
| YellowPages.ListedAllShaped | scrapers/yellowpages_scraper.py:139-142 | every company a page yields is fully shaped |
| YellowPages.PagesKeepFirst | scrapers/yellowpages_scraper.py:65-172 | the loop keeps the first `max_results` companies the visited pages yield, in page order |
| YellowPages.PagesBound | scrapers/yellowpages_scraper.py:65-155 | at most `max_results` companies are kept, each fully shaped |
| YellowPages.ScanPage | scrapers/yellowpages_scraper.py:74-151 | one page's loop keeps the first `max_results` |
| YellowPages.CollectPages | scrapers/yellowpages_scraper.py:65-172 | the page loop gives the pages fold |
| YellowPages.SearchBusinesses | scrapers/yellowpages_scraper.py:30-177 | the search returns the pages fold and logs one search with its count |
| YellowPages.SearchSpec | scrapers/yellowpages_scraper.py:65-177 | the search returns the first `max_results` companies of the visited pages, each fully shaped |
| YellowPages.MergeServices | scrapers/yellowpages_scraper.py:246-253 | services touch only the category, and only when there are some |
| YellowPages.MergedCategory | scrapers/yellowpages_scraper.py:250-253 | an existing category stays in front, followed by ", ", and every service occurs in the merged text |
| YellowPages.JoinContains | scrapers/yellowpages_scraper.py:251-253 | every item occurs in the joined text |
| YellowPages.ApplyContact | scrapers/yellowpages_scraper.py:257-266 | one contact touches only the contact title and person |
| YellowPages.ApplyContacts | scrapers/yellowpages_scraper.py:256-266 | the contacts touch only the contact title and person |
| YellowPages.ContactTitleFiltered | scrapers/yellowpages_scraper.py:258-260 | a contact title the page sets is owner, manager, president or ceo in some case |
| YellowPages.ApplyAbout | scrapers/yellowpages_scraper.py:270-287 | one about entry touches only year_built, building_size or email |
| YellowPages.ApplyAbouts | scrapers/yellowpages_scraper.py:269-287 | the about entries touch only year_built, building_size and email |
| YellowPages.EnrichedKeepsOtherFields | scrapers/yellowpages_scraper.py:237-290 | the detail page changes only the detail keys and leaves a score in [50, 100] |
| YellowPages.ReadServices | scrapers/yellowpages_scraper.py:246-253 | the services steps give the merged category |
| YellowPages.ReadContacts | scrapers/yellowpages_scraper.py:256-266 | the contacts loop gives the contact fields |
| YellowPages.ReadAbout | scrapers/yellowpages_scraper.py:269-287 | the about loop gives the about fields |
| YellowPages.ExtractBusinessDetails | scrapers/yellowpages_scraper.py:237-293 | the in-place steps give the enriched record |
| YellowPages.FirstDetailPageSpec | scrapers/yellowpages_scraper.py:209-229 | the page opened is that of the first result with a similar name whose page loads; none iff no result qualifies |
| YellowPages.DetailsNeedNameAndCity | scrapers/yellowpages_scraper.py:185-186 | without a name or a city the record comes back unchanged |
| YellowPages.DetailsKeepOtherFields | scrapers/yellowpages_scraper.py:183-235 | the details change only the detail keys, and a changed record has a score in [50, 100] |
| YellowPages.GetBusinessDetails | scrapers/yellowpages_scraper.py:183-235 | the result loop gives the specification's details |
| LeadFinder.SizeBonus | ai/lead_finder.py:466-473 | the size bonus is 0, 5, 10 or 20, and 20 whenever "large" occurs |
| LeadFinder.AgeBonus | ai/lead_finder.py:476-493 | an integer year gives the age band; any other truthy value 15 exactly when its text has "old" or "aging"; none gives 0 |
| LeadFinder.SectorBonus | ai/lead_finder.py:496-506 | the sector adds 15 at most once, exactly when a high-energy sector occurs |
| LeadFinder.OpportunityBonus | ai/lead_finder.py:509-516 | the opportunity bonus lies in [0, 15], 0 without an analysis |
| LeadFinder.RoleBonus | ai/lead_finder.py:519-525 | the title adds 10 at most once, exactly when a decision-maker role occurs |
| LeadFinder.AIScore | ai/lead_finder.py:461-528 | the AI-lead score lies in [50, 100] |
| LeadFinder.CalculateLeadScore | ai/lead_finder.py:461-528 | the method's steps give exactly the AI-lead score |
| LeadFinder.OpportunityKeywordsDistinct | ai/lead_finder.py:512-513 | the opportunity keyword list has no repeats |
| LeadFinder.OpportunityBonusCountsDistinct | ai/lead_finder.py:509-516 | the opportunity bonus is 3 per distinct keyword in the analysis, capped at 15 |
| LeadFinder.Scored | ai/lead_finder.py:114-115 | a scored record has a lead_score in [50, 100] |
| LeadFinder.ScoreRecord | ai/lead_finder.py:114-115 | the assignment gives the scored record |
| LeadFinder.ObjectPrefix | ai/lead_finder.py:100-121 | the loop gets through exactly the lead objects before the first non-object |
| LeadFinder.JsonLeads | ai/lead_finder.py:99-118 | one lead per lead object |
| LeadFinder.MapJsonLeads | ai/lead_finder.py:99-118 | the mapping loop gives the scored leads in order |
| LeadFinder.InsertLeads | ai/lead_finder.py:136-137 | the loop inserts the leads in order |
| LeadFinder.LeadsFromJson | ai/lead_finder.py:98-126 | the leads before the first non-object are inserted; a complete list is returned and cached, an interrupted one returns nothing and caches nothing |
| LeadFinder.LeadsFromText | ai/lead_finder.py:132-142 | the text leads are inserted in order and cached |
| LeadFinder.JsonLeadMapping | ai/lead_finder.py:101-112 | size gives building_size, reason gives description and ai_analysis, approach gives notes; city and state come from the search; the source is "AI Generated" |
| LeadFinder.JsonLeadsAt | ai/lead_finder.py:100-118 | lead i is lead object i, mapped and scored |
| LeadFinder.JsonLeadsShape | ai/lead_finder.py:101-118 | every JSON lead has the search's city and state, the source, the reason as analysis and a score in [50, 100] |
| LeadFinder.ResearchRecordMapping | ai/lead_finder.py:218-232 | the researched record keeps the answer's name (else the asked-for one), the search's city and state, approach as notes and energy_needs as the analysis |
| LeadFinder.PartialResearchRecordMapping | ai/lead_finder.py:253-260 | the partial record keeps the asked-for name and the first 500 characters of the reply, with source "AI Researched (partial)" |
| LeadFinder.CompleteResearch | ai/lead_finder.py:203-275 | the record is scored, inserted, given a truthy id and cached; a JSON answer that is no object changes nothing |
| LeadFinder.NameEnd | ai/lead_finder.py:413 | the name run stops at the first ':' or newline |
| LeadFinder.NameCapture | ai/lead_finder.py:413 | a captured name is a non-empty prefix free of ':' and newline |
| LeadFinder.SectionRecord | ai/lead_finder.py:421-452 | a section record has the name, the search's city and state, the source and the stripped section as description |
| LeadFinder.SectionLead | ai/lead_finder.py:408-457 | every text lead has a name of 3 or more characters other than "business name" and "company", the search's city and state, and the source |
| LeadFinder.TextLeads | ai/lead_finder.py:408-459 | at most one lead per section, each of that shape |
| LeadFinder.ExtractLeadsFromText | ai/lead_finder.py:398-459 | the section loop gives the text leads |
| LeadFinder.PlainNameSectionYieldsLead | ai/lead_finder.py:409-427 | a section that is a plain name of 3 or more characters yields a lead with that name |
| Analyzer.Half | ai/analyzer.py:86 | `int(n / 2)` truncates toward zero |
| Analyzer.BlendBetween | ai/analyzer.py:81-86 | the blend lies between the two scores; for a non-negative original it is the floor of the mean |
| Analyzer.BlendUnclamped | ai/analyzer.py:81-86 | nothing clamps the blend: 100 and 200 give 150 |
| Analyzer.DisabledUnchanged | ai/analyzer.py:25-26 | with AI disabled the record comes back unchanged and the cache is untouched |
| Analyzer.CacheHitMerge | ai/analyzer.py:33-45 | a cached dict overwrites exactly its own keys; a cached string sets only ai_analysis; neither writes the cache |
| Analyzer.FreshAnalysis | ai/analyzer.py:78-92 | without a score only ai_analysis is set; with one, lead_score becomes the blend with the old score (50 when absent); the cached value holds the analysis and the score |
| Analyzer.AnalysisKeepsFields | ai/analyzer.py:33-98 | no branch removes a key, and only a cached dict touches keys other than the analysis and the score |
| Analyzer.StepCacheScope | ai/analyzer.py:30-92 | one analysis writes at most the cache entry under the record's own key |
| Analyzer.AnalyzeAgain | ai/analyzer.py:30-92 | analysing the returned record again before expiry reads the cache and gives the same record (a missing score now present as None) |
| Analyzer.StoredOutcome | ai/analyzer.py:86-92 | a fresh analysis caches its own text and score under an unchanged key |
| Analyzer.OverlayCached | ai/analyzer.py:37-41 | the cached result laid over its record changes at most a missing score into None |
| Analyzer.BatchSpec | ai/analyzer.py:100-127 | one record per input, in order, each analysed against the cache its predecessors left; disabled input comes back unchanged |
| Analyzer.EmailAgain | ai/analyzer.py:134-185 | a second request before expiry returns the first e-mail, when its text is not JSON |
| Analyzer.EmailBatchSpec | ai/analyzer.py:191-214 | one e-mail per company, in order; with AI disabled each is "AI features are disabled" and the cache is untouched |
| Analyzer.AIAnalyzer.Overlay | ai/analyzer.py:39-40 | the key loop lays the cached dict over the record |
| Analyzer.AIAnalyzer.AnalyzeCompany | ai/analyzer.py:23-98 | the method's result and cache are the analysis step |
| Analyzer.AIAnalyzer.AnalyzeCompaniesBatch | ai/analyzer.py:100-127 | the loop's results and cache are the batch fold |
| Analyzer.AIAnalyzer.GenerateOutreachEmail | ai/analyzer.py:129-189 | the method's e-mail and cache are the e-mail step |
| Analyzer.AIAnalyzer.GenerateOutreachEmailsBatch | ai/analyzer.py:191-214 | the loop's e-mails and cache are the e-mail batch fold |
| Store.Database.constructor | database.py:17-41 | a fresh database has every table empty |
| Store.MaxId | database.py:68-76 | the largest id bounds every row's id |
| Store.FindByKey | database.py:60-62 | the lookup finds the first row matching name and city, or reports that none does |
| Store.FindById | database.py:91 | the lookup finds a row with that id, or reports that none has it |
| Store.Where | database.py:109-132 | a row is kept iff it is a table row meeting every condition |
| Store.WhereCounts | database.py:109-132 | each matching row is kept as many times as the table holds it, and no other row is kept |
| Store.WhereSize | database.py:109-132 | the WHERE clause keeps one row per matching position of the table |
| Store.MatchingIndicesMeanFilters | database.py:109-132 | the positions meeting the built conditions are the positions satisfying every recognised filter |
| Store.Dicts | database.py:138 | one dict per row, in order |
| Store.Database.InsertCompany | database.py:54-79 | the insert returns an existing row's id or adds one row, and keeps ids unique |
| Store.Database.UpdateCompany | database.py:81-98 | true iff the update applies; then the table is the updated one, otherwise unchanged |
| Store.Database.GetCompanies | database.py:100-141 | the method returns the query result |
| Store.Database.CountCompanies | database.py:143-176 | the method returns the count |
| Store.Database.RecordSearch | database.py:191-202 | one log row is appended, with the next id |
| Store.Database.RecordExport | database.py:178-189 | one log row is appended, with the next id |
| Store.Database.CacheSet | database.py:243-263 | true iff caching is on; the cache is the stored one |
| Store.Database.CacheGet | database.py:265-295 | the lookup of the key at that time |
| Store.Database.CacheClear | database.py:297-318 | true iff caching is on; the cache is the cleared one |
| Store.WhereClauses | database.py:109-132 | the filter loop builds one condition per recognised entry |
| Store.NewIdIsFresh | database.py:68-76 | the id an insert assigns is held by no existing row |
| Store.InsertExistingKey | database.py:59-65 | a record whose (name, city) matches a row returns a matching row's id and writes nothing |
| Store.InsertNewKey | database.py:67-76 | a record matching no row adds exactly one row, after the others, with its values and a fresh id |
| Store.NullKeyAlwaysInserted | database.py:60-65 | a record without name or city matches no row and is always inserted |
| Store.SecondInsertFindsFirst | database.py:54-76 | inserting the same record again returns the first id and writes nothing |
| Store.UpdateKeepsValid | database.py:81-95 | an update keeps ids unique and every row's columns |
| Store.UpdateOverwritesListedColumns | database.py:81-95 | the update succeeds iff a row has that id, and overwrites exactly its listed columns |
| Store.WhereClausesMeanFilters | database.py:109-132 | a row meets the built conditions iff it satisfies every recognised filter |
| Store.SortRowsSortsAndPermutes | database.py:134 | ORDER BY returns every row once, by lead_score then scraped_at, both descending |
| Store.InsertSortedSorts | database.py:134 | inserting a row into a sorted table keeps it sorted |
| Store.InsertSortedPermutes | database.py:134 | inserting a row adds exactly that row |
| Store.BeforeTotal | database.py:134 | any two rows are ordered one way or the other |
| Store.BeforeTransitive | database.py:134 | the row order is transitive |
| Store.QueryResultProperties | database.py:109-138 | at most `limit` rows, each a table row meeting every recognised filter |
| Store.QueryResultComplete | database.py:100-141 | without LIMIT and OFFSET the result is exactly the matching rows: every matching row's dict is returned, one per matching row; an unbindable filter gives nothing |
| Store.SortRowsMembers | database.py:134 | ORDER BY returns only rows it was given |
| Store.WindowMembers | database.py:134-135 | LIMIT/OFFSET keeps at most `limit` rows, all from the input |
| Store.WindowKeepsOrder | database.py:134-135 | a window of a sorted table is sorted |
| Store.QueryResultOrdered | database.py:109-138 | the rows come in ORDER BY order |
| Store.IgnoredFiltersChangeNothing | database.py:111-129 | unrecognised filter keys change nothing |
| Store.CountIsUnlimitedQuery | database.py:143-173 | the count ignores `id` and `name` and counts what an unlimited query returns |
| Store.CountIsMatchingRows | database.py:143-176 | the count is the number of table rows satisfying every filter count_companies recognises, 0 when one cannot be bound |
| Store.CacheRoundTrip | database.py:252-291 | a get before expiry returns the value set: a non-string through JSON unchanged, a string parsed when it is JSON and raw otherwise |
| Store.CacheMisses | database.py:265-283 | the get misses when caching is off, the key is unset or the entry is expired, and decodes the stored text otherwise |
| Store.CacheSetReplaces | database.py:255-257 | a second set on a key replaces the first |
| Store.CacheClearScope | database.py:297-312 | clearing a key removes only it; no key or an empty key removes everything; disabled it changes nothing |
| Store.FoldNAt | scrapers/base_scraper.py:45-74 | output i of a cache-threading loop is step i run on the cache the first i steps left |
| Store.FoldNKeepsCache | scrapers/base_scraper.py:45-74 | steps that never write the cache leave it as it was |
| Files.PathJoin | exporters/csv_exporter.py:34 | the joined path ends with the name; an absolute name wins; otherwise it starts with the directory |
| CsvExporter.RowDictCells | exporters/csv_exporter.py:49 | column j holds what the row dict maps fieldname j to; the dict has only the fieldnames as keys |
| CsvExporter.RowCells | exporters/csv_exporter.py:37-49 | every row has the 17 fields in order, the record's text where present and "" where missing |
| CsvExporter.RowIgnoresExtraKeys | exporters/csv_exporter.py:45-49 | keys outside the fieldnames never reach the file |
| CsvExporter.CsvRows | exporters/csv_exporter.py:47-50 | one row per company |
| CsvExporter.CsvDocumentLayout | exporters/csv_exporter.py:46-50 | the header, then row i+1 for company i |
| CsvExporter.CsvRowsSnoc | exporters/csv_exporter.py:47-50 | writing row i after the first i rows gives the first i+1 |
| CsvExporter.CSVExporter.WriteRows | exporters/csv_exporter.py:46-50 | the write loop writes the document |
| CsvExporter.CSVExporter.Export | exporters/csv_exporter.py:22-59 | a path iff there are companies and the file is writable; then the document is written and one "csv" export is logged; otherwise nothing |
| CsvExporter.NameShown | exporters/csv_exporter.py:78 | a missing name shows "Unknown Company", a string name itself, a None name "None" |
| CsvExporter.BlockTexts | exporters/csv_exporter.py:77-81 | one block per company |
| CsvExporter.ConcatInOrder | exporters/csv_exporter.py:77-81 | part i is written right after the parts before it |
| CsvExporter.BlocksInOrder | exporters/csv_exporter.py:77-81 | block i, numbered i+1, comes right after the blocks of the companies before it |
| CsvExporter.BlocksSnoc | exporters/csv_exporter.py:77-81 | writing block i after the first i blocks gives the first i+1 |
| CsvExporter.CSVExporter.WriteBlock | exporters/csv_exporter.py:78-81 | the four writes append one block |
| CsvExporter.CSVExporter.ExportOutreachEmails | exporters/csv_exporter.py:61-90 | a path iff both lists are non-empty, of equal length, and the file is writable; then the blocks are written and one "outreach_emails" export is logged |
| HubSpotExporter.SplitName | exporters/hubspot_exporter.py:53-55 | a name with a space splits at its first space and joins back with one space; one without is all first name |
| HubSpotExporter.HubSpotColumns | exporters/hubspot_exporter.py:37-41 | every record has the 14 columns in order; each column other than the name columns holds its source key's value, "" when missing |
| HubSpotExporter.ContactNameColumns | exporters/hubspot_exporter.py:50-55 | no contact leaves both name columns empty; a contact with a space splits at the first one; one without is all first name |
| HubSpotExporter.FailureStops | exporters/hubspot_exporter.py:48-75 | once a record raises, the later companies write nothing |
| HubSpotExporter.HubSpotDocumentRows | exporters/hubspot_exporter.py:46-75 | the export completes iff every company has a record; then it writes the header and row i+1 for company i |
| HubSpotExporter.HubSpotCsvExporter.Export | exporters/hubspot_exporter.py:22-84 | a path iff there are companies, the file is writable and every record builds; then one "hubspot_csv" export is logged |

## Left out

- Browser automation, page waits, clicks, scrolling and sleeps: page contents are inputs (`Listing`, `Panel`, `DetailPage` values and the lists of result rounds and pages).
- The OpenAI calls and prompt texts: a reply is an input. The score is what the `score:`/`rating:` regular expression extracts, and an e-mail is a string or a failure.
- Regular expressions and JSON extraction (the locality and address regexes, the JSON array and object extraction, the section split of reply text): their results are inputs, and only the filtering and field mapping after them is modelled.
- JSON encoding in the cache: an abstract codec, required to round-trip non-string values when the theorems need it.
- SQLite specifics: the SQL text, connection handling, `init_db`, `sys.exit`, and the case folding of LIKE (LIKE is a case-sensitive substring test). A value sqlite cannot bind, or a SET list naming an unknown column, is the `sqlite3.Error` branch.
- `get_stats` of database.py: read-only statistics over the tables, not part of this model.
- Dict insertion order and aliasing: records are maps with value semantics, so an in-place update is a new record returned to the caller.
- Wall-clock time: clock readings are parameters (seconds for the cache, a stamp string for CURRENT_TIMESTAMP, the current year for the scorers). The details batch of the scrapers takes two readings per company, one at `cache_get` and one at `cache_set`, so an entry can expire partway through a batch.
- `str()` of lists and dicts is a placeholder text; `str()` of None, bools, ints and strings is exact.
- `.lower()` is ASCII lower-casing, and `.strip()` uses Python's whitespace set.
- File I/O, `os.makedirs` and timestamps in file names: the timestamp text is a parameter, and whether the file can be opened is a `writable` flag. A file that cannot be opened is modelled as one that gets nothing. In the HubSpot export, a record that raises ends the export with the rows written before it.
- CSV quoting and line endings of the csv module: a file is the list of rows of cells it receives.
- Outreach e-mails are taken as strings in `export_outreach_emails`.
- The CLI in leadfinder.py, console rendering, config.py and logging.
- BaseScraper.DetailBatchResultCases: it states the three cases as a disjunction and does not say which one applies. FetchedDetailsAreReused and DetailBatchWithoutCache pin down the cache-hit and no-cache cases.
- CompanyModel.FromDict: the caller's dict being left unmodified holds by value semantics and is not stated separately.
- Analyzer.Batch and Analyzer.EmailBatch: one clock reading per company serves both its `cache_get` and its `cache_set`, so the few seconds of the API call between them are not modelled.
- Analyzer.Half and Analyzer.Blend: `int((orig + ai) / 2)` is taken as exact integer halving truncated toward zero. The Python float division is not modelled, so sums beyond 2^53 round differently in Python and a sum too large for a float (more than 308 digits) raises OverflowError there. JSON floats in the model's answers (such as `year_built: 1985.0`) have no `Value` and are not modelled.
- Store.Bind and Store.SqlCmp: SQLite column affinity is not modelled. A value is stored as given, so text such as "40" in the INTEGER column lead_score stays text (and ranks above every integer in comparisons and ORDER BY), and an integer written into a TEXT column comes back as an integer rather than as its text.
- Values.ParseInt: it accepts surrounding white space, an optional sign and ASCII digits only. Python's `int()` also accepts underscores between digits ("1_000") and non-ASCII decimal digits, which the model rejects, and so scores and stamps `year_built` differently on those texts.

## Findings

| source | as written | input that shows it | evidently intended | confidence | as-written member | corrected member |
|---|---|---|---|---|---|---|
| scrapers/googlemaps_scraper.py:68-70 | each round resumes at `result_elements[results_found:]`, but `results_found` counts only the companies kept, not the results clicked | rounds `[[fail, Acme], [fail, Acme, fail]]`: Acme is clicked in both rounds and kept twice | resume after the results already clicked, so each listed result is visited once | not executed | GoogleMaps.RescannedResultKeptTwice | GoogleMaps.FreshRoundsKeepFirst |
