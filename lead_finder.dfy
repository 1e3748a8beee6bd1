/**
 * The deterministic part of ai/lead_finder.py: the AI-lead score, the
 * mapping of a model-suggested lead (a parsed JSON object) to a company
 * record, the researched and the partial-research records, and the filter
 * that turns the sections of a free-text answer into leads.  The model's
 * answer arrives already parsed: as JSON values, or as text sections with
 * the regular expressions' captures.
 */
module LeadFinder {
  import opened Values
  import opened Scoring
  import opened Store

  // ================================================================ _calculate_lead_score

  const HighEnergySectors: seq<string> := [
    "manufacturing", "industrial", "factory", "warehouse", "hospital", "healthcare",
    "hotel", "lodging", "data center", "office building", "school", "university", "retail"
  ]

  const OpportunityKeywords: seq<string> := [
    "high energy", "inefficient", "outdated", "saving", "cost reduction",
    "upgrade", "retrofit", "improvement", "consumption", "bill", "expense"
  ]

  /** The decision-maker roles; each is already lower case, so `role.lower()` is the role. */
  const DecisionMakerRoles: seq<string> := ["owner", "ceo", "president", "director", "manager", "facility"]

  /** `str(company[field]).lower()` */
  function FieldText(company: Record, field: string): string {
    Lower(Show(Get(company, field, VNone)))
  }

  /** +20/+10/+5 for the first of "large", "medium", "small". */
  function SizeBonus(company: Record): (b: int)
    ensures b == 0 || b == 5 || b == 10 || b == 20
    ensures Truthy(Get(company, "building_size", VNone)) && Contains(FieldText(company, "building_size"), "large") ==> b == 20
  {
    if !Truthy(Get(company, "building_size", VNone)) then 0
    else
      var size := FieldText(company, "building_size");
      if Contains(size, "large") then 20
      else if Contains(size, "medium") then 10
      else if Contains(size, "small") then 5
      else 0
  }

  /**
   * The age bands for an integer `year_built`; for any other truthy value,
   * +15 when its text mentions "old" or "aging".
   */
  function AgeBonus(company: Record, currentYear: int): (b: int)
    ensures 0 <= b <= 20
    ensures var year := Get(company, "year_built", VNone);
      Truthy(year) && PyInt(year).Some? ==> b == AgeBand(currentYear - PyInt(year).value)
    ensures var year := Get(company, "year_built", VNone);
      Truthy(year) && PyInt(year).None? ==>
        (b == 15 <==> Contains(FieldText(company, "year_built"), "old") || Contains(FieldText(company, "year_built"), "aging"))
        && (b == 0 || b == 15)
    ensures !Truthy(Get(company, "year_built", VNone)) ==> b == 0
  {
    var year := Get(company, "year_built", VNone);
    if !Truthy(year) then 0
    else match PyInt(year)
      case Some(y) => AgeBand(currentYear - y)
      case None =>
        var text := FieldText(company, "year_built");
        if Contains(text, "old") || Contains(text, "aging") then 15 else 0
  }

  /** +15 once when a high-energy sector occurs in the category. */
  function SectorBonus(company: Record): (b: int)
    ensures b == 0 || b == 15
    ensures b == 15 <==> Truthy(Get(company, "category", VNone)) && AnyContained(HighEnergySectors, FieldText(company, "category"))
  {
    if Truthy(Get(company, "category", VNone)) && AnyContained(HighEnergySectors, FieldText(company, "category")) then 15 else 0
  }

  /** 3 per opportunity keyword in the analysis, at most 15. */
  function OpportunityBonus(company: Record): (b: int)
    ensures 0 <= b <= 15
    ensures !Truthy(Get(company, "ai_analysis", VNone)) ==> b == 0
  {
    if !Truthy(Get(company, "ai_analysis", VNone)) then 0
    else Min(3 * CountContained(OpportunityKeywords, FieldText(company, "ai_analysis")), 15)
  }

  /** +10 once when the contact title names a decision-maker role. */
  function RoleBonus(company: Record): (b: int)
    ensures b == 0 || b == 10
    ensures b == 10 <==> Truthy(Get(company, "contact_title", VNone))
                         && AnyContained(DecisionMakerRoles, Lower(Show(Get(company, "contact_title", VStr("")))))
  {
    if Truthy(Get(company, "contact_title", VNone))
       && AnyContained(DecisionMakerRoles, Lower(Show(Get(company, "contact_title", VStr(""))))) then 10
    else 0
  }

  /** The AI-lead score: base 50 plus the bonuses, capped at 100. */
  function AIScore(company: Record, currentYear: int): (s: int)
    ensures 50 <= s <= 100
  {
    Min(50 + SizeBonus(company) + AgeBonus(company, currentYear) + SectorBonus(company)
        + OpportunityBonus(company) + RoleBonus(company), 100)
  }

  /** `_calculate_lead_score(company)`, with its `score +=` steps and keyword loops. */
  method CalculateLeadScore(company: Record, currentYear: int) returns (score: int)
    ensures score == AIScore(company, currentYear)
  {
    score := 50;
    if Truthy(Get(company, "building_size", VNone)) {
      var size := FieldText(company, "building_size");
      if Contains(size, "large") {
        score := score + 20;
      } else if Contains(size, "medium") {
        score := score + 10;
      } else if Contains(size, "small") {
        score := score + 5;
      }
    }
    assert score == 50 + SizeBonus(company);
    var year := Get(company, "year_built", VNone);
    if Truthy(year) {
      var parsed := PyInt(year);
      if parsed.Some? {
        var age := currentYear - parsed.value;
        if age > 30 {
          score := score + 20;
        } else if age > 20 {
          score := score + 15;
        } else if age > 10 {
          score := score + 10;
        }
      } else {
        var yearText := FieldText(company, "year_built");
        if Contains(yearText, "old") || Contains(yearText, "aging") {
          score := score + 15;
        }
      }
    }
    assert score == 50 + SizeBonus(company) + AgeBonus(company, currentYear);
    if Truthy(Get(company, "category", VNone)) {
      var hit := FirstHit(HighEnergySectors, FieldText(company, "category"));
      if hit {
        score := score + 15;
      }
    }
    assert score == 50 + SizeBonus(company) + AgeBonus(company, currentYear) + SectorBonus(company);
    if Truthy(Get(company, "ai_analysis", VNone)) {
      var count := CountHits(OpportunityKeywords, FieldText(company, "ai_analysis"));
      score := score + Min(count * 3, 15);
    }
    assert score == 50 + SizeBonus(company) + AgeBonus(company, currentYear) + SectorBonus(company)
                    + OpportunityBonus(company);
    if Truthy(Get(company, "contact_title", VNone)) {
      var hit := FirstHit(DecisionMakerRoles, Lower(Show(Get(company, "contact_title", VStr("")))));
      if hit {
        score := score + 10;
      }
    }
    score := Min(score, 100);
  }

  lemma OpportunityKeywordsDistinct()
    ensures Distinct(OpportunityKeywords)
  {
  }

  /** The opportunity bonus is 3 per distinct keyword in the analysis, capped at 15. */
  lemma OpportunityBonusCountsDistinct(company: Record)
    requires Truthy(Get(company, "ai_analysis", VNone))
    ensures OpportunityBonus(company) == Min(3 * |Matched(OpportunityKeywords, FieldText(company, "ai_analysis"))|, 15)
  {
    OpportunityKeywordsDistinct();
    CountContainedIsDistinctMatches(OpportunityKeywords, FieldText(company, "ai_analysis"));
  }

  // ================================================================ leads from a JSON answer

  /** The company record for one lead object of the model's JSON array (ai/lead_finder.py:101-112). */
  function JsonLead(lead: Record, city: string, state: string): Record
  {
    DictOf(JsonLeadPairs(lead, city, state))
  }

  function JsonLeadPairs(lead: Record, city: string, state: string): seq<(string, Value)> {
    [
      ("name", Get(lead, "name", VStr(""))),
      ("category", Get(lead, "category", VStr(""))),
      ("building_size", Get(lead, "size", VStr(""))),
      ("city", VStr(city)),
      ("state", VStr(state)),
      ("contact_title", Get(lead, "contact_title", VStr(""))),
      ("description", Get(lead, "reason", VStr(""))),
      ("notes", Get(lead, "approach", VStr(""))),
      ("source", VStr("AI Generated")),
      ("ai_analysis", Get(lead, "reason", VStr("")))
    ]
  }

  /** A record with its AI-lead score added. */
  function Scored(company: Record, currentYear: int): (c: Record)
    ensures "lead_score" in c && c["lead_score"].VInt? && 50 <= c["lead_score"].i <= 100
  {
    company["lead_score" := VInt(AIScore(company, currentYear))]
  }

  /** `company['lead_score'] = self._calculate_lead_score(company)` */
  method ScoreRecord(company: Record, currentYear: int) returns (c: Record)
    ensures c == Scored(company, currentYear)
  {
    var score := CalculateLeadScore(company, currentYear);
    c := company["lead_score" := VInt(score)];
  }

  /** How many of the JSON items are objects before the first that is not. */
  function ObjectPrefix(items: seq<Value>): (n: nat)
    ensures n <= |items| && forall i :: 0 <= i < n ==> items[i].VDict?
    ensures n < |items| ==> !items[n].VDict?
  {
    if items == [] || !items[0].VDict? then 0
    else
      var rest := ObjectPrefix(items[1..]);
      assert forall i :: 1 <= i < 1 + rest ==> items[i] == items[1..][i - 1];
      1 + rest
  }

  /** The scored records of a run of lead objects, in order. */
  function JsonLeads(items: seq<Value>, city: string, state: string, currentYear: int): (r: seq<Record>)
    requires forall i :: 0 <= i < |items| ==> items[i].VDict?
    ensures |r| == |items|
    decreases |items|
  {
    if items == [] then []
    else JsonLeads(items[..|items| - 1], city, state, currentYear)
         + [Scored(JsonLead(items[|items| - 1].fields, city, state), currentYear)]
  }

  lemma JsonLeadsSnoc(items: seq<Value>, i: int, city: string, state: string, currentYear: int)
    requires 0 <= i < |items| && forall j :: 0 <= j < |items| ==> items[j].VDict?
    ensures JsonLeads(items[..i + 1], city, state, currentYear)
            == JsonLeads(items[..i], city, state, currentYear) + [Scored(JsonLead(items[i].fields, city, state), currentYear)]
  {
    assert items[..i + 1][..i] == items[..i];
  }

  /** The table and counter after inserting each record in turn. */
  function InsertAll(rows: seq<Row>, sequence: int, records: seq<Record>, stamp: string): (r: (seq<Row>, int))
    decreases |records|
  {
    if records == [] then (rows, sequence)
    else
      var before := InsertAll(rows, sequence, records[..|records| - 1], stamp);
      var out := InsertOutcome(before.0, before.1, records[|records| - 1], stamp);
      (out.rows, out.sequence)
  }

  lemma InsertAllSnoc(rows: seq<Row>, sequence: int, records: seq<Record>, record: Record, stamp: string)
    ensures var before := InsertAll(rows, sequence, records, stamp);
      var out := InsertOutcome(before.0, before.1, record, stamp);
      InsertAll(rows, sequence, records + [record], stamp) == (out.rows, out.sequence)
  {
    assert (records + [record])[..|records|] == records;
  }

  /** The cache key `f"ai_leads_{city}_{state}_{industry or 'all'}"`. */
  function LeadsCacheKey(city: string, state: string, industry: Option<string>): string {
    "ai_leads_" + city + "_" + state + "_" + (if industry.None? || industry.value == "" then "all" else industry.value)
  }

  /** The records as the JSON list handed to `cache_set`. */
  function AsValues(records: seq<Record>): seq<Value> {
    if records == [] then [] else AsValues(records[..|records| - 1]) + [VDict(records[|records| - 1])]
  }

  /** The mapping loop of the JSON branch over a run of lead objects. */
  method MapJsonLeads(items: seq<Value>, city: string, state: string, currentYear: int) returns (leads: seq<Record>)
    requires forall i :: 0 <= i < |items| ==> items[i].VDict?
    ensures leads == JsonLeads(items, city, state, currentYear)
  {
    leads := [];
    var i := 0;
    while i < |items|
      invariant 0 <= i <= |items|
      invariant leads == JsonLeads(items[..i], city, state, currentYear)
    {
      var company := ScoreRecord(JsonLead(items[i].fields, city, state), currentYear);
      JsonLeadsSnoc(items, i, city, state, currentYear);
      leads := leads + [company];
      i := i + 1;
    }
    assert items[..|items|] == items;
  }

  /** `for company in leads: self.db.insert_company(company)` */
  method InsertLeads(db: Database, leads: seq<Record>, stamp: string)
    requires db.Valid()
    modifies db`companies, db`sequence
    ensures db.Valid()
    ensures (db.companies, db.sequence) == InsertAll(old(db.companies), old(db.sequence), leads, stamp)
  {
    var i := 0;
    while i < |leads|
      invariant 0 <= i <= |leads| && db.Valid()
      invariant (db.companies, db.sequence) == InsertAll(old(db.companies), old(db.sequence), leads[..i], stamp)
    {
      InsertAllSnoc(old(db.companies), old(db.sequence), leads[..i], leads[i], stamp);
      assert leads[..i + 1] == leads[..i] + [leads[i]];
      var _ := db.InsertCompany(leads[i], stamp);
      i := i + 1;
    }
    assert leads[..|leads|] == leads;
  }

  /**
   * The JSON branch of `find_potential_leads`: each lead object is mapped,
   * scored, kept and inserted; the list is then cached.  A lead that is not an
   * object makes `.get` raise: the leads before it stay inserted, nothing is
   * cached, and the answer is [].
   */
  method LeadsFromJson(db: Database, items: seq<Value>, city: string, state: string, industry: Option<string>,
                       currentYear: int, stamp: string, now: int) returns (leads: seq<Record>)
    requires db.Valid()
    modifies db`companies, db`sequence, db`cache
    ensures db.Valid()
    ensures var n := ObjectPrefix(items);
      (db.companies, db.sequence) == InsertAll(old(db.companies), old(db.sequence), JsonLeads(items[..n], city, state, currentYear), stamp)
    ensures ObjectPrefix(items) == |items| ==>
      leads == JsonLeads(items, city, state, currentYear)
      && db.cache == CacheStore(old(db.cache), LeadsCacheKey(city, state, industry), VList(AsValues(leads)), now, db.cacheEnabled, db.codec)
    ensures ObjectPrefix(items) < |items| ==> leads == [] && db.cache == old(db.cache)
  {
    var n := ObjectPrefix(items);
    var mapped := MapJsonLeads(items[..n], city, state, currentYear);
    InsertLeads(db, mapped, stamp);
    if n < |items| {
      return [];
    }
    assert items[..n] == items;
    leads := mapped;
    var _ := db.CacheSet(LeadsCacheKey(city, state, industry), VList(AsValues(leads)), now);
  }

  /**
   * The text branch of `find_potential_leads`: the leads the sections yield
   * are inserted in order and cached.
   */
  method LeadsFromText(db: Database, sections: seq<Section>, city: string, state: string, industry: Option<string>,
                       currentYear: int, stamp: string, now: int) returns (leads: seq<Record>)
    requires db.Valid()
    modifies db`companies, db`sequence, db`cache
    ensures db.Valid()
    ensures leads == TextLeads(sections, city, state, currentYear)
    ensures (db.companies, db.sequence) == InsertAll(old(db.companies), old(db.sequence), leads, stamp)
    ensures db.cache == CacheStore(old(db.cache), LeadsCacheKey(city, state, industry), VList(AsValues(leads)), now, db.cacheEnabled, db.codec)
  {
    leads := ExtractLeadsFromText(sections, city, state, currentYear);
    InsertLeads(db, leads, stamp);
    var _ := db.CacheSet(LeadsCacheKey(city, state, industry), VList(AsValues(leads)), now);
  }

  /**
   * The mapping of one lead object: `size` becomes `building_size`, `reason`
   * both `description` and `ai_analysis`, `approach` becomes `notes`; city,
   * state and source come from the search.
   */
  lemma JsonLeadMapping(lead: Record, city: string, state: string)
    ensures var c := JsonLead(lead, city, state);
      && "name" in c && "category" in c && "building_size" in c && "contact_title" in c
      && "description" in c && "ai_analysis" in c && "notes" in c && "city" in c && "state" in c && "source" in c
      && c["name"] == Get(lead, "name", VStr("")) && c["category"] == Get(lead, "category", VStr(""))
      && c["building_size"] == Get(lead, "size", VStr("")) && c["contact_title"] == Get(lead, "contact_title", VStr(""))
      && c["description"] == c["ai_analysis"] == Get(lead, "reason", VStr(""))
      && c["notes"] == Get(lead, "approach", VStr(""))
      && c["city"] == VStr(city) && c["state"] == VStr(state) && c["source"] == VStr("AI Generated")
  {
    var pairs := JsonLeadPairs(lead, city, state);
    assert DistinctKeys(pairs);
    DictOfDistinct(pairs);
    assert pairs[0].0 == "name" && pairs[1].0 == "category" && pairs[2].0 == "building_size";
    assert pairs[3].0 == "city" && pairs[4].0 == "state" && pairs[5].0 == "contact_title";
    assert pairs[6].0 == "description" && pairs[7].0 == "notes" && pairs[8].0 == "source" && pairs[9].0 == "ai_analysis";
  }

  /** The i-th lead of the JSON branch is the i-th lead object, mapped and scored. */
  lemma {:induction false} JsonLeadsAt(items: seq<Value>, city: string, state: string, currentYear: int, i: int)
    requires forall j :: 0 <= j < |items| ==> items[j].VDict?
    requires 0 <= i < |items|
    ensures JsonLeads(items, city, state, currentYear)[i] == Scored(JsonLead(items[i].fields, city, state), currentYear)
    decreases |items|
  {
    var init := items[..|items| - 1];
    var last := Scored(JsonLead(items[|items| - 1].fields, city, state), currentYear);
    assert JsonLeads(items, city, state, currentYear) == JsonLeads(init, city, state, currentYear) + [last];
    if i < |init| {
      JsonLeadsAt(init, city, state, currentYear, i);
      assert init[i] == items[i];
    }
  }

  /** Every lead of the JSON branch carries the search's city and state, its source and a score in [50, 100]. */
  lemma JsonLeadsShape(items: seq<Value>, city: string, state: string, currentYear: int, i: int)
    requires forall j :: 0 <= j < |items| ==> items[j].VDict?
    requires 0 <= i < |items|
    ensures var c := JsonLeads(items, city, state, currentYear)[i];
      && "city" in c && c["city"] == VStr(city) && "state" in c && c["state"] == VStr(state)
      && "source" in c && c["source"] == VStr("AI Generated")
      && "description" in c && "ai_analysis" in c
      && c["description"] == c["ai_analysis"] == Get(items[i].fields, "reason", VStr(""))
      && "lead_score" in c && c["lead_score"].VInt? && 50 <= c["lead_score"].i <= 100
  {
    JsonLeadsAt(items, city, state, currentYear, i);
    JsonLeadMapping(items[i].fields, city, state);
  }

  // ================================================================ research_company

  /** The record for a researched company (ai/lead_finder.py:218-232). */
  function ResearchRecord(data: Record, companyName: string, city: string, state: string): Record {
    DictOf(ResearchPairs(data, companyName, city, state))
  }

  function ResearchPairs(data: Record, companyName: string, city: string, state: string): seq<(string, Value)> {
    [
      ("name", Get(data, "name", VStr(companyName))),
      ("address", Get(data, "address", VStr(""))),
      ("city", VStr(city)),
      ("state", VStr(state)),
      ("category", Get(data, "category", VStr(""))),
      ("building_size", Get(data, "building_size", VStr(""))),
      ("year_built", Get(data, "year_built", VStr(""))),
      ("description", Get(data, "description", VStr(""))),
      ("contact_person", Get(data, "contact_person", VStr(""))),
      ("contact_title", Get(data, "contact_title", VStr(""))),
      ("notes", Get(data, "approach", VStr(""))),
      ("source", VStr("AI Researched")),
      ("ai_analysis", Get(data, "energy_needs", VStr("")))
    ]
  }

  /**
   * The researched record keeps the answer's name (the asked-for name when it
   * has none), the search's city and state, `approach` as notes and
   * `energy_needs` as the analysis.
   */
  lemma ResearchRecordMapping(data: Record, companyName: string, city: string, state: string)
    ensures var c := ResearchRecord(data, companyName, city, state);
      && "name" in c && c["name"] == Get(data, "name", VStr(companyName))
      && "city" in c && c["city"] == VStr(city) && "state" in c && c["state"] == VStr(state)
      && "source" in c && c["source"] == VStr("AI Researched")
      && "notes" in c && c["notes"] == Get(data, "approach", VStr(""))
      && "ai_analysis" in c && c["ai_analysis"] == Get(data, "energy_needs", VStr(""))
      && "year_built" in c && c["year_built"] == Get(data, "year_built", VStr(""))
  {
    var pairs := ResearchPairs(data, companyName, city, state);
    assert DistinctKeys(pairs);
    DictOfDistinct(pairs);
    assert pairs[0].0 == "name" && pairs[2].0 == "city" && pairs[3].0 == "state" && pairs[6].0 == "year_built";
    assert pairs[10].0 == "notes" && pairs[11].0 == "source" && pairs[12].0 == "ai_analysis";
  }

  /** The record kept when the research answer is not JSON (ai/lead_finder.py:253-260). */
  function PartialResearchRecord(companyName: string, city: string, state: string, response: string): Record {
    DictOf(PartialResearchPairs(companyName, city, state, response))
  }

  function PartialResearchPairs(companyName: string, city: string, state: string, response: string): seq<(string, Value)> {
    [
      ("name", VStr(companyName)),
      ("city", VStr(city)),
      ("state", VStr(state)),
      ("description", VStr(Take(response, 500))),
      ("source", VStr("AI Researched (partial)")),
      ("notes", VStr("Error parsing AI response"))
    ]
  }

  /** The partial record keeps the asked-for name and the first 500 characters of the answer. */
  lemma PartialResearchRecordMapping(companyName: string, city: string, state: string, response: string)
    ensures var c := PartialResearchRecord(companyName, city, state, response);
      && "description" in c && c["description"].VStr?
      && |c["description"].s| == Min(500, |response|) && c["description"].s <= response
      && "name" in c && c["name"] == VStr(companyName)
      && "source" in c && c["source"] == VStr("AI Researched (partial)")
      && "notes" in c && c["notes"] == VStr("Error parsing AI response")
  {
    var pairs := PartialResearchPairs(companyName, city, state, response);
    assert DistinctKeys(pairs);
    DictOfDistinct(pairs);
    assert pairs[0].0 == "name" && pairs[3].0 == "description" && pairs[4].0 == "source" && pairs[5].0 == "notes";
  }

  /** The record `research_company` returns when the answer is JSON but not an object. */
  function FailedResearchRecord(companyName: string, city: string, state: string): Record {
    map["name" := VStr(companyName), "city" := VStr(city), "state" := VStr(state), "source" := VStr("AI Research Failed")]
  }

  function ResearchCacheKey(companyName: string, city: string, state: string): string {
    "company_research_" + companyName + "_" + city + "_" + state
  }

  /** The record built from the answer: the mapped object, or the partial record when it is not JSON. */
  function ResearchDraft(parsed: Option<Value>, response: string, companyName: string, city: string, state: string): Record
    requires parsed.None? || parsed.value.VDict?
  {
    if parsed.None? then PartialResearchRecord(companyName, city, state, response)
    else ResearchRecord(parsed.value.fields, companyName, city, state)
  }

  /** `if company_id: company_data['id'] = company_id` */
  function WithId(record: Record, id: Option<int>): Record {
    if id.Some? && id.value != 0 then record["id" := VInt(id.value)] else record
  }

  /**
   * The part of `research_company` after the model has answered: `parsed` is
   * the decoded JSON (None where it is not JSON).  The record is scored and
   * inserted, given its id when the insert returns a truthy one, and cached.
   */
  method CompleteResearch(db: Database, parsed: Option<Value>, response: string, companyName: string,
                          city: string, state: string, currentYear: int, stamp: string, now: int)
    returns (company: Record)
    requires db.Valid()
    modifies db`companies, db`sequence, db`cache
    ensures db.Valid()
    ensures parsed.Some? && !parsed.value.VDict? ==>
      company == FailedResearchRecord(companyName, city, state)
      && db.companies == old(db.companies) && db.sequence == old(db.sequence) && db.cache == old(db.cache)
    ensures parsed.None? || parsed.value.VDict? ==>
      var record := Scored(ResearchDraft(parsed, response, companyName, city, state), currentYear);
      var out := InsertOutcome(old(db.companies), old(db.sequence), record, stamp);
      && db.companies == out.rows && db.sequence == out.sequence
      && company == WithId(record, out.id)
      && db.cache == CacheStore(old(db.cache), ResearchCacheKey(companyName, city, state), VDict(company), now,
                                db.cacheEnabled, db.codec)
  {
    if parsed.Some? && !parsed.value.VDict? {
      return FailedResearchRecord(companyName, city, state);
    }
    company := ScoreRecord(ResearchDraft(parsed, response, companyName, city, state), currentYear);
    var id := db.InsertCompany(company, stamp);
    company := WithId(company, id);
    var _ := db.CacheSet(ResearchCacheKey(companyName, city, state), VDict(company), now);
  }

  // ================================================================ leads from a free-text answer

  /**
   * One piece of the answer split at numbered items and blank lines, with
   * what the field regular expressions captured in it (None where one did not
   * match).
   */
  datatype Section = Section(
    text: string,
    category: Option<string>,
    size: Option<string>,
    reason: Option<string>,
    contact: Option<string>,
    approach: Option<string>)

  /** The end of the run of characters other than ':' and '\n' that starts at `from`. */
  function NameEnd(t: string, from: nat): (e: nat)
    requires from <= |t|
    ensures from <= e <= |t|
    ensures forall i :: from <= i < e ==> t[i] != ':' && t[i] != '\n'
    ensures e < |t| ==> t[e] == ':' || t[e] == '\n'
    decreases |t| - from
  {
    if from == |t| || t[from] == ':' || t[from] == '\n' then from else NameEnd(t, from + 1)
  }

  /**
   * `re.search(r'^([^:\n]+)(?::|$)', t).group(1)`: the leading run of
   * characters other than ':' and newline, when it is non-empty and followed
   * by ':', the end, or a final newline.
   */
  function NameCapture(t: string): (r: Option<string>)
    ensures r.Some? ==> r.value != "" && r.value <= t
    ensures r.Some? ==> forall i :: 0 <= i < |r.value| ==> r.value[i] != ':' && r.value[i] != '\n'
  {
    var e := NameEnd(t, 0);
    if e == 0 then None
    else if e == |t| || t[e] == ':' || e == |t| - 1 then Some(t[..e])
    else None
  }

  /** The names that do not look like a business name. */
  predicate Placeholder(name: string) {
    |name| < 3 || Lower(name) == "business name" || Lower(name) == "company"
  }

  /** What every text lead carries: a real name, the search's city and state, its source and a score. */
  predicate TextLeadShape(r: Record, city: string, state: string) {
    && "name" in r && r["name"].VStr? && !Placeholder(r["name"].s)
    && "city" in r && r["city"] == VStr(city) && "state" in r && r["state"] == VStr(state)
    && "source" in r && r["source"] == VStr("AI Generated")
    && "lead_score" in r && r["lead_score"].VInt? && 50 <= r["lead_score"].i <= 100
  }

  /** The record a section gives, with every captured field stripped. */
  function SectionRecord(sec: Section, name: string, city: string, state: string): (r: Record)
    ensures "name" in r && r["name"] == VStr(name) && "source" in r && r["source"] == VStr("AI Generated")
    ensures "city" in r && r["city"] == VStr(city) && "state" in r && r["state"] == VStr(state)
    ensures "description" in r && r["description"] == VStr(Strip(sec.text))
  {
    var base := map[
      "name" := VStr(name), "city" := VStr(city), "state" := VStr(state),
      "source" := VStr("AI Generated"), "description" := VStr(Strip(sec.text))];
    var withCategory := if sec.category.Some? then base["category" := VStr(Strip(sec.category.value))] else base;
    var withSize := if sec.size.Some? then withCategory["building_size" := VStr(Strip(sec.size.value))] else withCategory;
    var withReason := if sec.reason.Some? then withSize["ai_analysis" := VStr(Strip(sec.reason.value))] else withSize;
    var withContact := if sec.contact.Some? then withReason["contact_title" := VStr(Strip(sec.contact.value))] else withReason;
    if sec.approach.Some? then withContact["notes" := VStr(Strip(sec.approach.value))] else withContact
  }

  /** The lead one section yields, if any. */
  function SectionLead(sec: Section, city: string, state: string, currentYear: int): (r: Option<Record>)
    ensures r.Some? ==> TextLeadShape(r.value, city, state)
  {
    var t := Strip(sec.text);
    if t == [] then None
    else match NameCapture(t)
      case None => None
      case Some(raw) =>
        var name := Strip(raw);
        if Placeholder(name) then None
        else Some(Scored(SectionRecord(sec, name, city, state), currentYear))
  }

  /** The leads of `_extract_leads_from_text`, in section order. */
  function TextLeads(sections: seq<Section>, city: string, state: string, currentYear: int): (r: seq<Record>)
    ensures |r| <= |sections|
    ensures forall i :: 0 <= i < |r| ==> TextLeadShape(r[i], city, state)
    decreases |sections|
  {
    if sections == [] then []
    else
      var init := TextLeads(sections[..|sections| - 1], city, state, currentYear);
      match SectionLead(sections[|sections| - 1], city, state, currentYear)
      case None => init
      case Some(lead) => init + [lead]
  }

  /** `_extract_leads_from_text(text, city, state)` over the split sections. */
  method ExtractLeadsFromText(sections: seq<Section>, city: string, state: string, currentYear: int)
    returns (leads: seq<Record>)
    ensures leads == TextLeads(sections, city, state, currentYear)
  {
    leads := [];
    var i := 0;
    while i < |sections|
      invariant 0 <= i <= |sections|
      invariant leads == TextLeads(sections[..i], city, state, currentYear)
    {
      assert sections[..i + 1][..i] == sections[..i];
      var sec := sections[i];
      i := i + 1;
      var t := Strip(sec.text);
      if t == [] {
        continue;
      }
      var captured := NameCapture(t);
      if captured.None? {
        continue;
      }
      var name := Strip(captured.value);
      if |name| < 3 || Lower(name) == "business name" || Lower(name) == "company" {
        continue;
      }
      var company := SectionRecord(sec, name, city, state);
      var score := CalculateLeadScore(company, currentYear);
      company := company["lead_score" := VInt(score)];
      leads := leads + [company];
    }
    assert sections[..|sections|] == sections;
  }

  /** A section whose stripped text is a plain name of three or more characters yields a lead with that name. */
  lemma PlainNameSectionYieldsLead(sec: Section, city: string, state: string, currentYear: int)
    requires var t := Strip(sec.text);
      t != [] && (forall i :: 0 <= i < |t| ==> t[i] != ':' && t[i] != '\n') && !Placeholder(Strip(t))
    ensures SectionLead(sec, city, state, currentYear).Some?
    ensures SectionLead(sec, city, state, currentYear).value["name"] == VStr(Strip(Strip(sec.text)))
  {
    var t := Strip(sec.text);
    assert NameEnd(t, 0) == |t|;
    assert t[..|t|] == t;
  }
}
