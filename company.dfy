/**
 * The `Company` dataclass of models/company.py: its fields and defaults, the
 * coercions of `from_dict`, `to_dict`, and the dataclass's own lead score.
 * The dataclass does not check types, so every field holds a Python value;
 * `scraped_at` holds a datetime or whatever non-string value it was given.
 */
module CompanyModel {
  import opened Values
  import opened Scoring

  /** A `datetime`, as an abstract instant; parsing and formatting are parameters. */
  type Instant = int

  /** `scraped_at`: a datetime, or a value of another type kept as given. */
  datatype Stamp = At(instant: Instant) | Raw(v: Value)

  /** A Company: every field but `scraped_at` by name, and `scraped_at`. */
  datatype Company = Company(fields: Record, scrapedAt: Stamp)

  const RequiredFields: set<string> := {"name", "city", "state"}

  /** The optional fields whose default is "". */
  const TextFields: set<string> := {
    "address", "zipcode", "phone", "email", "website", "category", "building_size",
    "year_built", "description", "source", "ai_analysis", "contact_person",
    "contact_title", "contact_email", "contact_phone", "notes"
  }

  /** Every field but `scraped_at`. */
  const ValueFields: set<string> := RequiredFields + TextFields + {"id", "lead_score"}

  /** The dataclass's annotations: the keys `from_dict` keeps. */
  const FieldNames: set<string> := ValueFields + {"scraped_at"}

  predicate WellFormed(c: Company) {
    c.fields.Keys == ValueFields
  }

  /** The defaults of the optional fields: "" for text, None for id, 50 for lead_score. */
  function Defaults(): (d: Record)
    ensures d.Keys == TextFields + {"id", "lead_score"}
  {
    (map k | k in TextFields :: VStr(""))["id" := VNone]["lead_score" := VInt(50)]
  }

  // ================================================================ from_dict / to_dict

  /** `scraped_at` after `from_dict`: a string is parsed as ISO 8601 (a trailing "Z" read as +00:00), falling back to `now`. */
  function ScrapedAt(data: Record, now: Instant, parseIso: string -> Option<Instant>): Stamp {
    if "scraped_at" !in data then At(now)
    else match data["scraped_at"]
      case VStr(s) => (match parseIso(Replace(s, "Z", "+00:00")) case Some(t) => At(t) case None => At(now))
      case v => Raw(v)
  }

  /** `lead_score` after `from_dict`: a string becomes its `int()`, or 50. */
  function LeadScoreField(v: Value): Value {
    match v
    case VStr(s) => (match ParseInt(s) case Some(n) => VInt(n) case None => VInt(50))
    case _ => v
  }

  /** The copied dict after the lead_score coercion, with every key that is not a field dropped. */
  function KeptFields(data: Record): (m: Record)
    ensures m.Keys == data.Keys * ValueFields
    ensures forall k | k in m :: m[k] == if k == "lead_score" then LeadScoreField(data[k]) else data[k]
  {
    var coerced := if "lead_score" in data then data["lead_score" := LeadScoreField(data["lead_score"])] else data;
    map k | k in coerced && k in ValueFields :: coerced[k]
  }

  /**
   * `Company.from_dict(data)` at instant `now`: None where the constructor
   * raises because a required field is missing.
   */
  function FromDict(data: Record, now: Instant, parseIso: string -> Option<Instant>): (r: Option<Company>)
    ensures r.Some? <==> RequiredFields <= data.Keys
    ensures r.Some? ==> WellFormed(r.value)
  {
    if !(RequiredFields <= data.Keys) then None
    else Some(Company(Defaults() + KeptFields(data), ScrapedAt(data, now, parseIso)))
  }

  /** `company.to_dict()`: the fields, with a datetime `scraped_at` in ISO form. */
  function ToDict(c: Company, formatIso: Instant -> string): (r: Record)
    ensures r.Keys == c.fields.Keys + {"scraped_at"}
    ensures forall k | k in c.fields && k != "scraped_at" :: r[k] == c.fields[k]
  {
    c.fields["scraped_at" := match c.scrapedAt case At(t) => VStr(formatIso(t)) case Raw(v) => v]
  }

  /**
   * from_dict keeps exactly the dataclass's fields: a field given in the
   * dict takes its value (a string lead_score its `int()`, or 50), an absent
   * one its default, and every other key is dropped.
   */
  lemma FromDictFields(data: Record, now: Instant, parseIso: string -> Option<Instant>)
    requires RequiredFields <= data.Keys
    ensures var c := FromDict(data, now, parseIso).value;
      && c.fields.Keys == ValueFields
      && (forall k | k in ValueFields && k in data && k != "lead_score" :: c.fields[k] == data[k])
      && (forall k | k in ValueFields && k !in data :: c.fields[k] == Defaults()[k])
      && c.fields["lead_score"] == (if "lead_score" in data then LeadScoreField(data["lead_score"]) else VInt(50))
  {
    var c := FromDict(data, now, parseIso).value;
    var kept := KeptFields(data);
    assert c.fields == Defaults() + kept;
    forall k | k in ValueFields && k !in data ensures c.fields[k] == Defaults()[k] {
      assert k !in kept;
    }
  }

  /** A numeric lead_score string becomes its value, any other string 50. */
  lemma FromDictLeadScoreString(data: Record, now: Instant, parseIso: string -> Option<Instant>, s: string)
    requires RequiredFields <= data.Keys && "lead_score" in data && data["lead_score"] == VStr(s)
    ensures var score := FromDict(data, now, parseIso).value.fields["lead_score"];
      && (ParseInt(s).Some? ==> score == VInt(ParseInt(s).value))
      && (ParseInt(s).None? ==> score == VInt(50))
  {
  }

  /** A scraped_at string that does not parse, or no scraped_at at all, becomes `now`. */
  lemma FromDictScrapedAtFallback(data: Record, now: Instant, parseIso: string -> Option<Instant>)
    requires RequiredFields <= data.Keys
    requires "scraped_at" !in data
      || (data["scraped_at"].VStr? && parseIso(Replace(data["scraped_at"].s, "Z", "+00:00")).None?)
    ensures FromDict(data, now, parseIso).value.scrapedAt == At(now)
  {
  }

  /** `s.replace(pat, with)` leaves a string without `pat` as it is. */
  lemma {:induction false} ReplaceAbsent(s: string, pat: string, with: string)
    requires pat != [] && !Contains(s, pat)
    ensures Replace(s, pat, with) == s
    decreases |s|
  {
    if s != [] {
      ReplaceAbsent(s[1..], pat, with);
      assert s == [s[0]] + s[1..];
    }
  }

  /**
   * `from_dict(to_dict(c))` gives `c` back, for a well-formed Company whose
   * lead_score is not a string and whose ISO text has no "Z" and parses back.
   */
  lemma ToDictFromDictRoundTrip(c: Company, now: Instant, parseIso: string -> Option<Instant>, formatIso: Instant -> string)
    requires WellFormed(c) && !c.fields["lead_score"].VStr?
    requires c.scrapedAt.Raw? ==> !c.scrapedAt.v.VStr?
    requires c.scrapedAt.At? ==> !Contains(formatIso(c.scrapedAt.instant), "Z")
                                 && parseIso(formatIso(c.scrapedAt.instant)) == Some(c.scrapedAt.instant)
    ensures FromDict(ToDict(c, formatIso), now, parseIso) == Some(c)
  {
    var d := ToDict(c, formatIso);
    if c.scrapedAt.At? {
      ReplaceAbsent(formatIso(c.scrapedAt.instant), "Z", "+00:00");
    }
    assert ScrapedAt(d, now, parseIso) == c.scrapedAt;
    ToDictKeepsFields(c, formatIso);
    assert Defaults() + KeptFields(d) == c.fields;
  }

  /** The fields `to_dict` writes are the ones `from_dict` keeps, unchanged. */
  lemma ToDictKeepsFields(c: Company, formatIso: Instant -> string)
    requires WellFormed(c) && !c.fields["lead_score"].VStr?
    ensures KeptFields(ToDict(c, formatIso)) == c.fields
  {
    var d := ToDict(c, formatIso);
    var kept := KeptFields(d);
    ScrapedAtIsNoValueField();
    assert d.Keys * ValueFields == ValueFields;
    forall k | k in kept ensures kept[k] == c.fields[k] {
      assert k != "scraped_at";
    }
  }

  lemma ScrapedAtIsNoValueField()
    ensures "scraped_at" !in ValueFields && "lead_score" in ValueFields
  {
  }

  // ================================================================ calculate_lead_score

  function AgeBonus(c: Company, currentYear: int): (b: int)
    ensures 0 <= b <= 20
    ensures PyInt(Get(c.fields, "year_built", VNone)).None? ==> b == 0
  {
    var year := Get(c.fields, "year_built", VNone);
    if !Truthy(year) then 0
    else match PyInt(year)
      case None => 0
      case Some(y) => AgeBand(currentYear - y)
  }

  /** +15/+10/+5 for the first of "large", "medium", "small"; None where `.lower()` meets a non-string. */
  function SizeBonus(c: Company): (b: Option<int>)
    ensures b.Some? ==> b.value in {0, 5, 10, 15}
    ensures b.None? <==> !TextOrFalsy(Get(c.fields, "building_size", VNone))
  {
    var size := Get(c.fields, "building_size", VNone);
    if !Truthy(size) then Some(0)
    else if !size.VStr? then None
    else
      var text := Lower(size.s);
      Some(if Contains(text, "large") then 15
           else if Contains(text, "medium") then 10
           else if Contains(text, "small") then 5
           else 0)
  }

  function PresenceBonus(c: Company): (b: int)
    ensures 0 <= b <= 30
  {
    var f := c.fields;
    (if Truthy(Get(f, "website", VNone)) then 10 else 0)
    + (if Truthy(Get(f, "contact_person", VNone)) || Truthy(Get(f, "contact_title", VNone)) then 10 else 0)
    + (if Truthy(Get(f, "email", VNone)) || Truthy(Get(f, "phone", VNone)) then 5 else 0)
    + (if Truthy(Get(f, "description", VNone)) then 5 else 0)
  }

  /** +5 once if some energy keyword occurs in the lower-cased category; None for a non-string one. */
  function CategoryBonus(c: Company): (b: Option<int>)
    ensures b.Some? ==> b.value == 0 || b.value == 5
    ensures b.None? <==> !TextOrFalsy(Get(c.fields, "category", VNone))
    ensures b == Some(5) <==> Get(c.fields, "category", VNone).VStr?
                              && AnyContained(EnergyKeywords, Lower(Get(c.fields, "category", VNone).s))
  {
    var category := Get(c.fields, "category", VNone);
    if !Truthy(category) then Some(0)
    else if !category.VStr? then None
    else Some(if AnyContained(EnergyKeywords, Lower(category.s)) then 5 else 0)
  }

  /** `Company.calculate_lead_score()`: None where it raises AttributeError. */
  function CompanyScore(c: Company, currentYear: int): (s: Option<int>)
    ensures s.Some? ==> 50 <= s.value <= 100
    ensures s.None? <==> !TextOrFalsy(Get(c.fields, "building_size", VNone)) || !TextOrFalsy(Get(c.fields, "category", VNone))
  {
    match (SizeBonus(c), CategoryBonus(c))
    case (Some(size), Some(category)) =>
      Some(Min(50 + AgeBonus(c, currentYear) + size + PresenceBonus(c) + category, 100))
    case _ => None
  }

  /** The dataclass's method, with its `score +=` steps and its for/break keyword loop. */
  method CalculateLeadScore(c: Company, currentYear: int) returns (s: Option<int>)
    ensures s == CompanyScore(c, currentYear)
  {
    var f := c.fields;
    var score := 50;
    var age := AgeScore(c, currentYear);
    score := score + age;
    var size := SizeScore(c);
    if size.None? {
      return None;
    }
    score := score + size.value;
    if Truthy(Get(f, "website", VNone)) {
      score := score + 10;
    }
    if Truthy(Get(f, "contact_person", VNone)) || Truthy(Get(f, "contact_title", VNone)) {
      score := score + 10;
    }
    if Truthy(Get(f, "email", VNone)) || Truthy(Get(f, "phone", VNone)) {
      score := score + 5;
    }
    if Truthy(Get(f, "description", VNone)) {
      score := score + 5;
    }
    assert score == 50 + age + size.value + PresenceBonus(c);
    var category := CategoryScore(c);
    if category.None? {
      return None;
    }
    score := score + category.value;
    s := Some(Min(score, 100));
  }

  /** The `year_built` steps of the method: +20/+15/+10 by age band. */
  method AgeScore(c: Company, currentYear: int) returns (b: int)
    ensures b == AgeBonus(c, currentYear)
  {
    b := 0;
    var year := Get(c.fields, "year_built", VNone);
    if Truthy(year) {
      var parsed := PyInt(year);
      if parsed.Some? {
        var age := currentYear - parsed.value;
        if age > 30 {
          b := 20;
        } else if age > 20 {
          b := 15;
        } else if age > 10 {
          b := 10;
        }
      }
    }
  }

  /** The `building_size` steps of the method; None where `.lower()` raises. */
  method SizeScore(c: Company) returns (b: Option<int>)
    ensures b == SizeBonus(c)
  {
    var size := Get(c.fields, "building_size", VNone);
    if !Truthy(size) {
      return Some(0);
    }
    if !size.VStr? {
      return None;
    }
    var sizeText := Lower(size.s);
    if Contains(sizeText, "large") {
      b := Some(15);
    } else if Contains(sizeText, "medium") {
      b := Some(10);
    } else if Contains(sizeText, "small") {
      b := Some(5);
    } else {
      b := Some(0);
    }
  }

  /** The `category` steps of the method: the keyword loop, stopped at the first hit. */
  method CategoryScore(c: Company) returns (b: Option<int>)
    ensures b == CategoryBonus(c)
  {
    var category := Get(c.fields, "category", VNone);
    if !Truthy(category) {
      return Some(0);
    }
    if !category.VStr? {
      return None;
    }
    var hit := FirstHit(EnergyKeywords, Lower(category.s));
    b := Some(if hit then 5 else 0);
  }

  lemma DefaultText(k: string)
    requires k in TextFields
    ensures Defaults()[k] == VStr("")
  {
  }

  /** The fields the scorer reads are all "": the score is the base 50. */
  lemma BlankCompanyScore(c: Company, currentYear: int)
    requires forall k | k in TextFields :: Get(c.fields, k, VNone) == VStr("")
    ensures CompanyScore(c, currentYear) == Some(50)
  {
    assert AgeBonus(c, currentYear) == 0;
    assert SizeBonus(c) == Some(0);
    assert PresenceBonus(c) == 0;
    assert CategoryBonus(c) == Some(0);
  }

  /** A text field the dict does not give is "" in the Company. */
  lemma AbsentTextIsBlank(data: Record, now: Instant, parseIso: string -> Option<Instant>, k: string)
    requires RequiredFields <= data.Keys && k in TextFields && k !in data
    ensures FromDict(data, now, parseIso).value.fields[k] == VStr("")
  {
    DefaultText(k);
    assert k !in KeptFields(data);
  }

  /** A Company built from only the required fields has "" in every text field. */
  lemma RequiredOnlyIsBlank(data: Record, now: Instant, parseIso: string -> Option<Instant>)
    requires data.Keys == RequiredFields
    ensures FromDict(data, now, parseIso).Some?
    ensures forall k | k in TextFields :: Get(FromDict(data, now, parseIso).value.fields, k, VNone) == VStr("")
  {
    forall k | k in TextFields ensures Get(FromDict(data, now, parseIso).value.fields, k, VNone) == VStr("") {
      AbsentTextIsBlank(data, now, parseIso, k);
    }
  }

  /** A Company built from only a name, city and state (every other field at its default) scores exactly 50. */
  lemma DefaultCompanyScoresBase(name: Value, city: Value, state: Value, now: Instant,
                                   parseIso: string -> Option<Instant>, currentYear: int)
    ensures var c := FromDict(map["name" := name, "city" := city, "state" := state], now, parseIso);
      c.Some? && CompanyScore(c.value, currentYear) == Some(50)
  {
    var data := map["name" := name, "city" := city, "state" := state];
    RequiredOnlyIsBlank(data, now, parseIso);
    BlankCompanyScore(FromDict(data, now, parseIso).value, currentYear);
  }
}
