/**
 * The AI analyzer: blending the model's lead score into a record, reusing a
 * cached analysis, and the batch loops over companies and outreach e-mails.
 * The OpenAI call is an input: for each company, the reply it gave (or that it
 * failed), with the number the `(score|rating): N` pattern picks out of the text.
 */
module Analyzer {
  import opened Values
  import opened Store

  /** What the chat-completion call produced for one company. */
  datatype Reply =
    | Failed
      /** `text` is the reply; `score` the digits after the first "score:"/"rating:", if any. */
    | Answer(text: string, score: Option<nat>)

  /** What the e-mail completion call produced for one company. */
  datatype EmailReply =
    | EmailFailed(error: string)
    | Email(text: string)

  /** AI_ENABLED, and the cache settings of the database the analyzer holds. */
  datatype Settings = Settings(enabled: bool, cacheOn: bool, expiry: int, codec: Codec)

  /** A record after one analysis, and the value then passed to cache_set, if any. */
  datatype Outcome = Outcome(company: Record, stored: Option<Value>)

  const DisabledEmail: string := "AI features are disabled. Configure your OpenAI API key to use this feature."
  const DisabledBatchEmail: string := "AI features are disabled"

  // ================================================================ score blend

  /** `int(n / 2)`: the true quotient truncated toward zero. */
  function Half(n: int): (r: int)
    ensures n >= 0 ==> 0 <= n - 2 * r <= 1
    ensures n < 0 ==> -1 <= n - 2 * r <= 0
  {
    if n >= 0 then n / 2 else -((-n) / 2)
  }

  /**
   * `int((original_score + ai_lead_score) / 2)`; None where the addition raises
   * (a lead_score that is None, a string, a list or a dict). A bool adds as 0 or 1.
   */
  function Blend(original: Value, ai: nat): Option<int> {
    match original
    case VInt(o) => Some(Half(o + ai))
    case VBool(b) => Some(Half((if b then 1 else 0) + ai))
    case _ => None
  }

  /** The blend lies between the two scores; for non-negative scores it is the floor of their mean. */
  lemma BlendBetween(o: int, ai: nat)
    ensures Blend(VInt(o), ai).Some?
    ensures var b := Blend(VInt(o), ai).value;
      && Min(o, ai) <= b && b <= o + ai - Min(o, ai)
      && (o >= 0 ==> b == (o + ai) / 2)
  {
  }

  /** Nothing clamps the blend: a reply scoring 200 lifts a lead scored 100 to 150. */
  lemma BlendUnclamped()
    ensures Blend(VInt(100), 200) == Some(150)
  {
  }

  // ================================================================ one analysis

  /** The key `ai_analysis_{id}_{name}_{city}` (id defaults to "", the others print "None"). */
  function AnalysisKey(company: Record): string {
    "ai_analysis_" + Show(Get(company, "id", VStr(""))) + "_" + Show(Get(company, "name", VNone))
      + "_" + Show(Get(company, "city", VNone))
  }

  /** The value cached after a fresh analysis of `r`: its analysis text and its `lead_score` (None when absent). */
  function CachedResult(r: Record, text: string): Value {
    VDict(map["ai_analysis" := VStr(text), "lead_score" := Get(r, "lead_score", VNone)])
  }

  /**
   * The body of `analyze_company` after the cache lookup returned `cached`:
   * a truthy dict is laid over the record, a truthy string becomes its
   * analysis; anything else asks the model. A failed call, or a blend that
   * raises, returns the record as it was.
   */
  function Analysis(company: Record, cached: Value, reply: Reply): Outcome {
    if Truthy(cached) && cached.VDict? then Outcome(company + cached.fields, None)
    else if Truthy(cached) && cached.VStr? then Outcome(company["ai_analysis" := cached], None)
    else match reply
      case Failed => Outcome(company, None)
      case Answer(text, None) =>
        var r := company["ai_analysis" := VStr(text)];
        Outcome(r, Some(CachedResult(r, text)))
      case Answer(text, Some(score)) =>
        match Blend(Get(company, "lead_score", VInt(50)), score)
        case None => Outcome(company, None)
        case Some(b) =>
          var r := company["lead_score" := VInt(b)]["ai_analysis" := VStr(text)];
          Outcome(r, Some(CachedResult(r, text)))
  }

  /** `analyze_company(company)` at second `now`: the record returned and the cache afterwards. */
  function Step(s: Settings, cache: Cache, company: Record, reply: Reply, now: int)
    : (Record, Cache)
  {
    if !s.enabled then (company, cache)
    else
      var key := AnalysisKey(company);
      var o := Analysis(company, CacheLookup(cache, key, now, s.cacheOn, s.expiry, s.codec), reply);
      (o.company, if o.stored.Some? then CacheStore(cache, key, o.stored.value, now, s.cacheOn, s.codec) else cache)
  }

  /** With AI disabled the record comes back unchanged and the cache is not touched. */
  lemma DisabledUnchanged(s: Settings, cache: Cache, company: Record, reply: Reply, now: int)
    requires !s.enabled
    ensures Step(s, cache, company, reply, now) == (company, cache)
  {
  }

  /** A cached dict replaces exactly its own keys; a cached string sets only `ai_analysis`. */
  lemma CacheHitMerge(company: Record, cached: Value, reply: Reply)
    requires Truthy(cached) && (cached.VDict? || cached.VStr?)
    ensures var r := Analysis(company, cached, reply);
      && r.stored == None
      && (cached.VDict? ==>
            && r.company.Keys == company.Keys + cached.fields.Keys
            && (forall k :: k in cached.fields ==> r.company[k] == cached.fields[k])
            && (forall k :: k in company && k !in cached.fields ==> r.company[k] == company[k]))
      && (cached.VStr? ==> r.company == company["ai_analysis" := cached])
  {
  }

  /**
   * On a miss, a reply without a score sets only `ai_analysis`; a reply with a
   * score also sets `lead_score` to the blend with the old score (50 when absent).
   */
  lemma FreshAnalysis(company: Record, cached: Value, text: string, score: Option<nat>)
    requires !Truthy(cached) || !(cached.VDict? || cached.VStr?)
    ensures var r := Analysis(company, cached, Answer(text, score));
      && (score.None? ==> r.company == company["ai_analysis" := VStr(text)])
      && (score.Some? ==> match Blend(Get(company, "lead_score", VInt(50)), score.value)
           case None => r == Outcome(company, None)
           case Some(b) =>
             && r.company.Keys == company.Keys + {"lead_score", "ai_analysis"}
             && r.company["lead_score"] == VInt(b) && r.company["ai_analysis"] == VStr(text))
      && (r.stored.Some? ==> r.stored == Some(CachedResult(r.company, text)))
  {
  }

  /** No branch removes a key, and only a cached dict touches keys other than the analysis and the score. */
  lemma AnalysisKeepsFields(company: Record, cached: Value, reply: Reply, k: string)
    requires k in company && k != "ai_analysis" && k != "lead_score"
    requires !(Truthy(cached) && cached.VDict?)
    ensures company.Keys <= Analysis(company, cached, reply).company.Keys
    ensures Analysis(company, cached, reply).company[k] == company[k]
  {
  }

  /** One analysis writes at most the cache entry under the record's own key. */
  lemma StepCacheScope(s: Settings, cache: Cache, company: Record, reply: Reply, now: int, other: string)
    requires other != AnalysisKey(company)
    ensures var c := Step(s, cache, company, reply, now).1;
      (other in c <==> other in cache) && (other in cache ==> c[other] == cache[other])
  {
  }

  /**
   * Analysing the returned record again before the entry expires reads the
   * cached result back and gives the same record, except that a `lead_score`
   * the record never had is now present as None.
   */
  lemma {:induction false} AnalyzeAgain(s: Settings, cache: Cache, company: Record,
                                        text: string, score: Option<nat>, now: int, later: int, reply: Reply)
    requires s.enabled && s.cacheOn && SoundCodec(s.codec)
    requires now <= later < now + s.expiry
    requires var o := Analysis(company, CacheLookup(cache, AnalysisKey(company), now, true, s.expiry, s.codec), Answer(text, score));
      o.stored.Some?
    ensures var first := Step(s, cache, company, Answer(text, score), now);
      var second := Step(s, first.1, first.0, reply, later);
      second.0 == first.0["lead_score" := Get(first.0, "lead_score", VNone)]
      && second.1 == first.1
  {
    var key := AnalysisKey(company);
    var o := Analysis(company, CacheLookup(cache, key, now, true, s.expiry, s.codec), Answer(text, score));
    StoredOutcome(company, CacheLookup(cache, key, now, true, s.expiry, s.codec), text, score);
    var v := o.stored.value;
    CacheRoundTrip(cache, key, v, now, later, s.expiry, s.codec);
    OverlayCached(o.company, text);
  }

  /** A fresh analysis keeps the record's cache key and caches its own text and score. */
  lemma StoredOutcome(company: Record, cached: Value, text: string, score: Option<nat>)
    requires Analysis(company, cached, Answer(text, score)).stored.Some?
    ensures var o := Analysis(company, cached, Answer(text, score));
      && o.stored == Some(CachedResult(o.company, text))
      && "ai_analysis" in o.company && o.company["ai_analysis"] == VStr(text)
      && AnalysisKey(o.company) == AnalysisKey(company)
  {
    var r := Analysis(company, cached, Answer(text, score)).company;
    assert Get(r, "id", VStr("")) == Get(company, "id", VStr(""));
    assert Get(r, "name", VNone) == Get(company, "name", VNone);
    assert Get(r, "city", VNone) == Get(company, "city", VNone);
  }

  /** Laying the cached result over the record it came from changes at most a missing score into None. */
  lemma OverlayCached(r: Record, text: string)
    requires "ai_analysis" in r && r["ai_analysis"] == VStr(text)
    ensures r + CachedResult(r, text).fields == r["lead_score" := Get(r, "lead_score", VNone)]
  {
  }

  // ================================================================ batches

  /** Analysing the company at position k with its reply and clock reading. */
  function AnalysisStep(s: Settings, companies: seq<Record>, replies: seq<Reply>, clock: seq<int>)
    : (Cache, nat) -> (Record, Cache)
  {
    (c: Cache, k: nat) =>
      if k < |companies| && k < |replies| && k < |clock| then Step(s, c, companies[k], replies[k], clock[k]) else (map[], c)
  }

  /** `analyze_companies_batch(companies)`: an empty input, or AI disabled, is returned as it is. */
  function Batch(s: Settings, cache: Cache, companies: seq<Record>, replies: seq<Reply>, clock: seq<int>)
    : (seq<Record>, Cache)
  {
    if !s.enabled || companies == [] then (companies, cache)
    else FoldN(AnalysisStep(s, companies, replies, clock), cache, |companies|)
  }

  /**
   * One record out per record in, in order: result i is the analysis of
   * company i against the cache the companies before it left. Disabled or
   * empty input comes back unchanged.
   */
  lemma BatchSpec(s: Settings, cache: Cache, companies: seq<Record>, replies: seq<Reply>, clock: seq<int>)
    requires |replies| == |companies| == |clock|
    ensures |Batch(s, cache, companies, replies, clock).0| == |companies|
    ensures !s.enabled ==> Batch(s, cache, companies, replies, clock) == (companies, cache)
    ensures forall i: nat :: i < |companies| ==>
      Batch(s, cache, companies, replies, clock).0[i]
        == Step(s, FoldN(AnalysisStep(s, companies, replies, clock), cache, i).1, companies[i], replies[i], clock[i]).0
  {
    var step := AnalysisStep(s, companies, replies, clock);
    forall i: nat | i < |companies|
      ensures Batch(s, cache, companies, replies, clock).0[i]
        == Step(s, FoldN(step, cache, i).1, companies[i], replies[i], clock[i]).0
    {
      if s.enabled {
        FoldNAt(step, cache, |companies|, i);
      }
    }
  }

  // ================================================================ outreach e-mails

  /** The key `outreach_email_{id}_{name}_{city}`. */
  function EmailKey(company: Record): string {
    "outreach_email_" + Show(Get(company, "id", VStr(""))) + "_" + Show(Get(company, "name", VNone))
      + "_" + Show(Get(company, "city", VNone))
  }

  /**
   * `generate_outreach_email(company)` at second `now`: a truthy cached value is
   * returned as read back (a text that parses as JSON comes back parsed); a
   * fresh e-mail is cached and returned; a failure returns its message.
   */
  function EmailStep(s: Settings, cache: Cache, company: Record, reply: EmailReply, now: int)
    : (Value, Cache)
  {
    if !s.enabled then (VStr(DisabledEmail), cache)
    else
      var key := EmailKey(company);
      var cached := CacheLookup(cache, key, now, s.cacheOn, s.expiry, s.codec);
      if Truthy(cached) then (cached, cache)
      else match reply
        case EmailFailed(e) => (VStr("Error generating email: " + e), cache)
        case Email(text) => (VStr(text), CacheStore(cache, key, VStr(text), now, s.cacheOn, s.codec))
  }

  /** A second request for the same company before expiry returns the first e-mail, when its text is not JSON. */
  lemma EmailAgain(s: Settings, cache: Cache, company: Record, text: string,
                   now: int, later: int, reply: EmailReply)
    requires s.enabled && s.cacheOn && now <= later < now + s.expiry
    requires !Truthy(CacheLookup(cache, EmailKey(company), now, true, s.expiry, s.codec))
    requires text != "" && s.codec.decode(text) == None
    ensures var first := EmailStep(s, cache, company, Email(text), now);
      first.0 == VStr(text) && EmailStep(s, first.1, company, reply, later) == first
  {
  }

  /** Generating the e-mail for the company at position k. */
  function EmailAt(s: Settings, companies: seq<Record>, replies: seq<EmailReply>, clock: seq<int>)
    : (Cache, nat) -> (Value, Cache)
  {
    (c: Cache, k: nat) =>
      if k < |companies| && k < |replies| && k < |clock| then EmailStep(s, c, companies[k], replies[k], clock[k]) else (VNone, c)
  }

  /** `generate_outreach_emails_batch(companies)`. */
  function EmailBatch(s: Settings, cache: Cache, companies: seq<Record>, replies: seq<EmailReply>, clock: seq<int>)
    : (seq<Value>, Cache)
  {
    if !s.enabled || companies == [] then (seq(|companies|, _ => VStr(DisabledBatchEmail)), cache)
    else FoldN(EmailAt(s, companies, replies, clock), cache, |companies|)
  }

  /**
   * One e-mail per company, in order, generated against the cache the companies
   * before it left; with AI disabled each is "AI features are disabled" and the
   * cache is untouched.
   */
  lemma EmailBatchSpec(s: Settings, cache: Cache, companies: seq<Record>, replies: seq<EmailReply>, clock: seq<int>)
    requires |replies| == |companies| == |clock|
    ensures |EmailBatch(s, cache, companies, replies, clock).0| == |companies|
    ensures !s.enabled ==> EmailBatch(s, cache, companies, replies, clock).1 == cache
    ensures !s.enabled ==> forall i :: 0 <= i < |companies| ==> EmailBatch(s, cache, companies, replies, clock).0[i] == VStr(DisabledBatchEmail)
    ensures s.enabled ==> forall i: nat :: i < |companies| ==>
      EmailBatch(s, cache, companies, replies, clock).0[i]
        == EmailStep(s, FoldN(EmailAt(s, companies, replies, clock), cache, i).1, companies[i], replies[i], clock[i]).0
  {
    if s.enabled {
      var step := EmailAt(s, companies, replies, clock);
      forall i: nat | i < |companies|
        ensures EmailBatch(s, cache, companies, replies, clock).0[i]
          == EmailStep(s, FoldN(step, cache, i).1, companies[i], replies[i], clock[i]).0
      {
        FoldNAt(step, cache, |companies|, i);
      }
    }
  }

  // ================================================================ the analyzer object

  class AIAnalyzer {
    const db: Database
    const enabled: bool

    constructor (db: Database, enabled: bool)
      ensures this.db == db && this.enabled == enabled
    {
      this.db, this.enabled := db, enabled;
    }

    function Config(): Settings {
      Settings(enabled, db.cacheEnabled, db.cacheExpiry, db.codec)
    }

    /** `for key, value in cached_analysis.items(): company[key] = value`. */
    static method Overlay(company: Record, cached: map<string, Value>) returns (r: Record)
      ensures r == company + cached
    {
      r := company;
      var todo := cached.Keys;
      ghost var done: set<string> := {};
      while todo != {}
        invariant todo + done == cached.Keys && todo !! done
        invariant r == company + (map k | k in done :: cached[k])
        decreases todo
      {
        var k :| k in todo;
        r := r[k := cached[k]];
        todo, done := todo - {k}, done + {k};
      }
      assert (map k | k in done :: cached[k]) == cached;
    }

    /** `analyze_company(company)` at second `now`, the model having answered `reply`. */
    method AnalyzeCompany(company: Record, reply: Reply, now: int) returns (r: Record)
      modifies db`cache
      ensures (r, db.cache) == Step(Config(), old(db.cache), company, reply, now)
    {
      if !enabled {
        return company;
      }
      var key := AnalysisKey(company);
      var cached := db.CacheGet(key, now);
      if Truthy(cached) {
        if cached.VDict? {
          r := Overlay(company, cached.fields);
          return;
        } else if cached.VStr? {
          return company["ai_analysis" := cached];
        }
      }
      if reply.Failed? {
        return company;
      }
      r := company;
      if reply.score.Some? {
        var blended := Blend(Get(company, "lead_score", VInt(50)), reply.score.value);
        if blended.None? {
          return company;
        }
        r := r["lead_score" := VInt(blended.value)];
      }
      r := r["ai_analysis" := VStr(reply.text)];
      var _ := db.CacheSet(key, CachedResult(r, reply.text), now);
    }

    /** `analyze_companies_batch(companies)`, with one reply and one clock reading per company. */
    method AnalyzeCompaniesBatch(companies: seq<Record>, replies: seq<Reply>, clock: seq<int>) returns (results: seq<Record>)
      requires |replies| == |companies| == |clock|
      modifies db`cache
      ensures (results, db.cache) == Batch(Config(), old(db.cache), companies, replies, clock)
    {
      if !enabled || companies == [] {
        return companies;
      }
      results := [];
      var i := 0;
      while i < |companies|
        invariant 0 <= i <= |companies|
        invariant (results, db.cache) == FoldN(AnalysisStep(Config(), companies, replies, clock), old(db.cache), i)
      {
        var analyzed := AnalyzeCompany(companies[i], replies[i], clock[i]);
        results := results + [analyzed];
        i := i + 1;
      }
    }

    /** `generate_outreach_email(company)` at second `now`. */
    method GenerateOutreachEmail(company: Record, reply: EmailReply, now: int) returns (email: Value)
      modifies db`cache
      ensures (email, db.cache) == EmailStep(Config(), old(db.cache), company, reply, now)
    {
      if !enabled {
        return VStr(DisabledEmail);
      }
      var key := EmailKey(company);
      var cached := db.CacheGet(key, now);
      if Truthy(cached) {
        return cached;
      }
      match reply
      case EmailFailed(e) =>
        email := VStr("Error generating email: " + e);
      case Email(text) =>
        var _ := db.CacheSet(key, VStr(text), now);
        email := VStr(text);
    }

    /** `generate_outreach_emails_batch(companies)`. */
    method GenerateOutreachEmailsBatch(companies: seq<Record>, replies: seq<EmailReply>, clock: seq<int>) returns (emails: seq<Value>)
      requires |replies| == |companies| == |clock|
      modifies db`cache
      ensures (emails, db.cache) == EmailBatch(Config(), old(db.cache), companies, replies, clock)
    {
      if !enabled || companies == [] {
        return seq(|companies|, _ => VStr(DisabledBatchEmail));
      }
      emails := [];
      var i := 0;
      while i < |companies|
        invariant 0 <= i <= |companies|
        invariant (emails, db.cache) == FoldN(EmailAt(Config(), companies, replies, clock), old(db.cache), i)
      {
        var email := GenerateOutreachEmail(companies[i], replies[i], clock[i]);
        emails := emails + [email];
        i := i + 1;
      }
    }
  }
}
