/**
 * The local store of database.py: the `companies` table with its (name, city)
 * de-duplicating insert, patch updates, filtered queries and counts; the
 * expiring key/value `cache`; and the append-only `search_history` and
 * `exports` logs.  SQL is only the carrier: each statement the source issues
 * is modelled by what it does to an in-memory table.
 */
module Store {
  import opened Values

  /** The columns of the companies table besides `id` (config.py, DB_INIT_SQL). */
  const CompanyColumns: set<string> := {
    "name", "address", "city", "state", "zipcode", "phone", "email", "website",
    "category", "building_size", "year_built", "description", "source", "lead_score",
    "ai_analysis", "contact_person", "contact_title", "contact_email", "contact_phone",
    "scraped_at", "notes"
  }

  /** A row of `companies`: its INTEGER PRIMARY KEY and the value of every other column. */
  datatype Row = Row(id: int, cols: map<string, Value>)

  /** A row of `cache`: the stored text and the second it was written. */
  datatype CacheEntry = CacheEntry(text: string, createdAt: int)

  /** The cache table: key to stored text and creation time. */
  type Cache = map<string, CacheEntry>

  /** A row of `search_history` or `exports`: id, type, term or path, count, timestamp. */
  datatype HistoryEntry = HistoryEntry(id: int, kind: string, subject: string, count: int, at: string)

  /** `json.dumps` and `json.loads`; decoding is partial (None where loads raises). */
  datatype Codec = Codec(encode: Value -> string, decode: string -> Option<Value>)

  /** json.loads(json.dumps(v)) == v for every value the model can hold. */
  ghost predicate SoundCodec(c: Codec) {
    forall v: Value {:trigger c.encode(v)} :: c.decode(c.encode(v)) == Some(v)
  }

  // ================================================================ parameters and rows

  /**
   * The value sqlite3 binds for a Python parameter: a bool becomes an integer,
   * a list or dict cannot be bound (the statement raises sqlite3.Error).
   */
  function Bind(v: Value): Option<Value> {
    match v
    case VBool(b) => Some(VInt(if b then 1 else 0))
    case VList(_) => None
    case VDict(_) => None
    case _ => Some(v)
  }

  function BindOrNull(v: Value): Value {
    match Bind(v)
    case Some(b) => b
    case None => VNone
  }

  /** The value of a column (NULL for a column the row lacks). */
  function Col(row: Row, column: string): Value {
    Get(row.cols, column, VNone)
  }

  /** `dict(row)` for a row of `SELECT * FROM companies`. */
  function RowDict(row: Row): Record {
    row.cols["id" := VInt(row.id)]
  }

  predicate HasId(rows: seq<Row>, id: int) {
    exists j :: 0 <= j < |rows| && rows[j].id == id
  }

  predicate UniqueIds(rows: seq<Row>) {
    forall i, j :: 0 <= i < j < |rows| ==> rows[i].id != rows[j].id
  }

  /** The largest id in the table, 0 for an empty one. */
  function MaxId(rows: seq<Row>): (m: int)
    ensures forall j :: 0 <= j < |rows| ==> rows[j].id <= m
  {
    if rows == [] then 0
    else
      var rest := MaxId(rows[1..]);
      assert forall j :: 1 <= j < |rows| ==> rows[j] == rows[1..][j - 1];
      if rows[0].id > rest then rows[0].id else rest
  }

  // ================================================================ insert_company

  /** SQL `name = ? AND city = ?` for bound parameters: NULL equals nothing. */
  predicate KeyMatches(row: Row, name: Value, city: Value) {
    name != VNone && city != VNone && Col(row, "name") == name && Col(row, "city") == city
  }

  /** The first row (in table order) that `SELECT id ... WHERE name = ? AND city = ?` finds. */
  function FindByKey(rows: seq<Row>, name: Value, city: Value, from: nat := 0): (r: Option<nat>)
    requires from <= |rows|
    ensures r.Some? ==> from <= r.value < |rows| && KeyMatches(rows[r.value], name, city)
    ensures r.Some? ==> forall j :: from <= j < r.value ==> !KeyMatches(rows[j], name, city)
    ensures r.None? ==> forall j :: from <= j < |rows| ==> !KeyMatches(rows[j], name, city)
    decreases |rows| - from
  {
    if from == |rows| then None
    else if KeyMatches(rows[from], name, city) then Some(from)
    else FindByKey(rows, name, city, from + 1)
  }

  /** Every key of the record is a column and every value can be bound. */
  predicate InsertableColumns(data: Record) {
    data != map[] && data.Keys <= CompanyColumns + {"id"}
    && forall k | k in data :: Bind(data[k]).Some?
  }

  /**
   * The id the INSERT gives the new row, or None where it raises sqlite3.Error:
   * an empty record (no column list), an unknown column, an unbindable value,
   * or an explicit id that is not an integer or is already taken.  Without an
   * id (or with a NULL one) AUTOINCREMENT picks one above every id the table
   * has ever held.
   */
  function NewId(data: Record, rows: seq<Row>, sequence: int): Option<int> {
    if !InsertableColumns(data) then None
    else if "id" in data && data["id"] != VNone then
      match Bind(data["id"])
      case Some(VInt(n)) => if HasId(rows, n) then None else Some(n)
      case _ => None
    else Some(if sequence > MaxId(rows) then sequence + 1 else MaxId(rows) + 1)
  }

  /** The row the INSERT adds: the record's columns, NULL elsewhere, `scraped_at` defaulting to the insert time. */
  function NewRow(data: Record, id: int, stamp: string): Row {
    Row(id, map c | c in CompanyColumns ::
      if c in data then BindOrNull(data[c]) else if c == "scraped_at" then VStr(stamp) else VNone)
  }

  /** The table, the AUTOINCREMENT counter and the returned id after `insert_company(data)`. */
  datatype Inserted = Inserted(rows: seq<Row>, sequence: int, id: Option<int>)

  /**
   * `insert_company(data)`: the id of the first row with the same non-NULL
   * name and city if there is one (nothing is written); otherwise the id of
   * the one new row; None where a statement raises sqlite3.Error.  `stamp`
   * is the CURRENT_TIMESTAMP text.
   */
  function InsertOutcome(rows: seq<Row>, sequence: int, data: Record, stamp: string): Inserted {
    var name, city := Bind(Get(data, "name", VNone)), Bind(Get(data, "city", VNone));
    if name.None? || city.None? then Inserted(rows, sequence, None)
    else match FindByKey(rows, name.value, city.value)
      case Some(j) => Inserted(rows, sequence, Some(rows[j].id))
      case None =>
        match NewId(data, rows, sequence)
        case None => Inserted(rows, sequence, None)
        case Some(n) => Inserted(rows + [NewRow(data, n, stamp)], if sequence > n then sequence else n, Some(n))
  }

  // ================================================================ update_company

  /** A SET list sqlite accepts: non-empty, known columns, bindable values. */
  predicate PatchOk(update: Record) {
    update != map[] && update.Keys <= CompanyColumns + {"id"}
    && forall k | k in update :: Bind(update[k]).Some?
  }

  function FindById(rows: seq<Row>, id: int, from: nat := 0): (r: Option<nat>)
    requires from <= |rows|
    ensures r.Some? ==> from <= r.value < |rows| && rows[r.value].id == id
    ensures r.None? ==> forall j :: from <= j < |rows| ==> rows[j].id != id
    decreases |rows| - from
  {
    if from == |rows| then None
    else if rows[from].id == id then Some(from)
    else FindById(rows, id, from + 1)
  }

  /** The row after `SET k1 = ?, ...`: listed columns overwritten, the rest kept. */
  function Patched(row: Row, update: Record): Row {
    var newId := if "id" in update then BindOrNull(update["id"]) else VInt(row.id);
    Row(if newId.VInt? then newId.i else row.id,
        map c | c in row.cols.Keys + (update.Keys - {"id"}) ::
          if c in update then BindOrNull(update[c]) else row.cols[c])
  }

  /**
   * The table after `UPDATE companies SET ... WHERE id = ?`, or None where the
   * statement raises sqlite3.Error or matches no row (update_company returns
   * False in both cases and the table is unchanged).  Setting `id` itself must
   * give an integer no other row holds.
   */
  function UpdatedTable(rows: seq<Row>, companyId: int, update: Record): Option<seq<Row>> {
    match FindById(rows, companyId)
    case None => None
    case Some(j) =>
      if !PatchOk(update) then None
      else if "id" in update && !(BindOrNull(update["id"]).VInt?
                                  && (BindOrNull(update["id"]).i == companyId
                                      || !HasId(rows, BindOrNull(update["id"]).i))) then None
      else Some(rows[j := Patched(rows[j], update)])
  }

  // ================================================================ get_companies / count_companies

  /** One where-clause with its bound parameter. */
  datatype Cond =
    | IdIs(v: Value)
    | CityLike(pattern: string)
    | StateIs(v: Value)
    | CategoryLike(pattern: string)
    | ScoreAtLeast(v: Value)
    | NameLike(pattern: string)

  /**
   * The clause one filter entry adds (database.py:111-129 for get_companies,
   * 154-166 for count_companies, which knows no `id` and no `name`); None for
   * a key the loop ignores.  LIKE patterns are `f"%{value}%"`.
   */
  function WhereCond(key: string, value: Value, counting: bool): Option<Cond> {
    if key == "id" && !counting then Some(IdIs(value))
    else if key == "city" then Some(CityLike(Show(value)))
    else if key == "state" then Some(StateIs(value))
    else if key == "category" then Some(CategoryLike(Show(value)))
    else if key == "min_lead_score" then Some(ScoreAtLeast(value))
    else if key == "name" && !counting then Some(NameLike(Show(value)))
    else None
  }

  /** The clauses built from the filter entries whose keys are in `keys`. */
  function CondsOf(filters: Record, keys: set<string>, counting: bool): set<Cond> {
    set k | k in keys && k in filters && WhereCond(k, filters[k], counting).Some?
      :: WhereCond(k, filters[k], counting).value
  }

  predicate CondBindable(c: Cond) {
    match c
    case IdIs(v) => Bind(v).Some?
    case StateIs(v) => Bind(v).Some?
    case ScoreAtLeast(v) => Bind(v).Some?
    case _ => true
  }

  /** Three-way comparison of two strings under SQLite's BINARY collation. */
  function StrCmp(a: string, b: string): int
    decreases |a|
  {
    if a == [] && b == [] then 0
    else if a == [] then -1
    else if b == [] then 1
    else if a[0] < b[0] then -1
    else if a[0] > b[0] then 1
    else StrCmp(a[1..], b[1..])
  }

  /** SQLite's storage classes in sort order: NULL, then numbers, then text. */
  function StorageRank(v: Value): int {
    match v
    case VNone => 0
    case VBool(_) => 1
    case VInt(_) => 1
    case VStr(_) => 2
    case _ => 3
  }

  function Numeric(v: Value): int {
    match v
    case VInt(i) => i
    case VBool(b) => if b then 1 else 0
    case _ => 0
  }

  /** Three-way comparison of two SQL values, as ORDER BY and `>=` compare them. */
  function SqlCmp(a: Value, b: Value): int {
    if StorageRank(a) < StorageRank(b) then -1
    else if StorageRank(a) > StorageRank(b) then 1
    else if a.VStr? && b.VStr? then StrCmp(a.s, b.s)
    else if StorageRank(a) == 1 then
      (if Numeric(a) < Numeric(b) then -1 else if Numeric(a) > Numeric(b) then 1 else 0)
    else 0
  }

  /** SQL `col LIKE '%pattern%'` (NULL matches nothing). */
  predicate Like(col: Value, pattern: string) {
    col != VNone && Contains(Show(col), pattern)
  }

  /** SQL `col = ?` */
  predicate SqlEquals(col: Value, param: Value) {
    col != VNone && BindOrNull(param) != VNone && col == BindOrNull(param)
  }

  predicate Holds(row: Row, c: Cond) {
    match c
    case IdIs(v) => SqlEquals(VInt(row.id), v)
    case CityLike(p) => Like(Col(row, "city"), p)
    case StateIs(v) => SqlEquals(Col(row, "state"), v)
    case CategoryLike(p) => Like(Col(row, "category"), p)
    case ScoreAtLeast(v) =>
      Col(row, "lead_score") != VNone && BindOrNull(v) != VNone
      && SqlCmp(Col(row, "lead_score"), BindOrNull(v)) >= 0
    case NameLike(p) => Like(Col(row, "name"), p)
  }

  /** A row meets every condition of the WHERE clause. */
  predicate MeetsAll(row: Row, conds: set<Cond>) {
    forall c :: c in conds ==> Holds(row, c)
  }

  /** The positions of the table rows that meet every condition. */
  function MatchingIndices(rows: seq<Row>, conds: set<Cond>): set<int> {
    set j | 0 <= j < |rows| && MeetsAll(rows[j], conds)
  }

  /** The rows the WHERE clause keeps, in table order: a row is kept iff it meets every condition. */
  function Where(rows: seq<Row>, conds: set<Cond>): (r: seq<Row>)
    ensures |r| <= |rows|
    ensures forall x :: x in r <==> x in rows && forall c :: c in conds ==> Holds(x, c)
  {
    if rows == [] then []
    else if forall c :: c in conds ==> Holds(rows[0], c) then [rows[0]] + Where(rows[1..], conds)
    else Where(rows[1..], conds)
  }

  /** `ORDER BY lead_score DESC, scraped_at DESC`: `a` may come before `b`. */
  predicate Before(a: Row, b: Row) {
    var byScore := SqlCmp(Col(a, "lead_score"), Col(b, "lead_score"));
    byScore > 0 || (byScore == 0 && SqlCmp(Col(a, "scraped_at"), Col(b, "scraped_at")) >= 0)
  }

  predicate SortedRows(rows: seq<Row>) {
    forall i, j :: 0 <= i < j < |rows| ==> Before(rows[i], rows[j])
  }

  function InsertSorted(x: Row, rows: seq<Row>): seq<Row> {
    if rows == [] then [x]
    else if Before(x, rows[0]) then [x] + rows
    else [rows[0]] + InsertSorted(x, rows[1..])
  }

  /** The ORDER BY: ties keep table order (SQLite leaves their order open). */
  function SortRows(rows: seq<Row>): seq<Row> {
    if rows == [] then [] else InsertSorted(rows[0], SortRows(rows[1..]))
  }

  /** `LIMIT limit OFFSET offset`: a negative limit means no limit, a negative offset none. */
  function Window(rows: seq<Row>, limit: int, offset: int): seq<Row> {
    var start := if offset < 0 then 0 else offset;
    var rest := if start <= |rows| then rows[start..] else [];
    if limit < 0 || limit >= |rest| then rest else rest[..limit]
  }

  function Dicts(rows: seq<Row>): (r: seq<Record>)
    ensures |r| == |rows| && forall i :: 0 <= i < |rows| ==> r[i] == RowDict(rows[i])
  {
    if rows == [] then [] else [RowDict(rows[0])] + Dicts(rows[1..])
  }

  /** A row meets every filter entry the query loop recognises. */
  predicate Satisfies(row: Row, filters: Record, counting: bool) {
    forall k | k in filters :: WhereCond(k, filters[k], counting).Some? ==> Holds(row, WhereCond(k, filters[k], counting).value)
  }

  /** Some recognised filter has a value sqlite3 cannot bind: the query raises. */
  predicate BindError(filters: Record, counting: bool) {
    exists c :: c in CondsOf(filters, filters.Keys, counting) && !CondBindable(c)
  }

  /** What `get_companies(limit, offset, filters)` returns. */
  function QueryResult(rows: seq<Row>, filters: Record, limit: int, offset: int): seq<Record> {
    if BindError(filters, false) then []
    else Dicts(Window(SortRows(Where(rows, CondsOf(filters, filters.Keys, false))), limit, offset))
  }

  /** What `count_companies(filters)` returns. */
  function CountResult(rows: seq<Row>, filters: Record): int {
    if BindError(filters, true) then 0 else |Where(rows, CondsOf(filters, filters.Keys, true))|
  }

  // ================================================================ cache

  /** What a read of the text stored under a key gives: `json.loads(text)`, or the text itself. */
  function Decoded(codec: Codec, text: string): Value {
    match codec.decode(text)
    case Some(v) => v
    case None => VStr(text)
  }

  /** The text cache_set stores: a string as it is, anything else through `json.dumps`. */
  function StoredText(codec: Codec, v: Value): string {
    if v.VStr? then v.s else codec.encode(v)
  }

  /** What `cache_get(key)` returns at second `now` (VNone for Python's None). */
  function CacheLookup(cache: map<string, CacheEntry>, key: string, now: int,
                       enabled: bool, expiry: int, codec: Codec): Value {
    if !enabled || key !in cache || now >= cache[key].createdAt + expiry then VNone
    else Decoded(codec, cache[key].text)
  }

  /** The cache after `cache_set(key, value)` at second `now` (INSERT OR REPLACE). */
  function CacheStore(cache: map<string, CacheEntry>, key: string, value: Value, now: int,
                      enabled: bool, codec: Codec): map<string, CacheEntry> {
    if !enabled then cache else cache[key := CacheEntry(StoredText(codec, value), now)]
  }

  /** The cache after `cache_clear(key)`; a missing or empty key clears everything. */
  function CacheCleared(cache: map<string, CacheEntry>, key: Option<string>, enabled: bool): map<string, CacheEntry> {
    if !enabled then cache
    else if key.Some? && key.value != "" then cache - {key.value}
    else map[]
  }

  /**
   * A loop over positions 0 .. n-1 whose body reads and writes the cache:
   * the outputs in order, each run on the cache the one before left.
   */
  function FoldN<R>(step: (Cache, nat) -> (R, Cache), cache: Cache, n: nat): (r: (seq<R>, Cache))
    ensures |r.0| == n
  {
    if n == 0 then ([], cache)
    else
      var done := FoldN(step, cache, n - 1);
      var last := step(done.1, n - 1);
      (done.0 + [last.0], last.1)
  }

  // ================================================================ the store

  class Database {
    var companies: seq<Row>
    /** The AUTOINCREMENT counter of `companies` (its sqlite_sequence entry). */
    var sequence: int
    var cache: map<string, CacheEntry>
    var searches: seq<HistoryEntry>
    var exports: seq<HistoryEntry>
    /** CACHE_ENABLED, CACHE_EXPIRY (seconds) and the JSON codec. */
    const cacheEnabled: bool
    const cacheExpiry: int
    const codec: Codec

    ghost predicate Valid()
      reads this`companies, this`searches, this`exports
    {
      && UniqueIds(companies)
      && (forall j :: 0 <= j < |companies| ==> companies[j].cols.Keys == CompanyColumns)
      && (forall j :: 0 <= j < |searches| ==> searches[j].id == j + 1)
      && (forall j :: 0 <= j < |exports| ==> exports[j].id == j + 1)
    }

    /** A freshly initialised database file: every table empty. */
    constructor (cacheEnabled: bool, cacheExpiry: int, codec: Codec)
      ensures Valid()
      ensures companies == [] && sequence == 0 && cache == map[] && searches == [] && exports == []
      ensures this.cacheEnabled == cacheEnabled && this.cacheExpiry == cacheExpiry && this.codec == codec
    {
      companies, sequence, cache, searches, exports := [], 0, map[], [], [];
      this.cacheEnabled, this.cacheExpiry, this.codec := cacheEnabled, cacheExpiry, codec;
    }

    /** `insert_company(data)`, with `stamp` the CURRENT_TIMESTAMP text. */
    method InsertCompany(data: Record, stamp: string) returns (id: Option<int>)
      requires Valid()
      modifies this`companies, this`sequence
      ensures Valid()
      ensures Inserted(companies, sequence, id) == InsertOutcome(old(companies), old(sequence), data, stamp)
    {
      var name, city := Bind(Get(data, "name", VNone)), Bind(Get(data, "city", VNone));
      if name.None? || city.None? {
        return None;
      }
      var existing := FindByKey(companies, name.value, city.value);
      if existing.Some? {
        return Some(companies[existing.value].id);
      }
      id := NewId(data, companies, sequence);
      if id.Some? {
        NewIdIsFresh(data, companies, sequence);
        var row := NewRow(data, id.value, stamp);
        companies := companies + [row];
        if sequence < id.value {
          sequence := id.value;
        }
      }
    }

    /** `update_company(id, update)`: True iff a row has that id and the SET succeeds. */
    method UpdateCompany(companyId: int, update: Record) returns (ok: bool)
      requires Valid()
      modifies this`companies
      ensures Valid()
      ensures ok == UpdatedTable(old(companies), companyId, update).Some?
      ensures companies == if ok then UpdatedTable(old(companies), companyId, update).value else old(companies)
    {
      var next := UpdatedTable(companies, companyId, update);
      ok := next.Some?;
      if ok {
        UpdateKeepsValid(companies, companyId, update);
        companies := next.value;
      }
    }

    /**
     * `get_companies(limit, offset, filters)`: the loop over the filters
     * builds the WHERE clauses; the table answers the query.
     */
    method GetCompanies(limit: int, offset: int, filters: Record) returns (rows: seq<Record>)
      requires Valid()
      ensures rows == QueryResult(companies, filters, limit, offset)
    {
      var conds := WhereClauses(filters, false);
      if exists c :: c in conds && !CondBindable(c) {
        return [];
      }
      rows := Dicts(Window(SortRows(Where(companies, conds)), limit, offset));
    }

    /** `count_companies(filters)` */
    method CountCompanies(filters: Record) returns (n: int)
      requires Valid()
      ensures n == CountResult(companies, filters)
    {
      var conds := WhereClauses(filters, true);
      if exists c :: c in conds && !CondBindable(c) {
        return 0;
      }
      n := |Where(companies, conds)|;
    }

    /** `record_search(type, term, count)`: the id of the appended log row. */
    method RecordSearch(searchType: string, term: string, count: int, stamp: string) returns (id: int)
      requires Valid()
      modifies this`searches
      ensures Valid()
      ensures id == |old(searches)| + 1
      ensures searches == old(searches) + [HistoryEntry(id, searchType, term, count, stamp)]
    {
      id := |searches| + 1;
      searches := searches + [HistoryEntry(id, searchType, term, count, stamp)];
    }

    /** `record_export(type, path, count)`: the id of the appended log row. */
    method RecordExport(exportType: string, path: string, count: int, stamp: string) returns (id: int)
      requires Valid()
      modifies this`exports
      ensures Valid()
      ensures id == |old(exports)| + 1
      ensures exports == old(exports) + [HistoryEntry(id, exportType, path, count, stamp)]
    {
      id := |exports| + 1;
      exports := exports + [HistoryEntry(id, exportType, path, count, stamp)];
    }

    /** `cache_set(key, value)` at second `now`. */
    method CacheSet(key: string, value: Value, now: int) returns (ok: bool)
      modifies this`cache
      ensures ok == cacheEnabled
      ensures cache == CacheStore(old(cache), key, value, now, cacheEnabled, codec)
    {
      if !cacheEnabled {
        return false;
      }
      var text := if value.VStr? then value.s else codec.encode(value);
      cache := cache[key := CacheEntry(text, now)];
      ok := true;
    }

    /** `cache_get(key)` at second `now`. */
    method CacheGet(key: string, now: int) returns (v: Value)
      ensures v == CacheLookup(cache, key, now, cacheEnabled, cacheExpiry, codec)
    {
      if !cacheEnabled || key !in cache {
        return VNone;
      }
      var entry := cache[key];
      if now >= entry.createdAt + cacheExpiry {
        return VNone;
      }
      v := Decoded(codec, entry.text);
    }

    /** `cache_clear(key)`; None stands for the omitted argument. */
    method CacheClear(key: Option<string>) returns (ok: bool)
      modifies this`cache
      ensures ok == cacheEnabled
      ensures cache == CacheCleared(old(cache), key, cacheEnabled)
    {
      if !cacheEnabled {
        return false;
      }
      if key.Some? && key.value != "" {
        cache := cache - {key.value};
      } else {
        cache := map[];
      }
      ok := true;
    }
  }

  /** The filter loop of get_companies / count_companies: one clause per recognised entry. */
  method WhereClauses(filters: Record, counting: bool) returns (conds: set<Cond>)
    ensures conds == CondsOf(filters, filters.Keys, counting)
  {
    conds := {};
    var todo := filters.Keys;
    while todo != {}
      invariant todo <= filters.Keys
      invariant conds == CondsOf(filters, filters.Keys - todo, counting)
      decreases todo
    {
      var key :| key in todo;
      var clause := WhereCond(key, filters[key], counting);
      if clause.Some? {
        conds := conds + {clause.value};
      }
      todo := todo - {key};
      assert filters.Keys - todo == (filters.Keys - (todo + {key})) + {key};
    }
  }

  // ================================================================ lemmas: insert / update

  /** The id an INSERT gives is held by no existing row. */
  lemma NewIdIsFresh(data: Record, rows: seq<Row>, sequence: int)
    requires NewId(data, rows, sequence).Some?
    ensures !HasId(rows, NewId(data, rows, sequence).value)
  {
  }

  /**
   * A record whose (name, city) matches some row returns the id of a
   * matching row and writes nothing.
   */
  lemma InsertExistingKey(rows: seq<Row>, sequence: int, data: Record, stamp: string, j: int)
    requires Bind(Get(data, "name", VNone)).Some? && Bind(Get(data, "city", VNone)).Some?
    requires 0 <= j < |rows| && KeyMatches(rows[j], BindOrNull(Get(data, "name", VNone)), BindOrNull(Get(data, "city", VNone)))
    ensures var out := InsertOutcome(rows, sequence, data, stamp);
      && out.rows == rows && out.sequence == sequence && out.id.Some?
      && exists i :: 0 <= i <= j && rows[i].id == out.id.value
                     && KeyMatches(rows[i], BindOrNull(Get(data, "name", VNone)), BindOrNull(Get(data, "city", VNone)))
  {
    var found := FindByKey(rows, BindOrNull(Get(data, "name", VNone)), BindOrNull(Get(data, "city", VNone)));
    assert found.Some? && found.value <= j;
  }

  /**
   * A record whose (name, city) matches no row adds exactly one row, after
   * the existing ones, holding the record's values (NULL for absent columns,
   * the insert time for an absent `scraped_at`), under an id no row had.
   */
  lemma InsertNewKey(rows: seq<Row>, sequence: int, data: Record, stamp: string)
    requires Bind(Get(data, "name", VNone)).Some? && Bind(Get(data, "city", VNone)).Some?
    requires FindByKey(rows, BindOrNull(Get(data, "name", VNone)), BindOrNull(Get(data, "city", VNone))).None?
    requires NewId(data, rows, sequence).Some?
    ensures var out := InsertOutcome(rows, sequence, data, stamp);
      && out.id.Some? && !HasId(rows, out.id.value)
      && |out.rows| == |rows| + 1 && out.rows[..|rows|] == rows
      && var row := out.rows[|rows|];
         && row.id == out.id.value && row.cols.Keys == CompanyColumns
         && (forall c :: c in CompanyColumns && c in data ==> row.cols[c] == BindOrNull(data[c]))
         && (forall c :: c in CompanyColumns && c !in data && c != "scraped_at" ==> row.cols[c] == VNone)
         && ("scraped_at" !in data ==> row.cols["scraped_at"] == VStr(stamp))
  {
    var out := InsertOutcome(rows, sequence, data, stamp);
    assert out.rows[..|rows|] == rows;
  }

  /** A record without a name or a city matches no row, so it is inserted whenever sqlite accepts it. */
  lemma NullKeyAlwaysInserted(rows: seq<Row>, sequence: int, data: Record, stamp: string)
    requires Get(data, "name", VNone) == VNone || Get(data, "city", VNone) == VNone
    requires Bind(Get(data, "name", VNone)).Some? && Bind(Get(data, "city", VNone)).Some?
    ensures var out := InsertOutcome(rows, sequence, data, stamp);
      && out.id == NewId(data, rows, sequence)
      && (out.id.Some? ==> |out.rows| == |rows| + 1)
  {
    assert FindByKey(rows, BindOrNull(Get(data, "name", VNone)), BindOrNull(Get(data, "city", VNone))).None?;
  }

  /**
   * Inserting the same record again, once the first insert has returned an
   * id, returns that id and writes nothing (for a non-NULL name and city).
   */
  lemma {:induction false} SecondInsertFindsFirst(rows: seq<Row>, sequence: int, data: Record, stamp: string, later: string)
    requires Bind(Get(data, "name", VNone)).Some? && Bind(Get(data, "city", VNone)).Some?
    requires BindOrNull(Get(data, "name", VNone)) != VNone && BindOrNull(Get(data, "city", VNone)) != VNone
    requires InsertOutcome(rows, sequence, data, stamp).id.Some?
    ensures var first := InsertOutcome(rows, sequence, data, stamp);
      InsertOutcome(first.rows, first.sequence, data, later) == first
  {
    var name, city := BindOrNull(Get(data, "name", VNone)), BindOrNull(Get(data, "city", VNone));
    var first := InsertOutcome(rows, sequence, data, stamp);
    if FindByKey(rows, name, city).None? {
      var row := NewRow(data, NewId(data, rows, sequence).value, stamp);
      var grown := rows + [row];
      assert first.rows == grown;
      assert "name" in data && "city" in data;
      assert Col(row, "name") == name && Col(row, "city") == city;
      assert KeyMatches(grown[|rows|], name, city);
      forall j | 0 <= j < |rows| ensures !KeyMatches(grown[j], name, city) {
        assert grown[j] == rows[j];
      }
      var r := FindByKey(grown, name, city);
      assert r.Some?;
    }
  }

  lemma UpdateKeepsValid(rows: seq<Row>, companyId: int, update: Record)
    requires UniqueIds(rows) && forall j :: 0 <= j < |rows| ==> rows[j].cols.Keys == CompanyColumns
    requires UpdatedTable(rows, companyId, update).Some?
    ensures var next := UpdatedTable(rows, companyId, update).value;
      UniqueIds(next) && forall j :: 0 <= j < |next| ==> next[j].cols.Keys == CompanyColumns
  {
    var j := FindById(rows, companyId).value;
    var next := UpdatedTable(rows, companyId, update).value;
    var p := Patched(rows[j], update);
    assert next == rows[j := p];
    assert p.cols.Keys == CompanyColumns;
    if "id" in update {
      assert p.id == companyId || !HasId(rows, p.id);
      forall a, b | 0 <= a < b < |next| ensures next[a].id != next[b].id {
        if a == j || b == j {
          var other := if a == j then b else a;
          assert next[other] == rows[other];
          if p.id != companyId {
            assert rows[other].id != p.id;
          } else {
            assert rows[other].id != rows[j].id;
          }
        }
      }
    }
  }

  /**
   * update_company overwrites exactly the listed columns of the row with that
   * id, and touches no other row; it succeeds iff such a row exists (for a
   * SET list sqlite accepts, without `id`).
   */
  lemma {:induction false} UpdateOverwritesListedColumns(rows: seq<Row>, companyId: int, update: Record)
    requires UniqueIds(rows) && forall j :: 0 <= j < |rows| ==> rows[j].cols.Keys == CompanyColumns
    requires PatchOk(update) && "id" !in update
    ensures UpdatedTable(rows, companyId, update).Some? <==> HasId(rows, companyId)
    ensures UpdatedTable(rows, companyId, update).Some? ==>
      var next := UpdatedTable(rows, companyId, update).value;
      |next| == |rows|
      && forall j :: 0 <= j < |rows| ==>
           next[j].id == rows[j].id
           && (rows[j].id != companyId ==> next[j] == rows[j])
           && (rows[j].id == companyId ==>
                 forall c :: c in CompanyColumns ==>
                   next[j].cols[c] == if c in update then BindOrNull(update[c]) else rows[j].cols[c])
  {
    var found := FindById(rows, companyId);
    if found.Some? {
      var j := found.value;
      assert HasId(rows, companyId);
      var next := UpdatedTable(rows, companyId, update).value;
      forall i | 0 <= i < |rows| && rows[i].id == companyId ensures i == j {
        UniqueIdsAt(rows, i, j);
      }
    } else {
      assert !HasId(rows, companyId);
    }
  }

  // ================================================================ lemmas: queries

  /** The loop's clauses say exactly what the filter entries ask for. */
  lemma WhereClausesMeanFilters(row: Row, filters: Record, counting: bool)
    ensures (forall c :: c in CondsOf(filters, filters.Keys, counting) ==> Holds(row, c)) <==> Satisfies(row, filters, counting)
  {
    var conds := CondsOf(filters, filters.Keys, counting);
    if forall c :: c in conds ==> Holds(row, c) {
      forall k | k in filters && WhereCond(k, filters[k], counting).Some?
        ensures Holds(row, WhereCond(k, filters[k], counting).value)
      {
        assert WhereCond(k, filters[k], counting).value in conds;
      }
    }
  }

  lemma UniqueIdsAt(rows: seq<Row>, i: int, j: int)
    requires UniqueIds(rows) && 0 <= i < |rows| && 0 <= j < |rows| && rows[i].id == rows[j].id
    ensures i == j
  {
  }

  lemma {:induction false} InsertSortedPermutes(x: Row, rows: seq<Row>)
    ensures multiset(InsertSorted(x, rows)) == multiset(rows) + multiset{x}
  {
    if rows != [] && !Before(x, rows[0]) {
      InsertSortedPermutes(x, rows[1..]);
      assert rows == [rows[0]] + rows[1..];
    }
  }

  /** In a sorted table the first row may precede every later one. */
  lemma HeadBeforeRest(rows: seq<Row>, y: Row)
    requires SortedRows(rows) && |rows| > 0 && y in rows[1..]
    ensures Before(rows[0], y)
  {
    var k :| 0 <= k < |rows[1..]| && rows[1..][k] == y;
    assert rows[k + 1] == y;
  }

  lemma SortedTail(rows: seq<Row>)
    requires SortedRows(rows) && rows != []
    ensures SortedRows(rows[1..])
  {
    forall i, j | 0 <= i < j < |rows[1..]| ensures Before(rows[1..][i], rows[1..][j]) {
      assert rows[1..][i] == rows[i + 1] && rows[1..][j] == rows[j + 1];
    }
  }

  /** A row that may precede every row of a sorted table may head it. */
  lemma ConsSorted(a: Row, rows: seq<Row>)
    requires SortedRows(rows) && forall y | y in rows :: Before(a, y)
    ensures SortedRows([a] + rows)
  {
    var r := [a] + rows;
    forall i, j | 0 <= i < j < |r| ensures Before(r[i], r[j]) {
      assert r[j] == rows[j - 1];
      if i > 0 {
        assert r[i] == rows[i - 1];
      }
    }
  }

  lemma {:induction false} InsertSortedSorts(x: Row, rows: seq<Row>)
    requires SortedRows(rows)
    ensures SortedRows(InsertSorted(x, rows))
  {
    if rows == [] {
    } else if !Before(x, rows[0]) {
      var tail := InsertSorted(x, rows[1..]);
      SortedTail(rows);
      InsertSortedSorts(x, rows[1..]);
      InsertSortedPermutes(x, rows[1..]);
      BeforeTotal(x, rows[0]);
      forall y | y in tail ensures Before(rows[0], y) {
        assert y in multiset(tail);
        if y != x {
          assert y in multiset(rows[1..]);
          HeadBeforeRest(rows, y);
        }
      }
      ConsSorted(rows[0], tail);
    } else {
      forall y | y in rows ensures Before(x, y) {
        var k :| 0 <= k < |rows| && rows[k] == y;
        if k > 0 {
          BeforeTransitive(x, rows[0], y);
        }
      }
      ConsSorted(x, rows);
    }
  }

  /** ORDER BY yields every row it is given, in order of lead_score then scraped_at, both descending. */
  lemma {:induction false} SortRowsSortsAndPermutes(rows: seq<Row>)
    ensures multiset(SortRows(rows)) == multiset(rows)
    ensures SortedRows(SortRows(rows))
  {
    if rows != [] {
      SortRowsSortsAndPermutes(rows[1..]);
      InsertSortedPermutes(rows[0], SortRows(rows[1..]));
      InsertSortedSorts(rows[0], SortRows(rows[1..]));
      assert rows == [rows[0]] + rows[1..];
    }
  }

  lemma {:induction false} StrCmpAntisymmetric(a: string, b: string)
    ensures StrCmp(a, b) == -StrCmp(b, a)
    ensures StrCmp(a, b) == 0 <==> a == b
    decreases |a|
  {
    if a != [] && b != [] && a[0] == b[0] {
      StrCmpAntisymmetric(a[1..], b[1..]);
      if a[1..] == b[1..] {
        assert a == [a[0]] + a[1..] && b == [b[0]] + b[1..];
      }
    }
  }

  lemma {:induction false} StrCmpTransitive(a: string, b: string, c: string)
    requires StrCmp(a, b) >= 0 && StrCmp(b, c) >= 0
    ensures StrCmp(a, c) >= 0
    ensures StrCmp(a, b) > 0 || StrCmp(b, c) > 0 ==> StrCmp(a, c) > 0
    decreases |a|
  {
    StrCmpAntisymmetric(a, b);
    StrCmpAntisymmetric(b, c);
    StrCmpAntisymmetric(a, c);
    if a != [] && b != [] && c != [] && a[0] == b[0] && b[0] == c[0] {
      StrCmpTransitive(a[1..], b[1..], c[1..]);
    }
  }

  lemma SqlCmpAntisymmetric(a: Value, b: Value)
    ensures SqlCmp(a, b) == -SqlCmp(b, a)
  {
    if a.VStr? && b.VStr? {
      StrCmpAntisymmetric(a.s, b.s);
    }
  }

  lemma SqlCmpTransitive(a: Value, b: Value, c: Value)
    requires SqlCmp(a, b) >= 0 && SqlCmp(b, c) >= 0
    ensures SqlCmp(a, c) >= 0
    ensures SqlCmp(a, b) > 0 || SqlCmp(b, c) > 0 ==> SqlCmp(a, c) > 0
  {
    if a.VStr? && b.VStr? && c.VStr? {
      StrCmpTransitive(a.s, b.s, c.s);
    }
  }

  lemma BeforeTotal(a: Row, b: Row)
    ensures Before(a, b) || Before(b, a)
  {
    SqlCmpAntisymmetric(Col(a, "lead_score"), Col(b, "lead_score"));
    SqlCmpAntisymmetric(Col(a, "scraped_at"), Col(b, "scraped_at"));
  }

  lemma BeforeTransitive(a: Row, b: Row, c: Row)
    requires Before(a, b) && Before(b, c)
    ensures Before(a, c)
  {
    var la, lb, lc := Col(a, "lead_score"), Col(b, "lead_score"), Col(c, "lead_score");
    SqlCmpAntisymmetric(la, lb);
    SqlCmpAntisymmetric(lb, lc);
    SqlCmpTransitive(la, lb, lc);
    if SqlCmp(la, lb) == 0 && SqlCmp(lb, lc) == 0 {
      SqlCmpTransitive(Col(a, "scraped_at"), Col(b, "scraped_at"), Col(c, "scraped_at"));
    }
  }

  /**
   * get_companies returns at most `limit` rows (for a non-negative limit);
   * each is a row of the table meeting every recognised filter; and they come
   * in ORDER BY order, lead_score then scraped_at, both descending.
   */
  lemma QueryResultProperties(rows: seq<Row>, filters: Record, limit: int, offset: int)
    ensures var r := QueryResult(rows, filters, limit, offset);
      && (limit >= 0 ==> |r| <= limit)
      && (forall i :: 0 <= i < |r| ==>
            exists j :: 0 <= j < |rows| && r[i] == RowDict(rows[j]) && Satisfies(rows[j], filters, false))
  {
    if !BindError(filters, false) {
      var conds := CondsOf(filters, filters.Keys, false);
      var kept := Where(rows, conds);
      var sorted := SortRows(kept);
      SortRowsMembers(kept);
      var win := Window(sorted, limit, offset);
      WindowMembers(sorted, limit, offset);
      var r := QueryResult(rows, filters, limit, offset);
      assert r == Dicts(win);
      forall i | 0 <= i < |r|
        ensures exists j :: 0 <= j < |rows| && r[i] == RowDict(rows[j]) && Satisfies(rows[j], filters, false)
      {
        assert win[i] in kept;
        WhereClausesMeanFilters(win[i], filters, false);
        var j :| 0 <= j < |rows| && rows[j] == win[i];
      }
    }
  }

  /** The WHERE clause over two stretches of the table keeps each stretch's rows, in order. */
  lemma {:induction false} WhereAppend(a: seq<Row>, b: seq<Row>, conds: set<Cond>)
    ensures Where(a + b, conds) == Where(a, conds) + Where(b, conds)
    decreases |a|
  {
    if a == [] {
      assert a + b == b;
    } else {
      assert (a + b)[0] == a[0] && (a + b)[1..] == a[1..] + b;
      WhereAppend(a[1..], b, conds);
    }
  }

  /** Every matching row is kept as often as the table holds it; no other row is kept. */
  lemma {:induction false} WhereCounts(rows: seq<Row>, conds: set<Cond>)
    ensures forall x :: multiset(Where(rows, conds))[x] == if MeetsAll(x, conds) then multiset(rows)[x] else 0
    decreases |rows|
  {
    if rows != [] {
      WhereCounts(rows[1..], conds);
      assert rows == [rows[0]] + rows[1..];
    }
  }

  /** The WHERE clause keeps one row per matching position of the table. */
  lemma {:induction false} WhereSize(rows: seq<Row>, conds: set<Cond>)
    ensures |Where(rows, conds)| == |MatchingIndices(rows, conds)|
    decreases |rows|
  {
    if rows == [] {
      assert MatchingIndices(rows, conds) == {};
    } else {
      var n := |rows| - 1;
      var init := rows[..n];
      assert rows == init + [rows[n]];
      WhereAppend(init, [rows[n]], conds);
      WhereSize(init, conds);
      assert [rows[n]][1..] == [];
      var s := MatchingIndices(init, conds);
      assert MatchingIndices(rows, conds) == s + (if MeetsAll(rows[n], conds) then {n} else {});
      assert n !in s;
    }
  }

  /** The rows meeting every recognised filter, by position, are the ones meeting the loop's clauses. */
  lemma MatchingIndicesMeanFilters(rows: seq<Row>, filters: Record, counting: bool)
    ensures MatchingIndices(rows, CondsOf(filters, filters.Keys, counting))
         == set j | 0 <= j < |rows| && Satisfies(rows[j], filters, counting)
  {
    forall j | 0 <= j < |rows| {
      WhereClausesMeanFilters(rows[j], filters, counting);
    }
  }

  /** ORDER BY keeps every row it is given, once per occurrence. */
  lemma SortRowsKeepsRows(rows: seq<Row>)
    ensures |SortRows(rows)| == |rows| && forall x :: x in rows ==> x in SortRows(rows)
  {
    SortRowsSortsAndPermutes(rows);
    assert |SortRows(rows)| == |multiset(SortRows(rows))|;
    forall x | x in rows ensures x in SortRows(rows) {
      assert x in multiset(rows);
    }
  }

  /** A row's dict is among the dicts of a sequence holding that row. */
  lemma DictsHave(rows: seq<Row>, x: Row)
    requires x in rows
    ensures RowDict(x) in Dicts(rows)
  {
    var i :| 0 <= i < |rows| && rows[i] == x;
    assert Dicts(rows)[i] == RowDict(x);
  }

  /**
   * Without LIMIT and OFFSET, get_companies returns every row meeting every
   * recognised filter, and one dict per such row; a filter sqlite3 cannot bind
   * gives nothing.
   */
  lemma QueryResultComplete(rows: seq<Row>, filters: Record, limit: int, offset: int)
    requires limit < 0 && offset <= 0
    ensures BindError(filters, false) ==> QueryResult(rows, filters, limit, offset) == []
    ensures !BindError(filters, false) ==>
      && |QueryResult(rows, filters, limit, offset)| == |set j | 0 <= j < |rows| && Satisfies(rows[j], filters, false)|
      && forall j :: 0 <= j < |rows| && Satisfies(rows[j], filters, false) ==> RowDict(rows[j]) in QueryResult(rows, filters, limit, offset)
  {
    if !BindError(filters, false) {
      var conds := CondsOf(filters, filters.Keys, false);
      var kept := Where(rows, conds);
      var sorted := SortRows(kept);
      SortRowsKeepsRows(kept);
      assert Window(sorted, limit, offset) == sorted[0..] == sorted;
      var r := QueryResult(rows, filters, limit, offset);
      assert r == Dicts(sorted);
      WhereSize(rows, conds);
      MatchingIndicesMeanFilters(rows, filters, false);
      forall j | 0 <= j < |rows| && Satisfies(rows[j], filters, false)
        ensures RowDict(rows[j]) in r
      {
        WhereClausesMeanFilters(rows[j], filters, false);
        DictsHave(sorted, rows[j]);
      }
    }
  }

  /** count_companies is the number of table rows meeting every filter it recognises, 0 when one cannot be bound. */
  lemma CountIsMatchingRows(rows: seq<Row>, filters: Record)
    ensures CountResult(rows, filters) ==
      if BindError(filters, true) then 0 else |set j | 0 <= j < |rows| && Satisfies(rows[j], filters, true)|
  {
    WhereSize(rows, CondsOf(filters, filters.Keys, true));
    MatchingIndicesMeanFilters(rows, filters, true);
  }

  /** ORDER BY returns only rows it was given. */
  lemma SortRowsMembers(rows: seq<Row>)
    ensures forall x :: x in SortRows(rows) ==> x in rows
  {
    SortRowsSortsAndPermutes(rows);
    forall x | x in SortRows(rows) ensures x in rows {
      assert x in multiset(SortRows(rows));
    }
  }

  /** LIMIT/OFFSET keep at most `limit` rows (when non-negative), all drawn from the input. */
  lemma WindowMembers(rows: seq<Row>, limit: int, offset: int)
    ensures limit >= 0 ==> |Window(rows, limit, offset)| <= limit
    ensures forall i :: 0 <= i < |Window(rows, limit, offset)| ==> Window(rows, limit, offset)[i] in rows
  {
    var start := if offset < 0 then 0 else offset;
    forall i | 0 <= i < |Window(rows, limit, offset)| ensures Window(rows, limit, offset)[i] in rows {
      assert Window(rows, limit, offset)[i] == rows[start + i];
    }
  }

  /** A window of a sorted table is sorted. */
  lemma WindowKeepsOrder(rows: seq<Row>, limit: int, offset: int)
    requires SortedRows(rows)
    ensures SortedRows(Window(rows, limit, offset))
  {
    var win := Window(rows, limit, offset);
    var start := if offset < 0 then 0 else offset;
    forall i, j | 0 <= i < j < |win| ensures Before(win[i], win[j]) {
      assert win[i] == rows[start + i] && win[j] == rows[start + j];
    }
  }

  /** The rows get_companies returns are in ORDER BY order. */
  lemma QueryResultOrdered(rows: seq<Row>, filters: Record, limit: int, offset: int)
    requires !BindError(filters, false)
    ensures var win := Window(SortRows(Where(rows, CondsOf(filters, filters.Keys, false))), limit, offset);
      QueryResult(rows, filters, limit, offset) == Dicts(win) && SortedRows(win)
  {
    var sorted := SortRows(Where(rows, CondsOf(filters, filters.Keys, false)));
    SortRowsSortsAndPermutes(Where(rows, CondsOf(filters, filters.Keys, false)));
    WindowKeepsOrder(sorted, limit, offset);
  }

  /** Keys get_companies does not recognise change nothing. */
  lemma IgnoredFiltersChangeNothing(rows: seq<Row>, filters: Record, key: string, value: Value, limit: int, offset: int)
    requires key !in {"id", "city", "state", "category", "min_lead_score", "name"}
    ensures QueryResult(rows, filters[key := value], limit, offset) == QueryResult(rows, filters - {key}, limit, offset)
  {
    var f1, f2 := filters[key := value], filters - {key};
    var a, b := CondsOf(f1, f1.Keys, false), CondsOf(f2, f2.Keys, false);
    forall c ensures c in a <==> c in b {
      if c in a {
        var k :| k in f1 && WhereCond(k, f1[k], false).Some? && WhereCond(k, f1[k], false).value == c;
        assert k != key && f2[k] == f1[k];
      }
      if c in b {
        var k :| k in f2 && WhereCond(k, f2[k], false).Some? && WhereCond(k, f2[k], false).value == c;
        assert f1[k] == f2[k];
      }
    }
    assert a == b;
  }

  /**
   * count_companies ignores `id` and `name`, and counts what an unlimited
   * get_companies with the remaining filters returns.
   */
  lemma CountIsUnlimitedQuery(rows: seq<Row>, filters: Record)
    ensures CountResult(rows, filters) == |QueryResult(rows, filters - {"id", "name"}, -1, 0)|
  {
    var rest := filters - {"id", "name"};
    var a, b := CondsOf(filters, filters.Keys, true), CondsOf(rest, rest.Keys, false);
    forall c ensures c in a <==> c in b {
      if c in a {
        var k :| k in filters && WhereCond(k, filters[k], true).Some? && WhereCond(k, filters[k], true).value == c;
        assert k in rest && rest[k] == filters[k];
      }
      if c in b {
        var k :| k in rest && WhereCond(k, rest[k], false).Some? && WhereCond(k, rest[k], false).value == c;
        assert filters[k] == rest[k];
      }
    }
    assert a == b;
    SortRowsSortsAndPermutes(Where(rows, CondsOf(rest, rest.Keys, false)));
  }

  // ================================================================ lemmas: cache

  /** Output i is the step at position i, run on the cache the first i steps left. */
  lemma {:induction false} FoldNAt<R>(step: (Cache, nat) -> (R, Cache), cache: Cache, n: nat, i: nat)
    requires i < n
    ensures FoldN(step, cache, n).0[i] == step(FoldN(step, cache, i).1, i).0
  {
    if i < n - 1 {
      FoldNAt(step, cache, n - 1, i);
    }
  }

  /** Steps that never write the cache leave it as it was. */
  lemma {:induction false} FoldNKeepsCache<R>(step: (Cache, nat) -> (R, Cache), cache: Cache, n: nat)
    requires forall c: Cache, k: nat :: step(c, k).1 == c
    ensures FoldN(step, cache, n).1 == cache
  {
    if n > 0 {
      FoldNKeepsCache(step, cache, n - 1);
    }
  }

  /**
   * After cache_set, a cache_get before the entry expires returns the value:
   * a non-string comes back through JSON unchanged; a string that parses as
   * JSON comes back parsed, any other string as it was.
   */
  lemma CacheRoundTrip(cache: map<string, CacheEntry>, key: string, v: Value, setAt: int, now: int, expiry: int, codec: Codec)
    requires SoundCodec(codec)
    requires now < setAt + expiry
    ensures var back := CacheLookup(CacheStore(cache, key, v, setAt, true, codec), key, now, true, expiry, codec);
      && (!v.VStr? ==> back == v)
      && (v.VStr? ==> back == (match codec.decode(v.s) case Some(parsed) => parsed case None => v))
  {
    if !v.VStr? {
      assert codec.decode(codec.encode(v)) == Some(v);
    }
  }

  /** cache_get is absent when caching is off, the key was never set, or the entry has expired. */
  lemma CacheMisses(cache: map<string, CacheEntry>, key: string, now: int, enabled: bool, expiry: int, codec: Codec)
    ensures !enabled ==> CacheLookup(cache, key, now, enabled, expiry, codec) == VNone
    ensures key !in cache ==> CacheLookup(cache, key, now, enabled, expiry, codec) == VNone
    ensures key in cache && now >= cache[key].createdAt + expiry ==> CacheLookup(cache, key, now, enabled, expiry, codec) == VNone
    ensures enabled && key in cache && now < cache[key].createdAt + expiry ==>
      CacheLookup(cache, key, now, enabled, expiry, codec) == Decoded(codec, cache[key].text)
  {
  }

  /** A second cache_set on a key replaces the first. */
  lemma CacheSetReplaces(cache: map<string, CacheEntry>, key: string, v1: Value, t1: int, v2: Value, t2: int, enabled: bool, codec: Codec)
    ensures CacheStore(CacheStore(cache, key, v1, t1, enabled, codec), key, v2, t2, enabled, codec)
         == CacheStore(cache, key, v2, t2, enabled, codec)
  {
  }

  /** cache_clear(key) removes that key and keeps every other; with no key it removes all; disabled it changes nothing. */
  lemma CacheClearScope(cache: map<string, CacheEntry>, key: string, other: string)
    requires key != "" && other != key
    ensures key !in CacheCleared(cache, Some(key), true)
    ensures other in cache ==> other in CacheCleared(cache, Some(key), true) && CacheCleared(cache, Some(key), true)[other] == cache[other]
    ensures other !in cache ==> other !in CacheCleared(cache, Some(key), true)
    ensures CacheCleared(cache, None, true) == map[] && CacheCleared(cache, Some(""), true) == map[]
    ensures CacheCleared(cache, Some(key), false) == cache
  {
  }
}
