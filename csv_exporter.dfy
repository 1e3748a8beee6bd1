/**
 * The CSV exporter: one row of seventeen fixed fields per company, and the
 * plain-text file of numbered outreach e-mails. The files are modelled as
 * what is written to them (the rows of cells, the text); quoting and line
 * endings of the csv module are not.
 */
module CsvExporter {
  import opened Values
  import opened Store
  import opened Files

  /** The exported fields, in column order. */
  const Fieldnames: seq<string> := [
    "name", "address", "city", "state", "zipcode", "phone", "email", "website",
    "contact_person", "contact_title", "category", "building_size", "year_built",
    "lead_score", "description", "source", "notes"
  ]

  /** `{field: company.get(field, '') for field in fieldnames}`. */
  function RowDict(company: Record): Record {
    map f | f in Fieldnames :: Get(company, f, VStr(""))
  }

  /** The cells DictWriter writes for that dict, in column order. */
  function CsvRow(company: Record): seq<string> {
    seq(|Fieldnames|, j requires 0 <= j < |Fieldnames| => Cell(Get(company, Fieldnames[j], VStr(""))))
  }

  /** Column j holds what the row dict maps the j-th fieldname to; the dict has no other keys. */
  lemma RowDictCells(company: Record)
    ensures RowDict(company).Keys == set f | f in Fieldnames
    ensures forall j :: 0 <= j < |Fieldnames| ==> CsvRow(company)[j] == Cell(RowDict(company)[Fieldnames[j]])
  {
  }

  function CsvRows(companies: seq<Record>): (r: seq<seq<string>>)
    ensures |r| == |companies|
  {
    seq(|companies|, i requires 0 <= i < |companies| => CsvRow(companies[i]))
  }

  /** The header followed by one row per company, in order. */
  function CsvDocument(companies: seq<Record>): seq<seq<string>> {
    [Fieldnames] + CsvRows(companies)
  }

  lemma CsvRowsSnoc(companies: seq<Record>, i: int)
    requires 0 <= i < |companies|
    ensures CsvRows(companies[..i + 1]) == CsvRows(companies[..i]) + [CsvRow(companies[i])]
  {
  }

  /** The record restricted to the exported fields. */
  function Project(company: Record): Record {
    map k | k in company && k in Fieldnames :: company[k]
  }

  /** Every row has the seventeen fields in order: the record's text where present, "" where missing. */
  lemma RowCells(company: Record)
    ensures |CsvRow(company)| == |Fieldnames| == 17
    ensures forall j :: 0 <= j < |Fieldnames| && Fieldnames[j] !in company ==> CsvRow(company)[j] == ""
    ensures forall j :: 0 <= j < |Fieldnames| && Fieldnames[j] in company && company[Fieldnames[j]].VStr? ==>
      CsvRow(company)[j] == company[Fieldnames[j]].s
  {
  }

  /** Keys outside the fieldnames never reach the file: the row depends on the projected record only. */
  lemma RowIgnoresExtraKeys(company: Record)
    ensures CsvRow(company) == CsvRow(Project(company))
  {
    assert RowDict(company) == RowDict(Project(company));
  }

  /** The document has the header and then row i+1 for company i. */
  lemma CsvDocumentLayout(companies: seq<Record>)
    ensures |CsvDocument(companies)| == |companies| + 1 && CsvDocument(companies)[0] == Fieldnames
    ensures forall i :: 0 <= i < |companies| ==> CsvDocument(companies)[i + 1] == CsvRow(companies[i])
  {
  }

  // ================================================================ outreach e-mails

  /** `"=" * 70`, then a blank line. */
  const Rule: string := "======================================================================\n\n"

  /** `company.get('name', 'Unknown Company')` as printed: the fallback stands in only for a missing key. */
  function NameShown(company: Record): (r: string)
    ensures "name" !in company ==> r == "Unknown Company"
    ensures "name" in company && company["name"].VStr? ==> r == company["name"].s
    ensures "name" in company && company["name"].VNone? ==> r == "None"
  {
    Show(Get(company, "name", VStr("Unknown Company")))
  }

  /** `EMAIL #{i+1}: {name}`. */
  function Heading(i: nat, company: Record): string {
    "EMAIL #" + IntToString(i + 1) + ": " + NameShown(company) + "\n"
  }

  /** The block written for the i-th company and its e-mail. */
  function Block(i: nat, company: Record, email: string): string {
    Heading(i, company) + Rule + email + "\n\n" + Rule
  }

  /** The texts of the blocks, one per company, numbered in input order. */
  function BlockTexts(companies: seq<Record>, emails: seq<string>): (r: seq<string>)
    requires |companies| == |emails|
    ensures |r| == |companies|
  {
    seq(|companies|, i requires 0 <= i < |companies| => Block(i, companies[i], emails[i]))
  }

  /** The parts written one after another. */
  function Concat(parts: seq<string>): string
    decreases |parts|
  {
    if parts == [] then "" else Concat(parts[..|parts| - 1]) + parts[|parts| - 1]
  }

  /** The whole file: the blocks of all companies in order. */
  function Blocks(companies: seq<Record>, emails: seq<string>): string
    requires |companies| == |emails|
  {
    Concat(BlockTexts(companies, emails))
  }

  /** The checks export_outreach_emails makes before writing. */
  predicate OutreachAccepted(companies: seq<Record>, emails: seq<string>) {
    companies != [] && emails != [] && |companies| == |emails|
  }

  /** Part i is written right after the parts before it. */
  lemma {:induction false} ConcatInOrder(parts: seq<string>, i: int)
    requires 0 <= i < |parts|
    ensures Concat(parts[..i]) + parts[i] <= Concat(parts)
    decreases |parts|
  {
    var n := |parts| - 1;
    var init := parts[..n];
    if i == n {
      assert init == parts[..i];
    } else {
      ConcatInOrder(init, i);
      assert init[..i] == parts[..i] && init[i] == parts[i];
      var front := Concat(parts[..i]) + parts[i];
      assert (Concat(init) + parts[n])[..|front|] == Concat(init)[..|front|];
    }
  }

  /** Block i comes right after the blocks of the companies before it. */
  lemma BlocksInOrder(companies: seq<Record>, emails: seq<string>, i: int)
    requires |companies| == |emails| && 0 <= i < |companies|
    ensures Blocks(companies[..i], emails[..i]) + Block(i, companies[i], emails[i]) <= Blocks(companies, emails)
  {
    var parts := BlockTexts(companies, emails);
    ConcatInOrder(parts, i);
    assert parts[..i] == BlockTexts(companies[..i], emails[..i]);
  }

  /** Writing block i after the first i blocks gives the first i+1. */
  lemma BlocksSnoc(companies: seq<Record>, emails: seq<string>, i: int)
    requires |companies| == |emails| && 0 <= i < |companies|
    ensures Blocks(companies[..i + 1], emails[..i + 1]) == Blocks(companies[..i], emails[..i]) + Block(i, companies[i], emails[i])
  {
    var parts := BlockTexts(companies[..i + 1], emails[..i + 1]);
    assert parts[..i] == BlockTexts(companies[..i], emails[..i]);
  }

  class CSVExporter {
    const db: Database
    const outputDir: string

    constructor (db: Database, outputDir: string)
      ensures this.db == db && this.outputDir == outputDir
    {
      this.db, this.outputDir := db, outputDir;
    }

    /** The header, then one `writerow` per company. */
    static method WriteRows(companies: seq<Record>) returns (rows: seq<seq<string>>)
      ensures rows == CsvDocument(companies)
    {
      rows := [Fieldnames];
      var i := 0;
      while i < |companies|
        invariant 0 <= i <= |companies|
        invariant rows == [Fieldnames] + CsvRows(companies[..i])
      {
        CsvRowsSnoc(companies, i);
        rows := rows + [CsvRow(companies[i])];
        i := i + 1;
      }
      assert companies[..i] == companies;
    }

    /**
     * `export(companies, filename)`; `timestamp` is the `%Y%m%d_%H%M%S` text,
     * `writable` whether the file can be written, `stamp` the database's clock.
     */
    method Export(companies: seq<Record>, filename: Option<string>, timestamp: string, writable: bool, stamp: string)
      returns (path: Option<string>, rows: seq<seq<string>>)
      requires db.Valid()
      modifies db`exports
      ensures db.Valid()
      ensures path.Some? <==> companies != [] && writable
      ensures path.Some? ==> && path.value == PathJoin(outputDir, FileName(filename, "leads_export_", timestamp, ".csv"))
                             && rows == CsvDocument(companies)
                             && db.exports == old(db.exports) + [HistoryEntry(|old(db.exports)| + 1, "csv", path.value, |companies|, stamp)]
      ensures path.None? ==> rows == [] && db.exports == old(db.exports)
    {
      if companies == [] || !writable {
        return None, [];
      }
      var outputPath := PathJoin(outputDir, FileName(filename, "leads_export_", timestamp, ".csv"));
      rows := WriteRows(companies);
      var _ := db.RecordExport("csv", outputPath, |companies|, stamp);
      path := Some(outputPath);
    }

    /** The four writes of one e-mail block. */
    static method WriteBlock(text: string, i: nat, company: Record, email: string) returns (r: string)
      ensures r == text + Block(i, company, email)
    {
      r := text + Heading(i, company);
      r := r + Rule;
      r := r + email + "\n\n";
      r := r + Rule;
    }

    /** `export_outreach_emails(companies, emails, filename)`. */
    method ExportOutreachEmails(companies: seq<Record>, emails: seq<string>, filename: Option<string>,
                                timestamp: string, writable: bool, stamp: string)
      returns (path: Option<string>, text: string)
      requires db.Valid()
      modifies db`exports
      ensures db.Valid()
      ensures path.Some? <==> OutreachAccepted(companies, emails) && writable
      ensures path.Some? ==> && path.value == PathJoin(outputDir, FileName(filename, "outreach_emails_", timestamp, ".txt"))
                             && text == Blocks(companies, emails)
                             && db.exports == old(db.exports) + [HistoryEntry(|old(db.exports)| + 1, "outreach_emails", path.value, |companies|, stamp)]
      ensures path.None? ==> text == "" && db.exports == old(db.exports)
    {
      if !OutreachAccepted(companies, emails) || !writable {
        return None, "";
      }
      var outputPath := PathJoin(outputDir, FileName(filename, "outreach_emails_", timestamp, ".txt"));
      text := "";
      var i := 0;
      while i < |companies|
        invariant 0 <= i <= |companies|
        invariant text == Blocks(companies[..i], emails[..i])
        invariant unchanged(db)
      {
        BlocksSnoc(companies, emails, i);
        text := WriteBlock(text, i, companies[i], emails[i]);
        i := i + 1;
      }
      assert companies[..i] == companies && emails[..i] == emails;
      var _ := db.RecordExport("outreach_emails", outputPath, |companies|, stamp);
      path := Some(outputPath);
    }
  }
}
