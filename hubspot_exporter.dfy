/**
 * The HubSpot exporter: each company becomes one row of the fourteen
 * HubSpot import columns, the contact person split into first and last name.
 */
module HubSpotExporter {
  import opened Values
  import opened Store
  import opened Files

  /** The HubSpot columns, in order. */
  const HubSpotFields: seq<string> := [
    "Company", "First Name", "Last Name", "Email", "Phone",
    "Address", "City", "State/Region", "Postal Code",
    "Website", "Industry", "Lead Score", "Description", "Notes"
  ]

  /** The record key each column is read from; the two name columns come from `contact_person`. */
  const SourceKeys: seq<string> := [
    "name", "contact_person", "contact_person", "email", "phone",
    "address", "city", "state", "zipcode",
    "website", "category", "lead_score", "description", "notes"
  ]

  /** `person.split(' ', 1)` as (first part, rest): everything before the first space and everything after it. */
  function SplitName(person: string): (r: (string, string))
    ensures ' ' in person ==> r.0 + " " + r.1 == person && ' ' !in r.0
    ensures ' ' !in person ==> r == (person, "")
  {
    if person == [] then ("", "")
    else if person[0] == ' ' then ("", person[1..])
    else
      var rest := SplitName(person[1..]);
      assert person == [person[0]] + person[1..];
      ([person[0]] + rest.0, rest.1)
  }

  /**
   * First and last name: both empty without a truthy `contact_person`; None
   * where it is truthy but not a string (`.split` raises).
   */
  function ContactName(company: Record): Option<(string, string)> {
    var person := Get(company, "contact_person", VNone);
    if !Truthy(person) then Some(("", ""))
    else if person.VStr? then Some(SplitName(person.s))
    else None
  }

  /** The `hubspot_record` dict display, as its (column, value) pairs in order. */
  function HubSpotRecord(company: Record): Option<seq<(string, Value)>> {
    match ContactName(company)
    case None => None
    case Some(name) => Some([
      ("Company", Get(company, "name", VStr(""))),
      ("First Name", VStr(name.0)),
      ("Last Name", VStr(name.1)),
      ("Email", Get(company, "email", VStr(""))),
      ("Phone", Get(company, "phone", VStr(""))),
      ("Address", Get(company, "address", VStr(""))),
      ("City", Get(company, "city", VStr(""))),
      ("State/Region", Get(company, "state", VStr(""))),
      ("Postal Code", Get(company, "zipcode", VStr(""))),
      ("Website", Get(company, "website", VStr(""))),
      ("Industry", Get(company, "category", VStr(""))),
      ("Lead Score", Get(company, "lead_score", VStr(""))),
      ("Description", Get(company, "description", VStr(""))),
      ("Notes", Get(company, "notes", VStr("")))
    ])
  }

  /** The cells DictWriter writes for the record. */
  function HubSpotRow(company: Record): Option<seq<string>> {
    match HubSpotRecord(company)
    case None => None
    case Some(pairs) => Some(seq(|pairs|, j requires 0 <= j < |pairs| => Cell(pairs[j].1)))
  }

  /**
   * Every record has exactly the fourteen columns in order; each column other
   * than the two name columns holds the value of its source key, "" when missing.
   */
  lemma HubSpotColumns(company: Record)
    requires HubSpotRecord(company).Some?
    ensures var pairs := HubSpotRecord(company).value;
      && |pairs| == |HubSpotFields| == |SourceKeys| == 14
      && (forall j :: 0 <= j < 14 ==> pairs[j].0 == HubSpotFields[j])
      && (forall j :: 0 <= j < 14 && j != 1 && j != 2 ==> pairs[j].1 == Get(company, SourceKeys[j], VStr("")))
  {
  }

  /**
   * The name columns: a contact with a space is split at its first space and
   * joins back with one space; one without a space is all first name; no
   * contact leaves both empty.
   */
  lemma ContactNameColumns(company: Record)
    requires HubSpotRecord(company).Some?
    ensures var pairs := HubSpotRecord(company).value;
      var person := Get(company, "contact_person", VNone);
      && pairs[1].1.VStr? && pairs[2].1.VStr?
      && (!Truthy(person) ==> pairs[1].1.s == "" && pairs[2].1.s == "")
      && (Truthy(person) && ' ' in person.s ==> pairs[1].1.s + " " + pairs[2].1.s == person.s && ' ' !in pairs[1].1.s)
      && (Truthy(person) && ' ' !in person.s ==> pairs[1].1.s == person.s && pairs[2].1.s == "")
  {
  }

  /** The rows a whole export writes, header first, and whether it ran to the end. */
  function HubSpotDocument(companies: seq<Record>): (seq<seq<string>>, bool)
    decreases |companies|
  {
    if companies == [] then ([HubSpotFields], true)
    else
      var n := |companies| - 1;
      var done := HubSpotDocument(companies[..n]);
      if !done.1 then done
      else match HubSpotRow(companies[n])
        case None => (done.0, false)
        case Some(row) => (done.0 + [row], true)
  }

  /** Once a record fails, the rest of the companies write nothing. */
  lemma {:induction false} FailureStops(companies: seq<Record>, i: int)
    requires 0 <= i <= |companies| && !HubSpotDocument(companies[..i]).1
    ensures HubSpotDocument(companies) == HubSpotDocument(companies[..i])
    decreases |companies|
  {
    if i < |companies| {
      var n := |companies| - 1;
      assert companies[..n][..i] == companies[..i];
      FailureStops(companies[..n], i);
    } else {
      assert companies[..i] == companies;
    }
  }

  /**
   * The export completes iff every company has a record; then it writes the
   * header and row i+1 for company i.
   */
  lemma {:induction false} HubSpotDocumentRows(companies: seq<Record>)
    ensures HubSpotDocument(companies).1 <==> forall i :: 0 <= i < |companies| ==> HubSpotRow(companies[i]).Some?
    ensures HubSpotDocument(companies).1 ==>
      && |HubSpotDocument(companies).0| == |companies| + 1
      && HubSpotDocument(companies).0[0] == HubSpotFields
      && forall i :: 0 <= i < |companies| ==> HubSpotDocument(companies).0[i + 1] == HubSpotRow(companies[i]).value
    decreases |companies|
  {
    if companies != [] {
      var n := |companies| - 1;
      var init := companies[..n];
      HubSpotDocumentRows(init);
      assert forall i :: 0 <= i < n ==> init[i] == companies[i];
      if !HubSpotDocument(init).1 {
        var k :| 0 <= k < n && HubSpotRow(init[k]).None?;
        assert HubSpotRow(companies[k]).None?;
      }
    }
  }

  class HubSpotCsvExporter {
    const db: Database
    const outputDir: string

    constructor (db: Database, outputDir: string)
      ensures this.db == db && this.outputDir == outputDir
    {
      this.db, this.outputDir := db, outputDir;
    }

    /**
     * `export(companies, filename)`: the path, and the rows written to the
     * file (a record that raises ends the export with what was written before it).
     */
    method Export(companies: seq<Record>, filename: Option<string>, timestamp: string, writable: bool, stamp: string)
      returns (path: Option<string>, rows: seq<seq<string>>)
      requires db.Valid()
      modifies db`exports
      ensures db.Valid()
      ensures path.Some? <==> companies != [] && writable && HubSpotDocument(companies).1
      ensures rows == if companies != [] && writable then HubSpotDocument(companies).0 else []
      ensures path.Some? ==> && path.value == PathJoin(outputDir, FileName(filename, "hubspot_export_", timestamp, ".csv"))
                             && db.exports == old(db.exports) + [HistoryEntry(|old(db.exports)| + 1, "hubspot_csv", path.value, |companies|, stamp)]
      ensures path.None? ==> db.exports == old(db.exports)
    {
      if companies == [] || !writable {
        return None, [];
      }
      var outputPath := PathJoin(outputDir, FileName(filename, "hubspot_export_", timestamp, ".csv"));
      rows := [HubSpotFields];
      var i := 0;
      while i < |companies|
        invariant 0 <= i <= |companies|
        invariant HubSpotDocument(companies[..i]) == (rows, true)
      {
        assert companies[..i + 1][..i] == companies[..i];
        var row := HubSpotRow(companies[i]);
        if row.None? {
          FailureStops(companies, i + 1);
          return None, rows;
        }
        rows := rows + [row.value];
        i := i + 1;
      }
      assert companies[..i] == companies;
      var _ := db.RecordExport("hubspot_csv", outputPath, |companies|, stamp);
      path := Some(outputPath);
    }
  }
}
