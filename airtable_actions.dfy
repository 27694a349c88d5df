/**
 * The record-store actions (domain/actions/airtable.ts): the four
 * listings, each a filter formula whose records are mapped to emails, and
 * the three updates, each writing a fixed set of fields of one record.
 */
module AirtableActions {
  import opened Common
  import opened Types

  /**
   * `{ "Airtable ID": record.id, ...record.fields }`: the record's fields
   * plus its id. The spread comes last, so a column named "Airtable ID"
   * would hide the id.
   */
  function ToEmail(record: AirtableRecord<Row>): (email: Row)
    ensures email.Keys == record.fields.Keys + {"Airtable ID"}
    ensures forall k :: k in record.fields ==> email[k] == record.fields[k]
    ensures "Airtable ID" !in record.fields ==> email["Airtable ID"] == record.id
  {
    map["Airtable ID" := record.id] + record.fields
  }

  /** `.map(...)` over the listed records. */
  function ToEmails(records: seq<AirtableRecord<Row>>): (emails: seq<Row>)
    ensures |emails| == |records|
    ensures forall i :: 0 <= i < |records| ==> emails[i] == ToEmail(records[i])
  {
    if records == [] then [] else [ToEmail(records[0])] + ToEmails(records[1..])
  }

  /** A blank cell is absent from `fields`; a formula reads it as ''. */
  function Cell(row: Row, column: string): string
  {
    if column in row then row[column] else ""
  }

  /** Date-time parsing of a cell, in milliseconds; None for a blank or invalid date. */
  type DateParser = string -> Option<int>

  const MINUTE_MS: int := 60000

  /** `{Schedule Date} <= DATEADD(NOW(), 1, 'minute')`. */
  predicate DueWithinAMinute(row: Row, now: int, parseDate: DateParser)
  {
    var d := parseDate(Cell(row, "Schedule Date"));
    d.Some? && d.value <= now + MINUTE_MS
  }

  /** `IS_AFTER(a, b)`. */
  predicate IsAfter(a: string, b: string, parseDate: DateParser)
  {
    parseDate(a).Some? && parseDate(b).Some? && parseDate(a).value > parseDate(b).value
  }

  /** The formula of getScheduledEmails. */
  predicate IsScheduled(row: Row, now: int, parseDate: DateParser)
  {
    && Cell(row, "Status") == READY_TO_SEND_STATUS
    && DueWithinAMinute(row, now, parseDate)
    && Cell(row, "Sent At") == ""
  }

  /** The formula of getTestEmails. */
  predicate IsReadyToTest(row: Row, cfg: Config)
  {
    Cell(row, "Status") == cfg.readyToTestStatus
  }

  /** The formula of getEmailsThatNeedMetadataUpdate. */
  predicate NeedsMetadata(row: Row, cfg: Config, parseDate: DateParser)
  {
    && Cell(row, "Status") != cfg.draftStatus
    && Cell(row, "Status") != cfg.sentStatus
    && (|| IsAfter(Cell(row, "Email Last Modified"), Cell(row, "Metadata Last Populated"), parseDate)
        || Cell(row, "Metadata Last Populated") == "")
  }

  /** The formula of getEmailsThatAreWaitingOnReview. */
  predicate IsWaitingOnReview(row: Row, now: int, cfg: Config, parseDate: DateParser)
  {
    Cell(row, "Status") == cfg.testedStatus && DueWithinAMinute(row, now, parseDate)
  }

  /** The records that `matches`, in table order (see MatchingKeepsOrder). */
  function Matching(table: seq<AirtableRecord<Row>>, matches: Row -> bool): (r: seq<AirtableRecord<Row>>)
    ensures |r| <= |table|
    ensures forall x :: x in r <==> x in table && matches(x.fields)
  {
    if table == [] then []
    else if matches(table[0].fields) then [table[0]] + Matching(table[1..], matches)
    else Matching(table[1..], matches)
  }

  /** A listing keeps the table's order: matching a split table matches each part in turn. */
  lemma {:induction false} MatchingKeepsOrder(a: seq<AirtableRecord<Row>>, b: seq<AirtableRecord<Row>>,
                                             matches: Row -> bool)
    ensures Matching(a + b, matches) == Matching(a, matches) + Matching(b, matches)
  {
    if a == [] {
      assert a + b == b;
    } else {
      assert (a + b)[0] == a[0];
      assert (a + b)[1..] == a[1..] + b;
      MatchingKeepsOrder(a[1..], b, matches);
    }
  }

  /** A listing: what the store returns for the formula, mapped one-to-one to emails. */
  function Listing(table: seq<AirtableRecord<Row>>, matches: Row -> bool): (emails: seq<Row>)
    ensures |emails| == |Matching(table, matches)|
    ensures forall e :: e in emails <==> exists r :: r in table && matches(r.fields) && e == ToEmail(r)
  {
    var selected := Matching(table, matches);
    var emails := ToEmails(selected);
    assert forall e :: e in emails ==> exists r :: r in selected && e == ToEmail(r) by {
      forall e | e in emails ensures exists r :: r in selected && e == ToEmail(r) {
        var i :| 0 <= i < |emails| && emails[i] == e;
        assert selected[i] in selected;
      }
    }
    assert forall r :: r in selected ==> ToEmail(r) in emails by {
      forall r | r in selected ensures ToEmail(r) in emails {
        var i :| 0 <= i < |selected| && selected[i] == r;
        assert emails[i] == ToEmail(r);
      }
    }
    emails
  }

  function GetScheduledEmails(table: seq<AirtableRecord<Row>>, now: int, parseDate: DateParser): (emails: seq<Row>)
    ensures forall e :: e in emails <==> exists r :: r in table && IsScheduled(r.fields, now, parseDate) && e == ToEmail(r)
  {
    Listing(table, row => IsScheduled(row, now, parseDate))
  }

  function GetTestEmails(table: seq<AirtableRecord<Row>>, cfg: Config): (emails: seq<Row>)
    ensures forall e :: e in emails <==> exists r :: r in table && IsReadyToTest(r.fields, cfg) && e == ToEmail(r)
  {
    Listing(table, row => IsReadyToTest(row, cfg))
  }

  function GetEmailsThatNeedMetadataUpdate(table: seq<AirtableRecord<Row>>, cfg: Config, parseDate: DateParser): (emails: seq<Row>)
    ensures forall e :: e in emails <==> exists r :: r in table && NeedsMetadata(r.fields, cfg, parseDate) && e == ToEmail(r)
  {
    Listing(table, row => NeedsMetadata(row, cfg, parseDate))
  }

  function GetEmailsThatAreWaitingOnReview(table: seq<AirtableRecord<Row>>, now: int, cfg: Config, parseDate: DateParser): (emails: seq<Row>)
    ensures forall e :: e in emails <==> exists r :: r in table && IsWaitingOnReview(r.fields, now, cfg, parseDate) && e == ToEmail(r)
  {
    Listing(table, row => IsWaitingOnReview(row, now, cfg, parseDate))
  }

  /** The fields markEmailAsTested writes. */
  function TestedFields(cfg: Config): Row
  {
    map["Status" := cfg.testedStatus]
  }

  /** The fields markEmailAsSent writes; `sentAt` is the ISO rendering of the current time. */
  function SentFields(cfg: Config, sentAt: string): Row
  {
    map["Status" := cfg.sentStatus, "Sent At" := sentAt]
  }

  /** The fields saveMetadata writes. */
  function MetadataFields(automationName: string, templateName: string): Row
  {
    map["Automation Name" := automationName, "Template Name" := templateName]
  }

  /** A PATCH of some fields of a record: they are overwritten, every other field stays. */
  function Patch(row: Row, fields: Row): (patched: Row)
    ensures patched.Keys == row.Keys + fields.Keys
    ensures forall k :: k in fields ==> patched[k] == fields[k]
    ensures forall k :: k in row && k !in fields ==> patched[k] == row[k]
  {
    row + fields
  }

  /** The email table of the record store, by record id. */
  class RecordStore {
    var rows: map<string, Row>

    constructor (rows: map<string, Row>)
      ensures this.rows == rows
    {
      this.rows := rows;
    }

    /** updateAirtableRecord; an unknown id is refused (the request throws) and nothing changes. */
    method Update(id: string, fields: Row) returns (ok: bool)
      modifies this
      ensures ok == (id in old(rows))
      ensures ok ==> rows == old(rows)[id := Patch(old(rows)[id], fields)]
      ensures !ok ==> rows == old(rows)
    {
      ok := id in rows;
      if ok {
        rows := rows[id := Patch(rows[id], fields)];
      }
    }

    method MarkEmailAsTested(cfg: Config, id: string) returns (ok: bool)
      modifies this
      ensures ok == (id in old(rows)) && rows.Keys == old(rows).Keys
      ensures ok ==> Cell(rows[id], "Status") == cfg.testedStatus
      ensures ok ==> forall k :: k != "Status" ==> Cell(rows[id], k) == Cell(old(rows)[id], k)
      ensures forall other :: other in old(rows) && other != id ==> rows[other] == old(rows)[other]
      ensures !ok ==> rows == old(rows)
    {
      ok := Update(id, TestedFields(cfg));
    }

    method MarkEmailAsSent(cfg: Config, id: string, sentAt: string) returns (ok: bool)
      modifies this
      ensures ok == (id in old(rows)) && rows.Keys == old(rows).Keys
      ensures ok ==> Cell(rows[id], "Status") == cfg.sentStatus && Cell(rows[id], "Sent At") == sentAt
      ensures ok ==> forall k :: k != "Status" && k != "Sent At" ==> Cell(rows[id], k) == Cell(old(rows)[id], k)
      ensures forall other :: other in old(rows) && other != id ==> rows[other] == old(rows)[other]
      ensures !ok ==> rows == old(rows)
    {
      ok := Update(id, SentFields(cfg, sentAt));
    }

    method SaveMetadata(id: string, automationName: string, templateName: string) returns (ok: bool)
      modifies this
      ensures ok == (id in old(rows)) && rows.Keys == old(rows).Keys
      ensures ok ==> Cell(rows[id], "Automation Name") == automationName && Cell(rows[id], "Template Name") == templateName
      ensures ok ==> forall k :: k != "Automation Name" && k != "Template Name" ==> Cell(rows[id], k) == Cell(old(rows)[id], k)
      ensures forall other :: other in old(rows) && other != id ==> rows[other] == old(rows)[other]
      ensures !ok ==> rows == old(rows)
    {
      ok := Update(id, MetadataFields(automationName, templateName));
    }
  }

  /** markEmailAsSent followed by a listing of scheduled emails: a sent email is not listed again. */
  lemma {:induction false} SentIsNotScheduled(row: Row, cfg: Config, sentAt: string, now: int, parseDate: DateParser)
    requires sentAt != ""
    ensures !IsScheduled(Patch(row, SentFields(cfg, sentAt)), now, parseDate)
  {
    assert Cell(Patch(row, SentFields(cfg, sentAt)), "Sent At") == sentAt;
  }
}
