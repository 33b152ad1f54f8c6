/** The audit-trail CSV export, and a reader written from section 2 of RFC 4180. */
module AuditCsv {
  import opened Common

  /** One audit_logs row as the export query returns it; JSON columns carry their serialised text. */
  datatype AuditRow = AuditRow(
    id: string,
    tenantId: Option<string>,
    actorId: Option<string>,
    actorEmail: Option<string>,
    action: string,
    entityType: string,
    entityId: Option<string>,
    beforeState: Option<string>,
    afterState: Option<string>,
    ipAddress: Option<string>,
    userAgent: Option<string>,
    createdAt: string)

  const HEADERS := [
    "id", "tenant_id", "actor_id", "actor_email", "action", "entity_type", "entity_id",
    "before_state", "after_state", "ip_address", "user_agent", "created_at"]

  const CRLF := "\r\n"

  function Columns(row: AuditRow): seq<Option<string>> {
    [ Some(row.id), row.tenantId, row.actorId, row.actorEmail,
      Some(row.action), Some(row.entityType), row.entityId,
      Some(row.beforeState.GetOr("")), Some(row.afterState.GetOr("")),
      row.ipAddress, row.userAgent, Some(row.createdAt) ]
  }

  predicate IsSpecial(c: char) {
    c == '"' || c == ',' || c == '\r' || c == '\n'
  }

  predicate NeedsQuotes(s: string) {
    exists i :: 0 <= i < |s| && IsSpecial(s[i])
  }

  function DoubleQuotes(s: string): string {
    if s == "" then ""
    else (if s[0] == '"' then "\"\"" else [s[0]]) + DoubleQuotes(s[1..])
  }

  function CsvCell(value: Option<string>): string {
    match value
    case None => ""
    case Some(s) => if NeedsQuotes(s) then "\"" + DoubleQuotes(s) + "\"" else s
  }

  function CsvCells(values: seq<Option<string>>): seq<string> {
    seq(|values|, i requires 0 <= i < |values| => CsvCell(values[i]))
  }

  function CsvLine(values: seq<Option<string>>): string {
    Join(CsvCells(values), ",")
  }

  /** What a reader of the file looks for under a header name; null reads as the empty text. */
  function FieldText(row: AuditRow, header: string): string {
    match header
    case "id" => row.id
    case "tenant_id" => row.tenantId.GetOr("")
    case "actor_id" => row.actorId.GetOr("")
    case "actor_email" => row.actorEmail.GetOr("")
    case "action" => row.action
    case "entity_type" => row.entityType
    case "entity_id" => row.entityId.GetOr("")
    case "before_state" => row.beforeState.GetOr("")
    case "after_state" => row.afterState.GetOr("")
    case "ip_address" => row.ipAddress.GetOr("")
    case "user_agent" => row.userAgent.GetOr("")
    case "created_at" => row.createdAt
    case _ => ""
  }

  function Record(row: AuditRow): seq<string> {
    seq(|HEADERS|, k requires 0 <= k < |HEADERS| => FieldText(row, HEADERS[k]))
  }

  /** The table the export stands for: the header, then one record per row, each text under its own header. */
  function Table(rows: seq<AuditRow>): seq<seq<string>> {
    [HEADERS] + seq(|rows|, i requires 0 <= i < |rows| => Record(rows[i]))
  }

  lemma ColumnsFollowHeaders(row: AuditRow)
    ensures Texts(Columns(row)) == Record(row)
  {
  }

  function Texts(values: seq<Option<string>>): seq<string> {
    seq(|values|, i requires 0 <= i < |values| => values[i].GetOr(""))
  }

  // ----- A reader for section 2 of RFC 4180 -----

  datatype Mode = FieldStart | Plain | Quoted | QuoteInQuoted | Cr | Broken

  datatype Reader = Reader(mode: Mode, records: seq<seq<string>>, fields: seq<string>, field: string) {
    function EndField(): Reader {
      Reader(FieldStart, records, fields + [field], "")
    }

    function EndRecord(): Reader {
      Reader(FieldStart, records + [fields + [field]], [], "")
    }

    function Read(c: char): Reader {
      match mode
      case FieldStart =>
        if c == '"' then this.(mode := Quoted)
        else if c == ',' then EndField()
        else if c == '\r' then this.(mode := Cr)
        else if c == '\n' then this.(mode := Broken)
        else this.(mode := Plain, field := field + [c])
      case Plain =>
        if c == ',' then EndField()
        else if c == '\r' then this.(mode := Cr)
        else if c == '"' || c == '\n' then this.(mode := Broken)
        else this.(field := field + [c])
      case Quoted =>
        if c == '"' then this.(mode := QuoteInQuoted)
        else this.(field := field + [c])
      case QuoteInQuoted =>
        if c == '"' then this.(mode := Quoted, field := field + [c])
        else if c == ',' then EndField()
        else if c == '\r' then this.(mode := Cr)
        else this.(mode := Broken)
      case Cr =>
        if c == '\n' then EndRecord() else this.(mode := Broken)
      case Broken => this
    }

    function ReadAll(s: string): Reader
      decreases |s|
    {
      if s == "" then this else Read(s[0]).ReadAll(s[1..])
    }

    /** The last record may or may not end in a line break. */
    function Finish(): Option<seq<seq<string>>> {
      match mode
      case FieldStart =>
        if fields == [] && records != [] then Some(records) else Some(records + [fields + [field]])
      case Plain => Some(records + [fields + [field]])
      case QuoteInQuoted => Some(records + [fields + [field]])
      case _ => None
    }
  }

  function ReadCsv(s: string): Option<seq<seq<string>>> {
    Reader(FieldStart, [], [], "").ReadAll(s).Finish()
  }

  lemma {:induction false} ReadAllConcat(r: Reader, a: string, b: string)
    ensures r.ReadAll(a + b) == r.ReadAll(a).ReadAll(b)
    decreases |a|
  {
    if a == "" {
      assert a + b == b;
    } else {
      ReadAllConcat(r.Read(a[0]), a[1..], b);
      assert (a + b)[1..] == a[1..] + b;
    }
  }

  lemma ReadPair(r: Reader, c: char, d: char)
    ensures r.ReadAll([c, d]) == r.Read(c).Read(d)
  {
    assert [c, d][1..] == [d];
    assert r.Read(c).ReadAll([d]) == r.Read(c).Read(d).ReadAll([d][1..]);
  }

  /** The reader has a whole field in hand: the next comma, line break or end of file closes it. */
  predicate HoldsField(r: Reader, records: seq<seq<string>>, fields: seq<string>, field: string) {
    && r.records == records && r.fields == fields && r.field == field
    && (r.mode == Plain || r.mode == QuoteInQuoted || (r.mode == FieldStart && field == ""))
  }

  lemma {:induction false} PlainText(r: Reader, s: string)
    requires r.mode == Plain && !NeedsQuotes(s)
    ensures r.ReadAll(s) == r.(field := r.field + s)
    decreases |s|
  {
    if s == "" {
      assert r.field + s == r.field;
    } else {
      assert !IsSpecial(s[0]);
      PlainText(r.Read(s[0]), s[1..]);
      assert r.field + [s[0]] + s[1..] == r.field + s;
    }
  }

  lemma {:induction false} QuotedText(r: Reader, s: string)
    requires r.mode == Quoted
    ensures r.ReadAll(DoubleQuotes(s)) == r.(field := r.field + s)
    decreases |s|
  {
    if s == "" {
      assert r.field + s == r.field;
    } else {
      var head := if s[0] == '"' then "\"\"" else [s[0]];
      assert r.ReadAll(head) == r.(field := r.field + [s[0]]) by {
        if s[0] == '"' {
          ReadPair(r, '"', '"');
        }
      }
      ReadAllConcat(r, head, DoubleQuotes(s[1..]));
      QuotedText(r.(field := r.field + [s[0]]), s[1..]);
      assert r.field + [s[0]] + s[1..] == r.field + s;
    }
  }

  lemma CellIsRead(r: Reader, value: Option<string>)
    requires r.mode == FieldStart && r.field == ""
    ensures HoldsField(r.ReadAll(CsvCell(value)), r.records, r.fields, value.GetOr(""))
  {
    var s := value.GetOr("");
    if value.Some? && NeedsQuotes(s) {
      var open := r.(mode := Quoted);
      ReadAllConcat(r, "\"" + DoubleQuotes(s), "\"");
      ReadAllConcat(r, "\"", DoubleQuotes(s));
      QuotedText(open, s);
      assert CsvCell(value) == "\"" + DoubleQuotes(s) + "\"";
      assert open.field + s == s;
    } else if s != "" {
      assert !IsSpecial(s[0]);
      PlainText(r.Read(s[0]), s[1..]);
      assert r.field + [s[0]] + s[1..] == s;
    }
  }

  /** The first cell and its comma, then the line of the other cells. */
  lemma CellThenLine(r: Reader, values: seq<Option<string>>)
    requires r.mode == FieldStart && r.field == "" && |values| > 1
    ensures r.ReadAll(CsvLine(values)) == r.ReadAll(CsvCell(values[0])).EndField().ReadAll(CsvLine(values[1..]))
  {
    var cell, others := CsvCell(values[0]), CsvLine(values[1..]);
    assert CsvCells(values)[1..] == CsvCells(values[1..]);
    assert CsvLine(values) == cell + "," + others;
    ReadAllConcat(r, cell + ",", others);
    ReadAllConcat(r, cell, ",");
    CellIsRead(r, values[0]);
    assert r.ReadAll(cell).ReadAll(",") == r.ReadAll(cell).EndField();
  }

  /** A cell stands bare exactly when it has no quote, comma or line break; otherwise it begins and ends with a quote. */
  lemma CellIsBareExactly(s: string)
    ensures CsvCell(Some(s)) == s <==> forall i :: 0 <= i < |s| ==> s[i] != '"' && s[i] != ',' && s[i] != '\r' && s[i] != '\n'
    ensures CsvCell(Some(s)) != s ==> |CsvCell(Some(s))| >= 2 && CsvCell(Some(s))[0] == '"'
    ensures CsvCell(None) == ""
  {
    DoublingGrows(s);
  }

  lemma {:induction false} DoublingGrows(s: string)
    ensures |DoubleQuotes(s)| >= |s|
    decreases |s|
  {
    if s != "" { DoublingGrows(s[1..]); }
  }

  lemma {:induction false} LineIsRead(r: Reader, values: seq<Option<string>>)
    requires r.mode == FieldStart && r.field == "" && |values| > 0
    ensures var last := Texts(values)[|values| - 1];
            HoldsField(r.ReadAll(CsvLine(values)), r.records, r.fields + Texts(values)[..|values| - 1], last)
    decreases |values|
  {
    var cell := CsvCell(values[0]);
    CellIsRead(r, values[0]);
    if |values| == 1 {
      assert CsvLine(values) == cell;
      assert r.fields + Texts(values)[..0] == r.fields;
    } else {
      var rest := values[1..];
      var next := r.ReadAll(cell).EndField();
      CellThenLine(r, values);
      LineIsRead(next, rest);
      TextsFollow(r.fields, values);
    }
  }

  lemma TextsFollow(fields: seq<string>, values: seq<Option<string>>)
    requires |values| > 1
    ensures var n, rest := |values| - 1, Texts(values[1..]);
            && rest[n - 1] == Texts(values)[n]
            && fields + [values[0].GetOr("")] + rest[..n - 1] == fields + Texts(values)[..n]
  {
    assert Texts(values) == [values[0].GetOr("")] + Texts(values[1..]);
  }

  /** Reading a line of cells and then closing the record yields exactly the cells' texts. */
  lemma LineBecomesRecord(r: Reader, values: seq<Option<string>>)
    requires r.mode == FieldStart && r.field == "" && r.fields == [] && |values| > 0
    ensures r.ReadAll(CsvLine(values) + CRLF) == Reader(FieldStart, r.records + [Texts(values)], [], "")
    ensures |values| > 1 ==> r.ReadAll(CsvLine(values)).Finish() == Some(r.records + [Texts(values)])
  {
    LineIsRead(r, values);
    var held := r.ReadAll(CsvLine(values));
    var texts := Texts(values);
    assert texts[..|values| - 1] + [texts[|values| - 1]] == texts;
    ReadAllConcat(r, CsvLine(values), CRLF);
    LineEnds(held, r.records, texts[..|values| - 1], texts[|values| - 1]);
  }

  lemma LineEnds(held: Reader, records: seq<seq<string>>, fields: seq<string>, last: string)
    requires HoldsField(held, records, fields, last)
    ensures held.ReadAll(CRLF) == Reader(FieldStart, records + [fields + [last]], [], "")
    ensures |fields| > 0 ==> held.Finish() == Some(records + [fields + [last]])
  {
  }

  function Present(texts: seq<string>): seq<Option<string>> {
    seq(|texts|, i requires 0 <= i < |texts| => Some(texts[i]))
  }

  function Lines(rows: seq<AuditRow>): seq<string> {
    seq(|rows|, i requires 0 <= i < |rows| => CsvLine(Columns(rows[i])))
  }

  lemma FirstLine(rows: seq<AuditRow>)
    requires |rows| > 1
    ensures Join(Lines(rows), CRLF) == CsvLine(Columns(rows[0])) + CRLF + Join(Lines(rows[1..]), CRLF)
  {
    assert Lines(rows)[1..] == Lines(rows[1..]);
  }

  lemma FirstRecord(rows: seq<AuditRow>)
    requires |rows| > 0
    ensures Table(rows)[1..] == [Texts(Columns(rows[0]))] + Table(rows[1..])[1..]
  {
    ColumnsFollowHeaders(rows[0]);
  }

  lemma {:induction false} RecordsAreRead(r: Reader, rows: seq<AuditRow>)
    requires r.mode == FieldStart && r.field == "" && r.fields == [] && |rows| > 0
    ensures r.ReadAll(Join(Lines(rows), CRLF)).Finish() == Some(r.records + Table(rows)[1..])
    decreases |rows|
  {
    var first := Columns(rows[0]);
    LineBecomesRecord(r, first);
    FirstRecord(rows);
    if |rows| == 1 {
      assert Join(Lines(rows), CRLF) == CsvLine(first);
      assert Table(rows)[1..] == [Texts(first)];
    } else {
      var rest := rows[1..];
      FirstLine(rows);
      ReadAllConcat(r, CsvLine(first) + CRLF, Join(Lines(rest), CRLF));
      RecordsAreRead(r.ReadAll(CsvLine(first) + CRLF), rest);
      AppendIsAssociative(r.records, [Texts(first)], Table(rest)[1..]);
    }
  }

  function ExportText(rows: seq<AuditRow>): string {
    Join([Join(HEADERS, ",")] + Lines(rows), CRLF)
  }

  /** No header name needs quotes, so the bare join of the names is the CSV line of the names. */
  lemma HeaderLine()
    ensures Join(HEADERS, ",") == CsvLine(Present(HEADERS))
    ensures Texts(Present(HEADERS)) == HEADERS
  {
    forall i | 0 <= i < |HEADERS| ensures !NeedsQuotes(HEADERS[i]) {
      assert forall j :: 0 <= j < |HEADERS[i]| ==> 'a' <= HEADERS[i][j] <= 'z' || HEADERS[i][j] == '_';
    }
    assert CsvCells(Present(HEADERS)) == HEADERS;
  }

  lemma TableIsRead(header: seq<string>, rows: seq<AuditRow>)
    requires |header| > 1
    ensures ReadCsv(Join([CsvLine(Present(header))] + Lines(rows), CRLF))
            == Some([Texts(Present(header))] + Table(rows)[1..])
  {
    var start := Reader(FieldStart, [], [], "");
    var names := Present(header);
    LineBecomesRecord(start, names);
    if |rows| == 0 {
      assert [CsvLine(names)] + Lines(rows) == [CsvLine(names)];
      assert start.records + [Texts(names)] == [Texts(names)];
      assert [Texts(names)] + Table(rows)[1..] == [Texts(names)];
    } else {
      var lines := [CsvLine(names)] + Lines(rows);
      assert lines[1..] == Lines(rows);
      assert Join(lines, CRLF) == CsvLine(names) + CRLF + Join(Lines(rows), CRLF);
      ReadAllConcat(start, CsvLine(names) + CRLF, Join(Lines(rows), CRLF));
      RecordsAreRead(start.ReadAll(CsvLine(names) + CRLF), rows);
    }
  }

  /** Round trip: the reader gives back the header and exactly the original texts, null read as empty. */
  lemma ExportRoundTrip(rows: seq<AuditRow>)
    ensures ReadCsv(ExportText(rows)) == Some(Table(rows))
  {
    HeaderLine();
    TableIsRead(HEADERS, rows);
    assert [HEADERS] + Table(rows)[1..] == Table(rows);
  }

  lemma OneMoreLine(rows: seq<AuditRow>, i: nat)
    requires i < |rows|
    ensures Lines(rows[..i + 1]) == Lines(rows[..i]) + [CsvLine(Columns(rows[i]))]
  {
  }

  /** One pushed line per row after the header, joined by CRLF. */
  method JoinLines(header: string, rows: seq<AuditRow>) returns (csv: string)
    ensures csv == Join([header] + Lines(rows), CRLF)
  {
    var lines := [header];
    for i := 0 to |rows|
      invariant lines == [header] + Lines(rows[..i])
    {
      lines := lines + [CsvLine(Columns(rows[i]))];
      OneMoreLine(rows, i);
    }
    assert rows[..|rows|] == rows;
    csv := Join(lines, CRLF);
  }

  method ExportCsv(rows: seq<AuditRow>) returns (csv: string)
    ensures ReadCsv(csv) == Some(Table(rows))
  {
    csv := JoinLines(Join(HEADERS, ","), rows);
    ExportRoundTrip(rows);
  }
}
