/** The CSV text `exportAuditLog` renders: a fixed header row and one row of eleven
    comma-joined fields per event, rows joined by line breaks. Only the serialized `details`
    have their quotes doubled; `action` and the user agent are put between quotes as they are. */
module AuditCsv {
  import opened Common
  import opened Json
  import opened AuditRecords

  const Headers: seq<string> := [
    "Timestamp", "Sequence", "Event Type", "Action", "User ID",
    "Document ID", "Details", "Session ID", "Hash", "IP Address", "User Agent"]

  function Quoted(s: string): string {
    "\"" + s + "\""
  }

  /** The eleven fields of one event, in header order; timestamps render as their decimal value. */
  function Fields(e: AuditEvent): seq<string> {
    [IntToDecimal(e.timestamp),
     NatToDecimal(e.sequence),
     e.eventType,
     Quoted(e.action),
     e.userId,
     e.documentId.GetOr(""),
     Quoted(DoubleQuotes(Stringify(e.details))),
     e.sessionId,
     e.hash,
     e.metadata.ipAddress,
     Quoted(e.metadata.userAgent)]
  }

  function Row(e: AuditEvent): string {
    Join(Fields(e), ",")
  }

  function Rows(logs: seq<AuditEvent>): (r: seq<string>)
    ensures |r| == |logs| && forall i :: 0 <= i < |logs| ==> r[i] == Row(logs[i])
  {
    seq(|logs|, i requires 0 <= i < |logs| => Row(logs[i]))
  }

  /** `csvRows.join('\n')` with the header row first. */
  function Csv(logs: seq<AuditEvent>): string {
    Join([Join(Headers, ",")] + Rows(logs), "\n")
  }

  /** One row per field of the header, and each `details` field reads back, after undoing the
      quote doubling, as exactly the JSON text of the event's details. */
  lemma RowShape(e: AuditEvent)
    ensures |Fields(e)| == |Headers| == 11
    ensures var d := Fields(e)[6];
            && |d| >= 2 && d[0] == '"' && d[|d| - 1] == '"'
            && UndoubleQuotes(d[1..|d| - 1]) == Some(Stringify(e.details))
  {
    var d := Fields(e)[6];
    assert d[1..|d| - 1] == DoubleQuotes(Stringify(e.details));
    UndoubleDoubleQuotes(Stringify(e.details));
  }

  /** None of the event's own texts holds a line break. */
  ghost predicate SingleLine(e: AuditEvent) {
    && '\n' !in e.eventType && '\n' !in e.action && '\n' !in e.userId
    && '\n' !in e.documentId.GetOr("") && '\n' !in e.sessionId && '\n' !in e.hash
    && '\n' !in e.metadata.ipAddress && '\n' !in e.metadata.userAgent
  }

  lemma {:induction false} RowIsOneLine(e: AuditEvent)
    requires SingleLine(e)
    ensures '\n' !in Row(e)
  {
    var fs := Fields(e);
    var json := Stringify(e.details);
    assert '\n' !in json;
    DoubleQuotesAvoids(json, '\n');
    forall i | 0 <= i < |fs| ensures '\n' !in fs[i] {
      if i == 0 || i == 1 {
        assert forall k :: 0 <= k < |fs[i]| ==> fs[i][k] == '-' || '0' <= fs[i][k] <= '9';
      }
    }
    JoinAvoids(fs, ",", '\n');
  }

  lemma HeaderIsOneLine()
    ensures '\n' !in Join(Headers, ",")
  {
    JoinAvoids(Headers, ",", '\n');
  }

  /** When no event text holds a line break, the export has exactly one line for the header
      and one per event, header first. */
  lemma ExportLineCount(logs: seq<AuditEvent>)
    requires forall i :: 0 <= i < |logs| ==> SingleLine(logs[i])
    ensures Split(Csv(logs), '\n') == [Join(Headers, ",")] + Rows(logs)
    ensures |Split(Csv(logs), '\n')| == 1 + |logs|
  {
    var header := Join(Headers, ",");
    var rows := Rows(logs);
    var lines := [header] + rows;
    HeaderIsOneLine();
    forall i | 0 <= i < |lines| ensures '\n' !in lines[i] {
      if i > 0 {
        assert lines[i] == rows[i - 1] == Row(logs[i - 1]);
        RowIsOneLine(logs[i - 1]);
      }
    }
    SplitJoin(lines, '\n');
  }
}
