/** The best-effort read of recent warehouse rows (server.py, query_hive_mind).

    Both the connect outcome and the query outcome are inputs: the query either
    yields rows (already limited by the warehouse) or raises. Every failure
    collapses to the empty string. */
module HiveMind {
  import opened Opt
  import opened Connection
  import opened Lines

  /** One warehouse row: the SOURCE, CATEGORY and SUMMARY columns, as text. */
  datatype Row = Row(source: string, category: string, summary: string)

  /** What executing the read query and fetching its rows does. */
  datatype QueryOutcome = Fetched(rows: seq<Row>) | QueryFailed

  /** The text the read returns, and the connection holder it leaves behind. */
  datatype Queried<H> = Queried(text: string, holder: Option<H>)

  /** One row as a line: `source (category): summary`. */
  function FormatRow(r: Row): (line: string)
    ensures |line| == |r.source| + |r.category| + |r.summary| + 5
    ensures line[..|r.source|] == r.source
    ensures line[|r.source|..|r.source| + 2] == " ("
    ensures line[|r.source| + 2..|r.source| + 2 + |r.category|] == r.category
    ensures line[|r.source| + 2 + |r.category|..|r.source| + 5 + |r.category|] == "): "
    ensures line[|line| - |r.summary|..] == r.summary
  {
    var head := r.source + " (" + r.category;
    assert head[|r.source| + 2..] == r.category;
    var line := head + "): " + r.summary;
    assert line[..|head|] == head;
    line
  }

  /** Every row formatted, in the order the warehouse returned them. */
  function FormatRows(rows: seq<Row>): seq<string> {
    seq(|rows|, i requires 0 <= i < |rows| => FormatRow(rows[i]))
  }

  /** The read: connect through the lazy holder, then run the query. A missing
      connection or a failing query yields "". A failing query does not drop
      the connection. */
  function QueryHiveMind<H>(holder: Option<H>, attempt: ConnectOutcome<H>, fetch: QueryOutcome): (q: Queried<H>)
    ensures q.holder == GetConnection(holder, attempt)
    ensures q.holder.None? || fetch.QueryFailed? ==> q.text == ""
    ensures q.holder.Some? && fetch.Fetched? ==> q.text == Join(FormatRows(fetch.rows), '\n')
  {
    var conn := GetConnection(holder, attempt);
    if conn.None? then Queried("", conn)
    else
      match fetch
      case QueryFailed => Queried("", conn)
      case Fetched(rows) => Queried(Join(FormatRows(rows), '\n'), conn)
  }

  /** The empty string means one of three things, and the caller cannot tell
      which: no connection, a failing query, or no rows. */
  lemma EmptyTextIff<H>(holder: Option<H>, attempt: ConnectOutcome<H>, fetch: QueryOutcome)
    ensures QueryHiveMind(holder, attempt, fetch).text == ""
        <==> GetConnection(holder, attempt).None? || fetch.QueryFailed? || fetch.rows == []
  {
  }

  /** No field of the row holds a line break. */
  ghost predicate SingleLine(r: Row) {
    '\n' !in r.source && '\n' !in r.category && '\n' !in r.summary
  }

  /** When rows were read and no field spans lines, the text splits back into
      exactly one formatted line per row, in order. */
  lemma {:induction false} LinesAreRows<H>(holder: Option<H>, attempt: ConnectOutcome<H>, rows: seq<Row>)
    requires GetConnection(holder, attempt).Some?
    requires |rows| >= 1
    requires forall i :: 0 <= i < |rows| ==> SingleLine(rows[i])
    ensures Split(QueryHiveMind(holder, attempt, Fetched(rows)).text, '\n') == FormatRows(rows)
  {
    var lines := FormatRows(rows);
    forall i | 0 <= i < |lines| ensures '\n' !in lines[i] {
      var r := rows[i];
      assert lines[i] == r.source + " (" + r.category + "): " + r.summary;
    }
    SplitJoin(lines, '\n');
  }
}
