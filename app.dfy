/**
 * The upload and single-check handlers of the web application (app.py):
 * dispatch on the upload's file name, require a `domain` column, probe
 * every row in order, add the `status_code` and `message` columns, and
 * keep the annotated table both as the downloadable report and as the
 * session's result set; a single-URL check replaces the result set with
 * one record and leaves the report alone.
 *
 * The HTTP GET is the parameter `network` (the outcome of requesting a
 * URL) and pandas' file parser is the parameter `parse` (the table read
 * from the uploaded file in the given format).
 */
module App {
  import opened Wrappers
  import opened Text
  import opened Status
  import opened Frame

  const DomainColumn: string := "domain"
  const StatusColumn: string := "status_code"
  const MessageColumn: string := "message"

  /** The two spreadsheet formats an upload may have. */
  datatype Format = Csv | Xlsx

  /** What a handler sends back: a redirect, or an error status with a plain-text body. */
  datatype Response = Redirect(location: string) | Reply(status: nat, body: string)

  const ToResults: Response := Redirect("/results")
  const NoFileReply: Response := Reply(400, "No file uploaded")
  const UnsupportedReply: Response := Reply(400, "Unsupported file format. Please upload CSV or XLSX.")
  const MissingDomainReply: Response := Reply(400, "Missing 'domain' column in file.")

  /** Python's `s.endswith(suffix)`. */
  predicate EndsWith(s: string, suffix: string)
  {
    |suffix| <= |s| && s[|s| - |suffix|..] == suffix
  }

  /** The parser an upload is read with: `.csv` first, then `.xlsx`, otherwise none. */
  function FormatOf(filename: string): (f: Option<Format>)
    ensures f == Some(Csv) <==> EndsWith(filename, ".csv")
    ensures f == Some(Xlsx) <==> !EndsWith(filename, ".csv") && EndsWith(filename, ".xlsx")
    ensures f == None <==> !EndsWith(filename, ".csv") && !EndsWith(filename, ".xlsx")
  {
    if EndsWith(filename, ".csv") then Some(Csv)
    else if EndsWith(filename, ".xlsx") then Some(Xlsx)
    else None
  }

  /** The URL a `domain` cell is probed at: `str(url).strip()`. */
  function UrlOf(cell: Cell): string
  {
    Strip(CellText(cell))
  }

  /** How a status code is stored in a table or record: an integer, or missing for `None`. */
  function CodeCell(code: Option<int>): (c: Cell)
    ensures c == Missing <==> code == None
  {
    match code
    case None => Missing
    case Some(n) => Int(n)
  }

  /**
   * The loop of `upload`: one check per `domain` cell, in row order,
   * collecting the codes and the messages into two parallel lists.
   */
  method CheckAll(domains: seq<Cell>, network: string -> Option<int>)
    returns (codes: seq<Option<int>>, messages: seq<string>)
    ensures |codes| == |domains| && |messages| == |domains|
    ensures forall i :: 0 <= i < |domains| ==> Outcome(codes[i], messages[i]) == Classify(network(UrlOf(domains[i])))
  {
    codes, messages := [], [];
    for i := 0 to |domains|
      invariant |codes| == i && |messages| == i
      invariant forall k :: 0 <= k < i ==> Outcome(codes[k], messages[k]) == Classify(network(UrlOf(domains[k])))
    {
      var outcome := Classify(network(UrlOf(domains[i])));
      codes := codes + [outcome.code];
      messages := messages + [outcome.message];
    }
  }

  /** The status-code column built from the collected codes. */
  function StatusCells(codes: seq<Option<int>>): (cells: seq<Cell>)
    ensures |cells| == |codes|
    ensures forall i :: 0 <= i < |codes| ==> cells[i] == CodeCell(codes[i])
  {
    seq(|codes|, i requires 0 <= i < |codes| => CodeCell(codes[i]))
  }

  /** The message column built from the collected messages. */
  function MessageCells(messages: seq<string>): (cells: seq<Cell>)
    ensures |cells| == |messages|
    ensures forall i :: 0 <= i < |messages| ==> cells[i] == Text(messages[i])
  {
    seq(|messages|, i requires 0 <= i < |messages| => Text(messages[i]))
  }

  /** The outcome of checking row `i` of a table's `domain` column. */
  function RowOutcome(t: Table, network: string -> Option<int>, i: nat): Outcome
    requires WellFormed(t) && DomainColumn in t.data && i < t.height
  {
    Classify(network(UrlOf(t.data[DomainColumn][i])))
  }

  /** The codes of all rows, in row order. */
  function RowCodes(t: Table, network: string -> Option<int>): (codes: seq<Option<int>>)
    requires WellFormed(t) && DomainColumn in t.data
    ensures |codes| == t.height
    ensures forall i :: 0 <= i < t.height ==> codes[i] == RowOutcome(t, network, i).code
  {
    seq(t.height, i requires 0 <= i < t.height => RowOutcome(t, network, i).code)
  }

  /** The messages of all rows, in row order. */
  function RowMessages(t: Table, network: string -> Option<int>): (messages: seq<string>)
    requires WellFormed(t) && DomainColumn in t.data
    ensures |messages| == t.height
    ensures forall i :: 0 <= i < t.height ==> messages[i] == RowOutcome(t, network, i).message
  {
    seq(t.height, i requires 0 <= i < t.height => RowOutcome(t, network, i).message)
  }

  /**
   * The annotated table `upload` stores: every original row and column,
   * plus `status_code` and `message` filled in from each row's check.
   */
  function Annotate(t: Table, network: string -> Option<int>): (r: Table)
    requires WellFormed(t) && DomainColumn in t.data
    ensures WellFormed(r) && r.height == t.height
    ensures StatusColumn in r.data && MessageColumn in r.data
    ensures forall i :: 0 <= i < t.height ==>
              && r.data[StatusColumn][i] == CodeCell(RowOutcome(t, network, i).code)
              && r.data[MessageColumn][i] == Text(RowOutcome(t, network, i).message)
  {
    var codes, messages := RowCodes(t, network), RowMessages(t, network);
    var withCodes := WithColumn(t, StatusColumn, StatusCells(codes));
    var r := WithColumn(withCodes, MessageColumn, MessageCells(messages));
    assert r.data[StatusColumn] == withCodes.data[StatusColumn] == StatusCells(codes);
    r
  }

  /**
   * Annotating keeps every original column, in its place and with its
   * cells, except that a `status_code` or `message` column already present
   * is overwritten; the columns gained are exactly those two.
   */
  lemma AnnotateKeepsTable(t: Table, network: string -> Option<int>)
    requires WellFormed(t) && DomainColumn in t.data
    ensures var r := Annotate(t, network);
      && t.columns <= r.columns
      && (forall c :: c in r.data <==> c in t.data || c == StatusColumn || c == MessageColumn)
      && (forall c :: c in t.data && c != StatusColumn && c != MessageColumn ==> r.data[c] == t.data[c])
  {
    var withCodes := WithColumn(t, StatusColumn, StatusCells(RowCodes(t, network)));
    assert Annotate(t, network) == WithColumn(withCodes, MessageColumn, MessageCells(RowMessages(t, network)));
  }

  /** The two lists of the loop, attached as columns, give the annotated table. */
  lemma AnnotateFromLists(t: Table, network: string -> Option<int>, codes: seq<Option<int>>, messages: seq<string>)
    requires WellFormed(t) && DomainColumn in t.data
    requires |codes| == t.height && |messages| == t.height
    requires forall i :: 0 <= i < t.height ==> Outcome(codes[i], messages[i]) == RowOutcome(t, network, i)
    ensures WithColumn(WithColumn(t, StatusColumn, StatusCells(codes)), MessageColumn, MessageCells(messages))
            == Annotate(t, network)
  {
    forall i | 0 <= i < t.height ensures codes[i] == RowCodes(t, network)[i] && messages[i] == RowMessages(t, network)[i] {
      assert Outcome(codes[i], messages[i]) == RowOutcome(t, network, i);
    }
    assert codes == RowCodes(t, network);
    assert messages == RowMessages(t, network);
  }

  /** A result record whose status code is missing exactly when its message says the site could not be reached. */
  predicate Consistent(rec: Record)
  {
    && StatusColumn in rec && MessageColumn in rec
    && (rec[StatusColumn] == Missing <==> rec[MessageColumn] == Text(NoConnectMessage))
  }

  /**
   * Each record of an annotated table is its input row, unchanged in every
   * original column other than the two written; the rows keep their number
   * and their order.
   */
  lemma AnnotatedRecordsKeepRows(t: Table, network: string -> Option<int>)
    requires WellFormed(t) && DomainColumn in t.data
    ensures var rs := Records(Annotate(t, network));
      && |rs| == t.height
      && (forall i :: 0 <= i < |rs| ==> rs[i].Keys == t.data.Keys + {StatusColumn, MessageColumn})
      && (forall i, c :: 0 <= i < |rs| && c in t.data && c != StatusColumn && c != MessageColumn ==> rs[i][c] == t.data[c][i])
  {
    AnnotateKeepsTable(t, network);
  }

  /**
   * Record `i` of an annotated table carries the code and message of
   * checking row `i`'s `domain` cell, and so is consistent.
   */
  lemma AnnotatedRecordsCarryOutcomes(t: Table, network: string -> Option<int>)
    requires WellFormed(t) && DomainColumn in t.data
    ensures var rs := Records(Annotate(t, network));
      && |rs| == t.height
      && (forall i :: 0 <= i < |rs| ==>
            && StatusColumn in rs[i] && MessageColumn in rs[i]
            && rs[i][StatusColumn] == CodeCell(RowOutcome(t, network, i).code)
            && rs[i][MessageColumn] == Text(RowOutcome(t, network, i).message))
      && (forall i :: 0 <= i < |rs| ==> Consistent(rs[i]))
  {
    var r := Annotate(t, network);
    var rs := Records(r);
    forall i | 0 <= i < |rs| ensures Consistent(rs[i]) {
      var o := RowOutcome(t, network, i);
      assert rs[i][StatusColumn] == CodeCell(o.code);
      assert rs[i][MessageColumn] == Text(o.message);
    }
  }

  /** The record a single-URL check stores: the URL as submitted, with the outcome of checking it stripped. */
  function Entry(url: string, network: string -> Option<int>): (rec: Record)
    ensures Consistent(rec)
    ensures rec.Keys == {DomainColumn, StatusColumn, MessageColumn}
    ensures rec[DomainColumn] == Text(url)
    ensures rec[StatusColumn] == CodeCell(network(Strip(url)))
    ensures rec[MessageColumn] == Text(Classify(network(Strip(url))).message)
  {
    var o := Classify(network(Strip(url)));
    map[DomainColumn := Text(url), StatusColumn := CodeCell(o.code), MessageColumn := Text(o.message)]
  }

  /**
   * The application state: the session's result set and the downloadable
   * report (absent until the first successful upload).
   */
  class Service {
    var results: seq<Record>
    var report: Option<Table>

    ghost predicate Valid()
      reads this
    {
      && (forall k :: 0 <= k < |results| ==> Consistent(results[k]))
      && (report.Some? ==> WellFormed(report.value))
    }

    constructor ()
      ensures Valid() && results == [] && report == None
    {
      results := [];
      report := None;
    }

    /**
     * `POST /upload`: every refusal is a 400 that changes nothing; a
     * success replaces both the report and the result set by the same
     * annotated table.
     */
    method Upload(filename: string, parse: Format -> Table, network: string -> Option<int>)
      returns (resp: Response)
      requires Valid()
      requires forall f :: WellFormed(parse(f))
      modifies this
      ensures Valid()
      ensures filename == "" ==> resp == NoFileReply
      ensures filename != "" && FormatOf(filename) == None ==> resp == UnsupportedReply
      ensures filename != "" && FormatOf(filename).Some? && DomainColumn !in parse(FormatOf(filename).value).data
              ==> resp == MissingDomainReply
      ensures resp != ToResults ==> results == old(results) && report == old(report)
      ensures resp == ToResults <==>
              filename != "" && FormatOf(filename).Some? && DomainColumn in parse(FormatOf(filename).value).data
      ensures resp == ToResults ==>
                var t := Annotate(parse(FormatOf(filename).value), network);
                report == Some(t) && results == Records(t)
    {
      if filename == "" {
        return NoFileReply;
      }
      var df: Table;
      if EndsWith(filename, ".csv") {
        df := parse(Csv);
      } else if EndsWith(filename, ".xlsx") {
        df := parse(Xlsx);
      } else {
        return UnsupportedReply;
      }
      if DomainColumn !in df.columns {
        return MissingDomainReply;
      }
      var codes, messages := CheckAll(df.data[DomainColumn], network);
      var annotated := WithColumn(df, StatusColumn, StatusCells(codes));
      annotated := WithColumn(annotated, MessageColumn, MessageCells(messages));
      AnnotateFromLists(df, network, codes, messages);
      AnnotatedRecordsCarryOutcomes(df, network);
      report := Some(annotated);
      results := Records(annotated);
      resp := ToResults;
    }

    /**
     * `POST /check-url`: without a URL nothing changes; otherwise the
     * result set is cleared and the one new record appended, so it holds
     * that record alone.  The report is never touched.
     */
    method CheckUrl(url: Option<string>, network: string -> Option<int>) returns (resp: Response)
      requires Valid()
      modifies this
      ensures Valid()
      ensures resp == ToResults
      ensures report == old(report)
      ensures url == None || url == Some("") ==> results == old(results)
      ensures url.Some? && url.value != "" ==> results == [Entry(url.value, network)]
    {
      if url == None || url == Some("") {
        return ToResults;
      }
      var entry := Entry(url.value, network);
      results := [];
      results := results + [entry];
      resp := ToResults;
    }
  }
}
