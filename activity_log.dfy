/** The Activity Log page: one fetch on mount behind a loading flag, 8 rows a
    page with bounds-guarded next/previous handlers, long cells truncated for
    display, and a CSV export of the full list. */
module ActivityLog {
  import opened Wire
  import opened Paging
  import opened EntityPage

  const LogsPerPage: nat := 8

  /** `truncateText(text, maxLength = 20)`:
      `text?.length > maxLength ? text.substring(0, maxLength) + '...' : text`.
      `None` is a null or undefined cell, returned as it is. */
  function TruncateText(text: Option<string>, maxLength: nat := 20): (r: Option<string>)
    ensures text.None? ==> r == None
    ensures text.Some? ==> r.Some? && |r.value| <= maxLength + 3
    ensures text.Some? && |text.value| <= maxLength ==> r == text
    ensures text.Some? && |text.value| > maxLength ==>
      |r.value| == maxLength + 3 && r.value[..maxLength] == text.value[..maxLength] && r.value[maxLength..] == "..."
  {
    match text
    case None => None
    case Some(t) => if |t| > maxLength then Some(t[..maxLength] + "...") else Some(t)
  }

  /** Truncating twice gives what truncating once gives. */
  lemma TruncateIdempotent(text: Option<string>, maxLength: nat)
    ensures TruncateText(TruncateText(text, maxLength), maxLength) == TruncateText(text, maxLength)
  {
    if text.Some? && |text.value| > maxLength {
      var t := text.value;
      var once := t[..maxLength] + "...";
      assert once[..maxLength] == t[..maxLength];
      assert once[..maxLength] + "..." == once;
    }
  }

  /** A text comes back unchanged iff it fits, or it is already a maximal
      truncation (exactly maxLength + 3 characters ending in "..."). */
  lemma TruncateFixedPoints(t: string, maxLength: nat)
    ensures TruncateText(Some(t), maxLength) == Some(t) <==>
      |t| <= maxLength || (|t| == maxLength + 3 && t[maxLength..] == "...")
  {
    if |t| > maxLength && |t| == maxLength + 3 && t[maxLength..] == "..." {
      assert t[..maxLength] + t[maxLength..] == t;
    }
  }

  /** One record of `GetActivityLogData` (`httpMethod` is the wire field `method`). */
  datatype LogEntry = LogEntry(
    logID: Value, userID: Value, action: Option<string>, endpoint: Option<string>,
    httpMethod: Option<string>, requestData: Option<string>, responseData: Option<string>,
    statusCode: Value, timestamp: Option<string>)

  /** One table row: eight columns, no user id. */
  datatype LogRow = LogRow(
    logID: Value, action: Option<string>, endpoint: Option<string>, httpMethod: Option<string>,
    requestData: Option<string>, responseData: Option<string>, statusCode: Value, timestamp: Option<string>)

  /** Only the endpoint, request-data and response-data cells are truncated. */
  function RenderRow(log: LogEntry): (row: LogRow)
    ensures row.endpoint == TruncateText(log.endpoint)
    ensures row.requestData == TruncateText(log.requestData)
    ensures row.responseData == TruncateText(log.responseData)
    ensures row.logID == log.logID && row.action == log.action && row.httpMethod == log.httpMethod
    ensures row.statusCode == log.statusCode && row.timestamp == log.timestamp
  {
    LogRow(log.logID, log.action, TruncateText(log.endpoint), log.httpMethod,
           TruncateText(log.requestData), TruncateText(log.responseData), log.statusCode, log.timestamp)
  }

  function RenderRows(logs: seq<LogEntry>): (rows: seq<LogRow>)
    ensures |rows| == |logs|
    ensures forall i :: 0 <= i < |logs| ==> rows[i] == RenderRow(logs[i])
  {
    if logs == [] then [] else [RenderRow(logs[0])] + RenderRows(logs[1..])
  }

  datatype CsvHeader = CsvHeader(title: string, key: string)

  const CsvHeaders: seq<CsvHeader> := [
    CsvHeader("LogID", "logID"), CsvHeader("UserID", "userID"), CsvHeader("Action", "action"),
    CsvHeader("Endpoint", "endpoint"), CsvHeader("Method", "method"),
    CsvHeader("Request Data", "requestData"), CsvHeader("Response Data", "responseData"),
    CsvHeader("Status Code", "statusCode"), CsvHeader("Timestamp", "timestamp")
  ]

  /** `csvReport`: what the Export to CSV link hands to the CSV writer. */
  datatype CsvReport = CsvReport(data: seq<LogEntry>, headers: seq<CsvHeader>, filename: string)

  /** The i-th displayed row of page `page` shows the record at position
      (page - 1) * 8 + i of the full list, with only its three long cells
      truncated, while the export carries that record untruncated. */
  lemma DisplayedRowComesFromList(logs: seq<LogEntry>, page: int, i: int)
    requires page >= 1 && 0 <= i < |RenderRows(PageWindow(logs, page, LogsPerPage))|
    ensures 0 <= (page - 1) * LogsPerPage + i < |logs|
    ensures var log := logs[(page - 1) * LogsPerPage + i];
      var row := RenderRows(PageWindow(logs, page, LogsPerPage))[i];
      && row.endpoint == TruncateText(log.endpoint)
      && row.requestData == TruncateText(log.requestData)
      && row.responseData == TruncateText(log.responseData)
      && row.logID == log.logID && row.action == log.action && row.httpMethod == log.httpMethod
      && row.statusCode == log.statusCode && row.timestamp == log.timestamp
  {
    PageWindowIsBlock(logs, page, LogsPerPage);
  }

  class ActivityLogPage {
    var activityLogs: seq<LogEntry>
    var currentPage: int
    var loading: bool

    /** The page number stays in range, and while the (mount-time) fetch is
        outstanding the page is still the first one. */
    ghost predicate Valid()
      reads this
    {
      InRange(currentPage, TotalPages(|activityLogs|, LogsPerPage)) && (loading ==> currentPage == 1)
    }

    function TotalPagesNow(): nat
      reads this
    {
      TotalPages(|activityLogs|, LogsPerPage)
    }

    /** Mount: empty list, page 1, and `loading` true (the initial state and
        the `setLoading(true)` of the fetch the mount effect starts). */
    constructor ()
      ensures Valid() && activityLogs == [] && currentPage == 1 && loading
    {
      activityLogs := [];
      currentPage := 1;
      loading := true;
    }

    /** `fetchActivityLogs` settling: a resolved reply replaces the list, a
        rejected one keeps it; `loading` turns false either way (`finally`). */
    method FetchSettled(reply: Reply<seq<LogEntry>>)
      requires Valid() && loading
      modifies this`activityLogs, this`loading
      ensures Valid() && !loading && currentPage == 1
      ensures activityLogs == FetchedList(reply, old(activityLogs))
    {
      activityLogs := FetchedList(reply, activityLogs);
      loading := false;
    }

    /** `nextPage`; the button exists only once loading is over. */
    method NextPage()
      requires Valid() && !loading
      modifies this`currentPage
      ensures Valid()
      ensures currentPage == GuardedNext(old(currentPage), TotalPagesNow())
    {
      if currentPage < TotalPagesNow() {
        currentPage := currentPage + 1;
      }
    }

    /** `prevPage` */
    method PrevPage()
      requires Valid() && !loading
      modifies this`currentPage
      ensures Valid()
      ensures currentPage == GuardedPrev(old(currentPage), TotalPagesNow())
    {
      if currentPage > 1 {
        currentPage := currentPage - 1;
      }
    }

    /** `currentLogs`: the rows of the current page, at most 8. */
    function CurrentLogs(): (r: seq<LogEntry>)
      reads this
      ensures currentPage >= 1 ==> |r| <= LogsPerPage
      ensures currentPage >= 1 ==>
        r == activityLogs[Min((currentPage - 1) * LogsPerPage, |activityLogs|)..Min(currentPage * LogsPerPage, |activityLogs|)]
    {
      if currentPage >= 1 then PageWindowIsBlock(activityLogs, currentPage, LogsPerPage); PageWindow(activityLogs, currentPage, LogsPerPage)
      else PageWindow(activityLogs, currentPage, LogsPerPage)
    }

    /** The export: the full fetched list, neither paginated nor truncated. */
    function Csv(): (r: CsvReport)
      reads this
      ensures r.data == activityLogs && r.headers == CsvHeaders && r.filename == "ActivityLog_Report.csv"
    {
      CsvReport(activityLogs, CsvHeaders, "ActivityLog_Report.csv")
    }

    /** What the page shows: the loader while loading, otherwise the table. */
    predicate ShowsTable()
      reads this
    {
      !loading
    }
  }

  /** A mount whose fetch fails shows an empty table on page 1 of 0; the Next
      button is then enabled, and pressing it changes nothing. */
  method MountWithFailedFetch() returns (page: int, total: int, nextEnabled: bool)
    ensures page == 1 && total == 0 && nextEnabled
  {
    var p := new ActivityLogPage();
    p.FetchSettled(Failed);
    total := p.TotalPagesNow();
    nextEnabled := !NextDisabled(p.currentPage, total);
    p.NextPage();
    page := p.currentPage;
  }
}
