/** The report view: its filter inputs, the "generate" handler that posts a
    report request, and how the settled request is accepted into the table
    or turned into an error line. As in the scanner, the handler runs in
    two halves (up to the `await`, and after it settles); outstanding report
    requests are a field, settled in any order. */
module Reports {
  import opened Wrappers
  import opened Js
  import opened Pending
  import opened GoogleSheetsService

  const SELECT_TYPE_ERROR := "الرجاء اختيار نوع التقرير."
  const MALFORMED_REPORT_ERROR := "فشل في تحليل بيانات التقرير من الخادم. يرجى مراجعة Google Script."
  const FETCH_ERROR_DEFAULT := "حدث خطأ أثناء جلب البيانات."

  /** `data && data.title && Array.isArray(data.headers) && Array.isArray(data.rows)`.
      Row widths are not compared with the number of headers. */
  predicate IsReportData(data: Json) {
    && Truthy(data)
    && Prop(data, "title").Some? && Truthy(Prop(data, "title").value)
    && IsArray(Prop(data, "headers"))
    && IsArray(Prop(data, "rows"))
  }

  /** The shape check spelled out on the body's own fields: an object with a
      truthy title and array-valued headers and rows, nothing more. */
  lemma ReportDataShape(data: Json)
    ensures IsReportData(data) <==>
      && data.JObj?
      && "title" in data.fields && Truthy(data.fields["title"])
      && "headers" in data.fields && data.fields["headers"].JArr?
      && "rows" in data.fields && data.fields["rows"].JArr?
  {
  }

  /** `err instanceof Error ? err.message : <default>`. */
  function CaughtMessage(t: Thrown): (m: string)
    ensures t.ErrorValue? ==> m == t.message
    ensures t.NonError? ==> m == FETCH_ERROR_DEFAULT
  {
    if t.ErrorValue? then t.message else FETCH_ERROR_DEFAULT
  }

  /** What the second half of the handler decides: the data to show (Ok),
      or the error line to show (Err). */
  function ReportOutcome(reply: FetchOutcome<Json>): (r: Result<Json, string>)
    ensures r.Ok? <==> GetReportDataResult(reply).Ok? && IsReportData(GetReportDataResult(reply).value)
    ensures r.Ok? ==> r.value == reply.response.json.value && IsReportData(r.value)
    ensures GetReportDataResult(reply).Ok? && !IsReportData(GetReportDataResult(reply).value) ==>
              r == Err(MALFORMED_REPORT_ERROR)
    ensures GetReportDataResult(reply).Err? ==> r == Err(GetReportDataResult(reply).error.message)
  {
    match GetReportDataResult(reply)
    case Err(t) => Err(CaughtMessage(t))
    case Ok(data) => if IsReportData(data) then Ok(data) else Err(MALFORMED_REPORT_ERROR)
  }

  /** A body that arrives with an error status never reaches the table,
      whatever else it carries. */
  lemma ErrorStatusNeverShown(reply: FetchOutcome<Json>)
    requires reply.Responded? && reply.response.ok && reply.response.json.Ok?
    requires Prop(reply.response.json.value, "status") == Some(JStr("error"))
    ensures ReportOutcome(reply) == Err(ServerMessage(reply.response.json.value))
  {
  }

  class ReportsState {
    var reportType: ReportType
    var hrCode: string
    var date: string
    var startDate: string
    var endDate: string
    var reportData: Option<Json>
    var isLoading: bool
    var error: Option<string>
    /** The forms of the report requests posted and not yet settled. */
    var pending: seq<Form>

    /** Only data that passed the shape check is ever shown, and the view
        is loading only while a request is outstanding. */
    predicate Valid()
      reads this
    {
      && (reportData.Some? ==> IsReportData(reportData.value))
      && (isLoading ==> |pending| > 0)
    }

    /** The parameters object: all five inputs, whatever the report type. */
    function Params(): (p: ReportParams)
      reads this
      ensures p.reportType == reportType
      ensures p.hrCode == Some(hrCode) && p.date == Some(date)
      ensures p.startDate == Some(startDate) && p.endDate == Some(endDate)
    {
      ReportParams(reportType, Some(hrCode), Some(date), Some(startDate), Some(endDate))
    }

    /** The view as first shown; `today` is the ISO date the three date
        inputs start from. */
    constructor(today: string)
      ensures Valid()
      ensures reportType == NoneSelected && hrCode == ""
      ensures date == today && startDate == today && endDate == today
      ensures reportData == None && !isLoading && error == None && pending == []
    {
      reportType, hrCode := NoneSelected, "";
      date, startDate, endDate := today, today, today;
      reportData, isLoading, error, pending := None, false, None, [];
    }

    /** The handler up to its `await`: with no report type chosen it only
        sets the error line; otherwise it starts loading, clears the error
        and the table, and posts the report form. */
    method GenerateReport() returns (sent: bool)
      requires Valid()
      modifies this
      ensures Valid()
      ensures sent <==> old(reportType) != NoneSelected
      ensures !sent ==> error == Some(SELECT_TYPE_ERROR)
      ensures !sent ==> reportData == old(reportData) && isLoading == old(isLoading) && pending == old(pending)
      ensures sent ==> isLoading && error == None && reportData == None
      ensures sent ==> pending == old(pending) + [ReportForm(old(Params()))]
      ensures reportType == old(reportType) && hrCode == old(hrCode) && date == old(date)
      ensures startDate == old(startDate) && endDate == old(endDate)
    {
      if reportType == NoneSelected {
        error := Some(SELECT_TYPE_ERROR);
        return false;
      }
      isLoading := true;
      error := None;
      reportData := None;
      var form := BuildReportForm(Params());
      pending := pending + [form];
      sent := true;
    }

    /** The handler after request `i` settles with `reply`: valid data is
        shown, anything else becomes the error line, and loading ends
        whatever the outcome. */
    method ReceiveReport(i: nat, reply: FetchOutcome<Json>)
      requires Valid() && i < |pending|
      modifies this
      ensures Valid()
      ensures pending == RemoveAt(old(pending), i)
      ensures !isLoading
      ensures ReportOutcome(reply).Ok? ==> reportData == Some(ReportOutcome(reply).value) && error == old(error)
      ensures ReportOutcome(reply).Err? ==> error == Some(ReportOutcome(reply).error) && reportData == old(reportData)
      ensures reportType == old(reportType) && hrCode == old(hrCode) && date == old(date)
      ensures startDate == old(startDate) && endDate == old(endDate)
    {
      var outcome := ReportOutcome(reply);
      if outcome.Ok? {
        reportData := Some(outcome.value);
      } else {
        error := Some(outcome.error);
      }
      isLoading := false;
      pending := RemoveAt(pending, i);
    }
  }

  /** A period report requested for January 2024 and answered with a one
      row table is shown exactly as it arrived. */
  method PeriodReportScenario() {
    var s := new ReportsState("2024-01-31");
    s.reportType, s.startDate := Period, "2024-01-01";
    var sent := s.GenerateReport();
    assert sent && s.isLoading && |s.pending| == 1;
    assert s.pending[0] == ReportForm(ReportParams(Period, Some(""), Some("2024-01-31"), Some("2024-01-01"), Some("2024-01-31")));
    var body := JObj(map[
      "title" := JStr("Period Report"),
      "headers" := JArr([JStr("Name"), JStr("Days")]),
      "rows" := JArr([JArr([JStr("Ali"), JNum(20.0)])])]);
    assert Prop(body, "status") == None;
    var reply := Responded(HttpResponse(true, 200, "OK", "", Ok(body)));
    assert GetReportDataResult(reply) == Ok(body);
    assert IsReportData(body);
    s.ReceiveReport(0, reply);
    assert s.reportData == Some(body) && s.error == None && !s.isLoading && s.pending == [];
  }

  /** With no report type chosen nothing is posted and the table stays. */
  method NoTypeScenario() {
    var s := new ReportsState("2024-01-31");
    var sent := s.GenerateReport();
    assert !sent && s.pending == [] && s.error == Some(SELECT_TYPE_ERROR);
  }

  /** Rows narrower than the headers still pass the shape check. */
  method RaggedRowsAccepted() {
    var body := JObj(map[
      "title" := JStr("Daily"),
      "headers" := JArr([JStr("Name"), JStr("In"), JStr("Out")]),
      "rows" := JArr([JArr([JStr("Ali")])])]);
    assert IsReportData(body);
  }
}
