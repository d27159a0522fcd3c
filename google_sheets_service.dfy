/** The two requests the kiosk sends to its spreadsheet script: the form
    fields each one posts, and how the reply is turned into a returned value
    or a thrown error. The `fetch` itself is not modelled: its outcome is an
    input (`FetchOutcome`). */
module GoogleSheetsService {
  import opened Wrappers
  import opened Js

  /** One `formData.append(name, value)`; a form is the appends in order. */
  type Field = (string, string)
  type Form = seq<Field>

  /** A thrown value: an `Error` with its message, or anything else. */
  datatype Thrown = ErrorValue(message: string) | NonError

  /** A reply that arrived. `text` is what `response.text()` yields and
      `json` what `response.json()` yields, where `Err(m)` is the
      `SyntaxError` (an `Error` with message `m`) it rejects with. */
  datatype HttpResponse<B> = HttpResponse(
    ok: bool, status: nat, statusText: string, text: string, json: Result<B, string>)

  /** What the awaited `fetch` gives: a response, or a rejection. */
  datatype FetchOutcome<B> = Responded(response: HttpResponse<B>) | Rejected(thrown: Thrown)

  datatype Employee = Employee(name: Option<string>, department: Option<string>)

  /** The attendance reply body; every property may be absent. */
  datatype AttendanceResponse = AttendanceResponse(
    status: Option<string>, message: Option<string>, employee: Option<Employee>)

  datatype ReportType = NoneSelected | SingleLabor | Daily | Period

  /** The string a report type stands for on the wire. */
  function ReportTypeTag(t: ReportType): string {
    match t
    case NoneSelected => "NONE"
    case SingleLabor => "SINGLE_LABOR"
    case Daily => "DAILY"
    case Period => "PERIOD"
  }

  datatype ReportParams = ReportParams(
    reportType: ReportType,
    hrCode: Option<string>, date: Option<string>,
    startDate: Option<string>, endDate: Option<string>)

  const SERVER_ERROR_DEFAULT := "An unknown error occurred on the server."
  const ATTENDANCE_UNEXPECTED := "An unexpected error occurred during the request."
  const REPORT_UNEXPECTED := "An unexpected error occurred while fetching the report."
  /** The TypeError that `'status' in result` raises on a primitive body. */
  const IN_OPERATOR_ERROR := "Cannot use 'in' operator to search for 'status'"

  /** `formData.get(key)`: the value of the first field with that name. */
  function Lookup(form: Form, key: string): (r: Option<string>)
    ensures r.Some? ==> (key, r.value) in form
    ensures r.None? ==> forall f :: f in form ==> f.0 != key
  {
    if form == [] then None
    else if form[0].0 == key then Some(form[0].1)
    else Lookup(form[1..], key)
  }

  /** `formData.get(key)` reads the first field with that name: the
      result is the value at the first position whose name is `key`. */
  lemma {:induction false} LookupFirst(form: Form, key: string, j: nat)
    requires j < |form| && form[j].0 == key
    requires forall k :: 0 <= k < j ==> form[k].0 != key
    ensures Lookup(form, key) == Some(form[j].1)
  {
    if j > 0 {
      assert form[0].0 != key;
      LookupFirst(form[1..], key, j - 1);
    }
  }

  // ---------------------------------------------------------------------
  // Request encoding

  /** The form `postAttendance` posts: three fields in a fixed order, each
      of which the script reads back by name. */
  method BuildAttendanceForm(hrCode: string, action: string) returns (form: Form)
    ensures form == [("action", "postAttendance"), ("hrCode", hrCode), ("recordAction", action)]
    ensures Lookup(form, "action") == Some("postAttendance")
    ensures Lookup(form, "hrCode") == Some(hrCode)
    ensures Lookup(form, "recordAction") == Some(action)
  {
    form := [];
    form := form + [("action", "postAttendance")];
    form := form + [("hrCode", hrCode)];
    form := form + [("recordAction", action)];
  }

  /** The optional report filters, in the order they are appended. */
  function OptionalFields(p: ReportParams): seq<(string, Option<string>)> {
    [("hrCode", p.hrCode), ("date", p.date), ("startDate", p.startDate), ("endDate", p.endDate)]
  }

  /** The fields whose value is truthy (present and non-empty), in order. */
  function Present(fs: seq<(string, Option<string>)>): Form {
    if fs == [] then []
    else if fs[0].1.Some? && fs[0].1.value != "" then [(fs[0].0, fs[0].1.value)] + Present(fs[1..])
    else Present(fs[1..])
  }

  /** The form `getReportData` posts, stated declaratively: the two fixed
      fields, then the truthy optional filters. */
  function ReportForm(p: ReportParams): Form {
    [("action", "getReportData"), ("reportType", ReportTypeTag(p.reportType))]
      + Present(OptionalFields(p))
  }

  /** The appends of `getReportData`, one conditional append per filter. */
  method BuildReportForm(p: ReportParams) returns (form: Form)
    ensures form == ReportForm(p)
  {
    ghost var fs := OptionalFields(p);
    form := [];
    form := form + [("action", "getReportData")];
    form := form + [("reportType", ReportTypeTag(p.reportType))];
    assert form + Present(fs[0..]) == ReportForm(p);
    if p.hrCode.Some? && p.hrCode.value != "" { form := form + [("hrCode", p.hrCode.value)]; }
    assert form + Present(fs[1..]) == ReportForm(p);
    if p.date.Some? && p.date.value != "" { form := form + [("date", p.date.value)]; }
    assert form + Present(fs[2..]) == ReportForm(p);
    if p.startDate.Some? && p.startDate.value != "" { form := form + [("startDate", p.startDate.value)]; }
    assert form + Present(fs[3..]) == ReportForm(p);
    if p.endDate.Some? && p.endDate.value != "" { form := form + [("endDate", p.endDate.value)]; }
    assert form + Present(fs[4..]) == ReportForm(p);
  }

  /** A field survives the filter exactly when it was there with a truthy value. */
  lemma {:induction false} PresentMembership(fs: seq<(string, Option<string>)>, k: string, v: string)
    ensures (k, v) in Present(fs) <==> (k, Some(v)) in fs && v != ""
  {
    if fs != [] {
      PresentMembership(fs[1..], k, v);
      assert fs == [fs[0]] + fs[1..];
    }
  }

  /** The position of each optional filter in the append order. */
  function FilterRank(k: string): nat {
    if k == "hrCode" then 0 else if k == "date" then 1 else if k == "startDate" then 2 else 3
  }

  ghost predicate RankIncreasing<V>(fs: seq<(string, V)>) {
    forall i, j :: 0 <= i < j < |fs| ==> FilterRank(fs[i].0) < FilterRank(fs[j].0)
  }

  lemma {:induction false} PresentRankAbove(fs: seq<(string, Option<string>)>, r: int)
    requires forall i :: 0 <= i < |fs| ==> FilterRank(fs[i].0) > r
    ensures forall i :: 0 <= i < |Present(fs)| ==> FilterRank(Present(fs)[i].0) > r
  {
    if fs != [] {
      PresentRankAbove(fs[1..], r);
    }
  }

  /** Filtering keeps the relative order of what it keeps. */
  lemma {:induction false} PresentKeepsOrder(fs: seq<(string, Option<string>)>)
    requires RankIncreasing(fs)
    ensures RankIncreasing(Present(fs))
  {
    if fs != [] {
      PresentKeepsOrder(fs[1..]);
      PresentRankAbove(fs[1..], FilterRank(fs[0].0));
    }
  }

  /** The report form begins with the action and the report type; each
      filter is present exactly when its value is truthy and then reads back
      as that value; the filters that are present keep the order hrCode,
      date, startDate, endDate, each at most once. */
  lemma ReportFormLayout(p: ReportParams)
    ensures ReportForm(p)[..2] == [("action", "getReportData"), ("reportType", ReportTypeTag(p.reportType))]
    ensures RankIncreasing(ReportForm(p)[2..])
    ensures forall v :: ("hrCode", v) in ReportForm(p)[2..] <==> p.hrCode == Some(v) && v != ""
    ensures forall v :: ("date", v) in ReportForm(p)[2..] <==> p.date == Some(v) && v != ""
    ensures forall v :: ("startDate", v) in ReportForm(p)[2..] <==> p.startDate == Some(v) && v != ""
    ensures forall v :: ("endDate", v) in ReportForm(p)[2..] <==> p.endDate == Some(v) && v != ""
    ensures Lookup(ReportForm(p), "date") == if p.date.Some? && p.date.value != "" then p.date else None
  {
    var fs := OptionalFields(p);
    assert ReportForm(p)[2..] == Present(fs);
    PresentKeepsOrder(fs);
    forall v ensures ("hrCode", v) in Present(fs) <==> p.hrCode == Some(v) && v != "" {
      PresentMembership(fs, "hrCode", v);
    }
    forall v ensures ("date", v) in Present(fs) <==> p.date == Some(v) && v != "" {
      PresentMembership(fs, "date", v);
    }
    forall v ensures ("startDate", v) in Present(fs) <==> p.startDate == Some(v) && v != "" {
      PresentMembership(fs, "startDate", v);
    }
    forall v ensures ("endDate", v) in Present(fs) <==> p.endDate == Some(v) && v != "" {
      PresentMembership(fs, "endDate", v);
    }
  }

  // ---------------------------------------------------------------------
  // Response classification

  /** The message of the error thrown for a non-OK status. */
  function NetworkErrorText(status: nat, statusText: string, body: string): (m: string)
    ensures |m| == 30 + |DecimalString(status)| + |statusText| + |body|
    ensures m[..15] == "Network error: "
    ensures m[15..15 + |DecimalString(status)|] == DecimalString(status)
    ensures m[15 + |DecimalString(status)|..18 + |DecimalString(status)|] == " - "
    ensures m[18 + |DecimalString(status)|..18 + |DecimalString(status)| + |statusText|] == statusText
    ensures m[18 + |DecimalString(status)| + |statusText|..|m| - |body|] == ". Response: "
    ensures m[|m| - |body|..] == body
  {
    "Network error: " + DecimalString(status) + " - " + statusText + ". Response: " + body
  }

  /** The part of the `try` block both requests share: a rejected `fetch`,
      a non-OK status and an unparsable body all throw; otherwise the
      parsed body. */
  function ReceiveJson<B>(reply: FetchOutcome<B>): (r: Result<B, Thrown>)
    ensures r.Ok? <==> reply.Responded? && reply.response.ok && reply.response.json.Ok?
    ensures r.Ok? ==> r.value == reply.response.json.value
    ensures reply.Responded? ==> r.Err? ==> r.error.ErrorValue?
    ensures reply.Rejected? ==> r == Err(reply.thrown)
    ensures reply.Responded? && !reply.response.ok ==>
              r == Err(ErrorValue(NetworkErrorText(reply.response.status, reply.response.statusText, reply.response.text)))
    ensures reply.Responded? && reply.response.ok && reply.response.json.Err? ==>
              r == Err(ErrorValue(reply.response.json.error))
  {
    match reply
    case Rejected(t) => Err(t)
    case Responded(resp) =>
      if !resp.ok then Err(ErrorValue(NetworkErrorText(resp.status, resp.statusText, resp.text)))
      else match resp.json
        case Ok(body) => Ok(body)
        case Err(syntax) => Err(ErrorValue(syntax))
  }

  /** The `catch` block: an `Error` is rethrown as it is, anything else is
      replaced by an `Error` with the given message. */
  function Rethrow(t: Thrown, unexpected: string): (e: Thrown)
    ensures e.ErrorValue?
    ensures t.ErrorValue? ==> e == t
    ensures t.NonError? ==> e.message == unexpected
  {
    if t.ErrorValue? then t else ErrorValue(unexpected)
  }

  /** What `postAttendance` resolves (Ok) or rejects (Err) with. */
  function PostAttendanceResult(reply: FetchOutcome<AttendanceResponse>): (r: Result<AttendanceResponse, Thrown>)
    ensures r.Err? ==> r.error.ErrorValue?
    ensures r.Ok? <==> ReceiveJson(reply).Ok? && ReceiveJson(reply).value.status != Some("error")
    ensures r.Ok? ==> r.value == reply.response.json.value
    ensures reply.Responded? && !reply.response.ok ==>
              r == Err(ErrorValue(NetworkErrorText(reply.response.status, reply.response.statusText, reply.response.text)))
    ensures ReceiveJson(reply).Ok? && ReceiveJson(reply).value.status == Some("error") ==>
              r.Err? && r.error.message == OrElse(ReceiveJson(reply).value.message, SERVER_ERROR_DEFAULT)
    ensures reply.Rejected? ==> r == Err(Rethrow(reply.thrown, ATTENDANCE_UNEXPECTED))
    ensures ReceiveJson(reply).Err? ==> r == Err(Rethrow(ReceiveJson(reply).error, ATTENDANCE_UNEXPECTED))
    ensures reply.Responded? && reply.response.ok && reply.response.json.Err? ==>
              r == Err(ErrorValue(reply.response.json.error))
  {
    match ReceiveJson(reply)
    case Err(t) => Err(Rethrow(t, ATTENDANCE_UNEXPECTED))
    case Ok(body) =>
      if body.status == Some("error") then Err(ErrorValue(OrElse(body.message, SERVER_ERROR_DEFAULT)))
      else Ok(body)
  }

  /** The message of a report body that reports an error. */
  function ServerMessage(body: Json): string {
    match Prop(body, "message")
    case Some(JStr(s)) => OrElse(Some(s), SERVER_ERROR_DEFAULT)
    case _ => SERVER_ERROR_DEFAULT
  }

  /** `result && 'status' in result && result.status === 'error'`, where the
      `in` operator throws on a truthy primitive. */
  function CheckReportBody(body: Json): (r: Result<Json, Thrown>)
    ensures r.Ok? ==> r.value == body
    ensures r.Err? ==> r.error.ErrorValue?
    ensures body.JObj? ==> (r.Err? <==> Prop(body, "status") == Some(JStr("error")))
    ensures body.JArr? || !Truthy(body) ==> r.Ok?
    ensures Truthy(body) && !body.JObj? && !body.JArr? ==> r == Err(ErrorValue(IN_OPERATOR_ERROR))
    ensures r.Err? && body.JObj? ==> r.error.message == ServerMessage(body)
  {
    if !Truthy(body) then Ok(body)
    else if !(body.JObj? || body.JArr?) then Err(ErrorValue(IN_OPERATOR_ERROR))
    else if Prop(body, "status") == Some(JStr("error")) then Err(ErrorValue(ServerMessage(body)))
    else Ok(body)
  }

  /** What `getReportData` resolves (Ok) or rejects (Err) with. The body
      is returned without any check of its shape. */
  function GetReportDataResult(reply: FetchOutcome<Json>): (r: Result<Json, Thrown>)
    ensures r.Err? ==> r.error.ErrorValue?
    ensures r.Ok? ==> ReceiveJson(reply).Ok? && r.value == reply.response.json.value
    ensures ReceiveJson(reply).Ok? && reply.response.json.value.JObj? ==>
              (r.Ok? <==> Prop(reply.response.json.value, "status") != Some(JStr("error")))
    ensures reply.Rejected? ==> r == Err(Rethrow(reply.thrown, REPORT_UNEXPECTED))
    ensures ReceiveJson(reply).Err? ==> r == Err(Rethrow(ReceiveJson(reply).error, REPORT_UNEXPECTED))
    ensures reply.Responded? && reply.response.ok && reply.response.json.Err? ==>
              r == Err(ErrorValue(reply.response.json.error))
    ensures reply.Responded? && !reply.response.ok ==>
              r == Err(ErrorValue(NetworkErrorText(reply.response.status, reply.response.statusText, reply.response.text)))
    ensures ReceiveJson(reply).Ok? ==> r == CheckReportBody(reply.response.json.value)
  {
    match ReceiveJson(reply)
    case Err(t) => Err(Rethrow(t, REPORT_UNEXPECTED))
    case Ok(body) => CheckReportBody(body)
  }
}
