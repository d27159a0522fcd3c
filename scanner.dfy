/** The scan submission pipeline of the scanner view. The browser runs one
    handler at a time, each up to its next `await` or timer, so every such
    run is one method of `ScannerState`:
      - a decoded code arrives (`CodeDecoded`);
      - the manual form is submitted (`ManualSubmit`);
      - an outstanding attendance request settles (`Complete`);
      - an armed timer fires (`FireTimer`).
    Outstanding requests and armed timers are fields, so the environment
    may settle or fire any of them in any order, which includes every order
    the real clock allows. */
module Scanner {
  import opened Wrappers
  import opened Js
  import opened Pending
  import opened GoogleSheetsService

  datatype ActionType = CheckIn | CheckOut | EveningCheckOut

  /** The label posted as `recordAction`. */
  function ActionLabel(a: ActionType): string {
    match a
    case CheckIn => "دخول"
    case CheckOut => "خروج"
    case EveningCheckOut => "خروج مسائي"
  }

  const DEBOUNCE_DELAY_MS: nat := 1500
  const MESSAGE_CLEAR_DELAY_MS: nat := DEBOUNCE_DELAY_MS + 1500
  const PROCESSING_DEPARTMENT := "جاري المعالجة..."
  const PROCESSING_MESSAGE := "لحظات من فضلك"
  const RECORDED_DEPARTMENT := "تم التسجيل بنجاح"
  const UNEXPECTED_ERROR := "حدث خطأ غير متوقع."
  const FAILURE_PREFIX := "فشل لـ "

  /** The success panel: `successInfo`. */
  datatype SuccessInfo = SuccessInfo(name: string, department: string, message: Option<string>)

  /** An armed `setTimeout` callback, with what its closure captured. */
  datatype Timer =
    | ClearSuccess(name: string)  // armed by handleAttendanceSuccess
    | ClearMessage(text: string)  // armed by handleAttendanceError
    | Cooldown(code: string)      // armed in the `finally` of a submission

  function DelayMs(t: Timer): nat {
    match t
    case ClearSuccess(_) => DEBOUNCE_DELAY_MS
    case ClearMessage(_) => MESSAGE_CLEAR_DELAY_MS
    case Cooldown(_) => DEBOUNCE_DELAY_MS
  }

  /** The cooldown a failure arms expires 1500 ms before the banner clear
      armed with it, so the same code can fail again while the first banner
      timer is still armed. */
  lemma BannerOutlastsCooldown(text: string, code: string)
    ensures DelayMs(ClearMessage(text)) == DelayMs(Cooldown(code)) + 1500
    ensures DelayMs(ClearSuccess(text)) == DelayMs(Cooldown(code))
  {
  }

  /** An attendance request that has been posted and not yet settled. */
  datatype Request = Request(code: string, form: Form, manual: bool)

  /** The panel shown as soon as a code is accepted. */
  function Placeholder(code: string): SuccessInfo {
    SuccessInfo(code, PROCESSING_DEPARTMENT, Some(PROCESSING_MESSAGE))
  }

  function EmployeeName(response: AttendanceResponse): Option<string> {
    if response.employee.Some? then response.employee.value.name else None
  }

  function EmployeeDepartment(response: AttendanceResponse): Option<string> {
    if response.employee.Some? then response.employee.value.department else None
  }

  /** `response.employee?.name || code`: the name the success panel shows and
      its clear timer compares against. */
  function DisplayName(response: AttendanceResponse, code: string): (name: string)
    ensures EmployeeName(response).Some? && EmployeeName(response).value != "" ==>
              name == EmployeeName(response).value
    ensures EmployeeName(response).None? || EmployeeName(response).value == "" ==> name == code
  {
    OrElse(EmployeeName(response), code)
  }

  /** The panel a successful reply shows: the employee's name and department,
      each falling back when absent or empty, and the server's message. */
  function SuccessPanel(response: AttendanceResponse, code: string): (p: SuccessInfo)
    ensures p.name == DisplayName(response, code)
    ensures p.department == OrElse(EmployeeDepartment(response), RECORDED_DEPARTMENT)
    ensures p.department != ""
    ensures p.message == response.message
  {
    SuccessInfo(DisplayName(response, code),
                OrElse(EmployeeDepartment(response), RECORDED_DEPARTMENT),
                response.message)
  }

  /** `error instanceof Error ? error.message : "حدث خطأ غير متوقع."` */
  function FailureReason(error: Thrown): string {
    match error
    case ErrorValue(m) => m
    case NonError => UNEXPECTED_ERROR
  }

  /** The banner text of a failed submission: the prefix, the code, `": "`,
      then the reason. */
  function FailureText(error: Thrown, code: string): (text: string)
    ensures |text| == |FAILURE_PREFIX| + |code| + 2 + |FailureReason(error)|
    ensures text[..|FAILURE_PREFIX|] == FAILURE_PREFIX
    ensures text[|FAILURE_PREFIX|..|FAILURE_PREFIX| + |code|] == code
    ensures text[|FAILURE_PREFIX| + |code|..|FAILURE_PREFIX| + |code| + 2] == ": "
    ensures text[|text| - |FailureReason(error)|..] == FailureReason(error)
  {
    FAILURE_PREFIX + code + ": " + FailureReason(error)
  }

  /** The success timer's update: the panel is blanked exactly when it still
      shows the name that timer's reply displayed; otherwise it is kept. */
  function AfterSuccessClear(shown: Option<SuccessInfo>, name: string): (r: Option<SuccessInfo>)
    ensures r.None? <==> shown.None? || shown.value.name == name
    ensures r.Some? ==> r == shown
  {
    if shown.Some? && shown.value.name == name then None else shown
  }

  /** The banner timer's update: the banner is blanked exactly when its text
      is still the one that failure set; otherwise it is kept. */
  function AfterMessageClear(shown: Option<string>, text: string): (r: Option<string>)
    ensures r.None? <==> shown.None? || shown == Some(text)
    ensures r.Some? ==> r == shown
  {
    if shown == Some(text) then None else shown
  }

  /** A later reply whose displayed name differs survives the timer of an
      earlier one. */
  lemma NewerPanelSurvives(earlier: AttendanceResponse, earlierCode: string,
                           later: AttendanceResponse, laterCode: string)
    requires DisplayName(earlier, earlierCode) != DisplayName(later, laterCode)
    ensures AfterSuccessClear(Some(SuccessPanel(later, laterCode)), DisplayName(earlier, earlierCode))
            == Some(SuccessPanel(later, laterCode))
  {
  }

  /** A code is held back only while a request of it is outstanding or a
      cooldown of it is armed: something still pending will release it. */
  ghost predicate Covered(code: string, outstanding: seq<Request>, timers: seq<Timer>) {
    Cooldown(code) in timers || exists r :: r in outstanding && r.code == code
  }

  ghost predicate AllCovered(processing: set<string>, outstanding: seq<Request>, timers: seq<Timer>) {
    forall c :: c in processing ==> Covered(c, outstanding, timers)
  }

  /** Accepting a code keeps every held code covered: the new one by its
      own request. */
  lemma CoveredAfterPost(processing: set<string>, outstanding: seq<Request>, timers: seq<Timer>, request: Request)
    requires AllCovered(processing, outstanding, timers)
    ensures AllCovered(processing + {request.code}, outstanding + [request], timers)
  {
    forall c | c in processing + {request.code}
      ensures Covered(c, outstanding + [request], timers)
    {
      if c == request.code {
        assert request in outstanding + [request];
      } else if Cooldown(c) !in timers {
        var r :| r in outstanding && r.code == c;
        assert r in outstanding + [request];
      }
    }
  }

  /** Settling request `i` keeps every held code covered: its own code by
      the cooldown armed in its `finally`. */
  lemma CoveredAfterSettle(processing: set<string>, outstanding: seq<Request>, timers: seq<Timer>,
                           i: nat, armed: seq<Timer>)
    requires i < |outstanding|
    requires AllCovered(processing, outstanding, timers)
    ensures AllCovered(processing, RemoveAt(outstanding, i), timers + armed + [Cooldown(outstanding[i].code)])
  {
    var rest := RemoveAt(outstanding, i);
    var after := timers + armed + [Cooldown(outstanding[i].code)];
    forall c | c in processing ensures Covered(c, rest, after) {
      if c == outstanding[i].code {
        assert after[|after| - 1] == Cooldown(c);
      } else if Cooldown(c) in timers {
        assert after == timers + (armed + [Cooldown(outstanding[i].code)]);
      } else {
        var r :| r in outstanding && r.code == c;
        assert r in rest;
      }
    }
  }

  /** Firing timer `i` keeps every held code covered; a cooldown releases
      its own code. */
  lemma CoveredAfterFire(processing: set<string>, outstanding: seq<Request>, timers: seq<Timer>, i: nat)
    requires i < |timers|
    requires AllCovered(processing, outstanding, timers)
    ensures var left := if timers[i].Cooldown? then processing - {timers[i].code} else processing;
            AllCovered(left, outstanding, RemoveAt(timers, i))
  {
    var left := if timers[i].Cooldown? then processing - {timers[i].code} else processing;
    forall c | c in left ensures Covered(c, outstanding, RemoveAt(timers, i)) {
      if Cooldown(c) in timers {
        assert Cooldown(c) != timers[i];
        assert Cooldown(c) in RemoveAt(timers, i);
      }
    }
  }

  /** The state of the scanner view together with the refs it mutates and
      the counter of the app it reports successes to. */
  class ScannerState {
    var processing: set<string>      // processingRef
    var loadingCount: int
    var successInfo: Option<SuccessInfo>
    var message: Option<string>      // the error banner
    var scanCount: nat               // the app's counter, bumped by onScanSuccess
    var selectedAction: ActionType
    var manualHrCode: string
    var beeps: nat                   // times the beep was played
    var outstanding: seq<Request>    // posted requests not yet settled
    var timers: seq<Timer>           // armed timers not yet fired

    /** `loadingCount` counts the outstanding requests, and every held code
        is covered by something still pending. */
    ghost predicate Valid()
      reads this
      ensures Valid() ==> loadingCount >= 0
    {
      && loadingCount == |outstanding|
      && AllCovered(processing, outstanding, timers)
    }

    function IsLoading(): bool
      reads this
    {
      loadingCount > 0
    }

    constructor ()
      ensures Valid()
      ensures processing == {} && loadingCount == 0
      ensures successInfo == None && message == None
      ensures scanCount == 0 && selectedAction == CheckIn && manualHrCode == "" && beeps == 0
      ensures outstanding == [] && timers == []
    {
      processing := {};
      loadingCount := 0;
      successInfo := None;
      message := None;
      scanCount := 0;
      selectedAction := CheckIn;
      manualHrCode := "";
      beeps := 0;
      outstanding := [];
      timers := [];
    }

    /** The immediate feedback of an accepted submission of `code`, and the
        request it then posts; nothing else changes. */
    twostate predicate Began(code: string, manual: bool)
      reads this
    {
      && beeps == old(beeps) + 1
      && processing == old(processing) + {code}
      && loadingCount == old(loadingCount) + 1
      && message == None
      && successInfo == Some(Placeholder(code))
      && outstanding == old(outstanding) + [Request(code,
           [("action", "postAttendance"), ("hrCode", code), ("recordAction", ActionLabel(old(selectedAction)))],
           manual)]
      && timers == old(timers)
      && scanCount == old(scanCount)
      && selectedAction == old(selectedAction)
      && manualHrCode == old(manualHrCode)
    }

    method Begin(code: string, manual: bool)
      requires Valid()
      modifies this
      ensures Valid()
      ensures Began(code, manual)
    {
      var form := BuildAttendanceForm(code, ActionLabel(selectedAction));
      var request := Request(code, form, manual);
      CoveredAfterPost(processing, outstanding, timers, request);
      beeps, processing, loadingCount := beeps + 1, processing + {code}, loadingCount + 1;
      message, successInfo := None, Some(Placeholder(code));
      outstanding := outstanding + [request];
    }

    /** `qrCodeSuccessCallback` up to its `await`: a code already blocked is
        ignored (no beep, no request, no change); any other is accepted. */
    method CodeDecoded(decodedText: string) returns (accepted: bool)
      requires Valid()
      modifies this
      ensures Valid()
      ensures accepted <==> decodedText !in old(processing)
      ensures !accepted ==> unchanged(this)
      ensures accepted ==> Began(decodedText, false)
    {
      if decodedText in processing {
        return false;
      }
      Begin(decodedText, false);
      accepted := true;
    }

    /** `handleManualSubmit` up to its `await`: ignored when the trimmed input
        is empty or a request is outstanding; it does not consult the
        blocked codes, and it leaves the input as it is. */
    method ManualSubmit() returns (accepted: bool)
      requires Valid()
      modifies this
      ensures Valid()
      ensures accepted <==> Trim(old(manualHrCode)) != "" && old(loadingCount) == 0
      ensures !accepted ==> unchanged(this)
      ensures accepted ==> Began(Trim(old(manualHrCode)), true)
    {
      var code := Trim(manualHrCode);
      if code == "" || IsLoading() {
        return false;
      }
      Begin(code, true);
      accepted := true;
    }

    /** The outstanding request `i` settles with `reply`: the rest of its
        handler after the `await`, through its `finally`. */
    method Complete(i: nat, reply: FetchOutcome<AttendanceResponse>)
      requires Valid()
      requires i < |outstanding|
      modifies this
      ensures Valid()
      ensures outstanding == RemoveAt(old(outstanding), i)
      ensures loadingCount == old(loadingCount) - 1
      ensures processing == old(processing)
      ensures beeps == old(beeps) && selectedAction == old(selectedAction)
      ensures var code := old(outstanding[i]).code;
              var result := PostAttendanceResult(reply);
              result.Ok? ==>
                && scanCount == old(scanCount) + 1
                && successInfo == Some(SuccessPanel(result.value, code))
                && message == old(message)
                && timers == old(timers) + [ClearSuccess(DisplayName(result.value, code)), Cooldown(code)]
                && manualHrCode == (if old(outstanding[i]).manual then "" else old(manualHrCode))
      ensures var code := old(outstanding[i]).code;
              var result := PostAttendanceResult(reply);
              result.Err? ==>
                && scanCount == old(scanCount)
                && successInfo == None
                && message == Some(FailureText(result.error, code))
                && timers == old(timers) + [ClearMessage(FailureText(result.error, code)), Cooldown(code)]
                && manualHrCode == old(manualHrCode)
    {
      var request := outstanding[i];
      var code := request.code;
      var result := PostAttendanceResult(reply);
      var armed: seq<Timer>;
      match result {
        case Ok(response) =>
          scanCount := scanCount + 1;
          successInfo := Some(SuccessPanel(response, code));
          armed := [ClearSuccess(DisplayName(response, code))];
          timers := timers + armed;
          if request.manual {
            manualHrCode := "";
          }
        case Err(error) =>
          successInfo := None;
          var text := FailureText(error, code);
          message := Some(text);
          armed := [ClearMessage(text)];
          timers := timers + armed;
      }
      loadingCount := loadingCount - 1;
      timers := timers + [Cooldown(code)];
      CoveredAfterSettle(processing, outstanding, old(timers), i, armed);
      outstanding := RemoveAt(outstanding, i);
    }

    /** The armed timer `i` fires. */
    method FireTimer(i: nat)
      requires Valid()
      requires i < |timers|
      modifies this
      ensures Valid()
      ensures timers == RemoveAt(old(timers), i)
      ensures successInfo == if old(timers[i]).ClearSuccess?
                             then AfterSuccessClear(old(successInfo), old(timers[i]).name)
                             else old(successInfo)
      ensures message == if old(timers[i]).ClearMessage?
                         then AfterMessageClear(old(message), old(timers[i]).text)
                         else old(message)
      ensures processing == if old(timers[i]).Cooldown?
                            then old(processing) - {old(timers[i]).code}
                            else old(processing)
      ensures loadingCount == old(loadingCount) && outstanding == old(outstanding)
      ensures scanCount == old(scanCount) && beeps == old(beeps)
      ensures selectedAction == old(selectedAction) && manualHrCode == old(manualHrCode)
    {
      var timer := timers[i];
      timers := RemoveAt(timers, i);
      match timer {
        case ClearSuccess(name) =>
          successInfo := AfterSuccessClear(successInfo, name);
        case ClearMessage(text) =>
          message := AfterMessageClear(message, text);
        case Cooldown(code) =>
          processing := processing - {code};
      }
      CoveredAfterFire(old(processing), outstanding, old(timers), i);
    }
  }

  /** A code is recorded, repeats are ignored until its cooldown fires, and
      the reply's employee is shown and counted. */
  method RecordedScenario() {
    var s := new ScannerState();
    var accepted := s.CodeDecoded("E123");
    assert accepted && s.successInfo == Some(Placeholder("E123")) && s.loadingCount == 1;
    accepted := s.CodeDecoded("E123");
    assert !accepted && |s.outstanding| == 1;
    var body := AttendanceResponse(Some("success"), Some("Recorded"), Some(Employee(Some("Ali"), Some("Ops"))));
    s.Complete(0, Responded(HttpResponse(true, 200, "OK", "", Ok(body))));
    assert s.successInfo == Some(SuccessInfo("Ali", "Ops", Some("Recorded")));
    assert s.scanCount == 1 && s.loadingCount == 0;
    assert s.timers == [ClearSuccess("Ali"), Cooldown("E123")];
    accepted := s.CodeDecoded("E123");
    assert !accepted;
    s.FireTimer(1);
    accepted := s.CodeDecoded("E123");
    assert accepted && s.loadingCount == 1;
  }

  /** A server-reported error: the banner names the code and the reason, the
      counter stays, and the code stays blocked until its cooldown fires. */
  method RejectedScenario() {
    var s := new ScannerState();
    var accepted := s.CodeDecoded("E999");
    var body := AttendanceResponse(Some("error"), Some("Unknown employee"), None);
    s.Complete(0, Responded(HttpResponse(true, 200, "OK", "", Ok(body))));
    assert s.message == Some(FAILURE_PREFIX + "E999" + ": " + "Unknown employee");
    assert s.scanCount == 0 && s.successInfo == None;
    assert "E999" in s.processing;
    assert s.timers == [ClearMessage(FAILURE_PREFIX + "E999" + ": " + "Unknown employee"), Cooldown("E999")];
    s.FireTimer(1);
    assert "E999" !in s.processing;
    s.FireTimer(0);
    assert s.message == None;
  }

  /** The success timer of an earlier code does not blank the panel of a
      code that succeeded after it. */
  method GuardedClearScenario() {
    var s := new ScannerState();
    var a := s.CodeDecoded("A");
    assert a && s.scanCount == 0;
    var b := s.CodeDecoded("B");
    assert b && s.scanCount == 0;
    assert s.outstanding[0].code == "A" && s.outstanding[1].code == "B";
    var ali := AttendanceResponse(Some("success"), None, Some(Employee(Some("Ali"), None)));
    var bob := AttendanceResponse(Some("success"), None, Some(Employee(Some("Bob"), None)));
    var aliReply := Responded(HttpResponse(true, 200, "OK", "", Ok(ali)));
    var bobReply := Responded(HttpResponse(true, 200, "OK", "", Ok(bob)));
    assert PostAttendanceResult(aliReply) == Ok(ali) && DisplayName(ali, "A") == "Ali";
    assert PostAttendanceResult(bobReply) == Ok(bob) && DisplayName(bob, "B") == "Bob";
    s.Complete(0, aliReply);
    assert s.timers == [ClearSuccess("Ali"), Cooldown("A")] && s.scanCount == 1;
    s.Complete(0, bobReply);
    assert s.successInfo == Some(SuccessPanel(bob, "B"));
    assert s.timers[0] == ClearSuccess(DisplayName(ali, "A")) && s.scanCount == 2;
    s.FireTimer(0);
    NewerPanelSurvives(ali, "A", bob, "B");
    assert s.successInfo == Some(SuccessInfo("Bob", RECORDED_DEPARTMENT, None));
    assert s.scanCount == 2;
  }

  /** The manual path bypasses the blocked codes: resubmitting a code during
      its cooldown lets that cooldown release the code while the new request
      is still outstanding, and the camera can then post it a second time.
      On the way, the earlier reply's success timer, armed first with the same
      delay, blanks the placeholder of the resubmission: the guard compares
      names, and the placeholder shows the raw code. */
  method ManualResubmitDuringCooldown() {
    var s := new ScannerState();
    var accepted := s.CodeDecoded("A");
    assert accepted && s.outstanding[0].code == "A";
    var ok := AttendanceResponse(Some("success"), None, None);
    var reply := Responded(HttpResponse(true, 200, "OK", "", Ok(ok)));
    assert PostAttendanceResult(reply) == Ok(ok) && DisplayName(ok, "A") == "A";
    s.Complete(0, reply);
    assert s.timers == [ClearSuccess("A"), Cooldown("A")] && s.loadingCount == 0;
    s.manualHrCode := "A";
    TrimKeepsClean("A");
    accepted := s.ManualSubmit();
    assert accepted && |s.outstanding| == 1 && s.outstanding[0].code == "A";
    assert s.successInfo == Some(Placeholder("A")) && s.timers[0] == ClearSuccess("A");
    s.FireTimer(0);
    assert s.successInfo == None;
    assert s.timers == [Cooldown("A")];
    s.FireTimer(0);
    assert "A" !in s.processing;
    SecondPostWhileOutstanding(s);
  }

  /** With the code released while its request is outstanding, the camera
      posts it again. */
  method SecondPostWhileOutstanding(s: ScannerState)
    requires s.Valid() && "A" !in s.processing
    requires |s.outstanding| == 1 && s.outstanding[0].code == "A"
    modifies s
  {
    var accepted := s.CodeDecoded("A");
    assert accepted;
    assert |s.outstanding| == 2 && s.outstanding[0].code == "A" && s.outstanding[1].code == "A";
  }

  /** The banner guard compares texts: a code that fails, is rescanned once
      its cooldown has fired and fails again with the same reason, has its
      second banner blanked by the first failure's timer, more than 1500 ms
      before its own timer: the second banner stays up for less than 1500 ms
      instead of 3000 ms. */
  method BannerClearedEarly() {
    var s := new ScannerState();
    var accepted := s.CodeDecoded("E999");
    assert accepted && s.outstanding[0].code == "E999";
    var body := AttendanceResponse(Some("error"), Some("Unknown employee"), None);
    var reply := Responded(HttpResponse(true, 200, "OK", "", Ok(body)));
    var text := FAILURE_PREFIX + "E999" + ": " + "Unknown employee";
    assert PostAttendanceResult(reply) == Err(ErrorValue("Unknown employee"));
    assert FailureText(ErrorValue("Unknown employee"), "E999") == text;
    s.Complete(0, reply);
    assert s.timers == [ClearMessage(text), Cooldown("E999")] && s.outstanding == [];
    BannerOutlastsCooldown(text, "E999");
    s.FireTimer(1);
    assert s.timers == [ClearMessage(text)] && "E999" !in s.processing;
    FailAgainAndClearEarly(s, reply, text);
  }

  /** The second failure of the same code, then the first banner timer. */
  method FailAgainAndClearEarly(s: ScannerState, reply: FetchOutcome<AttendanceResponse>, text: string)
    requires s.Valid() && "E999" !in s.processing && s.outstanding == []
    requires s.timers == [ClearMessage(text)]
    requires PostAttendanceResult(reply).Err? && FailureText(PostAttendanceResult(reply).error, "E999") == text
    modifies s
  {
    var accepted := s.CodeDecoded("E999");
    assert accepted && s.outstanding[0].code == "E999";
    s.Complete(0, reply);
    assert s.message == Some(text);
    assert s.timers == [ClearMessage(text), ClearMessage(text), Cooldown("E999")];
    s.FireTimer(0);
    assert s.message == None;
    assert ClearMessage(text) in s.timers;
  }
}
