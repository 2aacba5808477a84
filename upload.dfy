/** The upload / view state machine of frontend/src/App.jsx: `FileUploader`'s
    `file` and `isLoading` state with its `handleFileProcessing` handler and
    Remove button, and `App`'s `appData = {charts, fileName}` with the view
    choice and the reset. */
module Upload {
  import opened Wrappers
  import opened JsValues
  import opened Dashboard

  /** The browser `File` the user picked; its content is opaque here. */
  datatype FileInfo = FileInfo(name: string, size: nat)

  /** What the single request yields, as far as the handler can tell:
      an OK status with the parsed body; a non-OK status with the parsed
      error body (None when it does not parse); or a rejected promise
      (network error, or an OK body that is not JSON) with its message. */
  datatype Response = Ok(body: JVal) | NotOk(errBody: Option<JVal>) | Failure(message: string)

  /** What settling the request does: hand `{charts, fileName}` to
      `onChartsReceived`, or raise an alert with the given text. */
  datatype Outcome = Delivered(charts: JVal, fileName: string) | Alerted(text: string)

  /** The upload lifecycle as the rest of the page observes it. A failure is
      only an alert: the resting state after it is `Idle` again. */
  datatype Phase = Idle | Uploading | Loaded

  const InvalidFileAlert := "Please upload a valid .csv file."
  const FailurePrefix := "Failed to upload file: "
  const GenericFailure := "Upload failed"

  /** `name.endsWith(".csv")`, case-sensitive. */
  predicate IsCsvName(name: string) {
    |name| >= 4 && name[|name| - 4..] == ".csv"
  }

  /** Exactly the names of the form `base + ".csv"` pass, for any base
      (the empty one included); no other does. */
  lemma IsCsvNameShape(name: string, base: string)
    ensures IsCsvName(base + ".csv")
    ensures IsCsvName(name) ==> name == name[..|name| - 4] + ".csv"
  {
  }

  /** The check does not fold case, and looks at the last suffix only. */
  lemma IsCsvNameExamples()
    ensures IsCsvName("sales.csv") && IsCsvName(".csv")
    ensures !IsCsvName("DATA.CSV") && !IsCsvName("notes.txt") && !IsCsvName("data.csv.gz")
  {
  }

  /** `data.charts || data`: the envelope's `charts` when truthy, the whole
      body otherwise (a bare list); a null body throws on the read. */
  function DeliveredCharts(data: JVal): (r: Completion<JVal>)
    ensures r.Throw? <==> data.JNull?
    ensures r.Throw? ==> r.message == NullReadMessage("charts")
    ensures data.JObj? && "charts" in data.fields && Truthy(data.fields["charts"]) ==>
              r == Normal(data.fields["charts"])
    ensures data.JObj? && !("charts" in data.fields && Truthy(data.fields["charts"])) ==>
              r == Normal(data)
    ensures (data.JArr? || data.JStr? || data.JBool? || data.JNum?) ==> r == Normal(data)
  {
    match Access(data, "charts")
    case Throw(msg) => Throw(msg)
    case Normal(charts) => Normal(Or(charts, data))
  }

  /** The message of the error a non-OK response raises:
      `new Error(errData.detail || "Upload failed")`, where an unparsable
      body counts as `{}`, and a null body throws on the read instead. Any
      truthy `detail` is converted by ToString: 42 gives "42", a list of
      objects gives "[object Object],[object Object]", and an object with
      its own `toString` key makes the conversion itself throw, whose
      message is then the one alerted. */
  function NotOkMessage(errBody: Option<JVal>): (msg: string)
    ensures errBody == Some(JNull) ==> msg == NullReadMessage("detail")
    ensures errBody.None? ==> msg == GenericFailure
    ensures errBody.Some? && errBody.value.JObj? && "detail" in errBody.value.fields &&
            Truthy(errBody.value.fields["detail"]) && Printable(errBody.value.fields["detail"]) ==>
              msg == JsString(errBody.value.fields["detail"]).value
    ensures errBody.Some? && errBody.value.JObj? && "detail" in errBody.value.fields &&
            !Printable(errBody.value.fields["detail"]) ==>
              msg == NoPrimitiveMessage
    ensures errBody.Some? && errBody.value.JObj? && "detail" in errBody.value.fields &&
            errBody.value.fields["detail"].JStr? && errBody.value.fields["detail"].s != "" ==>
              msg == errBody.value.fields["detail"].s
    ensures errBody.Some? && errBody.value.JObj? &&
            !("detail" in errBody.value.fields && Truthy(errBody.value.fields["detail"])) ==>
              msg == GenericFailure
    ensures errBody.Some? && !errBody.value.JObj? && !errBody.value.JNull? ==> msg == GenericFailure
  {
    var errData := GetOr(errBody, JObj(map[]));
    match Access(errData, "detail")
    case Throw(m) => m
    case Normal(detail) =>
      match JsString(Or(detail, JStr(GenericFailure)))
      case Normal(text) => text
      case Throw(m) => m
  }

  /** How the request settles: charts are delivered, under the selected
      file's name, only for an OK response whose body is not null; every
      other path ends in an alert. */
  function Settle(resp: Response, name: string): (r: Outcome)
    ensures r.Delivered? <==> resp.Ok? && !resp.body.JNull?
    ensures r.Delivered? ==> r.fileName == name && Normal(r.charts) == DeliveredCharts(resp.body)
    ensures resp.Ok? && resp.body.JNull? ==> r == Alerted(FailurePrefix + NullReadMessage("charts"))
    ensures resp.NotOk? ==> r == Alerted(FailurePrefix + NotOkMessage(resp.errBody))
    ensures resp.Failure? ==> r == Alerted(FailurePrefix + resp.message)
  {
    match resp
    case Failure(msg) => Alerted(FailurePrefix + msg)
    case NotOk(errBody) => Alerted(FailurePrefix + NotOkMessage(errBody))
    case Ok(data) =>
      match DeliveredCharts(data)
      case Throw(msg) => Alerted(FailurePrefix + msg)
      case Normal(charts) => Delivered(charts, name)
  }

  /** A chart list, inside the envelope or bare, is delivered as it is; the
      dashboard replaces the uploader exactly when the list is not empty, so
      an explicit `charts: []` leaves the uploader on screen. */
  lemma ChartListDelivered(xs: seq<JVal>, m: map<string, JVal>, name: string)
    requires "charts" in m && m["charts"] == JArr(xs)
    ensures Settle(Ok(JObj(m)), name) == Delivered(JArr(xs), name)
    ensures Settle(Ok(JArr(xs)), name) == Delivered(JArr(xs), name)
    ensures ShowsUploader(Settle(Ok(JObj(m)), name).charts) <==> xs == []
  {
  }

  /** The page state: `FileUploader`'s `file` and `isLoading`, and `App`'s
      `appData`. `FileUploader` is unmounted while the dashboard is shown;
      its state then reads as the initial one, which is also what it has
      when it mounts again. */
  class Session {
    var file: Option<FileInfo>
    var isLoading: bool
    var charts: JVal
    var fileName: string

    /** A request in flight was issued for the selected file, and while the
        dashboard is shown the uploader holds no state. */
    ghost predicate Valid()
      reads this
    {
      (isLoading ==> file.Some?) &&
      (!ShowsUploader(charts) ==> file.None? && !isLoading)
    }

    /** `App` renders the uploader rather than the dashboard. */
    predicate UploaderShown()
      reads this
    {
      ShowsUploader(charts)
    }

    ghost function Phase(): Phase
      reads this
    {
      if isLoading then Uploading else if UploaderShown() then Idle else Loaded
    }

    /** The initial page: no file, not loading, `{charts: [], fileName: ""}`. */
    constructor ()
      ensures Valid() && Phase() == Idle
      ensures file.None? && !isLoading && charts == JArr([]) && fileName == ""
    {
      file := None;
      isLoading := false;
      charts := JArr([]);
      fileName := "";
    }

    /** The synchronous part of `handleFileProcessing`: a missing file or a
        name not ending in ".csv" is refused with an alert and changes
        nothing; otherwise the file is recorded, loading starts and one
        request is sent. A selection while loading is not refused. */
    method BeginUpload(selected: Option<FileInfo>) returns (sent: bool, alert: Option<string>)
      requires Valid() && UploaderShown()
      modifies this
      ensures Valid()
      ensures sent <==> selected.Some? && IsCsvName(selected.value.name)
      ensures alert == if sent then None else Some(InvalidFileAlert)
      ensures sent ==> file == selected && isLoading && Phase() == Uploading
      ensures !sent ==> file == old(file) && isLoading == old(isLoading)
      ensures charts == old(charts) && fileName == old(fileName)
    {
      if selected.None? || !IsCsvName(selected.value.name) {
        return false, Some(InvalidFileAlert);
      }
      file := selected;
      isLoading := true;
      sent, alert := true, None;
    }

    /** The part of `handleFileProcessing` after the request settles: the
        outcome is `Settle`'s, `appData` changes only on delivery, and the
        `finally` clears the loading flag on every path. Delivered charts that
        switch the page to the dashboard unmount the uploader. */
    method FinishUpload(resp: Response) returns (outcome: Outcome)
      requires Valid() && isLoading
      modifies this
      ensures Valid() && !isLoading
      ensures outcome == Settle(resp, old(file).value.name)
      ensures outcome.Delivered? ==> charts == outcome.charts && fileName == outcome.fileName
      ensures outcome.Alerted? ==> charts == old(charts) && fileName == old(fileName)
      ensures file == if UploaderShown() then old(file) else None
      ensures Phase() == if UploaderShown() then Idle else Loaded
    {
      var name := file.value.name;
      outcome := Settle(resp, name);
      if outcome.Delivered? {
        charts, fileName := outcome.charts, outcome.fileName;
        if !ShowsUploader(charts) {
          file := None;
        }
      }
      isLoading := false;
    }

    /** The Remove button, offered only while a file is shown and not
        loading: the selection is dropped. */
    method Remove()
      requires Valid() && UploaderShown() && !isLoading
      modifies this
      ensures Valid() && Phase() == Idle
      ensures file.None?
      ensures isLoading == old(isLoading) && charts == old(charts) && fileName == old(fileName)
    {
      file := None;
    }

    /** "Upload New File": `appData` goes back to its initial value, so the
        uploader is shown again, with no file when it was unmounted, however
        many charts were loaded. */
    method Reset()
      requires Valid()
      modifies this
      ensures Valid() && UploaderShown()
      ensures charts == JArr([]) && fileName == ""
      ensures file == old(file) && isLoading == old(isLoading)
      ensures !old(UploaderShown()) ==> file.None? && !isLoading && Phase() == Idle
    {
      charts, fileName := JArr([]), "";
      ShowsUploaderOnLists([], map[]);
    }
  }

  /** A wrong name is refused without a request and without a change. */
  method RefusedNameScenario() {
    var page := new Session();
    ShowsUploaderOnLists([], map[]);
    IsCsvNameExamples();
    var sent, alert := page.BeginUpload(Some(FileInfo("notes.txt", 12)));
    assert !sent && alert == Some(InvalidFileAlert) && page.Phase() == Idle && page.file.None?;
  }

  /** A valid upload loads one chart titled by its layout, and reset returns
      to the uploader. */
  method RevenueScenario() {
    var page := new Session();
    ShowsUploaderOnLists([], map[]);
    var sent, alert := page.BeginUpload(Some(FileInfo("sales.csv", 200)));
    assert "sales.csv"[5..] == ".csv";
    assert sent && page.Phase() == Uploading;
    var chart := JObj(map["data" := JArr([]),
                          "layout" := JObj(map["title" := JObj(map["text" := JStr("Revenue")])])]);
    var outcome := page.FinishUpload(Ok(JObj(map["charts" := JArr([chart])])));
    ChartListDelivered([chart], map["charts" := JArr([chart])], "sales.csv");
    assert outcome == Delivered(JArr([chart]), "sales.csv");
    assert page.Phase() == Loaded && page.file.None?;
    TitleGiven(chart, 0, JStr("Revenue"));
    DashboardShowsEveryChart([chart]);
    assert RenderDashboard(page.charts).value[0].heading == JStr("Revenue");
    page.Reset();
    assert page.Phase() == Idle && page.charts == JArr([]);
  }

  /** A failing upload alerts with the service's `detail` and leaves the
      page on the uploader with the file still selected. */
  method DetailFailureScenario() {
    var page := new Session();
    ShowsUploaderOnLists([], map[]);
    var sent, alert := page.BeginUpload(Some(FileInfo("big.csv", 4096)));
    assert "big.csv"[3..] == ".csv";
    var outcome := page.FinishUpload(NotOk(Some(JObj(map["detail" := JStr("parse error")]))));
    assert outcome == Alerted("Failed to upload file: parse error");
    assert page.Phase() == Idle && page.file == Some(FileInfo("big.csv", 4096));
  }

  /** An empty chart list is delivered, renders no card and keeps the
      uploader. */
  method EmptyListScenario() {
    var page := new Session();
    ShowsUploaderOnLists([], map[]);
    var sent, alert := page.BeginUpload(Some(FileInfo("empty.csv", 0)));
    assert "empty.csv"[5..] == ".csv";
    var outcome := page.FinishUpload(Ok(JObj(map["charts" := JArr([])])));
    ChartListDelivered([], map["charts" := JArr([])], "empty.csv");
    assert outcome == Delivered(JArr([]), "empty.csv");
    assert page.Phase() == Idle && RenderDashboard(page.charts) == Normal([]);
  }
}
