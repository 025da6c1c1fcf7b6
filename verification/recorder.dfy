/** The recording session (recorder.py, class Recorder): the recording flag, the steps,
    the session's console log, network log and page errors, the requests waiting for
    their response, the response bodies being read, and the per-step windows of logs
    and requests that the next recorded action takes over.

    Browser events arrive as method calls.  Clock readings, the outcome of taking a
    screenshot, the bytes of a response body and the random test case id are
    parameters.  The browser is reduced to two flags: whether the browser manager
    exists and whether it has an open page.  Each method of `Recorder` is tied to a
    function on the snapshot `RecState`, and the properties are lemmas about those
    functions. */
module Recording {
  import opened Wrappers
  import opened Strings
  import opened Json
  import opened Models
  import opened ElementParse
  import opened Descriptions
  import opened Screenshot
  import opened ControlPanel

  // ---------------------------------------------------------------------------
  // Browser events, as the handlers read them
  // ---------------------------------------------------------------------------

  /** A console message: its type, its text, the url of its location (None when the
      location is empty) and its arguments as `str` renders them. */
  datatype ConsoleMessage = ConsoleMessage(kind: string, text: string, locationUrl: Option<string>, args: seq<string>)

  /** A request as it starts.  `postData` is None when the request has no body or
      reading the body raises. */
  datatype RequestEvent = RequestEvent(
    verb: string, url: string, resourceType: string, headers: map<string, string>, postData: Option<string>)

  /** A response: its url, status and headers, and the `responseEnd` entry of its
      request's timing (None when there is none). */
  datatype ResponseEvent = ResponseEvent(url: string, status: int, headers: map<string, string>, responseEnd: Option<real>)

  /** A request that failed, with the browser's failure text. */
  datatype FailureEvent = FailureEvent(url: string, failure: Option<string>)

  /** Reading a response body: its size in bytes and its UTF-8 decoding (None when the
      bytes are not valid UTF-8), or the text of the exception the read raised. */
  datatype BodyRead = BodyBytes(size: nat, utf8: Option<string>) | BodyError(message: string)

  /** The recorder's settings (its constructor arguments that the model reads). */
  datatype Config = Config(startUrl: string, name: string, browserType: string, width: int, height: int)

  // ---------------------------------------------------------------------------
  // Console messages
  // ---------------------------------------------------------------------------

  /** The console types the level map names; every other type is logged as `log`. */
  const LevelKinds: set<string> := {"log", "info", "warning", "error", "debug", "trace"}

  /** The level of a console message: `warning` becomes `warn`, the other mapped types
      keep their name, and anything else (`assert`, `table`, even `warn`) is `log`. */
  function LevelOf(kind: string): (l: ConsoleLogLevel)
    ensures l == Warn <==> kind == "warning"
    ensures kind in LevelKinds && kind != "warning" ==> LevelName(l) == kind
    ensures kind !in LevelKinds ==> l == Log
  {
    if kind == "warning" then Warn
    else if kind == "info" then Info
    else if kind == "error" then Error
    else if kind == "debug" then Debug
    else if kind == "trace" then Trace
    else Log
  }

  /** At most this many arguments of a console message are kept. */
  const MaxArgs: nat := 5

  /** The log entry of a console message: its first five arguments are kept. */
  function ConsoleRecord(m: ConsoleMessage, now: Timestamp): (log: ConsoleLog)
    ensures log.level == LevelOf(m.kind) && log.message == m.text && log.source == m.locationUrl
    ensures |log.args| == Min(MaxArgs, |m.args|) && log.args == m.args[..|log.args|]
  {
    ConsoleLog(LevelOf(m.kind), m.text, now, m.locationUrl, m.args[..Min(MaxArgs, |m.args|)])
  }

  // ---------------------------------------------------------------------------
  // Network requests
  // ---------------------------------------------------------------------------

  /** Data URLs and the recorder's own requests are not tracked. */
  predicate Untracked(url: string) {
    StartsWith(url, "data:") || Contains(url, "__testcaseer")
  }

  /** The methods whose request body is recorded. */
  const BodyVerbs: set<string> := {"POST", "PUT", "PATCH"}

  /** The record of a request that has started: no response yet, and a body only for
      the methods that carry one. */
  function RequestRecord(e: RequestEvent, now: Timestamp): (r: NetworkRequest)
    ensures r.url == e.url && r.verb == e.verb && r.resourceType == e.resourceType && r.requestHeaders == e.headers
    ensures r.requestBody == (if e.verb in BodyVerbs then e.postData else None)
    ensures r.status.None? && r.responseBody.None? && r.error.None?
  {
    NewNetworkRequest(e.verb, e.url, e.resourceType, now).(
      requestHeaders := e.headers,
      requestBody := if e.verb in BodyVerbs then e.postData else None)
  }

  /** The resource types whose response body is read before the request is logged. */
  const BodyTypes: set<string> := {"xhr", "fetch"}

  /** A request record completed with its response; a zero or missing `responseEnd`
      leaves the timing as it was. */
  function Answered(r: NetworkRequest, e: ResponseEvent): (a: NetworkRequest)
    ensures a.status == Some(e.status) && a.responseHeaders == e.headers
    ensures a.url == r.url && a.verb == r.verb && a.resourceType == r.resourceType && a.requestBody == r.requestBody
  {
    var timing := if e.responseEnd.Some? && e.responseEnd.value != 0.0 then e.responseEnd else r.timing;
    r.(status := Some(e.status), responseHeaders := e.headers, timing := timing)
  }

  /** Response bodies over this many bytes are not kept. */
  const MaxBodyBytes: nat := 50 * 1024
  /** Decoded bodies are cut to this many characters. */
  const MaxBodyChars: nat := 10000
  const TruncationMark: string := "\n... (truncated)"

  /** The text stored as a response body. */
  function BodyText(b: BodyRead): string {
    match b
    case BodyError(message) => "[Error capturing body: " + message + "]"
    case BodyBytes(size, utf8) =>
      if size > MaxBodyBytes then "[Large response, " + Dec(size) + " bytes]"
      else if utf8.None? then "[Binary data, " + Dec(size) + " bytes]"
      else if |utf8.value| > MaxBodyChars then utf8.value[..MaxBodyChars] + TruncationMark
      else utf8.value
  }

  /** A readable body within the byte limit is kept whole when it is short enough,
      and otherwise its first 10000 characters are kept and marked as cut. */
  lemma DecodedBodyKept(size: nat, text: string)
    requires size <= MaxBodyBytes
    ensures var t := BodyText(BodyBytes(size, Some(text)));
      && (|text| <= MaxBodyChars ==> t == text)
      && (|text| > MaxBodyChars ==>
            |t| == MaxBodyChars + |TruncationMark| && t[..MaxBodyChars] == text[..MaxBodyChars]
            && t[MaxBodyChars..] == TruncationMark)
  {
  }

  /** A body over the byte limit, or one that is not UTF-8, is replaced by a marker:
      `[Large response, ` or `[Binary data, ` respectively, then the byte count in
      decimal, which reads back as the size, then ` bytes]`. */
  lemma BodyMarkerCounts(size: nat, utf8: Option<string>)
    requires size > MaxBodyBytes || utf8.None?
    ensures var t := BodyText(BodyBytes(size, utf8));
      var head := if size > MaxBodyBytes then "[Large response, " else "[Binary data, ";
      && |t| > |head| + 7
      && t[..|head|] == head && t[|t| - 7..] == " bytes]"
      && AllDigits(t[|head|..|t| - 7]) && DecValue(t[|head|..|t| - 7]) == size
  {
    var t := BodyText(BodyBytes(size, utf8));
    var head := if size > MaxBodyBytes then "[Large response, " else "[Binary data, ";
    assert t == head + Dec(size) + " bytes]";
    assert t[|head|..|t| - 7] == Dec(size);
    DecRoundTrip(size);
  }

  /** The error text of a failed request; an empty failure text counts as none. */
  function FailureText(failure: Option<string>): (t: string)
    ensures t != ""
    ensures failure.Some? && failure.value != "" ==> t == failure.value
  {
    if failure.Some? && failure.value != "" then failure.value else "Request failed"
  }

  // ---------------------------------------------------------------------------
  // The recorder's state
  // ---------------------------------------------------------------------------

  /** A snapshot of the recorder's fields. */
  datatype RecState = RecState(
    recording: bool,
    startTime: Option<Timestamp>,
    endTime: Option<Timestamp>,
    steps: seq<Step>,
    consoleLogs: seq<ConsoleLog>,
    networkRequests: seq<NetworkRequest>,
    pageErrors: seq<PageError>,
    pending: map<string, NetworkRequest>,   // requests waiting for their response, by url
    capturing: seq<NetworkRequest>,         // answered requests whose body is being read
    stepLogs: seq<ConsoleLog>,              // console entries since the last recorded step
    stepRequests: seq<NetworkRequest>,      // requests logged since the last recorded step
    complete: bool,                         // the session is over
    hasManager: bool,
    hasPage: bool)

  /** A recorder as constructed. */
  const Initial: RecState := RecState(false, None, None, [], [], [], [], map[], [], [], [], false, false, false)

  /** The console entries of the steps, step after step. */
  function ConsoleTrail(steps: seq<Step>): seq<ConsoleLog> {
    if steps == [] then [] else ConsoleTrail(steps[..|steps| - 1]) + steps[|steps| - 1].consoleLogs
  }

  /** The requests of the steps, step after step. */
  function RequestTrail(steps: seq<Step>): seq<NetworkRequest> {
    if steps == [] then [] else RequestTrail(steps[..|steps| - 1]) + steps[|steps| - 1].networkRequests
  }

  lemma TrailsSnoc(steps: seq<Step>, st: Step)
    ensures ConsoleTrail(steps + [st]) == ConsoleTrail(steps) + st.consoleLogs
    ensures RequestTrail(steps + [st]) == RequestTrail(steps) + st.networkRequests
  {
    assert (steps + [st])[..|steps|] == steps;
  }

  predicate IsSuffix<T(==)>(a: seq<T>, b: seq<T>) {
    |a| <= |b| && b[|b| - |a|..] == a
  }

  lemma SuffixSnoc<T>(a: seq<T>, b: seq<T>, x: T)
    requires IsSuffix(a, b)
    ensures IsSuffix(a + [x], b + [x])
  {
    assert (b + [x])[|b + [x]| - |a + [x]|..] == b[|b| - |a|..] + [x];
  }

  /** Steps numbered 1, 2, 3, ... in the order they were recorded. */
  predicate Numbered(steps: seq<Step>) {
    forall i :: 0 <= i < |steps| ==> steps[i].number == i + 1
  }

  /** A request that has ended: it has a status (answered) or an error (failed), never
      both. */
  predicate Settled(r: NetworkRequest) {
    r.status.Some? != r.error.Some?
  }

  /** What every handler keeps true: contiguous step numbers; pending requests filed
      under their own url and neither answered nor failed; requests whose body is being
      read answered; every logged request settled; a start time while recording; a page
      only with a browser manager; and the session's console and network logs are the
      tail of what the steps and the open windows hold, so that every entry logged since
      the session started is in exactly one step or in the window of the next one. */
  predicate Inv(s: RecState) {
    && Numbered(s.steps)
    && (forall u :: u in s.pending ==> s.pending[u].url == u && s.pending[u].status.None? && s.pending[u].error.None?)
    && (forall i :: 0 <= i < |s.capturing| ==> s.capturing[i].status.Some? && s.capturing[i].error.None?)
    && (forall i :: 0 <= i < |s.networkRequests| ==> Settled(s.networkRequests[i]))
    && (forall i :: 0 <= i < |s.stepRequests| ==> Settled(s.stepRequests[i]))
    && (s.recording ==> s.startTime.Some?)
    && (s.hasPage ==> s.hasManager)
    && IsSuffix(s.consoleLogs, ConsoleTrail(s.steps) + s.stepLogs)
    && IsSuffix(s.networkRequests, RequestTrail(s.steps) + s.stepRequests)
  }

  lemma InitialInv()
    ensures Inv(Initial) && !Initial.recording && Initial.steps == []
  {
  }

  // ---------------------------------------------------------------------------
  // Handlers, as functions of the state
  // ---------------------------------------------------------------------------

  function AfterConsoleMessage(s: RecState, m: ConsoleMessage, now: Timestamp): RecState {
    if !s.recording then s
    else
      var log := ConsoleRecord(m, now);
      s.(consoleLogs := s.consoleLogs + [log], stepLogs := s.stepLogs + [log])
  }

  function AfterPageError(s: RecState, message: string, stack: Option<string>, now: Timestamp): RecState {
    if !s.recording then s
    else s.(pageErrors := s.pageErrors + [PageError(message, stack, now)])
  }

  function AfterRequest(s: RecState, e: RequestEvent, now: Timestamp): RecState {
    if !s.recording || Untracked(e.url) then s
    else s.(pending := s.pending[e.url := RequestRecord(e, now)])
  }

  /** A finished request goes to the session log and to the step window together. */
  function Logged(s: RecState, r: NetworkRequest): RecState {
    s.(networkRequests := s.networkRequests + [r], stepRequests := s.stepRequests + [r])
  }

  function AfterResponse(s: RecState, e: ResponseEvent): RecState {
    if !s.recording || e.url !in s.pending then s
    else
      var r := Answered(s.pending[e.url], e);
      var settled := s.(pending := s.pending - {e.url});
      if r.resourceType in BodyTypes then settled.(capturing := settled.capturing + [r])
      else Logged(settled, r)
  }

  /** The i-th body read finishes.  This step is not gated on recording: a body that
      arrives after the stop is logged all the same. */
  function AfterCapture(s: RecState, i: nat, b: BodyRead): RecState
    requires i < |s.capturing|
  {
    var r := s.capturing[i].(responseBody := Some(BodyText(b)));
    Logged(s.(capturing := s.capturing[..i] + s.capturing[i + 1..]), r)
  }

  function AfterRequestFailed(s: RecState, e: FailureEvent): RecState {
    if !s.recording || e.url !in s.pending then s
    else Logged(s.(pending := s.pending - {e.url}), s.pending[e.url].(error := Some(FailureText(e.failure))))
  }

  /** Starting clears the steps and the session logs, but neither the per-step windows
      nor the pending requests. */
  function AfterStart(s: RecState, now: Timestamp): RecState {
    if s.recording then s
    else s.(recording := true, startTime := Some(now), steps := [], consoleLogs := [], networkRequests := [], pageErrors := [])
  }

  function StartView(s: RecState): Option<PanelView> {
    if !s.recording && s.hasPage then Some(UpdateView(true, 0, "")) else None
  }

  function AfterStop(s: RecState, now: Timestamp): RecState {
    if !s.recording then s.(complete := true)
    else s.(recording := false, endTime := Some(now), complete := true)
  }

  const SavingMessage: string := "Saving..."
  const SavedMessage: string := "\U{2713} Saved!"

  /** The panel updates of a stop: one before the export and one after it. */
  function StopViews(s: RecState): seq<PanelView> {
    if s.recording && s.hasPage then
      [UpdateView(false, |s.steps|, SavingMessage), UpdateView(false, |s.steps|, SavedMessage)]
    else []
  }

  /** The recording's length in seconds (timestamps count microseconds). */
  function Duration(s: RecState): real {
    if s.startTime.Some? && s.endTime.Some? then (s.endTime.value - s.startTime.value) as real / 1000000.0 else 0.0
  }

  /** The test case a stop exports; nothing is exported without steps.  The id is
      `tc_` and the first eight hex digits of a random UUID. */
  function Export(c: Config, s: RecState, now: Timestamp, uuidHex: string): (r: Option<TestCase>)
    ensures r.None? <==> s.steps == []
    ensures r.Some? ==>
      && r.value.steps == s.steps && r.value.totalSteps == |s.steps|
      && r.value.consoleLogs == s.consoleLogs && r.value.networkRequests == s.networkRequests
      && r.value.pageErrors == s.pageErrors
      && StartsWith(r.value.id, "tc_") && |r.value.id| == 3 + Min(8, |uuidHex|)
      && r.value.name == c.name && r.value.startUrl == c.startUrl && r.value.browser == c.browserType
      && r.value.viewport == map["width" := c.width, "height" := c.height]
      && r.value.totalDuration == Duration(s)
  {
    if s.steps == [] then None
    else
      var id := "tc_" + Take(uuidHex, 8);
      assert id[..3] == "tc_";
      Some(TestCase(
        id, c.name, if s.startTime.Some? then s.startTime.value else now,
        c.startUrl, c.browserType, map["width" := c.width, "height" := c.height],
        if s.hasManager then c.browserType else "Unknown",
        s.steps, s.consoleLogs, s.networkRequests, s.pageErrors, Duration(s), |s.steps|))
  }

  /** What a stop exports: only a running recording is exported, after it stops. */
  function StopExport(c: Config, s: RecState, now: Timestamp, uuidHex: string): (r: Option<TestCase>)
    ensures r.Some? <==> s.recording && s.steps != []
  {
    if s.recording then Export(c, s.(recording := false, endTime := Some(now)), now, uuidHex) else None
  }

  /** The panel as a reloaded page shows it. */
  function PageLoadView(s: RecState): Option<PanelView> {
    if s.hasPage then Some(UpdateView(s.recording, |s.steps|, "")) else None
  }

  // ---------------------------------------------------------------------------
  // Actions
  // ---------------------------------------------------------------------------

  /** The event types the page reports, each the name of an action type. */
  const ReportedEvents: set<string> := {"click", "dblclick", "input", "select", "check", "uncheck", "keypress"}

  /** The action an event type stands for; any other event type is ignored. */
  function ActionOf(eventType: Option<Json>): (a: Option<ActionType>)
    ensures a.Some? <==> eventType.Some? && eventType.value.JStr? && eventType.value.s in ReportedEvents
    ensures a.Some? ==> eventType == Some(JStr(ActionName(a.value)))
  {
    if eventType.Some? && eventType.value.JStr? && eventType.value.s in ReportedEvents
    then ParseActionType(eventType.value.s)
    else None
  }

  /** The element as a screenshot file names it: its id attribute, else its tag. */
  function ElementId(e: ElementInfo): string {
    if "id" in e.attributes && e.attributes["id"] != "" then e.attributes["id"] else e.tagName
  }

  /** Where a step's screenshot is stored, relative to the output directory, when one
      was taken. */
  function ShotPath(number: int, a: ActionType, e: ElementInfo, taken: bool): (p: Option<string>)
    ensures p.Some? <==> taken
    ensures p.Some? ==> StartsWith(p.value, "screenshots/")
  {
    if taken then
      var f := "screenshots/" + ScreenshotFilename(number, ActionName(a), Some(ElementId(e)));
      assert f[..12] == "screenshots/";
      Some(f)
    else None
  }

  /** The step's input value and key must be strings or null. */
  predicate StepValueOk(data: Payload) {
    AsOptStr(Get(data.value, JNull)).Some? && AsOptStr(Get(data.key, JNull)).Some?
  }

  /** A payload that makes a step while recording: a reported event type, an element
      that validates, a description, and a string or null value and key. */
  predicate Recordable(data: Payload) {
    && ActionOf(data.eventType).Some?
    && BuildElement(data).Some?
    && ShortDescription(ActionOf(data.eventType).value, BuildElement(data).value, data).Success?
    && StepValueOk(data)
  }

  function MakeStep(number: int, now: Timestamp, a: ActionType, e: ElementInfo, data: Payload, path: Option<string>,
                    short: string, detailed: string, logs: seq<ConsoleLog>, requests: seq<NetworkRequest>): Step
    requires StepValueOk(data)
  {
    Step(number, now, a, Some(e), None, AsOptStr(Get(data.value, JNull)).value, AsOptStr(Get(data.key, JNull)).value,
         path, None, requests, logs, short, detailed)
  }

  /** The step an action records. */
  function StepFor(s: RecState, data: Payload, now: Timestamp, shotTaken: bool): (r: Option<Step>)
    ensures r.Some? <==> s.recording && Recordable(data)
    ensures r.Some? ==>
      && r.value.number == |s.steps| + 1
      && data.eventType == Some(JStr(ActionName(r.value.actionType)))
      && r.value.element == BuildElement(data)
      && r.value.consoleLogs == s.stepLogs && r.value.networkRequests == s.stepRequests
      && Some(r.value.inputValue) == AsOptStr(Get(data.value, JNull))
      && Some(r.value.key) == AsOptStr(Get(data.key, JNull))
      && Success(r.value.descriptionShort) == ShortDescription(r.value.actionType, r.value.element.value, data)
      && Success(r.value.descriptionDetailed) == DetailedDescription(r.value.actionType, r.value.element.value, data)
      && (r.value.screenshotPath.Some? <==> s.hasPage && shotTaken)
  {
    if !s.recording then None
    else match ActionOf(data.eventType)
      case None => None
      case Some(a) =>
        match BuildElement(data)
        case None => None
        case Some(e) =>
          match DetailedDescription(a, e, data)
          case Failure(_) => None
          case Success(detailed) =>
            if !StepValueOk(data) then None
            else
              var n := |s.steps| + 1;
              Some(MakeStep(n, now, a, e, data, ShotPath(n, a, e, s.hasPage && shotTaken),
                            ShortDescription(a, e, data).value, detailed, s.stepLogs, s.stepRequests))
  }

  /** A step is appended and takes over both windows. */
  function Appended(s: RecState, st: Step): RecState {
    s.(steps := s.steps + [st], stepLogs := [], stepRequests := [])
  }

  /** An action: the step is appended, or nothing changes. */
  function AfterAction(s: RecState, data: Payload, now: Timestamp, shotTaken: bool): RecState {
    match StepFor(s, data, now, shotTaken)
    case None => s
    case Some(st) => Appended(s, st)
  }

  function ActionView(s: RecState, data: Payload, now: Timestamp, shotTaken: bool): Option<PanelView> {
    if StepFor(s, data, now, shotTaken).Some? && s.hasPage then Some(UpdateView(true, |s.steps| + 1, "")) else None
  }

  // ---------------------------------------------------------------------------
  // Properties of the handlers
  // ---------------------------------------------------------------------------

  /** While not recording, every handler except the body read leaves the state alone
      and no action is recorded. */
  lemma IdleHandlersIgnored(s: RecState, m: ConsoleMessage, msg: string, stack: Option<string>, req: RequestEvent,
                            resp: ResponseEvent, fail: FailureEvent, data: Payload, now: Timestamp, shot: bool)
    requires !s.recording
    ensures AfterConsoleMessage(s, m, now) == s && AfterPageError(s, msg, stack, now) == s
    ensures AfterRequest(s, req, now) == s && AfterResponse(s, resp) == s && AfterRequestFailed(s, fail) == s
    ensures AfterAction(s, data, now, shot) == s && ActionView(s, data, now, shot).None?
  {
  }

  lemma ConsoleKeepsInv(s: RecState, m: ConsoleMessage, now: Timestamp)
    requires Inv(s)
    ensures Inv(AfterConsoleMessage(s, m, now))
    ensures s.recording ==> AfterConsoleMessage(s, m, now).stepLogs == s.stepLogs + [ConsoleRecord(m, now)]
  {
    if s.recording {
      SuffixSnoc(s.consoleLogs, ConsoleTrail(s.steps) + s.stepLogs, ConsoleRecord(m, now));
      assert ConsoleTrail(s.steps) + (s.stepLogs + [ConsoleRecord(m, now)])
        == ConsoleTrail(s.steps) + s.stepLogs + [ConsoleRecord(m, now)];
    }
  }

  lemma LoggedKeepsInv(s: RecState, r: NetworkRequest)
    requires Inv(s) && Settled(r)
    ensures Inv(Logged(s, r))
  {
    SuffixSnoc(s.networkRequests, RequestTrail(s.steps) + s.stepRequests, r);
    assert RequestTrail(s.steps) + (s.stepRequests + [r]) == RequestTrail(s.steps) + s.stepRequests + [r];
  }

  lemma RequestKeepsInv(s: RecState, e: RequestEvent, now: Timestamp)
    requires Inv(s)
    ensures Inv(AfterRequest(s, e, now))
  {
  }

  lemma PageErrorKeepsInv(s: RecState, message: string, stack: Option<string>, now: Timestamp)
    requires Inv(s)
    ensures Inv(AfterPageError(s, message, stack, now))
  {
  }

  lemma ResponseKeepsInv(s: RecState, e: ResponseEvent)
    requires Inv(s)
    ensures Inv(AfterResponse(s, e))
  {
    if s.recording && e.url in s.pending {
      var r := Answered(s.pending[e.url], e);
      var settled := s.(pending := s.pending - {e.url});
      assert Inv(settled);
      if r.resourceType !in BodyTypes {
        LoggedKeepsInv(settled, r);
      }
    }
  }

  lemma FailureKeepsInv(s: RecState, e: FailureEvent)
    requires Inv(s)
    ensures Inv(AfterRequestFailed(s, e))
  {
    if s.recording && e.url in s.pending {
      var settled := s.(pending := s.pending - {e.url});
      assert Inv(settled);
      LoggedKeepsInv(settled, s.pending[e.url].(error := Some(FailureText(e.failure))));
    }
  }

  lemma CaptureKeepsInv(s: RecState, i: nat, b: BodyRead)
    requires Inv(s) && i < |s.capturing|
    ensures Inv(AfterCapture(s, i, b))
  {
    var rest := s.capturing[..i] + s.capturing[i + 1..];
    assert forall k :: 0 <= k < |rest| ==> rest[k] == (if k < i then s.capturing[k] else s.capturing[k + 1]);
    LoggedKeepsInv(s.(capturing := rest), s.capturing[i].(responseBody := Some(BodyText(b))));
  }

  lemma SessionKeepsInv(s: RecState, now: Timestamp)
    requires Inv(s)
    ensures Inv(AfterStart(s, now)) && Inv(AfterStop(s, now))
    ensures AfterStart(s, now).recording && !AfterStop(s, now).recording && AfterStop(s, now).complete
  {
    if !s.recording {
      var t := AfterStart(s, now);
      assert t.steps == [];
      assert ConsoleTrail(t.steps) + t.stepLogs == t.stepLogs;
      assert RequestTrail(t.steps) + t.stepRequests == t.stepRequests;
    }
  }

  /** Stopping is idempotent: a stop while idle only marks the recording complete,
      exports nothing and leaves the panel alone, so a second stop never exports
      again and changes nothing more. */
  lemma StopIsIdempotent(c: Config, s: RecState, t1: Timestamp, t2: Timestamp, u1: string, u2: string)
    ensures !s.recording ==>
      AfterStop(s, t1) == s.(complete := true) && StopExport(c, s, t1, u1).None? && StopViews(s) == []
    ensures StopExport(c, AfterStop(s, t1), t2, u2).None? && StopViews(AfterStop(s, t1)) == []
    ensures AfterStop(AfterStop(s, t1), t2) == AfterStop(s, t1)
  {
  }

  /** Starting is idempotent: a start while recording changes nothing and sends no
      panel update, so a second start keeps the first start's time and steps. */
  lemma StartIsIdempotent(s: RecState, t1: Timestamp, t2: Timestamp)
    ensures s.recording ==> AfterStart(s, t1) == s && StartView(s).None?
    ensures AfterStart(AfterStart(s, t1), t2) == AfterStart(s, t1) && StartView(AfterStart(s, t1)).None?
  {
  }

  /** Recording a step moves the windows into it: the steps' entries followed by the
      windows are the same before and after, for console entries and for requests,
      and the session logs do not change. */
  lemma ActionMovesWindows(s: RecState, data: Payload, now: Timestamp, shotTaken: bool)
    ensures var t := AfterAction(s, data, now, shotTaken);
      && ConsoleTrail(t.steps) + t.stepLogs == ConsoleTrail(s.steps) + s.stepLogs
      && RequestTrail(t.steps) + t.stepRequests == RequestTrail(s.steps) + s.stepRequests
      && t.consoleLogs == s.consoleLogs && t.networkRequests == s.networkRequests
  {
    var st := StepFor(s, data, now, shotTaken);
    if st.Some? {
      TrailsSnoc(s.steps, st.value);
    }
  }

  /** Appending the step that takes over the open windows keeps the invariant. */
  lemma AppendKeepsInv(s: RecState, st: Step)
    requires Inv(s) && st.number == |s.steps| + 1
    requires st.consoleLogs == s.stepLogs && st.networkRequests == s.stepRequests
    ensures Inv(Appended(s, st))
  {
    TrailsSnoc(s.steps, st);
  }

  lemma ActionKeepsInv(s: RecState, data: Payload, now: Timestamp, shotTaken: bool)
    requires Inv(s)
    ensures Inv(AfterAction(s, data, now, shotTaken))
    ensures |AfterAction(s, data, now, shotTaken).steps| == |s.steps| + (if s.recording && Recordable(data) then 1 else 0)
  {
    var st := StepFor(s, data, now, shotTaken);
    if st.Some? {
      AppendKeepsInv(s, st.value);
    }
  }

  /** Two actions in a row are numbered one after the other. */
  lemma ActionsNumberedInOrder(s: RecState, d1: Payload, d2: Payload, now1: Timestamp, now2: Timestamp, shot: bool)
    requires Inv(s) && s.recording && Recordable(d1) && Recordable(d2)
    ensures var t := AfterAction(AfterAction(s, d1, now1, shot), d2, now2, shot);
      && |t.steps| == |s.steps| + 2 && Numbered(t.steps)
      && t.steps[|s.steps|].number == |s.steps| + 1 && t.steps[|s.steps| + 1].number == |s.steps| + 2
  {
    ActionKeepsInv(s, d1, now1, shot);
    ActionKeepsInv(AfterAction(s, d1, now1, shot), d2, now2, shot);
  }

  /** A payload whose value or key is neither a string nor null (a click on
      `<li value=3>` reports the number 3) records nothing and keeps both windows for
      the next step. */
  lemma NumericValueKeepsWindows(s: RecState, data: Payload, now: Timestamp, shotTaken: bool)
    requires !StepValueOk(data)
    ensures AfterAction(s, data, now, shotTaken) == s
    ensures StepFor(s, data, now, shotTaken).None?
  {
  }

  /** Resolving a request moves it out of the pending map and neither creates nor
      loses one: the pending and reading requests plus the logged ones stay the same
      number.  This holds for responses, failures and body reads alike. */
  lemma ResponseConservesRequests(s: RecState, e: ResponseEvent)
    ensures var t := AfterResponse(s, e);
      |t.pending| + |t.capturing| + |t.networkRequests| == |s.pending| + |s.capturing| + |s.networkRequests|
    ensures var t := AfterResponse(s, e);
      s.recording && e.url in s.pending ==>
        && e.url !in t.pending
        && Answered(s.pending[e.url], e) in
             (if s.pending[e.url].resourceType in BodyTypes then t.capturing else t.networkRequests)
  {
    if s.recording && e.url in s.pending {
      assert (s.pending - {e.url}).Keys == s.pending.Keys - {e.url};
    }
  }

  lemma FailureConservesRequests(s: RecState, e: FailureEvent)
    ensures var t := AfterRequestFailed(s, e);
      |t.pending| + |t.capturing| + |t.networkRequests| == |s.pending| + |s.capturing| + |s.networkRequests|
  {
    if s.recording && e.url in s.pending {
      assert (s.pending - {e.url}).Keys == s.pending.Keys - {e.url};
    }
  }

  lemma CaptureConservesRequests(s: RecState, i: nat, b: BodyRead)
    requires i < |s.capturing|
    ensures var t := AfterCapture(s, i, b);
      |t.pending| + |t.capturing| + |t.networkRequests| == |s.pending| + |s.capturing| + |s.networkRequests|
  {
  }

  /** Requests are filed by url: a second request to a url that is still pending
      replaces the first, whose record is then never logged. */
  lemma RequestsKeyedByUrl(s: RecState, e1: RequestEvent, e2: RequestEvent, now1: Timestamp, now2: Timestamp)
    requires s.recording && !Untracked(e1.url) && e1.url == e2.url
    ensures var t := AfterRequest(AfterRequest(s, e1, now1), e2, now2);
      && t.pending == s.pending[e1.url := RequestRecord(e2, now2)]
      && |t.pending| + |t.capturing| + |t.networkRequests| ==
         |s.pending| + |s.capturing| + |s.networkRequests| + (if e1.url in s.pending then 0 else 1)
  {
  }

  /** A request that starts before an action and is answered after it belongs to the
      window open when the response arrives, not to the step recorded in between. */
  lemma ResponseLandsInOpenWindow(s: RecState, req: RequestEvent, data: Payload, resp: ResponseEvent,
                                  t0: Timestamp, t1: Timestamp, shot: bool)
    requires Inv(s) && s.recording && Recordable(data)
    requires !Untracked(req.url) && req.resourceType !in BodyTypes && resp.url == req.url
    ensures var s1 := AfterRequest(s, req, t0);
      var s2 := AfterAction(s1, data, t1, shot);
      var s3 := AfterResponse(s2, resp);
      && |s3.steps| == |s.steps| + 1 && s3.steps == s2.steps
      && s3.steps[|s.steps|].networkRequests == s.stepRequests
      && s3.stepRequests == [Answered(RequestRecord(req, t0), resp)]
      && Settled(s3.stepRequests[0])
  {
    var s1 := AfterRequest(s, req, t0);
    assert s1.recording && s1.steps == s.steps && s1.stepRequests == s.stepRequests;
    assert s1.pending[req.url] == RequestRecord(req, t0);
    var st := StepFor(s1, data, t1, shot);
    assert st.Some?;
    var s2 := AfterAction(s1, data, t1, shot);
    assert s2.stepRequests == [] && s2.pending == s1.pending && s2.recording;
  }

  /** The exported test case lists its steps numbered from 1, counts them, and its
      session logs are the tail of what the steps and the open windows hold. */
  lemma ExportedSession(c: Config, s: RecState, now: Timestamp, uuidHex: string)
    requires Inv(s) && s.recording && s.steps != []
    ensures var tc := StopExport(c, s, now, uuidHex);
      && tc.Some? && tc.value.totalSteps == |tc.value.steps| > 0
      && (forall i :: 0 <= i < |tc.value.steps| ==> tc.value.steps[i].number == i + 1)
      && IsSuffix(tc.value.consoleLogs, ConsoleTrail(tc.value.steps) + s.stepLogs)
      && IsSuffix(tc.value.networkRequests, RequestTrail(tc.value.steps) + s.stepRequests)
      && (forall i :: 0 <= i < |tc.value.networkRequests| ==> Settled(tc.value.networkRequests[i]))
      && tc.value.createdAt == s.startTime.value
      && tc.value.totalDuration == (now - s.startTime.value) as real / 1000000.0
  {
    var t := s.(recording := false, endTime := Some(now));
    assert t.steps == s.steps && t.startTime == s.startTime && t.endTime == Some(now);
  }

  /** A whole session on a launched browser: start, one console message, one recorded
      action, stop.  The export holds exactly that step, numbered 1, carrying the
      console entry, and the panel counted the step. */
  lemma OneActionSession(c: Config, m: ConsoleMessage, data: Payload, t0: Timestamp, t1: Timestamp, t2: Timestamp,
                         shot: bool, uuidHex: string)
    requires Recordable(data)
    ensures
      var s0 := Initial.(hasManager := true, hasPage := true);
      var s1 := AfterConsoleMessage(AfterStart(s0, t0), m, t1);
      var s2 := AfterAction(s1, data, t1, shot);
      var tc := StopExport(c, s2, t2, uuidHex);
      && StartView(s0) == Some(UpdateView(true, 0, ""))
      && ActionView(s1, data, t1, shot) == Some(UpdateView(true, 1, ""))
      && tc.Some? && |tc.value.steps| == 1 && tc.value.totalSteps == 1
      && tc.value.steps[0].number == 1
      && tc.value.steps[0].consoleLogs == [ConsoleRecord(m, t1)] == tc.value.consoleLogs
      && tc.value.userAgent == c.browserType && tc.value.createdAt == t0
  {
    var s0 := Initial.(hasManager := true, hasPage := true);
    var s1 := AfterConsoleMessage(AfterStart(s0, t0), m, t1);
    assert s1.recording && s1.steps == [] && s1.stepLogs == [ConsoleRecord(m, t1)];
    var st := StepFor(s1, data, t1, shot);
    assert st.Some? && st.value.number == 1;
    var s2 := AfterAction(s1, data, t1, shot);
    assert s2.steps == [st.value];
  }

  // ---------------------------------------------------------------------------
  // The action handler as written: two halves around the screenshot
  // ---------------------------------------------------------------------------

  /** What the handler has computed when it awaits the screenshot. */
  datatype Prepared = Prepared(number: int, action: ActionType, element: ElementInfo, short: string,
                               detailed: string, data: Payload, shoot: bool)

  /** The handler up to the screenshot, as written: the step number is read from the
      steps as they are at that moment. */
  function BeginAsWritten(s: RecState, data: Payload): Option<Prepared> {
    if !s.recording then None
    else match ActionOf(data.eventType)
      case None => None
      case Some(a) =>
        match BuildElement(data)
        case None => None
        case Some(e) =>
          match ShortDescriptionAsWritten(a, e, data)
          case Failure(_) => None
          case Success(short) => Some(Prepared(|s.steps| + 1, a, e, short, short + "\nElement: " + e.selector, data, s.hasPage))
  }

  /** The handler after the screenshot, as written: the windows are emptied first,
      and only then is the step built, which fails for a value or key that is neither
      a string nor null. */
  function FinishAsWritten(s: RecState, p: Prepared, now: Timestamp, shotTaken: bool): RecState {
    var drained := s.(stepLogs := [], stepRequests := []);
    if !StepValueOk(p.data) then drained
    else
      var path := ShotPath(p.number, p.action, p.element, p.shoot && shotTaken);
      drained.(steps := s.steps + [MakeStep(p.number, now, p.action, p.element, p.data, path, p.short, p.detailed,
                                            s.stepLogs, s.stepRequests)])
  }

  /** Without interleaving and on payloads it accepts, the handler as written records
      what `AfterAction` records. */
  lemma SequentialAsWrittenAgrees(s: RecState, data: Payload, now: Timestamp, shotTaken: bool)
    requires BeginAsWritten(s, data).Some? && StepValueOk(data)
    ensures FinishAsWritten(s, BeginAsWritten(s, data).value, now, shotTaken) == AfterAction(s, data, now, shotTaken)
  {
    var a := ActionOf(data.eventType).value;
    var e := BuildElement(data).value;
    ShortDescriptionExtendsAsWritten(a, e, data);
  }

  /** Two actions whose handlers both reach the screenshot before either finishes get
      the same step number, and when both are the same action on the same element they
      also share one screenshot file. */
  lemma InterleavedActionsShareNumber(s: RecState, d1: Payload, d2: Payload, now1: Timestamp, now2: Timestamp, shot: bool)
    requires Inv(s) && BeginAsWritten(s, d1).Some? && BeginAsWritten(s, d2).Some?
    requires StepValueOk(d1) && StepValueOk(d2)
    ensures var t := FinishAsWritten(FinishAsWritten(s, BeginAsWritten(s, d1).value, now1, shot),
                                     BeginAsWritten(s, d2).value, now2, shot);
      && |t.steps| == |s.steps| + 2
      && t.steps[|s.steps|].number == t.steps[|s.steps| + 1].number == |s.steps| + 1
      && !Numbered(t.steps)
      && (d1.eventType == d2.eventType && SameElementFields(d1, d2) && s.hasPage && shot ==>
            t.steps[|s.steps|].screenshotPath.Some? &&
            t.steps[|s.steps|].screenshotPath == t.steps[|s.steps| + 1].screenshotPath)
  {
    var p1 := BeginAsWritten(s, d1).value;
    var p2 := BeginAsWritten(s, d2).value;
    var t1 := FinishAsWritten(s, p1, now1, shot);
    var t := FinishAsWritten(t1, p2, now2, shot);
    assert t1.steps == s.steps + [t1.steps[|s.steps|]];
    assert t.steps == t1.steps + [t.steps[|s.steps| + 1]];
    assert t.steps[|s.steps| + 1].number != |s.steps| + 2;
    if d1.eventType == d2.eventType && SameElementFields(d1, d2) {
      BuildReadsElementFields(d1, d2);
    }
  }

  /** A click on an element whose value is a number (`<li value=3>`) passes every check
      before the screenshot, so the handler as written empties both windows and then
      fails to build the step: the console entries and requests of the window stay in
      the session logs but belong to no step. */
  lemma NumericValueLosesWindowsAsWritten(s: RecState, data: Payload, now: Timestamp, shotTaken: bool)
    requires BeginAsWritten(s, data).Some? && !StepValueOk(data)
    ensures var t := FinishAsWritten(s, BeginAsWritten(s, data).value, now, shotTaken);
      && t.steps == s.steps && t.consoleLogs == s.consoleLogs && t.networkRequests == s.networkRequests
      && ConsoleTrail(t.steps) + t.stepLogs == ConsoleTrail(s.steps)
      && RequestTrail(t.steps) + t.stepRequests == RequestTrail(s.steps)
  {
  }

  /** A body read that finishes while the stop awaits the "Saving..." update is
      exported with the session: the stop sequenced as one step exports the logs as
      they were, the stop as written exports them with the late body appended. */
  lemma BodyReadDuringSaveIsExported(c: Config, s: RecState, now: Timestamp, uuidHex: string, i: nat, b: BodyRead)
    requires s.recording && s.steps != [] && i < |s.capturing|
    ensures var stopped := s.(recording := false, endTime := Some(now));
      var late := Export(c, AfterCapture(stopped, i, b), now, uuidHex);
      && StopExport(c, s, now, uuidHex).value.networkRequests == s.networkRequests
      && late.Some?
      && late.value.networkRequests == s.networkRequests + [s.capturing[i].(responseBody := Some(BodyText(b)))]
  {
  }

  /** An action whose handler was awaiting its screenshot when the stop began, and
      finishes while the stop awaits the "Saving..." update, adds its step to the
      export, although the recording had already stopped. */
  lemma ActionDuringSaveIsExported(c: Config, s: RecState, data: Payload, now: Timestamp, later: Timestamp,
                                   uuidHex: string, shot: bool)
    requires s.steps != [] && BeginAsWritten(s, data).Some? && StepValueOk(data)
    ensures var stopped := s.(recording := false, endTime := Some(now));
      var late := Export(c, FinishAsWritten(stopped, BeginAsWritten(s, data).value, later, shot), now, uuidHex);
      && |StopExport(c, s, now, uuidHex).value.steps| == |s.steps|
      && late.Some? && |late.value.steps| == |s.steps| + 1
      && late.value.steps[..|s.steps|] == s.steps
  {
  }

  // ---------------------------------------------------------------------------
  // The recorder object
  // ---------------------------------------------------------------------------

  class Recorder {
    const config: Config

    var isRecording: bool
    var startTime: Option<Timestamp>
    var endTime: Option<Timestamp>
    var steps: seq<Step>
    var consoleLogs: seq<ConsoleLog>
    var networkRequests: seq<NetworkRequest>
    var pageErrors: seq<PageError>
    var pendingRequests: map<string, NetworkRequest>
    var capturing: seq<NetworkRequest>
    var stepConsoleLogs: seq<ConsoleLog>
    var stepNetworkRequests: seq<NetworkRequest>
    var recordingComplete: bool
    var hasManager: bool
    var hasPage: bool

    function State(): RecState
      reads this
    {
      RecState(isRecording, startTime, endTime, steps, consoleLogs, networkRequests, pageErrors, pendingRequests,
               capturing, stepConsoleLogs, stepNetworkRequests, recordingComplete, hasManager, hasPage)
    }

    predicate Valid()
      reads this
    {
      Inv(State())
    }

    constructor(config: Config)
      ensures Valid() && State() == Initial && this.config == config
    {
      this.config := config;
      isRecording := false;
      startTime := None;
      endTime := None;
      steps := [];
      consoleLogs := [];
      networkRequests := [];
      pageErrors := [];
      pendingRequests := map[];
      capturing := [];
      stepConsoleLogs := [];
      stepNetworkRequests := [];
      recordingComplete := false;
      hasManager := false;
      hasPage := false;
    }

    /** The browser manager is created and its page opened. */
    method Launch()
      requires Valid()
      modifies this
      ensures Valid() && State() == old(State()).(hasManager := true, hasPage := true)
    {
      hasManager := true;
      hasPage := true;
    }

    /** The browser is closed; the manager object remains. */
    method Close()
      requires Valid()
      modifies this
      ensures Valid() && State() == old(State()).(hasPage := false)
    {
      hasPage := false;
    }

    method OnConsoleMessage(m: ConsoleMessage, now: Timestamp)
      requires Valid()
      modifies this
      ensures Valid() && State() == AfterConsoleMessage(old(State()), m, now)
    {
      ConsoleKeepsInv(State(), m, now);
      if !isRecording {
        return;
      }
      var log := ConsoleRecord(m, now);
      consoleLogs := consoleLogs + [log];
      stepConsoleLogs := stepConsoleLogs + [log];
    }

    method OnPageError(message: string, stack: Option<string>, now: Timestamp)
      requires Valid()
      modifies this
      ensures Valid() && State() == AfterPageError(old(State()), message, stack, now)
    {
      PageErrorKeepsInv(State(), message, stack, now);
      if !isRecording {
        return;
      }
      pageErrors := pageErrors + [PageError(message, stack, now)];
    }

    method OnRequest(e: RequestEvent, now: Timestamp)
      requires Valid()
      modifies this
      ensures Valid() && State() == AfterRequest(old(State()), e, now)
    {
      ghost var s := State();
      RequestKeepsInv(s, e, now);
      if !isRecording {
        return;
      }
      if StartsWith(e.url, "data:") || Contains(e.url, "__testcaseer") {
        return;
      }
      var body: Option<string> := None;
      if e.verb in BodyVerbs {
        body := e.postData;
      }
      var r := NewNetworkRequest(e.verb, e.url, e.resourceType, now).(requestHeaders := e.headers, requestBody := body);
      pendingRequests := pendingRequests[e.url := r];
      assert State() == AfterRequest(s, e, now);
    }

    method OnResponse(e: ResponseEvent)
      requires Valid()
      modifies this
      ensures Valid() && State() == AfterResponse(old(State()), e)
    {
      ghost var s := State();
      if !isRecording {
        return;
      }
      if e.url in pendingRequests {
        var r := pendingRequests[e.url];
        r := r.(status := Some(e.status), responseHeaders := e.headers);
        if e.responseEnd.Some? && e.responseEnd.value != 0.0 {
          r := r.(timing := e.responseEnd);
        }
        assert r == Answered(s.pending[e.url], e);
        Unfile(e.url);
        if r.resourceType in BodyTypes {
          QueueBodyRead(r);
        } else {
          LogRequest(r);
        }
      }
    }

    /** A request leaves the pending map. */
    method Unfile(url: string)
      requires Valid() && url in pendingRequests
      modifies this
      ensures Valid() && State() == old(State()).(pending := old(State()).pending - {url})
    {
      pendingRequests := pendingRequests - {url};
    }

    /** An answered request waits for its body to be read. */
    method QueueBodyRead(r: NetworkRequest)
      requires Valid() && r.status.Some? && r.error.None?
      modifies this
      ensures Valid() && State() == old(State()).(capturing := old(State()).capturing + [r])
    {
      capturing := capturing + [r];
    }

    /** A finished request is logged for the session and for the open step. */
    method LogRequest(r: NetworkRequest)
      requires Valid() && Settled(r)
      modifies this
      ensures Valid() && State() == Logged(old(State()), r)
    {
      ghost var s := State();
      LoggedKeepsInv(s, r);
      networkRequests := networkRequests + [r];
      stepNetworkRequests := stepNetworkRequests + [r];
      assert State() == Logged(s, r);
    }

    /** The i-th scheduled body read finishes with `b`. */
    method CompleteCapture(i: nat, b: BodyRead)
      requires Valid() && i < |capturing|
      modifies this
      ensures Valid() && State() == AfterCapture(old(State()), i, b)
    {
      ghost var s := State();
      CaptureKeepsInv(s, i, b);
      var r := capturing[i].(responseBody := Some(BodyText(b)));
      capturing := capturing[..i] + capturing[i + 1..];
      networkRequests := networkRequests + [r];
      stepNetworkRequests := stepNetworkRequests + [r];
      assert State() == AfterCapture(s, i, b);
    }

    method OnRequestFailed(e: FailureEvent)
      requires Valid()
      modifies this
      ensures Valid() && State() == AfterRequestFailed(old(State()), e)
    {
      if !isRecording {
        return;
      }
      if e.url in pendingRequests {
        var r := pendingRequests[e.url];
        r := r.(error := Some(if e.failure.Some? && e.failure.value != "" then e.failure.value else "Request failed"));
        Unfile(e.url);
        LogRequest(r);
      }
    }

    /** The page has loaded again: the panel is redrawn from the current state. */
    method OnPageLoad() returns (view: Option<PanelView>)
      ensures view.Some? <==> hasPage
      ensures view.Some? ==> view.value == UpdateView(isRecording, |steps|, "")
    {
      view := None;
      if hasPage {
        view := Some(UpdateView(isRecording, |steps|, ""));
      }
    }

    method StartRecording(now: Timestamp) returns (view: Option<PanelView>)
      requires Valid()
      modifies this
      ensures Valid() && State() == AfterStart(old(State()), now)
      ensures view == StartView(old(State()))
    {
      view := None;
      if isRecording {
        return;
      }
      BeginSession(now);
      if hasPage {
        view := Some(UpdateView(true, 0, ""));
      }
    }

    /** The session starts: the flag is set, the start time taken, and the steps and
        the session logs emptied. */
    method BeginSession(now: Timestamp)
      requires Valid() && !isRecording
      modifies this
      ensures Valid() && State() == AfterStart(old(State()), now)
    {
      ghost var s := State();
      SessionKeepsInv(s, now);
      isRecording := true;
      startTime := Some(now);
      steps := [];
      consoleLogs := [];
      networkRequests := [];
      pageErrors := [];
      assert State() == AfterStart(s, now);
    }

    /** Stopping a running recording exports it (when it has steps) and updates the
        panel before and after; stopping otherwise only ends the session. */
    method StopRecording(now: Timestamp, uuidHex: string) returns (views: seq<PanelView>, exported: Option<TestCase>)
      requires Valid()
      modifies this
      ensures Valid() && State() == AfterStop(old(State()), now)
      ensures views == StopViews(old(State()))
      ensures exported == StopExport(config, old(State()), now, uuidHex)
    {
      views := [];
      exported := None;
      if !isRecording {
        MarkComplete();
        return;
      }
      EndSession(now);
      if hasPage {
        views := views + [UpdateView(false, |steps|, SavingMessage)];
      }
      exported := Export(config, State(), now, uuidHex);
      if hasPage {
        views := views + [UpdateView(false, |steps|, SavedMessage)];
      }
      MarkComplete();
    }

    /** The session ends: the flag is cleared and the end time taken. */
    method EndSession(now: Timestamp)
      requires Valid() && isRecording
      modifies this
      ensures Valid() && State() == old(State()).(recording := false, endTime := Some(now))
    {
      isRecording := false;
      endTime := Some(now);
    }

    /** The recording is marked complete, which ends the host's wait. */
    method MarkComplete()
      requires Valid()
      modifies this
      ensures Valid() && State() == old(State()).(complete := true)
    {
      recordingComplete := true;
    }

    /** The checks of the action handler, in its order, up to the built step: None
        where the handler returns early. */
    method PrepareStep(data: Payload, now: Timestamp, shotTaken: bool) returns (step: Option<Step>)
      ensures step == StepFor(State(), data, now, shotTaken)
    {
      step := None;
      if !isRecording {
        return;
      }
      var action := ActionOf(data.eventType);
      if action.None? {
        return;
      }
      var element := BuildElement(data);
      if element.None? {
        return;
      }
      var number := |steps| + 1;
      var short := ShortDescription(action.value, element.value, data);
      var detailed := DetailedDescription(action.value, element.value, data);
      if short.Failure? || detailed.Failure? {
        return;
      }
      var path := ShotPath(number, action.value, element.value, hasPage && shotTaken);
      if !StepValueOk(data) {
        return;
      }
      step := Some(MakeStep(number, now, action.value, element.value, data, path, short.value, detailed.value,
                            stepConsoleLogs, stepNetworkRequests));
    }

    /** An action reported by the page.  The step is validated before the windows are
        emptied, and numbered when it is appended. */
    method OnAction(data: Payload, now: Timestamp, shotTaken: bool) returns (view: Option<PanelView>)
      requires Valid()
      modifies this
      ensures Valid() && State() == AfterAction(old(State()), data, now, shotTaken)
      ensures view == ActionView(old(State()), data, now, shotTaken)
    {
      view := None;
      var step := PrepareStep(data, now, shotTaken);
      if step.None? {
        return;
      }
      AppendStep(step.value);
      if hasPage {
        view := Some(UpdateView(true, |steps|, ""));
      }
    }

    /** The validated step is appended and the windows start again empty. */
    method AppendStep(st: Step)
      requires Valid() && st.number == |steps| + 1
      requires st.consoleLogs == stepConsoleLogs && st.networkRequests == stepNetworkRequests
      modifies this
      ensures Valid() && State() == Appended(old(State()), st)
    {
      ghost var s := State();
      AppendKeepsInv(s, st);
      stepConsoleLogs := [];
      stepNetworkRequests := [];
      steps := steps + [st];
      assert State() == Appended(s, st);
    }
  }
}
