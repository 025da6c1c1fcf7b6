/** The record types of the recorder (models.py) and their closed enumerations.
    Clock readings are opaque integers supplied by the caller. */
module Models {
  import opened Wrappers

  /** A reading of the wall clock (`datetime.now()`), in microseconds. */
  type Timestamp = int

  // ---------------------------------------------------------------------------
  // ActionType and ConsoleLogLevel: literal enumerations
  // ---------------------------------------------------------------------------

  datatype ActionType =
    | Click | Dblclick | Input | Select | Check | Uncheck
    | Navigate | Scroll | Hover | Keypress | Wait

  /** The literal that stands for each action type. */
  function ActionName(a: ActionType): string {
    match a
    case Click => "click"
    case Dblclick => "dblclick"
    case Input => "input"
    case Select => "select"
    case Check => "check"
    case Uncheck => "uncheck"
    case Navigate => "navigate"
    case Scroll => "scroll"
    case Hover => "hover"
    case Keypress => "keypress"
    case Wait => "wait"
  }

  /** Validation of an `action_type` literal: exactly the eleven names are accepted. */
  function ParseActionType(s: string): (r: Option<ActionType>)
    ensures r.Some? ==> ActionName(r.value) == s
    ensures r.None? ==> forall a: ActionType :: ActionName(a) != s
  {
    if s == "click" then Some(Click)
    else if s == "dblclick" then Some(Dblclick)
    else if s == "input" then Some(Input)
    else if s == "select" then Some(Select)
    else if s == "check" then Some(Check)
    else if s == "uncheck" then Some(Uncheck)
    else if s == "navigate" then Some(Navigate)
    else if s == "scroll" then Some(Scroll)
    else if s == "hover" then Some(Hover)
    else if s == "keypress" then Some(Keypress)
    else if s == "wait" then Some(Wait)
    else None
  }

  /** Every action type survives a round trip through its literal. */
  lemma ActionNameRoundTrip(a: ActionType)
    ensures ParseActionType(ActionName(a)) == Some(a)
  {
  }

  datatype ConsoleLogLevel = Log | Info | Warn | Error | Debug | Trace

  function LevelName(l: ConsoleLogLevel): string {
    match l
    case Log => "log"
    case Info => "info"
    case Warn => "warn"
    case Error => "error"
    case Debug => "debug"
    case Trace => "trace"
  }

  /** Validation of a console `level`: exactly the six literals are accepted. */
  function ParseLevel(s: string): (r: Option<ConsoleLogLevel>)
    ensures r.Some? ==> LevelName(r.value) == s
    ensures r.None? ==> forall l: ConsoleLogLevel :: LevelName(l) != s
  {
    if s == "log" then Some(Log)
    else if s == "info" then Some(Info)
    else if s == "warn" then Some(Warn)
    else if s == "error" then Some(Error)
    else if s == "debug" then Some(Debug)
    else if s == "trace" then Some(Trace)
    else None
  }

  lemma LevelNameRoundTrip(l: ConsoleLogLevel)
    ensures ParseLevel(LevelName(l)) == Some(l)
  {
  }

  // ---------------------------------------------------------------------------
  // Records
  // ---------------------------------------------------------------------------

  datatype ElementInfo = ElementInfo(
    selector: string,
    xpath: Option<string>,
    tagName: string,
    text: Option<string>,
    placeholder: Option<string>,
    attributes: map<string, string>,
    boundingBox: map<string, real>)

  datatype NetworkRequest = NetworkRequest(
    verb: string,         // the HTTP method
    url: string,
    status: Option<int>,
    resourceType: string,
    timing: Option<real>,
    timestamp: Timestamp,
    requestHeaders: map<string, string>,
    responseHeaders: map<string, string>,
    requestBody: Option<string>,
    responseBody: Option<string>,
    error: Option<string>)

  datatype ConsoleLog = ConsoleLog(
    level: ConsoleLogLevel,
    message: string,
    timestamp: Timestamp,
    source: Option<string>,
    args: seq<string>)

  datatype PageError = PageError(message: string, stack: Option<string>, timestamp: Timestamp)

  datatype Step = Step(
    number: int,
    timestamp: Timestamp,
    actionType: ActionType,
    element: Option<ElementInfo>,
    url: Option<string>,
    inputValue: Option<string>,
    key: Option<string>,
    screenshotPath: Option<string>,
    screenshotWithHighlight: Option<string>,
    networkRequests: seq<NetworkRequest>,
    consoleLogs: seq<ConsoleLog>,
    descriptionShort: string,
    descriptionDetailed: string)

  datatype TestCase = TestCase(
    id: string,
    name: string,
    createdAt: Timestamp,
    startUrl: string,
    browser: string,
    viewport: map<string, int>,
    userAgent: string,
    steps: seq<Step>,
    consoleLogs: seq<ConsoleLog>,
    networkRequests: seq<NetworkRequest>,
    pageErrors: seq<PageError>,
    totalDuration: real,
    totalSteps: int)

  // ---------------------------------------------------------------------------
  // Construction with the declared defaults
  // ---------------------------------------------------------------------------

  /** An ElementInfo from its three required fields: the optional ones are absent and
      there are no attributes. */
  function NewElementInfo(selector: string, tagName: string, boundingBox: map<string, real>): (e: ElementInfo)
    ensures e.selector == selector && e.tagName == tagName && e.boundingBox == boundingBox
    ensures e.xpath.None? && e.text.None? && e.placeholder.None? && e.attributes == map[]
  {
    ElementInfo(selector, None, tagName, None, None, map[], boundingBox)
  }

  /** A NetworkRequest from its required fields: nothing of the response is known,
      no bodies, no error, no headers. */
  function NewNetworkRequest(verb: string, url: string, resourceType: string, timestamp: Timestamp): (r: NetworkRequest)
    ensures r.verb == verb && r.url == url && r.resourceType == resourceType && r.timestamp == timestamp
    ensures r.status.None? && r.timing.None? && r.requestBody.None? && r.responseBody.None? && r.error.None?
    ensures r.requestHeaders == map[] && r.responseHeaders == map[]
  {
    NetworkRequest(verb, url, None, resourceType, None, timestamp, map[], map[], None, None, None)
  }

  /** A Step from its required fields: no element, URL, input value, key or
      screenshots, and empty request and console lists. */
  function NewStep(number: int, timestamp: Timestamp, actionType: ActionType, short: string, detailed: string): (s: Step)
    ensures s.number == number && s.timestamp == timestamp && s.actionType == actionType
    ensures s.descriptionShort == short && s.descriptionDetailed == detailed
    ensures s.element.None? && s.url.None? && s.inputValue.None? && s.key.None?
    ensures s.screenshotPath.None? && s.screenshotWithHighlight.None?
    ensures s.networkRequests == [] && s.consoleLogs == []
  {
    Step(number, timestamp, actionType, None, None, None, None, None, None, [], [], short, detailed)
  }
}
