# testcaseer — a verified model of the recording core

testcaseer records a manual browser session as a test case. A script injected into
the page reports each click, double click, typed value, selection, check and special
key press to the host. The host's `Recorder` turns each report into a numbered `Step`.
Each step carries:

- a description of the action;
- a screenshot path;
- the console entries and network requests seen since the previous step.

Stopping the recording exports the session as a `TestCase`. The command line first
validates the start URL and derives a default test-case name from it.

This project models that core in Dafny. Module by module:

- **Wrappers, Strings, Json**: optional values and results; the Python and JavaScript
  string operations the core uses (`str.find`, `strip`, `trim`, `format(n, "03d")`,
  `str.replace`); the values the page sends, with Python and JavaScript truthiness.
- **Models** (`models.py`): the record types and the two literal enumerations.
- **Dom, Addressor** (`events.py`, `getCssSelector` and `getXPath`): an element
  tree and the two address builders. The model proves that each address is its
  anchor's head followed by steps that lead from the anchor to the element. When the
  head names its anchor alone, every element the head selects leads back to the
  element. A duplicate id or test id breaks that, and the model exhibits both cases.
- **Observer** (`events.py`, listeners and `getElementInfo`): what each listener
  sends and when it sends nothing.
- **PageScript** (`events.py`): the injection guard and the input debounce, as classes
  whose methods update the script's variables.
- **ElementParse** (`events.py` `parse_element_info`, then `ElementInfo` validation).
- **Descriptions** (`recorder.py`, `_generate_short_description` and
  `_generate_detailed_description`).
- **Screenshot** (`screenshot.py` `generate_screenshot_filename`).
- **ControlPanel** (`control_panel.py` `get_update_ui_script`).
- **Cli** (`cli.py` `validate_url`, `generate_testcase_name`, and the start of
  `record`), including the part of `urllib.parse.urlparse` the name relies on.
- **Recording** (`recorder.py`): the `Recorder` class.
  - Its fields are Dafny fields.
  - Each handler is a method whose new state is given by a function on a snapshot,
    `RecState`.
  - The lemmas prove that every handler keeps the invariant `Inv`:
    - step numbers run 1, 2, 3, … in order;
    - pending requests are filed under their own URL;
    - every logged request is settled (it has a status or an error, never both);
    - the session's console and network logs are the tail of what the steps and the
      open per-step windows hold.

Browser events are method calls. Clock readings (`datetime.now()`), the outcome of
taking a screenshot, a response body's size and UTF-8 decoding, and the random UUID are
parameters. The browser primitives `CSS.escape` and `querySelectorAll(...).length` are
the `Addressor.Browser` parameter.

## Model

| member | source | states |
|---|---|---|
| Models.ParseActionType | src/testcaseer/models.py:59-71 | accepts exactly the eleven action literals, each mapped to the type whose name it is |
| Models.ActionNameRoundTrip | src/testcaseer/models.py:59-71 | every action type survives the round trip through its literal |
| Models.ParseLevel | src/testcaseer/models.py:38 | accepts exactly the six console level literals |
| Models.LevelNameRoundTrip | src/testcaseer/models.py:38 | every level survives the round trip through its literal |
| Models.NewElementInfo | src/testcaseer/models.py:10-19 | an element from its required fields has no xpath, text, placeholder or attributes |
| Models.NewNetworkRequest | src/testcaseer/models.py:22-35 | a new request has no status, timing, bodies, error or headers |
| Models.NewStep | src/testcaseer/models.py:74-103 | a new step has no element, URL, value, key or screenshots, and empty request and console lists |
| Json.Get | src/testcaseer/events.py:284-301 | `dict.get(key, default)`: the entry when present, else the default |
| Json.OrNull | src/testcaseer/events.py:98-104 | JavaScript's or-null idiom: truthy values pass, falsy ones become null |
| ElementParse.ParseElementInfo | src/testcaseer/events.py:274-302 | missing selector and tag become "", missing optional fields null; exactly the allow-listed attributes with a truthy value are kept, unchanged |
| ElementParse.AsStr | src/testcaseer/models.py:13 | a `str` field accepts exactly strings |
| ElementParse.AsOptStr | src/testcaseer/models.py:14 | an optional `str` field accepts exactly strings and null, and keeps the value |
| ElementParse.AsStrMap | src/testcaseer/models.py:18 | a `dict[str, str]` accepts a map exactly when every value is a string, with the same keys |
| ElementParse.AsFloat | src/testcaseer/models.py:19 | a `float` accepts numbers and booleans, keeping the number |
| ElementParse.AsFloatMap | src/testcaseer/models.py:19 | a `dict[str, float]` accepts an object exactly when every value is a number or a boolean, with the same keys |
| ElementParse.ValidateElement | src/testcaseer/recorder.py:466-484 | building `ElementInfo` succeeds exactly when every field has its declared type, and then carries the parsed values |
| ElementParse.BuildReadsElementFields | src/testcaseer/events.py:284-302 | the event type, value, key and selected text have no influence on the element |
| ElementParse.BuildElementAttributes | src/testcaseer/events.py:290-300 | every attribute of a built element is allow-listed, non-empty and copied from its payload key |
| ElementParse.NonStringAttributeRejects | src/testcaseer/recorder.py:466-484 | an allow-listed attribute with a truthy non-string value makes the element unbuildable |
| Dom.NthTagOfRank | src/testcaseer/events.py:58-67 | a child is found again from its tag and its rank among same-tag siblings |
| Dom.PickStepTo | src/testcaseer/events.py:58-67 | the child step (`tag`, or `tag:nth-of-type(k)` / `tag[k]`) designates exactly that child, with k between 1 and the number of same-tag siblings |
| Dom.Follow | src/testcaseer/events.py:76-85 | following resolved child steps stays below the starting element, one level per step |
| Dom.FollowExtend | src/testcaseer/events.py:84-85 | appending the step to a child of the element reached leads to that child |
| Addressor.ClassCandidate | src/testcaseer/events.py:42-45 | a class candidate exists only for a string class attribute with at least one class |
| Addressor.UniqueClass | src/testcaseer/events.py:42-50 | the candidate is used exactly when the page holds one element matching it |
| Addressor.CssHead | src/testcaseer/events.py:26-56 | the CSS walk stops at body or the document element (giving `body`), an id, a test id, a unique class combination, or a parentless root, and continues otherwise |
| Addressor.XPathHead | src/testcaseer/events.py:71-88 | the XPath walk stops at an id, the body or the root, and continues otherwise |
| Addressor.Head | src/testcaseer/events.py:53-56 | both walks stop at the root |
| Addressor.AddressIsRendered | src/testcaseer/events.py:62-67 | each address is its anchor's head followed by one child step per level below it |
| Addressor.LocateResolves | src/testcaseer/events.py:58-85 | the anchor is an ancestor-or-self whose head is the one written, and its steps lead exactly to the element |
| Addressor.AddressesResolve | src/testcaseer/events.py:26-88 | each address renders a head and steps; the steps lead from the head's anchor to the element, and from every element the head selects when it names its anchor alone |
| Addressor.HeadSelectsAnchor | src/testcaseer/events.py:26-74 | in an attached tree, the head written for an anchor selects that anchor, except the CSS head `body` written for a parentless root |
| Addressor.DuplicateIdAmbiguous | src/testcaseer/events.py:73 | when two elements share an id, the XPath id test selects both, so it does not name either alone |
| Addressor.DuplicateTestIdAmbiguous | src/testcaseer/events.py:36-38 | when two elements without ids share a test id, the CSS test-id head selects both, so it does not name either alone |
| Addressor.CssHeadAsWritten | src/testcaseer/events.py:41-50 | where the class query does not throw, the stopping rule as written agrees with the corrected one |
| Addressor.AsWrittenAgrees | src/testcaseer/events.py:26-68 | every selector the code as written produces equals the corrected selector |
| Addressor.AsWrittenThrows | src/testcaseer/events.py:46 | a class combination the browser cannot parse makes the selector as written throw |
| Addressor.ColonClassCandidate | src/testcaseer/events.py:43-45 | `class="md:flex"` on a div gives the candidate `div.md:flex` |
| Observer.Num | src/testcaseer/events.py:106-111 | a page number arrives as a value that validates to the same float |
| Observer.ShortText | src/testcaseer/events.py:97 | the element text sent is at most 100 characters |
| Observer.ElementPayload | src/testcaseer/events.py:91-113 | the element record carries the computed selector and XPath and short text; each optional property is null or non-empty text |
| Observer.ElementRecord | src/testcaseer/events.py:91-113 | `getElementInfo` as written: it throws exactly where the selector as written throws, and otherwise gives the element record |
| Observer.AttributesArrive | src/testcaseer/events.py:99-104 | the attributes the host parses are exactly the element's non-empty id, name, type, href and string class |
| Observer.BoxArrives | src/testcaseer/events.py:106-111 | the bounding box validates to the element's rectangle |
| Observer.ElementPayloadBuilds | src/testcaseer/events.py:91-113 | the host always builds an element from a page element's record, with the script's selector, XPath, lower-cased tag and trimmed text |
| Observer.OnMouse | src/testcaseer/events.py:120-147 | a click or double click is reported, with its event type, exactly when the target is outside the control panel and its selector does not throw |
| Observer.ChangeEventType | src/testcaseer/events.py:187-201 | a checkbox gives check or uncheck by its state, a radio button check, a select element select; anything else is left to the input listener |
| Observer.OnChange | src/testcaseer/events.py:181-208 | a change is reported exactly outside the panel on those targets when the selector does not throw; a selection carries the raw value and the selected option's text |
| Observer.OnKeydown | src/testcaseer/events.py:211-227 | only Enter, Escape and Tab are reported, with the key, and only when the selector does not throw |
| Observer.UnparseableClassLosesEvents | src/testcaseer/events.py:43-227 | on an element whose class combination the browser cannot parse, no click, change or key press is reported |
| Observer.ListenerPayloadsBuild | src/testcaseer/events.py:120-227 | every listener's report builds the same element as the bare element record |
| PageScript.Listeners.constructor | src/testcaseer/events.py:14-18 | a fresh document has no listeners and no debounce state |
| PageScript.Listeners.Inject | src/testcaseer/events.py:17-18 | running the script again leaves everything unchanged: the listeners are attached at most once per document |
| PageScript.Listeners.Navigate | src/testcaseer/events.py:17-18 | a new document starts without the flag, so the next run attaches the listeners again |
| PageScript.Listeners.OnInput | src/testcaseer/events.py:150-165 | input outside the panel whose selector does not throw stores the value under the field's selector and makes that field's timer the only one |
| PageScript.Listeners.Fire | src/testcaseer/events.py:165-176 | the live timer sends its field's element record with the remembered value and waits for the host; it sends nothing when the selector throws |
| PageScript.Listeners.Settle | src/testcaseer/events.py:176 | the host's answer deletes the value under the selector, whatever was typed since |
| PageScript.SharedTimerDropsFirstField | src/testcaseer/events.py:156-165 | typing into A and then B within the delay sends only B; A's value stays behind with no timer |
| PageScript.RetypedValueIsDeleted | src/testcaseer/events.py:162-176 | typing again while the previous event is with the host sends the next event with no value |
| PageScript.FieldDebouncer.constructor | src/testcaseer/events.py:116-117 | no timers and no values |
| PageScript.FieldDebouncer.OnInput | src/testcaseer/events.py:150-165 | input starts this field's own timer and leaves other fields' timers running |
| PageScript.FieldDebouncer.Fire | src/testcaseer/events.py:165-176 | a field's timer sends its element record with its latest value and takes the value out |
| PageScript.PerFieldTimersSendBoth | src/testcaseer/events.py:150-178 | with a timer per field, typing into A and then B sends both values |
| PageScript.RetypedValueIsSent | src/testcaseer/events.py:162-176 | with the value taken out at firing, a retyped value is sent |
| Descriptions.Identifier | src/testcaseer/recorder.py:555-560 | the element is named by its first 30 text characters, else its id, else its placeholder, else its tag |
| Descriptions.ShownValue | src/testcaseer/recorder.py:567-570 | typed values over 20 characters are cut to 20 and marked with `...` |
| Descriptions.TypedText | src/testcaseer/recorder.py:566-570 | fails exactly on a value that is neither a string, nor null, nor a dict of at most 20 entries; null reads as empty; agrees with the code wherever the code succeeds |
| Descriptions.ShortDescription | src/testcaseer/recorder.py:549-583 | fails exactly on an input with a value other than a string, null or a dict of at most 20 entries; the input description shows the cut value and the identifier |
| Descriptions.DetailedDescription | src/testcaseer/recorder.py:585-595 | the short description, then the element's selector on a second line |
| Descriptions.DescriptionNamesElement | src/testcaseer/recorder.py:562-583 | every description except a key press names the element |
| Descriptions.ShortDescriptionExtendsAsWritten | src/testcaseer/recorder.py:566-570 | the corrected description only changes inputs the code fails on |
| Descriptions.NullInputValueRaises | src/testcaseer/recorder.py:566-568 | an input whose value is null raises TypeError as written |
| Screenshot.SafeChar | src/testcaseer/screenshot.py:98 | letters, digits and hyphens are kept; anything else becomes a hyphen |
| Screenshot.Sanitise | src/testcaseer/screenshot.py:98 | each character is made safe, and the length is kept |
| Screenshot.SafeId | src/testcaseer/screenshot.py:98-99 | the sanitised identifier cut to 30 characters |
| Screenshot.ScreenshotFilename | src/testcaseer/screenshot.py:79-102 | the padded number, the action, the safe identifier when one is given, and `.png` |
| Screenshot.FilenameShape | src/testcaseer/screenshot.py:100-102 | every name starts with the padded number and action and ends in `.png` |
| Screenshot.FilenameHasNoSeparator | src/testcaseer/screenshot.py:96-100 | whatever the identifier holds, the name has no path separator |
| Screenshot.FilenameInjective | src/testcaseer/screenshot.py:100-102 | two names with different step numbers differ, whatever their actions and identifiers |
| Screenshot.TraversalIdSanitised | src/testcaseer/screenshot.py:98-100 | the identifier `../x` becomes `---x` |
| Strings.Format03 | src/testcaseer/screenshot.py:100 | `{n:03d}` has at least three characters and reads back as n, sign first |
| Strings.Format03Injective | src/testcaseer/screenshot.py:100 | distinct numbers give distinct renderings |
| Strings.DecRoundTrip | src/testcaseer/control_panel.py:219 | a decimal numeral reads back as its number |
| ControlPanel.UpdateView | src/testcaseer/control_panel.py:203-250 | the panel class, status text, button displays, step counter and message line for a state |
| ControlPanel.ExactlyOneButton | src/testcaseer/control_panel.py:217-218 | exactly one of start and stop is visible |
| ControlPanel.StepsTextReadsBack | src/testcaseer/control_panel.py:219 | the counter's digits read back as the step count |
| Cli.WithScheme | src/testcaseer/cli.py:36-38 | `https://` is put in front unless the URL starts with `http://` or `https://` |
| Cli.ValidateUrl | src/testcaseer/cli.py:34-56 | succeeds with the prefixed URL exactly when it matches the pattern, else exit status 1 |
| Cli.ValidatedUrlHasNoSpace | src/testcaseer/cli.py:41-48 | a validated URL has no white space except one optional final newline |
| Cli.ValidateUrlIdempotent | src/testcaseer/cli.py:34-56 | validating a validated URL changes nothing |
| Cli.RejectedWithoutScheme | src/testcaseer/cli.py:36-54 | a URL without a scheme whose text is not host, port and path is rejected |
| Cli.EmptyUrlRejected | src/testcaseer/cli.py:50-54 | the empty URL is rejected |
| Cli.AcceptedWithoutScheme | src/testcaseer/cli.py:36-48 | a scheme-less host, port and path gets `https://` in front |
| Cli.BareDomainAccepted | src/testcaseer/cli.py:36-48 | `example.com` becomes `https://example.com` |
| Cli.LocalhostWithPortAccepted | src/testcaseer/cli.py:42-47 | `http://localhost:8080/login` is kept as given |
| Cli.UpperCaseSchemeRejected | src/testcaseer/cli.py:37-48 | `HTTPS://EXAMPLE.COM` is rejected |
| Cli.WithSchemeAnyCase | src/testcaseer/cli.py:36-38 | the scheme test made case-insensitive like the pattern |
| Cli.ValidateUrlAnyCase | src/testcaseer/cli.py:34-56 | validation with that scheme test |
| Cli.AnyCaseExtends | src/testcaseer/cli.py:34-56 | every URL the code accepts is accepted unchanged by the correction |
| Cli.AnyCaseKeepsScheme | src/testcaseer/cli.py:36-48 | with the correction, an `https://` scheme in any case is kept as given |
| Cli.UpperCaseSchemeAccepted | src/testcaseer/cli.py:37-48 | with the correction, `HTTPS://EXAMPLE.COM` is accepted as given |
| Cli.LStripControls | src/testcaseer/cli.py:127 | urlparse first drops leading control characters and spaces |
| Cli.RemoveUnsafe | src/testcaseer/cli.py:127 | urlparse removes tab, carriage return and newline |
| Cli.SplitScheme | src/testcaseer/cli.py:127 | the scheme is the text before the first colon when it is a valid scheme |
| Cli.NetlocLength | src/testcaseer/cli.py:127 | the network location ends at the first `/`, `?` or `#` |
| Cli.SplitOnce | src/testcaseer/cli.py:127 | `str.split(c, 1)` |
| Cli.RFind | src/testcaseer/cli.py:127 | `str.rfind(c)` |
| Cli.SplitParams | src/testcaseer/cli.py:127 | the parameters split off the last path segment |
| Cli.SplitNetloc | src/testcaseer/cli.py:127 | the network location after `//` and the rest |
| Cli.UrlParse | src/testcaseer/cli.py:127 | the network location holds no delimiter, and an unmatched bracket is a ValueError |
| Cli.NameOf | src/testcaseer/cli.py:128-133 | `www.` removed from the host; the stripped path with `/` turned into `_` |
| Cli.TestcaseName | src/testcaseer/cli.py:123-133 | the name from the parsed network location and path; fails exactly where urlparse fails |
| Cli.NameHasNoSlash | src/testcaseer/cli.py:128-133 | a generated name never contains a slash |
| Cli.ValidatedUrlHasName | src/testcaseer/cli.py:201-208 | every validated URL parses, with an http or https scheme and the non-empty host and port as its network location |
| Cli.SessionStart | src/testcaseer/cli.py:200-208 | a session starts exactly for a URL `validate_url` accepts, with the validated URL and the given name or the generated, slash-free one |
| Recording.LevelOf | src/testcaseer/recorder.py:181-190 | `warning` becomes `warn`, the other mapped types keep their name, any other type is `log` |
| Recording.ConsoleRecord | src/testcaseer/recorder.py:192-198 | the entry keeps the level, text and location URL, and at most the first five arguments |
| Recording.RequestRecord | src/testcaseer/recorder.py:233-248 | a started request records method, URL, type and headers, with a body only for POST, PUT and PATCH, and no response |
| Recording.Answered | src/testcaseer/recorder.py:259-270 | the response sets status and headers and keeps the request's identity and body |
| Recording.DecodedBodyKept | src/testcaseer/recorder.py:296-303 | a decodable body within 50 KB is kept whole up to 10000 characters, else cut to 10000 and marked |
| Recording.BodyMarkerCounts | src/testcaseer/recorder.py:296-309 | a body over 50 KB, or one that does not decode, is replaced by the large-response or binary marker whose digits read back as the byte count |
| Recording.FailureText | src/testcaseer/recorder.py:324 | the failure text, or `Request failed` when it is empty |
| Recording.InitialInv | src/testcaseer/recorder.py:77-90 | a new recorder is idle, has no steps and satisfies the invariant |
| Recording.IdleHandlersIgnored | src/testcaseer/recorder.py:177-178 | while not recording, the console, page error, request, response, failure and action handlers change nothing |
| Recording.ConsoleKeepsInv | src/testcaseer/recorder.py:175-201 | a console message keeps the invariant and joins the open window |
| Recording.PageErrorKeepsInv | src/testcaseer/recorder.py:209-221 | a page error keeps the invariant |
| Recording.RequestKeepsInv | src/testcaseer/recorder.py:223-250 | a started request keeps the invariant |
| Recording.ResponseKeepsInv | src/testcaseer/recorder.py:252-289 | a response keeps the invariant |
| Recording.CaptureKeepsInv | src/testcaseer/recorder.py:291-313 | a finished body read keeps the invariant |
| Recording.FailureKeepsInv | src/testcaseer/recorder.py:315-331 | a failed request keeps the invariant |
| Recording.SessionKeepsInv | src/testcaseer/recorder.py:358-397 | start and stop keep the invariant; start leaves the recorder recording, stop leaves it stopped and complete |
| Recording.StopIsIdempotent | src/testcaseer/recorder.py:392-398 | a stop while idle only marks completion, exports nothing and updates no panel; a second stop exports nothing and changes nothing |
| Recording.StartIsIdempotent | src/testcaseer/recorder.py:364-365 | a start while recording changes nothing and updates no panel; a second start keeps the first |
| Recording.StopExport | src/testcaseer/recorder.py:392-415 | a stop exports exactly when the recording is running and has steps |
| Recording.ActionMovesWindows | src/testcaseer/recorder.py:511-532 | a recorded step takes over both windows: the steps' entries followed by the windows are unchanged |
| Recording.AppendKeepsInv | src/testcaseer/recorder.py:511-532 | appending a step numbered after the last, carrying the open windows, keeps the invariant |
| Recording.ActionKeepsInv | src/testcaseer/recorder.py:436-532 | an action keeps the invariant and adds one step exactly when recording and the report is recordable |
| Recording.ActionsNumberedInOrder | src/testcaseer/recorder.py:486-532 | two actions in a row are numbered one after the other |
| Recording.NumericValueKeepsWindows | src/testcaseer/recorder.py:512-530 | a report whose value or key is neither a string nor null records nothing and changes nothing |
| Recording.ResponseConservesRequests | src/testcaseer/recorder.py:252-289 | a response moves its request out of the pending map into the reading list or the log, without creating or losing a request |
| Recording.FailureConservesRequests | src/testcaseer/recorder.py:315-331 | a failure moves its request from the pending map to the log, without creating or losing a request |
| Recording.CaptureConservesRequests | src/testcaseer/recorder.py:291-313 | a finished body read moves its request from the reading list to the log, without creating or losing a request |
| Recording.RequestsKeyedByUrl | src/testcaseer/recorder.py:250 | a second request to a pending URL replaces the first |
| Recording.ResponseLandsInOpenWindow | src/testcaseer/recorder.py:250-289 | a request answered after an action belongs to the window open when the response arrives |
| Recording.Export | src/testcaseer/recorder.py:601-633 | nothing is exported without steps; otherwise the steps, logs, count, `tc_` id, settings, viewport and duration |
| Recording.ExportedSession | src/testcaseer/recorder.py:386-430 | a stopped session exports steps numbered from 1, its logs as the tail of the steps and windows, settled requests, the start time and the duration |
| Recording.OneActionSession | src/testcaseer/recorder.py:358-430 | start, one console message, one action, stop: one step numbered 1, carrying the console entry, and the panel counting it |
| Recording.ActionOf | src/testcaseer/recorder.py:446-463 | an action exactly for the seven reported event types, named by its event type |
| Recording.ShotPath | src/testcaseer/recorder.py:493-509 | a path exactly when the screenshot was taken, under `screenshots/` |
| Recording.StepFor | src/testcaseer/recorder.py:436-530 | a step exactly when recording and the report is recordable, numbered after the last step, with the windows, element, value, key and descriptions |
| Recording.SequentialAsWrittenAgrees | src/testcaseer/recorder.py:486-532 | without interleaving, the handler as written records what the model records |
| Recording.InterleavedActionsShareNumber | src/testcaseer/recorder.py:486-532 | two actions interleaved at the screenshot get the same number, and the same file when they repeat one action on one element |
| Recording.NumericValueLosesWindowsAsWritten | src/testcaseer/recorder.py:512-530 | as written, a report whose value or key is neither a string nor null empties both windows and records no step |
| Recording.BodyReadDuringSaveIsExported | src/testcaseer/recorder.py:397-415 | a body read finishing while the stop awaits the "Saving..." update is in the export as written, not in the export of the one-step stop |
| Recording.ActionDuringSaveIsExported | src/testcaseer/recorder.py:397-532 | an action handler finishing while the stop awaits the "Saving..." update adds its step to the export as written |
| Recording.Recorder.constructor | src/testcaseer/recorder.py:48-96 | a new recorder is in the initial state |
| Recording.Recorder.Launch | src/testcaseer/recorder.py:114-124 | the manager and its page exist; nothing else changes |
| Recording.Recorder.Close | src/testcaseer/recorder.py:160-163 | the page is gone; nothing else changes |
| Recording.Recorder.OnConsoleMessage | src/testcaseer/recorder.py:175-207 | the state becomes that of the console step, and the invariant holds |
| Recording.Recorder.OnPageError | src/testcaseer/recorder.py:209-221 | the state becomes that of the page error step |
| Recording.Recorder.OnRequest | src/testcaseer/recorder.py:223-250 | the state becomes that of the request step |
| Recording.Recorder.OnResponse | src/testcaseer/recorder.py:252-289 | the state becomes that of the response step |
| Recording.Recorder.Unfile | src/testcaseer/recorder.py:260-261 | the URL leaves the pending map; nothing else changes and the invariant holds |
| Recording.Recorder.QueueBodyRead | src/testcaseer/recorder.py:273-275 | an answered request joins the body reads still running; nothing else changes |
| Recording.Recorder.LogRequest | src/testcaseer/recorder.py:276-279 | a settled request is appended to the session log and to the open step window |
| Recording.Recorder.CompleteCapture | src/testcaseer/recorder.py:291-313 | the state becomes that of the body read step |
| Recording.Recorder.OnRequestFailed | src/testcaseer/recorder.py:315-331 | the state becomes that of the failure step |
| Recording.Recorder.OnPageLoad | src/testcaseer/recorder.py:335-348 | with a page, the panel is redrawn from the current state |
| Recording.Recorder.StartRecording | src/testcaseer/recorder.py:358-384 | the state becomes that of the start step, with its panel update |
| Recording.Recorder.BeginSession | src/testcaseer/recorder.py:366-372 | the recorder is recording from the given time, with no steps and empty session logs |
| Recording.Recorder.StopRecording | src/testcaseer/recorder.py:386-430 | the state becomes that of the stop step, with the two panel updates and the export |
| Recording.Recorder.EndSession | src/testcaseer/recorder.py:397-398 | the recorder stops recording and takes the end time; nothing else changes |
| Recording.Recorder.MarkComplete | src/testcaseer/recorder.py:392-394 | the recording is marked complete; nothing else changes |
| Recording.Recorder.PrepareStep | src/testcaseer/recorder.py:436-530 | the step the handler would record for the report in the current state, or none where it returns early |
| Recording.Recorder.OnAction | src/testcaseer/recorder.py:436-547 | the state becomes that of the action step, with its panel update |
| Recording.Recorder.AppendStep | src/testcaseer/recorder.py:511-532 | the step is appended and both windows start again empty, keeping the invariant |

## Left out

- Console printing, the browser's I/O and file writing are left out. This covers
  `run`, `_prepare_output_dir`, `screenshots_dir`, the exporters, `validate_output_dir`,
  the banner and the session info.
- Clocks are parameters. A `datetime` is an integer count of microseconds, and the
  duration is an exact real rather than a float.
- The UUID is a parameter. So is whether taking the screenshot succeeded; the image
  itself is not modelled.
- The JavaScript text `get_update_ui_script` produces is not modelled, nor is the DOM it
  changes. `UpdateView` holds the values it writes into that text.
- Re-running the panel and listener scripts on a page load is not modelled. That
  evaluation cannot change the recorder's state.
- `_on_dom_ready` does nothing and is not modelled.
- The 2-second pause before closing and the asyncio events are reduced to the
  `complete` flag.
- Recording.Recorder.OnAction: the screenshot is taken between computing and appending
  the step. The class method does not interleave with other handlers.
  `Recording.BeginAsWritten` and `Recording.FinishAsWritten` model that interleaving
  separately.
- Recording.Recorder.Close: whether the page object outlives `close()` is decided in
  `BrowserManager`, which is not part of this model. After `Close` the model's page
  is gone.
- Models.Step: the screenshot path is a string, not a `Path`.
- Recording.StepValueOk: pydantic's lax mode also coerces some non-string inputs. The
  model accepts only strings and null for `input_value` and `key`, and a numeric value
  rejects the step.
- Recording.StepFor: `data.get("eventType")` with an unhashable value raises in the
  source. The model treats every non-string event type as ignored.
- Observer: the listeners' `clientX`, `clientY`, `checked` and `attributes` keys are
  not modelled, because the host never reads them.
- Screenshot.SafeChar: `str.isalnum` accepts non-ASCII letters and digits. The model
  keeps only ASCII ones and replaces the rest with hyphens; `Screenshot.Sanitise` and
  `Screenshot.SafeId` inherit this.
- Strings.ToLower: JavaScript `toLowerCase` is modelled on ASCII letters only.
- Strings.Trim: `String.length` and `substring` count UTF-16 code units. The model
  counts characters.
- Descriptions.Display: `str()` of a float or a dict is shown as a placeholder, not
  Python's exact rendering.
- Descriptions.ShortDescription: `len` of a dict works in Python. A dict of at most 20
  entries is shown through the `<dict>` placeholder of `Display`. A larger one raises
  at the slice. Lists and other containers are not among the modelled values.
- Cli.UrlParse: bracketed IPv6 hosts and the NFKC check on the network location are not
  validated. The pattern never accepts them.
- Cli.Fold: the case-insensitive match folds ASCII letters and the four non-ASCII
  characters that fold onto them. Other folds cannot occur in the pattern's letter
  classes.
- Recording.Export: the user agent is the browser type whenever a browser manager
  exists, as in the source.
- Recording.StepFor: built on the corrected `ShortDescription`, so an input whose
  value is null is described with an empty value instead of raising at
  recorder.py:567-568. A value or key that is neither a string nor null is rejected
  before the windows are emptied, while the source empties them first
  (recorder.py:512-515). `Recording.BeginAsWritten` and `Recording.FinishAsWritten`
  keep the code's order; `Descriptions.NullInputValueRaises` and
  `Recording.NumericValueLosesWindowsAsWritten` show the difference.
- Recording.ActionKeepsInv: about the corrected handler, as for `Recording.StepFor`.
- Recording.Recorder.PrepareStep: computes the corrected handler's step, as for
  `Recording.StepFor`.
- Recording.Recorder.OnAction: updates the state by the corrected handler, as for
  `Recording.StepFor`.
- Recording.Recorder.StopRecording: the stop is one atomic update. The source awaits
  the "Saving..." panel update between clearing the flag and exporting, so a body read
  or an action handler that finishes in between lands in its export.
  `Recording.BodyReadDuringSaveIsExported` and `Recording.ActionDuringSaveIsExported`
  state what that export then holds.
- Observer.ElementPayload: built on the corrected selector, which never throws.
  `Observer.ElementRecord` is `getElementInfo` as written, and the listeners are
  built on it.
- PageScript.Listeners.Fire: the timer keeps the field's path, and the element is taken
  to be at that path when the timer fires. The source keeps the element itself.
- ElementParse.AsFloat: pydantic's lax mode also accepts numeric strings such as
  `"1.5"` for a float. The model rejects every string; the page always sends numbers
  for the bounding box.
- Cli.ValidateUrl: Python's `\d` matches every Unicode decimal digit. The model's digit
  class holds the ASCII digits only, so an IP address or a port written in other
  digits is rejected here and accepted by the source.
- Addressor.AddressesResolve: an id or test id containing `"` is written into the
  address unescaped, which changes what it selects; the model reads every head by the
  kind of its anchor. A unique-class head is taken to select its anchor only. The
  query checks only that one element matches, not that it is the anchor: a class
  name containing `.`, `#`, `,` or `[…]` can still parse and make that one element
  another one (a `div` with class `a.b` gives `div.a.b`, which matches a `div` with
  classes `a` and `b` instead). The model does not capture this.

## Findings

| source | as written | input that shows it | evidently intended | confidence | as-written member | corrected member |
|---|---|---|---|---|---|---|
| src/testcaseer/recorder.py:486-532 | the step number is read before the screenshot is awaited, and the step is appended after it | two actions reported while the first screenshot is being taken | numbers 1, 2, 3, … in order, one screenshot per step | medium, not executed | Recording.InterleavedActionsShareNumber | Recording.ActionsNumberedInOrder |
| src/testcaseer/recorder.py:512-530 | the per-step windows are emptied before `Step` is validated | a click on `<li value=3>` (the value arrives as the number 3, which the optional string field `input_value` rejects) | a rejected action leaves the windows for the next step | medium, not executed | Recording.NumericValueLosesWindowsAsWritten | Recording.NumericValueKeepsWindows |
| src/testcaseer/events.py:156-165 | one debounce timer is shared by all fields | typing into field A and then into field B within 500 ms | each field's value is reported | high, not executed | PageScript.SharedTimerDropsFirstField | PageScript.PerFieldTimersSendBoth |
| src/testcaseer/events.py:162-176 | the remembered value is deleted after the host answers | typing into a field again while its previous event is still with the host | the new value is sent with the next event | medium, not executed | PageScript.RetypedValueIsDeleted | PageScript.RetypedValueIsSent |
| src/testcaseer/events.py:43-46 | class names go into the selector without `CSS.escape` | a `div` with `class="md:flex"` and no id or test id (`querySelectorAll` throws) | the event is still reported, with the element addressed through its parent | high, not executed | Observer.UnparseableClassLosesEvents | Observer.ElementPayloadBuilds |
| src/testcaseer/recorder.py:566-570 | `len(value)` is taken on a value that may be null | an input event on a contenteditable element (`el.value` is undefined, so the value is null) | a description with an empty value | medium, not executed | Descriptions.NullInputValueRaises | Descriptions.ShortDescription |
| src/testcaseer/cli.py:37-48 | the scheme prefix test is case-sensitive but the pattern is case-insensitive | `HTTPS://EXAMPLE.COM` becomes `https://HTTPS://EXAMPLE.COM` and exits with status 1 | an upper-case scheme is accepted as the pattern allows | low, not executed | Cli.UpperCaseSchemeRejected | Cli.UpperCaseSchemeAccepted |
