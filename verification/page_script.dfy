/** The state the page script keeps in a document (events.py, EVENT_LISTENER_JS): the
    injection flag that keeps the listeners from being installed twice, and the input
    listener's debounce state.  The 500 ms delay is not modelled as time: the timer
    firing is a step of its own (`Fire`), as is the host's reply to a sent event
    (`Settle`). */
module PageScript {
  import opened Wrappers
  import opened Json
  import opened Dom
  import opened Addressor
  import opened Observer

  /** `lastInputValue[selector]`: undefined (null once it reaches the host) when the
      key is missing. */
  function Lookup(m: map<string, Json>, k: string): Json {
    if k in m then m[k] else JNull
  }

  /** The record the timer callback sends: the element record of that moment, with
      the event type and the remembered value. */
  function InputPayload(info: Payload, value: Json): Payload {
    info.(eventType := Some(JStr("input")), value := Some(value))
  }

  /** A running debounce timer: the selector and the element its callback captured. */
  datatype Armed = Armed(selector: string, target: Path)

  /** The listeners of one document, as the source writes them: a single debounce
      timer shared by all fields. */
  class Listeners {
    /** `window.__testcaseer_events_injected` */
    var injected: bool
    /** How many times the listeners were attached to this document. */
    var installs: nat
    /** The live debounce timer. */
    var timer: Option<Armed>
    var lastInputValue: map<string, Json>
    /** Callbacks that have sent their event and wait for the host, by selector. */
    var sending: seq<string>

    predicate Valid()
      reads this
    {
      && installs == (if injected then 1 else 0)
      && (!injected ==> timer.None? && lastInputValue == map[] && sending == [])
    }

    /** A fresh document: nothing injected. */
    constructor()
      ensures Valid() && !injected && installs == 0
      ensures timer.None? && lastInputValue == map[] && sending == []
    {
      injected := false;
      installs := 0;
      timer := None;
      lastInputValue := map[];
      sending := [];
    }

    /** Running the script on the document: a second run returns at once, so the
        listeners are attached at most once per document. */
    method Inject()
      requires Valid()
      modifies this
      ensures Valid() && injected && installs == 1
      ensures old(injected) ==>
        installs == old(installs) && timer == old(timer) && lastInputValue == old(lastInputValue) && sending == old(sending)
      ensures !old(injected) ==> timer.None? && lastInputValue == map[] && sending == []
    {
      if injected {
        return;
      }
      injected := true;
      installs := installs + 1;
      timer := None;
      lastInputValue := map[];
      sending := [];
    }

    /** Navigation replaces the document, and with it the flag and the listeners. */
    method Navigate()
      modifies this
      ensures Valid() && !injected && installs == 0
      ensures timer.None? && lastInputValue == map[] && sending == []
    {
      injected := false;
      installs := 0;
      timer := None;
      lastInputValue := map[];
      sending := [];
    }

    /** The input listener: computes the field's selector, remembers the value under
        it and restarts the one timer for that field, cancelling any other field's
        timer.  When getCssSelector throws, the listener ends before it touches the
        timer or the values. */
    method OnInput(d: Doc, b: Browser, p: Path)
      requires Valid() && ValidPath(d.root, p)
      modifies this
      ensures Valid() && injected == old(injected) && installs == old(installs) && sending == old(sending)
      ensures !old(injected) || InPanel(d.root, p) || CssSelectorAsWritten(d, b, p).Failure? ==>
        timer == old(timer) && lastInputValue == old(lastInputValue)
      ensures old(injected) && !InPanel(d.root, p) && CssSelectorAsWritten(d, b, p).Success? ==>
        var sel := CssSelector(d, b, p);
        timer == Some(Armed(sel, p)) && lastInputValue == old(lastInputValue)[sel := ValueJson(At(d.root, p).props.value)]
    {
      if !injected || InPanel(d.root, p) {
        return;
      }
      var selector := CssSelectorAsWritten(d, b, p);
      if selector.Failure? {
        return;
      }
      AsWrittenAgrees(d, b, p);
      var sel := selector.value;
      lastInputValue := lastInputValue[sel := ValueJson(At(d.root, p).props.value)];
      timer := Some(Armed(sel, p));
    }

    /** The live timer elapses while the page is `d`.  The callback takes the record
        of its own element, sends it with the value remembered under its selector, and
        waits for the host before it forgets the value; when getElementInfo throws,
        it sends nothing and forgets nothing. */
    method Fire(d: Doc, b: Browser) returns (sent: Option<Payload>)
      requires Valid() && (timer.Some? ==> ValidPath(d.root, timer.value.target))
      modifies this
      ensures Valid() && injected == old(injected) && installs == old(installs)
      ensures lastInputValue == old(lastInputValue) && timer.None?
      ensures old(timer).None? || CssSelectorAsWritten(d, b, old(timer).value.target).Failure? ==>
        sent.None? && sending == old(sending)
      ensures old(timer).Some? && CssSelectorAsWritten(d, b, old(timer).value.target).Success? ==>
        var a := old(timer).value;
        && sent == Some(InputPayload(ElementPayload(d, b, a.target), Lookup(old(lastInputValue), a.selector)))
        && sending == old(sending) + [a.selector]
    {
      match timer
      case None =>
        sent := None;
      case Some(a) =>
        timer := None;
        var info := ElementRecord(d, b, a.target);
        if info.Failure? {
          sent := None;
        } else {
          sent := Some(InputPayload(info.value, Lookup(lastInputValue, a.selector)));
          sending := sending + [a.selector];
        }
    }

    /** The host has answered the i-th sent event: its callback deletes the value
        under its selector, whatever was typed there since. */
    method Settle(i: nat)
      requires Valid() && i < |sending|
      modifies this
      ensures Valid() && injected == old(injected) && installs == old(installs) && timer == old(timer)
      ensures lastInputValue == old(lastInputValue) - {old(sending)[i]}
      ensures sending == old(sending)[..i] + old(sending)[i + 1..]
    {
      lastInputValue := lastInputValue - {sending[i]};
      sending := sending[..i] + sending[i + 1..];
    }
  }

  /** Typing into field A and then, within the delay, into field B sends only B's
      event: A's value stays behind with no timer left to send it. */
  method SharedTimerDropsFirstField(d: Doc, b: Browser, pa: Path, pb: Path)
    returns (sent: Option<Payload>, stranded: map<string, Json>, timerLeft: bool)
    requires ValidPath(d.root, pa) && ValidPath(d.root, pb)
    requires !InPanel(d.root, pa) && !InPanel(d.root, pb)
    requires CssSelectorAsWritten(d, b, pa).Success? && CssSelectorAsWritten(d, b, pb).Success?
    requires CssSelector(d, b, pa) != CssSelector(d, b, pb)
    ensures sent == Some(InputPayload(ElementPayload(d, b, pb), ValueJson(At(d.root, pb).props.value)))
    ensures CssSelector(d, b, pa) in stranded && !timerLeft
  {
    var page := new Listeners();
    page.Inject();
    page.OnInput(d, b, pa);
    page.OnInput(d, b, pb);
    sent := page.Fire(d, b);
    stranded := page.lastInputValue;
    timerLeft := page.timer.Some?;
  }

  /** Typing again into a field while its previous event is still with the host: the
      host's answer deletes the new value, and the next event carries no value. */
  method RetypedValueIsDeleted(d1: Doc, d2: Doc, b: Browser, p: Path)
    returns (first: Option<Payload>, second: Option<Payload>)
    requires ValidPath(d1.root, p) && ValidPath(d2.root, p)
    requires !InPanel(d1.root, p) && !InPanel(d2.root, p)
    requires CssSelectorAsWritten(d1, b, p).Success? && CssSelectorAsWritten(d2, b, p).Success?
    requires CssSelector(d1, b, p) == CssSelector(d2, b, p)
    ensures first == Some(InputPayload(ElementPayload(d1, b, p), ValueJson(At(d1.root, p).props.value)))
    ensures second == Some(InputPayload(ElementPayload(d2, b, p), JNull))
  {
    var page := new Listeners();
    page.Inject();
    page.OnInput(d1, b, p);
    first := page.Fire(d1, b);
    page.OnInput(d2, b, p);
    page.Settle(0);
    second := page.Fire(d2, b);
  }

  /** The debounce with one timer per field, taking the value out when the timer fires
      rather than after the host answers, on the corrected (never throwing) selector. */
  class FieldDebouncer {
    /** The fields whose own timer is running, with the element each captured. */
    var timers: map<string, Path>
    var lastInputValue: map<string, Json>

    /** Every running timer has a value to send. */
    predicate Valid()
      reads this
    {
      timers.Keys <= lastInputValue.Keys
    }

    constructor()
      ensures Valid() && timers == map[] && lastInputValue == map[]
    {
      timers := map[];
      lastInputValue := map[];
    }

    method OnInput(d: Doc, b: Browser, p: Path)
      requires Valid() && ValidPath(d.root, p)
      modifies this
      ensures Valid()
      ensures InPanel(d.root, p) ==> timers == old(timers) && lastInputValue == old(lastInputValue)
      ensures !InPanel(d.root, p) ==>
        var sel := CssSelector(d, b, p);
        timers == old(timers)[sel := p] && lastInputValue == old(lastInputValue)[sel := ValueJson(At(d.root, p).props.value)]
    {
      if InPanel(d.root, p) {
        return;
      }
      var sel := CssSelector(d, b, p);
      lastInputValue := lastInputValue[sel := ValueJson(At(d.root, p).props.value)];
      timers := timers[sel := p];
    }

    /** The timer of field `sel` elapses while the page is `d`: it sends the record of
        its element with that field's latest value. */
    method Fire(sel: string, d: Doc, b: Browser) returns (sent: Payload)
      requires Valid() && sel in timers && ValidPath(d.root, timers[sel])
      modifies this
      ensures Valid()
      ensures sent == InputPayload(ElementPayload(d, b, old(timers)[sel]), old(lastInputValue)[sel])
      ensures timers == old(timers) - {sel} && lastInputValue == old(lastInputValue) - {sel}
    {
      sent := InputPayload(ElementPayload(d, b, timers[sel]), lastInputValue[sel]);
      lastInputValue := lastInputValue - {sel};
      timers := timers - {sel};
    }
  }

  /** With a timer per field, typing into A and then B sends both values. */
  method PerFieldTimersSendBoth(d: Doc, b: Browser, pa: Path, pb: Path)
    returns (sentA: Payload, sentB: Payload)
    requires ValidPath(d.root, pa) && ValidPath(d.root, pb)
    requires !InPanel(d.root, pa) && !InPanel(d.root, pb)
    requires CssSelector(d, b, pa) != CssSelector(d, b, pb)
    ensures sentA == InputPayload(ElementPayload(d, b, pa), ValueJson(At(d.root, pa).props.value))
    ensures sentB == InputPayload(ElementPayload(d, b, pb), ValueJson(At(d.root, pb).props.value))
  {
    var deb := new FieldDebouncer();
    deb.OnInput(d, b, pa);
    deb.OnInput(d, b, pb);
    sentB := deb.Fire(CssSelector(d, b, pb), d, b);
    sentA := deb.Fire(CssSelector(d, b, pa), d, b);
  }

  /** With the value taken out at firing time, typing again after an event was sent
      sends the new value. */
  method RetypedValueIsSent(d1: Doc, d2: Doc, b: Browser, p: Path)
    returns (first: Payload, second: Payload)
    requires ValidPath(d1.root, p) && ValidPath(d2.root, p)
    requires !InPanel(d1.root, p) && !InPanel(d2.root, p)
    requires CssSelector(d1, b, p) == CssSelector(d2, b, p)
    ensures first == InputPayload(ElementPayload(d1, b, p), ValueJson(At(d1.root, p).props.value))
    ensures second == InputPayload(ElementPayload(d2, b, p), ValueJson(At(d2.root, p).props.value))
  {
    var deb := new FieldDebouncer();
    deb.OnInput(d1, b, p);
    first := deb.Fire(CssSelector(d1, b, p), d1, b);
    deb.OnInput(d2, b, p);
    second := deb.Fire(CssSelector(d2, b, p), d2, b);
  }
}
