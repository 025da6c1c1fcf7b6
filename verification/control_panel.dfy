/** The values the host writes into the control panel after each change of state
    (control_panel.py get_update_ui_script): the recording marker, the status text,
    which of the two buttons is shown, the step counter and the message line. */
module ControlPanel {
  import opened Strings

  datatype PanelView = PanelView(
    panelClass: string,
    statusClass: string,
    statusText: string,
    startDisplay: string,
    stopDisplay: string,
    stepsText: string,
    messageDisplay: string,
    message: string)

  const Hidden: string := "none"

  /** The panel for a recording state, a step count and an optional message. */
  function UpdateView(isRecording: bool, stepsCount: int, message: string): (v: PanelView)
    ensures v.panelClass == v.statusClass && (v.panelClass == "recording" <==> isRecording)
    ensures !isRecording ==> v.panelClass == ""
    ensures v.statusText == (if isRecording then "Recording..." else "Ready")
    ensures v.startDisplay == Hidden <==> isRecording
    ensures v.stopDisplay == Hidden <==> !isRecording
    ensures v.startDisplay != Hidden ==> v.startDisplay == "inline-flex"
    ensures v.stopDisplay != Hidden ==> v.stopDisplay == "inline-flex"
    ensures v.stepsText == "" <==> stepsCount <= 0
    ensures stepsCount > 0 ==> v.stepsText == Dec(stepsCount) + " steps"
    ensures v.messageDisplay == Hidden <==> message == ""
    ensures message != "" ==> v.messageDisplay == "inline"
    ensures v.message == message
  {
    var cls := if isRecording then "recording" else "";
    PanelView(
      cls,
      cls,
      if isRecording then "Recording..." else "Ready",
      if isRecording then Hidden else "inline-flex",
      if isRecording then "inline-flex" else Hidden,
      if stepsCount > 0 then IntStr(stepsCount) + " steps" else "",
      if message != "" then "inline" else Hidden,
      message)
  }

  /** Exactly one of the start and stop buttons is visible, and it is the one that
      changes the current state. */
  lemma ExactlyOneButton(isRecording: bool, stepsCount: int, message: string)
    ensures var v := UpdateView(isRecording, stepsCount, message);
      (v.startDisplay == Hidden) != (v.stopDisplay == Hidden)
  {
  }

  /** The counter shows the number of steps itself: reading its digits back gives the
      count. */
  lemma StepsTextReadsBack(isRecording: bool, stepsCount: int, message: string)
    requires stepsCount > 0
    ensures var t := UpdateView(isRecording, stepsCount, message).stepsText;
      && |t| > 6 && t[|t| - 6..] == " steps"
      && AllDigits(t[..|t| - 6]) && DecValue(t[..|t| - 6]) == stepsCount
  {
    var t := UpdateView(isRecording, stepsCount, message).stepsText;
    var d := Dec(stepsCount);
    assert t == d + " steps";
    assert t[..|t| - 6] == d;
    DecRoundTrip(stepsCount);
  }
}
