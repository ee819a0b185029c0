/** The composer's pure rules: Enter submits, the send button's state and
    the textarea's height clamp. */
module ChatInput {
  import opened JsString

  /** The textarea never grows beyond this many pixels. */
  const MaxHeight: nat := 120

  datatype KeyOutcome = KeyOutcome(preventDefault: bool, submit: bool)

  /** What the composer renders besides the text itself. */
  datatype Controls = Controls(
    textareaDisabled: bool, attachDisabled: bool, micDisabled: bool,
    sendDisabled: bool, sendActive: bool, height: nat)

  /** `handleKeyDown`: Enter without Shift always prevents the default
      newline, and submits only a value that is not blank after trimming,
      and only when the composer is enabled. */
  function HandleKeyDown(key: string, shiftKey: bool, value: string, disabled: bool): (r: KeyOutcome)
    ensures r.preventDefault <==> key == "Enter" && !shiftKey
    ensures r.submit <==> key == "Enter" && !shiftKey && !Blank(value) && !disabled
    ensures r.submit ==> r.preventDefault
  {
    if key == "Enter" && !shiftKey then
      KeyOutcome(true, Trim(value) != [] && !disabled)
    else
      KeyOutcome(false, false)
  }

  /** The height the resize effect writes: the content height, clamped. */
  function ClampHeight(scrollHeight: nat): (h: nat)
    ensures h <= MaxHeight && h <= scrollHeight
    ensures h == scrollHeight || h == MaxHeight
  {
    if scrollHeight < MaxHeight then scrollHeight else MaxHeight
  }

  /** The send button is disabled exactly when the trimmed value is empty or
      the composer is disabled, and styled active exactly when it is not;
      the textarea and both auxiliary buttons follow `disabled`. */
  function Render(value: string, disabled: bool, scrollHeight: nat): (r: Controls)
    ensures r.sendDisabled <==> Blank(value) || disabled
    ensures r.sendActive <==> !r.sendDisabled
    ensures r.textareaDisabled == disabled && r.attachDisabled == disabled && r.micDisabled == disabled
    ensures r.height == ClampHeight(scrollHeight)
  {
    var empty := Trim(value) == [];
    Controls(disabled, disabled, disabled, empty || disabled, !empty && !disabled, ClampHeight(scrollHeight))
  }

  /** Pressing Enter submits exactly when the send button is enabled. */
  lemma EnterMatchesSendButton(value: string, disabled: bool, scrollHeight: nat)
    ensures HandleKeyDown("Enter", false, value, disabled).submit == !Render(value, disabled, scrollHeight).sendDisabled
  {
  }
}
