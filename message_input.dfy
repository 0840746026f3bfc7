/**
 * The message box (src/components/MessageInput.js): a text buffer, a
 * submit that passes the trimmed text on unless it is blank or input is
 * disabled, Enter-to-send, and the send button's enable condition.
 */
module MessageInputComponent {

  import opened Wrappers
  import opened JsText

  /**
   * What a submit of `buffer` passes to `onSendMessage`, if anything: the
   * trimmed buffer, only when it is not blank and input is enabled.
   */
  function SubmitResult(buffer: string, disabled: bool): (sent: Option<string>)
    ensures sent.Some? <==> !IsBlank(buffer) && !disabled
    ensures sent.Some? ==> sent.value == Trim(buffer) && !IsBlank(sent.value) && IsTrimmed(sent.value)
  {
    if Trim(buffer) != [] && !disabled then
      TrimIdempotent(buffer);
      Some(Trim(buffer))
    else None
  }

  /** `e.key === 'Enter' && !e.shiftKey`. */
  predicate SubmitsOnKey(key: string, shiftKey: bool) {
    key == "Enter" && !shiftKey
  }

  /** `!message.trim() || disabled`: the send button's `disabled` attribute. */
  function SendButtonDisabled(buffer: string, disabled: bool): (off: bool)
    ensures off <==> IsBlank(buffer) || disabled
  {
    Trim(buffer) == [] || disabled
  }

  /** The send button is enabled exactly when a submit would send. */
  lemma SendButtonMatchesSubmit(buffer: string, disabled: bool)
    ensures !SendButtonDisabled(buffer, disabled) <==> SubmitResult(buffer, disabled).Some?
  {
  }

  /** The `MessageInput` component and its text buffer. */
  class MessageInput {
    var message: string

    constructor ()
      ensures message == []
    {
      message := [];
    }

    /** `handleSubmit`; `sent` is the argument of `onSendMessage`, if it was called. */
    method HandleSubmit(disabled: bool) returns (sent: Option<string>)
      modifies this
      ensures sent == SubmitResult(old(message), disabled)
      ensures message == if sent.Some? then [] else old(message)
    {
      sent := None;
      if Trim(message) != [] && !disabled {
        sent := Some(Trim(message));
        message := [];
      }
    }

    /** `handleKeyPress`: Enter without Shift submits; any other key is left to the text box. */
    method HandleKeyPress(key: string, shiftKey: bool, disabled: bool) returns (sent: Option<string>)
      modifies this
      ensures SubmitsOnKey(key, shiftKey) ==>
        sent == SubmitResult(old(message), disabled) && message == (if sent.Some? then [] else old(message))
      ensures !SubmitsOnKey(key, shiftKey) ==> sent == None && message == old(message)
    {
      sent := None;
      if SubmitsOnKey(key, shiftKey) {
        sent := HandleSubmit(disabled);
      }
    }

    /** `handleChange`: the buffer becomes the text box's value. */
    method HandleChange(value: string)
      modifies this
      ensures message == value
    {
      message := value;
    }
  }
}
