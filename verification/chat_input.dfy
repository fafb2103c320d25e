/**
 * The message box (src/components/Chat/ChatInput.tsx): a draft that is handed to
 * the send callback and cleared when it is not blank and no reply is pending.
 */
module ChatInput {
  import opened Wrappers
  import opened Text

  /** Whether submitting sends: the draft has a non-blank character and nothing is loading. */
  predicate CanSend(draft: string, isLoading: bool) {
    Trim(draft) != [] && !isLoading
  }

  class ChatInput {
    /** The draft `message`. */
    var message: string

    constructor ()
      ensures message == ""
    {
      message := "";
    }

    /** Typing replaces the draft. */
    method OnChange(value: string)
      modifies this
      ensures message == value
    {
      message := value;
    }

    /**
     * `handleSubmit`: sends the draft exactly as typed, untrimmed, and clears it
     * when it is not all whitespace and nothing is loading; otherwise sends
     * nothing and keeps the draft.
     */
    method HandleSubmit(isLoading: bool) returns (sent: Option<string>)
      modifies this
      ensures CanSend(old(message), isLoading) ==> sent == Some(old(message)) && message == ""
      ensures !CanSend(old(message), isLoading) ==> sent == None && message == old(message)
      ensures sent.Some? ==> !AllWhitespace(sent.value)
    {
      if Trim(message) != [] && !isLoading {
        sent := Some(message);
        message := "";
      } else {
        sent := None;
      }
    }

    /** `handleKeyDown`: Enter without Shift submits; any other key, or Shift+Enter, does nothing here. */
    method HandleKeyDown(key: string, shiftKey: bool, isLoading: bool) returns (sent: Option<string>)
      modifies this
      ensures key == "Enter" && !shiftKey && CanSend(old(message), isLoading) ==>
        sent == Some(old(message)) && message == ""
      ensures !(key == "Enter" && !shiftKey && CanSend(old(message), isLoading)) ==>
        sent == None && message == old(message)
    {
      if key == "Enter" && !shiftKey {
        sent := HandleSubmit(isLoading);
      } else {
        sent := None;
      }
    }
  }
}
