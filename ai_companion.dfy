/** The `AiCompanion` chat: a message log that starts with a greeting, the
    input text and a loading flag, driven by `handleSend`. */
module AiCompanion {
  import opened JsValues

  datatype Role = UserRole | BotRole

  /** `{ role, content }`; `content` is `None` when the reply carried none. */
  datatype Message = Message(role: Role, content: Option<Json>)

  const Greeting := Message(BotRole, Some(Str(
    "Hello! I'm your AI companion. Feel free to share what's on your mind. I'm here to listen without judgment.")))

  const Fallback := Message(BotRole, Some(Str(
    "Sorry, I'm having a little trouble connecting right now. Let's try again in a moment.")))

  /** The bot message appended once `chatWithAi` has settled: its `reply`
      member, or the fixed apology when the call failed. */
  function BotMessage(reply: Outcome<Json>): (m: Message)
    ensures m.role == BotRole
    ensures reply.Resolved? ==> m.content == Field(Some(reply.value), "reply")
    ensures reply.Threw? ==> m == Fallback
  {
    match reply
    case Resolved(data) => Message(BotRole, Field(Some(data), "reply"))
    case Threw(_) => Fallback
  }

  class AiCompanion {
    var messages: seq<Message>
    var input: string
    var loading: bool

    constructor ()
      ensures messages == [Greeting] && input == "" && !loading
    {
      messages, input, loading := [Greeting], "", false;
    }

    /** Typing into the input. */
    method SetInput(value: string)
      modifies this
      ensures input == value && messages == old(messages) && loading == old(loading)
    {
      input := value;
    }

    /** `handleSend`, with `reply` what `chatWithAi(token, input)` produces.
        Returns the text sent (if any) and the toasts. */
    method HandleSend(reply: Outcome<Json>) returns (sent: Option<string>, toasts: seq<Toast>)
      modifies this
      // blank input: nothing at all happens
      ensures IsBlank(old(input)) ==>
        sent == None && toasts == []
        && messages == old(messages) && input == old(input) && loading == old(loading)
      // otherwise exactly two messages are appended and the rest of the log is kept
      ensures !IsBlank(old(input)) ==>
        sent == Some(old(input)) && input == "" && !loading
        && messages == old(messages) + [Message(UserRole, Some(Str(old(input)))), BotMessage(reply)]
      ensures !IsBlank(old(input)) ==>
        toasts == if reply.Threw? then [ErrorToast(Str("AI is not feeling well. Please try again later."))] else []
      ensures |messages| == |old(messages)| + (if IsBlank(old(input)) then 0 else 2)
      ensures messages[..|old(messages)|] == old(messages)
    {
      if IsBlank(input) {
        return None, [];
      }
      var text := input;
      messages := messages + [Message(UserRole, Some(Str(text)))];
      input := "";
      loading := true;
      sent := Some(text);
      toasts := [];
      if reply.Threw? {
        toasts := [ErrorToast(Str("AI is not feeling well. Please try again later."))];
      }
      messages := messages + [BotMessage(reply)];
      loading := false;
    }
  }
}
