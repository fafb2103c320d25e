/**
 * The completion client (src/services/openai.ts): shapes the transcript into a
 * chat-completion request, interprets the reply, and keeps the user's key in a
 * global slot. The network exchange itself is an input: the reply is a value.
 */
module OpenAI {
  import opened Wrappers
  import opened Types

  /** The module-level key the request guard reads; it is never assigned. */
  const MODULE_KEY := ""

  /** The persona instruction sent ahead of every transcript. */
  const SYSTEM_PROMPT :=
    "\nYou are CoPilot, a compassionate AI therapy assistant specializing in Cognitive Behavioral Therapy (CBT).\n"
    + "Your goal is to help users identify negative thought patterns and develop healthier thinking habits.\n"
    + "\nGuidelines:\n"
    + "- Be supportive, warm, and empathetic in your responses\n"
    + "- Use evidence-based CBT techniques to help users challenge negative thoughts\n"
    + "- Ask thoughtful follow-up questions to encourage reflection\n"
    + "- Provide practical coping strategies and exercises when appropriate\n"
    + "- Keep responses concise and conversational\n"
    + "- Never claim to be a replacement for a licensed therapist\n"
    + "- If a user is in crisis, encourage them to contact a crisis hotline or professional help\n"
    + "\nRemember that your role is to provide support through CBT techniques, not to diagnose or treat clinical conditions.\n"

  const MODEL := "gpt-4o-mini"
  const MAX_TOKENS := 500

  const KEY_NOT_SET := "OpenAI API key is not set"
  const GENERIC_FAILURE := "Failed to get response from OpenAI"
  /** What the engine throws when the reply has no first choice to read a message from. */
  const MISSING_CHOICE := "Cannot read properties of undefined (reading 'message')"

  datatype ApiRole = System | UserRole | AssistantRole

  /** One `{ role, content }` entry of the request. */
  datatype ApiMessage = ApiMessage(role: ApiRole, content: string)

  function ApiRoleOf(role: Role): ApiRole {
    match role
    case User => UserRole
    case Assistant => AssistantRole
  }

  /** The entry a transcript message becomes: its role and content, nothing else. */
  function ToApiMessage(m: Message): ApiMessage {
    ApiMessage(ApiRoleOf(m.role), m.content)
  }

  /** The system entry, then each message's role and content in transcript order. */
  function FormatMessages(messages: seq<Message>): (r: seq<ApiMessage>)
    ensures |r| == |messages| + 1
    ensures r[0] == ApiMessage(System, SYSTEM_PROMPT)
    ensures forall i :: 0 <= i < |messages| ==>
      r[i + 1].role == ApiRoleOf(messages[i].role) && r[i + 1].content == messages[i].content
    ensures forall i :: 1 <= i < |r| ==> r[i].role != System
  {
    [ApiMessage(System, SYSTEM_PROMPT)] + seq(|messages|, i requires 0 <= i < |messages| => ToApiMessage(messages[i]))
  }

  /** Extending the transcript by one message extends the request by that message's entry. */
  lemma FormatMessagesAppend(messages: seq<Message>, m: Message)
    ensures FormatMessages(messages + [m]) == FormatMessages(messages) + [ToApiMessage(m)]
  {
    var a := FormatMessages(messages + [m]);
    var b := FormatMessages(messages) + [ToApiMessage(m)];
    assert |a| == |b|;
    forall i | 0 <= i < |a| ensures a[i] == b[i] {
      if 0 < i <= |messages| {
        assert (messages + [m])[i - 1] == messages[i - 1];
      }
    }
  }

  /** The outbound request; the sampling temperature is not modelled. */
  datatype Request = Request(authorization: string, model: string, messages: seq<ApiMessage>, maxTokens: int)

  function BuildRequest(key: string, messages: seq<Message>): (r: Request)
    ensures r.authorization == "Bearer " + key && r.model == "gpt-4o-mini" && r.maxTokens == 500
    ensures |r.messages| == |messages| + 1 && r.messages[0].role == System
    ensures forall i :: 0 <= i < |messages| ==> r.messages[i + 1].content == messages[i].content
  {
    Request("Bearer " + key, MODEL, FormatMessages(messages), MAX_TOKENS)
  }

  /** What the remote call produced, as the code observes it. */
  datatype Reply =
    | Unreachable(reason: string)           // the request itself was rejected
    | Responded(ok: bool, body: Body)

  /** The response body: unreadable as JSON, or the fields the code reads from it. */
  datatype Body =
    | Unparsable(reason: string)
    | Parsed(errorMessage: Option<string>, choices: seq<string>)

  /**
   * The value or error the reply turns into. Only an ok response with at least one
   * choice succeeds, with the first choice's content; a refused request fails with
   * the remote message when it is non-empty, else with the generic message; every
   * other failure is passed on with its own message.
   */
  function Interpret(reply: Reply): (r: Result<string, string>)
    ensures r.Success? <==> reply.Responded? && reply.ok && reply.body.Parsed? && |reply.body.choices| > 0
    ensures r.Success? ==> r.value == reply.body.choices[0]
    ensures reply.Responded? && !reply.ok && reply.body.Parsed? ==>
      r == Failure(if reply.body.errorMessage.Some? && reply.body.errorMessage.value != ""
                   then reply.body.errorMessage.value else GENERIC_FAILURE)
    ensures reply.Unreachable? ==> r == Failure(reply.reason)
    ensures reply.Responded? && reply.body.Unparsable? ==> r == Failure(reply.body.reason)
  {
    match reply
    case Unreachable(reason) => Failure(reason)
    case Responded(ok, body) =>
      match body
      case Unparsable(reason) => Failure(reason)
      case Parsed(errorMessage, choices) =>
        if !ok then
          Failure(if errorMessage.Some? && errorMessage.value != "" then errorMessage.value else GENERIC_FAILURE)
        else if |choices| == 0 then Failure(MISSING_CHOICE)
        else Success(choices[0])
  }

  /** One call: the request it sends, if any, and what it returns or throws. */
  datatype Exchange = Exchange(sent: Option<Request>, result: Result<string, string>)

  /** The body of `getChatCompletion` with the guard reading `key`. */
  function CompleteWithKey(key: string, messages: seq<Message>, reply: Reply): Exchange {
    if key == "" then Exchange(None, Failure(KEY_NOT_SET))
    else Exchange(Some(BuildRequest(key, messages)), Interpret(reply))
  }

  /**
   * `getChatCompletion` as written: its guard reads the module constant, which is
   * empty, so it throws the missing-key error before sending anything.
   */
  function GetChatCompletion(messages: seq<Message>, reply: Reply): (e: Exchange)
    ensures e.sent == None
    ensures e.result == Failure(KEY_NOT_SET)
  {
    CompleteWithKey(MODULE_KEY, messages, reply)
  }

  /** `getChatCompletion` with its guard and header reading the key the user stored. */
  function GetChatCompletionWithStoredKey(storedKey: string, messages: seq<Message>, reply: Reply): Exchange {
    CompleteWithKey(storedKey, messages, reply)
  }

  /**
   * With a stored key the intended client sends exactly one request (model
   * gpt-4o-mini, the formatted transcript, at most 500 tokens, the key as bearer
   * credential) and returns what the reply means; without one it sends nothing.
   */
  lemma StoredKeyCompletion(storedKey: string, messages: seq<Message>, reply: Reply)
    ensures var e := GetChatCompletionWithStoredKey(storedKey, messages, reply);
      && (storedKey == "" ==> e.sent == None && e.result == Failure(KEY_NOT_SET))
      && (storedKey != "" ==>
            && e.sent.Some?
            && e.sent.value.authorization == "Bearer " + storedKey
            && e.sent.value.model == "gpt-4o-mini"
            && e.sent.value.maxTokens == 500
            && e.sent.value.messages == FormatMessages(messages)
            && e.result == Interpret(reply))
  {
  }

  /** Whatever key the user stored, the client as written fails where the intended one sends. */
  lemma CompletionIgnoresStoredKey(storedKey: string, messages: seq<Message>, reply: Reply)
    requires storedKey != ""
    ensures GetChatCompletion(messages, reply).sent.None?
    ensures GetChatCompletionWithStoredKey(storedKey, messages, reply).sent.Some?
  {
  }

  /** The global key slot (`window.OPENAI_API_KEY`), unset until the user submits a key. */
  class KeyStore {
    var windowKey: Option<string>

    constructor ()
      ensures windowKey == None
    {
      windowKey := None;
    }

    /** What `getOpenAIKey` returns: the stored key, or the empty string when none is set. */
    function Current(): string
      reads this
    {
      windowKey.GetOr("")
    }

    /** `setOpenAIKey`: overwrites the slot; reading it back then yields `key`. */
    method SetOpenAIKey(key: string)
      modifies this
      ensures windowKey == Some(key)
      ensures Current() == key
    {
      windowKey := Some(key);
    }

    /** `getOpenAIKey`: the stored key, or the empty string when nothing was stored. */
    method GetOpenAIKey() returns (key: string)
      ensures windowKey.None? ==> key == ""
      ensures windowKey.Some? ==> key == windowKey.value
    {
      key := windowKey.GetOr("");
    }
  }
}
