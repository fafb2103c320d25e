/**
 * The chat controller (src/components/Chat/ChatContainer.tsx): the transcript
 * with its loading and error flags, the key form's draft and whether a key is
 * set. A send is two state updates around the completion call, whose outcome is
 * an input here.
 */
module ChatContainer {
  import opened Wrappers
  import opened Types
  import opened Text
  import opened OpenAI

  /** The `chatState` record, replaced as a whole by every update. */
  datatype ChatState = ChatState(messages: seq<Message>, isLoading: bool, error: Option<string>)

  /** The update queued when a send starts: append the user message, show loading. */
  function AppendUser(prev: ChatState, user: Message): (r: ChatState)
    ensures |r.messages| == |prev.messages| + 1
    ensures r.messages[..|prev.messages|] == prev.messages && r.messages[|prev.messages|] == user
    ensures r.isLoading && r.error == prev.error
  {
    prev.(messages := prev.messages + [user], isLoading := true)
  }

  /** The update queued on success, as written: it appends the user message a second time. */
  function AppendReply(prev: ChatState, user: Message, assistant: Message): (r: ChatState)
    ensures |r.messages| == |prev.messages| + 2
    ensures r.messages[..|prev.messages|] == prev.messages
    ensures r.messages[|prev.messages|] == user && r.messages[|prev.messages| + 1] == assistant
    ensures !r.isLoading && r.error == prev.error
  {
    prev.(messages := prev.messages + [user, assistant], isLoading := false)
  }

  /** The update queued on failure: stop loading and record the error's message. */
  function RecordFailure(prev: ChatState, message: string): (r: ChatState)
    ensures r.messages == prev.messages
    ensures !r.isLoading && r.error == Some(message)
  {
    prev.(isLoading := false, error := Some(message))
  }

  /** The update the success path evidently means: append only the reply. */
  function AppendReplyIntended(prev: ChatState, assistant: Message): ChatState {
    prev.(messages := prev.messages + [assistant], isLoading := false)
  }

  /**
   * As written, a successful send leaves the user message twice on screen, so the
   * conversation shown is not the transcript that was sent followed by the reply.
   */
  lemma SuccessDuplicatesUserMessage(s: ChatState, user: Message, assistant: Message)
    ensures var shown := AppendReply(AppendUser(s, user), user, assistant).messages;
      && shown == s.messages + [user, user, assistant]
      && multiset(shown)[user] == multiset(s.messages)[user] + 2 + (if assistant == user then 1 else 0)
      && shown != (s.messages + [user]) + [assistant]
  {
    var shown := AppendReply(AppendUser(s, user), user, assistant).messages;
    assert |shown| == |s.messages| + 3;
  }

  /**
   * With the intended update, the conversation shown after a success is exactly
   * the transcript sent to the completion followed by the reply.
   */
  lemma IntendedSuccessShowsTranscript(s: ChatState, user: Message, assistant: Message)
    ensures var transcript := s.messages + [user];
      && AppendReplyIntended(AppendUser(s, user), assistant).messages == transcript + [assistant]
      && !AppendReplyIntended(AppendUser(s, user), assistant).isLoading
      && AppendReplyIntended(AppendUser(s, user), assistant).error == s.error
  {
  }

  class ChatController {
    /** The global key slot the component reads at start and writes on submit. */
    const keys: KeyStore
    var chatState: ChatState
    /** The key form's draft. */
    var apiKey: string
    var isApiKeySet: bool

    /** The first render: the welcome message alone, idle, no error, and the key flags from the slot. */
    constructor (keys: KeyStore, welcomeId: string, welcomeAt: int)
      ensures this.keys == keys
      ensures chatState == ChatState([Welcome(welcomeId, welcomeAt)], false, None)
      ensures apiKey == keys.Current()
      ensures isApiKeySet <==> keys.Current() != ""
    {
      this.keys := keys;
      chatState := ChatState([Welcome(welcomeId, welcomeAt)], false, None);
      apiKey := keys.Current();
      isApiKeySet := keys.Current() != "";
    }

    /**
     * The first half of `handleSendMessage`. Without a key nothing changes and
     * nothing is sent. Otherwise the user message is appended, loading starts,
     * and the transcript handed to the completion is the messages before the send
     * followed by the user message.
     */
    method BeginSend(content: string, userId: string, sentAt: int) returns (transcript: Option<seq<Message>>)
      modifies this`chatState
      ensures !isApiKeySet ==> transcript == None && chatState == old(chatState)
      ensures isApiKeySet ==>
        var user := Message(userId, content, User, sentAt);
        && chatState.messages == old(chatState.messages) + [user]
        && chatState.isLoading
        && chatState.error == old(chatState.error)
        && transcript == Some(old(chatState.messages) + [user])
    {
      if !isApiKeySet {
        return None;
      }
      var user := Message(userId, content, User, sentAt);
      var before := chatState.messages;
      chatState := AppendUser(chatState, user);
      transcript := Some(before + [user]);
    }

    /**
     * The second half of `handleSendMessage`, once the completion settles. On
     * success the user message and the reply are appended to the current list
     * (which already ends with that user message) and a previous error is kept;
     * on failure the list is kept and the error recorded. Loading stops either way.
     */
    method FinishSend(user: Message, outcome: Result<string, string>, assistantId: string, repliedAt: int)
      modifies this`chatState
      ensures outcome.Success? ==>
        && chatState.messages == old(chatState.messages) + [user, Message(assistantId, outcome.value, Assistant, repliedAt)]
        && !chatState.isLoading
        && chatState.error == old(chatState.error)
      ensures outcome.Failure? ==>
        && chatState.messages == old(chatState.messages)
        && !chatState.isLoading
        && chatState.error == Some(outcome.error)
    {
      match outcome
      case Success(reply) =>
        chatState := AppendReply(chatState, user, Message(assistantId, reply, Assistant, repliedAt));
      case Failure(message) =>
        chatState := RecordFailure(chatState, message);
    }

    /**
     * `handleSendMessage` from start to finish when no other update comes in
     * between. With a key, success leaves the old messages followed by the user
     * message twice and the reply; failure leaves the old messages and the user
     * message, with the error recorded. Without a key nothing changes.
     */
    method HandleSendMessage(content: string, userId: string, sentAt: int,
                             outcome: Result<string, string>, assistantId: string, repliedAt: int)
      returns (transcript: Option<seq<Message>>)
      modifies this`chatState
      ensures !isApiKeySet ==> transcript == None && chatState == old(chatState)
      ensures isApiKeySet ==>
        var user := Message(userId, content, User, sentAt);
        && transcript == Some(old(chatState.messages) + [user])
        && !chatState.isLoading
        && (outcome.Success? ==>
              && chatState.messages == old(chatState.messages) + [user, user, Message(assistantId, outcome.value, Assistant, repliedAt)]
              && chatState.error == old(chatState.error))
        && (outcome.Failure? ==>
              && chatState.messages == old(chatState.messages) + [user]
              && chatState.error == Some(outcome.error))
    {
      transcript := BeginSend(content, userId, sentAt);
      if transcript.Some? {
        FinishSend(Message(userId, content, User, sentAt), outcome, assistantId, repliedAt);
      }
    }

    /** Typing in the key form. */
    method EditApiKey(value: string)
      modifies this`apiKey
      ensures apiKey == value
    {
      apiKey := value;
    }

    /**
     * `handleApiKeySubmit`: a draft that is blank after trimming changes nothing;
     * otherwise the trimmed draft is stored in the key slot and the key counts as set.
     */
    method HandleApiKeySubmit()
      modifies this`isApiKeySet, keys
      ensures Trim(apiKey) == [] ==> isApiKeySet == old(isApiKeySet) && keys.windowKey == old(keys.windowKey)
      ensures Trim(apiKey) != [] ==> isApiKeySet && keys.windowKey == Some(Trim(apiKey))
    {
      var trimmed := Trim(apiKey);
      if trimmed != [] {
        keys.SetOpenAIKey(trimmed);
        isApiKeySet := true;
      }
    }
  }
}
