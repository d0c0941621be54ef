/**
 * The Chat handler: load the session's history, put the new user message after
 * it, project it for the model, and persist the user message and the trimmed
 * reply. The model client, the store and the clock are inputs.
 */
module ChatHandler {
  import opened Wrappers
  import opened Messages
  import opened Strings
  import opened Projection
  import opened History
  import opened Mutations

  datatype ChatResponse = ChatResponse(content: string)

  /** What the model client does this turn: the call that failed, or the text of the first choice. */
  datatype ModelCall =
    | GetModelFailed(error: string)
    | CreateInputFailed(error: string)
    | InvokeFailed(error: string)
    | Replied(text: string)

  /** The three clock readings a turn may take, in the order Chat takes them. */
  datatype Clock = Clock(systemPrompt: Timestamp, user: Timestamp, assistant: Timestamp)

  /** The default instruction, put first in a conversation with no history. */
  function SystemPromptAt(now: Timestamp): (prompt: DgraphChatMessage)
    ensures prompt.timestamp == now
    ensures ToRequestMessage(prompt) == Some(SystemMessage(DefaultSystemPrompt))
  {
    DgraphChatMessage("", SystemRole, DefaultSystemPrompt, now, [])
  }

  /** The user's message as saved: stamped with the reading taken for it, and typed as a ChatMessage. */
  function UserMessageAt(userMessage: string, now: Timestamp): (m: DgraphChatMessage)
    ensures m.timestamp == now && m.dgraphType == [ChatMessageType]
    ensures ToRequestMessage(m) == Some(UserMessage(userMessage))
  {
    DgraphChatMessage("", UserRole, userMessage, now, [ChatMessageType])
  }

  /** The reply as saved: stamped one millisecond after the reading taken for it. */
  function AssistantMessageAt(content: string, now: Timestamp): (m: DgraphChatMessage)
    ensures now < m.timestamp && m.timestamp == now + Millisecond && m.dgraphType == [ChatMessageType]
    ensures ToRequestMessage(m) == Some(AssistantMessage(content))
  {
    DgraphChatMessage("", AssistantRole, content, now + Millisecond, [ChatMessageType])
  }

  /** The history load gives nothing: it failed, or it found no messages. */
  predicate NoHistory(stored: QueryResponse): (none: bool)
    ensures !stored.Decoded? || stored.messages.None? ==> none
    ensures stored.Decoded? && stored.messages.Some? ==>
      (none <==> StableSortByTimestamp(FromRows(stored.messages.value)) == [])
  {
    match stored
    case Decoded(Some(rows)) =>
      StableSortPermutes(FromRows(rows));
      rows == []
    case _ => true
  }

  /**
   * Steps 1 and 2 of Chat: a failed load counts as an empty one, an empty
   * history starts with the default system prompt, and the user message goes last.
   */
  method HistoryForModel(loaded: Result<seq<DgraphChatMessage>>, userMessage: string, clock: Clock)
    returns (history: seq<DgraphChatMessage>, userToSave: DgraphChatMessage)
    ensures userToSave == UserMessageAt(userMessage, clock.user)
    ensures loaded.Err? || loaded.value == [] ==>
      history == [SystemPromptAt(clock.systemPrompt), userToSave]
    ensures loaded.Ok? && loaded.value != [] ==> history == loaded.value + [userToSave]
  {
    var loadedMessages := if loaded.Err? then [] else loaded.value;
    history := [];
    if |loadedMessages| == 0 {
      history := history + [SystemPromptAt(clock.systemPrompt)];
    } else {
      history := loadedMessages;
    }
    userToSave := UserMessageAt(userMessage, clock.user);
    history := history + [userToSave];
  }

  /**
   * Steps 1 to 3 of Chat, once the model client is resolved: load the history,
   * add the user message, and project the result for the model.
   */
  method PrepareModelMessages(sessionID: string, userMessage: string, stored: QueryResponse, clock: Clock)
    returns (modelMessages: seq<RequestMessage>, userToSave: DgraphChatMessage)
    ensures userToSave == UserMessageAt(userMessage, clock.user)
    ensures NoHistory(stored) ==>
      modelMessages == [SystemMessage(DefaultSystemPrompt), UserMessage(userMessage)]
    ensures !NoHistory(stored) ==>
      modelMessages == Projected(StableSortByTimestamp(FromRows(stored.messages.value))) + [UserMessage(userMessage)]
  {
    var loaded := LoadHistory(sessionID, stored);
    var history;
    history, userToSave := HistoryForModel(loaded, userMessage, clock);
    modelMessages := ToModelMessages(history);
    if loaded.Err? || loaded.value == [] {
      FreshConversationProjected(userMessage, clock);
    } else {
      ProjectedAppend(loaded.value, userToSave);
    }
  }

  /** A conversation with no history reaches the model as the default prompt and the user message. */
  lemma FreshConversationProjected(userMessage: string, clock: Clock)
    ensures Projected([SystemPromptAt(clock.systemPrompt), UserMessageAt(userMessage, clock.user)])
      == [SystemMessage(DefaultSystemPrompt), UserMessage(userMessage)]
  {
    var prompt := SystemPromptAt(clock.systemPrompt);
    assert [prompt, UserMessageAt(userMessage, clock.user)] == [prompt] + [UserMessageAt(userMessage, clock.user)];
    assert [prompt] == [] + [prompt];
    ProjectedAppend([], prompt);
    ProjectedAppend([prompt], UserMessageAt(userMessage, clock.user));
  }

  /**
   * Chat. The reply depends on the model call alone; a failing store write is
   * reported in `saveError` and changes nothing else.
   */
  method Chat(sessionID: string, userMessage: string, model: ModelCall, stored: QueryResponse,
              clock: Clock, storeError: Option<string>)
    returns (response: Result<ChatResponse>, modelMessages: seq<RequestMessage>,
             persisted: seq<DgraphChatMessage>, payload: seq<SetObject>, saveError: Option<string>)
    ensures model.GetModelFailed? ==>
      response == Err("error getting model: " + model.error) && modelMessages == []
    ensures model.CreateInputFailed? ==> response == Err("error creating model input: " + model.error)
    ensures model.InvokeFailed? ==> response == Err("error invoking model: " + model.error)
    ensures !model.Replied? ==> persisted == [] && payload == [] && saveError == None
    ensures !model.GetModelFailed? && NoHistory(stored) ==>
      modelMessages == [SystemMessage(DefaultSystemPrompt), UserMessage(userMessage)]
    ensures !model.GetModelFailed? && !NoHistory(stored) ==>
      modelMessages == Projected(StableSortByTimestamp(FromRows(stored.messages.value))) + [UserMessage(userMessage)]
    ensures model.Replied? ==>
      && response == Ok(ChatResponse(TrimSpace(model.text)))
      && persisted == [UserMessageAt(userMessage, clock.user), AssistantMessageAt(response.value.content, clock.assistant)]
      && IsSetPayload(sessionID, persisted, payload)
      && (saveError.Some? <==> storeError.Some?)
    ensures model.Replied? && clock.user <= clock.assistant ==>
      persisted[0].timestamp < persisted[1].timestamp
  {
    modelMessages, persisted, payload, saveError := [], [], [], None;
    if model.GetModelFailed? {
      response := Err("error getting model: " + model.error);
      return;
    }

    var userToSave;
    modelMessages, userToSave := PrepareModelMessages(sessionID, userMessage, stored, clock);

    match model
    case CreateInputFailed(e) =>
      response := Err("error creating model input: " + e);
    case InvokeFailed(e) =>
      response := Err("error invoking model: " + e);
    case Replied(text) =>
      var assistantContent := TrimSpace(text);
      var assistantToSave := AssistantMessageAt(assistantContent, clock.assistant);
      persisted := [userToSave, assistantToSave];
      saveError, payload := SaveNewMessages(sessionID, persisted, storeError);
      response := Ok(ChatResponse(assistantContent));
  }
}
