/** The chat message record shared by the history loader, the model projection and the store writer. */
module Messages {

  const SystemRole: string := "system"
  const UserRole: string := "user"
  const AssistantRole: string := "assistant"

  /** The instruction put in front of a conversation that has no stored history. */
  const DefaultSystemPrompt: string := "You are a helpful assistant"

  /** The Dgraph type name stamped on every message the handler writes. */
  const ChatMessageType: string := "ChatMessage"

  /** An instant, in nanoseconds since the Unix epoch (UTC). */
  type Timestamp = int

  /** One millisecond, in the unit of Timestamp. */
  const Millisecond: int := 1000000

  /**
   * A message as held in memory and exchanged with Dgraph. `uid` is "" until the
   * store has assigned one, and `dgraphType` is empty on loaded messages.
   */
  datatype DgraphChatMessage = DgraphChatMessage(
    uid: string,
    role: string,
    content: string,
    timestamp: Timestamp,
    dgraphType: seq<string>)
}
