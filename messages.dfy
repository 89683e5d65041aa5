/** The two records the service stores: messages and conversations. */
module Messages {
  import opened Common

  const UserRole := "user"
  const AssistantRole := "assistant"

  /** One turn of a conversation. The role is free text; the service writes only "user" and "assistant". */
  datatype Message = Message(role: string, content: string, mediaUrl: Option<string>)

  /** A conversation: its id, an optional theme and its messages in chronological order. */
  datatype Conversation = Conversation(id: string, theme: Option<string>, messages: seq<Message>)

  function UserMessage(content: string, mediaUrl: Option<string>): Message {
    Message(UserRole, content, mediaUrl)
  }

  function AssistantMessage(content: string): Message {
    Message(AssistantRole, content, None)
  }
}
