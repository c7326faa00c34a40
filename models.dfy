/** The records of internal/models: users, chats, messages and the responses
    built from them, plus the role/content pair sent upstream as context. */
module Models {

  datatype User = User(id: string, firstName: string, lastName: string,
                       email: string, phoneNumber: string, createdAt: string)

  datatype AuthWithTokens = AuthWithTokens(user: User, accessToken: string, refreshToken: string)

  datatype Chat = Chat(id: string, title: string, createdAt: string)

  datatype CreateChatReq = CreateChatReq(title: string)

  datatype ChatCreateResponse = ChatCreateResponse(chat: Chat)

  datatype ChatListResponse = ChatListResponse(chats: seq<Chat>)

  datatype Message = Message(id: string, chatID: string, role: string, content: string, createdAt: string)

  datatype SendMessageReq = SendMessageReq(content: string)

  /** One entry of the prompt context (openai.ChatCompletionMessage). */
  datatype ChatMessage = ChatMessage(role: string, content: string)

  const RoleUser: string := "user"
  const RoleAssistant: string := "assistant"
}
