/** `ChatHandler.CreateChat`: the title defaults to "New Chat", the chat is
    inserted for the caller, and the reply is 201 or 500 (never 400). */
module ChatCreateChat {
  import opened Wrappers
  import opened Http
  import opened Models
  import opened Db

  const DefaultTitle: string := "New Chat"
  /** `binding:"omitempty,max=120"` on the title. */
  const MaxTitleLength: nat := 120

  /** `ShouldBindJSON` succeeds: the body decoded and a non-empty title has at
      most 120 characters. */
  predicate Binds(body: Option<CreateChatReq>)
  {
    body.Some? && (body.value.title == "" || |body.value.title| <= MaxTitleLength)
  }

  /** The title inserted: the request's own when it binds and is non-empty,
      "New Chat" otherwise. */
  function ResolveTitle(body: Option<CreateChatReq>): (title: string)
    ensures title != "" && |title| <= MaxTitleLength
    ensures Binds(body) && body.value.title != "" ==> title == body.value.title
    ensures !(Binds(body) && body.value.title != "") ==> title == DefaultTitle
  {
    var requested := if Binds(body) then body.value.title else DefaultTitle;
    if requested == "" then DefaultTitle else requested
  }

  /** `body` is the decoded request (`None` when absent or malformed) and
      `insert` the outcome of the INSERT ... RETURNING. */
  function CreateChat(userID: string, body: Option<CreateChatReq>, insert: Result<Chat, string>)
    : (h: Handled<ChatCreateResponse>)
    ensures h.issued == [InsertChat(userID, ResolveTitle(body))]
    ensures h.reply.status == StatusCreated || h.reply.status == StatusInternalServerError
    ensures insert.Failure? ==> h.reply == FailWith(StatusInternalServerError, "db error", insert.error)
    ensures insert.Success? ==> h.reply == Reply(StatusCreated, Json(ChatCreateResponse(insert.value)))
  {
    var issued := [InsertChat(userID, ResolveTitle(body))];
    match insert
    case Failure(e) => Handled(issued, FailWith(StatusInternalServerError, "db error", e))
    case Success(chat) => Handled(issued, Reply(StatusCreated, Json(ChatCreateResponse(chat))))
  }

  /** A title over 120 characters is not rejected: it is replaced. */
  lemma LongTitleReplaced(userID: string, title: string, insert: Result<Chat, string>)
    requires |title| > MaxTitleLength
    ensures CreateChat(userID, Some(CreateChatReq(title)), insert).issued == [InsertChat(userID, DefaultTitle)]
    ensures CreateChat(userID, Some(CreateChatReq(title)), insert).reply.status != StatusBadRequest
  {
  }
}
