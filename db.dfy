/** The SQL statements the handlers issue, as values (the database itself is an
    outside collaborator: each handler receives the outcome of each statement as
    an input), and the meaning of the two ownership-scoped statements over a
    `chats` table. */
module Db {
  import opened Http
  import opened Models

  /** A handler's result: the statements it issued, in order, and its reply. */
  datatype Handled<T> = Handled(issued: seq<Statement>, reply: Reply<T>)

  datatype Statement =
    | ChatOwnedBy(chatID: string, userID: string)        // SELECT EXISTS (... id = $1 AND user_id = $2)
    | RecentMessages(chatID: string, limit: nat)         // SELECT role, content ... ORDER BY created_at DESC LIMIT
    | MessagesOf(chatID: string)                         // SELECT ... WHERE chat_id = $1 ORDER BY created_at ASC
    | ChatsOf(userID: string)                            // SELECT ... WHERE user_id = $1 ORDER BY created_at DESC
    | InsertChat(userID: string, title: string)
    | DeleteOwnedChat(chatID: string, userID: string)    // DELETE ... WHERE id = $1 AND user_id = $2
    | InsertMessage(chatID: string, role: string, content: string)
    | UserByEmail(email: string)
    | InsertUser(firstName: string, lastName: string, email: string, passwordHash: string, phoneNumber: string)

  /** A row of the `chats` table. */
  datatype ChatRow = ChatRow(id: string, userID: string, title: string, createdAt: string)

  predicate Owned(row: ChatRow, chatID: string, userID: string)
  {
    row.id == chatID && row.userID == userID
  }

  /** What `SELECT EXISTS (SELECT 1 FROM chats WHERE id = $1 AND user_id = $2)` yields. */
  predicate OwnsChat(table: seq<ChatRow>, chatID: string, userID: string)
  {
    exists i :: 0 <= i < |table| && Owned(table[i], chatID, userID)
  }

  /** `DELETE FROM chats WHERE id = $1 AND user_id = $2`: the rows that remain
      and the count `RowsAffected` reports. */
  function DeleteOwned(table: seq<ChatRow>, chatID: string, userID: string): (r: (seq<ChatRow>, nat))
    ensures |r.0| + r.1 == |table|
    ensures forall row :: row in r.0 <==> row in table && !Owned(row, chatID, userID)
    ensures r.1 == 0 <==> !OwnsChat(table, chatID, userID)
    ensures r.1 == 0 ==> r.0 == table
  {
    if table == [] then ([], 0)
    else
      var last := table[|table| - 1];
      var rest := DeleteOwned(table[..|table| - 1], chatID, userID);
      assert table == table[..|table| - 1] + [last];
      if Owned(last, chatID, userID) then (rest.0, rest.1 + 1)
      else (rest.0 + [last], rest.1)
  }

  /** Which chats `SELECT id, title, created_at FROM chats WHERE user_id = $1
      ORDER BY created_at DESC` yields; the result is listed in table order,
      and the query's `created_at DESC` ordering is not modelled. */
  function UserChats(table: seq<ChatRow>, userID: string): (r: seq<Chat>)
    ensures forall c :: c in r ==> exists row :: row in table && row.userID == userID &&
                                                 c == Chat(row.id, row.title, row.createdAt)
    ensures forall row :: row in table && row.userID == userID ==> Chat(row.id, row.title, row.createdAt) in r
  {
    if table == [] then []
    else
      var last := table[|table| - 1];
      assert table == table[..|table| - 1] + [last];
      UserChats(table[..|table| - 1], userID) +
      (if last.userID == userID then [Chat(last.id, last.title, last.createdAt)] else [])
  }
}
