/** `ChatHandler.DeleteChat`: an owner-scoped DELETE whose rows-affected count
    decides between 404 and 200. */
module ChatDeleteChat {
  import opened Wrappers
  import opened Http
  import opened Db

  /** What `DB.Exec` and then `result.RowsAffected()` return. */
  datatype ExecOutcome = ExecFailed(detail: string) | Executed(rowsAffected: Result<nat, string>)

  function DeleteChat(userID: string, chatID: string, exec: ExecOutcome): (h: Handled<string>)
    ensures h.issued == [DeleteOwnedChat(chatID, userID)]
    ensures exec.ExecFailed? ==> h.reply == FailWith(StatusInternalServerError, "db error", exec.detail)
    ensures exec.Executed? && exec.rowsAffected.Failure? ==>
              h.reply == FailWith(StatusInternalServerError, "db error", exec.rowsAffected.error)
    ensures exec == Executed(Success(0)) ==> h.reply == Fail(StatusNotFound, "Chat not found")
    ensures h.reply.status == StatusOK <==> exec.Executed? && exec.rowsAffected.Success? && exec.rowsAffected.value > 0
    ensures h.reply.status == StatusOK ==> h.reply == Reply(StatusOK, Json("Chat deleted"))
  {
    var issued := [DeleteOwnedChat(chatID, userID)];
    match exec
    case ExecFailed(e) => Handled(issued, FailWith(StatusInternalServerError, "db error", e))
    case Executed(Failure(e)) => Handled(issued, FailWith(StatusInternalServerError, "db error", e))
    case Executed(Success(n)) =>
      if n == 0 then Handled(issued, Fail(StatusNotFound, "Chat not found"))
      else Handled(issued, Reply(StatusOK, Json("Chat deleted")))
  }

  /** Against a `chats` table: the delete succeeds exactly when the caller owns
      the chat, removes only the caller's row, and leaves another user's chat
      in place with a 404. */
  lemma OnlyOwnerDeletes(table: seq<ChatRow>, userID: string, chatID: string)
    ensures var (remaining, affected) := DeleteOwned(table, chatID, userID);
            var h := DeleteChat(userID, chatID, Executed(Success(affected)));
            && (h.reply.status == StatusOK <==> OwnsChat(table, chatID, userID))
            && (h.reply.status == StatusNotFound <==> !OwnsChat(table, chatID, userID))
            && (!OwnsChat(table, chatID, userID) ==> remaining == table)
            && (forall row :: row in table && !Owned(row, chatID, userID) ==> row in remaining)
  {
  }
}
