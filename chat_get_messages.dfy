/** `ChatHandler.ListMessages`: the ownership gate, then the messages of the
    chat in `created_at ASC` order, skipping rows that fail to scan. */
module ChatGetMessages {
  import opened Wrappers
  import opened Http
  import opened Models
  import opened Rows
  import opened Db

  /** `ownership` is the outcome of the EXISTS query and `rows` that of the
      messages query (each row `None` when its scan failed). */
  method ListMessages(userID: string, chatID: string, ownership: Result<bool, string>,
                      rows: Result<seq<Option<Message>>, string>)
    returns (h: Handled<seq<Message>>)
    ensures ownership.Failure? ==>
              h == Handled([ChatOwnedBy(chatID, userID)], Fail(StatusInternalServerError, "db error"))
    ensures ownership == Success(false) ==>
              h == Handled([ChatOwnedBy(chatID, userID)], Fail(StatusNotFound, "chat not found"))
    ensures ownership == Success(true) ==>
              h.issued == [ChatOwnedBy(chatID, userID), MessagesOf(chatID)]
    ensures ownership == Success(true) && rows.Failure? ==>
              h.reply == Fail(StatusInternalServerError, "db error")
    ensures ownership == Success(true) && rows.Success? ==>
              h.reply == Reply(StatusOK, Json(Scanned(rows.value)))
  {
    var issued := [ChatOwnedBy(chatID, userID)];
    if ownership.Failure? {
      return Handled(issued, Fail(StatusInternalServerError, "db error"));
    }
    if !ownership.value {
      return Handled(issued, Fail(StatusNotFound, "chat not found"));
    }

    issued := issued + [MessagesOf(chatID)];
    if rows.Failure? {
      return Handled(issued, Fail(StatusInternalServerError, "db error"));
    }

    var rs := rows.value;
    var messages: seq<Message> := [];
    var i := 0;
    while i < |rs|
      invariant 0 <= i <= |rs|
      invariant messages == Scanned(rs[..i])
    {
      ScannedStep(rs, i);
      if rs[i].Some? {
        messages := messages + [rs[i].value];
      }
      i := i + 1;
    }
    assert rs[..|rs|] == rs;
    return Handled(issued, Reply(StatusOK, Json(messages)));
  }
}
