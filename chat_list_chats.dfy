/** `ChatHandler.ListChats`: the caller's chats in query order, or a 500 as
    soon as one row fails to scan. */
module ChatListChats {
  import opened Wrappers
  import opened Http
  import opened Models
  import opened Rows
  import opened Db

  /** `rows` is the outcome of the per-user chats query (each row `None` when
      its scan failed). */
  method ListChats(userID: string, rows: Result<seq<Option<Chat>>, string>)
    returns (h: Handled<ChatListResponse>)
    ensures h.issued == [ChatsOf(userID)]
    ensures rows.Failure? ==> h.reply == Fail(StatusInternalServerError, "db error")
    ensures rows.Success? && !AllScan(rows.value) ==> h.reply == Fail(StatusInternalServerError, "scan error")
    ensures rows.Success? && AllScan(rows.value) ==>
              && h.reply.status == StatusOK && h.reply.body.Json?
              && var chats := h.reply.body.value.chats;
                 && |chats| == |rows.value|
                 && forall i :: 0 <= i < |chats| ==> Some(chats[i]) == rows.value[i]
  {
    var issued := [ChatsOf(userID)];
    if rows.Failure? {
      return Handled(issued, Fail(StatusInternalServerError, "db error"));
    }

    var rs := rows.value;
    var chats: seq<Chat> := [];
    var i := 0;
    while i < |rs|
      invariant 0 <= i <= |rs|
      invariant AllScan(rs[..i])
      invariant chats == Scanned(rs[..i])
    {
      if rs[i].None? {
        return Handled(issued, Fail(StatusInternalServerError, "scan error"));
      }
      ScannedStep(rs, i);
      chats := chats + [rs[i].value];
      i := i + 1;
    }
    assert rs[..|rs|] == rs;
    ScannedWhenAllScan(rs);
    return Handled(issued, Reply(StatusOK, Json(ChatListResponse(chats))));
  }

  /** When the store answers the per-user query and every row scans, the
      reply holds exactly the caller's chats and no one else's. */
  lemma OnlyOwnChatsListed(table: seq<ChatRow>, userID: string, chats: seq<Chat>)
    requires chats == UserChats(table, userID)
    ensures Scanned(AllScanned(chats)) == chats
    ensures forall c :: c in chats <==>
              exists row :: row in table && row.userID == userID && c == Chat(row.id, row.title, row.createdAt)
  {
    ScannedAll(chats);
  }
}
