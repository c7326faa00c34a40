/** `ChatHandler.SendMessage`: the gate chain in front of the upstream call,
    the prompt context built from the newest-first history query, and the relay
    loop that forwards streamed deltas as server-sent events while accumulating
    the full assistant reply.

    The database, the upstream completion service and the event writer are
    outside collaborators: their outcomes are inputs, and what the handler does
    with them is recorded, in order, as a trace of `Effect`s. */
module ChatSendMessage {
  import opened Wrappers
  import opened Http
  import opened Models
  import opened Rows
  import opened Db

  /** The history window (`LIMIT 20`). */
  const HistoryLimit: nat := 20
  /** The fixed upstream model of the streaming request. */
  const UpstreamModel: string := "gpt-4o-mini"

  /** One delta choice of a streamed chunk. */
  datatype Choice = Choice(deltaContent: string)

  /** What one `stream.Recv()` returns. */
  datatype Received = Chunk(choices: seq<Choice>) | EndOfStream | RecvError(message: string)

  /** One server-sent event written with `c.SSEvent(name, data)`. */
  datatype SseEvent = SseEvent(name: string, data: string)

  datatype Effect =
    | Sql(statement: Statement)
    | OpenStream(model: string, messages: seq<ChatMessage>)
    | Respond(reply: Reply<()>)
    | Emit(event: SseEvent)
    | CloseStream

  function MessageEvent(delta: string): SseEvent { SseEvent("message", delta) }
  function ErrorEvent(message: string): SseEvent { SseEvent("error", message) }
  const DoneEvent: SseEvent := SseEvent("done", "[DONE]")

  // ---------------------------------------------------------------------------
  // History and context

  /** The history in chronological order: the rows of the newest-first query
      that scanned, each prepended in turn. */
  method LoadHistory(rows: seq<Option<ChatMessage>>) returns (history: seq<ChatMessage>)
    ensures history == Reverse(Scanned(rows))
  {
    history := [];
    var i := 0;
    while i < |rows|
      invariant 0 <= i <= |rows|
      invariant history == Reverse(Scanned(rows[..i]))
    {
      ScannedStep(rows, i);
      if rows[i].Some? {
        ReversePush(Scanned(rows[..i]), rows[i].value);
        history := [rows[i].value] + history;
      }
      i := i + 1;
    }
    assert rows[..|rows|] == rows;
  }

  /** The messages sent upstream: the chronological history, then the new user
      message. */
  function Context(rows: seq<Option<ChatMessage>>, content: string): (ctx: seq<ChatMessage>)
    ensures 1 <= |ctx| <= |rows| + 1
    ensures ctx[|ctx| - 1] == ChatMessage(RoleUser, content)
    ensures ctx[..|ctx| - 1] == Reverse(Scanned(rows))
  {
    ReverseAt(Scanned(rows));
    Reverse(Scanned(rows)) + [ChatMessage(RoleUser, content)]
  }

  /** With the query's `LIMIT 20` the context holds at most 21 messages. */
  lemma ContextBounded(rows: seq<Option<ChatMessage>>, content: string)
    requires |rows| <= HistoryLimit
    ensures 1 <= |Context(rows, content)| <= HistoryLimit + 1
  {
  }

  /** When the query returns the newest 20 messages of a chronological log and
      they all scan, the context is the newest 20 of the log, oldest first,
      followed by the new user message. */
  lemma ContextFromLog(log: seq<ChatMessage>, content: string)
    ensures var n := if |log| < HistoryLimit then |log| else HistoryLimit;
            Context(AllScanned(LatestFirst(log, HistoryLimit)), content) ==
            log[|log| - n..] + [ChatMessage(RoleUser, content)]
  {
    ScannedAll(LatestFirst(log, HistoryLimit));
    LatestFirstReversed(log, HistoryLimit);
  }

  // ---------------------------------------------------------------------------
  // Relay

  /** The text a chunk carries: the first choice's delta, if any. */
  function Delta(item: Received): string
  {
    if item.Chunk? && |item.choices| > 0 then item.choices[0].deltaContent else ""
  }

  /** The stream ends: some `Recv` returns end-of-stream or an error. */
  predicate Terminates(items: seq<Received>)
  {
    exists i :: 0 <= i < |items| && !items[i].Chunk?
  }

  /** The position of the `Recv` result that ends the loop. */
  function FirstTerminal(items: seq<Received>): (k: nat)
    requires Terminates(items)
    ensures k < |items| && !items[k].Chunk?
    ensures forall j :: 0 <= j < k ==> items[j].Chunk?
  {
    if !items[0].Chunk? then 0
    else
      assert Terminates(items[1..]) by {
        var i :| 0 <= i < |items| && !items[i].Chunk?;
        assert items[1..][i - 1] == items[i];
      }
      1 + FirstTerminal(items[1..])
  }

  /** The deltas forwarded for a run of chunks: the non-empty ones, in order. */
  function Forwarded(chunks: seq<Received>): (ds: seq<string>)
    ensures forall k :: 0 <= k < |ds| ==> ds[k] != ""
  {
    if chunks == [] then []
    else
      var d := Delta(chunks[|chunks| - 1]);
      Forwarded(chunks[..|chunks| - 1]) + (if d == "" then [] else [d])
  }

  function Concat(ss: seq<string>): string
  {
    if ss == [] then "" else Concat(ss[..|ss| - 1]) + ss[|ss| - 1]
  }

  function MessageEmits(ds: seq<string>): (es: seq<Effect>)
    ensures |es| == |ds|
    ensures forall k :: 0 <= k < |ds| ==> es[k] == Emit(MessageEvent(ds[k]))
  {
    seq(|ds|, k requires 0 <= k < |ds| => Emit(MessageEvent(ds[k])))
  }

  /** The data of the `message` events of a trace, in order. */
  function MessagePayloads(effects: seq<Effect>): seq<string>
  {
    if effects == [] then []
    else
      var e := effects[|effects| - 1];
      MessagePayloads(effects[..|effects| - 1]) +
      (if e.Emit? && e.event.name == "message" then [e.event.data] else [])
  }

  /** The reply text the relay accumulates (`fullResponse`). */
  function FullResponse(items: seq<Received>): string
    requires Terminates(items)
  {
    Concat(Forwarded(items[..FirstTerminal(items)]))
  }

  /** What the relay does: one `message` event per forwarded delta, then the
      ending. */
  function RelayEffects(chatID: string, items: seq<Received>): seq<Effect>
    requires Terminates(items)
  {
    MessageEmits(Forwarded(items[..FirstTerminal(items)])) + Ending(chatID, items)
  }

  /** How the relay ends: one `error` event on a receive failure, or the
      assistant insert of the whole text followed by one `done` event at end of
      stream. */
  function Ending(chatID: string, items: seq<Received>): seq<Effect>
    requires Terminates(items)
  {
    match items[FirstTerminal(items)]
    case RecvError(m) => [Emit(ErrorEvent(m))]
    case EndOfStream => [Sql(InsertMessage(chatID, RoleAssistant, FullResponse(items))), Emit(DoneEvent)]
  }

  /** The relay loop. `fullResponse` is returned so that its invariant, that it
      is the concatenation of every `message` payload emitted, is visible. */
  method Relay(chatID: string, items: seq<Received>) returns (effects: seq<Effect>, fullResponse: string)
    requires Terminates(items)
    ensures effects == RelayEffects(chatID, items)
    ensures fullResponse == FullResponse(items)
    ensures fullResponse == Concat(MessagePayloads(effects))
  {
    effects, fullResponse := [], "";
    var i := 0;
    while items[i].Chunk?
      invariant 0 <= i <= FirstTerminal(items)
      invariant effects == MessageEmits(Forwarded(items[..i]))
      invariant fullResponse == Concat(Forwarded(items[..i]))
      decreases FirstTerminal(items) - i
    {
      RelayStep(items, i);
      var resp := items[i];
      if |resp.choices| > 0 {
        var delta := resp.choices[0].deltaContent;
        if delta != "" {
          fullResponse := fullResponse + delta;
          effects := effects + [Emit(MessageEvent(delta))];
        }
      }
      i := i + 1;
    }
    assert i == FirstTerminal(items);
    var ending: seq<Effect>;
    if items[i].RecvError? {
      ending := [Emit(ErrorEvent(items[i].message))];
    } else {
      ending := [Sql(InsertMessage(chatID, RoleAssistant, fullResponse)), Emit(DoneEvent)];
    }
    assert ending == Ending(chatID, items);
    effects := effects + ending;
    RelayTextIsMessages(chatID, items);
  }

  lemma ForwardedStep(items: seq<Received>, i: nat)
    requires i < |items|
    ensures var d := Delta(items[i]);
            Forwarded(items[..i + 1]) == Forwarded(items[..i]) + (if d == "" then [] else [d])
  {
    assert items[..i + 1][..i] == items[..i];
  }

  /** One turn of the relay loop: a chunk extends the forwarded deltas by its
      delta when that is non-empty, and leaves them unchanged otherwise. */
  lemma RelayStep(items: seq<Received>, i: nat)
    requires i < |items|
    ensures var d := Delta(items[i]);
            var before := Forwarded(items[..i]);
            var after := Forwarded(items[..i + 1]);
            && (d == "" ==> after == before)
            && (d != "" ==> after == before + [d])
            && Concat(after) == Concat(before) + d
            && MessageEmits(after) == MessageEmits(before) + (if d == "" then [] else [Emit(MessageEvent(d))])
  {
    var d := Delta(items[i]);
    var before := Forwarded(items[..i]);
    ForwardedStep(items, i);
    if d != "" {
      ConcatPush(before, d);
    }
  }

  lemma ConcatPush(ss: seq<string>, s: string)
    ensures Concat(ss + [s]) == Concat(ss) + s
  {
    assert (ss + [s])[..|ss|] == ss;
  }

  lemma {:induction false} PayloadsOfMessageEmits(ds: seq<string>)
    ensures MessagePayloads(MessageEmits(ds)) == ds
  {
    if ds != [] {
      var init := ds[..|ds| - 1];
      PayloadsOfMessageEmits(init);
      assert MessageEmits(ds)[..|ds| - 1] == MessageEmits(init);
    }
  }

  lemma {:induction false} PayloadsAppend(a: seq<Effect>, b: seq<Effect>)
    ensures MessagePayloads(a + b) == MessagePayloads(a) + MessagePayloads(b)
  {
    if b == [] {
      assert a + b == a;
    } else {
      var init := b[..|b| - 1];
      assert (a + b)[..|a + b| - 1] == a + init;
      PayloadsAppend(a, init);
    }
  }

  /** The ending carries no `message` payload. */
  lemma EndingSilent(chatID: string, items: seq<Received>)
    requires Terminates(items)
    ensures MessagePayloads(Ending(chatID, items)) == []
  {
    var tail := Ending(chatID, items);
    if items[FirstTerminal(items)].EndOfStream? {
      assert tail[..1] == [tail[0]];
      assert MessagePayloads([tail[0]]) == [];
    }
  }

  /** The relay invariant: the text persisted and returned is exactly the
      in-order concatenation of the `message` events emitted. */
  lemma RelayTextIsMessages(chatID: string, items: seq<Received>)
    requires Terminates(items)
    ensures FullResponse(items) == Concat(MessagePayloads(RelayEffects(chatID, items)))
  {
    var ds := Forwarded(items[..FirstTerminal(items)]);
    PayloadsOfMessageEmits(ds);
    PayloadsAppend(MessageEmits(ds), Ending(chatID, items));
    EndingSilent(chatID, items);
    assert MessagePayloads(RelayEffects(chatID, items)) == ds + [];
    assert ds + [] == ds;
  }

  /** Every `Recv` result up to the first end-of-stream or error is a chunk. */
  lemma FirstTerminalAt(items: seq<Received>, k: nat)
    requires k < |items| && !items[k].Chunk?
    requires forall j :: 0 <= j < k ==> items[j].Chunk?
    ensures Terminates(items) && FirstTerminal(items) == k
  {
  }

  lemma {:induction false} ForwardedAppend(a: seq<Received>, b: seq<Received>)
    ensures Forwarded(a + b) == Forwarded(a) + Forwarded(b)
  {
    if b == [] {
      assert a + b == a;
    } else {
      var init := b[..|b| - 1];
      assert (a + b)[..|a + b| - 1] == a + init;
      ForwardedAppend(a, init);
    }
  }

  /** Each forwarded delta is one `message` event, in arrival order, and no
      other event of the relay is a `message` event. */
  lemma RelayMessagesAreDeltas(chatID: string, items: seq<Received>)
    requires Terminates(items)
    ensures MessagePayloads(RelayEffects(chatID, items)) == Forwarded(items[..FirstTerminal(items)])
  {
    var ds := Forwarded(items[..FirstTerminal(items)]);
    PayloadsOfMessageEmits(ds);
    PayloadsAppend(MessageEmits(ds), Ending(chatID, items));
    EndingSilent(chatID, items);
    assert ds + [] == ds;
  }

  /** Inserting a chunk before the end of the stream moves the end by one. */
  lemma InsertChunkShiftsEnd(items: seq<Received>, j: nat, chunk: Received)
    requires Terminates(items) && j <= FirstTerminal(items) && chunk.Chunk?
    ensures var more := items[..j] + [chunk] + items[j..];
            Terminates(more) && FirstTerminal(more) == FirstTerminal(items) + 1 &&
            more[FirstTerminal(more)] == items[FirstTerminal(items)] &&
            more[..FirstTerminal(more)] == items[..j] + [chunk] + items[j..FirstTerminal(items)]
  {
    var k := FirstTerminal(items);
    var more := items[..j] + [chunk] + items[j..];
    forall i | 0 <= i < k + 1
      ensures more[i].Chunk?
    {
      if i > j { assert more[i] == items[i - 1]; }
    }
    assert more[k + 1] == items[k];
    FirstTerminalAt(more, k + 1);
  }

  /** A chunk without choices or with an empty delta forwards nothing. */
  lemma SilentChunkForwardsNothing(before: seq<Received>, chunk: Received, after: seq<Received>)
    requires Delta(chunk) == ""
    ensures Forwarded(before + [chunk] + after) == Forwarded(before + after)
  {
    ForwardedAppend(before + [chunk], after);
    ForwardedAppend(before, [chunk]);
    ForwardedAppend(before, after);
    assert [chunk][..0] == [];
    assert Forwarded([chunk]) == [];
    assert Forwarded(before) + [] == Forwarded(before);
  }

  /** Inserting a silent chunk before the end leaves the forwarded deltas
      and the ending result unchanged. */
  lemma SilentInsertForwardsSame(items: seq<Received>, j: nat, chunk: Received)
    requires Terminates(items) && j <= FirstTerminal(items)
    requires chunk.Chunk? && Delta(chunk) == ""
    ensures var more := items[..j] + [chunk] + items[j..];
            && Terminates(more)
            && more[FirstTerminal(more)] == items[FirstTerminal(items)]
            && Forwarded(more[..FirstTerminal(more)]) == Forwarded(items[..FirstTerminal(items)])
  {
    var k := FirstTerminal(items);
    var before, after := items[..j], items[j..k];
    InsertChunkShiftsEnd(items, j, chunk);
    SilentChunkForwardsNothing(before, chunk, after);
    assert before + after == items[..k];
  }

  /** A chunk without choices or with an empty delta, arriving before the
      stream ends, changes nothing the relay does. */
  lemma EmptyChunkIsSilent(chatID: string, items: seq<Received>, j: nat, chunk: Received)
    requires Terminates(items) && j <= FirstTerminal(items)
    requires chunk.Chunk? && Delta(chunk) == ""
    ensures Terminates(items[..j] + [chunk] + items[j..])
    ensures RelayEffects(chatID, items[..j] + [chunk] + items[j..]) == RelayEffects(chatID, items)
  {
    SilentInsertForwardsSame(items, j, chunk);
    RelayDependsOnForwarded(chatID, items[..j] + [chunk] + items[j..], items);
  }

  /** The relay's effects depend only on the deltas forwarded and on how the
      stream ended. */
  lemma RelayDependsOnForwarded(chatID: string, a: seq<Received>, b: seq<Received>)
    requires Terminates(a) && Terminates(b)
    requires a[FirstTerminal(a)] == b[FirstTerminal(b)]
    requires Forwarded(a[..FirstTerminal(a)]) == Forwarded(b[..FirstTerminal(b)])
    ensures RelayEffects(chatID, a) == RelayEffects(chatID, b)
  {
    EndingDependsOnEnd(chatID, a, b);
  }

  lemma EndingDependsOnEnd(chatID: string, a: seq<Received>, b: seq<Received>)
    requires Terminates(a) && Terminates(b)
    requires a[FirstTerminal(a)] == b[FirstTerminal(b)] && FullResponse(a) == FullResponse(b)
    ensures Ending(chatID, a) == Ending(chatID, b)
  {
  }

  /** A receive failure ends the relay with exactly one `error` event: no
      assistant insert and no `done` event. */
  lemma ReceiveErrorAborts(chatID: string, items: seq<Received>)
    requires Terminates(items) && items[FirstTerminal(items)].RecvError?
    ensures var effects := RelayEffects(chatID, items);
            && effects[|effects| - 1] == Emit(ErrorEvent(items[FirstTerminal(items)].message))
            && (forall e :: e in effects ==> !e.Sql?)
            && Emit(DoneEvent) !in effects
            && (forall i :: 0 <= i < |effects| - 1 ==> effects[i].Emit? && effects[i].event.name == "message")
  {
  }

  /** End of stream ends the relay with exactly one assistant insert of the
      accumulated text, then exactly one `done` event, and no `error` event. */
  lemma EndOfStreamCompletes(chatID: string, items: seq<Received>)
    requires Terminates(items) && items[FirstTerminal(items)].EndOfStream?
    ensures var effects := RelayEffects(chatID, items);
            var n := |effects|;
            && n >= 2
            && effects[n - 2] == Sql(InsertMessage(chatID, RoleAssistant, FullResponse(items)))
            && effects[n - 1] == Emit(DoneEvent)
            && (forall i :: 0 <= i < n - 2 ==> effects[i].Emit? && effects[i].event.name == "message")
  {
  }

  // ---------------------------------------------------------------------------
  // The handler

  /** Binding succeeded and `content` is non-empty. */
  predicate ValidPayload(payload: Option<SendMessageReq>)
  {
    payload.Some? && payload.value.content != ""
  }

  /** What `SendMessage` does, in order: each gate either passes or ends the
      request with its error reply; past the last gate the user message is
      inserted and the relay runs; the stream, once open, is closed last. */
  function SendMessageEffects(userID: string, chatID: string, payload: Option<SendMessageReq>,
                              ownership: Result<bool, string>,
                              history: Result<seq<Option<ChatMessage>>, string>,
                              apiKey: string, stream: Result<seq<Received>, string>,
                              userInsertOk: bool): (effects: seq<Effect>)
    requires stream.Success? ==> Terminates(stream.value)
    // a request ends by closing the stream exactly when the stream was opened,
    // and by writing its error reply otherwise
    ensures |effects| >= 1
    ensures effects[|effects| - 1] == CloseStream <==>
              ValidPayload(payload) && ownership == Success(true) && history.Success? && apiKey != "" &&
              stream.Success?
    ensures effects[|effects| - 1] != CloseStream ==> effects[|effects| - 1].Respond?
  {
    if !ValidPayload(payload) then [Respond(Fail(StatusBadRequest, "invalid payload"))]
    else
      var content := payload.value.content;
      var checked := [Sql(ChatOwnedBy(chatID, userID))];
      match ownership
      case Failure(e) => checked + [Respond(FailWith(StatusInternalServerError, "db error", e))]
      case Success(owned) =>
        if !owned then checked + [Respond(Fail(StatusNotFound, "chat not found"))]
        else
          var loaded := checked + [Sql(RecentMessages(chatID, HistoryLimit))];
          match history
          case Failure(_) => loaded + [Respond(Fail(StatusInternalServerError, "failed to load chat history"))]
          case Success(rows) =>
            if apiKey == "" then loaded + [Respond(Fail(StatusInternalServerError, "missing OPENAI_API_KEY in env"))]
            else
              var streaming := loaded + [OpenStream(UpstreamModel, Context(rows, content))];
              match stream
              case Failure(e) => streaming + [Respond(FailWith(StatusInternalServerError, "model error", e))]
              case Success(items) =>
                var saved := streaming + [Sql(InsertMessage(chatID, RoleUser, content))];
                if !userInsertOk then
                  saved + [Respond(Fail(StatusInternalServerError, "failed to save user message")), CloseStream]
                else saved + RelayEffects(chatID, items) + [CloseStream]
  }

  /** The handler. `userID` is the authenticated caller; the other inputs are
      the outcomes of the body binding, the ownership query, the history query,
      the `OPENAI_API_KEY` lookup, the stream open and the user-message insert. */
  method SendMessage(userID: string, chatID: string, payload: Option<SendMessageReq>,
                     ownership: Result<bool, string>,
                     history: Result<seq<Option<ChatMessage>>, string>,
                     apiKey: string, stream: Result<seq<Received>, string>,
                     userInsertOk: bool)
    returns (effects: seq<Effect>)
    requires stream.Success? ==> Terminates(stream.value)
    ensures effects == SendMessageEffects(userID, chatID, payload, ownership, history, apiKey, stream, userInsertOk)
  {
    if payload.None? || payload.value.content == "" {
      effects := [Respond(Fail(StatusBadRequest, "invalid payload"))];
      return;
    }
    var content := payload.value.content;

    effects := [Sql(ChatOwnedBy(chatID, userID))];
    if ownership.Failure? {
      effects := effects + [Respond(FailWith(StatusInternalServerError, "db error", ownership.error))];
      return;
    }
    if !ownership.value {
      effects := effects + [Respond(Fail(StatusNotFound, "chat not found"))];
      return;
    }

    effects := effects + [Sql(RecentMessages(chatID, HistoryLimit))];
    if history.Failure? {
      effects := effects + [Respond(Fail(StatusInternalServerError, "failed to load chat history"))];
      return;
    }
    var messages := LoadHistory(history.value);
    messages := messages + [ChatMessage(RoleUser, content)];

    if apiKey == "" {
      effects := effects + [Respond(Fail(StatusInternalServerError, "missing OPENAI_API_KEY in env"))];
      return;
    }
    effects := effects + [OpenStream(UpstreamModel, messages)];
    if stream.Failure? {
      effects := effects + [Respond(FailWith(StatusInternalServerError, "model error", stream.error))];
      return;
    }

    effects := effects + [Sql(InsertMessage(chatID, RoleUser, content))];
    if !userInsertOk {
      effects := effects + [Respond(Fail(StatusInternalServerError, "failed to save user message")), CloseStream];
      return;
    }
    var relayed, fullResponse := Relay(chatID, stream.value);
    effects := effects + relayed + [CloseStream];
  }

  // ---------------------------------------------------------------------------
  // Properties of the handler

  predicate Inserts(effects: seq<Effect>)
  {
    exists e :: e in effects && e.Sql? && e.statement.InsertMessage?
  }

  predicate Emits(effects: seq<Effect>)
  {
    exists e :: e in effects && e.Emit?
  }

  /** A missing or empty `content` is rejected before any query, stream or insert. */
  lemma InvalidPayloadRejected(userID: string, chatID: string, payload: Option<SendMessageReq>,
                               ownership: Result<bool, string>,
                               history: Result<seq<Option<ChatMessage>>, string>,
                               apiKey: string, stream: Result<seq<Received>, string>, userInsertOk: bool)
    requires stream.Success? ==> Terminates(stream.value)
    requires !ValidPayload(payload)
    ensures SendMessageEffects(userID, chatID, payload, ownership, history, apiKey, stream, userInsertOk) ==
            [Respond(Fail(StatusBadRequest, "invalid payload"))]
  {
  }

  /** An ownership query error is a 500 "db error", a chat the caller does not
      own is a 404 "chat not found"; either way history is never read and
      nothing is inserted. */
  lemma OwnershipGate(userID: string, chatID: string, payload: Option<SendMessageReq>,
                      ownership: Result<bool, string>,
                      history: Result<seq<Option<ChatMessage>>, string>,
                      apiKey: string, stream: Result<seq<Received>, string>, userInsertOk: bool)
    requires stream.Success? ==> Terminates(stream.value)
    requires ValidPayload(payload) && ownership != Success(true)
    ensures var effects := SendMessageEffects(userID, chatID, payload, ownership, history, apiKey, stream, userInsertOk);
            && |effects| == 2
            && effects[0] == Sql(ChatOwnedBy(chatID, userID))
            && effects[1] == Respond(if ownership.Failure?
                                     then FailWith(StatusInternalServerError, "db error", ownership.error)
                                     else Fail(StatusNotFound, "chat not found"))
            && !Inserts(effects)
  {
  }

  /** A missing `OPENAI_API_KEY` is reported only once the ownership and
      history queries have succeeded; no stream is opened and nothing is
      inserted. */
  lemma MissingApiKeyGate(userID: string, chatID: string, payload: Option<SendMessageReq>,
                          rows: seq<Option<ChatMessage>>,
                          stream: Result<seq<Received>, string>, userInsertOk: bool)
    requires stream.Success? ==> Terminates(stream.value)
    requires ValidPayload(payload)
    ensures SendMessageEffects(userID, chatID, payload, Success(true), Success(rows), "", stream, userInsertOk) ==
            [Sql(ChatOwnedBy(chatID, userID)), Sql(RecentMessages(chatID, HistoryLimit)),
             Respond(Fail(StatusInternalServerError, "missing OPENAI_API_KEY in env"))]
  {
  }

  /** A failed history query in an owned chat is a 500 "failed to load chat
      history" without details: no stream is opened and nothing is inserted. */
  lemma HistoryGate(userID: string, chatID: string, payload: Option<SendMessageReq>, e: string,
                    apiKey: string, stream: Result<seq<Received>, string>, userInsertOk: bool)
    requires stream.Success? ==> Terminates(stream.value)
    requires ValidPayload(payload)
    ensures SendMessageEffects(userID, chatID, payload, Success(true), Failure(e), apiKey, stream, userInsertOk) ==
            [Sql(ChatOwnedBy(chatID, userID)), Sql(RecentMessages(chatID, HistoryLimit)),
             Respond(Fail(StatusInternalServerError, "failed to load chat history"))]
  {
  }

  /** Once the gates pass, the upstream request carries the chronological
      history followed by the new user message; a failure to open it is a 500
      "model error" and nothing is inserted. */
  lemma StreamOpenGate(userID: string, chatID: string, payload: Option<SendMessageReq>,
                       rows: seq<Option<ChatMessage>>, apiKey: string,
                       stream: Result<seq<Received>, string>, userInsertOk: bool)
    requires stream.Success? ==> Terminates(stream.value)
    requires ValidPayload(payload) && apiKey != ""
    ensures var effects := SendMessageEffects(userID, chatID, payload, Success(true), Success(rows), apiKey, stream, userInsertOk);
            && effects[2] == OpenStream(UpstreamModel, Context(rows, payload.value.content))
            && (stream.Failure? ==>
                  && effects[3..] == [Respond(FailWith(StatusInternalServerError, "model error", stream.error))]
                  && !Inserts(effects))
  {
  }

  /** A failed user-message insert is a 500 and no event is emitted; the
      stream is still closed. */
  lemma UserInsertGate(userID: string, chatID: string, payload: Option<SendMessageReq>,
                       rows: seq<Option<ChatMessage>>, apiKey: string, items: seq<Received>)
    requires Terminates(items)
    requires ValidPayload(payload) && apiKey != ""
    ensures var effects := SendMessageEffects(userID, chatID, payload, Success(true), Success(rows), apiKey, Success(items), false);
            && effects[3..] == [Sql(InsertMessage(chatID, RoleUser, payload.value.content)),
                                Respond(Fail(StatusInternalServerError, "failed to save user message")),
                                CloseStream]
            && !Emits(effects)
  {
    var effects := SendMessageEffects(userID, chatID, payload, Success(true), Success(rows), apiKey, Success(items), false);
    assert effects == effects[..3] + effects[3..];
    assert forall e :: e in effects[..3] ==> !e.Emit?;
  }

  /** The trace of a request that passes every gate: the two queries, the
      stream open, the user insert, then the relay and the stream close. */
  lemma FullPathEffects(userID: string, chatID: string, payload: Option<SendMessageReq>,
                        rows: seq<Option<ChatMessage>>, apiKey: string, items: seq<Received>)
    requires Terminates(items)
    requires ValidPayload(payload) && apiKey != ""
    ensures var effects := SendMessageEffects(userID, chatID, payload, Success(true), Success(rows), apiKey, Success(items), true);
            && |effects| >= 4
            && effects[..4] == [Sql(ChatOwnedBy(chatID, userID)), Sql(RecentMessages(chatID, HistoryLimit)),
                                OpenStream(UpstreamModel, Context(rows, payload.value.content)),
                                Sql(InsertMessage(chatID, RoleUser, payload.value.content))]
            && effects[4..] == RelayEffects(chatID, items) + [CloseStream]
  {
    var content := payload.value.content;
    var saved := [Sql(ChatOwnedBy(chatID, userID))] + [Sql(RecentMessages(chatID, HistoryLimit))] +
                 [OpenStream(UpstreamModel, Context(rows, content))] + [Sql(InsertMessage(chatID, RoleUser, content))];
    var tail := RelayEffects(chatID, items) + [CloseStream];
    var effects := SendMessageEffects(userID, chatID, payload, Success(true), Success(rows), apiKey, Success(items), true);
    assert effects == saved + RelayEffects(chatID, items) + [CloseStream];
    assert effects == saved + tail;
    assert |saved| == 4;
    assert effects[..4] == saved;
    assert effects[4..] == tail;
  }

  /** On the full path the user message is inserted once, before any event,
      the relay follows, and the stream is closed last. */
  lemma StreamingPath(userID: string, chatID: string, payload: Option<SendMessageReq>,
                      rows: seq<Option<ChatMessage>>, apiKey: string, items: seq<Received>)
    requires Terminates(items)
    requires ValidPayload(payload) && apiKey != ""
    ensures var effects := SendMessageEffects(userID, chatID, payload, Success(true), Success(rows), apiKey, Success(items), true);
            && effects[3] == Sql(InsertMessage(chatID, RoleUser, payload.value.content))
            && effects[4..] == RelayEffects(chatID, items) + [CloseStream]
            && (forall i :: 0 <= i < 4 ==> !effects[i].Emit?)
  {
    var effects := SendMessageEffects(userID, chatID, payload, Success(true), Success(rows), apiKey, Success(items), true);
    FullPathEffects(userID, chatID, payload, rows, apiKey, items);
    assert effects[3] == effects[..4][3];
    forall i | 0 <= i < 4
      ensures !effects[i].Emit?
    {
      assert effects[i] == effects[..4][i];
    }
  }

  /** The fragments "He" and "llo" followed by end of stream are forwarded as
      two `message` events, "Hello" is persisted, then `done` is sent. */
  lemma RelayExample(chatID: string)
    ensures var items := [Chunk([Choice("He")]), Chunk([Choice("llo")]), EndOfStream];
            && Terminates(items)
            && RelayEffects(chatID, items) ==
               [Emit(MessageEvent("He")), Emit(MessageEvent("llo")),
                Sql(InsertMessage(chatID, RoleAssistant, "Hello")), Emit(DoneEvent)]
  {
    var items := [Chunk([Choice("He")]), Chunk([Choice("llo")]), EndOfStream];
    FirstTerminalAt(items, 2);
    assert items[..0] == [];
    ForwardedStep(items, 0);
    ForwardedStep(items, 1);
    assert Forwarded(items[..1]) == ["He"];
    assert Forwarded(items[..2]) == ["He", "llo"];
    assert Concat(["He", "llo"]) == "Hello" by {
      assert ["He", "llo"][..1] == ["He"];
      assert ["He"][..0] == [];
    }
  }

  /** One fragment then a receive error: one `message`, one `error`, no
      insert and no `done`. */
  lemma RelayAbortExample(chatID: string)
    ensures var items := [Chunk([Choice("Hi")]), RecvError("reset")];
            && Terminates(items)
            && RelayEffects(chatID, items) == [Emit(MessageEvent("Hi")), Emit(ErrorEvent("reset"))]
  {
    var items := [Chunk([Choice("Hi")]), RecvError("reset")];
    FirstTerminalAt(items, 1);
    assert items[..0] == [];
    ForwardedStep(items, 0);
    assert Forwarded(items[..1]) == ["Hi"];
    assert MessageEmits(["Hi"]) == [Emit(MessageEvent("Hi"))];
  }

  /** A stream of one non-empty fragment: one `message`, the fragment
      persisted as the reply, then `done`. */
  lemma SingleFragmentRelay(chatID: string, text: string)
    requires text != ""
    ensures var items := [Chunk([Choice(text)]), EndOfStream];
            && Terminates(items)
            && RelayEffects(chatID, items) ==
               [Emit(MessageEvent(text)), Sql(InsertMessage(chatID, RoleAssistant, text)), Emit(DoneEvent)]
  {
    var items := [Chunk([Choice(text)]), EndOfStream];
    FirstTerminalAt(items, 1);
    assert items[..0] == [];
    ForwardedStep(items, 0);
    assert Forwarded(items[..1]) == [text];
    assert Concat([text]) == text by {
      assert [text][..0] == [];
    }
  }

  /** A request in an owned chat with no history that passes every gate: the
      checks, then the stream opened with the user message alone, then the
      user message stored. */
  lemma EmptyHistoryGates(userID: string, chatID: string, content: string, items: seq<Received>)
    requires content != "" && Terminates(items)
    ensures var noRows: seq<Option<ChatMessage>> := [];
            SendMessageEffects(userID, chatID, Some(SendMessageReq(content)), Success(true), Success(noRows),
                               "key", Success(items), true)[..4] ==
            [Sql(ChatOwnedBy(chatID, userID)), Sql(RecentMessages(chatID, HistoryLimit)),
             OpenStream(UpstreamModel, [ChatMessage(RoleUser, content)]),
             Sql(InsertMessage(chatID, RoleUser, content))]
  {
    var noRows: seq<Option<ChatMessage>> := [];
    assert Scanned(noRows) == [];
    assert Context(noRows, content) == [ChatMessage(RoleUser, content)];
    FullPathEffects(userID, chatID, Some(SendMessageReq(content)), noRows, "key", items);
  }
}
