/** One chat turn as chatHandler performs it (be-go/main.go): validate the
    request, load the session's transcript, seed the system prompt into a new
    session, append the client's message, dispatch on the model name, append
    the assistant's reply and save, ignoring a failed save. HTTP plumbing is
    gone: the store is threaded through as a value and the payloads sent
    upstream are returned so that "no provider call" can be stated. */
module Gateway {
  import opened Results
  import opened Transcript
  import opened Providers
  import opened Payloads
  import opened Adapters
  import opened SessionStore

  /** The client's request; contents is meant to hold just the new message. */
  datatype ChatRequest = ChatRequest(sessionId: string, modelName: string, contents: seq<Message>)

  datatype Failure =
    | MissingField
    | HistoryUnavailable
    | UnknownModel(name: string)
    | ProviderFailed(cause: AdapterError)

  /** What the client receives: the reply text, or a status and the cause. */
  datatype ChatReply = Answer(text: string) | Refused(status: int, failure: Failure)

  /** Everything a turn produces: the client's reply, the store afterwards,
      and the payloads sent to a provider (at most one). */
  datatype Turn = Turn(reply: ChatReply, store: Store, sent: seq<Payload>)

  const BadRequest: int := 400
  const InternalError: int := 500

  /** Request errors are the client's fault (400); the rest are the
      server's (500). */
  function StatusOf(f: Failure): int {
    if f.MissingField? || f.UnknownModel? then BadRequest else InternalError
  }

  /** The transcript sent upstream: the stored history, seeded with the
      system prompt when it is empty, followed by the new message. */
  function Prompted(history: seq<Message>, m: Message): (r: seq<Message>)
    ensures |r| >= 2 && r[|r| - 1] == m
  {
    (if |history| == 0 then [SystemPrompt] else history) + [m]
  }

  /** The prompted transcript keeps a non-empty history as its prefix, so the
      system prompt is added only to an empty history and never again. */
  lemma PromptedSeedsOnlyEmptyHistory(history: seq<Message>, m: Message)
    ensures var r := Prompted(history, m);
            && (|history| > 0 ==> r[..|r| - 1] == history)
            && (|history| == 0 ==> r[..|r| - 1] == [SystemPrompt])
  {
  }

  /** The whole turn. */
  function HandleChat(keys: ApiKeys, store: Store, health: Health, req: ChatRequest,
                      transport: Payload -> HttpResult): (t: Turn)
    ensures req.sessionId == "" || |req.contents| == 0 ==>
              t == Turn(Refused(BadRequest, MissingField), store, [])
    ensures t.reply.Refused? ==> t.reply.status == StatusOf(t.reply.failure)
    ensures t.reply.Refused? ==> t.store == store
    ensures t.reply.Answer? && !health.writable ==> t.store == store
    ensures t.reply.Answer? && health.writable ==>
              && req.sessionId != "" && |req.contents| > 0
              && t.store == store[req.sessionId := Prompted(Load(store, req.sessionId, true).value, req.contents[0])
                                                 + [Message(AiRole, t.reply.text)]]
    ensures |t.sent| <= 1
    ensures t.reply.Answer? ==> |t.sent| == 1
    ensures forall k :: k != req.sessionId ==> (k in t.store <==> k in store)
    ensures forall k :: k != req.sessionId && k in store ==> t.store[k] == store[k]
  {
    if req.sessionId == "" || |req.contents| == 0 then
      Turn(Refused(BadRequest, MissingField), store, [])
    else match Load(store, req.sessionId, health.readable)
      case Err(_) => Turn(Refused(InternalError, HistoryUnavailable), store, [])
      case Ok(history) =>
        var context := Prompted(history, req.contents[0]);
        match ProviderFor(req.modelName)
        case None => Turn(Refused(BadRequest, UnknownModel(req.modelName)), store, [])
        case Some(p) =>
          var call := CallProvider(keys, p, context, transport);
          var sent := if call.request.Some? then [call.request.value] else [];
          match call.reply
          case Err(e) => Turn(Refused(InternalError, ProviderFailed(e)), store, sent)
          case Ok(aiText) =>
            var saved := Save(store, req.sessionId, context + [Message(AiRole, aiText)], health.writable);
            Turn(Answer(aiText), if saved.Ok? then saved.value else store, sent)
  }

  /** A failed history load aborts the turn with 500 before any provider is
      called, whatever the model name. */
  lemma LoadFailureAborts(keys: ApiKeys, store: Store, health: Health, req: ChatRequest,
                          transport: Payload -> HttpResult)
    requires req.sessionId != "" && |req.contents| > 0 && !health.readable
    ensures HandleChat(keys, store, health, req, transport)
            == Turn(Refused(InternalError, HistoryUnavailable), store, [])
  {
  }

  /** A model name outside the four is refused with 400 once the history has
      loaded, with the store untouched and no provider called. */
  lemma UnknownModelRefused(keys: ApiKeys, store: Store, health: Health, req: ChatRequest,
                            transport: Payload -> HttpResult)
    requires req.sessionId != "" && |req.contents| > 0 && health.readable
    requires req.modelName !in {"gemini", "llama", "claude", "chatgpt"}
    ensures HandleChat(keys, store, health, req, transport)
            == Turn(Refused(BadRequest, UnknownModel(req.modelName)), store, [])
  {
  }

  /** A provider error becomes a 500 carrying that error; nothing is saved,
      and a missing key means nothing was sent either. */
  lemma ProviderErrorLeavesStore(keys: ApiKeys, store: Store, health: Health, req: ChatRequest,
                                 transport: Payload -> HttpResult, p: Provider, e: AdapterError)
    requires req.sessionId != "" && |req.contents| > 0 && health.readable
    requires ProviderFor(req.modelName) == Some(p)
    requires CallProvider(keys, p, Prompted(Load(store, req.sessionId, true).value, req.contents[0]),
                          transport).reply == Err(e)
    ensures HandleChat(keys, store, health, req, transport).reply == Refused(InternalError, ProviderFailed(e))
    ensures HandleChat(keys, store, health, req, transport).store == store
    ensures KeyFor(keys, p) == "" ==> HandleChat(keys, store, health, req, transport).sent == []
    ensures KeyFor(keys, p) != "" ==>
              HandleChat(keys, store, health, req, transport).sent
              == [BuildPayload(p, Prompted(Load(store, req.sessionId, true).value, req.contents[0]))]
  {
  }

  /** The reply text is exactly what the provider returned: the selected
      provider answered 200 to the payload built from the prompted
      transcript, and the text is the first text of its own reply field. */
  lemma AnswerIsProviderText(keys: ApiKeys, store: Store, health: Health, req: ChatRequest,
                             transport: Payload -> HttpResult, text: string)
    requires HandleChat(keys, store, health, req, transport).reply == Answer(text)
    ensures req.sessionId != "" && |req.contents| > 0 && health.readable
    ensures ProviderFor(req.modelName).Some?
    ensures var p := ProviderFor(req.modelName).value;
            var payload := BuildPayload(p, Prompted(Load(store, req.sessionId, true).value, req.contents[0]));
            && HandleChat(keys, store, health, req, transport).sent == [payload]
            && transport(payload).Answered?
            && transport(payload).status == StatusOk
            && transport(payload).parsed.Some?
            && ExtractReply(p, transport(payload).parsed.value) == Ok(text)
  {
  }

  /** Once the history has loaded and the model is known, the client is
      answered with a text exactly when the provider call returned that text. */
  lemma ProviderTextIsAnswer(keys: ApiKeys, store: Store, health: Health, req: ChatRequest,
                             transport: Payload -> HttpResult, p: Provider, text: string)
    requires req.sessionId != "" && |req.contents| > 0 && health.readable
    requires ProviderFor(req.modelName) == Some(p)
    ensures HandleChat(keys, store, health, req, transport).reply == Answer(text)
            <==> CallProvider(keys, p, Prompted(Load(store, req.sessionId, true).value, req.contents[0]),
                              transport).reply == Ok(text)
  {
  }

  /** A new session "s1" on Gemini: the client says "hi", and the provider
      answers "hello" to the payload holding the system prompt and "hi", both
      as user turns. The client gets "hello", that payload is the one sent,
      and the store holds three messages ending with the reply. */
  lemma GeminiHelloScenario(keys: ApiKeys, transport: Payload -> HttpResult)
    requires keys.gemini != ""
    requires transport(GeminiPayload([GeminiMessage("user", [GeminiPart(SystemPrompt.text)]),
                                      GeminiMessage("user", [GeminiPart("hi")])]))
             == Answered(StatusOk, "", Some(ReplyBody([GeminiCandidate(GeminiMessage("model", [GeminiPart("hello")]))], [], [])))
    ensures var t := HandleChat(keys, map[], Health(true, true),
                                ChatRequest("s1", "gemini", [Message(UserRole, "hi")]), transport);
            && t.reply == Answer("hello")
            && t.sent == [GeminiPayload([GeminiMessage("user", [GeminiPart(SystemPrompt.text)]),
                                         GeminiMessage("user", [GeminiPart("hi")])])]
            && t.store == map["s1" := [SystemPrompt, Message(UserRole, "hi"), Message(AiRole, "hello")]]
  {
    var c := [SystemPrompt, Message(UserRole, "hi")];
    assert Known(c) == c by {
      KnownKeepsAll(c);
    }
    var g := GeminiContents(c);
    assert g == [GeminiMessage("user", [GeminiPart(SystemPrompt.text)]),
                 GeminiMessage("user", [GeminiPart("hi")])];
    var req := ChatRequest("s1", "gemini", [Message(UserRole, "hi")]);
    assert Prompted(Load(map[], "s1", true).value, req.contents[0]) == c;
    assert c + [Message(AiRole, "hello")] == [SystemPrompt, Message(UserRole, "hi"), Message(AiRole, "hello")];
  }

  /** First turn of a new session: the provider sees [system prompt, new
      message] and the store ends holding those two plus the reply. */
  lemma FirstTurnSeedsSystemPrompt(keys: ApiKeys, store: Store, req: ChatRequest,
                                   transport: Payload -> HttpResult, text: string)
    requires req.sessionId !in store || store[req.sessionId] == []
    requires HandleChat(keys, store, Health(true, true), req, transport).reply == Answer(text)
    ensures var t := HandleChat(keys, store, Health(true, true), req, transport);
            && req.sessionId in t.store
            && t.store[req.sessionId] == [SystemPrompt, req.contents[0], Message(AiRole, text)]
            && t.sent == [BuildPayload(ProviderFor(req.modelName).value, [SystemPrompt, req.contents[0]])]
  {
  }

  /** A later turn appends exactly the new message and the reply; the system
      prompt is never injected again. */
  lemma LaterTurnAppendsTwo(keys: ApiKeys, store: Store, req: ChatRequest,
                            transport: Payload -> HttpResult, text: string)
    requires req.sessionId in store && |store[req.sessionId]| > 0
    requires HandleChat(keys, store, Health(true, true), req, transport).reply == Answer(text)
    ensures var t := HandleChat(keys, store, Health(true, true), req, transport);
            && req.sessionId in t.store
            && t.store[req.sessionId] == store[req.sessionId] + [req.contents[0], Message(AiRole, text)]
  {
  }

  /** A failed save never changes what the client is told. */
  lemma SaveFailureKeepsReply(keys: ApiKeys, store: Store, readable: bool, req: ChatRequest,
                              transport: Payload -> HttpResult)
    ensures HandleChat(keys, store, Health(readable, false), req, transport).reply
            == HandleChat(keys, store, Health(readable, true), req, transport).reply
  {
  }

  /** Only the first message of contents takes part in the turn. */
  lemma OnlyFirstMessageUsed(keys: ApiKeys, store: Store, health: Health,
                             req: ChatRequest, extra: seq<Message>,
                             transport: Payload -> HttpResult)
    requires |req.contents| > 0
    ensures HandleChat(keys, store, health, req.(contents := req.contents[..1] + extra), transport)
            == HandleChat(keys, store, health, req, transport)
  {
  }

  /** The stores and replies of a client sending its messages on one
      session, one message per request, in order. */
  datatype Conversation = Conversation(store: Store, replies: seq<ChatReply>)

  function Converse(keys: ApiKeys, store: Store, health: Health, id: string, model: string,
                    turns: seq<Message>, transport: Payload -> HttpResult): (r: Conversation)
    ensures |r.replies| == |turns|
    decreases |turns|
  {
    if |turns| == 0 then Conversation(store, [])
    else
      var t := HandleChat(keys, store, health, ChatRequest(id, model, [turns[0]]), transport);
      var rest := Converse(keys, t.store, health, id, model, turns[1..], transport);
      Conversation(rest.store, [t.reply] + rest.replies)
  }

  predicate AllAnswered(replies: seq<ChatReply>) {
    forall i :: 0 <= i < |replies| ==> replies[i].Answer?
  }

  /** Each message followed by the reply it received. */
  function Exchanges(turns: seq<Message>, replies: seq<ChatReply>): (r: seq<Message>)
    requires |turns| == |replies| && AllAnswered(replies)
    ensures |r| == 2 * |turns|
    decreases |turns|
  {
    if |turns| == 0 then []
    else [turns[0], Message(AiRole, replies[0].text)] + Exchanges(turns[1..], replies[1..])
  }

  /** Concatenation regroups freely; stated on its own so that the
      conversation proofs need not rediscover it in a large context. */
  lemma AppendAssoc(a: seq<Message>, b: seq<Message>, c: seq<Message>)
    ensures (a + b) + c == a + (b + c)
  {
  }

  /** The first turn of an all-answered conversation: it was answered, the
      rest of the conversation is all answered too, and its exchanges are the
      first message and reply followed by those of the rest. */
  lemma ConverseFirstTurn(keys: ApiKeys, store: Store, id: string, model: string,
                          turns: seq<Message>, transport: Payload -> HttpResult)
    requires |turns| > 0
    requires AllAnswered(Converse(keys, store, Health(true, true), id, model, turns, transport).replies)
    ensures var health := Health(true, true);
            var t := HandleChat(keys, store, health, ChatRequest(id, model, [turns[0]]), transport);
            var r := Converse(keys, store, health, id, model, turns, transport);
            var rest := Converse(keys, t.store, health, id, model, turns[1..], transport);
            && t.reply.Answer?
            && AllAnswered(rest.replies)
            && r.store == rest.store
            && Exchanges(turns, r.replies)
               == [turns[0], Message(AiRole, t.reply.text)] + Exchanges(turns[1..], rest.replies)
  {
    var health := Health(true, true);
    var t := HandleChat(keys, store, health, ChatRequest(id, model, [turns[0]]), transport);
    var r := Converse(keys, store, health, id, model, turns, transport);
    var rest := Converse(keys, t.store, health, id, model, turns[1..], transport);
    assert r.replies == [t.reply] + rest.replies;
    assert r.replies[0] == t.reply;
    assert rest.replies == r.replies[1..];
  }

  /** On a session that already has history, and with the store healthy, a
      run of answered turns leaves the stored transcript equal to the old one
      followed by each message and its reply, in order. */
  lemma {:induction false} ConversationAppendsExchanges(keys: ApiKeys, store: Store, id: string, model: string,
                                                        turns: seq<Message>, transport: Payload -> HttpResult)
    requires id in store && |store[id]| > 0
    requires AllAnswered(Converse(keys, store, Health(true, true), id, model, turns, transport).replies)
    ensures var r := Converse(keys, store, Health(true, true), id, model, turns, transport);
            && id in r.store
            && r.store[id] == store[id] + Exchanges(turns, r.replies)
    decreases |turns|
  {
    if |turns| > 0 {
      var req := ChatRequest(id, model, [turns[0]]);
      var t := HandleChat(keys, store, Health(true, true), req, transport);
      var r := Converse(keys, store, Health(true, true), id, model, turns, transport);
      var rest := Converse(keys, t.store, Health(true, true), id, model, turns[1..], transport);
      ConverseFirstTurn(keys, store, id, model, turns, transport);
      var step := [turns[0], Message(AiRole, t.reply.text)];
      var later := Exchanges(turns[1..], rest.replies);
      assert t.store[id] == store[id] + step by {
        LaterTurnAppendsTwo(keys, store, req, transport, t.reply.text);
      }
      assert rest.store[id] == t.store[id] + later by {
        ConversationAppendsExchanges(keys, t.store, id, model, turns[1..], transport);
      }
      AppendAssoc(store[id], step, later);
    }
  }

  /** A run of answered turns on a new session stores the system prompt
      followed by each message and its reply: 1 + 2N messages after N turns. */
  lemma NewSessionConversation(keys: ApiKeys, store: Store, id: string, model: string,
                               turns: seq<Message>, transport: Payload -> HttpResult)
    requires (id !in store || store[id] == []) && |turns| > 0
    requires AllAnswered(Converse(keys, store, Health(true, true), id, model, turns, transport).replies)
    ensures var r := Converse(keys, store, Health(true, true), id, model, turns, transport);
            && id in r.store
            && r.store[id] == [SystemPrompt] + Exchanges(turns, r.replies)
            && |r.store[id]| == 1 + 2 * |turns|
  {
    var req := ChatRequest(id, model, [turns[0]]);
    var t := HandleChat(keys, store, Health(true, true), req, transport);
    var rest := Converse(keys, t.store, Health(true, true), id, model, turns[1..], transport);
    ConverseFirstTurn(keys, store, id, model, turns, transport);
    var step := [turns[0], Message(AiRole, t.reply.text)];
    var later := Exchanges(turns[1..], rest.replies);
    assert t.store[id] == [SystemPrompt] + step by {
      FirstTurnSeedsSystemPrompt(keys, store, req, transport, t.reply.text);
    }
    assert rest.store[id] == t.store[id] + later by {
      ConversationAppendsExchanges(keys, t.store, id, model, turns[1..], transport);
    }
    AppendAssoc([SystemPrompt], step, later);
  }

  /** A conversation on one session never touches any other session. */
  lemma {:induction false} ConversationIsolatesSessions(keys: ApiKeys, store: Store, health: Health, id: string,
                                                        model: string, turns: seq<Message>,
                                                        transport: Payload -> HttpResult, other: string)
    requires other != id
    ensures var r := Converse(keys, store, health, id, model, turns, transport);
            && (other in r.store <==> other in store)
            && (other in store ==> r.store[other] == store[other])
    decreases |turns|
  {
    if |turns| > 0 {
      var t := HandleChat(keys, store, health, ChatRequest(id, model, [turns[0]]), transport);
      ConversationIsolatesSessions(keys, t.store, health, id, model, turns[1..], transport, other);
    }
  }
}
