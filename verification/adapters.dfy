/** The provider adapters end to end: credential check, payload, one HTTP
    exchange, and extraction of the reply text (callGeminiAPI, callLlamaAPI,
    callClaudeAPI, callChatGPTAPI and the status rule of makeAPIRequest*,
    be-go/main.go). The network is a parameter: a total function from the
    payload sent to the outcome of the exchange. */
module Adapters {
  import opened Results
  import opened Transcript
  import opened Providers
  import opened Payloads

  datatype GeminiCandidate = GeminiCandidate(content: GeminiMessage)
  datatype Choice = Choice(message: FlatMessage)
  datatype ContentBlock = ContentBlock(text: string)

  /** A decoded reply envelope, seen through the three fields the adapters
      read: Gemini's candidates, Perplexity's and OpenAI's choices, and
      Anthropic's content blocks. A field the reply lacks decodes as empty. */
  datatype ReplyBody = ReplyBody(candidates: seq<GeminiCandidate>, choices: seq<Choice>, content: seq<ContentBlock>)

  /** What one POST to a provider yields: no response at all (connection
      failure or timeout), or a status, the raw body, and the body decoded as
      JSON (None when it does not parse). */
  datatype HttpResult =
    | NoResponse(detail: string)
    | Answered(status: int, body: string, parsed: Option<ReplyBody>)

  const StatusOk: int := 200

  datatype AdapterError =
    | MissingApiKey(provider: Provider)
    | RequestFailed(detail: string)
    | UpstreamStatus(status: int, body: string)
    | UnparsableResponse(provider: Provider)
    | UnexpectedShape(provider: Provider)

  /** The first reply text in the provider's own field of the envelope. */
  function ExtractReply(p: Provider, b: ReplyBody): (r: Result<string, AdapterError>)
    ensures p == Gemini ==>
              (r.Ok? <==> |b.candidates| > 0 && |b.candidates[0].content.parts| > 0)
    ensures p == Gemini && r.Ok? ==> r.value == b.candidates[0].content.parts[0].text
    ensures p in {Llama, ChatGPT} ==> (r.Ok? <==> |b.choices| > 0)
    ensures p in {Llama, ChatGPT} && r.Ok? ==> r.value == b.choices[0].message.content
    ensures p == Claude ==> (r.Ok? <==> |b.content| > 0)
    ensures p == Claude && r.Ok? ==> r.value == b.content[0].text
    ensures r.Err? ==> r.error == UnexpectedShape(p)
  {
    match p
    case Gemini =>
      if |b.candidates| > 0 && |b.candidates[0].content.parts| > 0
      then Ok(b.candidates[0].content.parts[0].text)
      else Err(UnexpectedShape(Gemini))
    case Llama =>
      if |b.choices| > 0 then Ok(b.choices[0].message.content) else Err(UnexpectedShape(Llama))
    case Claude =>
      if |b.content| > 0 then Ok(b.content[0].text) else Err(UnexpectedShape(Claude))
    case ChatGPT =>
      if |b.choices| > 0 then Ok(b.choices[0].message.content) else Err(UnexpectedShape(ChatGPT))
  }

  /** The envelope with every field but the provider's own emptied. */
  function OwnFieldOnly(p: Provider, b: ReplyBody): ReplyBody {
    match p
    case Gemini => ReplyBody(b.candidates, [], [])
    case Claude => ReplyBody([], [], b.content)
    case _ => ReplyBody([], b.choices, [])
  }

  /** Each adapter decodes into its own response struct, so fields belonging
      to another provider's schema never influence its reply. */
  lemma ExtractReadsOnlyOwnField(p: Provider, b: ReplyBody)
    ensures ExtractReply(p, b) == ExtractReply(p, OwnFieldOnly(p, b))
  {
  }

  /** The result of one adapter call: the payload it sent, if it got as far
      as sending one, and the reply text or the error it reported. */
  datatype ProviderCall = ProviderCall(request: Option<Payload>, reply: Result<string, AdapterError>)

  /** How an adapter reads the outcome of its one exchange. */
  function ReadExchange(p: Provider, h: HttpResult): (r: Result<string, AdapterError>)
    ensures h.NoResponse? ==> r == Err(RequestFailed(h.detail))
    ensures h.Answered? && h.status != StatusOk ==> r == Err(UpstreamStatus(h.status, h.body))
    ensures h.Answered? && h.status == StatusOk && h.parsed.None? ==> r == Err(UnparsableResponse(p))
    ensures h.Answered? && h.status == StatusOk && h.parsed.Some? ==> r == ExtractReply(p, h.parsed.value)
    ensures r.Ok? ==> h.Answered? && h.status == StatusOk && h.parsed.Some?
  {
    match h
    case NoResponse(detail) => Err(RequestFailed(detail))
    case Answered(status, body, parsed) =>
      if status != StatusOk then Err(UpstreamStatus(status, body))
      else if parsed.None? then Err(UnparsableResponse(p))
      else ExtractReply(p, parsed.value)
  }

  /** One adapter call: an empty key fails before any payload is built or
      sent; otherwise the transcript's payload is sent once and the outcome
      read. */
  function CallProvider(keys: ApiKeys, p: Provider, c: seq<Message>,
                        transport: Payload -> HttpResult): (r: ProviderCall)
    ensures r.request.None? <==> KeyFor(keys, p) == ""
    ensures r.request.None? ==> r.reply == Err(MissingApiKey(p))
    ensures r.request.Some? ==> r.request.value == BuildPayload(p, c)
    ensures r.request.Some? ==> r.reply == ReadExchange(p, transport(r.request.value))
  {
    if KeyFor(keys, p) == "" then ProviderCall(None, Err(MissingApiKey(p)))
    else
      var payload := BuildPayload(p, c);
      ProviderCall(Some(payload), ReadExchange(p, transport(payload)))
  }

  /** Without a key the network is never consulted: every transport yields
      the same call. */
  lemma MissingKeyNeverTouchesNetwork(keys: ApiKeys, p: Provider, c: seq<Message>,
                                      t1: Payload -> HttpResult, t2: Payload -> HttpResult)
    requires KeyFor(keys, p) == ""
    ensures CallProvider(keys, p, c, t1) == CallProvider(keys, p, c, t2) == ProviderCall(None, Err(MissingApiKey(p)))
  {
  }

  /** A successful call's text is the first text of the provider's own field
      in a 200 reply to exactly the payload built from the transcript. */
  lemma CallReplyComesFromProvider(keys: ApiKeys, p: Provider, c: seq<Message>,
                                   transport: Payload -> HttpResult, text: string)
    requires CallProvider(keys, p, c, transport).reply == Ok(text)
    ensures KeyFor(keys, p) != ""
    ensures transport(BuildPayload(p, c)).Answered?
    ensures transport(BuildPayload(p, c)).status == StatusOk
    ensures transport(BuildPayload(p, c)).parsed.Some?
    ensures ExtractReply(p, transport(BuildPayload(p, c)).parsed.value) == Ok(text)
  {
  }
}
