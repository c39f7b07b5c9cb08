# Chat gateway turn pipeline, modelled in Dafny

This project models the core of a chat gateway written in Go (`be-go/main.go`). A client
sends one new message for a session and names a model: `gemini`, `llama`, `claude` or
`chatgpt`. The gateway then:

- loads the session's transcript from a key-value store;
- seeds a fixed system prompt into a new session;
- appends the client's message;
- translates the transcript into the selected provider's request schema;
- reads the reply text out of the provider's response;
- appends that reply as an `"ai"` message and saves the transcript;
- returns the reply.

Modules, leaves first:

- `Results`: `Option` and `Result`, in place of Go's `(value, error)` pairs.
- `Transcript`: the canonical `Message{role, text}`, the three known roles and the
  system prompt. It also defines `Known`, the filter that keeps messages with a known
  role in their original order. `Known` is the reference every adapter's translation is
  proved against.
- `Providers`: the four providers, the model-name dispatch table, the per-provider API
  key and each adapter's role table.
- `Payloads`: the request schemas and the translation loops.
  - Gemini builds one single-part entry per known message.
  - Llama, Claude and ChatGPT pre-size their Go slice with `make([]T, len(contents))` and
    then `append`. Their message list therefore starts with `len(contents)` empty
    `{role:"", content:""}` entries, followed by the mapped messages. The model
    reproduces this exactly.
  - Claude's adapter sends the assistant role as the misspelt `"asssitant"`. The model
    reproduces this too.
- `Adapters`: the reply envelopes, reply extraction, the HTTP status rule and one
  complete adapter call. The network is a parameter, a total function from the payload
  sent to the outcome of the exchange.
- `SessionStore`: the store as a `map<string, seq<Message>>`. Whether a read or a write
  reaches the backend is a flag supplied for each request.
- `Gateway`: `HandleChat`, the whole turn of `chatHandler`. It returns the client's
  reply, the store afterwards and the payloads sent upstream. `Converse` runs
  consecutive turns on one session.

Points where the code's behaviour is easy to misread, modelled as the code has it:

- The history is loaded before the model name is checked. So a request with an unknown
  model name and an unreachable store gets 500, not 400.
- Any empty transcript is seeded with the system prompt, whether the key is absent or
  an empty list was stored.
- Of `contents`, only the first message is used.
- The role tables are not uniform: Claude uses `"asssitant"`, and three adapters send
  placeholder entries first.
- A reply body that does not parse and a parsed body without the expected field are two
  distinct errors.

## Model

| member | source | states |
|---|---|---|
| Transcript.Known | be-go/main.go:301-320 | the messages an adapter forwards are no more than the transcript, and each has a role in {user, ai, system} |
| Transcript.KnownAppend | be-go/main.go:301-337 | forwarding preserves order: the forwarded messages of a concatenation are those of the first part followed by those of the second |
| Transcript.KnownMembers | be-go/main.go:315-319 | a message is forwarded iff it occurs in the transcript and its role is known; unknown roles are skipped, never sent |
| Transcript.KnownKeepsAll | be-go/main.go:305-320 | nothing is dropped iff every role in the transcript is known |
| Transcript.KnownLengthMeansAll | be-go/main.go:315-319 | if the forwarded messages are as many as the transcript's, they are the transcript itself |
| Providers.ProviderFor | be-go/main.go:254-266 | dispatch selects a provider only for its own model name, and fails exactly for names outside the four |
| Providers.ProviderForInvertsModelName | be-go/main.go:254-266 | a name selects provider p iff it is p's model name (dispatch and naming are inverse) |
| Providers.ProviderRole | be-go/main.go:305-551 | every role table is total on {user, ai, system} and undefined elsewhere; mapped roles are non-empty; user and system map to "user" and ai never does |
| Payloads.GeminiFold | be-go/main.go:301-337 | the Gemini loop keeps what it appended to, then adds one entry per known message in order, role mapped and text as its single part |
| Payloads.GeminiContents | be-go/main.go:299-337 | Gemini's list has no prefix: exactly one entry per known message, in order, with the mapped role and one part holding the original text |
| Payloads.GeminiDropsOnlyUnknown | be-go/main.go:305-320 | Gemini's list is as long as the transcript iff every role is known, and only "user" and "model" roles are sent |
| Payloads.FlatFold | be-go/main.go:391-414 | the flat loop keeps what it appended to, then adds one {role, content} entry per known message in order |
| Payloads.FlatMessages | be-go/main.go:378-414 | length is len(contents) + number of known messages; the first len(contents) entries are empty placeholders; the rest are the known messages in order with mapped role and unchanged text |
| Payloads.FlatPlaceholdersArePrefix | be-go/main.go:378-557 | an entry of a flat list has an empty role iff it is one of the len(contents) leading placeholders |
| Payloads.LlamaAgreesWithChatGPT | be-go/main.go:391-557 | ChatGPT and Llama send identical message lists for every transcript |
| Payloads.ClaudeDiffersOnlyInAssistantSpelling | be-go/main.go:462-557 | Claude's list matches ChatGPT's in length and content; an entry is "asssitant" for Claude iff it is "assistant" for ChatGPT, and every other role is the same; after the placeholders only "user" and "asssitant" occur |
| Payloads.FlatRolesByProvider | be-go/main.go:391-551 | after the placeholders, an ai message is sent as "assistant" by Llama and ChatGPT and as "asssitant" by Claude, and every other forwarded message as "user" |
| Payloads.BuildPayload | be-go/main.go:339-562 | each provider gets its own schema, one-to-one: Gemini's contents, Perplexity for Llama, Anthropic for Claude, OpenAI for ChatGPT; Gemini's holds its contents list, the others the flat list, and Anthropic's carries max_tokens 1024 |
| Adapters.ExtractReply | be-go/main.go:362-581 | Gemini succeeds iff there is a candidate with a part and returns the first part's text; Llama and ChatGPT iff choices is non-empty; Claude iff content is non-empty; otherwise an unexpected-shape error |
| Adapters.ExtractReadsOnlyOwnField | be-go/main.go:357-581 | the reply depends only on the provider's own response field |
| Adapters.ReadExchange | be-go/main.go:423-600 | no response is a request error; a non-200 status is an error carrying status and body; an unparsable 200 body is a parse error; a parsed 200 body yields exactly the provider's extraction result; success only ever comes from a parsed 200 body |
| Adapters.CallProvider | be-go/main.go:294-600 | a request is sent iff the provider's key is non-empty; an empty key is a config error; the payload sent is the one built from the transcript |
| Adapters.MissingKeyNeverTouchesNetwork | be-go/main.go:294-520 | with an empty key the call is the same for every network behaviour: nothing is built or sent |
| Adapters.CallReplyComesFromProvider | be-go/main.go:294-581 | a successful call means the key was set and the provider answered 200 to the built payload with a body whose own field yields that text |
| SessionStore.Load | be-go/main.go:150-171 | a read fails iff the backend is unreachable; an absent key loads as the empty transcript, a present one as its stored value |
| SessionStore.Save | be-go/main.go:174-190 | a write fails iff the backend is unreachable; a successful write stores the transcript under the id and leaves every other key as it was |
| SessionStore.SaveThenLoad | be-go/main.go:156-185 | round trip: a saved transcript loads back unchanged, and other sessions load as before |
| Gateway.HandleChat | be-go/main.go:214-287 | empty session id or contents is a 400 with no store access and nothing sent; refusals leave the store unchanged; an answer stores prompted history + ai reply (or nothing on a failed write); at most one payload is sent; other sessions are untouched |
| Gateway.Prompted | be-go/main.go:228-246 | the transcript sent upstream is at least two messages long and ends with the client's new message |
| Gateway.PromptedSeedsOnlyEmptyHistory | be-go/main.go:230-238 | before the new message comes the stored history when it is non-empty, and the system prompt alone when it is empty |
| Gateway.ProviderTextIsAnswer | be-go/main.go:254-287 | once the history has loaded and the model is known, the client is answered with a text iff the provider call returned that text |
| Gateway.GeminiHelloScenario | be-go/main.go:228-287 | a new session on Gemini where the provider answers "hello" to [system prompt, "hi"]: the client gets "hello", exactly that payload is sent, and the store holds [system prompt, "hi", "hello"] |
| Gateway.LoadFailureAborts | be-go/main.go:220-226 | a failed history read is a 500 with the store unchanged and no provider called, whatever the model |
| Gateway.UnknownModelRefused | be-go/main.go:254-266 | a model outside the four is a 400 with the store unchanged and no provider called |
| Gateway.ProviderErrorLeavesStore | be-go/main.go:254-271 | a provider error is a 500 carrying that error and the store is unchanged; with a missing key nothing was sent, and with a key set exactly the payload built from the prompted transcript was sent before the error |
| Gateway.AnswerIsProviderText | be-go/main.go:254-287 | the returned text is the selected provider's extracted 200 reply to the payload built from the prompted transcript, which was the one payload sent |
| Gateway.FirstTurnSeedsSystemPrompt | be-go/main.go:228-246 | on a new session (absent key or stored empty list) the provider receives [system prompt, message] and the store ends with [system prompt, message, ai reply] |
| Gateway.LaterTurnAppendsTwo | be-go/main.go:240-284 | on a session with history H the store ends with H + [message, ai reply]; the system prompt is not injected again |
| Gateway.SaveFailureKeepsReply | be-go/main.go:280-287 | the client's reply is the same whether or not the save succeeds |
| Gateway.OnlyFirstMessageUsed | be-go/main.go:240-246 | messages after contents[0] do not affect the turn |
| Gateway.Exchanges | be-go/main.go:273-278 | interleaving N messages with their replies gives 2N messages |
| Gateway.Converse | be-go/main.go:193-288 | N consecutive requests produce N replies |
| Gateway.ConversationAppendsExchanges | be-go/main.go:240-284 | on a session with history, a run of answered turns stores the old history followed by each message and its reply, in order |
| Gateway.NewSessionConversation | be-go/main.go:228-284 | on a new session (absent key or stored empty list), N answered turns store the system prompt followed by each message and its reply: 1 + 2N messages |
| Gateway.ConversationIsolatesSessions | be-go/main.go:280-285 | a conversation on one session never changes, adds or removes any other session |

## Left out

- HTTP plumbing is not modelled: the OPTIONS short-circuit, the POST-only check, CORS headers, the 405 status and logging. This is web-framework glue with no bearing on the transcript.
- JSON encoding and decoding is not modelled. The request body and the stored transcript are taken as already decoded. A reply body is an abstract decoded envelope, with `None` standing for a body that does not parse.
- The Redis client, `InitRedis` and stateless mode are not modelled. A missing client, a backend error and an undecodable stored value all appear as the read or write flag being false.
- The 24-hour TTL is not modelled, because expiry depends on wall-clock time. An expired key behaves like an absent one, which `SessionStore.Load` covers.
- `getChatHistoryHandler` is not modelled: it passes the stored JSON through unchanged.
- The network side of `makeAPIRequest*` is not modelled: request construction, headers, the 30-second timeout and the connection itself. These become the transport parameter; only the rule "non-200 is an error carrying status and body" is kept.
- Model names, endpoint URLs and Gemini's `generationConfig` values are not represented, because they are constants with no behaviour. Anthropic's `max_tokens` of 1024 is kept.
- Error messages are modelled as error constructors, not as the formatted strings Go builds.
- The unsynchronised read-modify-write across concurrent requests on one session is not modelled: each turn here is atomic.
- Gateway.HandleChat: a failed write is taken to have written nothing, so the store is unchanged after it. The Go code only learns that the SET returned an error; Redis may already have applied the write, for example before a read timeout.
- Gateway.Converse: one transport function serves every turn. A turn's outcome therefore depends only on the payload sent, and the store is healthy or not in the same way on every turn.
