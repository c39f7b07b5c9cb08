/** The four provider families, how a request names them, their credentials
    and their role tables (be-go/main.go, chatHandler's switch and the role
    switch inside each callXxxAPI). */
module Providers {
  import opened Results
  import opened Transcript

  datatype Provider = Gemini | Llama | Claude | ChatGPT

  /** The model name a client sends to select a provider. */
  function ModelName(p: Provider): string {
    match p
    case Gemini => "gemini"
    case Llama => "llama"
    case Claude => "claude"
    case ChatGPT => "chatgpt"
  }

  /** The router's dispatch: the provider serving a requested model name, or
      None for a name outside the four. */
  function ProviderFor(name: string): (r: Option<Provider>)
    ensures r.Some? ==> ModelName(r.value) == name
    ensures r.None? <==> name !in {"gemini", "llama", "claude", "chatgpt"}
  {
    if name == "gemini" then Some(Gemini)
    else if name == "llama" then Some(Llama)
    else if name == "claude" then Some(Claude)
    else if name == "chatgpt" then Some(ChatGPT)
    else None
  }

  /** Dispatch and naming are inverse: a name selects a provider exactly when
      it is that provider's model name. */
  lemma ProviderForInvertsModelName(name: string, p: Provider)
    ensures ProviderFor(name) == Some(p) <==> ModelName(p) == name
  {
  }

  /** One credential per provider, read from the environment at start-up. */
  datatype ApiKeys = ApiKeys(gemini: string, llama: string, claude: string, chatGPT: string)

  function KeyFor(keys: ApiKeys, p: Provider): string {
    match p
    case Gemini => keys.gemini
    case Llama => keys.llama
    case Claude => keys.claude
    case ChatGPT => keys.chatGPT
  }

  /** The provider's name for the assistant's turns. Claude's adapter sends
      the misspelt "asssitant", reproduced as written. */
  function AssistantRole(p: Provider): string {
    match p
    case Gemini => "model"
    case Llama => "assistant"
    case Claude => "asssitant"
    case ChatGPT => "assistant"
  }

  /** Each adapter's role table: user and system become the provider's
      "user" role, ai becomes its assistant role, anything else is skipped. */
  function ProviderRole(p: Provider, role: string): (r: Option<string>)
    ensures r.Some? <==> IsKnownRole(role)
    ensures r.Some? ==> r.value != ""
    ensures r.Some? ==> (r.value == "user" <==> role != AiRole)
  {
    if role == UserRole then Some("user")
    else if role == AiRole then Some(AssistantRole(p))
    else if role == SystemRole then Some("user")
    else None
  }
}
