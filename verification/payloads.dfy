/** Translation of a canonical transcript into each provider's request
    schema: the role-mapping loops of callGeminiAPI, callLlamaAPI,
    callClaudeAPI and callChatGPTAPI (be-go/main.go). */
module Payloads {
  import opened Results
  import opened Transcript
  import opened Providers

  datatype GeminiPart = GeminiPart(text: string)

  /** A Gemini content entry: a role and its list of text parts. */
  datatype GeminiMessage = GeminiMessage(role: string, parts: seq<GeminiPart>)

  /** The flat {role, content} message; the Perplexity, Anthropic and OpenAI
      schemas all use this one shape. */
  datatype FlatMessage = FlatMessage(role: string, content: string)

  /** The zero value Go's make([]T, n) fills a message slice with. */
  const Placeholder: FlatMessage := FlatMessage("", "")

  /** The request body each adapter sends. Model names and Gemini's
      generation parameters are constants and are not represented. */
  datatype Payload =
    | GeminiPayload(contents: seq<GeminiMessage>)
    | PerplexityPayload(messages: seq<FlatMessage>)
    | AnthropicPayload(messages: seq<FlatMessage>, maxTokens: int)
    | OpenaiPayload(messages: seq<FlatMessage>)

  const AnthropicMaxTokens: int := 1024

  /** One pass of Gemini's loop over the transcript, appending to acc. */
  function GeminiFold(acc: seq<GeminiMessage>, c: seq<Message>): (r: seq<GeminiMessage>)
    ensures |r| == |acc| + |Known(c)|
    ensures r[..|acc|] == acc
    ensures forall k :: 0 <= k < |Known(c)| ==>
              r[|acc| + k] == GeminiMessage(ProviderRole(Gemini, Known(c)[k].role).value,
                                            [GeminiPart(Known(c)[k].text)])
    decreases |c|
  {
    if |c| == 0 then acc
    else match ProviderRole(Gemini, c[0].role)
      case None =>
        assert Known(c) == Known(c[1..]);
        GeminiFold(acc, c[1..])
      case Some(role) =>
        assert Known(c) == [c[0]] + Known(c[1..]);
        GeminiFold(acc + [GeminiMessage(role, [GeminiPart(c[0].text)])], c[1..])
  }

  /** Gemini's contents list: starts empty (no placeholder prefix) and holds
      one single-part entry per known message, in order. */
  function GeminiContents(c: seq<Message>): (r: seq<GeminiMessage>)
    ensures |r| == |Known(c)|
    ensures forall k :: 0 <= k < |r| ==>
              && r[k].role == ProviderRole(Gemini, Known(c)[k].role).value
              && r[k].parts == [GeminiPart(Known(c)[k].text)]
  {
    var none: seq<GeminiMessage> := [];
    var r := GeminiFold(none, c);
    assert forall k :: 0 <= k < |r| ==> r[k] == r[|none| + k];
    r
  }

  /** One pass of the flat adapters' loop over the transcript, appending to acc. */
  function FlatFold(p: Provider, acc: seq<FlatMessage>, c: seq<Message>): (r: seq<FlatMessage>)
    ensures |r| == |acc| + |Known(c)|
    ensures r[..|acc|] == acc
    ensures forall k :: 0 <= k < |Known(c)| ==>
              r[|acc| + k] == FlatMessage(ProviderRole(p, Known(c)[k].role).value, Known(c)[k].text)
    decreases |c|
  {
    if |c| == 0 then acc
    else match ProviderRole(p, c[0].role)
      case None =>
        assert Known(c) == Known(c[1..]);
        FlatFold(p, acc, c[1..])
      case Some(role) =>
        assert Known(c) == [c[0]] + Known(c[1..]);
        FlatFold(p, acc + [FlatMessage(role, c[0].text)], c[1..])
  }

  /** The Llama, Claude and ChatGPT message list: the slice is pre-sized to
      |c| placeholders and the mapped messages are appended after them. */
  function FlatMessages(p: Provider, c: seq<Message>): (r: seq<FlatMessage>)
    ensures |r| == |c| + |Known(c)|
    ensures forall i :: 0 <= i < |c| ==> r[i] == Placeholder
    ensures forall k :: 0 <= k < |Known(c)| ==>
              && r[|c| + k].role == ProviderRole(p, Known(c)[k].role).value
              && r[|c| + k].content == Known(c)[k].text
  {
    var r := FlatFold(p, seq(|c|, _ => Placeholder), c);
    assert forall i :: 0 <= i < |c| ==> r[i] == r[..|c|][i];
    r
  }

  /** The request body each provider is sent for a transcript. */
  function BuildPayload(p: Provider, c: seq<Message>): (r: Payload)
    ensures p == Gemini <==> r.GeminiPayload?
    ensures p == Gemini ==> r.contents == GeminiContents(c)
    ensures p != Gemini ==> r.messages == FlatMessages(p, c)
    ensures p == Llama <==> r.PerplexityPayload?
    ensures p == Claude <==> r.AnthropicPayload?
    ensures p == ChatGPT <==> r.OpenaiPayload?
    ensures r.AnthropicPayload? ==> r.maxTokens == AnthropicMaxTokens
  {
    match p
    case Gemini => GeminiPayload(GeminiContents(c))
    case Llama => PerplexityPayload(FlatMessages(Llama, c))
    case Claude => AnthropicPayload(FlatMessages(Claude, c), AnthropicMaxTokens)
    case ChatGPT => OpenaiPayload(FlatMessages(ChatGPT, c))
  }

  /** Gemini drops exactly the unknown-role messages: its list is as long as
      the transcript iff every role is known, and only "user" and "model"
      roles are ever sent. */
  lemma GeminiDropsOnlyUnknown(c: seq<Message>)
    ensures |GeminiContents(c)| == |c| <==> forall i :: 0 <= i < |c| ==> IsKnownRole(c[i].role)
    ensures forall k :: 0 <= k < |GeminiContents(c)| ==>
              GeminiContents(c)[k].role in {"user", "model"}
  {
    KnownKeepsAll(c);
    if |Known(c)| == |c| {
      KnownLengthMeansAll(c);
    }
    var r := GeminiContents(c);
    forall k | 0 <= k < |r|
      ensures r[k].role in {"user", "model"}
    {
      var m := Known(c)[k];
      assert r[k].role == ProviderRole(Gemini, m.role).value;
    }
  }

  /** In a flat message list an entry has an empty role exactly when it is
      one of the placeholders, so every real entry is told apart from them. */
  lemma FlatPlaceholdersArePrefix(p: Provider, c: seq<Message>)
    ensures forall i :: 0 <= i < |FlatMessages(p, c)| ==>
              (FlatMessages(p, c)[i].role == "" <==> i < |c|)
  {
    var r := FlatMessages(p, c);
    forall i | |c| <= i < |r|
      ensures r[i].role != ""
    {
      var k := i - |c|;
      assert r[|c| + k].role == ProviderRole(p, Known(c)[k].role).value;
    }
  }

  /** The Llama and ChatGPT adapters share one role table, so they send the
      same message list for every transcript. */
  lemma LlamaAgreesWithChatGPT(c: seq<Message>)
    ensures FlatMessages(Llama, c) == FlatMessages(ChatGPT, c)
  {
    var a, b := FlatMessages(Llama, c), FlatMessages(ChatGPT, c);
    forall i | 0 <= i < |a|
      ensures a[i] == b[i]
    {
      if i >= |c| {
        var k := i - |c|;
        var m := Known(c)[k];
        assert ProviderRole(Llama, m.role) == ProviderRole(ChatGPT, m.role);
        assert a[|c| + k].role == b[|c| + k].role;
        assert a[|c| + k].content == b[|c| + k].content;
      }
    }
  }

  /** Claude's list differs from ChatGPT's only in the assistant turns, which
      carry "asssitant" instead of "assistant"; unknown roles reach neither. */
  lemma ClaudeDiffersOnlyInAssistantSpelling(c: seq<Message>)
    ensures |FlatMessages(Claude, c)| == |FlatMessages(ChatGPT, c)|
    ensures forall i :: 0 <= i < |FlatMessages(Claude, c)| ==>
              var m, o := FlatMessages(Claude, c)[i], FlatMessages(ChatGPT, c)[i];
              m.content == o.content &&
              (o.role == "assistant" <==> m.role == "asssitant") &&
              (o.role != "assistant" ==> m.role == o.role)
    ensures forall i :: |c| <= i < |FlatMessages(Claude, c)| ==>
              FlatMessages(Claude, c)[i].role in {"user", "asssitant"}
  {
    var m, o := FlatMessages(Claude, c), FlatMessages(ChatGPT, c);
    forall i | |c| <= i < |m|
      ensures m[i].content == o[i].content
      ensures o[i].role == "assistant" <==> m[i].role == "asssitant"
      ensures o[i].role != "assistant" ==> m[i].role == o[i].role
      ensures m[i].role in {"user", "asssitant"}
    {
      var k := i - |c|;
      assert m[|c| + k].role == ProviderRole(Claude, Known(c)[k].role).value;
      assert o[|c| + k].role == ProviderRole(ChatGPT, Known(c)[k].role).value;
    }
  }

  /** After the placeholders, the flat adapters' roles follow their tables:
      an ai message becomes "assistant" for Llama and ChatGPT and "asssitant"
      for Claude, and every other forwarded message becomes "user". */
  lemma FlatRolesByProvider(p: Provider, c: seq<Message>)
    requires p != Gemini
    ensures forall k :: 0 <= k < |Known(c)| ==>
              FlatMessages(p, c)[|c| + k].role ==
                if Known(c)[k].role != AiRole then "user"
                else if p == Claude then "asssitant"
                else "assistant"
  {
  }
}
