/** The request the component sends to a chat endpoint.  Both branches send
    one POST whose JSON body names a model, caps the reply at 1000 tokens and
    carries one user message: a fixed instruction text with the user's input
    pasted in the middle.  The custom branch targets an OpenAI-compatible
    server chosen by the user; the hosted branch targets a fixed provider. */
module LlmRequest {
  import opened Wrappers
  import opened JsText

  /** The user's settings for the custom endpoint (`customAPI`). */
  datatype ApiConfig = ApiConfig(baseURL: string, apiKey: string, model: string)

  /** The settings the component starts with. */
  const DEFAULT_CONFIG := ApiConfig("http://localhost:1234/v1", "", "llama-3-8b-instruct")

  const MAX_TOKENS: nat := 1000
  const CHAT_COMPLETIONS_PATH := "/chat/completions"
  const HOSTED_URL := "https://api.anthropic.com/v1/messages"
  const HOSTED_MODEL := "claude-sonnet-4-20250514"
  const JSON_CONTENT_TYPE := "application/json"

  /** An instruction text written around the user's input: the words before
      it and the words after it. */
  datatype Template = Template(prefix: string, suffix: string)

  /** The custom branch's instructions: what to extract and the vCard 3.0
      field mapping.  The wording is a stand-in for the original text. */
  const CUSTOM_TEMPLATE := Template(
    "Analyse the text below and extract every contact detail as a vCard.\n\nText:\n",
    "\n\nRequirements: FN, N, ORG, TITLE, TEL, EMAIL, ADR and NOTE as found; strict vCard 3.0; output the vCard only.")

  /** The hosted branch's instructions: the same, plus an example vCard. */
  const HOSTED_TEMPLATE := Template(
    CUSTOM_TEMPLATE.prefix,
    "\n\nRequirements: FN, N, ORG, TITLE, TEL, EMAIL, ADR and NOTE as found; strict vCard 3.0; output the vCard only.\n\nExample:\nBEGIN:VCARD\nVERSION:3.0\nFN:...\nEND:VCARD")

  datatype ChatMessage = ChatMessage(role: string, content: string)

  datatype RequestBody = RequestBody(model: string, maxTokens: nat, messages: seq<ChatMessage>)

  /** A POST request: where it goes, its headers and its JSON body. */
  datatype HttpRequest = HttpRequest(url: string, headers: map<string, string>, body: RequestBody)

  /** The message text: the input pasted between the two parts. */
  function Prompt(t: Template, input: string): string
  {
    t.prefix + input + t.suffix
  }

  /** The input appears verbatim in the message, right after the opening words. */
  lemma PromptCarriesInput(t: Template, input: string)
    ensures |Prompt(t, input)| == |t.prefix| + |input| + |t.suffix|
    ensures OccursAt(input, Prompt(t, input), |t.prefix|)
  {
    var p := Prompt(t, input);
    assert p[|t.prefix|..|t.prefix| + |input|] == input;
  }

  /** Reads the input back out of a message built from `t`, if it is one. */
  function PromptInput(t: Template, p: string): (input: Option<string>)
  {
    var n, m := |t.prefix|, |t.suffix|;
    if n + m <= |p| && p[..n] == t.prefix && p[|p| - m..] == t.suffix then Some(p[n..|p| - m]) else None
  }

  /** No two inputs give the same message: the input is read back exactly. */
  lemma PromptRoundTrip(t: Template, input: string)
    ensures PromptInput(t, Prompt(t, input)) == Some(input)
  {
    var p := Prompt(t, input);
    var n, m := |t.prefix|, |t.suffix|;
    assert p[..n] == t.prefix;
    assert p[|p| - m..] == t.suffix;
    assert p[n..|p| - m] == input;
  }

  /** The custom branch's headers, as the object literal plus the optional
      `Authorization` entry leave them. */
  function CustomHeaders(apiKey: string): (h: map<string, string>)
    ensures "Content-Type" in h && h["Content-Type"] == JSON_CONTENT_TYPE
    ensures "Authorization" in h <==> apiKey != ""
    ensures "Authorization" in h ==> h["Authorization"] == "Bearer " + apiKey
    ensures h.Keys <= {"Content-Type", "Authorization"}
  {
    var h := map["Content-Type" := JSON_CONTENT_TYPE];
    if apiKey != "" then h["Authorization" := "Bearer " + apiKey] else h
  }

  /** Builds the headers by adding to the object in place, as the handler does. */
  method BuildHeaders(apiKey: string) returns (headers: map<string, string>)
    ensures headers == CustomHeaders(apiKey)
  {
    headers := map["Content-Type" := JSON_CONTENT_TYPE];
    if apiKey != "" {
      headers := headers["Authorization" := "Bearer " + apiKey];
    }
  }

  /** The body both branches send: one user message, at most 1000 tokens. */
  function ChatBody(model: string, t: Template, input: string): RequestBody
  {
    RequestBody(model, MAX_TOKENS, [ChatMessage("user", Prompt(t, input))])
  }

  /** The request to the user's OpenAI-compatible server. */
  function CustomRequest(api: ApiConfig, input: string): HttpRequest
  {
    HttpRequest(api.baseURL + CHAT_COMPLETIONS_PATH, CustomHeaders(api.apiKey), ChatBody(api.model, CUSTOM_TEMPLATE, input))
  }

  /** The request to the hosted provider: fixed URL and model, no key. */
  function HostedRequest(input: string): HttpRequest
  {
    HttpRequest(HOSTED_URL, map["Content-Type" := JSON_CONTENT_TYPE], ChatBody(HOSTED_MODEL, HOSTED_TEMPLATE, input))
  }

  /** What the custom request consists of.  The URL is the plain
      concatenation of the base URL and the path, with no slash added or
      removed; the input can be read back from the one user message. */
  lemma CustomRequestShape(api: ApiConfig, input: string)
    ensures var r := CustomRequest(api, input);
      && |api.baseURL| <= |r.url| && r.url[..|api.baseURL|] == api.baseURL
      && r.url[|api.baseURL|..] == "/chat/completions"
      && "Content-Type" in r.headers && r.headers["Content-Type"] == "application/json"
      && ("Authorization" in r.headers <==> api.apiKey != "")
      && ("Authorization" in r.headers ==> r.headers["Authorization"] == "Bearer " + api.apiKey)
      && r.body.model == api.model && r.body.maxTokens == 1000
      && |r.body.messages| == 1 && r.body.messages[0].role == "user"
      && PromptInput(CUSTOM_TEMPLATE, r.body.messages[0].content) == Some(input)
  {
    var r := CustomRequest(api, input);
    assert r.url[..|api.baseURL|] == api.baseURL;
    PromptRoundTrip(CUSTOM_TEMPLATE, input);
  }

  /** What the hosted request consists of: fixed URL, model and headers, and
      the input readable from the one user message. */
  lemma HostedRequestShape(input: string)
    ensures var r := HostedRequest(input);
      && r.url == HOSTED_URL && r.headers.Keys == {"Content-Type"}
      && r.headers["Content-Type"] == "application/json"
      && r.body.model == HOSTED_MODEL && r.body.maxTokens == 1000
      && |r.body.messages| == 1 && r.body.messages[0].role == "user"
      && PromptInput(HOSTED_TEMPLATE, r.body.messages[0].content) == Some(input)
  {
    PromptRoundTrip(HOSTED_TEMPLATE, input);
  }

  /** Assembles the custom request around headers built in place. */
  method BuildCustomRequest(api: ApiConfig, input: string) returns (request: HttpRequest)
    ensures request == CustomRequest(api, input)
  {
    var headers := BuildHeaders(api.apiKey);
    request := HttpRequest(api.baseURL + CHAT_COMPLETIONS_PATH, headers, ChatBody(api.model, CUSTOM_TEMPLATE, input));
  }
}
