/** Reading the vCard text out of an endpoint's parsed JSON reply.  Only the
    properties the component reads are modelled; each may be missing.  A
    JavaScript read through a missing property throws a TypeError, which the
    handler catches like any other error. */
module LlmReply {
  import opened Wrappers
  import opened JsText

  /** `choices[i].message` of an OpenAI-compatible reply. */
  datatype CompletionMessage = CompletionMessage(content: Option<string>)

  datatype Choice = Choice(message: Option<CompletionMessage>)

  /** The parsed body of an OpenAI-compatible `/chat/completions` reply. */
  datatype ChatCompletion = ChatCompletion(choices: Option<seq<Choice>>)

  /** `content[i]` of the hosted provider's reply. */
  datatype ContentBlock = ContentBlock(text: Option<string>)

  /** The parsed body of the hosted provider's reply. */
  datatype HostedReply = HostedReply(content: Option<seq<ContentBlock>>)

  /** Why a conversion failed. */
  datatype ConvertError =
    | MalformedCustomReply   // the custom branch's own check rejected the reply
    | UndefinedRead          // a property read through undefined (a TypeError)
    | TransportFailure       // the request or the JSON parse of its reply failed

  /** What the network gave back for one request: a parsed reply, or a failure. */
  datatype Delivery<T> = Failed | Delivered(reply: T)

  /** The custom branch's guard: `choices`, `choices[0]` and its `message`
      are all present. */
  predicate HasFirstMessage(data: ChatCompletion)
  {
    data.choices.Some? && |data.choices.value| > 0 && data.choices.value[0].message.Some?
  }

  /** `choices[0].message.content.trim()`, guarded by the explicit check; a
      missing `content` still throws. */
  function ReadChatCompletion(data: ChatCompletion): (r: Result<string, ConvertError>)
    ensures r == Failure(MalformedCustomReply) <==> !HasFirstMessage(data)
    ensures r.Success? <==> HasFirstMessage(data) && data.choices.value[0].message.value.content.Some?
    ensures HasFirstMessage(data) && data.choices.value[0].message.value.content.None? ==> r == Failure(UndefinedRead)
    ensures r.Success? ==> IsStripped(r.value) && r.value == Trim(data.choices.value[0].message.value.content.value)
  {
    if HasFirstMessage(data) then
      match data.choices.value[0].message.value.content
      case Some(text) => Success(Trim(text))
      case None => Failure(UndefinedRead)
    else
      Failure(MalformedCustomReply)
  }

  /** `content[0].text.trim()` with no check: every missing step throws. */
  function ReadHostedReply(data: HostedReply): (r: Result<string, ConvertError>)
    ensures r.Success? <==> data.content.Some? && |data.content.value| > 0 && data.content.value[0].text.Some?
    ensures r.Failure? ==> r.error == UndefinedRead
    ensures r.Success? ==> IsStripped(r.value) && r.value == Trim(data.content.value[0].text.value)
  {
    if data.content.Some? && |data.content.value| > 0 && data.content.value[0].text.Some? then
      Success(Trim(data.content.value[0].text.value))
    else
      Failure(UndefinedRead)
  }

  /** The text the custom branch continues with, or the error it catches. */
  function CustomOutcome(d: Delivery<ChatCompletion>): Result<string, ConvertError>
  {
    match d
    case Failed => Failure(TransportFailure)
    case Delivered(data) => ReadChatCompletion(data)
  }

  /** The text the hosted branch continues with, or the error it catches. */
  function HostedOutcome(d: Delivery<HostedReply>): Result<string, ConvertError>
  {
    match d
    case Failed => Failure(TransportFailure)
    case Delivered(data) => ReadHostedReply(data)
  }

  /** A reply whose first choice's message says `text` yields `text` trimmed,
      whatever other choices follow. */
  lemma ChatCompletionYieldsText(text: string, rest: seq<Choice>)
    ensures ReadChatCompletion(ChatCompletion(Some([Choice(Some(CompletionMessage(Some(text))))] + rest))) == Success(Trim(text))
  {
  }

  /** A reply whose first block says `text` yields `text` trimmed. */
  lemma HostedReplyYieldsText(text: string, rest: seq<ContentBlock>)
    ensures ReadHostedReply(HostedReply(Some([ContentBlock(Some(text))] + rest))) == Success(Trim(text))
  {
  }
}
