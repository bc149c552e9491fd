# Contact converter, modelled in Dafny

A model of the single React component `ContactConverter`. The component
takes free-form contact text and asks a chat-completion endpoint to turn it
into a vCard 3.0 card. The endpoint is either a hosted provider or an
OpenAI-compatible server the user configures. In single mode it shows the
one card. In batch mode it appends each converted card, together with the
display name taken from its `FN:` line, to a contact list. The list's cards,
joined by blank lines, form a combined export. The user can remove contacts
by id, clear the list, toggle modes, copy the shown text and download it as
a `.vcf` file.

Modules, one per concern of the component:

- `JsText`: the JavaScript string operations the handlers depend on.
  - `String.prototype.trim` over the exact ECMAScript WhiteSpace and
    LineTerminator sets.
  - `Array.prototype.join`.
  - The decimal rendering of a count inside a template literal.
- `VCardName`: `extractNameFromVCard`. It is the first match of the
  unanchored `FN:(.+)`, trimmed, or the placeholder `未知联系人`.
- `LlmRequest`: the custom branch's headers, URL and body, and the hosted
  branch's fixed request. Both carry one user message with the input
  pasted between two fixed texts.
- `LlmReply`: reading the vCard text out of each branch's parsed reply,
  including every way a missing property makes the read throw.
- `ContactConverter`: the component state as the class `Converter`, one
  method per handler. This module also holds the combined export, removal
  by id, and the download file name.

The class invariant `Converter.Valid` says two things. Between handler
steps no conversion is in flight. The combined export always equals the
list's cards joined by `"\n\n"`. Every state-changing handler keeps it.

Behaviour of the code that the model keeps, though it may surprise:

- The hosted branch has no guard on the reply's shape. A reply without
  `content[0].text` fails with the error of a read through `undefined`, not
  with the custom branch's "malformed reply" error.
- The custom branch's guard does not look at `message.content`. A missing
  content also fails as a read through `undefined`.
- `setResult('')` (contact-converter.jsx:38) runs before the branch. So the
  single result is empty after a failed conversion, and also after the
  missing-base-URL refusal.
- A vCard without a match always gives the placeholder. The converse does
  not hold: a matched value can itself trim to the placeholder text. So
  `ExtractName` states the two directions separately.

## Model

| member | source | states |
|---|---|---|
| `JsText.Trim` | contact-converter.jsx:204 | The trimmed text has no space at either end. It is a contiguous piece of the input with only space before it and only space after it. |
| `JsText.TrimPadded` | contact-converter.jsx:108 | The contract of `trim` determines it: a stripped text padded on both sides with space trims back to exactly that text. |
| `JsText.TrimIdempotent` | contact-converter.jsx:175 | Trimming twice is trimming once. |
| `JsText.BlankIffTrimEmpty` | contact-converter.jsx:32 | The input test `!inputText.trim()` holds exactly when every character is space. The handler's blank check agrees with it in both directions. |
| `JsText.TrimKeepsOneLine` | contact-converter.jsx:203-204 | Trimming text that has no line terminator leaves none. |
| `JsText.JoinSnoc` | contact-converter.jsx:208 | Joining one more part appends the separator and that part. |
| `JsText.JoinConcat` | contact-converter.jsx:208 | Joining two non-empty lists is the two joins with a separator between. |
| `JsText.Decimal` | contact-converter.jsx:237 | The rendered count is a non-empty digit string with a leading zero only for zero. |
| `JsText.DecimalRoundTrip` | contact-converter.jsx:237 | The rendered count's digits denote the count. |
| `JsText.DecimalInjective` | contact-converter.jsx:237 | Different counts render as different texts. |
| `VCardName.FindFn` | contact-converter.jsx:203 | The regex's scan returns the leftmost position where `FN:` is followed by a character `.` accepts, or none when there is no such position. |
| `VCardName.LineEnd` | contact-converter.jsx:203 | The greedy `.+` stops at the first line terminator or at the end of the text. |
| `VCardName.FnValue` | contact-converter.jsx:203 | The capture group is absent exactly when nothing matches. Otherwise it is the text from the leftmost match to the end of that line: non-empty and free of line terminators. |
| `VCardName.ExtractName` | contact-converter.jsx:202-205 | With no match the name is `未知联系人`. With a leftmost match it is that line's remainder after `FN:`, trimmed. |
| `VCardName.FirstFnUnique` | contact-converter.jsx:203 | The leftmost match is unique. |
| `VCardName.ExtractedNameIsLineFragment` | contact-converter.jsx:203-204 | When some match exists, the name is stripped, occurs verbatim in the vCard and lies within one line. |
| `VCardName.NameOfFnLine` | contact-converter.jsx:202-205 | A line `FN:<value>` with no `F` before it names the trimmed value. |
| `VCardName.NameOfStrippedFnLine` | contact-converter.jsx:202-205 | A line `FN:<name>` whose name is already stripped names exactly that name. |
| `VCardName.JaneDoe` | contact-converter.jsx:202-205 | A typical reply's card, with `FN:Jane Doe` on its third line, names `Jane Doe`. |
| `VCardName.UnanchoredMatch` | contact-converter.jsx:203 | The pattern is not anchored: `NOTE:XFN:Bob` names `Bob`. |
| `VCardName.EmptyFnLineSkipped` | contact-converter.jsx:203-204 | An `FN:` with nothing after it on its line is passed over for a later `FN: Bob `, which gives `Bob`. |
| `LlmRequest.PromptCarriesInput` | contact-converter.jsx:69-72 | The user's input appears verbatim in the message, right after the opening instructions. |
| `LlmRequest.PromptRoundTrip` | contact-converter.jsx:126-129 | The input is read back exactly from the message, so different inputs never give the same message. |
| `LlmRequest.CustomHeaders` | contact-converter.jsx:51-58 | `Content-Type` is always `application/json`. `Authorization` is present exactly when the key is non-empty, and then it is `Bearer <key>`. No other header is sent. |
| `LlmRequest.BuildHeaders` | contact-converter.jsx:51-58 | Adding to the header object in place yields exactly `CustomHeaders`. |
| `LlmRequest.CustomRequestShape` | contact-converter.jsx:60-72 | The URL is the base URL followed by `/chat/completions`, with no slash added or dropped. The body names the configured model, caps at 1000 tokens and holds one user message whose input reads back. |
| `LlmRequest.HostedRequestShape` | contact-converter.jsx:115-129 | The request has the fixed provider URL and model, only the JSON content-type header, a 1000-token cap and one user message whose input reads back. |
| `LlmRequest.BuildCustomRequest` | contact-converter.jsx:60-102 | The method-built custom request is `CustomRequest`, whose shape the lemma above states. |
| `LlmReply.ReadChatCompletion` | contact-converter.jsx:104-111 | The guard's error arises exactly when `choices`, `choices[0]` or its `message` is missing. Success requires a present `content` as well, and yields that content trimmed. A missing `content` is a read through `undefined`. |
| `LlmReply.ReadHostedReply` | contact-converter.jsx:174-175 | Success happens exactly when `content`, `content[0]` and its `text` are all present, and yields the text trimmed. Every other case is a read through `undefined`. |
| `LlmReply.ChatCompletionYieldsText` | contact-converter.jsx:107-108 | A reply whose first choice carries text yields that text trimmed, whatever choices follow. |
| `LlmReply.HostedReplyYieldsText` | contact-converter.jsx:175 | A reply whose first block carries text yields that text trimmed, whatever blocks follow. |
| `ContactConverter.CombinedAppend` | contact-converter.jsx:186-187 | Appending a contact extends the combined export by a blank line and its card. The first contact's card is the whole export. |
| `ContactConverter.CombinedConcat` | contact-converter.jsx:207-209 | The export of two non-empty lists is their exports with a blank line between. |
| `ContactConverter.WithoutIdMembers` | contact-converter.jsx:213 | Exactly the contacts with a different id are kept, and the list never grows. |
| `ContactConverter.WithoutIdConcat` | contact-converter.jsx:213 | Filtering works element by element, so kept contacts stay in their order. |
| `ContactConverter.WithoutAbsentId` | contact-converter.jsx:212-216 | Removing an id no contact has changes nothing. |
| `ContactConverter.WithoutIdIdempotent` | contact-converter.jsx:212-216 | Removing the same id twice is removing it once. |
| `ContactConverter.RemoveMiddleContact` | contact-converter.jsx:212-216 | With distinct ids, removing the middle of three contacts leaves the other two in order. The export is then their two cards with a blank line between. |
| `ContactConverter.FileNameStatesBatchSize` | contact-converter.jsx:237 | A batch download's name `contacts_batch_<n>.vcf` reads back as exactly the list size. The single download's name carries no size. |
| `ContactConverter.Converter.constructor` | contact-converter.jsx:4-17 | Everything starts empty and false. The custom settings are `http://localhost:1234/v1`, an empty key and `llama-3-8b-instruct`. |
| `ContactConverter.Converter.UpdateBatchResult` | contact-converter.jsx:207-210 | The combined export becomes the given list's cards joined by blank lines. |
| `ContactConverter.Converter.HandleConvert` | contact-converter.jsx:31-199 | It keeps `Valid`, the mode and the settings. Blank input only asks for input. Custom mode without a base URL clears the result and asks for an endpoint. Otherwise it sends the branch's request. A failed delivery or reply leaves the result empty and the batch untouched. A batch success appends the contact with its extracted name, extends the export, reports the new count and clears the input. A single success shows the card. |
| `ContactConverter.Converter.Deliver` | contact-converter.jsx:178-196 | After the reply it keeps the export invariant. It shows the card, or appends the contact and clears the input, or reports the error, and changes nothing else. |
| `ContactConverter.Converter.RemoveBatchContact` | contact-converter.jsx:212-216 | The list becomes the filtered list, and the export follows it. |
| `ContactConverter.Converter.ClearBatch` | contact-converter.jsx:218-221 | Both the list and the export become empty. |
| `ContactConverter.Converter.ToggleBatchMode` | contact-converter.jsx:223-227 | The mode flips, and the input and the single result are cleared. The batch list and its export stay. |
| `ContactConverter.Converter.DownloadVCard` | contact-converter.jsx:229-237 | No file is offered exactly when the shown content is empty: the combined export in batch mode, the single result otherwise. Otherwise the file holds that content as `text/vcard;charset=utf-8`. It is named `contact.vcf` in single mode and exactly `contacts_batch_<n>.vcf` in batch mode, with `<n>` the list size in decimal without leading zeros, and that name reads back as the size. |
| `ContactConverter.Converter.CopyToClipboard` | contact-converter.jsx:245-256 | The shown content is what gets written: the combined export in batch mode, the single result otherwise. The notice reports failure, the batch count, or a single copy. |

## Left out

- The network and JSON parsing (`fetch`, `response.json()`): each branch's
  outcome is a parameter of `HandleConvert`, either a parsed reply or a
  transport failure. Reply fields other than those the code reads are not
  modelled.
- `handlePaste` (contact-converter.jsx:20-29): it only copies the system
  clipboard into the input, and the clipboard is outside the model. A client
  assigns `inputText` directly, as the text area's `onChange` does.
- Clipboard writing and the Blob, object-URL and anchor mechanics of the
  download: `CopyToClipboard` takes whether the write succeeded as a
  parameter, and `DownloadVCard` returns the file it would offer.
- `alert` and `console` output: alerts are `Notice` values. The message
  wording and the error's `message` text are not modelled.
- The wording of the two prompts: the templates hold short stand-in texts
  with the same structure. The hosted one extends the custom one with an
  example card. Every request lemma holds for any template.
- `Date.now()`: the new contact's id is a parameter.
- Rendering and the settings panel (`showLLMConfig`, the input setters):
  the fields are public, so clients set them directly.
- Asynchronous interleaving: each handler runs as one atomic step from a
  state with no conversion in flight, and React's batching of state
  updates is not modelled. In the component only the convert button is
  disabled while a conversion waits for its reply
  (contact-converter.jsx:458-459). Clearing (contact-converter.jsx:303),
  removing (contact-converter.jsx:314) and the mode toggles
  (contact-converter.jsx:274, contact-converter.jsx:284) stay enabled.
  A batch conversion then appends the new contact to the list as it is by
  then (contact-converter.jsx:186). But it rebuilds the combined export from
  the list as it was when the conversion started
  (contact-converter.jsx:187). So a contact removed or cleared during a
  conversion reappears in the export but not in the list. The export half
  of `Converter.Valid` then fails in the component, and the model does not
  capture this.
- Strings are sequences of Unicode scalar values, not UTF-16 code units.
  Surrogate pairs and `.` matching half of one are not modelled.
- Values of other JavaScript types where the code expects strings or
  arrays, such as a numeric `content`, are not modelled. Each property the
  code reads is either present with the expected type or missing.
