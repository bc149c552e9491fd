/** The state of the contact converter component and its handlers.  In
    single mode a conversion shows one vCard; in batch mode each conversion
    appends a contact to a list whose vCards, joined by blank lines, form the
    combined export.  Each handler runs as one step; the network reply is an
    argument of the conversion handler. */
module ContactConverter {
  import opened Wrappers
  import opened JsText
  import opened VCardName
  import opened LlmRequest
  import opened LlmReply

  /** One converted contact of the batch list. */
  datatype Contact = Contact(id: int, originalText: string, vCard: string, name: string)

  /** What the handler tells the user (an `alert`), if anything. */
  datatype Notice =
    | Silent
    | AskForInput
    | AskForEndpoint
    | Added(count: nat)
    | ConversionFailed(error: ConvertError)

  /** What copying tells the user. */
  datatype CopyNotice = CopiedBatch(count: nat) | CopiedSingle | CopyFailed

  /** A file offered for download. */
  datatype VcfFile = VcfFile(name: string, content: string, mimeType: string)

  const SEPARATOR := "\n\n"
  const VCARD_MIME_TYPE := "text/vcard;charset=utf-8"
  const BATCH_FILE_PREFIX := "contacts_batch_"
  const VCF_EXTENSION := ".vcf"
  const SINGLE_FILE_NAME := "contact.vcf"

  /** `contacts.map(contact => contact.vCard)`. */
  function VCards(contacts: seq<Contact>): seq<string>
  {
    seq(|contacts|, i requires 0 <= i < |contacts| => contacts[i].vCard)
  }

  /** The combined export: every vCard in list order, blank line between. */
  function CombinedVCards(contacts: seq<Contact>): string
  {
    Join(VCards(contacts), SEPARATOR)
  }

  /** Appending a contact extends the combined export by a blank line and its
      vCard; the first contact's vCard is the export unchanged. */
  lemma CombinedAppend(contacts: seq<Contact>, c: Contact)
    ensures CombinedVCards(contacts + [c]) ==
              if contacts == [] then c.vCard else CombinedVCards(contacts) + SEPARATOR + c.vCard
  {
    assert VCards(contacts + [c]) == VCards(contacts) + [c.vCard];
    if contacts != [] {
      JoinSnoc(VCards(contacts), c.vCard, SEPARATOR);
    }
  }

  /** The combined export of two lists is the two exports joined. */
  lemma CombinedConcat(a: seq<Contact>, b: seq<Contact>)
    requires a != [] && b != []
    ensures CombinedVCards(a + b) == CombinedVCards(a) + SEPARATOR + CombinedVCards(b)
  {
    assert VCards(a + b) == VCards(a) + VCards(b);
    JoinConcat(VCards(a), VCards(b), SEPARATOR);
  }

  /** `contacts.filter(contact => contact.id !== id)`. */
  function WithoutId(contacts: seq<Contact>, id: int): seq<Contact>
  {
    if contacts == [] then []
    else (if contacts[0].id != id then [contacts[0]] else []) + WithoutId(contacts[1..], id)
  }

  /** Exactly the contacts with another id are kept. */
  lemma {:induction false} WithoutIdMembers(contacts: seq<Contact>, id: int)
    ensures forall c :: c in WithoutId(contacts, id) <==> c in contacts && c.id != id
    ensures |WithoutId(contacts, id)| <= |contacts|
    decreases |contacts|
  {
    if contacts != [] {
      WithoutIdMembers(contacts[1..], id);
      assert contacts == [contacts[0]] + contacts[1..];
    }
  }

  /** Removal works element by element, so the kept contacts stay in their
      order: filtering a concatenation concatenates the filtered parts. */
  lemma {:induction false} WithoutIdConcat(a: seq<Contact>, b: seq<Contact>, id: int)
    ensures WithoutId(a + b, id) == WithoutId(a, id) + WithoutId(b, id)
    decreases |a|
  {
    if a == [] {
      assert a + b == b;
    } else {
      assert (a + b)[0] == a[0];
      assert (a + b)[1..] == a[1..] + b;
      WithoutIdConcat(a[1..], b, id);
    }
  }

  /** Removing an id nobody has changes nothing. */
  lemma {:induction false} WithoutAbsentId(contacts: seq<Contact>, id: int)
    requires forall i :: 0 <= i < |contacts| ==> contacts[i].id != id
    ensures WithoutId(contacts, id) == contacts
    decreases |contacts|
  {
    if contacts != [] {
      WithoutAbsentId(contacts[1..], id);
      assert [contacts[0]] + contacts[1..] == contacts;
    }
  }

  /** Removing twice is removing once. */
  lemma WithoutIdIdempotent(contacts: seq<Contact>, id: int)
    ensures WithoutId(WithoutId(contacts, id), id) == WithoutId(contacts, id)
  {
    var r := WithoutId(contacts, id);
    WithoutIdMembers(contacts, id);
    forall i | 0 <= i < |r|
      ensures r[i].id != id
    {
      assert r[i] in r;
    }
    WithoutAbsentId(r, id);
  }

  /** The name of the downloaded file. */
  function ExportFileName(batchMode: bool, batchSize: nat): string
  {
    if batchMode then BATCH_FILE_PREFIX + Decimal(batchSize) + VCF_EXTENSION else SINGLE_FILE_NAME
  }

  /** The batch size a file name announces, if it is a batch file name. */
  function BatchSizeInFileName(name: string): Option<nat>
  {
    var n, m := |BATCH_FILE_PREFIX|, |VCF_EXTENSION|;
    if n + m < |name| && name[..n] == BATCH_FILE_PREFIX && name[|name| - m..] == VCF_EXTENSION
       && IsDigits(name[n..|name| - m])
    then Some(DecimalValue(name[n..|name| - m]))
    else None
  }

  /** A batch download's name states the batch size exactly; a single
      download's name states none. */
  lemma FileNameStatesBatchSize(batchSize: nat)
    ensures BatchSizeInFileName(ExportFileName(true, batchSize)) == Some(batchSize)
    ensures BatchSizeInFileName(ExportFileName(false, batchSize)) == None
  {
    var d := Decimal(batchSize);
    var name := ExportFileName(true, batchSize);
    var n, m := |BATCH_FILE_PREFIX|, |VCF_EXTENSION|;
    assert name[..n] == BATCH_FILE_PREFIX;
    assert name[|name| - m..] == VCF_EXTENSION;
    assert name[n..|name| - m] == d;
    DecimalRoundTrip(batchSize);
  }

  /** The request a conversion sends from the given settings. */
  function RequestFor(useCustom: bool, api: ApiConfig, input: string): HttpRequest
  {
    if useCustom then CustomRequest(api, input) else HostedRequest(input)
  }

  /** The vCard text or the caught error, for the branch the settings pick. */
  function OutcomeFor(useCustom: bool, customReply: Delivery<ChatCompletion>, hostedReply: Delivery<HostedReply>): Result<string, ConvertError>
  {
    if useCustom then CustomOutcome(customReply) else HostedOutcome(hostedReply)
  }

  /** A conversion gets as far as sending a request. */
  predicate Sends(input: string, useCustom: bool, api: ApiConfig)
  {
    !IsBlank(input) && !(useCustom && api.baseURL == "")
  }

  class Converter {
    var inputText: string
    var isConverting: bool
    var result: string
    var batchMode: bool
    var batchContacts: seq<Contact>
    var batchResult: string
    var useCustomLLM: bool
    var customAPI: ApiConfig

    /** Between handler steps no conversion is in flight, and the combined
        export is always the list's vCards joined. */
    ghost predicate Valid()
      reads this
    {
      !isConverting && batchResult == CombinedVCards(batchContacts)
    }

    constructor ()
      ensures Valid()
      ensures inputText == "" && result == "" && !batchMode
      ensures batchContacts == [] && batchResult == ""
      ensures !useCustomLLM && customAPI == DEFAULT_CONFIG
    {
      inputText := "";
      isConverting := false;
      result := "";
      batchMode := false;
      batchContacts := [];
      batchResult := "";
      useCustomLLM := false;
      customAPI := DEFAULT_CONFIG;
    }

    /** What the result panel shows and what copy and download export. */
    function ShownContent(): string
      reads this
    {
      if batchMode then batchResult else result
    }

    /** `updateBatchResult`: recompute the combined export from a list. */
    method UpdateBatchResult(contacts: seq<Contact>)
      modifies this`batchResult
      ensures batchResult == CombinedVCards(contacts)
    {
      batchResult := Join(VCards(contacts), SEPARATOR);
    }

    /** `handleConvert`.  `id` is the clock reading the new contact gets;
        `customReply` and `hostedReply` are what the network returns for the
        request of each branch (only the chosen branch's is used).  Returns
        the request sent, if any, and the notice shown. */
    method HandleConvert(id: int, customReply: Delivery<ChatCompletion>, hostedReply: Delivery<HostedReply>)
      returns (sent: Option<HttpRequest>, notice: Notice)
      requires Valid()
      modifies this
      ensures Valid()
      ensures batchMode == old(batchMode) && useCustomLLM == old(useCustomLLM) && customAPI == old(customAPI)
      // blank input: nothing happens beyond the notice
      ensures IsBlank(old(inputText)) ==>
                sent == None && notice == AskForInput && inputText == old(inputText) && result == old(result) &&
                batchContacts == old(batchContacts) && batchResult == old(batchResult)
      // custom mode without a base URL: the result is cleared, nothing is sent
      ensures !IsBlank(old(inputText)) && useCustomLLM && customAPI.baseURL == "" ==>
                sent == None && notice == AskForEndpoint && result == "" && inputText == old(inputText) &&
                batchContacts == old(batchContacts) && batchResult == old(batchResult)
      ensures Sends(old(inputText), useCustomLLM, customAPI) ==>
                sent == Some(RequestFor(useCustomLLM, customAPI, old(inputText)))
      // a caught error: the result stays cleared and the batch is untouched
      ensures var outcome := OutcomeFor(useCustomLLM, customReply, hostedReply);
              Sends(old(inputText), useCustomLLM, customAPI) && outcome.Failure? ==>
                notice == ConversionFailed(outcome.error) && result == "" && inputText == old(inputText) &&
                batchContacts == old(batchContacts) && batchResult == old(batchResult)
      // batch mode: the new contact goes at the end and the input is cleared
      ensures var outcome := OutcomeFor(useCustomLLM, customReply, hostedReply);
              Sends(old(inputText), useCustomLLM, customAPI) && outcome.Success? && batchMode ==>
                var vCard := outcome.value;
                batchContacts == old(batchContacts) + [Contact(id, old(inputText), vCard, ExtractName(vCard))] &&
                batchResult == (if old(batchContacts) == [] then vCard else old(batchResult) + SEPARATOR + vCard) &&
                notice == Added(|old(batchContacts)| + 1) && inputText == "" && result == ""
      // single mode: the vCard is shown
      ensures var outcome := OutcomeFor(useCustomLLM, customReply, hostedReply);
              Sends(old(inputText), useCustomLLM, customAPI) && outcome.Success? && !batchMode ==>
                notice == Silent && result == outcome.value && inputText == old(inputText) &&
                batchContacts == old(batchContacts) && batchResult == old(batchResult)
    {
      if IsBlank(inputText) {
        sent, notice := None, AskForInput;
        return;
      }
      isConverting := true;
      result := "";
      var vCardContent: Result<string, ConvertError>;
      if useCustomLLM {
        if customAPI.baseURL == "" {
          sent, notice := None, AskForEndpoint;
          isConverting := false;
          return;
        }
        var request := BuildCustomRequest(customAPI, inputText);
        sent := Some(request);
        vCardContent := CustomOutcome(customReply);
      } else {
        sent := Some(HostedRequest(inputText));
        vCardContent := HostedOutcome(hostedReply);
      }
      notice := Deliver(id, vCardContent);
      // the `finally` clause
      isConverting := false;
    }

    /** The part of `handleConvert` after the reply: show the vCard, or add
        it to the batch, or report the caught error. */
    method Deliver(id: int, vCardContent: Result<string, ConvertError>) returns (notice: Notice)
      requires batchResult == CombinedVCards(batchContacts)
      modifies this`batchContacts, this`batchResult, this`result, this`inputText
      ensures batchResult == CombinedVCards(batchContacts)
      ensures vCardContent.Failure? ==>
                notice == ConversionFailed(vCardContent.error) && result == old(result) && inputText == old(inputText) &&
                batchContacts == old(batchContacts) && batchResult == old(batchResult)
      ensures vCardContent.Success? && batchMode ==>
                var vCard := vCardContent.value;
                batchContacts == old(batchContacts) + [Contact(id, old(inputText), vCard, ExtractName(vCard))] &&
                batchResult == (if old(batchContacts) == [] then vCard else old(batchResult) + SEPARATOR + vCard) &&
                notice == Added(|old(batchContacts)| + 1) && inputText == "" && result == old(result)
      ensures vCardContent.Success? && !batchMode ==>
                notice == Silent && result == vCardContent.value && inputText == old(inputText) &&
                batchContacts == old(batchContacts) && batchResult == old(batchResult)
    {
      match vCardContent {
        case Success(vCard) =>
          if batchMode {
            var newContact := Contact(id, inputText, vCard, ExtractName(vCard));
            var count := |batchContacts| + 1;
            CombinedAppend(batchContacts, newContact);
            batchContacts := batchContacts + [newContact];
            UpdateBatchResult(batchContacts);
            inputText := "";
            notice := Added(count);
          } else {
            result := vCard;
            notice := Silent;
          }
        case Failure(error) =>
          notice := ConversionFailed(error);
      }
    }

    /** `removeBatchContact`: drop every contact with this id. */
    method RemoveBatchContact(id: int)
      requires Valid()
      modifies this`batchContacts, this`batchResult
      ensures Valid()
      ensures batchContacts == WithoutId(old(batchContacts), id)
    {
      var updatedContacts := WithoutId(batchContacts, id);
      batchContacts := updatedContacts;
      UpdateBatchResult(updatedContacts);
    }

    /** `clearBatch`: an empty list and an empty combined export. */
    method ClearBatch()
      requires Valid()
      modifies this`batchContacts, this`batchResult
      ensures Valid()
      ensures batchContacts == [] && batchResult == ""
    {
      batchContacts := [];
      batchResult := "";
    }

    /** `toggleBatchMode`: switch mode and clear the input and the single
        result; the batch list and its export stay. */
    method ToggleBatchMode()
      requires Valid()
      modifies this`batchMode, this`result, this`inputText
      ensures Valid()
      ensures batchMode == !old(batchMode) && result == "" && inputText == ""
    {
      batchMode := !batchMode;
      result := "";
      inputText := "";
    }

    /** `downloadVCard`: the file offered, or nothing when there is nothing
        to export. */
    method DownloadVCard() returns (file: Option<VcfFile>)
      ensures file.None? <==> ShownContent() == ""
      ensures file.Some? ==> file.value.content == ShownContent()
      ensures file.Some? ==> file.value.mimeType == "text/vcard;charset=utf-8"
      ensures file.Some? && !batchMode ==> file.value.name == "contact.vcf"
      ensures file.Some? && batchMode ==> file.value.name == BATCH_FILE_PREFIX + Decimal(|batchContacts|) + VCF_EXTENSION
      ensures file.Some? && batchMode ==> BatchSizeInFileName(file.value.name) == Some(|batchContacts|)
    {
      var content := ShownContent();
      if content == "" {
        return None;
      }
      var fileName := ExportFileName(batchMode, |batchContacts|);
      FileNameStatesBatchSize(|batchContacts|);
      file := Some(VcfFile(fileName, content, VCARD_MIME_TYPE));
    }

    /** `copyToClipboard`: the text written (even when empty) and the notice;
        `written` says whether the clipboard accepted it. */
    method CopyToClipboard(written: bool) returns (text: string, notice: CopyNotice)
      ensures text == ShownContent()
      ensures !written ==> notice == CopyFailed
      ensures written && batchMode ==> notice == CopiedBatch(|batchContacts|)
      ensures written && !batchMode ==> notice == CopiedSingle
    {
      text := ShownContent();
      if !written {
        notice := CopyFailed;
      } else if batchMode {
        notice := CopiedBatch(|batchContacts|);
      } else {
        notice := CopiedSingle;
      }
    }
  }

  /** Three contacts with distinct ids, the second removed: the export is
      the first and the third vCards, in order, with a blank line between. */
  lemma RemoveMiddleContact(r1: Contact, r2: Contact, r3: Contact)
    requires r1.id != r2.id && r3.id != r2.id
    ensures WithoutId([r1, r2, r3], r2.id) == [r1, r3]
    ensures CombinedVCards(WithoutId([r1, r2, r3], r2.id)) == r1.vCard + "\n\n" + r3.vCard
  {
    assert [r1, r2, r3] == [r1] + [r2] + [r3];
    WithoutIdConcat([r1] + [r2], [r3], r2.id);
    WithoutIdConcat([r1], [r2], r2.id);
    assert [r1] + [r3] == [r1, r3];
    CombinedAppend([r1], r3);
  }

  /** A client of the handlers: in batch mode convert one text that does not
      start with a space, switch mode and back, then remove the contact by
      its id and clear twice. */
  method BatchSession(input: string, vCard: string)
    requires input != [] && !IsSpace(input[0])
  {
    var c := new Converter();
    c.ToggleBatchMode();
    c.inputText := input;
    HostedReplyYieldsText(vCard, []);
    var sent, notice := c.HandleConvert(7, Failed, Delivered(HostedReply(Some([ContentBlock(Some(vCard))]))));
    assert notice == Added(1) && c.inputText == "";
    assert c.batchResult == Trim(vCard);
    c.ToggleBatchMode();
    c.ToggleBatchMode();
    c.RemoveBatchContact(7);
    assert c.batchContacts == [] && c.batchResult == "";
    c.ClearBatch();
    c.ClearBatch();
    var file := c.DownloadVCard();
    assert file == None;
  }
}
