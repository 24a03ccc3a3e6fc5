/** The `/api/generate` handler of server/index.js: routing on the uploaded file's
    media type, resolving the note, the empty-note check, the prompt template and
    the mapping of every thrown error to a 500 response.

    Reading and parsing the upload, deleting it and the completion call are I/O; their
    outcomes are parameters (`Extraction`, `Completion`). */
module Server {
  import opened Common

  const PdfType := "application/pdf"
  const TextType := "text/plain"

  const UnsupportedTypeError := "Unsupported file type"
  const NoNoteError := "No note or file provided"
  const ServerError := "Something went wrong on the server."

  /** The sentence the prompt asks the model to answer with for non-clinical input. */
  const RejectionSentence := "Error: Input does not appear to be a medical or clinical note."

  /** What reading the upload yields: pdf-parse's text for a PDF, the UTF-8 contents
      for a text file, or an exception from either. */
  datatype Extraction = Extracted(text: string) | ExtractionThrew

  /** An upload as multer describes it, with the outcome of reading it. */
  datatype UploadedFile = UploadedFile(mimetype: string, extraction: Extraction)

  /** A multipart request: the `note` field (absent when the form has none) and the
      optional `file` part. */
  datatype Request = Request(note: Option<string>, file: Option<UploadedFile>)

  /** Outcome of the completion provider call, including reading
      `choices[0].message.content` from its answer. */
  datatype Completion = Completed(content: string) | CompletionThrew

  datatype Body = ErrorBody(error: string) | MessageBody(message: string)
  datatype Response = Response(status: nat, body: Body)

  /** The handler's decision before the completion call: one of its two 400 answers,
      the call with a prompt, or an exception caught as a 500. */
  datatype Decision = RejectUnsupported | RejectEmpty | CallProvider(prompt: string) | Threw

  /** Value of `extractedText` after the upload branch, or that branch's early exit. */
  datatype FileStep = FileText(text: string) | UnsupportedType | ExtractionFailed

  predicate Supported(mimetype: string)
  {
    mimetype == PdfType || mimetype == TextType
  }

  /** `req.body.note || ''`: a missing note field reads as the empty string. */
  function TypedNote(note: Option<string>): (r: string)
    ensures note.Some? ==> r == note.value
    ensures note.None? ==> r == ""
  {
    match note
    case None => ""
    case Some(s) => JsOr(s, "")
  }

  /** The upload branch: no file leaves `extractedText` empty; a PDF or text file is
      read; any other media type exits before anything is read. */
  function ReadUpload(file: Option<UploadedFile>): (r: FileStep)
    ensures r == UnsupportedType <==> file.Some? && !Supported(file.value.mimetype)
    ensures r == ExtractionFailed <==>
              file.Some? && Supported(file.value.mimetype) && file.value.extraction == ExtractionThrew
    ensures file.None? ==> r == FileText("")
    ensures file.Some? && Supported(file.value.mimetype) && file.value.extraction.Extracted? ==>
              r == FileText(file.value.extraction.text)
  {
    match file
    case None => FileText("")
    case Some(f) =>
      if Supported(f.mimetype) then
        match f.extraction
        case Extracted(t) => FileText(t)
        case ExtractionThrew => ExtractionFailed
      else
        UnsupportedType
  }

  /** Whether the handler deletes the upload from disk: only after a successful read.
      The early 400 exit for an unsupported type leaves the file behind. */
  predicate DeletesUpload(req: Request)
  {
    req.file.Some? && ReadUpload(req.file).FileText?
  }

  /** `extractedText || noteText`: the file's text when it is non-empty, else the
      typed note. */
  function ResolveNote(extracted: string, typed: string): (r: string)
    ensures extracted != "" ==> r == extracted
    ensures extracted == "" ==> r == typed
  {
    JsOr(extracted, typed)
  }

  const PromptPreamble :=
    "\nBefore generating output, first determine if the provided input is clinical or medical in nature.\n\n"
    + "If the input does **NOT** contain medical terminology, patient symptoms, diagnoses, treatment plans, "
    + "medications, or other clinical language \U{2014} respond with:\n\n"

  const PromptInstructions :=
    "\n\n  Otherwise, proceed to generate the structured medical JSON output using the format below.\n    \n"
    + "You are a medical documentation assistant trained in health informatics. Your job is to take raw, unstructured doctor \n"
    + "or nurse notes and convert them into clearly formatted, database-ready records. Structure the output in a standardized \n"
    + "JSON format that includes relevant fields like patient information, diagnosis, ICD-10-CA codes, medications, vitals, and \n"
    + "treatment plan. The output must be HL7-compliant in style and format. Expand shorthand, clarify abbreviations, and ensure \n"
    + "clinical accuracy while preserving the original intent of the note.\n\n"

  const NoteOpen := "Note: \""
  const NoteClose := "\""

  const PromptTail :=
    "\n\nRespond English, no extra commentary.\n"
    + "Important: Do not wrap the output in code blocks or backticks. Return only raw JSON and NO non-whitespace characters.\n"

  /** Everything of the template after the interpolated note. */
  const PromptClosing := NoteClose + PromptTail

  /** Everything of the template before the interpolated note. */
  const PromptHead := PromptPreamble + RejectionSentence + PromptInstructions + NoteOpen

  /** The template literal: the note is interpolated verbatim, with no escaping, between
      the fixed head and tail (see `PromptHoldsRejectionSentence`, `PromptQuotesNote`). */
  function BuildPrompt(note: string): (p: string)
    ensures |p| == |PromptHead| + |note| + |PromptClosing|
  {
    PromptHead + note + PromptClosing
  }

  /** Every prompt carries the fixed rejection sentence, whatever the note. */
  lemma PromptHoldsRejectionSentence(note: string)
    ensures OccursAt(BuildPrompt(note), RejectionSentence, |PromptPreamble|)
  {
    TemplateShape(PromptPreamble, RejectionSentence, PromptInstructions, NoteOpen, note, NoteClose, PromptTail);
  }

  /** Every prompt quotes the note verbatim between `Note: "` and `"`. */
  lemma PromptQuotesNote(note: string)
    ensures OccursAt(BuildPrompt(note), NoteOpen + note + NoteClose, |PromptHead| - |NoteOpen|)
  {
    TemplateShape(PromptPreamble, RejectionSentence, PromptInstructions, NoteOpen, note, NoteClose, PromptTail);
  }

  /** Where the fixed sentence and the quoted note sit in a template of this shape. */
  lemma TemplateShape(preamble: string, sentence: string, instructions: string,
                      open: string, note: string, close: string, tail: string)
    ensures var p := (preamble + sentence + instructions + open) + note + (close + tail);
            && OccursAt(p, sentence, |preamble|)
            && OccursAt(p, open + note + close, |preamble + sentence + instructions + open| - |open|)
  {
    var p := (preamble + sentence + instructions + open) + note + (close + tail);
    assert p == preamble + sentence + (instructions + open + note + close + tail);
    OccursInMiddle(preamble, sentence, instructions + open + note + close + tail);
    assert p == (preamble + sentence + instructions) + (open + note + close) + tail;
    OccursInMiddle(preamble + sentence + instructions, open + note + close, tail);
  }

  /** The three parts of a concatenation are recovered by slicing. */
  lemma SplitConcat(head: string, middle: string, tail: string)
    ensures var p := head + middle + tail;
            && p[..|head|] == head
            && p[|p| - |tail|..] == tail
            && p[|head|..|p| - |tail|] == middle
  {
    var p := head + middle + tail;
    assert p[..|head|] == head;
    assert p[|p| - |tail|..] == tail;
    assert p[|head|..|p| - |tail|] == middle;
  }

  /** The note a prompt was built from: the text between the fixed head and tail. */
  function NoteOfPrompt(p: string): (note: string)
    requires |PromptHead| + |PromptClosing| <= |p|
    requires p[..|PromptHead|] == PromptHead && p[|p| - |PromptClosing|..] == PromptClosing
    ensures p == PromptHead + note + PromptClosing
  {
    p[|PromptHead|..|p| - |PromptClosing|]
  }

  /** The handler up to the completion call. */
  function Decide(req: Request): (d: Decision)
    ensures d == RejectUnsupported <==> req.file.Some? && !Supported(req.file.value.mimetype)
    ensures d == Threw <==>
              req.file.Some? && Supported(req.file.value.mimetype) && req.file.value.extraction == ExtractionThrew
    ensures d == RejectEmpty <==>
              ReadUpload(req.file) == FileText("") && TypedNote(req.note) == ""
    ensures d.CallProvider? <==>
              ReadUpload(req.file).FileText? && ResolveNote(ReadUpload(req.file).text, TypedNote(req.note)) != ""
  {
    match ReadUpload(req.file)
    case UnsupportedType => RejectUnsupported
    case ExtractionFailed => Threw
    case FileText(extracted) =>
      var finalNote := ResolveNote(extracted, TypedNote(req.note));
      if finalNote == "" then RejectEmpty else CallProvider(BuildPrompt(finalNote))
  }

  /** The answer to each decision that does not reach the completion call. */
  function Refusal(d: Decision): (r: Response)
    requires !d.CallProvider?
    ensures r.status == 400 <==> d != Threw
    ensures r.status == 500 <==> d == Threw
    ensures d == RejectUnsupported ==> r == Response(400, ErrorBody(UnsupportedTypeError))
    ensures d == RejectEmpty ==> r == Response(400, ErrorBody(NoNoteError))
    ensures d == Threw ==> r == Response(500, ErrorBody(ServerError))
  {
    match d
    case RejectUnsupported => Response(400, ErrorBody(UnsupportedTypeError))
    case RejectEmpty => Response(400, ErrorBody(NoNoteError))
    case Threw => Response(500, ErrorBody(ServerError))
  }

  /** The handler AS WRITTEN. After a successful completion call, line 86 reads
      `response.data`, but no `response` is bound there, so the ReferenceError lands in
      the catch block and the answer is 500, like a failed call. */
  function Handle(req: Request, completion: Completion): (r: Response)
    ensures r.status == 400 || r.status == 500
    ensures r.status == 400 <==> Decide(req) == RejectUnsupported || Decide(req) == RejectEmpty
    ensures r.status == 500 ==> r.body == ErrorBody(ServerError)
    ensures Decide(req) == RejectUnsupported ==> r == Response(400, ErrorBody(UnsupportedTypeError))
    ensures Decide(req) == RejectEmpty ==> r == Response(400, ErrorBody(NoNoteError))
  {
    match Decide(req)
    case CallProvider(prompt) =>
      (match completion
       case CompletionThrew => Response(500, ErrorBody(ServerError))
       case Completed(_) => Response(500, ErrorBody(ServerError)))
    case d => Refusal(d)
  }

  /** The handler as evidently intended: line 86 sends the content read at line 84,
      `res.json({ message: output })`, with status 200. */
  function HandleIntended(req: Request, completion: Completion): (r: Response)
    ensures r.status == 200 <==> Decide(req).CallProvider? && completion.Completed?
    ensures r.status == 200 ==> r.body == MessageBody(completion.content)
    ensures r.status != 200 ==> r == Handle(req, completion)
  {
    match Decide(req)
    case CallProvider(prompt) =>
      (match completion
       case CompletionThrew => Response(500, ErrorBody(ServerError))
       case Completed(content) => Response(200, MessageBody(content)))
    case d => Refusal(d)
  }

  // Properties of the intake decision

  /** An upload of any other media type than PDF or plain text is refused with
      "Unsupported file type", whatever the typed note and the completion would be;
      in particular an empty note is not reported instead, because the media type is
      checked first. */
  lemma UnsupportedTypeFirst(req: Request, completion: Completion)
    requires req.file.Some? && !Supported(req.file.value.mimetype)
    ensures Handle(req, completion) == Response(400, ErrorBody(UnsupportedTypeError))
    ensures HandleIntended(req, completion) == Handle(req, completion)
    ensures !DeletesUpload(req)
  {
  }

  /** A request without a `note` field is handled exactly like one whose note is empty. */
  lemma MissingNoteIsEmpty(file: Option<UploadedFile>)
    ensures Decide(Request(None, file)) == Decide(Request(Some(""), file))
  {
  }

  /** A file that yields non-empty text always wins: the typed note is discarded. */
  lemma FileTextWins(note: Option<string>, mimetype: string, text: string)
    requires Supported(mimetype) && text != ""
    ensures Decide(Request(note, Some(UploadedFile(mimetype, Extracted(text))))) == CallProvider(BuildPrompt(text))
  {
  }

  /** A file that yields empty text falls back to the typed note, as if no file were sent. */
  lemma EmptyFileFallsBack(note: Option<string>, mimetype: string)
    requires Supported(mimetype)
    ensures Decide(Request(note, Some(UploadedFile(mimetype, Extracted(""))))) == Decide(Request(note, None))
  {
  }

  /** Only the empty string is refused as "No note or file provided": a note of
      blanks alone is sent to the completion provider. */
  lemma NonEmptyNoteAccepted(note: string)
    requires note != ""
    ensures Decide(Request(Some(note), None)) == CallProvider(BuildPrompt(note))
  {
  }

  /** The upload is deleted exactly when it was read without an exception. */
  lemma UploadDeletedOnlyAfterRead(req: Request)
    ensures DeletesUpload(req) <==>
              req.file.Some? && Supported(req.file.value.mimetype) && req.file.value.extraction.Extracted?
  {
  }

  /** The prompt determines its note: the note is recovered from between the fixed
      head and tail of the template. */
  lemma PromptRoundTrip(note: string)
    ensures NoteOfPrompt(BuildPrompt(note)) == note
  {
    SplitConcat(PromptHead, note, PromptClosing);
  }

  /** Distinct notes give distinct prompts. */
  lemma BuildPromptInjective(a: string, b: string)
    requires BuildPrompt(a) == BuildPrompt(b)
    ensures a == b
  {
    PromptRoundTrip(a);
    PromptRoundTrip(b);
  }

  // Errors

  /** A read that throws and a completion call that throws both end in the generic
      500 answer, as written and as intended. */
  lemma ExceptionsAnswer500(req: Request, completion: Completion)
    requires Decide(req) == Threw || (Decide(req).CallProvider? && completion == CompletionThrew)
    ensures Handle(req, completion) == Response(500, ErrorBody(ServerError))
    ensures HandleIntended(req, completion) == Handle(req, completion)
  {
  }

  /** As written, every request that reaches the completion call is answered with
      500, whether the call succeeds or not. */
  lemma ProviderPathAlwaysFails(req: Request, completion: Completion)
    requires Decide(req).CallProvider?
    ensures Handle(req, completion) == Response(500, ErrorBody(ServerError))
  {
  }

  /** A concrete request showing the discrepancy: a typed note and a successful
      completion are answered 500 as written, instead of with the completion text. */
  lemma AsWrittenLosesCompletion()
    ensures Handle(Request(Some("BP 120/80"), None), Completed("{}")).status == 500
    ensures HandleIntended(Request(Some("BP 120/80"), None), Completed("{}")) == Response(200, MessageBody("{}"))
  {
  }
}
