/** The React component of client/src/App.js: its three pieces of state (`note`,
    `file`, `result`), the submit handler's two outcomes, Clear Output, when the output
    panel is shown, and the text Download JSON and Copy to Clipboard work on.

    The browser, axios, the DOM resets and JSON parsing are not modelled; a server
    answer is a parameter. */
module Client {
  import opened Common
  import opened Server
  import opened Cleanup

  /** What the submit handler shows when the request fails. */
  const FailureText := "Error processing note."

  /** The multipart form the submit handler sends. The selected file is carried as the
      server's `UploadedFile`, which also holds the outcome of the server reading it: a
      shortcut that lets a submit be followed through the handler in one model. */
  datatype Form = Form(note: string, file: Option<UploadedFile>)

  /** The JSON body of a server answer as the client reads it: `message` and `output`
      are each absent or a string. */
  datatype ResponseData = ResponseData(message: Option<string>, output: Option<string>)

  /** The request multer hands to the server for a form. The note field is always
      appended, so it arrives even when empty. */
  function Deliver(form: Form): (req: Request)
    ensures req.note == Some(form.note) && TypedNote(req.note) == form.note
    ensures req.file == form.file
  {
    Request(Some(form.note), form.file)
  }

  /** The body the server sends, as the client sees its two keys. */
  function DataOf(body: Body): (data: ResponseData)
    ensures data.output == None
    ensures data.message.Some? <==> body.MessageBody?
    ensures body.MessageBody? ==> data.message == Some(body.message)
  {
    match body
    case MessageBody(m) => ResponseData(Some(m), None)
    case ErrorBody(_) => ResponseData(None, None)
  }

  /** axios's default status check: any status outside 2xx is thrown as an error. */
  predicate Accepted(status: nat)
  {
    200 <= status < 300
  }

  /** `res.data.message || res.data.output`. An absent key is `undefined`, modelled as
      the empty string: both are falsy and neither shows the output panel. */
  function PickResult(data: ResponseData): (r: string)
    ensures data.message.Some? && data.message.value != "" ==> r == data.message.value
    ensures (data.message.None? || data.message == Some("")) && data.output.Some? ==> r == data.output.value
    ensures r == "" <==>
              (data.message.None? || data.message == Some("")) && (data.output.None? || data.output == Some(""))
  {
    var message := match data.message case Some(m) => m case None => "";
    var output := match data.output case Some(o) => o case None => "";
    JsOr(message, output)
  }

  class App {
    var note: string
    var file: Option<UploadedFile>
    var result: string

    /** The `useState` initial values. */
    constructor ()
      ensures note == "" && file == None && result == ""
      ensures !ShowsOutput()
    {
      note, file, result := "", None, "";
    }

    /** `{result && ( … )}`: the output panel, with its Download and Copy buttons, is
        rendered only for a non-empty result. */
    predicate ShowsOutput()
      reads this
    {
      result != ""
    }

    /** The text area's `onChange`. */
    method EditNote(text: string)
      modifies this`note
      ensures note == text && file == old(file) && result == old(result)
    {
      note := text;
    }

    /** The file input's `onChange`: the first selected file, or none when the
        selection is cleared. */
    method SelectFile(selected: Option<UploadedFile>)
      modifies this`file
      ensures file == selected && note == old(note) && result == old(result)
    {
      file := selected;
    }

    /** The form `handleSubmit` builds: `note` is always appended, possibly empty;
        `file` only when one is selected. */
    method BuildForm() returns (form: Form)
      ensures form.note == note && form.file == file
      ensures Deliver(form).note == Some(note)
      ensures Deliver(form).file.Some? <==> file.Some?
    {
      form := Form(note, file);
    }

    /** The `try` branch after the post resolves: the result is shown and both inputs
        are reset. */
    method SubmitSuccess(data: ResponseData)
      modifies this
      ensures result == PickResult(data) && note == "" && file == None
      ensures ShowsOutput() <==> PickResult(data) != ""
    {
      result := PickResult(data);
      note := "";
      file := None;
    }

    /** The `catch` branch: the failure text is shown and the inputs are kept. */
    method SubmitFailure()
      modifies this`result
      ensures result == FailureText && note == old(note) && file == old(file)
      ensures ShowsOutput()
    {
      result := FailureText;
    }

    /** The submit handler given the server's answer: axios resolves for a 2xx status
        and throws otherwise. */
    method Submit(response: Response)
      modifies this
      ensures Accepted(response.status) ==>
                result == PickResult(DataOf(response.body)) && note == "" && file == None
      ensures !Accepted(response.status) ==>
                result == FailureText && note == old(note) && file == old(file)
    {
      if Accepted(response.status) {
        SubmitSuccess(DataOf(response.body));
      } else {
        SubmitFailure();
      }
    }

    /** The whole submit against the server as written, for a given outcome of the
        completion call: every submit ends in the failure text with the inputs kept. */
    method SubmitToServer(completion: Completion)
      modifies this
      ensures result == FailureText && note == old(note) && file == old(file)
    {
      var form := BuildForm();
      var response := Handle(Deliver(form), completion);
      Submit(response);
    }

    /** Clear Output: only the result is reset, which hides the output panel. */
    method ClearOutput()
      modifies this`result
      ensures result == "" && note == old(note) && file == old(file)
      ensures !ShowsOutput()
    {
      result := "";
    }

    /** The text that Download JSON and Copy to Clipboard each pass to `JSON.parse`:
        both handlers run the same cleanup on the current result. */
    method CleanedResult() returns (text: string)
      requires ShowsOutput()
      ensures text == Clean(result) && |text| <= |result|
    {
      text := Clean(result);
    }
  }

  /** As written, no server answer passes axios's status check. */
  lemma AsWrittenNeverAccepted(req: Request, completion: Completion)
    ensures !Accepted(Handle(req, completion).status)
  {
  }

  /** With the corrected handler, a form that reaches the completion call shows
      exactly the completion text, and the panel appears when that text is non-empty. */
  lemma IntendedShowsCompletion(form: Form, content: string)
    requires Decide(Deliver(form)).CallProvider?
    ensures Accepted(HandleIntended(Deliver(form), Completed(content)).status)
    ensures PickResult(DataOf(HandleIntended(Deliver(form), Completed(content)).body)) == content
  {
  }

  /** A typed note with no file reaches the prompt unchanged, and only an empty one is
      refused. */
  lemma TypedNoteReachesPrompt(note: string)
    ensures Decide(Deliver(Form(note, None))) == if note == "" then RejectEmpty else CallProvider(BuildPrompt(note))
  {
  }
}
