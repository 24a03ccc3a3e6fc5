# MedScribe intake and client state, in Dafny

MedScribe takes a clinical note, typed or uploaded as a text or PDF file. It sends the
note to a language-model completion API inside a fixed prompt and shows the answer in
the browser. This project models the two pieces of that pipeline that hold logic:

- **The `/api/generate` handler** (`server.dfy`, module `Server`). It decides on a
  request from the uploaded file's media type, the file's extracted text and the typed
  `note` field. It either refuses the file type (400), refuses an empty note (400),
  builds the prompt and calls the completion provider, or maps a thrown error to 500.
  Reading the file and the completion call are parameters: `Extraction` and
  `Completion` say whether they returned text or threw.
- **The React component** (`client.dfy`, module `Client`). Class `App` holds the
  three state variables `note`, `file` and `result`. It has the submit handler's
  success and failure branches, Clear Output, the text-area and file-input handlers,
  and the condition for showing the output panel.
- **The fence cleanup** (`cleanup.dfy`, module `Cleanup`). Download JSON and Copy to
  Clipboard both run two `replace` calls before parsing the result. The first removes
  the leftmost "```json" and at most one following newline, wherever it appears. The
  second removes "```" only when it ends the string. `FindFirst` models the leftmost
  search of a regular expression without the `g` flag.
- `common.dfy` (module `Common`) holds `Option`, JavaScript's `||` on strings
  (`JsOr`) and substring occurrence.

The handler and client behave as follows in these places:

- A note made only of whitespace is accepted, because the empty check is JavaScript
  falsiness.
- PDF uploads are accepted.
- The 500 message is "Something went wrong on the server.".
- The success key is `message`. The client also reads `output`.
- The marker-based response interpreter (`[BEGIN_JSON]` … `[END_SUMMARY]`) is not
  part of these files and is not modelled.

## Model

| member | source | states |
|---|---|---|
| Common.JsOr | server/index.js:48 | `a \|\| b` on strings keeps `a` unless it is empty, and is empty only when both are |
| Server.Supported | server/index.js:32-42 | PDF and plain text are the only media types read |
| Server.DeletesUpload | server/index.js:40-45 | the upload is deleted only after a supported file was read without an exception |
| Server.TypedNote | server/index.js:25 | a missing `note` field reads as the empty string; a present one is kept as sent |
| Server.ReadUpload | server/index.js:28-46 | no file gives empty extracted text; any media type other than PDF and plain text exits as unsupported; a read that throws fails; a supported file that reads cleanly gives exactly its own text |
| Server.ResolveNote | server/index.js:48 | the extracted text when it is non-empty, otherwise the typed note |
| Server.BuildPrompt | server/index.js:55-74 | the prompt is the fixed head, the note and the fixed tail, with no character added or lost |
| Server.PromptHoldsRejectionSentence | server/index.js:58-60 | every prompt holds the fixed sentence "Error: Input does not appear to be a medical or clinical note.", whatever the note |
| Server.PromptQuotesNote | server/index.js:70 | every prompt holds the note verbatim, unescaped, between `Note: "` and `"` |
| Server.NoteOfPrompt | server/index.js:70 | for a prompt that starts with the template's head and ends with its tail, the note is exactly what lies between them |
| Server.Decide | server/index.js:23-74 | unsupported type exactly when a file of another media type is sent; 500 exactly when reading a supported file throws; empty-note refusal exactly when the file text and the typed note are both empty; otherwise the completion call |
| Server.Refusal | server/index.js:41-90 | an unsupported type answers 400 "Unsupported file type", an empty note 400 "No note or file provided", a thrown error 500 "Something went wrong on the server." |
| Server.Handle | server/index.js:23-91 | as written, every answer is 400 or 500; 400 exactly for the two refusals, "Unsupported file type" for the media type and "No note or file provided" for the empty note; every 500 carries the generic server error |
| Server.HandleIntended | server/index.js:84-86 | answers 200 with the completion text exactly when the call is reached and succeeds; otherwise the same as `Handle` |
| Server.UnsupportedTypeFirst | server/index.js:32-42 | an unsupported upload is refused as such whatever the note, before the empty check, and the upload is not deleted |
| Server.MissingNoteIsEmpty | server/index.js:25 | a request without a note field is decided like one with an empty note |
| Server.FileTextWins | server/index.js:48 | a supported file with non-empty text is prompted alone, whatever the typed note |
| Server.EmptyFileFallsBack | server/index.js:48 | a supported file with empty text is decided as if no file were sent |
| Server.NonEmptyNoteAccepted | server/index.js:50-52 | with no file attached, every non-empty typed note, whitespace included, reaches the completion call with its own prompt (`EmptyFileFallsBack` extends this to a supported file whose text is empty) |
| Server.UploadDeletedOnlyAfterRead | server/index.js:40-45 | the upload is deleted exactly when a supported file was read without an exception |
| Server.PromptRoundTrip | server/index.js:70 | the note is recovered from the prompt built from it |
| Server.BuildPromptInjective | server/index.js:70 | distinct notes give distinct prompts |
| Server.ExceptionsAnswer500 | server/index.js:88-90 | a read or completion call that throws is answered 500 with the generic message |
| Server.ProviderPathAlwaysFails | server/index.js:76-90 | as written, every request that reaches the completion call is answered 500 |
| Server.AsWrittenLosesCompletion | server/index.js:84-86 | a typed note with a successful completion is answered 500 as written, 200 with the text as intended |
| Cleanup.FindFirst | client/src/App.js:88 | the index found is an occurrence and no earlier one exists; no index means no occurrence at all |
| Cleanup.StripOpenFence | client/src/App.js:88 | the string changes exactly when it contains "```json", and then loses 7 or 8 characters: the leftmost occurrence found by `FindFirst` and one newline right after it, if there is one |
| Cleanup.StripCloseFence | client/src/App.js:89 | the string changes exactly when it ends with "```", and then loses just that suffix |
| Cleanup.Clean | client/src/App.js:87-89 | never longer than its input; unchanged when there is no "```json" and no trailing "```" |
| Cleanup.Fenced | client/src/App.js:88-89 | a body wrapped in a ```json code block starts with the opening fence and ends with the closing one |
| Cleanup.DropNewline | client/src/App.js:88 | removes a leading newline when there is one, and otherwise keeps the string |
| Cleanup.OpenFenceFoundAnywhere | client/src/App.js:88 | when no "```json" starts inside the text before it, a "```json" is found there, not only at the start, and only that occurrence is removed with its newline |
| Cleanup.NoFenceInPlainText | client/src/App.js:88 | no "```json" starts inside text that has no backtick, so the fence after such text is the one removed, with its newline |
| Cleanup.InlineCodeBeforeFence | client/src/App.js:88 | inline code before the fence does not stop the search: "see `x`:```json\n{}" becomes "see `x`:{}" |
| Cleanup.CleanFenced | client/src/App.js:87-89 | cleaning a fenced body gives the body back |
| Cleanup.CleanNotIdempotent | client/src/App.js:87-89 | a second "```json" survives one cleanup and is removed by a second |
| Client.Deliver | client/src/App.js:17-19 | the server receives the note field on every submit, possibly empty, and the file exactly when one is selected |
| Client.DataOf | client/src/App.js:27 | a message body gives a `message` key holding exactly its text; an error body gives no `message`; no answer carries `output` |
| Client.Accepted | client/src/App.js:23-25 | the post resolves only for a 2xx status, axios's default; any other status throws into the `catch` branch |
| Client.PickResult | client/src/App.js:27 | a non-empty `message` wins; otherwise `output`; empty exactly when neither is a non-empty string |
| Client.App.constructor | client/src/App.js:7-11 | all three state variables start empty and no output panel is shown |
| Client.App.ShowsOutput | client/src/App.js:77 | the output panel, with Download and Copy, is rendered only for a non-empty result |
| Client.App.EditNote | client/src/App.js:52 | sets the note only |
| Client.App.SelectFile | client/src/App.js:64 | sets the selected file only |
| Client.App.BuildForm | client/src/App.js:16-19 | the form carries the current note and the file exactly when one is selected |
| Client.App.SubmitSuccess | client/src/App.js:26-33 | the result becomes the picked key, note and file are reset; the panel shows exactly when that result is non-empty |
| Client.App.SubmitFailure | client/src/App.js:34-36 | the result becomes "Error processing note." and note and file are kept |
| Client.App.Submit | client/src/App.js:21-36 | a 2xx answer takes the success branch, any other the failure branch |
| Client.App.SubmitToServer | client/src/App.js:13-36 | against the server as written, every submit shows the failure text and keeps the inputs |
| Client.App.ClearOutput | client/src/App.js:72 | the result becomes empty, hiding the panel; nothing else changes |
| Client.App.CleanedResult | client/src/App.js:86-111 | available only while the panel shows; Download and Copy both get the cleaned result, never longer than it |
| Client.AsWrittenNeverAccepted | server/index.js:84-90 | as written, no server answer passes axios's 2xx check |
| Client.IntendedShowsCompletion | client/src/App.js:27 | with the corrected handler, a note that reaches the completion call shows exactly the completion text |
| Client.TypedNoteReachesPrompt | client/src/App.js:18 | a typed note with no file reaches the prompt unchanged, and only the empty note is refused |

## Findings

| source | as written | input that shows it | evidently intended | confidence | as-written member | corrected member |
|---|---|---|---|---|---|---|
| server/index.js:86 | the success answer reads `response.data`, but the completion result is bound to `completion` and no `response` exists, so the ReferenceError is caught and answered 500 | typed note "BP 120/80", no file, completion call succeeds with "{}" | answer 200 with `{ message: <the content read at line 84> }` | high (not executed) | Server.Handle, Server.AsWrittenLosesCompletion | Server.HandleIntended, Client.IntendedShowsCompletion |

`Client.App.SubmitToServer` uses the handler as written, because that is the server as deployed.
`Client.IntendedShowsCompletion` states the end-to-end behaviour under the corrected handler.

## Left out

- Express, cors and multer setup, `app.listen` and the port: server plumbing.
- `fs.readFileSync` and `pdf-parse`: file I/O and a foreign library. Their result is the `Extraction` parameter.
- `fs.unlinkSync` failing: an I/O failure that would also land in the 500 branch. Only whether the handler deletes the upload is modelled (`DeletesUpload`).
- The OpenAI client and `createChatCompletion`: a network call. Its outcome is the `Completion` parameter, which also covers a malformed answer at line 84.
- The prompt's system message and model name: fixed data passed to the network call.
- `console.log` and `console.error`: logging.
- JSX markup, CSS classes, axios transport, the `document.getElementById` resets, the Blob download, the clipboard and `alert`: UI and I/O.
- `JSON.parse` and `JSON.stringify`: library JSON handling. Only the string cleanup that feeds them is modelled.
- Server.TypedNote: the note is taken as the string field a multipart form sends. `express.json()` also admits JSON bodies whose `note` is any JSON value; how `|| ''` treats a non-string there (`0` becomes empty, an object reaches the prompt as `[object Object]`) is not modelled.
- Client.PickResult: `undefined` (both keys absent) is modelled as the empty string. Both are falsy, so the output panel is hidden either way and the cleanup is never reached.
- The marker-based response interpreter: it is not part of these files.
