# ViewChatter, modelled in Dafny

ViewChatter is a single-page Streamlit chat: a visitor gives a name, types a message
(optionally attaching a file), and every message is kept in a history list that is shown
below the form. Around the chat the page looks up the visitor's location twice over IP,
and asks the browser for precise coordinates. This project models the logic that is left
once widgets, HTTP and the JavaScript bridge are taken away:

- **IP lookup combination** (`IpLocation`, `ip_location.dfy`): `get_ip_location` runs two
  lookups inside one `try`; each lookup becomes an abstract outcome (JSON body or failure).
- **Browser geolocation payload** (`Geolocation`, `geolocation.dfy`): `get_browser_geolocation`
  classifies the bridge's outcome (raised, returned a falsy value, returned coordinates)
  into the payload dictionary with `method`, `status`, `server_time_utc` and, depending on the
  case, `coords` or `error`.
- **Submit handler** (`Chat`, `chat.dfy`): the name check (`username.strip() == ""`), the
  "text or attachment" check, the message record with its optional attachment fields, and the
  in-place append to the session's message list (class `Session`, field `messages`).
- **Display loop** (`Display`, `display.dfy`): the Markdown line of each message, with
  `dict.get` defaults and the attachment note, collected in order.
- Python support (`PyValues`, `python_values.dfy`): JSON-shaped values, truthiness, and
  `str.strip()` with exactly the characters Python's `str.isspace()` accepts;
  `Wrappers` (`wrappers.dfy`) holds `Option`.

The clock (`datetime.now(...).isoformat()`) is a string parameter, the attachment is an
`Option<Attachment>` (name and content type), and every foreign call is an outcome value.

The code keeps the history in memory and in a local JSON file only: it has no remote log
store, no polling or sync loop, no attachment upload or storage key, no per-visit record and
no `unsupported` geolocation status (the JavaScript's `reject('unsupported')` reaches Python
only as whatever the bridge makes of a rejected promise). The model follows the code.

## Model

| member | source | states |
|---|---|---|
| PyValues.SkipLeading | ViewChatter.py:164 | the scan from the left stops at the first non-whitespace character (or the end), having passed only whitespace |
| PyValues.SkipTrailing | ViewChatter.py:164 | the scan from the right stops just after the last non-whitespace character (or at the left bound), having passed only whitespace |
| PyValues.Strip | ViewChatter.py:164 | `strip()` yields the slice between an all-whitespace prefix and suffix, starting and ending with non-whitespace, and is empty exactly when the input is all whitespace |
| IpLocation.GetIpLocation | ViewChatter.py:29-38 | both bodies when both lookups succeed; `(None, None)` when either fails, even after a successful first lookup |
| IpLocation.SecondIrrelevantAfterFirstFails | ViewChatter.py:30-38 | after a failed first lookup the second outcome cannot affect the result |
| IpLocation.AllOrNothing | ViewChatter.py:30-38 | any non-None component implies both lookups succeeded and both bodies are returned unchanged |
| IpLocation.NullBodiesLookLikeFailure | ViewChatter.py:35-38 | two `null` JSON bodies give the same pair as a failure |
| Geolocation.BrowserGeolocation | ViewChatter.py:41-89 | method is always "geolocation" with the server time; "success" with `coords` iff a truthy value came back; falsy gives "no_data_or_denied" without `coords`; an exception gives "error" with its text and no `coords` |
| Geolocation.PayloadRecordsOutcome | ViewChatter.py:70-87 | reading the payload back recovers the raised error or the returned coordinates; only a falsy value is lost |
| Geolocation.FalsyResultsAgree | ViewChatter.py:75-79 | all falsy bridge results yield the same payload |
| Geolocation.PayloadKeys | ViewChatter.py:70-87 | the payload's key set is method, server_time_utc, status, plus coords on success and error after an exception |
| Chat.Decide | ViewChatter.py:163-166 | all-whitespace name iff rejected; ignored iff the name is non-blank, the text empty and no file; appended iff non-blank name and (text or file) |
| Chat.NewMessage | ViewChatter.py:167-174 | the record has user (unstripped), message and timestamp, and the attachment name and type keys iff a file was attached, nothing else |
| Chat.AfterSubmit | ViewChatter.py:163-175 | an accepted submission adds exactly one record at the end and keeps every earlier entry; otherwise the history is unchanged |
| Chat.Session.constructor | ViewChatter.py:104-110 | the session's messages are the history loaded at start |
| Chat.Session.Submit | ViewChatter.py:163-175 | returns the decision and leaves `messages` as the history after that submission |
| Chat.BlankNameChangesNothing | ViewChatter.py:164-165 | a blank name is rejected and the history is unchanged, whatever the text or attachment |
| Chat.AttachmentWithoutText | ViewChatter.py:166-174 | empty text with a file is stored, with an empty message and the file's name |
| Chat.WhitespaceTextIsStored | ViewChatter.py:166-169 | the text is not stripped: whitespace-only text is stored as typed |
| Chat.SubmitPreservesWellFormed | ViewChatter.py:163-175 | a history of records with non-blank author and text or attachment stays so after a submission |
| Display.RenderMessage | ViewChatter.py:185-191 | KeyError on the type iff an attachment name is present without a type; a rendered line ends in ')' iff there is an attachment name and in a space otherwise |
| Display.MissingFieldsRenderAsDefaults | ViewChatter.py:185-187 | through `dict.get`, missing user, message and timestamp render exactly as if they held "Unknown", "" and "" |
| Display.EmptyMessageLine | ViewChatter.py:185-191 | a message with no fields renders as `**Unknown []:**` followed by two spaces |
| Display.AttachmentNoteIsSuffix | ViewChatter.py:188-191 | a message with a file renders as the same message without the file fields followed by the paperclip note |
| Display.SubmittedMessageLine | ViewChatter.py:167-191 | a record built by the handler renders without error, `dict.get` returning its stored fields: the name as entered, the timestamp, the text and the file note |
| Display.WellFormedRenders | ViewChatter.py:189-190 | a well-formed record never raises while rendering |
| Display.Display | ViewChatter.py:184-191 | lines are the messages' lines in order; the loop stops at the first message that raises and completes iff none does |

## Left out

- The HTTP requests to ipapi.co and ip-api.com, their timeouts and the disabled certificate check: foreign network calls, reduced to success/failure outcomes.
- The JavaScript evaluated through `streamlit_js_eval` and the `timeout_ms` it is given: environment-bound, replaced by the `BridgeOutcome` datatype.
- The second, inline geolocation block (ViewChatter.py:116-145): the same classification without the exception branch, covered by `Geolocation.BrowserGeolocation`. That call passes `key2="geo"` (ViewChatter.py:136) where the first passes `key="geo"`; the bridge library is not part of this model, so whether it accepts that keyword is not known here. If it does not, line 116 raises outside any `try` and the chat form and display below never run, which the model does not capture.
- Loading and saving `chat_log.json` (ViewChatter.py:104-108, 178-180): file I/O; the loaded history is the `Session` constructor's argument.
- `datetime.now(timezone.utc).isoformat()`: the timestamps are opaque string parameters.
- `log`, `log2` and all printing and logging calls: output only.
- Streamlit widgets, the title, the form, the file uploader, the consent button and its session flag: UI. The consent flag gates the second precise-geolocation request (ViewChatter.py:116-145) and the chat form and display; both IP lookups (ViewChatter.py:40) and the first precise-geolocation request (ViewChatter.py:91) run on every page load whether or not consent was given. The model does not represent this ordering.
- Floating-point values: coordinates are floats in the source; `PyValue` has integers only, which is enough for truthiness and for passing the value through unchanged.
- Display.RenderMessage: message fields are strings and every history entry is a dictionary; a log file could hold non-string JSON values, which Python would format with `str()`, or entries that are not JSON objects, for which `msg.get` (ViewChatter.py:185) raises `AttributeError` and stops the display loop like the `KeyError` the model captures. Neither case is modelled.
- The page's Markdown rendering of each line: the model produces the Markdown source text.
