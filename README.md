# RAGChat session model

This project models two parts of RAGChat:

- **The chat client's session state.** This is the React component `CorporateDocChat`. It holds four pieces of state:
  - an append-only message log;
  - an input buffer;
  - the list of attached documents;
  - a loading flag.

  The model covers the handlers that change this state. `handleSendMessage` contains an `await`, so it is modelled as two atomic steps:
  - `BeginSend`: the guard, the user message, clearing the input and raising the loading flag;
  - `FinishSend`: given how the generate request ended, it appends the single ai reply and drops the flag.
- **The backend's per-session history table.** This is `get_session_history`, a get-or-create over the module-level dictionary `store`.

Layout:

- `js_text.dfy` (module `JsText`): JavaScript's `String.prototype.trim`, on which the send guard depends.
- `doc_chat.dfy` (module `DocChat`): the state as a value. It has the document-list updaters (`[...prev, ...newDocs]` and `filter`), the guard, the Send button's enable condition, and one function per handler step. The properties of these functions are proved here.
- `chat_component.dfy` (module `ChatComponent`): the component as a class. Its fields are `messages`, `inputMessage`, `uploadedDocs` and `isLoading`, and its handlers are methods. Each method is specified by the `DocChat` step it performs.
- `chat_runs.dfy` (module `ChatRuns`): whole sessions. A session is a sequence of user actions and response arrivals. A "world" pairs the component state with the sends whose requests have not yet ended. The invariants proved for every session are:
  - the log only grows;
  - user messages outnumber ai messages by exactly the number of sends in flight.

  For sessions in which no Enter press starts a send while a reply is awaited, the log alternates user, ai, user, ai. This holds whether a send comes from the Send button or from Enter, and Enter presses that the guard rejects while waiting are allowed. The Enter key skips the loading check, and a lemma shows how an Enter send while loading breaks the alternation.
- `session_store.dfy` (module `SessionStore`): `store` as a class with a `map` field, and `get_session_history` as a method on it. A pure function gives the table after a call, and lemmas state that a call is idempotent and does not touch the other keys.

The client passes each request's result in from outside. A result is either `Generated(text)` or `Failed`. `Failed` covers a non-ok status and any thrown error. The caller also supplies ids and timestamps.

On these points the code behaves as follows, and the model follows it:

- **Upload status.** Documents carry no upload status. They have only `id`, `name`, `size`, `type` and `file`. The upload loop only logs its results.
- **Sends while loading.** A send is not rejected while another is pending when it comes from the Enter key. The guard at frontend/src/components/CorporateDocChat.jsx:86 ignores `isLoading`, and only the button checks it (line 288). `ChatRuns.EnterBypassesLoading` shows a second question logged right after the first, with two requests in flight.
- **Citation.** The citation uses the document list that the send's closure captured when the send began. That list is `PendingSend.docsAtSend`. It may differ from the list when the reply arrives.
- **User messages.** A user message has no `sources` field at all (`None`). An ai message always has one (`Some`).

## Model

| member | source | states |
|---|---|---|
| JsText.TrimStart | frontend/src/components/CorporateDocChat.jsx:86 | the result is a suffix of the input, everything cut is whitespace or a line terminator, and it does not start with one |
| JsText.TrimEnd | frontend/src/components/CorporateDocChat.jsx:86 | the result is a prefix of the input, everything cut is whitespace or a line terminator, and it does not end with one |
| JsText.Trim | frontend/src/components/CorporateDocChat.jsx:86 | `trim()` never lengthens its input and leaves no whitespace or line terminator at either end |
| JsText.TrimIsSlice | frontend/src/components/CorporateDocChat.jsx:86 | the trimmed text is a contiguous slice of the input with only trimmable characters before and after it |
| JsText.TrimEmptyIffAllTrimmable | frontend/src/components/CorporateDocChat.jsx:86 | `!inputMessage.trim()` holds exactly when every character of the input is whitespace or a line terminator, including the empty input |
| DocChat.NewDocs | frontend/src/components/CorporateDocChat.jsx:23-29 | one document per selected file, in selection order; each copies the file's name, size and type and keeps the file, with the id drawn for it |
| DocChat.AddDocs | frontend/src/components/CorporateDocChat.jsx:30 | the existing documents are kept unchanged as a prefix, followed by exactly one new document per file; the length grows by the number of files, so nothing is deduplicated by name |
| DocChat.RemoveById | frontend/src/components/CorporateDocChat.jsx:74 | every document with the given id is dropped and every other document is kept |
| DocChat.RemoveByIdAppend | frontend/src/components/CorporateDocChat.jsx:74 | the filter distributes over concatenation, so kept documents stay in their original relative order |
| DocChat.RemoveByIdAbsent | frontend/src/components/CorporateDocChat.jsx:74 | an id that no document carries leaves the list exactly as it was |
| DocChat.RemoveByIdCount | frontend/src/components/CorporateDocChat.jsx:74 | exactly the documents carrying the id are removed (the length drops by their number) and none carrying it remains |
| DocChat.AcceptsSend | frontend/src/components/CorporateDocChat.jsx:86 | the guard of handleSendMessage accepts only a non-empty input with at least one document attached, and it does not look at the loading flag |
| DocChat.SendButtonEnabled | frontend/src/components/CorporateDocChat.jsx:288 | the Send button is enabled exactly when the guard of line 86 would accept and no reply is awaited |
| DocChat.GuardsUseTrim | frontend/src/components/CorporateDocChat.jsx:86 | the guard accepts exactly when `inputMessage.trim()` is non-empty and a document exists; the button of line 288 is enabled exactly when, in addition, nothing is loading, both stated with `trim()` itself |
| DocChat.IsSendKey | frontend/src/components/CorporateDocChat.jsx:147 | Shift+Enter never sends; without Shift, a key sends exactly when it is Enter |
| DocChat.ChangeInput | frontend/src/components/CorporateDocChat.jsx:279-282 | typing replaces the input only while the textarea is enabled (at least one document); nothing else changes |
| DocChat.UploadFiles | frontend/src/components/CorporateDocChat.jsx:22-30 | selecting files makes the document list exactly AddDocs of the old one: the old list unchanged, then one new document per file in selection order; log, input and loading flag are unchanged |
| DocChat.RemoveDocument | frontend/src/components/CorporateDocChat.jsx:73-75 | the new list is exactly the filter RemoveById of the old one, so a document is in it exactly when it was before and does not carry the id, in the old order; log, input and loading flag are unchanged |
| DocChat.SendTicket | frontend/src/components/CorporateDocChat.jsx:86-110 | a request is issued exactly when the guard accepts; it carries the untrimmed input and session id "user123", and the send keeps the document list as it was at send time |
| DocChat.BeginSend | frontend/src/components/CorporateDocChat.jsx:86-97 | a rejected send changes nothing; an accepted one appends exactly one user message, with the given id and timestamp, the untrimmed input and no sources, clears the input, raises the loading flag and keeps the documents |
| DocChat.CitedName | frontend/src/components/CorporateDocChat.jsx:123 | the cited name is never empty: it is the first document's name when that exists and is non-empty, and "Unknown" otherwise |
| DocChat.AiReply | frontend/src/components/CorporateDocChat.jsx:116-141 | the reply is an ai message with the given id and timestamp; on success its text is the generated text and its sources are the single entry "Document: " + cited name; on failure its text is the fixed apology and its sources are empty |
| DocChat.FinishSend | frontend/src/components/CorporateDocChat.jsx:116-141 | exactly one ai message is appended after the current log, the loading flag becomes false, and input and documents are unchanged |
| DocChat.PressKey | frontend/src/components/CorporateDocChat.jsx:146-151 | Enter without Shift runs the send step whatever the loading flag; any other key changes nothing |
| DocChat.ClickSend | frontend/src/components/CorporateDocChat.jsx:287-288 | a click while loading, or one that the guard would reject, changes nothing; otherwise it runs the send step |
| ChatComponent.CorporateDocChat.constructor | frontend/src/components/CorporateDocChat.jsx:6-9 | the component starts with an empty log, empty input, no documents and the flag down |
| ChatComponent.CorporateDocChat.HandleInputChange | frontend/src/components/CorporateDocChat.jsx:279-282 | the fields change as ChangeInput says |
| ChatComponent.CorporateDocChat.HandleFileUpload | frontend/src/components/CorporateDocChat.jsx:22-30 | `uploadedDocs` changes as UploadFiles says and no other field changes |
| ChatComponent.CorporateDocChat.RemoveDocument | frontend/src/components/CorporateDocChat.jsx:73-75 | `uploadedDocs` changes as RemoveDocument says and no other field changes |
| ChatComponent.CorporateDocChat.BeginSendMessage | frontend/src/components/CorporateDocChat.jsx:85-110 | the fields change as BeginSend says; the returned pending send is SendTicket of the old state |
| ChatComponent.CorporateDocChat.FinishSendMessage | frontend/src/components/CorporateDocChat.jsx:116-141 | the fields change as FinishSend says for the given outcome |
| ChatComponent.CorporateDocChat.HandleKeyPress | frontend/src/components/CorporateDocChat.jsx:146-151 | the fields change as PressKey says; Enter without Shift returns the send's ticket even while loading |
| ChatComponent.CorporateDocChat.ClickSendButton | frontend/src/components/CorporateDocChat.jsx:286-288 | the fields change as ClickSend says; no request is issued while loading |
| ChatRuns.StartSend | frontend/src/components/CorporateDocChat.jsx:85-110 | a rejected send leaves the world unchanged; an accepted one runs BeginSend and appends its request, with the untrimmed input, "user123" and the documents at send time, to the sends in flight |
| ChatRuns.Apply | frontend/src/components/CorporateDocChat.jsx:85-288 | typing, selecting files and removing a document apply ChangeInput, UploadFiles and RemoveDocument to the state and leave the log, the flag and the sends in flight alone; a click does nothing while loading and otherwise does what an Enter send does; Enter without Shift starts a send whatever the flag; a response to the k-th send in flight runs FinishSend for that send and removes exactly it, and a response to no send changes nothing |
| ChatRuns.StartSendBalanced | frontend/src/components/CorporateDocChat.jsx:86-97 | a send keeps the balance and only extends the log; a rejected one changes nothing; an accepted one puts exactly one more request in flight and logs exactly one user message |
| ChatRuns.ResponseBalanced | frontend/src/components/CorporateDocChat.jsx:116-141 | a response keeps the balance and only extends the log; a response to the k-th send in flight removes exactly that send and logs exactly one ai message |
| ChatRuns.ApplyBalanced | frontend/src/components/CorporateDocChat.jsx:85-143 | every single action or response keeps the log a prefix of the new log and keeps user messages equal to ai messages plus sends in flight |
| ChatRuns.RunBalanced | frontend/src/components/CorporateDocChat.jsx:85-143 | in every session, including Enter presses and responses in any order, no message is removed or edited, each ended send has added exactly one ai message, and loading implies a send in flight |
| ChatRuns.ClickKeepsSerial | frontend/src/components/CorporateDocChat.jsx:286-288 | a button click keeps the log alternating; at most one send is ever in flight, and it carries the last question |
| ChatRuns.ResponseKeepsSerial | frontend/src/components/CorporateDocChat.jsx:116-141 | a response answers the last question directly after it and leaves nothing in flight |
| ChatRuns.EnterIdleKeepsSerial | frontend/src/components/CorporateDocChat.jsx:146-151 | while nothing is loading, any key press keeps the log alternating, because an Enter send then does exactly what a click does |
| ChatRuns.ApplySerial | frontend/src/components/CorporateDocChat.jsx:85-151 | every event other than an Enter press that starts a send while loading keeps the log alternating and at most one send in flight |
| ChatRuns.RunSerial | frontend/src/components/CorporateDocChat.jsx:85-151 | in a session in which no Enter press starts a send while a reply is awaited, with sends from the button or from Enter and rejected Enter presses allowed at any time, the log alternates user, ai, user, ai; the flag is up exactly while one send is in flight; the log has even length whenever nothing is loading |
| ChatRuns.InitialWorldInvariants | frontend/src/components/CorporateDocChat.jsx:6-9 | the initial state satisfies both session invariants |
| ChatRuns.ClickWhileLoadingDoesNothing | frontend/src/components/CorporateDocChat.jsx:288 | while a reply is awaited a click on Send changes nothing and issues no request |
| ChatRuns.SecondQuestionBreaksAlternation | frontend/src/components/CorporateDocChat.jsx:86-97 | an accepted send while the log ends with a question logs a second question right after it, and the log stops alternating |
| ChatRuns.ApplyUsesHandlers | frontend/src/components/CorporateDocChat.jsx:146-151 | the Enter and click cases of a session step change the component state exactly as the handlers PressKey and ClickSend do |
| ChatRuns.RejectedEnterDoesNothing | frontend/src/components/CorporateDocChat.jsx:86 | an Enter press on an input the guard rejects leaves the whole world unchanged, loading or not |
| ChatRuns.DoubleEnterSessionAlternates | frontend/src/components/CorporateDocChat.jsx:85-151 | sending with Enter, pressing Enter again on the cleared input while waiting, then receiving the answer meets the alternation theorem's condition and keeps the log alternating |
| ChatRuns.EnterBypassesLoading | frontend/src/components/CorporateDocChat.jsx:146-151 | while loading, Enter with an accepted input logs a second user question right after the first, puts a second request in flight, and breaks the alternation |
| SessionStore.StoreAfter | backend/main.py:76-79 | after the call the id is a key; an existing entry is kept; an absent id gets the new history; no other key is added, removed or changed |
| SessionStore.StoreAfterIdempotent | backend/main.py:76-79 | a second call with the same id leaves the table as the first left it and finds the same history |
| SessionStore.StoreAfterCommutes | backend/main.py:77-78 | calls for different ids produce the same table in either order |
| SessionStore.HistoryStore.constructor | backend/main.py:69 | the table starts empty |
| SessionStore.HistoryStore.GetSessionHistory | backend/main.py:76-79 | the id is a key afterwards and the result is its entry; a present id returns the existing history and leaves `store` unchanged; an absent id gets exactly one fresh history; the table is StoreAfter of the old one |
| SessionStore.HistoryStore.GetSessionHistoryTwice | backend/main.py:76-79 | two consecutive calls with one id return the same object, and the table is what the first call alone leaves |

## Left out

- **Network calls.** The `fetch` to `/upload` (frontend/src/components/CorporateDocChat.jsx:33-53) is not modelled. That loop only logs its results and never changes `uploadedDocs`. As written it uses `await` inside a non-async arrow function.
- **The `/generate` request.** The request itself (lines 101-114) is not modelled. Its result is the `GenerateOutcome` parameter of `FinishSend`.
- DocChat.AiReply: a 2xx response whose JSON lacks `generated_text` is not modelled. The code then appends an ai message whose text is `undefined`. The model takes the generated text to be a string. A body that fails to parse as JSON throws, so it counts as `Failed`, as in the code.
- **`formatFileSize`.** Lines 77-83 are floating-point (`Math.log`, `toFixed`, `parseFloat`). They also index past the end of the size-unit table above GB.
- **Ids and timestamps.** `Date.now()`, `Math.random()` and `toLocaleTimeString()` are parameters. Nothing makes ids unique: the user message gets `Date.now()` and the reply gets `Date.now() + 1`. A document id is a `real`, and IEEE double rounding is not modelled.
- **Rendering and UI wiring.** Drag state, scrolling, refs, `preventDefault` and the JSX are not modelled. The exceptions are the textarea's `onChange` and `disabled` (lines 279-282) and the Send button's `onClick` and `disabled` (lines 286-288).
- **React scheduling.** Each handler step is one atomic state change, and a step reads the state current at that moment. State batching and the stale closures of a render are not modelled. The exception is the document list captured by a send, which the model keeps.
- **The `file` field.** A document's `file` is the selected `File` object. Here it is the value `SelectedFile`, so object identity is not modelled.
- **String encoding.** JavaScript strings are UTF-16 code units, while Dafny strings here are sequences of code points. Every character that `trim` removes is a single code unit, so the guard is unaffected.
- **The rest of backend/main.py.** These parts are I/O or foreign libraries:
  - environment and cache setup (lines 23-43);
  - the `/upload` route and its file write (lines 81-86);
  - the scan for `latest_file` at import time (lines 88-91);
  - the LangChain/Chroma/Groq pipeline in `/generate` (lines 93-120).
- SessionStore.HistoryStore.GetSessionHistory: each call is modelled as one atomic step. `generate_text` is a plain `def` route (backend/main.py:93-94), so FastAPI runs it on a worker thread pool. Two concurrent first requests for one id can both pass the check at line 77 and both allocate at line 78, and can then return different histories. That race breaks the idempotence proved here, and an Enter send while loading issues exactly such a second concurrent request for "user123". The race is not modelled.
- **`ChatMessageHistory`.** Its contents are not modelled. It is an opaque, freshly allocated object.
