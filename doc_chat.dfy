/** The session state of the document-chat client as values: the four pieces of component
    state (message log, input buffer, document list, loading flag) and the updates its
    handlers make to them, each as one atomic step. Ids and timestamps come from the clock
    and randomness in the client, so every step takes them as parameters; the outcome of
    the generate request is a parameter of the step that finishes a send. */
module DocChat {
  import opened JsText

  datatype Option<T> = None | Some(value: T)

  /** A document id is `Date.now() + Math.random()`, a non-integral number. */
  type DocId = real
  /** A message id is `Date.now()` (user) or `Date.now() + 1` (ai). */
  type MessageId = int

  /** The file object the user selected or dropped, with the metadata the client reads. */
  datatype SelectedFile = SelectedFile(name: string, size: nat, mimeType: string)

  /** One entry of `uploadedDocs`: id, name, size, type and the file itself. */
  datatype Document = Document(id: DocId, name: string, size: nat, mimeType: string, file: SelectedFile)

  datatype Sender = User | Ai

  /** One entry of `messages`. A user message has no `sources` field at all (None);
      an ai message always carries one, possibly empty. */
  datatype Message = Message(id: MessageId, text: string, sender: Sender, timestamp: string,
                             sources: Option<seq<string>>)

  /** The component state: `messages`, `inputMessage`, `uploadedDocs`, `isLoading`. */
  datatype ChatState = ChatState(messages: seq<Message>, input: string, docs: seq<Document>, loading: bool)

  /** The body of the POST to /generate. */
  datatype GenerateRequest = GenerateRequest(text: string, sessionId: string)

  /** What an accepted send carries across its `await`: the request it issued and the
      document list its closure captured when the send began. */
  datatype PendingSend = PendingSend(request: GenerateRequest, docsAtSend: seq<Document>)

  /** How the generate request ended: a 2xx response with its `generated_text`, or any
      failure (a non-ok status or a thrown error). */
  datatype GenerateOutcome = Generated(text: string) | Failed

  const SESSION_ID: string := "user123"
  const UNKNOWN_DOCUMENT: string := "Unknown"
  const CITATION_PREFIX: string := "Document: "
  const ERROR_REPLY: string := "Sorry, I'm having trouble processing your request. Please try again."

  /** All four state hooks start empty. */
  const InitialState: ChatState := ChatState([], "", [], false)

  // ---------------------------------------------------------------------------------
  // The document list

  /** `Array.from(files).map(...)`: one document per selected file, in selection order,
      copying the file's name, size and type; the ids are supplied one per file. */
  function NewDocs(files: seq<SelectedFile>, ids: seq<DocId>): (r: seq<Document>)
    requires |ids| == |files|
    ensures |r| == |files|
    ensures forall i :: 0 <= i < |r| ==>
              && r[i].id == ids[i] && r[i].file == files[i]
              && r[i].name == files[i].name && r[i].size == files[i].size
              && r[i].mimeType == files[i].mimeType
  {
    seq(|files|, i requires 0 <= i < |files| =>
      Document(ids[i], files[i].name, files[i].size, files[i].mimeType, files[i]))
  }

  /** `setUploadedDocs(prev => [...prev, ...newDocs])`: the existing documents, unchanged,
      followed by one new document per file. Nothing is merged by name. */
  function AddDocs(docs: seq<Document>, files: seq<SelectedFile>, ids: seq<DocId>): (r: seq<Document>)
    requires |ids| == |files|
    ensures |r| == |docs| + |files|
    ensures r[..|docs|] == docs
    ensures forall i :: 0 <= i < |files| ==> r[|docs| + i] == NewDocs(files, ids)[i]
  {
    docs + NewDocs(files, ids)
  }

  /** `prev.filter(doc => doc.id !== docId)`. */
  function RemoveById(docs: seq<Document>, docId: DocId): (r: seq<Document>)
    ensures |r| <= |docs|
    ensures forall d :: d in r ==> d in docs && d.id != docId
    ensures forall d :: d in docs && d.id != docId ==> d in r
  {
    if docs == [] then []
    else if docs[0].id != docId then [docs[0]] + RemoveById(docs[1..], docId)
    else RemoveById(docs[1..], docId)
  }

  /** Filtering distributes over concatenation, so the kept documents stay in their
      original relative order. */
  lemma {:induction false} RemoveByIdAppend(a: seq<Document>, b: seq<Document>, docId: DocId)
    ensures RemoveById(a + b, docId) == RemoveById(a, docId) + RemoveById(b, docId)
  {
    if a == [] {
      assert a + b == b;
    } else {
      assert (a + b)[1..] == a[1..] + b;
      RemoveByIdAppend(a[1..], b, docId);
    }
  }

  /** An id that no document carries leaves the list exactly as it was. */
  lemma {:induction false} RemoveByIdAbsent(docs: seq<Document>, docId: DocId)
    requires forall i :: 0 <= i < |docs| ==> docs[i].id != docId
    ensures RemoveById(docs, docId) == docs
  {
    if docs != [] {
      RemoveByIdAbsent(docs[1..], docId);
    }
  }

  /** The number of documents removed is the number that carry the id. */
  function CountWithId(docs: seq<Document>, docId: DocId): nat {
    if docs == [] then 0
    else (if docs[0].id == docId then 1 else 0) + CountWithId(docs[1..], docId)
  }

  lemma {:induction false} RemoveByIdCount(docs: seq<Document>, docId: DocId)
    ensures |RemoveById(docs, docId)| == |docs| - CountWithId(docs, docId)
    ensures CountWithId(RemoveById(docs, docId), docId) == 0
  {
    if docs != [] {
      RemoveByIdCount(docs[1..], docId);
    }
  }

  // ---------------------------------------------------------------------------------
  // The send guard and the two entry points

  /** The guard at the top of handleSendMessage, `!inputMessage.trim() || uploadedDocs.length === 0`
      negated: the input is not all whitespace and at least one document is attached. It
      does not look at the loading flag. GuardsUseTrim shows this is the `trim()` test. */
  predicate AcceptsSend(input: string, docs: seq<Document>): (ok: bool)
    ensures ok ==> |input| > 0 && |docs| > 0
  {
    !AllTrimmable(input) && |docs| > 0
  }

  /** The Send button's `disabled` expression negated: the button is enabled exactly when the
      guard would accept and no reply is awaited. */
  predicate SendButtonEnabled(input: string, docs: seq<Document>, loading: bool): (ok: bool)
    ensures ok <==> AcceptsSend(input, docs) && !loading
  {
    !(AllTrimmable(input) || |docs| == 0 || loading)
  }

  /** Both conditions are the source's, written with `trim()`. */
  lemma GuardsUseTrim(input: string, docs: seq<Document>, loading: bool)
    ensures AcceptsSend(input, docs) <==> Trim(input) != [] && |docs| > 0
    ensures SendButtonEnabled(input, docs, loading) <==> !(Trim(input) == [] || |docs| == 0 || loading)
  {
    TrimEmptyIffAllTrimmable(input);
  }

  /** handleKeyPress sends on Enter without Shift; Shift+Enter keeps its default, a new line. */
  predicate IsSendKey(key: string, shiftKey: bool): (ok: bool)
    ensures shiftKey ==> !ok
    ensures !shiftKey ==> (ok <==> key == "Enter")
  {
    key == "Enter" && !shiftKey
  }

  // ---------------------------------------------------------------------------------
  // Steps of the state machine

  /** The textarea's onChange; a disabled textarea (no documents) takes no input. */
  function ChangeInput(s: ChatState, value: string): (r: ChatState)
    ensures r.messages == s.messages && r.docs == s.docs && r.loading == s.loading
    ensures r.input == if |s.docs| > 0 then value else s.input
  {
    if |s.docs| > 0 then s.(input := value) else s
  }

  /** The list part of handleFileUpload. */
  function UploadFiles(s: ChatState, files: seq<SelectedFile>, ids: seq<DocId>): (r: ChatState)
    requires |ids| == |files|
    ensures r.messages == s.messages && r.input == s.input && r.loading == s.loading
    ensures |r.docs| == |s.docs| + |files| && r.docs[..|s.docs|] == s.docs
    ensures r.docs == AddDocs(s.docs, files, ids)
  {
    s.(docs := AddDocs(s.docs, files, ids))
  }

  /** removeDocument. */
  function RemoveDocument(s: ChatState, docId: DocId): (r: ChatState)
    ensures r.messages == s.messages && r.input == s.input && r.loading == s.loading
    ensures forall d :: d in r.docs <==> d in s.docs && d.id != docId
    ensures r.docs == RemoveById(s.docs, docId)
  {
    s.(docs := RemoveById(s.docs, docId))
  }

  /** The request an accepted send issues, with the document list its closure captured;
      None when the guard rejects. */
  function SendTicket(s: ChatState): (p: Option<PendingSend>)
    ensures p.Some? <==> AcceptsSend(s.input, s.docs)
    ensures p.Some? ==> p.value.request.text == s.input && p.value.request.sessionId == SESSION_ID
                        && p.value.docsAtSend == s.docs
  {
    if AcceptsSend(s.input, s.docs) then Some(PendingSend(GenerateRequest(s.input, SESSION_ID), s.docs))
    else None
  }

  /** The first half of handleSendMessage, up to its `await`: a rejected send changes
      nothing; an accepted one appends exactly one user message holding the untrimmed input,
      clears the input and raises the loading flag. */
  function BeginSend(s: ChatState, id: MessageId, timestamp: string): (r: ChatState)
    ensures !AcceptsSend(s.input, s.docs) ==> r == s
    ensures AcceptsSend(s.input, s.docs) ==>
              && |r.messages| == |s.messages| + 1 && r.messages[..|s.messages|] == s.messages
              && r.messages[|s.messages|] == Message(id, s.input, User, timestamp, None)
              && r.input == "" && r.loading && r.docs == s.docs
  {
    if !AcceptsSend(s.input, s.docs) then s
    else
      var userMessage := Message(id, s.input, User, timestamp, None);
      s.(messages := s.messages + [userMessage], input := "", loading := true)
  }

  /** `uploadedDocs[0]?.name || 'Unknown'`: a missing first document and an empty name
      both fall back to the label. */
  function CitedName(docs: seq<Document>): (n: string)
    ensures n != []
    ensures n == UNKNOWN_DOCUMENT || (|docs| > 0 && n == docs[0].name)
    ensures |docs| > 0 && docs[0].name != [] ==> n == docs[0].name
  {
    if |docs| > 0 && docs[0].name != "" then docs[0].name else UNKNOWN_DOCUMENT
  }

  /** The reply appended when a send finishes. */
  function AiReply(p: PendingSend, outcome: GenerateOutcome, id: MessageId, timestamp: string): (m: Message)
    ensures m.sender == Ai && m.id == id && m.timestamp == timestamp && m.sources.Some?
    ensures outcome.Generated? ==>
              m.text == outcome.text && m.sources.value == [CITATION_PREFIX + CitedName(p.docsAtSend)]
    ensures outcome.Failed? ==> m.text == ERROR_REPLY && m.sources.value == []
  {
    match outcome
    case Generated(text) => Message(id, text, Ai, timestamp, Some([CITATION_PREFIX + CitedName(p.docsAtSend)]))
    case Failed => Message(id, ERROR_REPLY, Ai, timestamp, Some([]))
  }

  /** The second half of handleSendMessage: exactly one ai message is appended after
      whatever the log holds by then, and the loading flag drops; input and documents are
      left as they are. */
  function FinishSend(s: ChatState, p: PendingSend, outcome: GenerateOutcome, id: MessageId, timestamp: string): (r: ChatState)
    ensures |r.messages| == |s.messages| + 1 && r.messages[..|s.messages|] == s.messages
    ensures r.messages[|s.messages|] == AiReply(p, outcome, id, timestamp)
    ensures !r.loading && r.input == s.input && r.docs == s.docs
  {
    s.(messages := s.messages + [AiReply(p, outcome, id, timestamp)], loading := false)
  }

  /** handleKeyPress: Enter without Shift runs handleSendMessage, bypassing the loading flag. */
  function PressKey(s: ChatState, key: string, shiftKey: bool, id: MessageId, timestamp: string): (r: ChatState)
    ensures !IsSendKey(key, shiftKey) ==> r == s
    ensures IsSendKey(key, shiftKey) ==> r == BeginSend(s, id, timestamp)
  {
    if IsSendKey(key, shiftKey) then BeginSend(s, id, timestamp) else s
  }

  /** A click on the Send button: a disabled button fires nothing. */
  function ClickSend(s: ChatState, id: MessageId, timestamp: string): (r: ChatState)
    ensures s.loading || !AcceptsSend(s.input, s.docs) ==> r == s
    ensures !s.loading && AcceptsSend(s.input, s.docs) ==> r == BeginSend(s, id, timestamp)
  {
    if SendButtonEnabled(s.input, s.docs, s.loading) then BeginSend(s, id, timestamp) else s
  }
}
