/** The CorporateDocChat component as an object: its four state hooks are fields and its
    handlers are methods that reassign them. Each method is specified by the step of
    DocChat it performs, so what is proved about those steps holds of the component. */
module ChatComponent {
  import opened JsText
  import opened DocChat

  class CorporateDocChat {
    var messages: seq<Message>
    var inputMessage: string
    var uploadedDocs: seq<Document>
    var isLoading: bool

    /** The component state as a value. */
    function State(): ChatState
      reads this
    {
      ChatState(messages, inputMessage, uploadedDocs, isLoading)
    }

    /** The four useState calls. */
    constructor ()
      ensures State() == InitialState
    {
      messages := [];
      inputMessage := "";
      uploadedDocs := [];
      isLoading := false;
    }

    /** The textarea's onChange, which fires only while the textarea is enabled. */
    method HandleInputChange(value: string)
      modifies this`inputMessage
      ensures State() == ChangeInput(old(State()), value)
    {
      if |uploadedDocs| > 0 {
        inputMessage := value;
      }
    }

    /** handleFileUpload, up to `setUploadedDocs`; `ids` holds the id drawn for each file. */
    method HandleFileUpload(files: seq<SelectedFile>, ids: seq<DocId>)
      requires |ids| == |files|
      modifies this`uploadedDocs
      ensures State() == UploadFiles(old(State()), files, ids)
    {
      var newDocs := NewDocs(files, ids);
      uploadedDocs := uploadedDocs + newDocs;
    }

    /** removeDocument. */
    method RemoveDocument(docId: DocId)
      modifies this`uploadedDocs
      ensures State() == DocChat.RemoveDocument(old(State()), docId)
    {
      uploadedDocs := RemoveById(uploadedDocs, docId);
    }

    /** handleSendMessage up to its `await`. The result is the request issued together with
        the document list the closure captured, or None when the guard returned early. */
    method BeginSendMessage(id: MessageId, timestamp: string) returns (pending: Option<PendingSend>)
      modifies this`messages, this`inputMessage, this`isLoading
      ensures pending == SendTicket(old(State()))
      ensures State() == BeginSend(old(State()), id, timestamp)
    {
      TrimEmptyIffAllTrimmable(inputMessage);
      if Trim(inputMessage) == [] || |uploadedDocs| == 0 {
        return None;
      }
      var userMessage := Message(id, inputMessage, User, timestamp, None);
      messages := messages + [userMessage];
      pending := Some(PendingSend(GenerateRequest(inputMessage, SESSION_ID), uploadedDocs));
      inputMessage := "";
      isLoading := true;
    }

    /** handleSendMessage after its `await`, given how the request ended. */
    method FinishSendMessage(pending: PendingSend, outcome: GenerateOutcome, id: MessageId, timestamp: string)
      modifies this`messages, this`isLoading
      ensures State() == FinishSend(old(State()), pending, outcome, id, timestamp)
    {
      var reply: Message;
      match outcome {
        case Generated(text) =>
          var citation := CITATION_PREFIX + CitedName(pending.docsAtSend);
          reply := Message(id, text, Ai, timestamp, Some([citation]));
        case Failed =>
          reply := Message(id, ERROR_REPLY, Ai, timestamp, Some([]));
      }
      messages := messages + [reply];
      isLoading := false;
    }

    /** handleKeyPress: Enter without Shift calls handleSendMessage directly. */
    method HandleKeyPress(key: string, shiftKey: bool, id: MessageId, timestamp: string)
      returns (pending: Option<PendingSend>)
      modifies this`messages, this`inputMessage, this`isLoading
      ensures pending == (if IsSendKey(key, shiftKey) then SendTicket(old(State())) else None)
      ensures State() == PressKey(old(State()), key, shiftKey, id, timestamp)
    {
      pending := None;
      if key == "Enter" && !shiftKey {
        pending := BeginSendMessage(id, timestamp);
      }
    }

    /** A click on the Send button, which is disabled unless SendButtonEnabled holds. */
    method ClickSendButton(id: MessageId, timestamp: string) returns (pending: Option<PendingSend>)
      modifies this`messages, this`inputMessage, this`isLoading
      ensures pending == (if old(isLoading) then None else SendTicket(old(State())))
      ensures State() == ClickSend(old(State()), id, timestamp)
    {
      pending := None;
      TrimEmptyIffAllTrimmable(inputMessage);
      if !(Trim(inputMessage) == [] || |uploadedDocs| == 0 || isLoading) {
        pending := BeginSendMessage(id, timestamp);
      }
    }
  }
}
