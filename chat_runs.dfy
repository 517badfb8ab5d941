/** Whole sessions of the chat client: sequences of user actions and response arrivals.
    A send that passed its guard stays in flight until its generate request ends, and since
    the Enter key does not look at the loading flag several sends can be in flight at once,
    ending in any order. The world therefore pairs the component state with the sends still
    awaiting a response. */
module ChatRuns {
  import opened DocChat

  datatype Event =
    | InputChanged(value: string)
    | FilesSelected(files: seq<SelectedFile>, ids: seq<DocId>)
    | DocumentRemoved(docId: DocId)
    | SendClicked(id: MessageId, timestamp: string)
    | KeyPressed(key: string, shiftKey: bool, id: MessageId, timestamp: string)
      /** The generate request of the `index`-th send still in flight has ended. */
    | ResponseArrived(index: nat, outcome: GenerateOutcome, id: MessageId, timestamp: string)

  /** A file selection draws one id per file. */
  predicate WellFormed(e: Event) {
    e.FilesSelected? ==> |e.ids| == |e.files|
  }

  predicate AllWellFormed(events: seq<Event>) {
    forall i :: 0 <= i < |events| ==> WellFormed(events[i])
  }

  datatype World = World(chat: ChatState, inFlight: seq<PendingSend>)

  const InitialWorld: World := World(InitialState, [])

  /** handleSendMessage is called: a rejected send changes nothing; an accepted one runs
      BeginSend and its request, with the documents it captured, joins those in flight. */
  function StartSend(w: World, id: MessageId, timestamp: string): (r: World)
    ensures !AcceptsSend(w.chat.input, w.chat.docs) ==> r == w
    ensures AcceptsSend(w.chat.input, w.chat.docs) ==>
              && r.chat == BeginSend(w.chat, id, timestamp)
              && r.inFlight == w.inFlight + [PendingSend(GenerateRequest(w.chat.input, SESSION_ID), w.chat.docs)]
  {
    match SendTicket(w.chat)
    case None => w
    case Some(p) => World(BeginSend(w.chat, id, timestamp), w.inFlight + [p])
  }

  /** The handler each event runs. Editing events leave the log, the flag and the sends in
      flight alone; a click does nothing while loading and otherwise does what Enter does; a
      response to the `k`-th send in flight finishes that send and only that one. */
  function Apply(w: World, e: Event): (r: World)
    requires WellFormed(e)
    ensures e.InputChanged? || e.FilesSelected? || e.DocumentRemoved? ==>
              r.inFlight == w.inFlight && r.chat.messages == w.chat.messages && r.chat.loading == w.chat.loading
    ensures e.InputChanged? ==> r.chat == ChangeInput(w.chat, e.value)
    ensures e.FilesSelected? ==> r.chat == UploadFiles(w.chat, e.files, e.ids)
    ensures e.DocumentRemoved? ==> r.chat == RemoveDocument(w.chat, e.docId)
    ensures e.SendClicked? && w.chat.loading ==> r == w
    ensures e.SendClicked? && !w.chat.loading ==> r == StartSend(w, e.id, e.timestamp)
    ensures e.KeyPressed? ==> r == if IsSendKey(e.key, e.shiftKey) then StartSend(w, e.id, e.timestamp) else w
    ensures e.ResponseArrived? && e.index >= |w.inFlight| ==> r == w
    ensures e.ResponseArrived? && e.index < |w.inFlight| ==>
              && r.chat == FinishSend(w.chat, w.inFlight[e.index], e.outcome, e.id, e.timestamp)
              && r.inFlight == w.inFlight[..e.index] + w.inFlight[e.index + 1..]
  {
    match e
    case InputChanged(value) => w.(chat := ChangeInput(w.chat, value))
    case FilesSelected(files, ids) => w.(chat := UploadFiles(w.chat, files, ids))
    case DocumentRemoved(docId) => w.(chat := RemoveDocument(w.chat, docId))
    case SendClicked(id, timestamp) =>
      if SendButtonEnabled(w.chat.input, w.chat.docs, w.chat.loading) then StartSend(w, id, timestamp) else w
    case KeyPressed(key, shiftKey, id, timestamp) =>
      if IsSendKey(key, shiftKey) then StartSend(w, id, timestamp) else w
    case ResponseArrived(k, outcome, id, timestamp) =>
      if k < |w.inFlight| then
        World(FinishSend(w.chat, w.inFlight[k], outcome, id, timestamp), w.inFlight[..k] + w.inFlight[k + 1..])
      else w
  }

  function Run(w: World, events: seq<Event>): World
    requires AllWellFormed(events)
    decreases |events|
  {
    if events == [] then w else Run(Apply(w, events[0]), events[1..])
  }

  // ---------------------------------------------------------------------------------
  // Every session: the log only grows and every send ends in exactly one ai message

  function CountSender(msgs: seq<Message>, who: Sender): nat {
    if msgs == [] then 0
    else CountSender(msgs[..|msgs| - 1], who) + (if msgs[|msgs| - 1].sender == who then 1 else 0)
  }

  lemma CountSenderAppend(msgs: seq<Message>, m: Message, who: Sender)
    ensures CountSender(msgs + [m], who) == CountSender(msgs, who) + (if m.sender == who then 1 else 0)
  {
    assert (msgs + [m])[..|msgs|] == msgs;
  }

  /** User messages outnumber ai messages by the sends still awaiting a response, and the
      loading flag is up only while some send is in flight. */
  predicate Balanced(w: World) {
    && CountSender(w.chat.messages, User) == CountSender(w.chat.messages, Ai) + |w.inFlight|
    && (w.chat.loading ==> |w.inFlight| > 0)
  }

  /** A send that starts logs one user message and puts exactly one request in flight; a
      rejected one changes nothing. */
  lemma StartSendBalanced(w: World, id: MessageId, timestamp: string)
    requires Balanced(w)
    ensures Balanced(StartSend(w, id, timestamp))
    ensures w.chat.messages <= StartSend(w, id, timestamp).chat.messages
    ensures !AcceptsSend(w.chat.input, w.chat.docs) ==> StartSend(w, id, timestamp) == w
    ensures AcceptsSend(w.chat.input, w.chat.docs) ==>
              && |StartSend(w, id, timestamp).inFlight| == |w.inFlight| + 1
              && |StartSend(w, id, timestamp).chat.messages| == |w.chat.messages| + 1
              && StartSend(w, id, timestamp).chat.messages[|w.chat.messages|].sender == User
  {
    if AcceptsSend(w.chat.input, w.chat.docs) {
      var msgs := w.chat.messages;
      var c := BeginSend(w.chat, id, timestamp);
      assert c.messages == msgs + [c.messages[|msgs|]];
      CountSenderAppend(msgs, c.messages[|msgs|], User);
      CountSenderAppend(msgs, c.messages[|msgs|], Ai);
    }
  }

  /** A response to the `k`-th send in flight logs one ai message and takes exactly that send
      out of flight. */
  lemma ResponseBalanced(w: World, k: nat, outcome: GenerateOutcome, id: MessageId, timestamp: string)
    requires Balanced(w)
    ensures Balanced(Apply(w, ResponseArrived(k, outcome, id, timestamp)))
    ensures w.chat.messages <= Apply(w, ResponseArrived(k, outcome, id, timestamp)).chat.messages
    ensures k < |w.inFlight| ==>
              var r := Apply(w, ResponseArrived(k, outcome, id, timestamp));
              && r.inFlight == w.inFlight[..k] + w.inFlight[k + 1..]
              && |r.chat.messages| == |w.chat.messages| + 1
              && r.chat.messages[|w.chat.messages|].sender == Ai
  {
    if k < |w.inFlight| {
      var msgs := w.chat.messages;
      var c := FinishSend(w.chat, w.inFlight[k], outcome, id, timestamp);
      assert |w.inFlight[..k] + w.inFlight[k + 1..]| == |w.inFlight| - 1;
      assert c.messages == msgs + [c.messages[|msgs|]];
      CountSenderAppend(msgs, c.messages[|msgs|], User);
      CountSenderAppend(msgs, c.messages[|msgs|], Ai);
    }
  }

  lemma ApplyBalanced(w: World, e: Event)
    requires WellFormed(e) && Balanced(w)
    ensures Balanced(Apply(w, e))
    ensures w.chat.messages <= Apply(w, e).chat.messages
  {
    match e
    case SendClicked(id, timestamp) => StartSendBalanced(w, id, timestamp);
    case KeyPressed(key, shiftKey, id, timestamp) => StartSendBalanced(w, id, timestamp);
    case ResponseArrived(k, outcome, id, timestamp) => ResponseBalanced(w, k, outcome, id, timestamp);
    case InputChanged(value) =>
    case FilesSelected(files, ids) =>
    case DocumentRemoved(docId) =>
  }

  /** In any session, with any mix of clicks, Enter presses and responses in any order:
      no message is ever removed or edited, and each send that has ended has added exactly
      one ai message. */
  lemma {:induction false} RunBalanced(w: World, events: seq<Event>)
    requires AllWellFormed(events) && Balanced(w)
    ensures Balanced(Run(w, events))
    ensures w.chat.messages <= Run(w, events).chat.messages
    decreases |events|
  {
    if events != [] {
      ApplyBalanced(w, events[0]);
      RunBalanced(Apply(w, events[0]), events[1..]);
    }
  }

  // ---------------------------------------------------------------------------------
  // Sessions without Enter sends while loading: strict alternation

  /** No Enter press starts a send while a reply is awaited. Clicks, Enter presses while
      nothing is loading, and Enter presses that the guard rejects (on a cleared or blank
      input) are all allowed. */
  predicate NoEnterSendWhileLoading(w: World, events: seq<Event>)
    requires AllWellFormed(events)
    decreases |events|
  {
    events != [] ==>
      && !(events[0].KeyPressed? && IsSendKey(events[0].key, events[0].shiftKey) && w.chat.loading
           && AcceptsSend(w.chat.input, w.chat.docs))
      && NoEnterSendWhileLoading(Apply(w, events[0]), events[1..])
  }

  predicate Alternating(msgs: seq<Message>) {
    forall i :: 0 <= i < |msgs| ==> msgs[i].sender == (if i % 2 == 0 then User else Ai)
  }

  /** The log alternates user, ai, user, ai, ...; the loading flag is up exactly while one
      send is in flight, which is exactly when the log ends with a question, and that send
      carries the text of that question. */
  predicate Serial(w: World) {
    && Alternating(w.chat.messages)
    && |w.inFlight| == (if w.chat.loading then 1 else 0)
    && (|w.chat.messages| % 2 == 1 <==> w.chat.loading)
    && (w.chat.loading ==> w.inFlight[0].request.text == w.chat.messages[|w.chat.messages| - 1].text)
  }

  lemma AlternatingAppend(msgs: seq<Message>, m: Message)
    requires Alternating(msgs)
    requires m.sender == (if |msgs| % 2 == 0 then User else Ai)
    ensures Alternating(msgs + [m])
  {
    var r := msgs + [m];
    forall i | 0 <= i < |r|
      ensures r[i].sender == (if i % 2 == 0 then User else Ai)
    {
      if i < |msgs| {
        assert r[i] == msgs[i];
      }
    }
  }

  /** A click that passes the button's check starts the only send in flight. */
  lemma ClickKeepsSerial(w: World, id: MessageId, timestamp: string)
    requires Serial(w)
    ensures Serial(Apply(w, SendClicked(id, timestamp)))
  {
    var msgs := w.chat.messages;
    if SendButtonEnabled(w.chat.input, w.chat.docs, w.chat.loading) {
      var r := BeginSend(w.chat, id, timestamp);
      var p := SendTicket(w.chat).value;
      assert w.inFlight == [];
      assert Apply(w, SendClicked(id, timestamp)) == World(r, [p]);
      assert r.messages == msgs + [r.messages[|msgs|]];
      AlternatingAppend(msgs, r.messages[|msgs|]);
    }
  }

  /** A response can only end the one send in flight, and answers the last question. */
  lemma ResponseKeepsSerial(w: World, k: nat, outcome: GenerateOutcome, id: MessageId, timestamp: string)
    requires Serial(w)
    ensures Serial(Apply(w, ResponseArrived(k, outcome, id, timestamp)))
  {
    var msgs := w.chat.messages;
    if k < |w.inFlight| {
      var r := FinishSend(w.chat, w.inFlight[k], outcome, id, timestamp);
      assert w.inFlight[..k] + w.inFlight[k + 1..] == [];
      assert Apply(w, ResponseArrived(k, outcome, id, timestamp)) == World(r, []);
      assert r.messages == msgs + [r.messages[|msgs|]];
      AlternatingAppend(msgs, r.messages[|msgs|]);
    }
  }

  /** While nothing is loading, Enter does what a click does, so it keeps the log alternating. */
  lemma EnterIdleKeepsSerial(w: World, key: string, shiftKey: bool, id: MessageId, timestamp: string)
    requires Serial(w) && !w.chat.loading
    ensures Serial(Apply(w, KeyPressed(key, shiftKey, id, timestamp)))
  {
    if IsSendKey(key, shiftKey) {
      assert Apply(w, KeyPressed(key, shiftKey, id, timestamp)) == Apply(w, SendClicked(id, timestamp));
      ClickKeepsSerial(w, id, timestamp);
    }
  }

  lemma ApplySerial(w: World, e: Event)
    requires WellFormed(e) && Serial(w)
    requires !(e.KeyPressed? && IsSendKey(e.key, e.shiftKey) && w.chat.loading && AcceptsSend(w.chat.input, w.chat.docs))
    ensures Serial(Apply(w, e))
  {
    match e
    case SendClicked(id, timestamp) => ClickKeepsSerial(w, id, timestamp);
    case ResponseArrived(k, outcome, id, timestamp) => ResponseKeepsSerial(w, k, outcome, id, timestamp);
    case KeyPressed(key, shiftKey, id, timestamp) =>
      if !w.chat.loading {
        EnterIdleKeepsSerial(w, key, shiftKey, id, timestamp);
      }
    case InputChanged(value) =>
    case FilesSelected(files, ids) =>
    case DocumentRemoved(docId) =>
  }

  /** In a session with no Enter send while a reply is awaited, sends started by the button
      or by Enter alike, the log alternates strictly: every question is answered by exactly
      one ai message directly after it, and when nothing is loading the log holds an even
      number of messages. */
  lemma {:induction false} RunSerial(w: World, events: seq<Event>)
    requires AllWellFormed(events) && NoEnterSendWhileLoading(w, events) && Serial(w)
    ensures Serial(Run(w, events))
    ensures !Run(w, events).chat.loading ==> |Run(w, events).chat.messages| % 2 == 0
    decreases |events|
  {
    if events != [] {
      ApplySerial(w, events[0]);
      RunSerial(Apply(w, events[0]), events[1..]);
    }
  }

  /** The click and Enter cases of Apply are the component's own handlers, ClickSend and
      PressKey, with the started request added to those in flight. */
  lemma ApplyUsesHandlers(w: World, key: string, shiftKey: bool, id: MessageId, timestamp: string)
    ensures Apply(w, KeyPressed(key, shiftKey, id, timestamp)).chat == PressKey(w.chat, key, shiftKey, id, timestamp)
    ensures Apply(w, SendClicked(id, timestamp)).chat == ClickSend(w.chat, id, timestamp)
  {
  }

  /** While a reply is awaited, an Enter press on an input the guard rejects does nothing. */
  lemma RejectedEnterDoesNothing(w: World, id: MessageId, timestamp: string)
    requires !AcceptsSend(w.chat.input, w.chat.docs)
    ensures Apply(w, KeyPressed("Enter", false, id, timestamp)) == w
  {
  }

  /** The usual Enter session: send with Enter, press Enter again on the cleared input while
      waiting, then the answer arrives. It meets RunSerial's condition, and the log ends as
      one question followed by its answer. */
  lemma DoubleEnterSessionAlternates(w: World, id1: MessageId, id2: MessageId, id3: MessageId,
                                     t: string, outcome: GenerateOutcome)
    requires Serial(w) && !w.chat.loading
    ensures var events := [KeyPressed("Enter", false, id1, t), KeyPressed("Enter", false, id2, t),
                           ResponseArrived(0, outcome, id3, t)];
            && AllWellFormed(events) && NoEnterSendWhileLoading(w, events)
            && Serial(Run(w, events))
  {
    var events := [KeyPressed("Enter", false, id1, t), KeyPressed("Enter", false, id2, t),
                   ResponseArrived(0, outcome, id3, t)];
    var w1 := Apply(w, events[0]);
    assert !AcceptsSend(w1.chat.input, w1.chat.docs) by {
      if AcceptsSend(w.chat.input, w.chat.docs) {
        assert w1.chat.input == "";
      }
    }
    var w2 := Apply(w1, events[1]);
    assert w2 == w1;
    var w3 := Apply(w2, events[2]);
    assert events[1..][1..] == [events[2]] && events[1..][1..][1..] == [];
    assert NoEnterSendWhileLoading(w2, events[1..][1..]);
    assert NoEnterSendWhileLoading(w1, events[1..]);
    RunSerial(w, events);
  }

  /** The session starts balanced and alternating. */
  lemma InitialWorldInvariants()
    ensures Balanced(InitialWorld) && Serial(InitialWorld)
  {
  }

  /** While a reply is awaited the Send button does nothing. */
  lemma ClickWhileLoadingDoesNothing(w: World, id: MessageId, timestamp: string)
    requires w.chat.loading
    ensures Apply(w, SendClicked(id, timestamp)) == w
  {
  }

  /** A second accepted send while the log ends with a question logs a second question
      right after it, so the log no longer alternates. */
  lemma SecondQuestionBreaksAlternation(s: ChatState, id: MessageId, timestamp: string)
    requires Alternating(s.messages) && |s.messages| % 2 == 1 && AcceptsSend(s.input, s.docs)
    ensures var c := BeginSend(s, id, timestamp);
            && |c.messages| == |s.messages| + 1
            && c.messages[|c.messages| - 2].sender == User
            && c.messages[|c.messages| - 1].sender == User
            && !Alternating(c.messages)
  {
    var n := |s.messages|;
    var c := BeginSend(s, id, timestamp);
    assert (n - 1) % 2 == 0;
    assert c.messages[n - 1] == s.messages[n - 1];
    assert c.messages[n].sender == User;
  }

  /** Enter still sends while a reply is awaited, whenever the guard of handleSendMessage
      passes: a second question is logged right after the first, a second request is in
      flight, and the log no longer alternates. */
  lemma EnterBypassesLoading(w: World, id: MessageId, timestamp: string)
    requires Serial(w) && w.chat.loading && AcceptsSend(w.chat.input, w.chat.docs)
    ensures var r := Apply(w, KeyPressed("Enter", false, id, timestamp));
            && |r.inFlight| == 2 && r.chat.loading
            && |r.chat.messages| == |w.chat.messages| + 1
            && r.chat.messages[|r.chat.messages| - 2].sender == User
            && r.chat.messages[|r.chat.messages| - 1].sender == User
            && !Alternating(r.chat.messages)
  {
    var r := Apply(w, KeyPressed("Enter", false, id, timestamp));
    assert r == StartSend(w, id, timestamp);
    SecondQuestionBreaksAlternation(w.chat, id, timestamp);
  }
}
