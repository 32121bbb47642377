/**
 * Client code that drives the session through concrete runs of the page.
 * Each method's postcondition follows from the handlers' contracts alone.
 */
module ChatScenarios {
  import opened Wrappers
  import opened ChatSession

  const Me := Participant(1, "Ana", "ana")
  const Bruno := Participant(2, "Bruno", "bruno")
  const Carla := Participant(3, "Carla", "carla")

  /**
   * User 1 opens the chat with user 2, whose history is one message of carpool
   * 5: the top bar shows carpool 5, the list is that message, and the socket
   * path is `2/1`.
   */
  method FirstConversation() returns (url: string, shown: Option<Carpool>, listed: seq<Message>)
    ensures url == "ws://localhost:8000/2/1"
    ensures shown == Some(Carpool(5, "Campus"))
    ensures listed == [Message(10, Bruno, "hi", "t1", Carpool(5, "Campus"))]
  {
    var chat := new Chat(Me.id);
    chat.SelectUserChat(Bruno);
    var hidden := chat.ShownCarpool();
    assert hidden == None;
    var history := [Message(10, Bruno, "hi", "t1", Carpool(5, "Campus"))];
    var done := chat.CompleteFetch(0, history);
    url := chat.SocketUrl();
    shown := chat.ShownCarpool();
    listed := chat.messagesListed;
  }

  /**
   * The user picks 2, then 3, and 2's history arrives first: 2 is selected
   * again, the page is no longer busy and shows 2's carpool and 2's messages,
   * although 3 was picked last; 3's history then replaces it when it arrives.
   */
  method StaleHistoryWins() returns (selectedAfterStale: Option<int>, shownAfterStale: Option<Carpool>,
                                     listedAfterStale: seq<Message>, selectedAfterFresh: Option<int>, pending: nat)
    ensures selectedAfterStale == Some(Bruno.id)
    ensures shownAfterStale == Some(Carpool(5, "Campus"))
    ensures listedAfterStale == [Message(10, Bruno, "hi", "t1", Carpool(5, "Campus"))]
    ensures selectedAfterFresh == Some(Carla.id)
    ensures pending == 0
  {
    var chat := new Chat(Me.id);
    chat.SelectUserChat(Bruno);
    chat.SelectUserChat(Carla);
    var ok := chat.CompleteFetch(0, [Message(10, Bruno, "hi", "t1", Carpool(5, "Campus"))]);
    selectedAfterStale := PartnerId(chat.selectedUser);
    shownAfterStale := chat.ShownCarpool();
    listedAfterStale := chat.messagesListed;
    ok := chat.CompleteFetch(0, [Message(11, Carla, "oi", "t2", Carpool(6, "Centro"))]);
    selectedAfterFresh := PartnerId(chat.selectedUser);
    pending := |chat.inFlight|;
  }

  /**
   * Clicking the open conversation again reloads it: the selection loses its
   * carpool, `busy` is set, and a new fetch goes out.  Clicking twice while it
   * still loads issues no second fetch.
   */
  method Reselect() returns (fetchesWhileLoading: nat, fetchesAfterReselect: nat, hidden: bool)
    ensures fetchesWhileLoading == 1
    ensures fetchesAfterReselect == 1
    ensures hidden
  {
    var chat := new Chat(Me.id);
    chat.SelectUserChat(Bruno);
    chat.SelectUserChat(Bruno);
    fetchesWhileLoading := |chat.inFlight|;
    var ok := chat.CompleteFetch(0, [Message(10, Bruno, "hi", "t1", Carpool(5, "Campus"))]);
    chat.SelectUserChat(Bruno);
    fetchesAfterReselect := |chat.inFlight|;
    var shown := chat.ShownCarpool();
    hidden := shown == None;
  }

  /**
   * A partner with no history: reading `messages[0]` throws, so selection and
   * `busy` stay as they were.  After a single selection the page stays busy and
   * the conversation, with its send form, is never shown.  If the user picked
   * 2 then 3 and 2's history arrived first, 3's empty history leaves 2's
   * conversation shown, with 2's carpool, above an empty list.
   */
  method EmptyHistory() returns (shown: Option<Carpool>, busy: bool, listed: seq<Message>,
                                 shownOverlapping: Option<Carpool>, selectedOverlapping: Option<int>,
                                 listedOverlapping: seq<Message>)
    ensures shown == None && busy
    ensures listed == []
    ensures shownOverlapping == Some(Carpool(5, "Campus")) && selectedOverlapping == Some(Bruno.id)
    ensures listedOverlapping == []
  {
    var chat := new Chat(Me.id);
    chat.SelectUserChat(Bruno);
    var ok := chat.CompleteFetch(0, []);
    shown := chat.ShownCarpool();
    busy := chat.busy;
    listed := chat.messagesListed;

    // Overlapping fetches: 2 then 3 picked, 2's history arrives, then 3's arrives empty.
    var other := new Chat(Me.id);
    other.SelectUserChat(Bruno);
    other.SelectUserChat(Carla);
    ok := other.CompleteFetch(0, [Message(10, Bruno, "hi", "t1", Carpool(5, "Campus"))]);
    ok := other.CompleteFetch(0, []);
    shownOverlapping := other.ShownCarpool();
    selectedOverlapping := PartnerId(other.selectedUser);
    listedOverlapping := other.messagesListed;
  }

  /**
   * A sent message is not added locally: the list changes only when the server
   * echoes it back in a `list-messages` frame; a frame of another kind changes
   * nothing.
   */
  method SendThenEcho() returns (afterSend: seq<Message>, afterUnknown: seq<Message>, afterEcho: seq<Message>, sent: seq<Outbound>)
    ensures afterSend == [Message(10, Bruno, "hi", "t1", Carpool(5, "Campus"))]
    ensures afterUnknown == afterSend
    ensures afterEcho == [Message(10, Bruno, "hi", "t1", Carpool(5, "Campus")),
                          Message(12, Me, "oi", "t3", Carpool(5, "Campus"))]
    ensures sent == [Outbound("ws://localhost:8000/2/1", Frame("create-message", "oi", 1, 2, 5))]
  {
    var chat := new Chat(Me.id);
    chat.SelectUserChat(Bruno);
    var ok := chat.CompleteFetch(0, [Message(10, Bruno, "hi", "t1", Carpool(5, "Campus"))]);
    chat.OnChange("oi");
    var outcome := chat.SendMessage(false);
    assert outcome == Sent;
    assert chat.SocketUrl() == "ws://localhost:8000/2/1";
    afterSend := chat.messagesListed;
    var known := chat.OnMessage(InboundEvent("typing", []));
    afterUnknown := chat.messagesListed;
    known := chat.OnMessage(InboundEvent("list-messages", [Message(10, Bruno, "hi", "t1", Carpool(5, "Campus")),
                                                           Message(12, Me, "oi", "t3", Carpool(5, "Campus"))]));
    afterEcho := chat.messagesListed;
    sent := chat.outbox;
  }
}
