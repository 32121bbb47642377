/**
 * The chat page's session state (frontend/src/pages/Chat/index.jsx): the
 * `useState` fields become the fields of class `Chat`, and each handler that
 * calls their setters becomes a method.  The network is outside: a history
 * fetch in flight is remembered with the selection its callback captured, and
 * the environment decides when, and with what, it resolves; socket frames
 * arrive as already-parsed events; a send may throw, as a parameter says.
 */
module ChatSession {
  import opened Wrappers
  import Channel

  datatype Participant = Participant(id: int, name: string, username: string)

  datatype Carpool = Carpool(id: int, name: string)

  datatype Message = Message(id: int, sender: Participant, content: string, createdAt: string, carpool: Carpool)

  /** One row of the conversation list. */
  datatype ConversationSummary = ConversationSummary(user: Participant, lastMessage: Option<Message>)

  /** The value of `selectedUser`: the partner, extended with a carpool once history has loaded. */
  datatype Selection = Selection(partner: Participant, carpool: Option<Carpool>)

  /** A parsed inbound socket frame. */
  datatype InboundEvent = InboundEvent(kind: string, data: seq<Message>)

  /** The object literal handed to `sendJsonMessage`. */
  datatype Frame = Frame(kind: string, message: string, sender: int, receiver: int, carpool: int)

  /** A frame together with the socket address it went out on. */
  datatype Outbound = Outbound(url: string, frame: Frame)

  datatype SendOutcome = Sent | Rejected(notice: string)

  const ListMessagesKind := "list-messages"
  const CreateMessageKind := "create-message"
  const NoMessageNotice := "Nenhuma mensagem digitada"
  const ErrorNotice := "Um erro ocorreu!"

  function PartnerId(s: Option<Selection>): Option<int> {
    match s
    case None => None
    case Some(sel) => Some(sel.partner.id)
  }

  class Chat {
    /** The logged-in user's id. */
    const userId: int

    var messageInput: string
    var chatUsers: seq<ConversationSummary>
    var selectedUser: Option<Selection>
    var messagesListed: seq<Message>
    var busy: bool

    /** The selections captured by history fetches that have not resolved yet, oldest first. */
    var inFlight: seq<Selection>
    /** Every frame handed to the socket, in order. */
    var outbox: seq<Outbound>

    /**
     * The render gate (lines 157-160) dereferences `selectedUser.carpool` whenever
     * a user is selected and `busy` is false: that carpool is always there.  And a
     * history fetch is only ever issued for a selection without a carpool.
     */
    ghost predicate Valid()
      reads this
    {
      && (selectedUser.Some? && !busy ==> selectedUser.value.carpool.Some?)
      && (forall i :: 0 <= i < |inFlight| ==> inFlight[i].carpool.None?)
    }

    constructor (userId: int)
      ensures Valid()
      ensures this.userId == userId
      ensures messageInput == "" && chatUsers == [] && selectedUser == None
      ensures messagesListed == [] && !busy && inFlight == [] && outbox == []
    {
      this.userId := userId;
      messageInput := "";
      chatUsers := [];
      selectedUser := None;
      messagesListed := [];
      busy := false;
      inFlight := [];
      outbox := [];
    }

    /** The socket address the page is connected to for the current selection (line 34). */
    function SocketUrl(): string
      reads this
    {
      Channel.Url(userId, PartnerId(selectedUser))
    }

    /**
     * The carpool shown in the conversation's top bar (lines 157-160), or `None`
     * while the conversation is hidden.  `Valid` makes the dereference safe.
     */
    function ShownCarpool(): (r: Option<Carpool>)
      requires Valid()
      reads this
      ensures r.Some? <==> selectedUser.Some? && !busy
      ensures r.Some? ==> selectedUser.value.carpool == r
    {
      if selectedUser.Some? && !busy then Some(selectedUser.value.carpool.value) else None
    }

    /** The conversation list resolved (lines 62-64): it is stored as it came. */
    method ConversationsLoaded(users: seq<ConversationSummary>)
      requires Valid()
      modifies this
      ensures Valid()
      ensures chatUsers == users
      ensures messageInput == old(messageInput) && selectedUser == old(selectedUser)
      ensures messagesListed == old(messagesListed) && busy == old(busy)
      ensures inFlight == old(inFlight) && outbox == old(outbox)
    {
      chatUsers := users;
    }

    /** `onChange` (line 92): the input box's text. */
    method OnChange(value: string)
      requires Valid()
      modifies this
      ensures Valid()
      ensures messageInput == value
      ensures chatUsers == old(chatUsers) && selectedUser == old(selectedUser)
      ensures messagesListed == old(messagesListed) && busy == old(busy)
      ensures inFlight == old(inFlight) && outbox == old(outbox)
    {
      messageInput := value;
    }

    /**
     * The history effect (lines 67-89) as it runs after `selectedUser` changed:
     * a fetch is issued, capturing the current selection, only when a user is
     * selected and that selection has no carpool yet.  The effect depends on
     * `selectedUser` alone (line 89), so only `SelectUserChat` and
     * `CompleteFetch`, the two handlers that give it a new value, call this.
     */
    method HistoryEffect()
      requires Valid()
      modifies this`inFlight
      ensures Valid()
      ensures inFlight == if selectedUser.Some? && selectedUser.value.carpool.None?
                          then old(inFlight) + [selectedUser.value]
                          else old(inFlight)
    {
      if selectedUser.Some? && selectedUser.value.carpool.None? {
        inFlight := inFlight + [selectedUser.value];
      }
    }

    /**
     * `selectUserChat` (lines 95-98), with the history effect that follows it.
     * The list entry carries no carpool, so a fetch is issued unless the very
     * same carpool-less selection is already current (React then keeps the old
     * state and does not rerun the effect).  The message list is not cleared.
     */
    method SelectUserChat(user: Participant)
      requires Valid()
      modifies this
      ensures Valid()
      ensures selectedUser == Some(Selection(user, None)) && busy
      ensures inFlight == if old(selectedUser) == Some(Selection(user, None))
                          then old(inFlight)
                          else old(inFlight) + [Selection(user, None)]
      ensures messageInput == old(messageInput) && chatUsers == old(chatUsers)
      ensures messagesListed == old(messagesListed) && outbox == old(outbox)
    {
      var next := Some(Selection(user, None));
      var changed := next != selectedUser;
      selectedUser := next;
      busy := true;
      if changed {
        HistoryEffect();
      }
    }

    /**
     * The `k`-th fetch in flight resolved with `messages` (lines 83-86).  The
     * list is replaced first; then `messages[0].carpool` is read, which throws
     * on an empty list and leaves the rest as it was.  Otherwise the selection
     * becomes the one captured when the fetch was issued (whatever is selected
     * now) with the first message's carpool, and `busy` clears.
     */
    method CompleteFetch(k: nat, messages: seq<Message>) returns (completed: bool)
      requires Valid()
      requires k < |inFlight|
      modifies this
      ensures Valid()
      ensures inFlight == old(inFlight[..k] + inFlight[k + 1..])
      ensures messagesListed == messages
      ensures completed <==> messages != []
      ensures completed ==> selectedUser == Some(old(inFlight[k]).(carpool := Some(messages[0].carpool))) && !busy
      ensures !completed ==> selectedUser == old(selectedUser) && busy == old(busy)
      ensures messageInput == old(messageInput) && chatUsers == old(chatUsers) && outbox == old(outbox)
    {
      var captured := inFlight[k];
      inFlight := inFlight[..k] + inFlight[k + 1..];
      messagesListed := messages;
      if messages == [] {
        completed := false;
        return;
      }
      selectedUser := Some(captured.(carpool := Some(messages[0].carpool)));
      busy := false;
      HistoryEffect();
      completed := true;
    }

    /** The `k`-th fetch in flight was rejected: nothing handles it, so nothing but the request changes. */
    method FailFetch(k: nat)
      requires Valid()
      requires k < |inFlight|
      modifies this
      ensures Valid()
      ensures inFlight == old(inFlight[..k] + inFlight[k + 1..])
      ensures messageInput == old(messageInput) && chatUsers == old(chatUsers) && selectedUser == old(selectedUser)
      ensures messagesListed == old(messagesListed) && busy == old(busy) && outbox == old(outbox)
    {
      inFlight := inFlight[..k] + inFlight[k + 1..];
    }

    /**
     * `onMessage` (lines 35-46): a `list-messages` frame replaces the whole list
     * with its data, as it came; any other kind is only logged.
     */
    method OnMessage(event: InboundEvent) returns (recognized: bool)
      requires Valid()
      modifies this
      ensures Valid()
      ensures recognized <==> event.kind == ListMessagesKind
      ensures messagesListed == if recognized then event.data else old(messagesListed)
      ensures messageInput == old(messageInput) && chatUsers == old(chatUsers) && selectedUser == old(selectedUser)
      ensures busy == old(busy) && inFlight == old(inFlight) && outbox == old(outbox)
    {
      recognized := event.kind == ListMessagesKind;
      if recognized {
        messagesListed := event.data;
      }
    }

    /**
     * `sendMessage` (lines 100-122).  Exactly the empty input is refused.  Building
     * the frame reads `selectedUser.id` and `selectedUser.carpool.id`, which throws
     * when either is missing; `sendThrows` says whether the socket send throws.
     * Only a send that did not throw clears the input.  The form is rendered only
     * while `ShownCarpool()` is present (lines 157-196), so in the page the
     * missing-selection and missing-carpool branches never run: there a
     * non-empty input is sent unless the socket throws.  The list is never touched:
     * a sent message shows up when the server echoes it back.
     */
    method SendMessage(sendThrows: bool) returns (outcome: SendOutcome)
      requires Valid()
      modifies this
      ensures Valid()
      ensures old(messageInput) == "" ==> outcome == Rejected(NoMessageNotice)
      ensures old(messageInput) != "" && (selectedUser.None? || selectedUser.value.carpool.None? || sendThrows)
              ==> outcome == Rejected(ErrorNotice)
      ensures outcome == Sent <==> old(messageInput) != "" && selectedUser.Some? && selectedUser.value.carpool.Some? && !sendThrows
      ensures outcome == Sent ==>
                && messageInput == ""
                && outbox == old(outbox) + [Outbound(SocketUrl(), Frame(CreateMessageKind, old(messageInput), userId,
                                                                        selectedUser.value.partner.id,
                                                                        selectedUser.value.carpool.value.id))]
      ensures outcome != Sent ==> messageInput == old(messageInput) && outbox == old(outbox)
      ensures old(ShownCarpool()).Some? && old(messageInput) != "" ==> (outcome == Sent <==> !sendThrows)
      ensures chatUsers == old(chatUsers) && selectedUser == old(selectedUser) && messagesListed == old(messagesListed)
      ensures busy == old(busy) && inFlight == old(inFlight)
    {
      if messageInput == "" {
        return Rejected(NoMessageNotice);
      }
      match selectedUser
      case None =>
        outcome := Rejected(ErrorNotice);
      case Some(sel) =>
        match sel.carpool
        case None =>
          outcome := Rejected(ErrorNotice);
        case Some(carpool) =>
          if sendThrows {
            outcome := Rejected(ErrorNotice);
          } else {
            var frame := Frame(CreateMessageKind, messageInput, userId, sel.partner.id, carpool.id);
            outbox := outbox + [Outbound(SocketUrl(), frame)];
            messageInput := "";
            outcome := Sent;
          }
    }
  }
}
