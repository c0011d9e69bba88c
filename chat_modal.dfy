/** The delivery chat (components/ChatModal.tsx): loading the conversation, sending a trimmed message,
    and what the message pane shows. The two RPCs are handler parameters; the realtime subscription
    that re-runs the load is not part of this model. */
module Chat {
  import opened Wrappers
  import opened Strings

  datatype Message = Message(id: string, message: string, isSupplier: bool, createdAt: string)

  /** The answer of `get_chat_messages`: an error, or `data`, which may be null. */
  datatype MessagesReply = MessagesFailed | MessagesRows(data: Option<seq<Message>>)

  /** What leaves the chat: the two RPCs. */
  datatype Event = GetChatMessages(deliveryId: string) | SendChatMessage(deliveryId: string, message: string)

  /** The send button: disabled while the text is blank or a send is in flight. */
  predicate SendDisabled(newMessage: string, sending: bool) {
    IsBlank(newMessage) || sending
  }

  /** The send button is enabled exactly when no send is in flight and the text has a character
      other than whitespace. */
  lemma SendEnabledIff(newMessage: string, sending: bool)
    ensures !SendDisabled(newMessage, sending) <==> !sending && !AllTrimmable(newMessage)
  {
    BlankIff(newMessage);
  }

  /** What the message pane shows. */
  datatype Pane = Spinner | NoMessagesYet | MessageList(rows: seq<Message>)

  /** The pane, by priority: loading, then "No messages yet", then the list. */
  function PaneOf(loading: bool, messages: seq<Message>): (p: Pane)
    ensures p == Spinner <==> loading
    ensures p == NoMessagesYet <==> !loading && messages == []
    ensures p.MessageList? <==> !loading && messages != []
    ensures p.MessageList? ==> p.rows == messages
  {
    if loading then Spinner else if messages == [] then NoMessagesYet else MessageList(messages)
  }

  /** The side a bubble is drawn on. */
  datatype Side = SupplierSide | UserSide

  function SideOf(m: Message): (s: Side)
    ensures s == SupplierSide <==> m.isSupplier
  {
    if m.isSupplier then SupplierSide else UserSide
  }

  class ChatModal {
    const deliveryId: string
    var messages: seq<Message>
    var newMessage: string
    var loading: bool
    var sending: bool
    var events: seq<Event>

    constructor (deliveryId: string)
      ensures this.deliveryId == deliveryId
      ensures messages == [] && newMessage == "" && !loading && !sending && events == []
    {
      this.deliveryId := deliveryId;
      messages, newMessage, loading, sending, events := [], "", false, false, [];
    }

    /** The text field's `onChangeText`. */
    method SetNewMessage(text: string)
      modifies this`newMessage
      ensures newMessage == text
    {
      newMessage := text;
    }

    /** `fetchMessages`: `data || []` replaces the list; an error keeps it. */
    method FetchMessages(reply: MessagesReply)
      modifies this`messages, this`loading, this`events
      ensures !loading
      ensures events == old(events) + [GetChatMessages(deliveryId)]
      ensures reply.MessagesFailed? ==> messages == old(messages)
      ensures reply.MessagesRows? ==> messages == (if reply.data.Some? then reply.data.value else [])
    {
      loading := true;
      events := events + [GetChatMessages(deliveryId)];
      match reply {
        case MessagesFailed =>
        case MessagesRows(data) =>
          messages := if data.Some? then data.value else [];
      }
      loading := false;
    }

    /** `sendMessage`. A blank text does nothing at all; otherwise the trimmed text goes out, and the
        field is cleared only when `send_chat_message` succeeds (`rpcOk`). */
    method SendMessage(rpcOk: bool)
      modifies this`newMessage, this`sending, this`events
      ensures IsBlank(old(newMessage)) ==>
        newMessage == old(newMessage) && sending == old(sending) && events == old(events)
      ensures !IsBlank(old(newMessage)) ==>
        !sending
        && events == old(events) + [SendChatMessage(deliveryId, Trim(old(newMessage)))]
        && newMessage == (if rpcOk then "" else old(newMessage))
      ensures !SendDisabled(old(newMessage), old(sending)) ==>
        events == old(events) + [SendChatMessage(deliveryId, Trim(old(newMessage)))]
      ensures !IsBlank(old(newMessage)) ==>
        var sent := Trim(old(newMessage)); sent != [] && Trim(sent) == sent
    {
      if IsBlank(newMessage) {
        return;
      }
      TrimIdempotent(newMessage);
      sending := true;
      events := events + [SendChatMessage(deliveryId, Trim(newMessage))];
      if rpcOk {
        newMessage := "";
      }
      sending := false;
    }
  }
}
