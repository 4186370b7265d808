/** The earlier chat room (src/component/ChatRoomComponent.tsx): no history, no
    deletion; a sent message is shown at once (optimistically) and the user's own frames
    coming back from the server are dropped, so that the message is not shown twice. */
module LegacyChatRoom {
  import opened Wrappers
  import opened Text
  import opened ChatWindow

  /** A `sendMessage(receiver, content)` call. */
  datatype Outgoing = Outgoing(receiver: string, content: string)

  class LegacyRoom {
    const currentUserId: string
    const receiver: string
    var messages: seq<Message>
    var input: string

    constructor(currentUserId: string, receiver: string)
      ensures this.currentUserId == currentUserId && this.receiver == receiver
      ensures messages == [] && input == ""
    {
      this.currentUserId, this.receiver := currentUserId, receiver;
      messages, input := [], "";
    }

    /** A frame on the user's subscription is appended exactly when someone else sent it. */
    method OnLiveMessage(ev: Message)
      modifies this`messages
      ensures messages == if ev.sender != currentUserId then old(messages) + [ev] else old(messages)
    {
      if ev.sender != currentUserId {
        messages := messages + [ev];
      }
    }

    method SetInput(value: string)
      modifies this`input
      ensures input == value
    {
      input := value;
    }

    /** Send: whitespace-only input changes nothing. Otherwise exactly one message — the
        text, from the current user, to the receiver, stamped `now` — is appended, the text
        is handed to `sendMessage`, and the input is cleared. */
    method HandleSend(now: string) returns (sent: Option<Outgoing>)
      modifies this`messages, this`input
      ensures sent.Some? <==> HasContent(old(input))
      ensures sent.Some? ==> && sent.value == Outgoing(receiver, old(input))
                             && messages == old(messages) + [Message(None, currentUserId, receiver, old(input), now, "")]
                             && input == ""
      ensures sent.None? ==> messages == old(messages) && input == old(input)
    {
      sent := None;
      if HasContent(input) {
        var newMsg := Message(None, currentUserId, receiver, input, now, "");
        messages := messages + [newMsg];
        sent := Some(Outgoing(receiver, input));
        input := "";
      }
    }
  }

  /** A user types `text`, sends it, and the server's echo of it arrives: the room then
      shows the message exactly once — the optimistic copy — because the echo carries the
      user's own id as sender. */
  method SendThenEcho(me: string, receiver: string, text: string, now: string, echo: Message)
    returns (shown: seq<Message>)
    requires HasContent(text) && echo.sender == me
    ensures shown == [Message(None, me, receiver, text, now, "")]
  {
    var room := new LegacyRoom(me, receiver);
    room.SetInput(text);
    var sent := room.HandleSend(now);
    room.OnLiveMessage(echo);
    shown := room.messages;
  }
}
