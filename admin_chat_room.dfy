/** The administrator's read-only view of a member's chat room
    (src/component/admin/AdminChatRoomComponent.tsx): the same window as the member's
    room, but the route supplies member, room and partner, only CREATE frames are
    appended, and a delete changes the window only once the server has accepted it. */
module AdminChatRoom {
  import opened Wrappers
  import opened ChatWindow

  /** What the mount effect does: go back, or connect, subscribe and fetch the first page. */
  datatype SetupAction = GoBack | Connect(request: ConversationRequest)

  /** A route parameter counts as given when it is present and not empty. */
  predicate Given(param: Option<string>)
  {
    param.Some? && param.value != ""
  }

  /** The mount effect. A missing or empty `memberId`, `roomId` or `receiver` stops before
      any connection; otherwise the first page of the member's conversation is requested
      with cursor 0. `roomNumber` is `Number(roomId)`. */
  function Setup(memberId: Option<string>, roomId: Option<string>, receiver: Option<string>,
                 roomNumber: int): (a: SetupAction)
    ensures a.GoBack? <==> !Given(memberId) || !Given(roomId) || !Given(receiver)
    ensures a.Connect? ==> a.request == ConversationRequest(memberId.value, receiver.value, PageSize, 0, roomNumber)
  {
    if !Given(memberId) || !Given(roomId) || !Given(receiver) then GoBack
    else Connect(ConversationRequest(memberId.value, receiver.value, PageSize, 0, roomNumber))
  }

  /** A `deleteMessage` call. */
  datatype DeleteRequest = DeleteRequest(roomId: int, chatId: int)

  /** The state of one mounted administrator room. */
  class AdminRoom {
    const memberId: string
    const roomId: int
    const receiver: string
    var messages: seq<Message>
    /** The backfill cursor: the `currentPage` of the last page received, 0 before any. */
    var chatId: int
    var isLoading: bool

    constructor(memberId: string, roomId: int, receiver: string)
      ensures this.memberId == memberId && this.roomId == roomId && this.receiver == receiver
      ensures messages == [] && chatId == 0 && !isLoading
    {
      this.memberId, this.roomId, this.receiver := memberId, roomId, receiver;
      messages, chatId, isLoading := [], 0, false;
    }

    /** A frame on the room's subscription: DELETE removes every message with its
        `chatId`, CREATE is appended, every other frame is ignored. */
    method OnLiveEvent(ev: Message)
      modifies this`messages
      ensures ev.kind == "DELETE" ==> messages == WithoutChat(old(messages), ev.chatId)
      ensures ev.kind == "CREATE" ==> messages == old(messages) + [ev]
      ensures (ev.kind != "DELETE" && ev.kind != "CREATE") ==> messages == old(messages)
    {
      if ev.kind == "DELETE" {
        messages := WithoutChat(messages, ev.chatId);
        return;
      }
      if ev.kind == "CREATE" {
        messages := messages + [ev];
      }
    }

    /** The first page arrives: it replaces the window, oldest first, and sets the cursor. */
    method OnInitialPage(page: Page)
      modifies this`messages, this`chatId
      ensures messages == Reverse(page.content) && chatId == page.currentPage
    {
      messages := Reverse(page.content);
      chatId := page.currentPage;
    }

    /** A scroll event: no container, a backfill in flight or cursor 0 stop it; at the top
        the view marks itself loading and requests the page before the cursor. */
    method HandleScroll(hasContainer: bool, atTop: bool) returns (request: Option<ConversationRequest>)
      modifies this`isLoading
      ensures request.Some? <==> hasContainer && !old(isLoading) && chatId != 0 && atTop
      ensures request.Some? ==> isLoading
                                && request.value == ConversationRequest(memberId, receiver, PageSize, chatId, roomId)
      ensures request.None? ==> isLoading == old(isLoading)
    {
      request := None;
      if !hasContainer || isLoading || chatId == 0 {
        return;
      }
      if atTop {
        isLoading := true;
        request := Some(ConversationRequest(memberId, receiver, PageSize, chatId, roomId));
      }
    }

    /** A backfill page arrives: reversed, it goes in front of the window, and its
        `currentPage` becomes the cursor; loading ends with `BackfillSettled`. */
    method OnBackfillPage(page: Page)
      modifies this`messages, this`chatId
      ensures messages == Prepend(page, old(messages)) && chatId == page.currentPage
    {
      messages := Reverse(page.content) + messages;
      chatId := page.currentPage;
    }

    /** The timer after a backfill page, or a failed backfill fetch: only the loading flag
        is reset. */
    method BackfillSettled()
      modifies this`isLoading
      ensures !isLoading
    {
      isLoading := false;
    }

    /** A confirmed delete is sent and awaited; only when the server accepts it are the
        messages with that `chatId` dropped. `accepted` is the outcome of the awaited call. */
    method HandleDelete(confirmed: bool, msgChatId: int, accepted: bool) returns (request: Option<DeleteRequest>)
      modifies this`messages
      ensures request.Some? <==> confirmed
      ensures confirmed ==> request.value == DeleteRequest(roomId, msgChatId)
      ensures messages == if confirmed && accepted then WithoutChat(old(messages), Some(msgChatId))
                          else old(messages)
    {
      request := None;
      if confirmed {
        request := Some(DeleteRequest(roomId, msgChatId));
        if accepted {
          messages := WithoutChat(messages, Some(msgChatId));
        }
      }
    }
  }
}
