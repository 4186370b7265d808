/** The one-to-one chat room (src/component/chat/ChatRoomComponent.tsx): the message
    window of one room for the logged-in user, fed by live frames, an initial history
    page and backfill pages fetched when the user scrolls to the top, plus local delete
    and send. Network calls are not made here: a handler that starts one returns the
    request, and the handler that receives its result takes the result as a parameter. */
module ChatRoom {
  import opened Wrappers
  import opened Text
  import opened ChatWindow

  /** What the mount effect does: leave for the sign-in page, or connect, subscribe to the
      room and request the first page. */
  datatype SetupAction = RedirectToSignIn | Connect(request: ConversationRequest)

  /** A message handed to `sendMessage`. */
  datatype Outgoing = Outgoing(sender: string, receiver: string, content: string, roomId: int)

  /** A `deleteMessage` call. */
  datatype DeleteRequest = DeleteRequest(roomId: int, chatId: int)

  /** The mount effect. Without a logged-in user (no `memId` stored, or an empty one) it
      redirects and connects nothing; otherwise the first page is requested with cursor 0,
      the value the cursor has when the effect runs. */
  function Setup(loginUserId: string, receiver: string, roomId: int): (a: SetupAction)
    ensures a.RedirectToSignIn? <==> loginUserId == ""
    ensures a.Connect? ==> a.request.cursor == 0 && a.request.size == PageSize
                           && a.request.user == loginUserId && a.request.receiver == receiver
                           && a.request.roomId == roomId
  {
    if loginUserId == "" then RedirectToSignIn
    else Connect(ConversationRequest(loginUserId, receiver, PageSize, 0, roomId))
  }

  /** `formatDateTime`, from the fields the `Date` getters return: the year's decimal
      rendering without its first two characters, then month (`getMonth() + 1`), day,
      hours and minutes, each padded to two digits: `YY/MM/DD HH:mm`. */
  function FormatDateTime(year: int, month0: int, day: int, hours: int, minutes: int): string
  {
    SliceFrom(IntToString(year), 2) + "/" + PadStart2(IntToString(month0 + 1)) + "/"
    + PadStart2(IntToString(day)) + " " + PadStart2(IntToString(hours)) + ":"
    + PadStart2(IntToString(minutes))
  }

  /** For a four-digit year, dropping the first two characters leaves the last two digits. */
  lemma YearSuffix(year: int)
    requires 1000 <= year <= 9999
    ensures SliceFrom(IntToString(year), 2) == TwoDigits(year % 100)
  {
    var s := NatToString(year);
    var t := NatToString(year / 10);
    NatToStringLength(year / 100);
    assert s == t + [DigitChar(year % 10)];
    assert t == NatToString(year / 100) + [DigitChar((year / 10) % 10)];
    assert (year % 100) / 10 == (year / 10) % 10;
    assert s[2..] == [DigitChar((year / 10) % 10), DigitChar(year % 10)];
  }

  /** A two-digit field of the formatted text, read back. */
  lemma PaddedField(n: int)
    requires 0 <= n < 100
    ensures PadStart2(IntToString(n)) == TwoDigits(n)
  {
    PadStart2NatToString(n);
  }

  /** The formatted text of an ordinary date, field by field. */
  lemma FormatDateTimeFields(year: int, month0: int, day: int, hours: int, minutes: int)
    requires 1000 <= year <= 9999 && 0 <= month0 < 12 && 1 <= day <= 31
    requires 0 <= hours < 24 && 0 <= minutes < 60
    ensures FormatDateTime(year, month0, day, hours, minutes)
         == TwoDigits(year % 100) + "/" + TwoDigits(month0 + 1) + "/" + TwoDigits(day) + " "
            + TwoDigits(hours) + ":" + TwoDigits(minutes)
  {
    YearSuffix(year);
    PaddedField(month0 + 1);
    PaddedField(day);
    PaddedField(hours);
    PaddedField(minutes);
  }

  /** Where the five two-character fields sit in `YY/MM/DD HH:mm`. */
  lemma FieldPositions(y: string, mo: string, d: string, h: string, mi: string)
    requires |y| == 2 && |mo| == 2 && |d| == 2 && |h| == 2 && |mi| == 2
    ensures var r := y + "/" + mo + "/" + d + " " + h + ":" + mi;
      && |r| == 14 && r[2] == '/' && r[5] == '/' && r[8] == ' ' && r[11] == ':'
      && r[0..2] == y && r[3..5] == mo && r[6..8] == d && r[9..11] == h && r[12..14] == mi
  {
  }

  /** For an ordinary date the text is fourteen characters with the separators in place,
      and each field reads back as the value it was formatted from. */
  lemma FormatDateTimeReadsBack(year: int, month0: int, day: int, hours: int, minutes: int)
    requires 1000 <= year <= 9999 && 0 <= month0 < 12 && 1 <= day <= 31
    requires 0 <= hours < 24 && 0 <= minutes < 60
    ensures var r := FormatDateTime(year, month0, day, hours, minutes);
      && |r| == 14 && r[2] == '/' && r[5] == '/' && r[8] == ' ' && r[11] == ':'
      && AllDigits(r[0..2]) && ParseNat(r[0..2]) == year % 100
      && AllDigits(r[3..5]) && ParseNat(r[3..5]) == month0 + 1
      && AllDigits(r[6..8]) && ParseNat(r[6..8]) == day
      && AllDigits(r[9..11]) && ParseNat(r[9..11]) == hours
      && AllDigits(r[12..14]) && ParseNat(r[12..14]) == minutes
  {
    FormatDateTimeFields(year, month0, day, hours, minutes);
    FieldPositions(TwoDigits(year % 100), TwoDigits(month0 + 1), TwoDigits(day),
                   TwoDigits(hours), TwoDigits(minutes));
    ParseTwoDigits(year % 100);
    ParseTwoDigits(month0 + 1);
    ParseTwoDigits(day);
    ParseTwoDigits(hours);
    ParseTwoDigits(minutes);
  }

  /** The state of one mounted chat room. */
  class Room {
    const loginUserId: string
    const roomId: int
    const receiver: string
    var messages: seq<Message>
    /** The backfill cursor: the `currentPage` of the last page received, 0 before any. */
    var chatId: int
    var isLoading: bool
    var input: string

    constructor(loginUserId: string, roomId: int, receiver: string)
      ensures this.loginUserId == loginUserId && this.roomId == roomId && this.receiver == receiver
      ensures messages == [] && chatId == 0 && !isLoading && input == ""
    {
      this.loginUserId, this.roomId, this.receiver := loginUserId, roomId, receiver;
      messages, chatId, isLoading, input := [], 0, false, "";
    }

    /** A frame on the room's subscription. A DELETE frame removes every message with the
        frame's `chatId`; any other frame is appended when someone else sent it or it is a
        CREATE frame, and ignored otherwise. */
    method OnLiveEvent(ev: Message)
      modifies this`messages
      ensures ev.kind == "DELETE" ==> messages == WithoutChat(old(messages), ev.chatId)
      ensures (ev.kind != "DELETE" && (ev.sender != loginUserId || ev.kind == "CREATE"))
              ==> messages == old(messages) + [ev]
      ensures (ev.kind != "DELETE" && ev.sender == loginUserId && ev.kind != "CREATE")
              ==> messages == old(messages)
    {
      if ev.kind == "DELETE" {
        messages := WithoutChat(messages, ev.chatId);
        return;
      }
      if ev.sender != loginUserId || ev.kind == "CREATE" {
        messages := messages + [ev];
      }
    }

    /** The first page arrives: it replaces the window, oldest first, and its
        `currentPage` becomes the cursor. (A failed first fetch only leaves the page.) */
    method OnInitialPage(page: Page)
      modifies this`messages, this`chatId
      ensures messages == Reverse(page.content) && chatId == page.currentPage
    {
      messages := Reverse(page.content);
      chatId := page.currentPage;
    }

    /** A scroll event. Nothing happens without a scroll container, while a backfill is in
        flight or when the cursor is 0; otherwise, at the top of the container, the room
        marks itself loading and requests the page before the cursor. */
    method HandleScroll(hasContainer: bool, atTop: bool) returns (request: Option<ConversationRequest>)
      modifies this`isLoading
      ensures request.Some? <==> hasContainer && !old(isLoading) && chatId != 0 && atTop
      ensures request.Some? ==> isLoading
                                && request.value == ConversationRequest(loginUserId, receiver, PageSize, chatId, roomId)
      ensures request.None? ==> isLoading == old(isLoading)
    {
      request := None;
      if !hasContainer || isLoading || chatId == 0 {
        return;
      }
      if atTop {
        isLoading := true;
        request := Some(ConversationRequest(loginUserId, receiver, PageSize, chatId, roomId));
      }
    }

    /** A backfill page arrives: its messages, oldest first, go in front of the window,
        which is otherwise kept as it is, and its `currentPage` becomes the cursor. The
        loading flag stays set until `BackfillSettled`. */
    method OnBackfillPage(page: Page)
      modifies this`messages, this`chatId
      ensures messages == Prepend(page, old(messages)) && chatId == page.currentPage
    {
      messages := Reverse(page.content) + messages;
      chatId := page.currentPage;
    }

    /** The end of a backfill: the timer after a page, or the failure of the fetch, which
        changes nothing else. */
    method BackfillSettled()
      modifies this`isLoading
      ensures !isLoading
    {
      isLoading := false;
    }

    /** A confirmed delete asks the server to delete the message and, without waiting for
        the answer, drops every message with that `chatId` from the window. */
    method HandleDelete(confirmed: bool, msgChatId: int) returns (request: Option<DeleteRequest>)
      modifies this`messages
      ensures request.Some? <==> confirmed
      ensures confirmed ==> request.value == DeleteRequest(roomId, msgChatId)
                            && messages == WithoutChat(old(messages), Some(msgChatId))
      ensures !confirmed ==> messages == old(messages)
    {
      request := None;
      if confirmed {
        request := Some(DeleteRequest(roomId, msgChatId));
        messages := WithoutChat(messages, Some(msgChatId));
      }
    }

    /** The input box changes. */
    method SetInput(value: string)
      modifies this`input
      ensures input == value
    {
      input := value;
    }

    /** Send: input that is empty or only whitespace does nothing; otherwise the text is
        handed to `sendMessage` as typed and the input is cleared. The window is not
        touched: the message appears when its CREATE frame comes back. */
    method HandleSend() returns (sent: Option<Outgoing>)
      modifies this`input
      ensures sent.Some? <==> HasContent(old(input))
      ensures sent.Some? ==> sent.value == Outgoing(loginUserId, receiver, old(input), roomId) && input == ""
      ensures sent.None? ==> input == old(input)
    {
      sent := None;
      if HasContent(input) {
        sent := Some(Outgoing(loginUserId, receiver, input, roomId));
        input := "";
      }
    }
  }
}
