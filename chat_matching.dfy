/** Random matching (src/component/chat/ChatMatchingComponent.tsx): on mount the page
    starts matching once, waits on the match subscription for a frame that names a room
    and a partner, and then moves to that room; the user can cancel. The component keeps
    React state (`isMatching`, `message`) and refs (`isMatchingRef`, `subscriptionRef`,
    `hasStartedRef`) that its handlers change step by step. Every call into the transport
    or the router is returned as an `Effect`, in the order the handler issues it; the
    subscription handle is a number. */
module ChatMatching {
  import opened Wrappers
  import opened Text

  datatype Effect =
    | Alert(text: string)
    | Navigate(path: string)
    | NavigateBack
    | Connect
    | Disconnect
    | RequestMatch(user: string)
    | Unsubscribe(handle: nat)
    | CancelMatch(user: string)

  /** A frame on the match subscription. */
  datatype MatchFrame = MatchFrame(matched: bool, roomId: Option<int>, receiver: Option<string>,
                                   message: Option<string>)

  const LoginRequired := "로그인이 필요합니다."
  const SignInPath := "../member/signIn"
  const Connecting := "서버 연결 중..."
  const Waiting := "매칭 대기 중..."
  const MatchError := "매칭 오류가 발생했습니다."
  const Cancelled := "매칭이 취소되었습니다."
  const CancelFailed := "매칭 취소에 실패했습니다."

  function Matched(receiver: string): string
  {
    "매칭 성공! " + receiver + "님과 연결되었습니다."
  }

  /** The chat room a complete match leads to. */
  function RoomPath(roomId: int, receiver: string): string
  {
    "/chat/room/" + IntToString(roomId) + "/" + receiver
  }

  /** A matched frame is complete when its room id is truthy (present and not 0) and its
      receiver is truthy (present and not empty). */
  predicate Complete(f: MatchFrame)
  {
    f.roomId.Some? && f.roomId.value != 0 && f.receiver.Some? && f.receiver.value != ""
  }

  /** The text shown while waiting: the frame's message, or the default when it has none. */
  function WaitingText(f: MatchFrame): (t: string)
    ensures f.message.Some? && f.message.value != "" ==> t == f.message.value
    ensures (f.message.None? || f.message.value == "") ==> t == Waiting
  {
    if f.message.Some? && f.message.value != "" then f.message.value else Waiting
  }

  class Matching {
    const loginUserId: string
    var isMatching: bool
    var isMatchingRef: bool
    var message: string
    var subscription: Option<nat>
    var hasStarted: bool

    constructor(loginUserId: string)
      ensures this.loginUserId == loginUserId
      ensures !isMatching && !isMatchingRef && message == "" && subscription == None && !hasStarted
    {
      this.loginUserId := loginUserId;
      isMatching, isMatchingRef, message, subscription, hasStarted := false, false, "", None, false;
    }

    /** `startMatching`: without a logged-in user it alerts and redirects, changing no
        matching state; otherwise it marks matching (state and ref) and connects. */
    method StartMatching() returns (fx: seq<Effect>)
      modifies this`isMatching, this`isMatchingRef, this`message
      ensures loginUserId == "" ==> && fx == [Alert(LoginRequired), Navigate(SignInPath)]
                                    && isMatching == old(isMatching) && isMatchingRef == old(isMatchingRef)
                                    && message == old(message)
      ensures loginUserId != "" ==> && fx == [Connect]
                                    && isMatching && isMatchingRef && message == Connecting
    {
      if loginUserId == "" {
        fx := [Alert(LoginRequired), Navigate(SignInPath)];
        return;
      }
      isMatching := true;
      isMatchingRef := true;
      message := Connecting;
      fx := [Connect];
    }

    /** The mount effect: matching starts automatically at most once per mount, and only
        for a logged-in user. */
    method Mount() returns (fx: seq<Effect>)
      modifies this`isMatching, this`isMatchingRef, this`message, this`hasStarted
      ensures hasStarted == (old(hasStarted) || loginUserId != "")
      ensures (old(hasStarted) || loginUserId == "") ==>
                && fx == [] && isMatching == old(isMatching) && isMatchingRef == old(isMatchingRef)
                && message == old(message)
      ensures (!old(hasStarted) && loginUserId != "") ==>
                fx == [Connect] && isMatching && isMatchingRef && message == Connecting
    {
      fx := [];
      if !hasStarted && loginUserId != "" {
        hasStarted := true;
        fx := StartMatching();
      }
    }

    /** The connection is up: the match is requested and the returned subscription, if
        any, is kept. */
    method OnConnected(handle: Option<nat>) returns (fx: seq<Effect>)
      modifies this`message, this`subscription
      ensures message == Waiting && fx == [RequestMatch(loginUserId)]
      ensures subscription == if handle.Some? then handle else old(subscription)
    {
      message := Waiting;
      fx := [RequestMatch(loginUserId)];
      if handle.Some? {
        subscription := handle;
      }
    }

    /** A frame on the match subscription. An incomplete match only shows an error and
        keeps the subscription; a complete one releases the subscription and leads to the
        room; a frame without a match shows its waiting text. `isMatching` and the ref are
        left as they are in every case. */
    method OnMatchFrame(f: MatchFrame) returns (fx: seq<Effect>)
      modifies this`message, this`subscription
      ensures (f.matched && !Complete(f)) ==> message == MatchError && subscription == old(subscription) && fx == []
      ensures (f.matched && Complete(f)) ==>
                && message == Matched(f.receiver.value) && subscription == None
                && fx == (if old(subscription).Some? then [Unsubscribe(old(subscription).value)] else [])
                         + [Navigate(RoomPath(f.roomId.value, f.receiver.value))]
      ensures !f.matched ==> message == WaitingText(f) && subscription == old(subscription) && fx == []
    {
      fx := [];
      if f.matched {
        if !Complete(f) {
          message := MatchError;
          return;
        }
        message := Matched(f.receiver.value);
        if subscription.Some? {
          fx := [Unsubscribe(subscription.value)];
          subscription := None;
        }
        fx := fx + [Navigate(RoomPath(f.roomId.value, f.receiver.value))];
      } else {
        message := WaitingText(f);
      }
    }

    /** `handleCancel`: the subscription is released before the server is asked to cancel;
        only when that call succeeds does matching end (state, not ref). `accepted` is the
        outcome of the awaited cancel call. */
    method HandleCancel(accepted: bool) returns (fx: seq<Effect>)
      modifies this`isMatching, this`message, this`subscription
      ensures subscription == None && isMatchingRef == old(isMatchingRef)
      ensures var released := if old(subscription).Some? then [Unsubscribe(old(subscription).value)] else [];
        if accepted then
          && fx == released + [CancelMatch(loginUserId), Disconnect, NavigateBack]
          && !isMatching && message == Cancelled
        else
          && fx == released + [CancelMatch(loginUserId), Alert(CancelFailed)]
          && isMatching == old(isMatching) && message == old(message)
    {
      fx := [];
      if subscription.Some? {
        fx := [Unsubscribe(subscription.value)];
        subscription := None;
      }
      fx := fx + [CancelMatch(loginUserId)];
      if accepted {
        fx := fx + [Disconnect];
        isMatching := false;
        message := Cancelled;
        fx := fx + [NavigateBack];
      } else {
        fx := fx + [Alert(CancelFailed)];
      }
    }

    /** The unmount cleanup: release a held subscription (the ref keeps it), send a cancel
        exactly when the ref says matching, and disconnect. */
    method Unmount() returns (fx: seq<Effect>)
      ensures fx == (if subscription.Some? then [Unsubscribe(subscription.value)] else [])
                    + (if isMatchingRef then [CancelMatch(loginUserId)] else [])
                    + [Disconnect]
    {
      fx := [];
      if subscription.Some? {
        fx := [Unsubscribe(subscription.value)];
      }
      if isMatchingRef {
        fx := fx + [CancelMatch(loginUserId)];
      }
      fx := fx + [Disconnect];
    }
  }

  /** A logged-in user's page starts matching, gets subscription `handle`, cancels
      successfully and is left (the cancel navigates back): since `handleCancel` does not
      reset the ref, the cleanup asks the server to cancel a second time. */
  method CancelThenLeave(user: string, handle: nat) returns (cancelFx: seq<Effect>, unmountFx: seq<Effect>)
    requires user != ""
    ensures cancelFx == [Unsubscribe(handle), CancelMatch(user), Disconnect, NavigateBack]
    ensures unmountFx == [CancelMatch(user), Disconnect]
  {
    var page := new Matching(user);
    var fx := page.Mount();
    fx := page.OnConnected(Some(handle));
    cancelFx := page.HandleCancel(true);
    unmountFx := page.Unmount();
  }

  /** A match succeeds and the page is left for the room: the ref still says matching, so
      the cleanup also sends a cancel. */
  method MatchThenLeave(user: string, handle: nat, roomId: int, receiver: string)
    returns (matchFx: seq<Effect>, unmountFx: seq<Effect>)
    requires user != "" && roomId != 0 && receiver != ""
    ensures matchFx == [Unsubscribe(handle), Navigate(RoomPath(roomId, receiver))]
    ensures unmountFx == [CancelMatch(user), Disconnect]
  {
    var page := new Matching(user);
    var fx := page.Mount();
    fx := page.OnConnected(Some(handle));
    matchFx := page.OnMatchFrame(MatchFrame(true, Some(roomId), Some(receiver), None));
    unmountFx := page.Unmount();
  }
}
