/** The message window every chat-room component keeps: a sequence of messages, oldest
    first, that live frames extend at the end, backfill pages extend at the front and
    deletions filter by `chatId`. This module holds the list transformations the three
    room components share (`filter`, `reverse`, spread-prepend) and what is proved about
    them; the components themselves are in ChatRoom, AdminChatRoom and LegacyChatRoom. */
module ChatWindow {
  import opened Wrappers

  /** A chat message as the server sends it, in a live frame or in a history page.
      `chatId` is None where the frame has no `chatId` (an optimistic local message);
      `kind` is the frame's `type` field ("" where it has none). */
  datatype Message = Message(
    chatId: Option<int>,
    sender: string,
    receiver: string,
    content: string,
    createdAt: string,
    kind: string)

  /** One page of the conversation history: `content` newest first, as the server returns
      it, and `currentPage`, which the rooms keep as the cursor of the next backfill. */
  datatype Page = Page(content: seq<Message>, currentPage: int)

  /** The arguments of one `getConversation` call. */
  datatype ConversationRequest = ConversationRequest(
    user: string,
    receiver: string,
    size: int,
    cursor: int,
    roomId: int)

  /** Every history request asks for ten messages. */
  const PageSize: int := 10

  /** `Array.prototype.reverse`: the same elements, last first. */
  function Reverse<T>(s: seq<T>): (r: seq<T>)
    ensures |r| == |s|
  {
    if s == [] then [] else Reverse(s[1..]) + [s[0]]
  }

  lemma {:induction false} ReverseAt<T>(s: seq<T>, k: int)
    requires 0 <= k < |s|
    ensures Reverse(s)[k] == s[|s| - 1 - k]
  {
    if k < |s| - 1 {
      ReverseAt(s[1..], k);
    }
  }

  lemma ReverseIsMirror<T>(s: seq<T>)
    ensures forall k :: 0 <= k < |s| ==> Reverse(s)[k] == s[|s| - 1 - k]
  {
    forall k | 0 <= k < |s| ensures Reverse(s)[k] == s[|s| - 1 - k] {
      ReverseAt(s, k);
    }
  }

  /** Reversing twice gives the page back. */
  lemma ReverseReverse<T>(s: seq<T>)
    ensures Reverse(Reverse(s)) == s
  {
    ReverseIsMirror(s);
    ReverseIsMirror(Reverse(s));
  }

  /** Reversal keeps every element with its multiplicity. */
  lemma {:induction false} ReverseMultiset<T>(s: seq<T>)
    ensures multiset(Reverse(s)) == multiset(s)
  {
    if s != [] {
      ReverseMultiset(s[1..]);
      assert s == [s[0]] + s[1..];
    }
  }

  /** `w.filter(msg => msg.chatId !== id)`: the messages whose `chatId` differs from `id`,
      in their original order. */
  function WithoutChat(w: seq<Message>, id: Option<int>): (r: seq<Message>)
    ensures |r| <= |w|
  {
    if w == [] then []
    else (if w[0].chatId == id then [] else [w[0]]) + WithoutChat(w[1..], id)
  }

  /** After the filter no message carries `id`, and every message of the old window that
      does not carry `id` is still there. */
  lemma {:induction false} WithoutChatMembers(w: seq<Message>, id: Option<int>)
    ensures forall m :: m in WithoutChat(w, id) <==> m in w && m.chatId != id
  {
    if w != [] {
      WithoutChatMembers(w[1..], id);
      assert w == [w[0]] + w[1..];
    }
  }

  /** Filtering distributes over concatenation: the kept messages of each part stay in
      their part, in their order. */
  lemma {:induction false} WithoutChatAppend(a: seq<Message>, b: seq<Message>, id: Option<int>)
    ensures WithoutChat(a + b, id) == WithoutChat(a, id) + WithoutChat(b, id)
  {
    if a == [] {
      assert a + b == b;
    } else {
      var head := if a[0].chatId == id then [] else [a[0]];
      assert (a + b)[0] == a[0] && (a + b)[1..] == a[1..] + b;
      WithoutChatAppend(a[1..], b, id);
      calc {
        WithoutChat(a + b, id);
        head + WithoutChat(a[1..] + b, id);
        head + (WithoutChat(a[1..], id) + WithoutChat(b, id));
        (head + WithoutChat(a[1..], id)) + WithoutChat(b, id);
      }
    }
  }

  /** A window in which no message carries `id` is left exactly as it is. */
  lemma {:induction false} WithoutChatAbsent(w: seq<Message>, id: Option<int>)
    requires forall i :: 0 <= i < |w| ==> w[i].chatId != id
    ensures WithoutChat(w, id) == w
  {
    if w != [] {
      WithoutChatAbsent(w[1..], id);
    }
  }

  /** Delivering the same deletion twice removes nothing more the second time. */
  lemma WithoutChatIdempotent(w: seq<Message>, id: Option<int>)
    ensures WithoutChat(WithoutChat(w, id), id) == WithoutChat(w, id)
  {
    var r := WithoutChat(w, id);
    WithoutChatMembers(w, id);
    forall i | 0 <= i < |r| ensures r[i].chatId != id {
      assert r[i] in r;
    }
    WithoutChatAbsent(r, id);
  }

  /** How many messages of `w` carry `id`. */
  function CountChat(w: seq<Message>, id: Option<int>): (n: nat)
    ensures n <= |w|
  {
    if w == [] then 0 else (if w[0].chatId == id then 1 else 0) + CountChat(w[1..], id)
  }

  /** The filter removes exactly the messages that carry `id`, no more and no fewer. */
  lemma {:induction false} WithoutChatLength(w: seq<Message>, id: Option<int>)
    ensures |WithoutChat(w, id)| == |w| - CountChat(w, id)
  {
    if w != [] {
      WithoutChatLength(w[1..], id);
    }
  }

  /** `a` is `b` with some elements left out and the rest in their order. */
  predicate Subsequence(a: seq<Message>, b: seq<Message>)
    decreases |b|
  {
    a == [] || (b != [] && ((a[0] == b[0] && Subsequence(a[1..], b[1..])) || Subsequence(a, b[1..])))
  }

  /** The filtered window is an order-preserving subsequence of the old one. */
  lemma {:induction false} WithoutChatSubsequence(w: seq<Message>, id: Option<int>)
    ensures Subsequence(WithoutChat(w, id), w)
  {
    if w != [] {
      WithoutChatSubsequence(w[1..], id);
      var r := WithoutChat(w, id);
      if w[0].chatId != id {
        assert r[0] == w[0] && r[1..] == WithoutChat(w[1..], id);
      } else {
        assert r == WithoutChat(w[1..], id);
      }
    }
  }

  /** `[...newMessages, ...prev]` with `newMessages` the reversed page: the backfilled
      window. */
  function Prepend(page: Page, w: seq<Message>): (r: seq<Message>)
    ensures |r| == |page.content| + |w|
    ensures r[|page.content|..] == w
  {
    Reverse(page.content) + w
  }

  /** No de-duplication is done: a message both in the page and in the window is in the
      backfilled window twice as often as in either. */
  lemma PrependKeepsDuplicates(page: Page, w: seq<Message>, m: Message)
    ensures multiset(Prepend(page, w))[m] == multiset(page.content)[m] + multiset(w)[m]
  {
    ReverseMultiset(page.content);
  }

  /** Deleting after a backfill is deleting from the page and from the old window
      separately: backfill and deletion commute. */
  lemma WithoutChatPrepend(page: Page, w: seq<Message>, id: Option<int>)
    ensures WithoutChat(Prepend(page, w), id)
         == WithoutChat(Reverse(page.content), id) + WithoutChat(w, id)
  {
    WithoutChatAppend(Reverse(page.content), w, id);
  }

  /** Every message has a `chatId` and the ids strictly increase: oldest first. */
  predicate Ascending(w: seq<Message>)
  {
    && (forall i :: 0 <= i < |w| ==> w[i].chatId.Some?)
    && (forall i, j :: 0 <= i < j < |w| ==> w[i].chatId.value < w[j].chatId.value)
  }

  /** Every message has a `chatId` and the ids strictly decrease: newest first, the order
      in which the server returns a page. */
  predicate Descending(p: seq<Message>)
  {
    && (forall i :: 0 <= i < |p| ==> p[i].chatId.Some?)
    && (forall i, j :: 0 <= i < j < |p| ==> p[i].chatId.value > p[j].chatId.value)
  }

  /** When the server returns pages newest first and each page is older than everything
      already shown, a backfill keeps the window ordered oldest to newest (for instance a
      window of ids 21..30 and a page of ids 20 down to 11 give ids 11..30). */
  lemma BackfillKeepsOrder(page: Page, w: seq<Message>)
    requires Descending(page.content) && Ascending(w)
    requires forall i, j :: 0 <= i < |page.content| && 0 <= j < |w| ==>
               page.content[i].chatId.value < w[j].chatId.value
    ensures Ascending(Prepend(page, w))
  {
    var p := page.content;
    var r := Prepend(page, w);
    ReverseIsMirror(p);
    forall i | 0 <= i < |r| ensures r[i].chatId.Some? {
      if i >= |p| { assert r[i] == w[i - |p|]; }
    }
    forall i, j | 0 <= i < j < |r| ensures r[i].chatId.value < r[j].chatId.value {
      if j < |p| {
        assert r[i] == p[|p| - 1 - i] && r[j] == p[|p| - 1 - j];
      } else if i < |p| {
        assert r[i] == p[|p| - 1 - i] && r[j] == w[j - |p|];
      } else {
        assert r[i] == w[i - |p|] && r[j] == w[j - |p|];
      }
    }
  }

  /** The initial page, reversed, is ordered oldest to newest. */
  lemma InitialPageAscending(page: Page)
    requires Descending(page.content)
    ensures Ascending(Reverse(page.content))
  {
    BackfillKeepsOrder(page, []);
    assert Prepend(page, []) == Reverse(page.content);
  }
}
