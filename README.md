# chating_frontend — a Dafny model of the chat, authentication and form logic

This project models the client-side logic of the `chating_frontend` React application:

- the message window of a one-to-one chat room, in its current and earlier revisions and
  in the administrator's read-only view:
  - live STOMP frames (append or delete);
  - the first history page (reversed into the window);
  - backfill pages fetched when the user scrolls to the top (prepended);
  - local delete and send;
- the HTTP client's request interceptor (attach the bearer token) and response
  interceptor (refresh the token once on a 401 and replay the request);
- the Redux authentication slice;
- random matching: start, wait, match, cancel and cleanup;
- the sign-up form in two revisions, the sign-in form and the profile editor;
- the administrator's member list: client-side sort, paging guard, status toggle and role
  check. Also the older member list and the shared page selector.

Every React component is modelled by its own module. State that a component's handlers
update step by step (`useState`, `useRef`, `localStorage`, the request config) is a class
whose methods change exactly those fields. Pure computations are functions:
- the filters and reversals of the window;
- the validation chains;
- the sort;
- the interceptor's decision.

Each function comes with lemmas about it.

Where a page renders between a request and its result, the handler is split in two: a
method that starts the call returns the request it issues, and the method for its
completion takes the call's result as a parameter. These are the chat rooms' first fetch
and backfill (`OnInitialPage`, `OnBackfillPage`, `BackfillSettled`), the matching
connection (`ChatMatching.Matching.OnConnected`, `OnMatchFrame`), the member lists'
`fetchMembers` (`ApplyFetch`) and the profile page's load (`Profile.ProfilePage.OnLoaded`).
Six handlers take the outcome of their awaited calls in one step, as parameters:
`AdminChatRoom.AdminRoom.HandleDelete`, `ChatMatching.Matching.HandleCancel`,
`Profile.ProfilePage.HandleUpdate` (two awaits), `MemberList.MemberListPage.HandleStatusChange`,
`MemberList.MemberListPage.HandleDelete` and
`LegacyMemberList.LegacyMemberListPage.HandleStatusChange`.

No network, timer or DOM is modelled.

The code has no synchronisation engine. So the model has none of the following:
- a single-flight token refresh;
- a reconnect policy;
- de-duplication of the window;
- rollback of optimistic actions.

What the code does instead is proved:
- a backfill keeps duplicates (`ChatWindow.PrependKeepsDuplicates`);
- a request is replayed at most once (`RootApi.ReplayedAtMostOnce`);
- the member's delete drops messages without waiting for the server
  (`ChatRoom.Room.HandleDelete`);
- the matching page asks the server to cancel when it is left, even after a cancel (a
  second cancel, `ChatMatching.CancelThenLeave`) or after a match
  (`ChatMatching.MatchThenLeave`).

Modules:
- `Wrappers` (`Option`, `Result`);
- `Text`: decimal rendering and parsing, `padStart`, `slice`, `trim` truthiness, and
  lexicographic string order;
- `ChatWindow`: the window operations that the three chat rooms share;
- `ChatRoom`, `AdminChatRoom`, `LegacyChatRoom`;
- `RootApi`, `AuthSlice`, `ChatMatching`;
- `FormRules`: the sign-up record, the four regular expressions as predicates, and the
  per-field check chains;
- `SignUp`, `SignUpLegacy`, `SignIn`, `Profile`;
- `Paging`, `MemberList`, `LegacyMemberList`.

## Model

| member | source | states |
|---|---|---|
| ChatWindow.Reverse | src/component/chat/ChatRoomComponent.tsx:88 | `.reverse()` of the first page: as many messages as the page; the mirror, involution and permutation properties are the lemmas below |
| ChatWindow.ReverseReverse | src/component/chat/ChatRoomComponent.tsx:88 | reversing a page twice gives it back |
| ChatWindow.ReverseIsMirror | src/component/chat/ChatRoomComponent.tsx:88 | element k of the reversed page is element n-1-k of the page |
| ChatWindow.ReverseMultiset | src/component/chat/ChatRoomComponent.tsx:88 | reversal keeps every message with its multiplicity |
| ChatWindow.WithoutChat | src/component/chat/ChatRoomComponent.tsx:77 | `filter(msg => msg.chatId !== id)`: never longer than the window; membership, count and order are the lemmas below |
| ChatWindow.WithoutChatMembers | src/component/chat/ChatRoomComponent.tsx:77 | after `filter(msg => msg.chatId !== id)`, a message is in the window iff it was there before and does not carry `id` |
| ChatWindow.WithoutChatLength | src/component/chat/ChatRoomComponent.tsx:77 | the filter removes exactly as many messages as carry `id` |
| ChatWindow.WithoutChatSubsequence | src/component/chat/ChatRoomComponent.tsx:77 | the kept messages stay in their original order |
| ChatWindow.WithoutChatIdempotent | src/component/chat/ChatRoomComponent.tsx:76-78 | a DELETE frame delivered twice removes nothing more the second time |
| ChatWindow.WithoutChatAbsent | src/component/chat/ChatRoomComponent.tsx:77 | deleting an id that no message carries leaves the window unchanged |
| ChatWindow.WithoutChatAppend | src/component/chat/ChatRoomComponent.tsx:77 | filtering distributes over concatenation |
| ChatWindow.Prepend | src/component/chat/ChatRoomComponent.tsx:117-120 | the backfilled window is the reversed page followed by the old window, which is kept unchanged as the suffix |
| ChatWindow.PrependKeepsDuplicates | src/component/chat/ChatRoomComponent.tsx:117-120 | no de-duplication: a message's count in the new window is its count in the page plus its count in the old window |
| ChatWindow.WithoutChatPrepend | src/component/chat/ChatRoomComponent.tsx:77-120 | a delete after a backfill is the same as deleting from the page and from the old window separately |
| ChatWindow.BackfillKeepsOrder | src/component/chat/ChatRoomComponent.tsx:116-121 | if pages arrive newest first and are older than the window, the window stays ordered oldest to newest |
| ChatWindow.InitialPageAscending | src/component/chat/ChatRoomComponent.tsx:87-88 | a newest-first first page is shown oldest first |
| ChatRoom.Setup | src/component/chat/ChatRoomComponent.tsx:62-95 | without a logged-in user it redirects and connects nothing; otherwise it requests 10 messages of the room with cursor 0 |
| ChatRoom.YearSuffix | src/component/chat/ChatRoomComponent.tsx:27 | `String(year).slice(2)` of a four-digit year is its last two digits |
| ChatRoom.PaddedField | src/component/chat/ChatRoomComponent.tsx:28-31 | `String(n).padStart(2, '0')` of 0..99 is two digits that read back as n |
| ChatRoom.FormatDateTime | src/component/chat/ChatRoomComponent.tsx:25-34 | `formatDateTime` on the date's getter values: the year from its third character, then month+1, day, hours and minutes each padded to two digits, joined by `/`, ` ` and `:`; layout and read-back are the lemmas below |
| ChatRoom.FormatDateTimeFields | src/component/chat/ChatRoomComponent.tsx:25-34 | the timestamp is `YY/MM/DD HH:mm`: each field is two digits, joined by the separators |
| ChatRoom.FieldPositions | src/component/chat/ChatRoomComponent.tsx:33 | the separators sit at positions 2, 5, 8 and 11 |
| ChatRoom.FormatDateTimeReadsBack | src/component/chat/ChatRoomComponent.tsx:25-34 | for in-range date fields the 14-character stamp parses back to year mod 100, month+1, day, hours and minutes |
| ChatRoom.Room.constructor | src/component/chat/ChatRoomComponent.tsx:8-13 | empty window, cursor 0, not loading, empty input |
| ChatRoom.Room.OnLiveEvent | src/component/chat/ChatRoomComponent.tsx:73-85 | DELETE filters by `chatId`; another frame is appended iff someone else sent it or it is a CREATE frame |
| ChatRoom.Room.OnInitialPage | src/component/chat/ChatRoomComponent.tsx:87-89 | the window becomes the reversed page and the cursor its `currentPage` |
| ChatRoom.Room.HandleScroll | src/component/chat/ChatRoomComponent.tsx:108-116 | a request is issued iff there is a container, no backfill is in flight, the cursor is non-zero and the view is at the top; it asks for 10 messages before the cursor |
| ChatRoom.Room.OnBackfillPage | src/component/chat/ChatRoomComponent.tsx:116-121 | the window becomes `Prepend(page, old window)` and the cursor the page's `currentPage` |
| ChatRoom.Room.BackfillSettled | src/component/chat/ChatRoomComponent.tsx:123-133 | loading ends after the timer or a failed fetch |
| ChatRoom.Room.HandleDelete | src/component/chat/ChatRoomComponent.tsx:37-47 | a confirmed delete is requested and the message is dropped at once, without waiting for the server |
| ChatRoom.Room.SetInput | src/component/chat/ChatRoomComponent.tsx:192 | the input takes the typed value |
| Text.HasContent | src/component/chat/ChatRoomComponent.tsx:50 | `input.trim()` is truthy iff some character is not ECMAScript whitespace or a line terminator |
| ChatRoom.Room.HandleSend | src/component/chat/ChatRoomComponent.tsx:49-60 | sends iff the trimmed input is non-empty; the untrimmed text is sent, the input cleared, and the window untouched |
| AdminChatRoom.Setup | src/component/admin/AdminChatRoomComponent.tsx:52-83 | goes back iff any of memberId, roomId or receiver is missing or empty; otherwise requests the first page with cursor 0 |
| AdminChatRoom.AdminRoom.constructor | src/component/admin/AdminChatRoomComponent.tsx:8-12 | empty window, cursor 0, not loading |
| AdminChatRoom.AdminRoom.OnLiveEvent | src/component/admin/AdminChatRoomComponent.tsx:62-73 | DELETE filters, CREATE appends, every other frame is ignored |
| AdminChatRoom.AdminRoom.OnInitialPage | src/component/admin/AdminChatRoomComponent.tsx:74-78 | window = reversed page, cursor = `currentPage` |
| AdminChatRoom.AdminRoom.HandleScroll | src/component/admin/AdminChatRoomComponent.tsx:98-107 | same guard and request as the member's room, for the route's member |
| AdminChatRoom.AdminRoom.OnBackfillPage | src/component/admin/AdminChatRoomComponent.tsx:107-112 | window = `Prepend(page, old window)`, cursor updated |
| AdminChatRoom.AdminRoom.BackfillSettled | src/component/admin/AdminChatRoomComponent.tsx:114-124 | loading ends |
| AdminChatRoom.AdminRoom.HandleDelete | src/component/admin/AdminChatRoomComponent.tsx:34-45 | the window changes only when the delete was confirmed and the awaited server call succeeded |
| LegacyChatRoom.LegacyRoom.constructor | src/component/ChatRoomComponent.tsx:6-11 | empty window and input |
| LegacyChatRoom.LegacyRoom.OnLiveMessage | src/component/ChatRoomComponent.tsx:22-26 | a frame is appended iff its sender is not the current user |
| LegacyChatRoom.LegacyRoom.SetInput | src/component/ChatRoomComponent.tsx:118 | the input takes the typed value |
| LegacyChatRoom.LegacyRoom.HandleSend | src/component/ChatRoomComponent.tsx:38-51 | non-blank input appends exactly one optimistic message from the user, sends the text and clears the input; blank input changes nothing |
| LegacyChatRoom.SendThenEcho | src/component/ChatRoomComponent.tsx:22-51 | after a send and the server's echo of it, the message is shown exactly once |
| RootApi.Stored | src/api/RootApi.tsx:13-14 | a stored value counts only when present and non-empty |
| RootApi.AttachToken | src/api/RootApi.tsx:12-18 | with a stored access token the header becomes `Bearer <token>`; otherwise the request is unchanged |
| RootApi.Eligible | src/api/RootApi.tsx:28-33 | a refresh is attempted only for a 401 on a request not yet retried whose error code is TOKEN_EXPIRED or INVALID_TOKEN |
| RootApi.Decide | src/api/RootApi.tsx:21-67 | refresh only for a 401 with TOKEN_EXPIRED/INVALID_TOKEN on a request not yet retried and with a refresh token; replay iff the refresh returned a non-empty token; storage is cleared iff there is no refresh token or the refresh failed with 403; a retried request is always rejected untouched |
| RootApi.OnResponseError | src/api/RootApi.tsx:21-67 | the interceptor sets `_retry`, storage and the header exactly as `Decide` plans |
| RootApi.ReplayedAtMostOnce | src/api/RootApi.tsx:28-51 | a request replayed once is rejected on its next failure, without a second refresh |
| AuthSlice.AuthState.constructor | src/store/authSlice.tsx:4-7 | logged out, no user |
| AuthSlice.AuthState.SetUser | src/store/authSlice.tsx:13-16 | logged in as the payload; logged in iff a user is held |
| AuthSlice.AuthState.ClearUser | src/store/authSlice.tsx:17-20 | logged out, no user |
| AuthSlice.LoginSwitchLogout | src/store/authSlice.tsx:13-20 | a second login replaces the first user; clearing twice equals clearing once |
| ChatMatching.Complete | src/component/chat/ChatMatchingComponent.tsx:60 | a matched frame is complete iff its room id is present and non-zero and its receiver present and non-empty (the truthiness of `roomId` and `receiver`) |
| ChatMatching.WaitingText | src/component/chat/ChatMatchingComponent.tsx:92 | the frame's message, or the default waiting text when it is missing or empty |
| ChatMatching.Matching.constructor | src/component/chat/ChatMatchingComponent.tsx:8-14 | not matching, no subscription, not started |
| ChatMatching.Matching.StartMatching | src/component/chat/ChatMatchingComponent.tsx:38-50 | without a user: alert and redirect only; otherwise state and ref say matching, and it connects |
| ChatMatching.Matching.Mount | src/component/chat/ChatMatchingComponent.tsx:16-21 | matching starts at most once per mount, and only for a logged-in user |
| ChatMatching.Matching.OnConnected | src/component/chat/ChatMatchingComponent.tsx:50-99 | requests a match and keeps the returned subscription |
| ChatMatching.Matching.OnMatchFrame | src/component/chat/ChatMatchingComponent.tsx:54-93 | incomplete match: error text, subscription kept; complete: unsubscribe, then navigate to `/chat/room/<id>/<receiver>`; no match: waiting text |
| ChatMatching.Matching.HandleCancel | src/component/chat/ChatMatchingComponent.tsx:103-128 | unsubscribes, then cancels; only a successful cancel disconnects, ends matching and goes back; the ref is never reset |
| ChatMatching.Matching.Unmount | src/component/chat/ChatMatchingComponent.tsx:24-35 | unsubscribes a held subscription, cancels iff the ref says matching, then disconnects |
| ChatMatching.CancelThenLeave | src/component/chat/ChatMatchingComponent.tsx:16-128 | after a successful cancel, leaving the page sends the cancel a second time |
| ChatMatching.MatchThenLeave | src/component/chat/ChatMatchingComponent.tsx:16-101 | after a match, leaving for the room still sends a cancel |
| FormRules.With | src/component/member/SignUpComponent.tsx:27 | the named field takes the value; every other field is kept |
| FormRules.OnChange | src/component/member/SignUpComponent.tsx:22-29 | `checkPwd` sets the confirmation, any other input its field; nothing else changes |
| FormRules.OnChangeOption | src/component/member/SignUpComponent.tsx:31-34 | sets one field of the record; nothing else changes |
| FormRules.EmailHasOneAt | src/component/member/SignUpComponent.tsx:61 | an address matching the pattern has exactly one '@' |
| FormRules.PhoneLength | src/component/member/SignUpComponent.tsx:65 | a number matching the pattern has 10 to 13 characters |
| FormRules.SampleEmailMatches | src/component/member/SignUpComponent.tsx:61 | `kim@mail.com` matches the e-mail pattern |
| FormRules.SamplePhoneMatches | src/component/member/SignUpComponent.tsx:65 | `010-1234-5678` matches the phone pattern |
| FormRules.SamplePwdMatches | src/component/member/SignUpComponent.tsx:48-51 | `pass!1` has an accepted length and matches the password pattern |
| FormRules.SampleMemIdMatches | src/component/member/SignUpComponent.tsx:42-44 | `member01` has an accepted length and matches the id pattern |
| FormRules.MemIdProblem | src/component/member/SignUpComponent.tsx:41-45 | Missing iff empty, BadLength iff non-empty and `.length` (UTF-16 code units) not 6..12, BadCharacters iff 6..12 and not alphanumeric, none iff both hold |
| FormRules.WideIdFailsOnCharacters | src/component/member/SignUpComponent.tsx:41-45 | an id of three characters outside the Basic Multilingual Plane is six code units long, so it passes the length test and is refused for its characters |
| FormRules.PwdProblem | src/component/member/SignUpComponent.tsx:47-56 | the same ordered chain for the password with its character rule, the length in UTF-16 code units |
| FormRules.ConfirmProblem | src/component/member/SignUpComponent.tsx:57 | a mismatch is reported only when the password passed all its checks |
| FormRules.RequiredProblem | src/component/member/SignUpComponent.tsx:59 | Missing iff empty |
| FormRules.EmailProblem | src/component/member/SignUpComponent.tsx:60-62 | Missing iff empty, otherwise BadFormat iff the pattern fails |
| FormRules.PhoneProblem | src/component/member/SignUpComponent.tsx:64-66 | Missing iff empty, otherwise BadFormat iff the pattern fails |
| SignUp.BuildIsPartial | src/component/member/SignUpComponent.tsx:38-70 | checking the inputs one after another, each adding at most its own entry, yields the map of every input's problem whatever the checks are |
| SignUp.ErrorsHoldProblems | src/component/member/SignUpComponent.tsx:38-70 | the error map has an entry exactly for each input that has a problem, holding that problem |
| SignUp.AllClearIsAcceptable | src/component/member/SignUpComponent.tsx:41-72 | no input has a problem iff every field rule holds, the birth date included |
| SignUp.CheckMemId | src/component/member/SignUpComponent.tsx:41-45 | adds the id's problem, if any, to the map |
| SignUp.CheckPassword | src/component/member/SignUpComponent.tsx:47-57 | adds the password's problem, or else the confirmation's |
| SignUp.CheckRequired | src/component/member/SignUpComponent.tsx:68-70 | adds Missing for an empty required field |
| SignUp.CheckEmail | src/component/member/SignUpComponent.tsx:60-62 | adds the address's problem, if any |
| SignUp.CheckPhone | src/component/member/SignUpComponent.tsx:64-66 | adds the number's problem, if any |
| SignUp.CollectErrors | src/component/member/SignUpComponent.tsx:38-70 | the checks in source order build exactly `Errors(form)` |
| SignUp.OnSubmit | src/component/member/SignUpComponent.tsx:36-87 | error keys are exactly the inputs with problems; birth is reported iff empty; the record is sent iff acceptable iff the map is empty, and what is sent is the form's record |
| SignUp.EmptyBirthRefused | src/component/member/SignUpComponent.tsx:70 | a form that is correct except for an empty birth date is refused, and accepted once a birth date is typed |
| SignUpLegacy.ErrorsHoldProblems | src/component/signUpComponent.tsx:45-99 | the error map has an entry exactly for each input with a problem |
| SignUpLegacy.AllClearIsAcceptable | src/component/signUpComponent.tsx:48-102 | no problem iff every rule except the birth date's holds |
| SignUpLegacy.CollectErrors | src/component/signUpComponent.tsx:45-99 | the checks in source order build this revision's `Errors(form)` |
| SignUpLegacy.OnSubmit | src/component/signUpComponent.tsx:43-116 | as in the current revision, except that the birth date never gets an error |
| SignUpLegacy.EmptyBirthAccepted | src/component/signUpComponent.tsx:97-99 | the form the current revision refuses for its empty birth date is sent here |
| SignUpLegacy.RevisionsAgreeWithBirth | src/component/signUpComponent.tsx:97-99 | with a birth date the two revisions agree on every input |
| SignIn.OnChange | src/component/member/SignInComponent.tsx:17-24 | only the named field changes; the error map keeps its keys and the field's message is blanked |
| SignIn.OnSubmit | src/component/member/SignInComponent.tsx:26-55 | each empty field gets its own message; credentials are sent iff both are filled in, and the map is then emptied |
| SignIn.BothMissing | src/component/member/SignInComponent.tsx:30-36 | two empty fields give both messages and no request |
| Profile.FormFromMember | src/component/member/ProfileComponent.tsx:34-41 | the member's contact fields, or "" when missing, and three empty passwords |
| Profile.WithField | src/component/member/ProfileComponent.tsx:51-57 | only the named form field changes |
| Profile.CheckUpdate | src/component/member/ProfileComponent.tsx:60-69 | with a new password: a mismatch aborts first, then a missing current password; no new password: no check |
| Profile.Payload | src/component/member/ProfileComponent.tsx:72-81 | contact fields always; current and new password iff a new one is typed |
| Profile.PayloadIgnoresConfirmation | src/component/member/ProfileComponent.tsx:72-81 | the confirmation never reaches the payload |
| Profile.SentPasswordsWereChecked | src/component/member/ProfileComponent.tsx:60-81 | a payload with passwords was confirmed and carries a current password |
| Profile.ProfilePage.constructor | src/component/member/ProfileComponent.tsx:15-26 | loading, no member, empty form |
| Profile.ProfilePage.OnLoaded | src/component/member/ProfileComponent.tsx:28-49 | success sets the member and seeds the form; failure sets the error text; loading ends either way |
| Profile.ProfilePage.StartEditing | src/component/member/ProfileComponent.tsx:194 | editing starts; nothing else changes |
| Profile.ProfilePage.HandleInputChange | src/component/member/ProfileComponent.tsx:51-57 | the form becomes `WithField(old form, k, v)` |
| Profile.ProfilePage.Cancel | src/component/member/ProfileComponent.tsx:336-346 | editing ends and the form is reseeded from the member |
| Profile.ProfilePage.HandleUpdate | src/component/member/ProfileComponent.tsx:59-100 | a failed check sends nothing; a sent update that succeeds ends editing; only a successful reload replaces the member and clears the three passwords, keeping the typed contact fields |
| Profile.EditThenCancel | src/component/member/ProfileComponent.tsx:336-346 | typing and cancelling restores the loaded form |
| Profile.ChangePassword | src/component/member/ProfileComponent.tsx:59-95 | a password change sends both passwords and leaves none in the form |
| Paging.Buttons | src/component/common/PageComponent.tsx:24-32 | one button per page `0..totalPages-1`, labelled i+1, active iff i is the current page |
| Paging.OneActiveButton | src/component/common/PageComponent.tsx:27 | exactly the current page's button is active when it is in range, none otherwise |
| Paging.Prev | src/component/common/PageComponent.tsx:16-22 | targets `currentPage-1`, disabled iff `currentPage = 0` |
| Paging.Next | src/component/common/PageComponent.tsx:34-40 | targets `currentPage+1`, disabled iff `currentPage = totalPages-1` |
| Paging.EnabledControlsAreAccepted | src/component/admin/MemberListComponent.tsx:145-150 | on an in-range page every enabled arrow and every button requests a page the guard accepts |
| Paging.EmptyListNextIsRefused | src/component/common/PageComponent.tsx:34-40 | with no pages the next arrow is enabled but its target is refused |
| MemberList.NextSort | src/component/admin/MemberListComponent.tsx:46-53 | the sorted column flips its order; any other column starts descending |
| MemberList.SortClickTwice | src/component/admin/MemberListComponent.tsx:46-53 | two more clicks on the same column restore the sort |
| MemberList.InsertKeepsOrder | src/component/admin/MemberListComponent.tsx:59-74 | inserting a row keeps the list in comparator order |
| MemberList.SortBy | src/component/admin/MemberListComponent.tsx:59-74 | the copy sorted by the comparator has as many rows as the page; permutation and order are the lemmas below |
| MemberList.SortByKeepsRows | src/component/admin/MemberListComponent.tsx:59 | sorting keeps every row with its multiplicity |
| MemberList.SortByOrders | src/component/admin/MemberListComponent.tsx:59-74 | the sorted copy is in comparator order |
| MemberList.SortedMembers | src/component/admin/MemberListComponent.tsx:56-75 | `getSortedMembers`: the rows shown are a permutation of the page's rows |
| MemberList.SortedMembersIsSortedCopy | src/component/admin/MemberListComponent.tsx:56-75 | no client sort gives the page itself; otherwise an ordered permutation of it |
| MemberList.NextStatus | src/component/admin/MemberListComponent.tsx:98 | BANNED iff the current status is ACTIVE, otherwise ACTIVE |
| MemberList.NextStatusTwice | src/component/admin/MemberListComponent.tsx:98 | toggling twice gives the status back iff it is ACTIVE or BANNED |
| MemberList.StatusPrompt | src/component/admin/MemberListComponent.tsx:99-101 | the ban prompt iff the member is ACTIVE, the unban prompt iff it is not |
| MemberList.CheckAccess | src/component/admin/MemberListComponent.tsx:17-35 | no session throws; only the ADMIN role is allowed |
| MemberList.MemberListPage.constructor | src/component/admin/MemberListComponent.tsx:12-26 | empty list, page 0 of 0, no client sort |
| MemberList.MemberListPage.Mount | src/component/admin/MemberListComponent.tsx:29-37 | the first page is fetched iff the user is an administrator |
| MemberList.MemberListPage.ApplyFetch | src/component/admin/MemberListComponent.tsx:78-94 | a page replaces list and counters; a failure changes nothing |
| MemberList.MemberListPage.HandlePageChange | src/component/admin/MemberListComponent.tsx:145-150 | fetches and clears the sort iff `0 <= page < totalPages`; otherwise nothing changes |
| MemberList.MemberListPage.OnSearchClick | src/component/admin/MemberListComponent.tsx:39-43 | page 0, no client sort, fetch page 0 |
| MemberList.MemberListPage.HandleClientSort | src/component/admin/MemberListComponent.tsx:46-53 | the sort becomes `NextSort(old sort, field)` |
| MemberList.MemberListPage.Rows | src/component/admin/MemberListComponent.tsx:158 | the rendered rows are a permutation of the page |
| MemberList.MemberListPage.HandleStatusChange | src/component/admin/MemberListComponent.tsx:97-113 | a confirmed click requests the toggled status; a success refetches the current page |
| MemberList.MemberListPage.HandleDelete | src/component/admin/MemberListComponent.tsx:116-127 | a confirmed click deletes; a success refetches the current page |
| MemberList.SortThenTurnPage | src/component/admin/MemberListComponent.tsx:145-158 | a page change drops the client sort: the next page is shown in server order |
| LegacyMemberList.LegacyMemberListPage.constructor | src/component/MemberListComponent.tsx:9-12 | empty list, page 0 of 0 |
| LegacyMemberList.LegacyMemberListPage.ApplyFetch | src/component/MemberListComponent.tsx:16-32 | a page replaces list and counters; a failure changes nothing |
| LegacyMemberList.LegacyMemberListPage.HandlePageChange | src/component/MemberListComponent.tsx:73-77 | fetches iff `0 <= page < totalPages` |
| LegacyMemberList.LegacyMemberListPage.PrevButton | src/component/MemberListComponent.tsx:163-169 | targets `currentPage-1`, disabled iff `currentPage = 0` |
| LegacyMemberList.LegacyMemberListPage.NextButton | src/component/MemberListComponent.tsx:173-179 | targets `currentPage+1`, disabled iff `currentPage = totalPages-1` |
| LegacyMemberList.LegacyMemberListPage.HandleStatusChange | src/component/MemberListComponent.tsx:35-51 | a confirmed click requests the toggled status; a success refetches the current page |
| LegacyMemberList.ButtonsAgreeWithGuard | src/component/MemberListComponent.tsx:73-177 | on an in-range page the enabled buttons lead to fetches; with no pages the enabled next button fetches nothing |
| Text.ParseNatToString | src/component/chat/ChatRoomComponent.tsx:27-31 | the decimal rendering of n parses back to n |
| Text.PadStart2NatToString | src/component/chat/ChatRoomComponent.tsx:28-31 | `padStart(2, '0')` of a number below 100 has two digits and reads back as the number |
| Text.StrLessTransitive | src/component/admin/MemberListComponent.tsx:70-72 | the string order used by the comparator is transitive |
| Text.Utf16Length | src/component/member/SignUpComponent.tsx:42 | `s.length`: between the number of characters and twice that, a character outside the Basic Multilingual Plane counting two |
| Text.Utf16LengthIsSize | src/component/member/SignUpComponent.tsx:42 | `s.length` (UTF-16 code units) equals the number of characters iff no character is outside the Basic Multilingual Plane |
| Text.StrLessTotal | src/component/admin/MemberListComponent.tsx:70-72 | any two different strings are ordered |

## Left out

- Events that arrive while a one-step handler awaits are not modelled: the six handlers
  named above (`AdminChatRoom.AdminRoom.HandleDelete`, `ChatMatching.Matching.HandleCancel`,
  `Profile.ProfilePage.HandleUpdate`, `MemberList.MemberListPage.HandleStatusChange`,
  `MemberList.MemberListPage.HandleDelete`, `LegacyMemberList.LegacyMemberListPage.HandleStatusChange`)
  run from the click to the completion as one step, so a live frame arriving during
  `await deleteMessage`, or typing between `updateMemberInfo` and `getUserInfo`, cannot
  fall between them.
- The STOMP transport is not modelled: connecting, subscribing and disconnecting appear
  only as effects or are left out. The same holds for the HTTP calls, whose outcomes are
  parameters of the completion methods.
- Timers, scrolling and the DOM are left out: `scrollToBottom`, the scroll-position
  restore, and the 100 ms, 500 ms and 1000 ms delays. Their effect on the model's state is
  applied at once.
- `alert`, `window.confirm` and navigation are left out. A confirmation is a boolean
  parameter, and navigation is an effect or a setup action.
- `new Date(...)` parsing and its getters are not modelled. `ChatRoom.FormatDateTime`
  takes the getters' results, and `MemberList.Member.createdAt` is the timestamp.
- `Number(roomId)` in the administrator's room is not modelled; it is the `roomNumber`
  parameter.
- Strings are compared by code point, not by UTF-16 code unit. The two orders differ only
  outside the Basic Multilingual Plane.
- MemberList.SortBy: the comparator never returns 0, so as soon as two rows have equal
  keys it is not a consistent comparator in the sense of ECMA-262 (the definition of
  `Array.prototype.sort`), and the standard then leaves the order of the whole result
  implementation-defined, not only the order among equal rows. The model is an insertion
  sort by that comparator; `MemberList.SortByOrders` proves the order such a sort
  produces, which the standard does not promise for those inputs. That rows with equal
  keys keep their relative order is not claimed either.
- The profile page's loading flag is modelled: it is set when the page mounts and
  cleared when the load completes (`Profile.ProfilePage.OnLoaded`). What it renders
  while set is not.
- ChatRoom.Room.HandleDelete: `deleteMessage` is not awaited, so its failure does not
  reach the handler. A synchronous throw of `deleteMessage` or `sendMessage` is not
  modelled: it would skip the filter, and would clear the input only if the thrown value
  has a `data` field (the catch reads `error.data.message`).
- RootApi.OnResponseError: the replayed request's result is not modelled. The replay is
  sent with plain `axios`, which bypasses these interceptors.
- The error-path navigation of the first page fetch (`navigate(-1)` in both chat rooms)
  is not modelled. It leaves the room.
- The profile page's `handleDelete` is not modelled. It is a confirmation followed by a
  server call and a redirect.
- The sign-in success path is not modelled: storing `userInfo` in `sessionStorage` and
  navigating.
- `handleDetail`, `handleChatHistory`, `handleQnAHistory` and `handleBack` are not
  modelled; they only navigate.
- The search options sent with `getMembers` are not modelled.
- The older sign-up revision's messages are not modelled; which fields get an error is.
  Its `signUp` request is modelled (`SignUpLegacy.OnSubmit` returns it); only the call's
  completion, its alert and navigation, is left out.
- The error messages of the sign-up form are not modelled. They are represented by the
  `Problem` kinds, one per message.

## Findings

| source | as written | input that shows it | evidently intended | confidence | as-written member | corrected member |
|---|---|---|---|---|---|---|
| src/component/signUpComponent.tsx:97-99 | the birth date is compared with `null`, which a string state never is, so an empty birth date is never reported and the form is sent without one | the form `member01` / `pass!1` / `Kim` / `kim@mail.com` / `010-1234-5678` / `MALE` / `Seoul` with an empty birth date | an empty birth date is an error, as in the later revision (src/component/member/SignUpComponent.tsx:70) | high; not executed | SignUpLegacy.EmptyBirthAccepted | SignUp.EmptyBirthRefused |
