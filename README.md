# Messaging client stores, modelled in Dafny

This project models the client-side state logic of a small messaging app, together with proofs about it. The app keeps its state in zustand stores that read and write Supabase tables.

- **Relationship engine.** Friend requests move from pending to accepted or declined. Accepting creates a friendship. The engine also covers unfriending, blocking and unblocking, the derived friend list, and the pending inbox and outbox.
- **Conversation store.** It covers chat creation with its participant rows, the user's chat list, the message list of a chat, sending text or image messages, and adding and removing reactions.
- **Identity store, in two versions.**
  - Sign-in checks the passcode against a stored digest.
  - Registration checks that the username is free.
  - Sign-out, the status text and the online flag complete the store.
  - The later version reads list results where the first asked for exactly one row.
- **Login form.** Its submit handler validates the two fields, dispatches to the identity store and reports the outcome; a link toggles the mode.
- **Conversation screen, in two versions.** It lays out message bubbles (whose bubble is whose, which one shows an avatar) and runs the composer: text, emoji picker, Enter to send.

The remote tables are in-memory sequences of records in `Remote.Database`. That class also holds the next row id and the current time. Each store action runs to completion as one sequential step.

Whether a remote call fails is an explicit boolean parameter of the action, so every error path is modelled. An insert whose row is read back with `.select().single()` takes an `InsertReply` instead: the insert is refused, the row is stored but not handed back (the call then fails), or the row is stored and handed back.

The signed-in user id, which the stores read from browser storage, is an `Option<Id>` parameter. Passcode hashing and checking are the function parameters `hash` and `verify`.

The files and what each models:

- `types.dfy` holds the records and enumerations of `project/src/types/index.ts`.
- `seqs.dfy` holds filtering.
- `ordering.dfy` holds `.order(...)`, as an insertion sort by an integer key.
- `remote.dfy` holds the tables and the single-row lookups.
- `text.dfy` holds JavaScript's `trim`.
- `friend_store.dfy`, `chat_store.dfy`, `auth_store.dfy` and `auth_store_patched.dfy` hold the stores.
- `login_form.dfy`, `chat_window.dfy` and `chat_window_patched.dfy` hold the two screens.

Some behaviour is modelled as the code does it, not as one might expect:

- The duplicate check of a friend request blocks on a request of any status.
- Accepting a request does not check that it is still pending.
- A failure between the two writes of an accept, or of a chat creation, leaves the first write in place.
- Reactions are not de-duplicated.
- The first conversation screen clears the composer even when the insert failed.

## Model

| member | source | states |
|---|---|---|
| FriendStore.ProfileById | project/src/store/friendStore.ts:36-37 | the foreign-key join yields a profile only for that id and only one present in the users table, and yields nothing exactly when no user has that id |
| FriendStore.FriendsOf | project/src/store/friendStore.ts:39-45 | a user is a friend exactly when some friendship row touching `u` joins to that user as its other endpoint; rows whose joined user is missing are dropped, so there are never more friends than rows; each user appears exactly as often as there are touching rows joining to them, so a pair stored twice lists the friend twice |
| FriendStore.Incoming | project/src/store/friendStore.ts:56-63 | the inbox holds exactly the pending requests received by `u` |
| FriendStore.Outgoing | project/src/store/friendStore.ts:65-72 | the outbox holds exactly the pending requests sent by `u` |
| FriendStore.FriendStore.FetchFriends | project/src/store/friendStore.ts:29-52 | the friend list becomes `FriendsOf` the tables, or stays as it was on a query error; loading ends either way; the other lists are untouched |
| FriendStore.FriendStore.FetchFriendRequests | project/src/store/friendStore.ts:54-83 | both lists are replaced by the inbox and outbox when both queries succeed, and neither is replaced otherwise |
| FriendStore.ResolveUsername | project/src/store/friendStore.ts:91-97 | the username lookup yields an id exactly when exactly one user has that exact name, and the id is that user's |
| FriendStore.AtMostOneBetween | project/src/store/friendStore.ts:103-107 | while at most one request row exists per unordered pair, the duplicate query returns at most one row |
| FriendStore.DuplicateCheckAnyStatus | project/src/store/friendStore.ts:103-109 | under that invariant a successful duplicate check blocks exactly when a request of any status exists between the pair, in either direction; `Connects` is the `.or` filter of both orientations, and `DuplicateFound` reads the result only when the query succeeded with exactly one row |
| FriendStore.AppendKeepsOneRequestPerPair | project/src/store/friendStore.ts:111-117 | inserting a request for a pair with no row keeps one row per pair |
| FriendStore.FriendStore.SendFriendRequest | project/src/store/friendStore.ts:85-124 | succeeds exactly when there is a current user, the name resolves, the duplicate check does not block and the insert succeeds; on failure no table changes; on success exactly one pending row from the current user to the target is appended, and one row per pair is preserved whenever the check ran; the check is `DuplicateFound` over the rows that `Connects` the pair |
| FriendStore.SetStatus | project/src/store/friendStore.ts:147-150 | a status update gives each row with that id the new status, every other field of it unchanged, and leaves every other row as it was |
| FriendStore.SetStatusKeepsOneRequestPerPair | project/src/store/friendStore.ts:147-150 | accepting or declining keeps one request row per pair |
| FriendStore.RequestsWithId | project/src/store/friendStore.ts:128-132 | the lookup by id returns exactly the rows with that id |
| FriendStore.FriendStore.AcceptFriendRequest | project/src/store/friendStore.ts:126-161 | an unknown id or a lookup or insert error changes nothing; otherwise a friendship (sender, receiver) is appended first and the status then becomes accepted unless the update fails, with no check that the request was pending |
| FriendStore.WithoutRequest | project/src/store/friendStore.ts:172 | the cached inbox loses exactly the entries carrying the id |
| FriendStore.RemoveOneKeepsOrder | project/src/store/friendStore.ts:170-173 | removing a declined request keeps the other entries in their order |
| FriendStore.FriendStore.DeclineFriendRequest | project/src/store/friendStore.ts:163-178 | on success the request becomes declined and leaves the cached inbox; on error nothing changes |
| FriendStore.WithoutPair | project/src/store/friendStore.ts:184-187 | the delete removes exactly the friendship rows of the pair, in both orientations |
| FriendStore.WithoutUser | project/src/store/friendStore.ts:191 | a cached user list loses exactly the entries carrying the id |
| FriendStore.RemoveFriendIdempotent | project/src/store/friendStore.ts:180-197 | removing a friend twice equals removing them once, on the table and on the cached list |
| FriendStore.FriendStore.RemoveFriend | project/src/store/friendStore.ts:180-197 | on success the pair's friendship rows are deleted and the friend leaves the cached list; on error nothing changes |
| FriendStore.FriendStore.BlockUser | project/src/store/friendStore.ts:199-217 | a block row is appended, and only if that insert succeeded is the friendship removed as by `RemoveFriend`; the cached block list is untouched |
| FriendStore.WithoutBlock | project/src/store/friendStore.ts:223-227 | the delete removes exactly the rows in which the blocker blocks the blocked user |
| FriendStore.FriendStore.UnblockUser | project/src/store/friendStore.ts:219-237 | on success only the current user's block of `userId` is deleted and `userId` leaves the cached block list |
| FriendStore.FriendStore.SearchUsers | project/src/store/friendStore.ts:239-253 | returns the first ten users (at most) whose name is exactly the query, in table order, and nothing on a query error |
| ChatStore.ChatIdsOf | project/src/store/chatStore.ts:29-41 | the chat ids are exactly those of the user's participant rows |
| ChatStore.ChatsFor | project/src/store/chatStore.ts:41-47 | the chat list is newest first by `updated_at`, a permutation of the chats whose id is among the user's participant rows |
| ChatStore.NoParticipationNoChats | project/src/store/chatStore.ts:36-39 | a user with no participant rows gets the empty list, as the general query would give |
| ChatStore.ChatStore.FetchChats | project/src/store/chatStore.ts:25-56 | the list becomes `ChatsFor` the tables (empty without participant rows) or stays as it was on an error; loading ends on every path |
| ChatStore.CreatorOf | project/src/store/chatStore.ts:65 | the creator is recorded exactly when the participant list is non-empty |
| ChatStore.StoredName | project/src/store/chatStore.ts:63 | a direct chat stores no name and a group chat stores the given one |
| ChatStore.ParticipantRows | project/src/store/chatStore.ts:73-77 | one participant row per id, in order, all for the new chat and joined now; exactly the row at index 0 is an admin |
| ChatStore.CreatorIsSoleAdmin | project/src/store/chatStore.ts:73-77 | the admins among the new rows are exactly the first participant, who is also the recorded creator |
| ChatStore.ChatStore.CreateChat | project/src/store/chatStore.ts:58-90 | returns the new chat's id only when the chat row came back and the participant rows were inserted; a refused chat insert changes nothing; a stored chat row stays even when the call then fails |
| ChatStore.ChatStore.SetCurrentChat | project/src/store/chatStore.ts:92-94 | the current chat is set and the message list emptied |
| ChatStore.MessagesIn | project/src/store/chatStore.ts:109-110 | only messages of the chat, oldest first, a permutation of that chat's rows |
| ChatStore.ChatStore.FetchMessages | project/src/store/chatStore.ts:96-117 | the message list becomes `MessagesIn` the table, or stays as it was on an error |
| ChatStore.Compose | project/src/store/chatStore.ts:128-134 | a text message carries the content in `content` only, an image message in `image_url` only, and the stored type is the argument's |
| ChatStore.ChatStore.SendMessage | project/src/store/chatStore.ts:119-149 | without a current user nothing changes; otherwise one message row is stored and, when handed back, appended to the end of the list with earlier entries unchanged; stored messages stay well formed |
| ChatStore.WithoutReaction | project/src/store/chatStore.ts:179-184 | the delete removes exactly the rows matching message, user and emoji |
| ChatStore.AddReactionAddsRow | project/src/store/chatStore.ts:155-161 | adding a reaction always adds one row for the triple, even when one exists |
| ChatStore.RemoveReactionClearsTriple | project/src/store/chatStore.ts:179-184 | after removal no row of the triple is left and every other row remains |
| ChatStore.ChatStore.AddReaction | project/src/store/chatStore.ts:151-173 | a successful insert appends one reaction row and refetches the open chat's messages; a refused insert changes nothing |
| ChatStore.ChatStore.RemoveReaction | project/src/store/chatStore.ts:175-195 | a successful delete removes the triple's rows and refetches the open chat's messages; an error changes nothing |
| Remote.Classify | project/src/store/friendStore.ts:91-97 | what `.single()` and `.maybeSingle()` see: no row exactly for an empty result, one row exactly for a one-row result and then that row, and an error otherwise |
| Remote.SingleOfFirst | project/src/store/authStore.ts:28-35 | `.limit(1).single()` yields a row exactly when some row matched, and then the first one |
| AuthStore.SignInRow | project/src/store/authStore.ts:28-38 | the sign-in lookup yields a row exactly when a user has that exact name, and then the first such row |
| AuthStore.SignInAccepts | project/src/store/authStore.ts:40-44 | sign-in accepts exactly the looked-up row, and only when the passcode verifies against its digest |
| AuthStore.SignInRowIsTheUser | project/src/store/authStore.ts:28-33 | with unique usernames the looked-up row is the only row with that name |
| AuthStore.AuthStore.Login | project/src/store/authStore.ts:25-63 | succeeds exactly when the lookup works and `SignInAccepts` gives a row; then the user is that profile flagged online, the session is authenticated and the row is marked online unless that write fails; on failure user, session and tables are unchanged; loading always ends false |
| AuthStore.NewUserRow | project/src/store/authStore.ts:82-88 | a new account row carries the name and the passcode's digest and is online, seen now |
| AuthStore.RegisterKeepsUsernamesUnique | project/src/store/authStore.ts:69-78 | inserting a row whose name the check found free keeps usernames unique |
| AuthStore.RegisterThenSignIn | project/src/store/authStore.ts:65-108 | after registering a free name, signing in with the same passcode accepts exactly the new row |
| AuthStore.AuthStore.Register | project/src/store/authStore.ts:65-108 | a name the check finds taken is refused with no insert, a failed check counts as free; success needs the row handed back and signs in as the new profile; a row stored but not handed back stays; unique usernames are preserved whenever the check ran; loading always ends false |
| AuthStore.AuthStore.Logout | project/src/store/authStore.ts:110-119 | user and session are always cleared; the offline write, which is not awaited and so may never be sent, reaches the table only when someone was signed in and it was sent and did not fail |
| AuthStore.SetPresence | project/src/store/authStore.ts:139-145 | only the user's own row changes, and only in its online flag and last-seen time |
| AuthStore.SetStatusText | project/src/store/authStore.ts:125-128 | only the user's own row changes, and only in its status |
| AuthStore.ProfileUpdatesKeepUsernamesUnique | project/src/store/authStore.ts:121-150 | status and presence updates keep usernames unique |
| AuthStore.AuthStore.UpdateStatus | project/src/store/authStore.ts:121-133 | with no user nothing happens; on success only the status of the user and of their row changes |
| AuthStore.AuthStore.UpdateOnlineStatus | project/src/store/authStore.ts:135-150 | with no user nothing happens; on success only the online flag of the user changes, and the online flag and last-seen time of their row |
| PatchedAuthStore.FirstNamed | src/store/authStore.ts:5-11 | the list lookup returns at most one row; it is empty exactly when the name is free, and otherwise holds the first row with that name |
| PatchedAuthStore.FirstNamedIsSignInRow | src/store/authStore.ts:14-21 | the list lookup is empty exactly when the single-row lookup of the first version yields nothing, and its first row is that row |
| PatchedAuthStore.Login | src/store/authStore.ts:2-46 | a lookup error or an empty list fails; the passcode is checked against the first row only; the contract is that of the first version's `Login`, so both versions behave alike |
| PatchedAuthStore.Returned | src/store/authStore.ts:77-82 | the insert's list is empty exactly when the row was not handed back |
| PatchedAuthStore.Register | src/store/authStore.ts:48-100 | a check error is only logged; an empty insert result fails; on success the first returned row becomes the user; the contract is that of the first version's `Register` |
| Text.Trim | project/src/components/auth/LoginForm.tsx:20 | `trim()` yields a contiguous slice of the input, outside which every character is whitespace and whose own ends are not whitespace |
| Text.BlankIffAllWhitespace | project/src/components/auth/LoginForm.tsx:20 | a field is blank after trimming exactly when it is whitespace only |
| Text.TrimIdempotent | project/src/components/auth/LoginForm.tsx:31 | the trimmed username that is sent is unchanged by trimming again |
| LoginForm.Utf16Length | project/src/components/auth/LoginForm.tsx:25 | `length` counts UTF-16 code units, between one and two per code point |
| LoginForm.Utf16LengthAdds | project/src/components/auth/LoginForm.tsx:25 | `length` adds up over concatenation, with one unit for a code point up to U+FFFF and two above it |
| LoginForm.Validate | project/src/components/auth/LoginForm.tsx:17-32 | rejected exactly when a field is blank or the untrimmed passcode is under 6 units; blankness is reported first; the mode picks sign-in or sign-up; the username goes trimmed and the passcode as typed |
| LoginForm.DispatchedArgumentsAreClean | project/src/components/auth/LoginForm.tsx:20-32 | whatever reaches the store has a non-empty trimmed username and a non-blank passcode of at least 6 units |
| LoginForm.BlankBeforeLength | project/src/components/auth/LoginForm.tsx:20-28 | a whitespace-only passcode is reported as missing, not as too short |
| LoginForm.LengthIsUntrimmed | project/src/components/auth/LoginForm.tsx:25-28 | a concrete instance of `Validate`'s untrimmed-length rule: a passcode padded with spaces to six characters passes although its trimmed form has one |
| LoginForm.AstralCountsTwice | project/src/components/auth/LoginForm.tsx:25 | for any code point above U+FFFF, three of it count as six units and pass the length check, so a sign-up is dispatched |
| LoginForm.Outcome | project/src/components/auth/LoginForm.tsx:34-38 | success gives "Welcome back!" or "Account created successfully!", failure "Invalid credentials" or "Username already exists", by mode |
| LoginForm.Form.Toggle | project/src/components/auth/LoginForm.tsx:143 | the toggle flips the mode |
| LoginForm.Form.HandleSubmit | project/src/components/auth/LoginForm.tsx:17-39 | rejected input shows its message and leaves the store untouched; otherwise the toast reports whether the identity store's call succeeded; a success toast comes with a signed-in user (for sign-in, the accepted row's profile, online; for sign-up, the new row's profile), an error toast with the session as it was; a sign-in success writes the presence update unless it failed, and a sign-up that passes the name check and is not refused stores the row for the trimmed name and the digest of the passcode as typed |
| ChatWindow.AvatarStartsRun | project/src/components/chat/ChatWindow.tsx:100-103 | every message lies in a run of same-sender messages that starts with a bubble showing an avatar |
| ChatWindow.Bubbles | project/src/components/chat/ChatWindow.tsx:95-105 | one bubble per message, in order, with its own-ness (`IsOwn`: the sender is the signed-in user) and avatar flag (`ShowAvatar`: the first message, or one whose sender differs from the previous message's) |
| ChatWindow.AppendKeepsBubbles | project/src/components/chat/ChatWindow.tsx:99-103 | appending a message leaves earlier bubbles unchanged; the new one shows an avatar exactly when its sender differs from the last |
| ChatWindow.Screen | project/src/components/chat/ChatWindow.tsx:53 | nothing is rendered without a current chat |
| ChatWindow.SentTextIsTrimmed | project/src/components/chat/ChatWindow.tsx:34-36 | the text sent is non-empty and trimmed |
| ChatWindow.Composer.HandleSendMessage | project/src/components/chat/ChatWindow.tsx:33-39 | blank text or no chat changes nothing (`WillSend` is the guard); otherwise the trimmed text is sent as a text message and the text is then cleared and the picker closed, even when the insert failed; a message that reaches the list is the sender's own |
| ChatWindow.Composer.ToggleEmojiPicker | project/src/components/chat/ChatWindow.tsx:126 | the smile button flips whether the emoji picker is open |
| ChatWindow.Composer.HandleEmojiSelect | project/src/components/chat/ChatWindow.tsx:41-44 | the emoji is appended at the end of the text, and the picker closes |
| ChatWindow.Composer.HandleKeyPress | project/src/components/chat/ChatWindow.tsx:46-51 | Enter without Shift sends; every other key, and Shift+Enter, changes nothing |
| PatchedChatWindow.Screen | src/components/chat/ChatWindow.tsx:63-69 | without a current chat the loading placeholder is shown; with one, the same bubbles as the first version |
| PatchedChatWindow.Composer.HandleSendMessage | src/components/chat/ChatWindow.tsx:39-49 | a call goes out exactly for non-blank text with a chat open, carrying the chat and the trimmed text; the text is cleared and the picker closed only when the call did not throw |
| PatchedChatWindow.Composer.HandleKeyPress | src/components/chat/ChatWindow.tsx:51-56 | Enter without Shift sends; otherwise no call and no change |
| PatchedChatWindow.Composer.HandleEmojiSelect | src/components/chat/ChatWindow.tsx:58-61 | the emoji is appended at the end of the text, and the picker closes |

## Left out

- Network transport, the Supabase client and query-builder chaining are not modelled. Remote errors are boolean parameters, and each action runs as one atomic step. Interleavings of concurrent actions and check-then-insert races are not modelled.
- Joined columns are not modelled. Sender and receiver profiles on requests, senders and reactions on messages, and column projections such as `select('id, username, ...')` are left out; records carry their full rows.
- Password hashing is abstract: `hash` and `verify` are parameters, and the bcrypt cost factor is not modelled.
- Wall-clock time is the database's `clock`, stamped on new rows; real timestamps and their string format are not modelled. The relative times on screen are not modelled.
- Database column defaults are taken as: no status for a new user, and the current time for `created_at`.
- Reading the current user id from browser storage, and its persistence there, is replaced by an `Option<Id>` parameter. Persistence of the identity store's `user` and `isAuthenticated` is not modelled.
- With no signed-in user, a delete filter naming `undefined` (remove friend, unblock, remove reaction) is taken to match no row, and an insert without a user id (block, add reaction) to be refused. The server's treatment of such malformed filters and rows is not part of this model.
- The refetches after an accept are fire-and-forget and are omitted. The refetches after adding or removing a reaction are a plain call of `FetchMessages`.
- AuthStore.AuthStore.Login: keeps only the profile in `user`. The passcode digest, which the source also copies into the signed-in user, is not kept.
- AuthStore.AuthStore.Register, PatchedAuthStore.Login and PatchedAuthStore.Register: keep only the profile in `user`, in the same way; the returned or looked-up row's passcode digest is not kept.
- ChatStore.ChatsFor and ChatStore.MessagesIn: the order among rows with equal keys is whatever the sort yields; the database promises none, so only order and membership are stated.
- FriendStore.FriendStore.SearchUsers: the result is stated in table order. The query has no `.order(...)`, so the database promises no order; with more than ten matches, which ten come back is likewise not promised.
- The later store with the two-argument `sendMessage`, which the later conversation screen calls, is not part of this model. That screen's send is modelled as the call it makes plus whether the call threw.
- The login form's text inputs, the passcode visibility toggle and the screens' styling hold no logic beyond plain assignment or presentation.
- Scrolling to the newest message, the typing flag and the fetch on mount are not modelled: they are effects of rendering.
