# QuickChat core in Dafny

QuickChat is a chat application: an Express + socket.io server over three
MongoDB collections (users, direct messages, groups with embedded messages),
and a React client with a reconciliation store, a WebRTC video call and a few
forms. This project models the state-update rules of both halves:

- **server** (`Realtime`, `Records`, `MessageController`, `GroupController`,
  `UserController`): the presence registry `userSocketMap` with its online
  broadcast, the group rooms, the four call-signalling relays, and the
  request handlers, each over an in-memory `Database` whose collections are
  sequences in insertion order;
- **client** (`ChatContext`, `VideoCall`, `Sidebar`, `ChatContainer`,
  `CreateGroupPage`, `LoginPage`): `normalizeMessage` and the message and
  unseen-count maps of the chat store, the call session with its ICE
  candidate queue, the user search and selection, the send guards and
  message authorship, the member toggle, and the two-step sign-up form.

Components whose fields the source updates in place are classes (`Hub`,
`Database`, `ChatStore`, `CallSession`, `Composer`, `LoginForm`); the pure
parts (the normalisation fallback chain, React updater functions such as
`prev => ({...prev, [key]: ...})`, filters and validations) are functions.
Remote outcomes are parameters: an upload's result (`Upload`), the outcome of
`getUserMedia` (`MediaOutcome`), whether the peer accepts an ICE candidate
(`addOk`), bcrypt's `hash` and `compare`, the JWT signer `token`, fresh ids
and `Date.now()`. A JavaScript string that may be missing is `""` where the
source only tests it for truthiness, and an `Option` where absence is
observable.

Both copies of the client store (`client/src/context/ChatContext.jsx` and the
older `client/context/ChatContext.jsx`) normalise and file messages the same
way apart from comments, so one `ChatContext` module models both; rows below
cite the newer copy and give the older copy's lines.

## Model

| member | source | states |
|---|---|---|
| Common.FirstNonEmpty | client/src/context/ChatContext.jsx:19-23 | the JavaScript or-chain over strings ending in a fallback: the first non-empty operand after only empty ones, else the fallback, never empty when the fallback is not |
| Common.Without | server/controllers/groupController.js:131 | `$pull` and `filter(x => x !== v)`: no occurrence of the value is left, every other value keeps its number of occurrences, and nothing changes when the value is absent |
| Common.WithoutAppend | server/controllers/groupController.js:131 | filtering a concatenation is concatenating the filtered parts, so the remaining values keep their order |
| Text.Trim | client/src/components/ChatContainer.jsx:22 | `trim()`: the input's slice left after dropping an all-white-space prefix and an all-white-space suffix; empty exactly when the input is all white space, otherwise starting and ending with a non-space |
| Text.ToLower | client/src/components/Sidebar.jsx:27 | `toLowerCase()`: same length, each position the lower-case form of the input's character (ASCII letters only) |
| Text.ToLowerIdempotent | client/src/components/Sidebar.jsx:27 | lower-casing an already lower-cased string changes nothing, so lower-casing both sides of the search once is enough |
| Text.Contains | client/src/components/Sidebar.jsx:27 | `includes`: true exactly when the needle occurs at some position |
| Text.StartsWith | client/src/components/ChatContainer.jsx:35 | `startsWith`: true exactly when the string is the prefix followed by something |
| Realtime.Hub.Connect | server/server.js:25-32 | a non-empty handshake id maps to the new connection, overwriting an earlier one, other entries unchanged; an empty one leaves the registry alone; either way one broadcast to every live connection of exactly the registry's key set, which equals the `Online` set of the event history; rooms untouched |
| Realtime.Hub.Disconnect | server/server.js:35-39 | the closing connection's handshake id is deleted from the registry whatever connection it now maps to; the connection leaves every room; one broadcast of the new key set |
| Realtime.OnlineIff | server/server.js:29-38 | an identity is reported online exactly when it is non-empty and some connect for it has been followed by no disconnect of any connection carrying it |
| Realtime.StaleDisconnectUnregistersLive | server/server.js:35-38 | two connections for one identity, then the older closes: the newer is live but the identity is unregistered and the broadcast lists no one |
| Realtime.Hub.JoinGroup | server/server.js:48-51 | the connection is added to that room as a set insertion (joining twice is joining once); other rooms unchanged |
| Realtime.Hub.LeaveGroup | server/server.js:53-56 | the connection is removed from that room (a no-op when absent); other rooms unchanged |
| Realtime.InRoomIff | server/server.js:48-56 | a room holds exactly the connections that joined it and neither left it nor disconnected since |
| Realtime.Hub.Relay | server/server.js:65-97 | call-user, answer-call, ice-candidate and end-call: one delivery to the target's registered connection, renamed to incoming-call, call-accepted, ice-candidate or call-ended, carrying the sender's handshake id and the payload unchanged, none when the target is unregistered; only the emitted log may change |
| Realtime.Hub.SocketOf | server/server.js:66-67 | the target lookup finds a live connection registered for that identity exactly when the identity is registered |
| Realtime.Hub.EmitTo | server/controllers/messageController.js:99 | `io.to(socketId).emit`: exactly one delivery, to that connection, is appended to the emitted log |
| Realtime.Hub.EmitToRoom | server/controllers/groupController.js:85 | `io.to(groupId).emit`: exactly one delivery, to the connections in that room at that moment, is appended to the emitted log |
| Records.FirstIndex | server/controllers/groupController.js:61 | the first document a query with that filter finds: the first element satisfying it, None exactly when none does |
| Records.FindGroup | server/controllers/groupController.js:61 | `findById` finds the first group with that id, and None exactly when no group has it |
| Records.FindUserByEmail | server/controllers/userController.js:17 | `findOne({email})` finds the first user with that email, None exactly when there is none |
| Records.FindUserById | server/controllers/userController.js:94-108 | the user with that id, None exactly when there is none |
| Records.StoredImage | server/controllers/messageController.js:82-86 | an image URL is stored exactly when an image was sent and its upload succeeded, and it is the upload's secure URL |
| MessageController.OtherUsers | server/controllers/messageController.js:11 | the query's filter keeps exactly the users other than the requester |
| MessageController.Publics | server/controllers/messageController.js:11 | `select("-password")`: each found user, in order, as a record that has no password field |
| MessageController.SidebarIdsAreOthers | server/controllers/messageController.js:11 | the sidebar lists, by id, exactly the stored users other than the requester |
| MessageController.UnseenCount | server/controllers/messageController.js:16 | the count is positive exactly when some unseen message goes from that sender to that receiver, and never exceeds the number of messages |
| MessageController.UnseenCountAppend | server/controllers/messageController.js:16-19 | the count of two collections together is the sum of their counts, so each matching message counts exactly once |
| MessageController.GetUsersForSidebar | server/controllers/messageController.js:8-29 | the other users without their password hashes, and an unseen map with a key exactly for each listed user who has sent the requester unseen messages, holding their number |
| MessageController.Conversation | server/controllers/messageController.js:39-44 | exactly the messages between the two users, in either direction |
| MessageController.MarkSeen | server/controllers/messageController.js:47-51 | every message from the selected user to the requester is marked seen, every other message unchanged |
| MessageController.NothingUnseenAfterMarkSeen | server/controllers/messageController.js:47-51 | after the update nothing from the selected user to the requester is unseen |
| MessageController.MarkSeenKeepsOtherCounts | server/controllers/messageController.js:47-51 | the update changes no other pair's unseen count, the reverse direction included |
| MessageController.GetMessages | server/controllers/messageController.js:33-60 | the returned conversation is the one read before the update (old seen flags); the store afterwards is the marked one |
| MessageController.SetSeen | server/controllers/messageController.js:65-67 | exactly the messages with that id become seen |
| MessageController.SetSeenIdempotent | server/controllers/messageController.js:65-67 | marking a message seen a second time changes nothing |
| MessageController.MarkMessageAsSeen | server/controllers/messageController.js:63-72 | marks that id only and answers success whether or not a message has it |
| MessageController.SendMessage | server/controllers/messageController.js:76-109 | a failed upload stores and pushes nothing; otherwise exactly one unseen message from the requester to the route's user is appended, and pushed as `newMessage` to the receiver's connection exactly when the receiver is registered |
| GroupController.WithAdmin | server/controllers/groupController.js:19-21 | when absent, the creator is pushed onto the end of the member list as given; when present, the list is unchanged |
| GroupController.HasGroupDetails | server/controllers/groupController.js:14-15 | the details check fails exactly when the name is missing, the member list is missing, or the list is empty |
| GroupController.CreateGroup | server/controllers/groupController.js:9-34 | a missing name or missing or empty member list fails with "Missing group details" and creates nothing; otherwise one group with the creator as admin and member, no messages and the default picture is added |
| GroupController.MemberOf | server/controllers/groupController.js:42 | exactly the groups whose members include the requester |
| GroupController.InsertNewestFirst | server/controllers/groupController.js:43 | inserting into a newest-first list keeps it newest first and adds exactly that group |
| GroupController.SortNewestFirst | server/controllers/groupController.js:43 | the result is newest first and a permutation of the input |
| GroupController.MyGroups | server/controllers/groupController.js:39-51 | exactly the groups containing the requester, each as often as stored, newest `createdAt` first |
| GroupController.CreatedGroupIsMine | server/controllers/groupController.js:19-27 | a group just created is among its creator's groups |
| GroupController.SendGroupMessage | server/controllers/groupController.js:55-99 | "Group not found" and a failed upload change nothing; otherwise one message from the requester is appended to that group only and pushed to whoever is in the room named by the group id; membership is not checked |
| GroupController.GetGroupMessages | server/controllers/groupController.js:104-120 | the stored messages of a group with that id, or "Group not found" exactly when none has it |
| GroupController.SentMessageIsLast | server/controllers/groupController.js:80-82 | after a send, the group's history is the earlier history followed by the new message |
| GroupController.ExitGroup | server/controllers/groupController.js:124-144 | every occurrence of the requester is pulled from that group's members, nothing else changes; "Group not found" for an unknown id |
| GroupController.ExitedGroupIsNotMine | server/controllers/groupController.js:129-137 | after exiting, the group is not among the requester's groups and every other member stays |
| GroupController.DeleteGroup | server/controllers/groupController.js:148-173 | checks in order "Group not found", "Group admin not set", "Not authorized"; only an admin's request removes the group, and only that one |
| GroupController.Updated | server/controllers/groupController.js:199-200 | the name changes only to a non-empty one, the picture only to an upload URL, and nothing else changes |
| GroupController.EmptyUpdateChangesNothing | server/controllers/groupController.js:199-200 | an update with no name and no upload leaves the group as it was |
| GroupController.UpdateGroup | server/controllers/groupController.js:177-209 | "Group not found"; a group without admin fails on reading it; "Not authorized" unless admin; a failed upload changes nothing; otherwise only that group is replaced by its update |
| UserController.HasDetails | server/controllers/userController.js:12-13 | the details check fails exactly when one of the four fields is missing |
| UserController.Signup | server/controllers/userController.js:7-40 | "Missing Details", then "Account already exists", both creating nothing; otherwise one user storing the hash of the password and the default picture is added and the token is for its id |
| UserController.Login | server/controllers/userController.js:43-70 | "User not found" for an unknown email, "Invalid credentials" when the compare fails; a session exactly when the first user with that email passes the compare, with the token for that user's id |
| UserController.SignupThenLogin | server/controllers/userController.js:25-65 | with a compare that accepts the hash of the password, the account signup creates logs in with that password and gets the new id's token |
| UserController.Patched | server/controllers/userController.js:94-108 | only picture, bio and name change, each only when given |
| UserController.UpdateProfile | server/controllers/userController.js:79-128 | a failed picture upload answers "Image upload failed" and changes nothing; without a picture only bio and name change; an unknown requester gets success with no user |
| ChatContext.Normalize | client/src/context/ChatContext.jsx:18-37 | sender id is the first non-empty of senderId, sender._id, sender.id, userId, else "unknown_sender", never empty; a group message's group is groupId, else receiverId, else "unknown_group", a direct one has none; missing id, image and date take their defaults; the older copy has the same code at lines 17-36 |
| ChatContext.NormalizeAll | client/src/context/ChatContext.jsx:62-64 | each fetched message normalised, in order |
| ChatContext.IncomingKey | client/src/context/ChatContext.jsx:107 | the group id for a group message and the sender id for a direct one, missing exactly when that id is missing (older copy: client/context/ChatContext.jsx:106) |
| ChatContext.IncomingKeyNeverEmpty | client/src/context/ChatContext.jsx:107-108 | the key under which an incoming message is filed is never empty, so the `!key` guard never returns |
| ChatContext.DirectIdAlwaysTruthy | client/src/context/ChatContext.jsx:117-119 | with a running clock every direct message has a truthy id, so each one triggers a mark-seen request |
| ChatContext.Appended | client/src/context/ChatContext.jsx:111-114 | the message goes at the end of its conversation, every other conversation unchanged |
| ChatContext.Bumped | client/src/context/ChatContext.jsx:123-126 | that key's counter goes up by one from absent or 0 to 1, every other counter unchanged |
| ChatContext.BumpedTimes | client/src/context/ChatContext.jsx:123-126 | n incoming messages raise that counter by n and no other |
| ChatContext.ChatStore.GetMessages | client/src/context/ChatContext.jsx:53-70 | a successful fetch replaces the conversation under the chat id by the normalised result, every other conversation unchanged; otherwise nothing changes; the older copy has the same code at lines 52-69 |
| ChatContext.ChatStore.SendMessage | client/src/context/ChatContext.jsx:73-100 | nothing without a receiver or on failure; otherwise the server's copy with sender forced to the signed-in user is appended to the receiver's conversation; the older copy has the same code at lines 72-99 |
| ChatContext.ChatStore.HandleIncomingMessage | client/src/context/ChatContext.jsx:103-128 | a null message is ignored; otherwise appended under its group or sender, a mark-seen request for every direct message with a truthy id, and the counter raised exactly when that chat is not the selected one; the older copy has the same code at lines 102-127 |
| VideoCall.CallSession.OnIncomingCall | client/src/context/ChatContext.jsx:136-138 | the call becomes incoming from that user with that offer |
| VideoCall.CallSession.OnCallAccepted | client/src/components/VideoCall.jsx:148-153 | the call becomes accepted (ChatContext.jsx:140-142); with a peer, it takes the answer as remote description and the queue is flushed into it; without one the peer side is untouched |
| VideoCall.CallSession.OnCallEnded | client/src/components/VideoCall.jsx:172-175 | the session ends with nothing left: no peer, stream, queue or call, not in a call (ChatContext.jsx:150-153 clears the call) |
| VideoCall.Kept | client/src/components/VideoCall.jsx:76-84 | the candidates the peer accepts, in queue order, never more than were queued |
| VideoCall.KeptMembers | client/src/components/VideoCall.jsx:76-84 | a candidate is applied by the flush exactly when it was queued and the peer accepts it |
| VideoCall.KeptSnoc | client/src/components/VideoCall.jsx:76-84 | one more queued candidate is applied after all earlier ones, if the peer accepts it |
| VideoCall.KeptAppend | client/src/components/VideoCall.jsx:76-84 | flushing a queue in two parts applies what flushing it at once does |
| VideoCall.KeptAll | client/src/components/VideoCall.jsx:76-84 | when every candidate is accepted, all are applied in queue order |
| VideoCall.CallSession.FlushQueuedCandidates | client/src/components/VideoCall.jsx:71-87 | a ready peer (with a remote description) gets every queued candidate it accepts, in order, and the queue is emptied; otherwise nothing changes |
| VideoCall.CallSession.OnRemoteCandidate | client/src/components/VideoCall.jsx:155-170 | a ready peer is offered the candidate at once; otherwise it joins the end of the queue |
| VideoCall.CallSession.OnLocalCandidate | client/src/components/VideoCall.jsx:58-65 | a local candidate is sent to the peer's remote user when it has one, else nothing is sent |
| VideoCall.CallSession.StartCall | client/src/components/VideoCall.jsx:90-100 | nothing without a target or when media is denied; otherwise a peer for the target holding the offer, call-user with the offer to the target, and in a call |
| VideoCall.CallSession.AcceptCall | client/src/components/VideoCall.jsx:103-115 | media denied changes nothing; otherwise the held offer is the remote description, answer-call to the caller, in a call, then the queue is flushed |
| VideoCall.CallSession.DeclineCall | client/src/components/VideoCall.jsx:118-121 | end-call to the caller, then the session ends |
| VideoCall.CallSession.EndCall | client/src/components/VideoCall.jsx:124-138 | no peer, stream, queue or call and not in a call, from any state, so a second call changes nothing |
| VideoCall.QueuedCandidatesSurviveAnswer | client/src/components/VideoCall.jsx:148-168 | candidates arriving before the answer are applied, in arrival order, once it comes |
| Sidebar.MatchingUsers | client/src/components/Sidebar.jsx:26-28 | the users the filter keeps, in list order, never more than the list |
| Sidebar.MatchingMembers | client/src/components/Sidebar.jsx:26-28 | a user is kept exactly when listed and their lower-cased name contains the lower-cased input |
| Sidebar.MatchingCons | client/src/components/Sidebar.jsx:26-28 | the filter looks at the first user, then filters the rest |
| Sidebar.MatchingAppend | client/src/components/Sidebar.jsx:26-28 | filtering a concatenation concatenates the filtered parts |
| Sidebar.FilteredUsers | client/src/components/Sidebar.jsx:25-29 | an empty search lists every user unchanged; any other lists exactly the matching ones |
| Sidebar.FilterKeepsOrder | client/src/components/Sidebar.jsx:25-29 | filtering keeps list order: the filter of a concatenation is the concatenation of the filters |
| Sidebar.SearchIgnoresCase | client/src/components/Sidebar.jsx:27 | a search and its lower-cased form list the same users |
| Sidebar.SelectUser | client/src/components/Sidebar.jsx:177-180 | the user becomes the selected chat and only their counter is reset to 0 |
| Sidebar.SelectGroup | client/src/components/Sidebar.jsx:136 | the group becomes the selected chat; counters untouched |
| Sidebar.ShowsBadge | client/src/components/Sidebar.jsx:206 | the badge shows exactly when the user's counter is positive |
| Sidebar.BadgeRaisedThenCleared | client/src/components/Sidebar.jsx:177-206 | an incoming message raises the badge and selecting the user clears it |
| Sidebar.HandleDeleteGroup | client/src/components/Sidebar.jsx:33-59 | no token in context or storage sends nothing, nor does a refusal to confirm; otherwise one request with the first available token, and success deselects whatever chat was open |
| ChatContainer.ChatMessages | client/src/components/ChatContainer.jsx:17-18 | the selected chat's conversation, empty when none is selected or it has no entry |
| ChatContainer.IncomingShowsInOpenChat | client/src/components/ChatContainer.jsx:17-18 | a message filed under the open chat shows last in it; one filed elsewhere does not change it |
| ChatContainer.PrepareSend | client/src/components/ChatContainer.jsx:22-28 | nothing when the trimmed input is empty or no chat is open; otherwise the trimmed text to the open chat with its type |
| ChatContainer.Composer.HandleSendMessage | client/src/components/ChatContainer.jsx:20-30 | a guarded-out send changes nothing; otherwise the store's send runs and the input is cleared |
| ChatContainer.PrepareImage | client/src/components/ChatContainer.jsx:32-49 | nothing without a chat; a file whose type does not start with "image/" is refused with "Select a valid image file"; otherwise its data URL goes to the open chat |
| ChatContainer.Author | client/src/components/ChatContainer.jsx:115 | `senderId` when present, otherwise `sender._id` when present, otherwise no author |
| ChatContainer.IsMine | client/src/components/ChatContainer.jsx:116 | with a `senderId`, mine exactly when it is the signed-in user; when signed out, mine exactly when the message has no author, as `undefined === undefined` is |
| ChatContainer.MineIffSender | client/src/components/ChatContainer.jsx:115-116 | a stored message is mine exactly when its normalised sender is the signed-in user, and never when signed out |
| ChatContainer.SentMessageIsMine | client/src/components/ChatContainer.jsx:115-116 | a message appended after a send shows as the sender's own |
| ChatContainer.HandleStartCall | client/src/components/ChatContainer.jsx:51-56 | no target changes nothing; otherwise the call becomes outgoing to the target |
| ChatContainer.CallFromChat | client/src/components/ChatContainer.jsx:51-56 | the call button with media granted sends exactly one call-user with the offer to the chosen user and the session is in a call |
| CreateGroupPage.Toggle | client/src/pages/CreateGroup.jsx:21-27 | a selected id is removed, every occurrence; an unselected one is appended at the end |
| CreateGroupPage.ToggleKeepsDistinct | client/src/pages/CreateGroup.jsx:21-27 | a selection without repeats keeps none |
| CreateGroupPage.ToggleTwiceRestoresAbsent | client/src/pages/CreateGroup.jsx:21-27 | toggling an unselected id twice gives back the same list |
| CreateGroupPage.ToggleTwiceRestoresMembers | client/src/pages/CreateGroup.jsx:21-27 | toggling a selected id twice gives back the same members, with that id moved to the end |
| CreateGroupPage.ToggleTwiceReorders | client/src/pages/CreateGroup.jsx:21-27 | a selection whose order a double toggle does not restore |
| CreateGroupPage.CreateGroupRequest | client/src/pages/CreateGroup.jsx:29-43 | "Group name is required" for a blank name, then "Select at least one member"; otherwise the untrimmed name and the selection as they are |
| CreateGroupPage.ClientCheckImpliesServerCheck | client/src/pages/CreateGroup.jsx:31-41 | every request the form sends passes the server's "Missing group details" check; a name of spaces passes the server but not the form |
| LoginPage.Action | client/src/pages/LoginPage.jsx:23 | "signup" exactly in Sign up mode, "login" exactly in Login mode |
| LoginPage.LoginForm.constructor | client/src/pages/LoginPage.jsx:6-11 | Login mode, nothing submitted, empty fields |
| LoginPage.LoginForm.Change | client/src/pages/LoginPage.jsx:59-92 | each of the four `onChange` handlers sets its own field to the typed value and leaves the other three as they were |
| LoginPage.LoginForm.Submit | client/src/pages/LoginPage.jsx:15-29 | the first Sign up submit only moves to the bio step; every other submit makes one call with the mode's action and all four fields |
| LoginPage.LoginForm.BackArrow | client/src/pages/LoginPage.jsx:49 | back to the first step |
| LoginPage.LoginForm.SwitchMode | client/src/pages/LoginPage.jsx:118-128 | the mode changes and the step does not |
| LoginPage.SignUpTakesTwoSubmits | client/src/pages/LoginPage.jsx:15-29 | signing up takes two submits, and only the second makes one "signup" call with the four values |
| LoginPage.SwitchAfterFirstStepLogsInAtOnce | client/src/pages/LoginPage.jsx:18-128 | switching to Login after the first sign-up step keeps the step, so the next submit logs in at once |

## Left out

- Stored ids are assumed unique, as MongoDB's `_id` is. The fresh `newId` that `SendMessage`, `CreateGroup` and `Signup` take is a parameter with no freshness requirement, so a caller could reuse an id. `SetSeen`, which marks every message with that id where `findByIdAndUpdate` marks one document, agrees with the source only when ids are unique.
- Transport: socket.io connection handling, the three separate `connection` registrations (one dispatcher here), listener registration and removal (`VideoCall.jsx:177-182` also removes the store's call listeners), HTTP, localStorage and toasts. Each handler is modelled as one atomic step; interleavings of the awaits inside a handler are not modelled.
- MongoDB and Mongoose: queries are functions over in-memory sequences; schema validation is not modelled (the `minlength` on `password` applies to the stored hash), nor `populate`, the `timestamps` fields other than `createdAt`, ObjectId casting errors, or the order of documents with equal `createdAt` (the sort is a permutation ordered newest first; Mongo's tie order is not captured).
- MessageController.MarkMessageAsSeen: a malformed id (such as a clock reading used as a local id) makes Mongoose throw a cast error and the handler answer failure; ids are opaque strings here, so that path is not modelled.
- getGroupMembers (`groupController.js:213-230`) and the `checkAuth` handler: a lookup plus `populate`, not modelled.
- Cloudinary, bcrypt and JWT: their results are parameters (`Upload`, `hash`, `compare`, `token`); the failure of `hash` or `token` is not modelled.
- WebRTC: the peer connection is a record of its remote user, its descriptions and the candidates it accepted; tracks, `close()`, `stop()`, STUN and the video elements are not modelled. `getUserMedia` is the `MediaOutcome` parameter.
- VideoCall.CallSession.AcceptCall and VideoCall.CallSession.DeclineCall: require an incoming call, since the component offers those buttons only then; with another `call` value the source would read `call.from` of a non-incoming call.
- ChatContext.ChatStore.HandleIncomingMessage: the `if (!key) return` guard is not in the method, because `ChatContext.IncomingKeyNeverEmpty` proves it never fires.
- ChatContext.DirectIdAlwaysTruthy: requires a positive clock reading; `Date.now()` is 0 only at the epoch.
- The `ice-candidate` handler of the store, which re-dispatches the event as a DOM event (`ChatContext.jsx:144-148`), is not modelled; the component's own handler is.
- The auto-start effect (`VideoCall.jsx:186-191`) is `ChatContainer.CallFromChat` calling `StartCall` after `HandleStartCall`; React's effect scheduling is not modelled.
- The selection compares only the selected chat's id with the message's key, not its type, in `HandleIncomingMessage`, as the source does.
- `Sidebar.jsx` imports the older store copy by a differently cased path; which copy a build picks is not modelled.
- CreateGroupPage.ToggleTwiceRestoresAbsent: toggling the same id twice restores the list only when the id was not selected; for a selected id only the members are restored (`ToggleTwiceRestoresMembers`), and `ToggleTwiceReorders` shows the order can change.
- `getUsers`, `getGroups` and the navigation after create or delete are refreshes over HTTP, not modelled.
- Letter case: `toLowerCase` is modelled on ASCII letters only.
- LoginPage.LoginForm.Submit: the browser's form validation (the `required` inputs and `type="email"`, LoginPage.jsx:64-97) is not modelled; in the browser a submit with an empty visible field never reaches the handler.
- ChatContext.NormalizeAll: one clock reading serves the whole fetched batch, while the source calls `Date.now()` once per message, so messages without an `_id` in one fetch may get different local ids there.
- RightSidebar, ProfilePage, App, HomePage, AuthContext, the routes and the auth middleware are not part of this model.
