# Anonymous chat room: a Dafny model

This project models the room bookkeeping of a small anonymous chat
application. The application has three parts:

- **The Node.js server (`server.js`).** It keeps an in-memory room: a map from
  Socket.IO connection id to member, a message log and a set of the display
  names that are typing. Five socket handlers update the room: `join`,
  `message`, `file-message`, `typing` and `disconnect`. A daily job drops
  messages older than seven days. `POST /upload` stores a file of at most
  100 MiB and describes it.
- **The offline client (`public/client-chat.js`).** It runs the same room
  inside one browser page, with its own member map, log and typing set. It
  adds a localStorage snapshot that expires after seven days and an hourly
  retention filter.
- **The networked client (`public/app.js`).** It checks input before
  emitting to the server: a trimmed display name of 1 to 20 characters and a
  non-blank message. Its file-size check only decides whether a selected file
  is previewed; the upload itself is refused by the server. It also detects
  static hosting from the host name and port.

Both clients keep an unread counter for messages that arrive while the
message list is scrolled up. Both choose a file icon and a typing-indicator
text with the same code.

The Dafny modules follow that structure:

- `JsString` models the JavaScript string primitives the code relies on: `trim`,
  `startsWith`, `includes`, ASCII `toLowerCase`, the last piece of
  `split('.')`, and the decimal rendering of a count.
- `OrderedSet` models a JavaScript `Set` of names, kept in insertion order
  because the typing text reads the first two names.
- `ChatTypes` holds the records and the limits: 4 members, 100 MiB, 7 days
  and 20 characters.
- `Retention` models the `timestamp > cutoff` filter.
- `Server` is the room as a class whose handler methods return the events
  they emit, each with its audience: self, others or all. It also holds the
  upload pipeline as functions.
- `ClientCommon` holds the logic both clients share.
- `ClientChat` and `App` model the two client classes.

Ids (uuid, `Date.now()` plus `Math.random()`), clocks, the `confirm` dialog,
the stored snapshot and scroll positions are parameters.

## Model

| member | source | states |
|---|---|---|
| `JsString.Trim` | server.js:88 | `trim` removes exactly a whitespace prefix and suffix. The result neither starts nor ends with whitespace, and it is empty exactly when the input is all whitespace. |
| `JsString.TrimIdempotent` | public/app.js:157 | Trimming an already trimmed name changes nothing. |
| `JsString.StartsWith` | public/client-chat.js:253 | `startsWith` holds exactly when the prefix is no longer than the string and matches it character by character from the start. |
| `JsString.Contains` | public/app.js:583 | `includes` never finds a longer text. It finds every prefix of the string, the empty text included. |
| `JsString.Lower` | public/client-chat.js:251 | `toLowerCase` keeps the length and maps each ASCII capital to its small letter, leaving every other character as it is. |
| `JsString.LastSegment` | public/client-chat.js:251 | `split('.').pop()` is the suffix after the last '.', or the whole name when it has no '.'. The suffix contains no '.'. |
| `JsString.NatToString` | public/client-chat.js:370 | `${n}` renders a count as digits with no leading zero. |
| `JsString.ParseNatToString` | public/app.js:428 | Reading the rendered count back gives the count. |
| `OrderedSet.Add` | server.js:144 | `Set.add` puts a new name at the end and leaves a present one in place. It keeps the set free of duplicates. |
| `OrderedSet.Delete` | server.js:146 | `Set.delete` removes the name and keeps the others in order. Deleting an absent name changes nothing. |
| `OrderedSet.DeleteAdded` | server.js:143-147 | A `typing(true)` followed by `typing(false)` restores a set that did not hold the name. |
| `Retention.KeepRecent` | server.js:169-174 | A message is kept exactly when its timestamp is after the cutoff. The result is never longer than the input. Nothing is dropped exactly when every message is recent, and then the log is unchanged. |
| `Retention.KeepRecentAppend` | server.js:185 | The filter distributes over concatenation, so it keeps the order of the messages it keeps. |
| `Retention.KeepRecentPush` | server.js:116 | A message pushed to the log appears at the end of the recent messages if it is newer than the cutoff, and not at all otherwise. |
| `Retention.KeepRecentCompose` | server.js:180-186 | A later daily sweep over an already swept log equals one sweep with the later cutoff. |
| `Retention.KeepRecentIdempotent` | public/client-chat.js:546 | Filtering twice with the same cutoff equals filtering once. |
| `Retention.RecentWithinWeek` | server.js:170-173 | With the cutoff a week before now, a logged message is recent exactly while it is less than seven days old. |
| `Server.Room.constructor` | server.js:24-26 | The room starts with no members, no messages and nobody typing. |
| `Server.Room.RecentMessages` | server.js:169-174 | `getRecentMessages` returns exactly the logged messages newer than the cutoff. |
| `Server.Room.Join` | server.js:80-100 | A full room (4 members) gets only `room-full` to the requester and changes nothing. Otherwise the member, with its name trimmed, is stored under the connection id. A repeated join from the same id replaces the entry, so the room does not grow. The events are `join-success` with the recent messages to self, `user-joined` to others, and `users-update` to all. The room stays at 4 members or fewer. |
| `Server.Room.Post` | server.js:103-136 | Sends from an unknown connection change nothing and emit nothing. Otherwise exactly one message with the sender's id and current name (text or file) is appended after the earlier ones. It is emitted to everyone. |
| `Server.Room.Typing` | server.js:139-150 | Unknown connections are ignored. Otherwise `true` adds and `false` deletes the sender's display name. The new set goes to everyone but the sender. |
| `Server.Room.Disconnect` | server.js:153-165 | For a member, the entry and its name in the typing set are removed in the same step. Then `user-left` goes to others, and `users-update` and `typing-update` go to all. An unknown connection changes nothing. |
| `Server.Room.DailyCleanup` | server.js:180-186 | The log becomes the recent messages. The count returned is the number dropped, zero exactly when every message was recent. Members and typing set are untouched. |
| `Server.Multer` | server.js:29-50 | No part means no file. A part in the `file` field over 100 MiB is a `LIMIT_FILE_SIZE` error. A stored file is named id, dash, original name. |
| `Server.UploadRoute` | server.js:57-73 | Without a file the reply is 400 "No file uploaded". Otherwise it is 200 with the metadata and url `/uploads/<stored name>`. |
| `Server.HandleError` | server.js:210-219 | Only `LIMIT_FILE_SIZE` is a 400. Every other error is a 500. |
| `Server.PostUpload` | server.js:44-73 | An upload is a 200 exactly when the file is at most 100 MiB, so exactly 100 MiB succeeds and one byte more is a 400 "File too large". The metadata keeps the original name and size, and the url is `/uploads/<id>-<original name>`. |
| `Server.UploadUrlEndsWithName` | server.js:34 | The original name can be read back from the url after the prefix, the id and the dash. |
| `Server.FifthJoinRefused` | server.js:81-84 | With four members joined, a fifth join gets only `room-full`, so no `users-update` is sent, and the room stays at four. |
| `Server.LaterJoinerSeesHistory` | server.js:93 | After Alice joins and says "hi", Bob's `join-success` carries that message with Alice's name and type text while it is recent. |
| `ClientCommon.CheckDisplayName` | public/client-chat.js:103-109 | A blank name is ignored and a trimmed name over 20 characters is refused. A name of 1 to 20 characters (20 included) is accepted in its trimmed form. |
| `ClientCommon.CheckDisplayNameStable` | public/app.js:157-163 | Surrounding whitespace never changes the verdict. |
| `ClientCommon.SelectFile` | public/client-chat.js:280-290 | No file is ignored. A file over 100 MiB is refused, and one of at most 100 MiB is accepted unchanged. |
| `ClientCommon.Extension` | public/client-chat.js:251 | The extension is the lower-cased text after the last '.', or the whole lower-cased name without one. It holds no '.'. |
| `ClientCommon.FileIcon` | public/client-chat.js:250-278 | `image/`, `video/` and `audio/` MIME prefixes decide first, in that order. Otherwise the extension groups decide. |
| `ClientCommon.FirstGroup` | public/client-chat.js:259-275 | The else-if chain stops at the first group that lists the extension: that group lists it and no earlier group does. When nothing is found, no group lists it. |
| `ClientCommon.IconForExtension` | public/client-chat.js:259-277 | An extension listed in a group gets that group's icon. An extension in no group gets `{default, file}`. |
| `ClientCommon.GroupsDisjoint` | public/app.js:293-311 | No extension is listed in two groups, so the order of the tests never decides an icon. |
| `ClientCommon.IconIgnoresCase` | public/app.js:285 | The icon does not depend on the case of the file name. |
| `ClientCommon.IconOfLastExtension` | public/client-chat.js:251 | For a non-media type, only the text after the last dot decides the icon. |
| `ClientCommon.IconOfDotlessName` | public/app.js:285 | A name without a dot is matched as a whole, lower-cased. |
| `ClientCommon.TypingText` | public/client-chat.js:354-375 | The indicator is hidden exactly when nobody types. One or two names are spelled out in order, and three or more show only the count. |
| `ClientCommon.TypingTextNamesEveryone` | public/app.js:423-426 | With one or two typists, every one of them is named in the text. |
| `ClientCommon.TypingTextCount` | public/app.js:428 | With three or more typists, the text starts with their number and does not depend on who they are. |
| `ClientCommon.Receive` | public/client-chat.js:172-177 | The counter grows by one exactly for someone else's message while scrolled up, and the list then stays scrolled up. In every other case the list is at the bottom and the counter is unchanged. |
| `ClientCommon.ReceiveAll` | public/client-chat.js:533-535 | Feeding a list of messages never lowers the counter and raises it by at most one per message. Any rise means the list was scrolled up. |
| `ClientCommon.ReceiveAllClosedForm` | public/client-chat.js:533-535 | When messages are fed in while scrolled up, each one before the first of one's own is unread. One's own message brings the list back to the bottom. At the bottom nothing changes. |
| `ClientCommon.NothingUnreadAtBottom` | public/app.js:206-211 | Once at the bottom, no message received makes anything unread. |
| `ClientCommon.Scrolled` | public/client-chat.js:402-412 | The at-bottom flag is true exactly when fewer than 50 pixels remain. At the bottom the counter is cleared, and otherwise it is kept. |
| `ClientCommon.AlertText` | public/client-chat.js:420-424 | The badge ends in "s" exactly when more than one message is unread. |
| `ClientCommon.AlertTextCount` | public/app.js:480 | The badge starts with the number of unread messages. |
| `ClientChat.ClientChatApp.constructor` | public/client-chat.js:2-8 | Nobody is signed in and there are no members, messages or typists. The list is at the bottom with nothing unread. |
| `ClientChat.ClientChatApp.ScrollToBottom` | public/client-chat.js:414-418 | The list is at the bottom and nothing else changes. |
| `ClientChat.ClientChatApp.AddMessage` | public/client-chat.js:161-178 | The scroll state follows `Receive`. The badge text is produced exactly when the counter grew. |
| `ClientChat.ClientChatApp.LoadMessages` | public/client-chat.js:529-537 | Each logged message is re-added, then the list is at the bottom. The counter is what feeding the log in order gives. |
| `ClientChat.ClientChatApp.JoinChat` | public/client-chat.js:102-130 | A blank name is ignored. A name over 20 characters or a room of 4 is refused with its error and nothing changes. Otherwise exactly one entry under the fresh id is added and becomes the current user, the room holds at most 4, and the log is shown again. |
| `ClientChat.ClientChatApp.StopTyping` | public/client-chat.js:348-352 | The current user's name leaves the typing set and nothing else changes. The indicator text is returned. With nobody signed in the call throws before changing anything, which is the `None` result. |
| `ClientChat.ClientChatApp.HandleTyping` | public/client-chat.js:338-346 | The current user's name is in the typing set afterwards (added once) and nothing else changes. The indicator text is returned. With nobody signed in the call throws before changing anything, which is the `None` result. |
| `ClientChat.ClientChatApp.SendMessage` | public/client-chat.js:138-159 | Blank input changes nothing, and so does a send with nobody signed in, where the code throws. Otherwise exactly one text message with the current user's id, name and trimmed content is appended after the earlier ones. The list scrolls to the bottom and the user stops typing. |
| `ClientChat.ClientChatApp.FileLoaded` | public/client-chat.js:292-320 | With nobody signed in the handler throws and nothing changes. Otherwise one file message is appended whose metadata carries the file's name (as filename and original name), size, type and data URL. The list goes to the bottom. |
| `ClientChat.ClientChatApp.LeaveChat` | public/client-chat.js:448-455 | After confirmation the current user leaves the member map and nobody is signed in. Without confirmation nothing changes. |
| `ClientChat.ClientChatApp.CleanupTick` | public/client-chat.js:539-553 | Exactly the messages newer than the cutoff stay, in order. The list is rebuilt exactly when some message was older. |
| `ClientChat.ClientChatApp.LoadStoredData` | public/client-chat.js:496-523 | A snapshot more than 7 days (604800000 ms) old loads nothing. A younger one replaces members, log and current user, and shows the log only when someone is signed in. |
| `ClientChat.ClientChatApp.HandleScroll` | public/client-chat.js:402-412 | The scroll state follows `Scrolled`. |
| `App.ChatApp.constructor` | public/app.js:2-8 | Nobody is signed in. The list is at the bottom with nothing unread, and the session id is kept. |
| `App.ChatApp.JoinChat` | public/app.js:156-168 | Something is emitted exactly for a trimmed name of 1 to 20 characters: `join` with that name and the session id. A longer name yields the error and no emit. |
| `App.ChatApp.SendMessage` | public/app.js:183-193 | Blank input emits nothing. Otherwise the trimmed content is emitted, followed by `typing(false)`. |
| `App.ChatApp.HandleFileSelect` | public/app.js:335-345 | A file of at most 104857600 bytes is previewed. A larger one yields the size error and no preview; it is not removed from the file input. |
| `App.ChatApp.ScrollToBottom` | public/app.js:472-476 | The list is at the bottom and the counter is unchanged. |
| `App.ChatApp.AddMessage` | public/app.js:195-212 | The scroll state follows `Receive`, as in the offline client. The badge text is produced exactly when the counter grew. |
| `App.ChatApp.LoadMessages` | public/app.js:176-181 | Each received message is added, then the list is at the bottom. |
| `App.ChatApp.OnJoinSuccess` | public/app.js:98-102 | The server's user becomes the current user and its recent messages are shown. |
| `App.ChatApp.HandleScroll` | public/app.js:460-470 | The scroll state follows `Scrolled`. |
| `App.AfterUpload` | public/app.js:384-390 | A 2xx reply is shared as a `file-message` with its metadata. Any other reply emits nothing and shows the server's non-empty `error` text, or "Upload failed" when there is none. |
| `App.IsLocalServerRunning` | public/app.js:588-591 | The chat server is taken to serve the page exactly on ports 3000 and 8080. `App.LocalhostDependsOnPort` states what that decides. |
| `App.IsGitHubPages` | public/app.js:582-586 | Static hosting is a GitHub host or localhost without a local server. `App.GitHubHostsAreStatic`, `App.LocalhostDependsOnPort` and `App.OtherHostsAreServed` characterise it for every host. |
| `App.SizeLimitsAgree` | public/app.js:339-344 | The client accepts exactly the files the server stores: at most 100 MiB. |
| `App.UploadThenShare` | public/app.js:379-390 | A file within the limit ends in a `file-message` carrying the server's metadata and `/uploads/<id>-<name>`. A larger one ends in the server's "too large" error and no emit. |
| `App.GitHubHostsAreStatic` | public/app.js:582-586 | Any host name containing github.io or github.com is static hosting, whatever the port. |
| `App.LocalhostDependsOnPort` | public/app.js:582-591 | localhost is static hosting exactly when the port is neither 3000 nor 8080. |
| `App.OtherHostsAreServed` | public/app.js:582-586 | Any other host name is served by the chat server. |

## Left out

- Rendering and UI are not modelled: HTML templates, `escapeHtml`, the lightbox, the sidebar, auto-resize, error banners and `updateUsersList`. They are presentation only. Error banners appear only as the returned error text.
- Socket.IO, Express, multer and uuid are represented by returned event lists, the upload functions and id parameters. Delivery itself is not modelled.
- The daily on-disk file sweep (server.js:189-206) and the cron and interval scheduling are left out. They are filesystem I/O and timers. `DailyCleanup` and `CleanupTick` model one run of each.
- `formatFileSize` is left out because it is floating-point arithmetic.
- `Date` and `setDate` calendar arithmetic is left out. The cutoff is a parameter. `RecentWithinWeek` takes a day as 24 hours, which ignores daylight-saving shifts.
- Timers are left out: the 1-second typing expiry, the 5-second error hide and the periodic save.
- localStorage, sessionStorage and JSON are left out. This covers `saveData`, `clearStoredData`, `getOrCreateSessionId` (the session id is a constructor parameter), `storeSessionData` and `checkExistingSession`.
- In `loadStoredData`, a snapshot that fails to parse, the `|| []` defaults and a timestamp that parses to NaN (whose age never counts as expired) are not modelled.
- Rejoin and manual leave are not modelled. public/app.js emits `rejoin` and `manual-leave`, but server.js has no handler for either. The page reload after leaving is not modelled.
- The server's `join` handler is modelled as receiving the display name as a string. public/app.js sends an object `{displayName, sessionId}` instead. The model does not reconcile the two.
- The networked client's `handleTyping`/`stopTyping` emits, `addSystemMessage` and its `leaveChat` are not modelled separately. `App.ChatApp.SendMessage` includes the `typing(false)` that `stopTyping` emits.
- String length is counted in characters, not UTF-16 code units, so a name with characters outside the Basic Multilingual Plane may pass the 20-character check here but not in a browser.
- `toLowerCase` is modelled for ASCII letters only. Every extension the icon code compares with is ASCII.
- `trim` uses the ECMAScript whitespace and line-terminator characters listed in `JsString.JsSpaces`.
- Scroll positions are integers. Fractional pixel values are not modelled.
- The `typing` flag is a boolean rather than any truthy value. A text message's `content` is a string rather than any JSON value.
- Server.Room.Post: the `file-message` payload is a `FileInfo` record with the fields the upload route produces. server.js:121-136 stores whatever JSON value the client sends.
- The file input's state and the send-button and Enter upload path of public/app.js (lines 364-397 and 671-687) are not modelled. A file refused at selection stays selected and is still posted; the server's 400 refuses it, as `App.UploadThenShare` states.
- A fetch that rejects (a network failure) in public/app.js `uploadFile` is not modelled. Neither are write errors inside multer, which would reach the 500 branch of `Server.HandleError` as `OtherError`.
- Server.Room.Join: the `users-update` payload is the member map. The order of `Array.from(users.values())` is not modelled.
- Server.Room.Disconnect: the `users-update` payload is the member map. Its array order is not modelled.
- ClientChat.ClientChatApp.JoinChat: "at most 4 members" is stated only after a successful join, because `loadStoredData` may load any member map from the snapshot.
