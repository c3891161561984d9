# DocStart collaboration and documentation core, in Dafny

This project models the logic of DocStart, a documentation platform built on Notion. It covers two groups of code.

**The real-time collaboration registries.**
- A Socket.IO `CollaborationServer`, keyed by socket id, with an access check on join and per-socket presence records.
- A raw WebSocket server keyed by connection.
- An HTTP presence endpoint keyed by user id, with a deterministic colour hash.
- The client hook `useCollaboration`, which turns server messages into its `users` and `typingUsers` lists, debounces typing and schedules reconnects.

**The text processing behind documents.**
- The markdown validators, section extraction and table of contents.
- The JSON export, sitemap and deployment files.
- The `localStorage` document store and its auto-save.
- Notion block-to-HTML serialisation and page titles.
- Search scoring and ranking.
- Project and template slugs and the documents they create.
- Social-post generation.

**How the model is laid out.**
- There is one module per source file. Two shared modules sit beside them:
  - `Wrappers` holds `Option`.
  - `Text` holds the JavaScript string operations the sources rely on: `trim` with JavaScript's whitespace set, `split`/`join`, ASCII `toLowerCase`, the `[^a-z0-9]+` → `-` replacement, counting non-overlapping occurrences, and the names every object inherits from `Object.prototype`.
- Objects whose fields the source updates in place are classes:
  - `CollaborationServer`;
  - the WebSocket server's registry;
  - the collaboration route's map;
  - the hook's refs;
  - `DocumentStorage` over a `LocalStorage`;
  - `AutoSave`;
  - the social-posts table.
- Most methods of those classes are proved against a pure transition function on a snapshot datatype, and the invariants, isolation, no-echo and idempotence lemmas are stated about those functions. The social-posts table's `Create` and `SetStatus` state their new rows directly instead.
- Code that loops line by line is a method with a loop, proved equal to a definition over prefixes. This covers the validators, `extractSections`, `generateTOC`, `convertBlocksToHtml`, the broadcast loop, the storage loops and the automate loops.
- Database queries, the session, clocks, random ids, timers and the network are parameters: oracle values, an abstract `now`, and the rows a query returns.

## Model

Paths are relative to the repository root.

| member | source | states |
|---|---|---|
| `SocketServer.Recipients` | lib/socket-server.ts:105-110 | an emission sent with `socket.to(room)` never reaches the sending socket and reaches only the members of that document's room |
| `SocketServer.RoomPresence` | lib/socket-server.ts:113-115 | the `room-users` list holds the presence record of exactly those room sockets that have a session |
| `SocketServer.Join` | lib/socket-server.ts:56-118 | an unknown document answers "Document not found" and an unauthorised user "Access denied", both with nothing changed; otherwise the socket's session is set, the socket is added to the room (created if absent), `user-joined` goes to the others and `room-users` to the joiner |
| `SocketServer.DocumentChange` | lib/socket-server.ts:121-139 | `document-updated` is always relayed to the named room; the stored cursor changes only when the sender's session is for that document, and no other session or room changes |
| `SocketServer.CursorUpdate` | lib/socket-server.ts:142-158 | without a session for that document nothing is stored or sent; with one, the cursor is stored and `cursor-updated` is relayed with the session's user |
| `SocketServer.TypingStart` | lib/socket-server.ts:161-172 | nothing is stored; `user-typing` is relayed exactly when the sender's session is for that document |
| `SocketServer.TypingStop` | lib/socket-server.ts:174-179 | `user-stopped-typing` is relayed to the named room with no session check, and nothing is stored |
| `SocketServer.Disconnect` | lib/socket-server.ts:182-208 | a socket without a session changes and sends nothing; otherwise its session is deleted |
| `SocketServer.JoinKeepsInv` | lib/socket-server.ts:93-103 | a join keeps the invariant: no empty room, and every socket with a session is in its document's room |
| `SocketServer.JoinAdmitted` | lib/socket-server.ts:89-117 | after an admitted join the session names the document, the joiner is in the room, `room-users` lists the joiner, and `user-joined` reaches exactly the room's other members |
| `SocketServer.DocumentChangeKeepsInv` | lib/socket-server.ts:133-138 | a document change keeps the registry invariant |
| `SocketServer.CursorUpdateKeepsInv` | lib/socket-server.ts:145-149 | a cursor update keeps the registry invariant |
| `SocketServer.DisconnectKeepsInv` | lib/socket-server.ts:189-206 | a disconnect keeps the registry invariant |
| `SocketServer.DisconnectWithSession` | lib/socket-server.ts:185-206 | a disconnect removes the socket from its room, drops the room exactly when the socket was its last member, leaves every other room alone, and sends `user-left` to exactly the remaining members |
| `SocketServer.DisconnectIdempotent` | lib/socket-server.ts:185-186 | a second disconnect of the same socket changes and sends nothing |
| `SocketServer.NoEcho` | lib/socket-server.ts:124-131 | no relayed event reaches the socket that caused it |
| `SocketServer.RoomIsolation` | lib/socket-server.ts:151-156 | an event relayed into one document's room reaches no socket outside that room |
| `SocketServer.LastLeaveThenFreshRoom` | lib/socket-server.ts:190-196 | once the last member leaves the room is deleted, and the next join recreates it holding only the joiner |
| `SocketServer.RejoinLeavesStaleMembership` | lib/socket-server.ts:93-103 | joining document A and then B on one socket, then disconnecting, leaves the socket listed in A's room with no session |
| `SocketServer.CollaborationServer.constructor` | lib/socket-server.ts:41-49 | the server starts with both maps empty |
| `SocketServer.CollaborationServer.UsersInRoom` | lib/socket-server.ts:113-115 | the loop over the room's socket ids returns the room's presence records |
| `SocketServer.CollaborationServer.OnJoinDocument` | lib/socket-server.ts:56-118 | the handler updates both maps as `Join` says, emits what it emits, and keeps the invariant |
| `SocketServer.CollaborationServer.OnDocumentChange` | lib/socket-server.ts:121-139 | the handler's new state and emissions are those of `DocumentChange`, and the invariant is kept |
| `SocketServer.CollaborationServer.OnCursorUpdate` | lib/socket-server.ts:142-158 | the handler's new state and emissions are those of `CursorUpdate`, and the invariant is kept |
| `SocketServer.CollaborationServer.OnTypingStart` | lib/socket-server.ts:161-172 | the handler emits what `TypingStart` says and changes nothing |
| `SocketServer.CollaborationServer.OnTypingStop` | lib/socket-server.ts:174-179 | the handler emits what `TypingStop` says and changes nothing |
| `SocketServer.CollaborationServer.OnDisconnect` | lib/socket-server.ts:182-208 | the handler's new state and emissions are those of `Disconnect`, and the invariant is kept |
| `WebSocketServer.Audience` | server/websocket-server.ts:109-118 | a broadcast reaches exactly the room's open connections other than the excluded one, and none when the document has no room |
| `WebSocketServer.UserNameFor` | server/websocket-server.ts:26 | the user name is `"User "` followed by the last four characters of the id, or all of them when it is shorter |
| `WebSocketServer.Connect` | server/websocket-server.ts:9-35 | a connection without a document id is closed and not registered; otherwise it joins its document's room (created on first use) and the room's other open connections get `user_joined` |
| `WebSocketServer.Message` | server/websocket-server.ts:37-81 | an unparsable frame or an unknown type sends nothing; each known type sends one broadcast to the room's open connections (the sender skipped for typing_start and cursor_update), carrying the sender's user id and, per type, the content with the timestamp, the name and colour, or the position; nothing is stored |
| `WebSocketServer.Close` | server/websocket-server.ts:83-102 | the connection leaves its room, the room is deleted once empty, other rooms are unchanged, and exactly one broadcast goes out: `user_left` with the closer's id, name and colour, to the room's remaining open members |
| `WebSocketServer.ConnectKeepsInv` | server/websocket-server.ts:19-22 | a connection keeps the invariant: rooms are non-empty, hold only live connections, and every live connection is in its room |
| `WebSocketServer.CloseKeepsInv` | server/websocket-server.ts:86-93 | a close keeps the registry invariant |
| `WebSocketServer.MessagesStayInDocument` | server/websocket-server.ts:109-118 | a message on a connection of document A reaches no connection registered under another document |
| `WebSocketServer.SenderEcho` | server/websocket-server.ts:42-76 | `document_change` and `typing_stop` come back to an open sender; `typing_start` and `cursor_update` never do |
| `WebSocketServer.CloseNotifiesOnlyRemaining` | server/websocket-server.ts:86-101 | one delivery only, `user_left` with the closer's id, name and colour; the closing connection does not hear it, and exactly the remaining open members of its room do |
| `WebSocketServer.WsServer.constructor` | server/websocket-server.ts:7 | the registry starts empty |
| `WebSocketServer.WsServer.BroadcastToDocument` | server/websocket-server.ts:109-118 | the loop over the room's connections sends to exactly the audience `Audience` defines |
| `WebSocketServer.WsServer.OnConnection` | server/websocket-server.ts:9-35 | the handler updates the registry as `Connect` says and keeps the invariant |
| `WebSocketServer.WsServer.OnMessage` | server/websocket-server.ts:37-81 | the handler sends what `Message` says and stores nothing |
| `WebSocketServer.WsServer.OnClose` | server/websocket-server.ts:83-102 | the handler updates the registry as `Close` says and keeps the invariant |
| `CollaborationRoute.ToInt32` | app/api/collaboration/route.ts:174 | the result lies in the signed 32-bit range [-2^31, 2^31) |
| `CollaborationRoute.ToInt32Offset` | app/api/collaboration/route.ts:174 | the result differs from the input by a multiple of 2^32 |
| `CollaborationRoute.ToInt32Shift` | app/api/collaboration/route.ts:173-174 | adding a multiple of 2^32 does not change the 32-bit value |
| `CollaborationRoute.HashIsPoly` | app/api/collaboration/route.ts:172-175 | the shift-and-mask hash equals the 32-bit reduction of the polynomial hash, the sum of c_i·31^(n-1-i) over the character codes |
| `CollaborationRoute.ColorFor` | app/api/collaboration/route.ts:165-178 | the colour is always one of the ten palette entries, the one at index \|hash\| mod 10 |
| `CollaborationRoute.DisplayName` | app/api/collaboration/route.ts:43 | a display name exists exactly when the name or the email is present and non-empty; it is one of the two, and the name wins whenever it is present |
| `CollaborationRoute.CollaboratorOf` | app/api/collaboration/route.ts:41-45 | an entry carries the user's id, their display name and the palette colour `ColorFor(id)` derived from the id alone, so a user's colour is the same in every list |
| `CollaborationRoute.Add` | app/api/collaboration/route.ts:81-84 | afterwards the document lists exactly its old users plus the new one, the old ones first and in their old order; no other document changes, and the invariant (no empty list, nobody twice) is kept |
| `CollaborationRoute.Added` | app/api/collaboration/route.ts:84 | `Set.add`: the members are the old ones plus the new one, the old ones keep their places at the front, and no member appears twice |
| `CollaborationRoute.Erase` | app/api/collaboration/route.ts:147 | `Set.delete`: the members are the old ones except the removed one, and no member appears twice |
| `CollaborationRoute.EraseAppend` | app/api/collaboration/route.ts:147 | deleting keeps the remaining members in their order: erasing from a concatenation erases from each part |
| `CollaborationRoute.EraseAbsent` | app/api/collaboration/route.ts:147 | deleting a user who is not listed changes nothing |
| `CollaborationRoute.Remove` | app/api/collaboration/route.ts:143-149 | the document lists exactly its old users but the removed one, in their old order, and the entry is dropped once empty; no other document changes and the invariant is kept |
| `CollaborationRoute.AddThenRemove` | app/api/collaboration/route.ts:81-84 | registering a user who was not listed and then removing them restores the map, order included |
| `CollaborationRoute.Route.constructor` | app/api/collaboration/route.ts:7 | the map starts empty |
| `CollaborationRoute.Route.Get` | app/api/collaboration/route.ts:9-57 | 401 without a session user and 400 without a document id; otherwise `Listed` of the document's users in joining order: one entry per user the user table knows, each user once, with display name and colour |
| `CollaborationRoute.Listed` | app/api/collaboration/route.ts:34-46 | the entries are exactly the listed ids the user table knows, each built by `CollaboratorOf`, and distinct ids give distinct entries |
| `CollaborationRoute.ListedAppend` | app/api/collaboration/route.ts:34-46 | entries follow the registry order: the entries for two runs of ids are the first run's followed by the second's |
| `CollaborationRoute.Route.Post` | app/api/collaboration/route.ts:59-119 | 401 or 400 change nothing; otherwise the user is registered, and a failing database write answers 500 with the registration already made |
| `CollaborationRoute.Route.Delete` | app/api/collaboration/route.ts:121-162 | 401 or 400 change nothing; otherwise the map afterwards is `Remove` of the map before |
| `UseCollaboration.WithoutId` | lib/use-collaboration.ts:64 | the filtered list holds exactly the entries whose id differs from the given one, each as often as before, and the others not at all |
| `UseCollaboration.WithoutIdAppend` | lib/use-collaboration.ts:64 | the filter keeps the surviving entries in their order: filtering a concatenation filters each part |
| `UseCollaboration.AddTyping` | lib/use-collaboration.ts:73-79 | a user is appended only when no entry has their id; otherwise the list is unchanged |
| `UseCollaboration.AddTypingKeepsUnique` | lib/use-collaboration.ts:73-79 | adding a typing user keeps the ids in the list unique |
| `UseCollaboration.WithoutIdKeepsUnique` | lib/use-collaboration.ts:83 | removing an id keeps the ids unique |
| `UseCollaboration.JoinTwiceListsTwice` | lib/use-collaboration.ts:57-60 | `user_joined` appends without checking: two `Receive`s of the same join list the user twice more, at the end |
| `UseCollaboration.Receive` | lib/use-collaboration.ts:53-93 | `user_joined` appends the user and hands it to `onUserJoined`; `user_left` filters the user list by id and hands `{id, userName, color}` to `onUserLeft`; `document_change` hands the change on and changes nothing; `typing_start` adds the typist only when no entry has the id; `typing_stop` filters the typing list by id; unparsable, unknown and cursor messages change nothing and call nothing; the connection state, socket and timers are never touched |
| `UseCollaboration.ReceiveKeepsTypingUnique` | lib/use-collaboration.ts:72-84 | no message makes an id appear twice in `typingUsers` |
| `UseCollaboration.Connect` | lib/use-collaboration.ts:43-118 | a new socket replaces the reference; a constructor that throws leaves the hook disconnected |
| `UseCollaboration.Mount` | lib/use-collaboration.ts:40-41 | without a document id the effect does nothing; otherwise it connects |
| `UseCollaboration.AfterOpen` | lib/use-collaboration.ts:48-51 | on open the hook is connected over an open socket; the lists, timers and sent messages are kept |
| `UseCollaboration.AfterClose` | lib/use-collaboration.ts:95-107 | on close the hook is disconnected and exactly one reconnect is pending, 5000 ms later, replacing any earlier one; the lists, the typing timer and the sent messages are kept |
| `UseCollaboration.ErrorThenClose` | lib/use-collaboration.ts:95-112 | the error handler schedules nothing: an error followed by its close ends where the close alone would, timers are kept, and a second error changes nothing |
| `UseCollaboration.ReconnectFires` | lib/use-collaboration.ts:103-106 | the fired timer runs `connectWebSocket` again: no reconnect is pending, a new socket is connecting unless the constructor throws, in which case the hook is marked disconnected and keeps its old socket; the user lists, sent messages and typing timer are kept |
| `UseCollaboration.Send` | lib/use-collaboration.ts:135-142 | a message is sent only over an open socket and otherwise dropped, with nothing else changed |
| `UseCollaboration.HandleTyping` | lib/use-collaboration.ts:152-164 | every call sends `typing_start` (if open) and replaces the stop timer with one due 1000 ms later; nothing else changes (lists, connection flag, socket, reconnect timer) |
| `UseCollaboration.TypingTimerFires` | lib/use-collaboration.ts:161-163 | the stop timer sends `typing_stop` (if open) and is no longer pending; nothing else changes |
| `UseCollaboration.Cleanup` | lib/use-collaboration.ts:122-132 | cleanup closes the socket (a closed socket stays closed) and cancels both timers; the lists, the connection flag and the sent messages are kept |
| `UseCollaboration.BurstSchedulesOneStop` | lib/use-collaboration.ts:152-164 | a burst of `handleTyping` calls sends one `typing_start` per call over an open socket and leaves exactly one stop timer, due 1000 ms after the last call |
| `UseCollaboration.BurstThenStop` | lib/use-collaboration.ts:152-164 | after a burst the timer sends a single `typing_stop`, and nothing stays pending |
| `UseCollaboration.CleanupThenCloseReconnects` | lib/use-collaboration.ts:95-132 | the close that cleanup causes fires `onclose`, which schedules a reconnect again |
| `UseCollaboration.CollaborationHook.constructor` | lib/use-collaboration.ts:33-41 | the hook's first render runs the effect on its initial state |
| `UseCollaboration.CollaborationHook.OnOpen` | lib/use-collaboration.ts:48-51 | the new state is `AfterOpen` of the old |
| `UseCollaboration.CollaborationHook.OnMessage` | lib/use-collaboration.ts:53-93 | the new lists and the callback handed on are those of `Receive` |
| `UseCollaboration.CollaborationHook.OnClose` | lib/use-collaboration.ts:95-107 | the new state is `AfterClose` of the old |
| `UseCollaboration.CollaborationHook.OnError` | lib/use-collaboration.ts:109-112 | the new state is `AfterError` of the old |
| `UseCollaboration.CollaborationHook.OnReconnectTimer` | lib/use-collaboration.ts:103-106 | the new state is `ReconnectFires` of the old |
| `UseCollaboration.CollaborationHook.SendMessage` | lib/use-collaboration.ts:135-142 | the new state is `Send` of the old |
| `UseCollaboration.CollaborationHook.SendDocumentChange` | lib/use-collaboration.ts:144-146 | sends `document_change` with the content, through `Send` |
| `UseCollaboration.CollaborationHook.SendCursorUpdate` | lib/use-collaboration.ts:148-150 | sends `cursor_update` with the position, through `Send` |
| `UseCollaboration.CollaborationHook.OnHandleTyping` | lib/use-collaboration.ts:152-164 | the new state is `HandleTyping` of the old |
| `UseCollaboration.CollaborationHook.OnTypingTimer` | lib/use-collaboration.ts:161-163 | the new state is `TypingTimerFires` of the old |
| `UseCollaboration.CollaborationHook.OnCleanup` | lib/use-collaboration.ts:122-132 | the new state is `Cleanup` of the old |
| `ValidationUtils.InPerLine` | lib/validation-utils.ts:72-130 | an item is among the pushes of a `lines.forEach` pass exactly when some line pushed it, at that line's 1-based number |
| `ValidationUtils.LinkAt` | lib/validation-utils.ts:118 | a match of the link pattern starting at an index ends after it and within the line |
| `ValidationUtils.LinkAtMatches` | lib/validation-utils.ts:118 | a match is literally `[text](url)`, where the text holds no `]` and the URL holds no `)` |
| `ValidationUtils.SingleLink` | lib/validation-utils.ts:118-120 | a line that is one well-formed `[text](url)` yields exactly that link |
| `ValidationUtils.ImageAt` | lib/validation-utils.ts:277 | a match of the image pattern ends after its start and within the line |
| `ValidationUtils.EmptyLinkErrorsSpec` | lib/validation-utils.ts:120-129 | every pushed error is "Link URL is empty" at that line, at most one per link, and some error is pushed exactly when some link's URL is empty or blank |
| `ValidationUtils.LinkErrorsStep` | lib/validation-utils.ts:120-129 | one step of the `exec` loop pushes the error for the link found at the current position (if its URL is blank) and resumes after it, or moves on one character |
| `ValidationUtils.Flag` | lib/validation-utils.ts:76-83 | one conditional push: the pushed item is there exactly when the condition holds |
| `ValidationUtils.SyntaxOfLineIff` | lib/validation-utils.ts:72-129 | a line's syntax errors are exactly one per defect it has: a misplaced fence, an odd number of `**`, of `*` or of backticks, or a link with a blank URL; each carries the line's number |
| `ValidationUtils.LineErrorIsDefect` | lib/validation-utils.ts:72-129 | every syntax error reported for a line names a defect the line has |
| `ValidationUtils.DefectIsReported` | lib/validation-utils.ts:72-129 | every defect a line has is reported for that line |
| `ValidationUtils.SyntaxErrorIff` | lib/validation-utils.ts:68-133 | `validateSyntax` reports error m at line n exactly when 1 ≤ n ≤ the number of lines and line n has defect m |
| `ValidationUtils.SyntaxErrorSound` | lib/validation-utils.ts:68-133 | each reported syntax error points at an existing line that has the defect |
| `ValidationUtils.SyntaxErrorComplete` | lib/validation-utils.ts:68-133 | each defect of each line is reported |
| `ValidationUtils.SyntaxErrorShape` | lib/validation-utils.ts:77-82 | every syntax error has kind `syntax`, severity `error` and a line number within the document |
| `ValidationUtils.BulletIsUnclosedItalic` | lib/validation-utils.ts:96-104 | a `* item` bullet line with no other `*` counts one `*`, so it is reported as unclosed italic |
| `ValidationUtils.LeadingHashes` | lib/validation-utils.ts:157 | the `^#+` run: every counted character is `#` and the next one is not |
| `ValidationUtils.HierarchyWarningIff` | lib/validation-utils.ts:150-170 | the hierarchy pass warns at exactly the heading lines whose level exceeds the previous heading's level plus one (the first heading compared with 0), with that expected level in the message |
| `ValidationUtils.HierarchyWarningSound` | lib/validation-utils.ts:150-170 | each hierarchy warning is at a line that skips a level |
| `ValidationUtils.HierarchyWarningComplete` | lib/validation-utils.ts:150-170 | each line that skips a level gets its warning |
| `ValidationUtils.StructureErrors` | lib/validation-utils.ts:136-186 | the first structure issue is the missing-heading warning exactly when no trimmed line starts with `#`; all structure issues are warnings |
| `ValidationUtils.ThreeBlank` | lib/validation-utils.ts:207-222 | the blank counter before a blank line is at least 2 exactly when the two lines before it are blank too |
| `ValidationUtils.BlankWarningStep` | lib/validation-utils.ts:208-223 | each line adds its blank-run warning to those of the lines before it |
| `ValidationUtils.BlankRunWarningIff` | lib/validation-utils.ts:206-223 | the too-many-blank-lines warning falls exactly on the lines that are the third or later of a run of blank lines |
| `ValidationUtils.LongLineIff` | lib/validation-utils.ts:193-204 | the long-line warning falls exactly on the lines longer than 120 characters |
| `ValidationUtils.TrailingIff` | lib/validation-utils.ts:225-236 | the trailing-whitespace warning falls exactly on the lines that end in whitespace |
| `ValidationUtils.LinkSuggestions` | lib/validation-utils.ts:252-273 | a line gets the "click here" suggestion exactly when a link's text is "click here" or "here" in any case, and the URL-as-text suggestion exactly when a link's text equals its URL |
| `ValidationUtils.AltSuggestions` | lib/validation-utils.ts:282-293 | a line gets missing-alt suggestions exactly when one of its images has empty or blank alt text |
| `ValidationUtils.WordRunEnd` | lib/validation-utils.ts:304 | the `\w+` run: every character in it is a word character and the one after it is not |
| `ValidationUtils.FenceAt` | lib/validation-utils.ts:304 | a fence match ends at a newline, and it has a language exactly when its word run is non-empty |
| `ValidationUtils.ClosingFenceDrawsSuggestion` | lib/validation-utils.ts:304-314 | in a fenced block opened with a language, the closing fence followed by a newline matches the pattern again without a language, so the block draws the "missing language" suggestion |
| `ValidationUtils.NoFencesBetween` | lib/validation-utils.ts:306 | positions where no fence starts contribute no suggestion |
| `ValidationUtils.TableSuggestions` | lib/validation-utils.ts:316-330 | the table suggestion is made exactly when some line contains `\|` and no such line is a whole separator row |
| `ValidationUtils.ListItemAt` | lib/validation-utils.ts:333 | a list-item match at a line start ends after it |
| `ValidationUtils.ListItemsNeverWide` | lib/validation-utils.ts:333-337 | every item matched by `^[\s]*[-*+]\s` ends one whitespace character after its marker, so the `\s{2,}` pattern matches none of them |
| `ValidationUtils.ListSpacingNeverSuggested` | lib/validation-utils.ts:332-346 | the inconsistent-list-spacing suggestion is never made |
| `ValidationUtils.ErrorCount` | lib/validation-utils.ts:354 | the count of severity-`error` entries is at most the list's length, and zero exactly when none has that severity |
| `ValidationUtils.Validate` | lib/validation-utils.ts:33-65 | the result is valid exactly when no collected error has severity `error` |
| `ValidationUtils.ValidIffNoSyntaxErrors` | lib/validation-utils.ts:33-65 | a document is valid exactly when it has no syntax errors; structure warnings never invalidate it |
| `ValidationUtils.QuickValidate` | lib/validation-utils.ts:352-360 | `errorCount` is the number of severity-`error` errors and `isValid` agrees with the full validation |
| `ValidationUtils.DigitDotRunEnd` | lib/validation-utils.ts:381 | the `[\d.]+` run: every character is a digit or a dot and the next is not |
| `ValidationUtils.LineEnd` | lib/validation-utils.ts:393 | the `.*` run stops at the first line terminator |
| `ValidationUtils.LastQuestionMark` | lib/validation-utils.ts:393 | the last `?` before the line's end, if any, with no `?` after it |
| `ValidationUtils.QuestionAt` | lib/validation-utils.ts:393 | a question match ends after its start |
| `ValidationUtils.TypeErrors` | lib/validation-utils.ts:367-402 | at most one type issue, always a `content` warning without a line: for docs exactly when neither "## Installation" nor "## Getting Started" occurs, for a changelog exactly when no `## [x.y]` header occurs, for a FAQ exactly when fewer than two `### …?` questions occur |
| `ValidationUtils.ValidateDocumentType` | lib/validation-utils.ts:363-409 | the errors are the base errors followed by the type issues, warnings and suggestions are kept, and the result is valid exactly when the base is valid and no type issue was added |
| `ValidationUtils.TypeWarningInvalidates` | lib/validation-utils.ts:404-408 | a type issue makes a valid document invalid although no error has severity `error` |
| `ValidationUtils.ValidateSyntax` | lib/validation-utils.ts:68-133 | the per-line loop returns exactly the syntax errors the definition gives |
| `ValidationUtils.CheckLineSyntax` | lib/validation-utils.ts:73-129 | one line's checks push exactly that line's syntax errors, in order |
| `ValidationUtils.NextLink` | lib/validation-utils.ts:120-129 | one `exec` step advances and pushes the errors that separate the remaining matches |
| `ValidationUtils.CheckLinks` | lib/validation-utils.ts:118-129 | the `exec` loop pushes one "Link URL is empty" error per link with a blank URL |
| `ValidationUtils.ValidateStructure` | lib/validation-utils.ts:136-186 | the structure pass returns the structure issues the definition gives |
| `ValidationUtils.AnyHeading` | lib/validation-utils.ts:141 | `lines.some(...)`: true exactly when some trimmed line starts with `#` |
| `ValidationUtils.CheckHierarchy` | lib/validation-utils.ts:150-170 | the hierarchy loop, with its `currentLevel`, returns the hierarchy warnings of the definition |
| `ValidationUtils.CheckLongLines` | lib/validation-utils.ts:193-204 | the long-line loop returns the long-line warnings of the definition |
| `ValidationUtils.CheckBlankLines` | lib/validation-utils.ts:206-223 | the loop with the `consecutiveBlanks` counter returns the blank-run warnings of the definition |
| `ValidationUtils.CheckTrailing` | lib/validation-utils.ts:225-236 | the trailing-whitespace loop returns the warnings of the definition |
| `ValidationUtils.ValidateContentQuality` | lib/validation-utils.ts:189-239 | long-line, blank-run and trailing warnings, in that order |
| `ValidationUtils.ValidateAccessibility` | lib/validation-utils.ts:242-297 | the link suggestions of every line, then the image suggestions of every line |
| `ValidationUtils.NextFence` | lib/validation-utils.ts:306-314 | one `exec` step of the fence loop advances and pushes the suggestions that separate the remaining matches |
| `ValidationUtils.CheckFences` | lib/validation-utils.ts:304-314 | the fence loop returns one suggestion per fence match without a language |
| `ValidationUtils.ValidateBestPractices` | lib/validation-utils.ts:300-349 | fence suggestions, then the table suggestion, then the list suggestion |
| `ValidationUtils.ValidateMarkdownContent` | lib/validation-utils.ts:33-65 | the method's result is the combined result `Validate` defines |
| `ValidationUtils.LinkTextMatches` | lib/validation-utils.ts:118 | the link's text group is the run from after `[` up to the first `]`, holding no `]` |
| `ValidationUtils.LinkUrlMatches` | lib/validation-utils.ts:118 | the link's URL group is the run between `](` and the first `)`, holding no `)`, and the match ends after that `)` |
| `ValidationUtils.OpeningFence` | lib/validation-utils.ts:304 | a block opened with ```` ```js ```` matches the fence pattern with a language |
| `ValidationUtils.ClosingFence` | lib/validation-utils.ts:304 | the closing ```` ``` ```` followed by a newline matches the fence pattern without a language |
| `MarkdownUtils.IndicesSpec` | lib/markdown-utils.ts:259-260 | the lines found by the scan are exactly the lines that start with the marker, each once, in increasing order |
| `MarkdownUtils.LastIndex` | lib/markdown-utils.ts:259-277 | no line after the last heading found starts with the marker, so the open section runs to the end |
| `MarkdownUtils.NoIndexBetween` | lib/markdown-utils.ts:259-277 | no line between two consecutive headings starts with the marker |
| `MarkdownUtils.SectionsAtHeading` | lib/markdown-utils.ts:260-274 | a `"# "` line adds one section, opened at that line |
| `MarkdownUtils.SectionsAtOther` | lib/markdown-utils.ts:275-277 | any other line adds no section: it joins the open section's body, or is dropped when no section is open |
| `MarkdownUtils.ScanHeading` | lib/markdown-utils.ts:260-274 | at a heading the loop invariant survives closing the open section and opening a new, empty one |
| `MarkdownUtils.ScanOther` | lib/markdown-utils.ts:275-277 | with a section open, any other line keeps the loop invariant, the line going into the open section's body |
| `MarkdownUtils.ScanOtherNone` | lib/markdown-utils.ts:275-277 | before the first heading any other line is dropped and the loop invariant, with no section open and none closed, survives |
| `MarkdownUtils.ScanLine` | lib/markdown-utils.ts:259-278 | one iteration of the `for` loop keeps the invariant that the sections pushed plus the open one are the sections of the lines seen |
| `MarkdownUtils.ExtractSections` | lib/markdown-utils.ts:253-287 | the loop and the final push return exactly the sections the definition gives |
| `MarkdownUtils.SectionsFollowHeadings` | lib/markdown-utils.ts:259-286 | one section per `"# "` line, in order; its title is the rest of that line trimmed; its content is the lines up to the next heading or the end, joined with newlines and trimmed, none of them a heading; its type is always docs |
| `MarkdownUtils.NoHeadingNoSections` | lib/markdown-utils.ts:259-286 | a document without a `"# "` line has no sections, so text before the first heading is dropped |
| `MarkdownUtils.TocEntriesStep` | lib/markdown-utils.ts:294-300 | a `"## "` line adds its entry after those of the lines before it, and any other line adds none |
| `MarkdownUtils.GenerateToc` | lib/markdown-utils.ts:290-303 | the `forEach` loop and the final expression return the table of contents the definition gives |
| `MarkdownUtils.TocEmptyIff` | lib/markdown-utils.ts:302 | the table of contents is empty exactly when no line starts with `"## "`; otherwise it starts with the header and ends with a blank line |
| `MarkdownUtils.TocEntryShape` | lib/markdown-utils.ts:295-298 | an entry is `- [title](#anchor)` for the trimmed title; the anchor uses only `[a-z0-9-]` and has no doubled dash |
| `MarkdownUtils.When` | lib/markdown-utils.ts:311-324 | one conditional push: the message is there exactly when the condition holds |
| `MarkdownUtils.ValidateMarkdown` | lib/markdown-utils.ts:306-329 | one error each for an odd number of ```` ``` ````, of `**` and of `*`, each present exactly when its count is odd; valid exactly when there are no errors |
| `MarkdownUtils.WordCount` | lib/markdown-utils.ts:353-355 | the count is at least 1 |
| `MarkdownUtils.BlankIsOneWord` | lib/markdown-utils.ts:353-355 | empty or blank text counts one word, because splitting `""` yields `[""]` |
| `MarkdownUtils.JoinEnds` | lib/markdown-utils.ts:354 | words joined with single spaces neither start nor end with whitespace |
| `MarkdownUtils.SplitWsWord` | lib/markdown-utils.ts:354 | a single word splits to itself |
| `MarkdownUtils.SplitWsCons` | lib/markdown-utils.ts:354 | splitting a word, a space and more text yields the word followed by the split of the rest |
| `MarkdownUtils.SplitWsJoin` | lib/markdown-utils.ts:354 | splitting on `\s+` undoes joining non-empty words with single spaces |
| `MarkdownUtils.WordCountOfWords` | lib/markdown-utils.ts:353-355 | n words separated by single spaces count n |
| `MarkdownUtils.ReadingTime` | lib/markdown-utils.ts:358-362 | the result is the least whole number of minutes that covers the word count at 200 words a minute, and at least 1 |
| `ExportUtils.HtmlDocument` | lib/export-utils.ts:13-197 | the page is the head (doctype, title, description, the themed stylesheet), then the content, then the tail holding the script, with nothing added or dropped: its length is the sum of the three and it begins with the head and ends with the tail |
| `ExportUtils.HtmlEmbedsContent` | lib/export-utils.ts:181-196 | the content appears verbatim, without escaping, right after the page head, and the page starts with the doctype |
| `ExportUtils.HtmlContentInjective` | lib/export-utils.ts:181-196 | two different contents never give the same page, so nothing of the content is dropped or rewritten |
| `ExportUtils.HtmlTitle` | lib/export-utils.ts:181-186 | the title element sits right after the page opening, and an absent title reads "Documentation" (the default given at line 17) |
| `ExportUtils.ThemeDefault` | lib/export-utils.ts:17-27 | only the `dark` theme selects the dark values of the stylesheet; an absent theme is the light one |
| `ExportUtils.NonBlank` | lib/export-utils.ts:201 | the filter keeps at most as many pieces as it was given |
| `ExportUtils.NonBlankSpec` | lib/export-utils.ts:201 | the filter keeps exactly the non-blank pieces, in their order |
| `ExportUtils.HashEnd` | lib/export-utils.ts:213 | the `^#+` run: every character in it is `#` and the next one is not |
| `ExportUtils.HeadingText` | lib/export-utils.ts:213 | the title is what follows the leading `#` run and the whitespace after it, and it does not start with whitespace |
| `ExportUtils.KindIff` | lib/export-utils.ts:219-221 | the kind is h1, h2 or h3 exactly when the first line starts with `"# "`, `"## "` or `"### "`, and text exactly when it starts with none of them |
| `ExportUtils.ExportSectionOf` | lib/export-utils.ts:211-223 | a section's title is its first line's heading text when that line starts with `#` and empty otherwise; its kind follows the first line's prefix; its body is everything after the first newline, trimmed, and empty for a one-line section |
| `ExportUtils.SectionLines` | lib/export-utils.ts:212-214 | the first line is the text before the first newline, and the other lines joined again are exactly the text after it |
| `ExportUtils.ExportToJson` | lib/export-utils.ts:200-232 | one exported section per non-blank piece, in order; `sectionCount` is their number, `characterCount` the content's length and `wordCount` the number of pieces `split(/\s+/)` gives; the metadata has the caller's keys plus the four defaults, and every key the caller gives keeps the caller's value |
| `ExportUtils.WordCountUntrimmed` | lib/export-utils.ts:225 | the word count is taken on the untrimmed content: an empty document counts one word and leading whitespace adds one |
| `ExportUtils.MetadataDefaults` | lib/export-utils.ts:204-210 | a key the caller leaves out takes its default, and a key the caller gives as empty stays empty, because the spread comes after the defaults |
| `ExportUtils.ExportSectionsInOrder` | lib/export-utils.ts:201 | the sections are the non-blank pieces between blank-line separators, in order, and joining the pieces gives the content back |
| `ExportUtils.FileSet` | lib/export-utils.ts:239-305 | the files dictionary holds exactly the four names, each mapped to its own text |
| `ExportUtils.DeploymentFilesShape` | lib/export-utils.ts:235-306 | a deployment holds exactly index.html, README.md, package.json and vercel.json, and index.html is the HTML document of the same content and options |
| `ExportUtils.SitemapEntries` | lib/export-utils.ts:309-328 | the sitemap starts with the base URL's own entry; with no sections that entry is all, and otherwise the first section's entry comes next |
| `ExportUtils.SitemapAnchor` | lib/export-utils.ts:310-316 | each section's entry links the base URL with an anchor made only of `[a-z0-9-]`, without doubled dashes |
| `StorageUtils.Without` | lib/storage-utils.ts:105 | removing a key keeps only entries that were there, none of them with that key |
| `StorageUtils.LookupPut` | lib/storage-utils.ts:50 | after `setItem(k, v)`, reading k gives v and every other key reads as before |
| `StorageUtils.LookupWithout` | lib/storage-utils.ts:105 | after `removeItem(k)`, k is absent and every other key reads as before |
| `StorageUtils.LookupFound` | lib/storage-utils.ts:62 | `getItem` finds a key exactly when some entry has it |
| `StorageUtils.LocalStorage.constructor` | lib/storage-utils.ts:85-86 | the browser's `localStorage` the class reads and writes (part of the environment, not of the source): it starts with the given items, which `length` and `key(i)` enumerate |
| `StorageUtils.LocalStorage.SetItem` | lib/storage-utils.ts:50 | the key now reads the value, and every other key reads as before |
| `StorageUtils.LocalStorage.RemoveItem` | lib/storage-utils.ts:105 | the key now reads nothing, and every other key reads as before |
| `StorageUtils.ToJson` | lib/storage-utils.ts:40 | the object handed to `JSON.stringify` is an object whose `id` property is the document's id |
| `StorageUtils.LookupMerge` | lib/storage-utils.ts:209-213 | in `{...base, ...updates}` a property takes its last value in the updates when it is there, and its value in the base otherwise |
| `StorageUtils.UpdatedProperties` | lib/storage-utils.ts:209-213 | the updated document carries the new `updatedAt`, each given update, and the stored document's other properties |
| `StorageUtils.CreateDocument` | lib/storage-utils.ts:185-202 | a new document has the given id and title, the given type or `docs` when none is given, empty content, `createdAt` equal to `updatedAt`, and metadata with an empty description, version 1.0.0 and no tags |
| `StorageUtils.NewDocumentSavesAndLoads` | lib/storage-utils.ts:185-202 | a created document saved without compression or encryption, where the write succeeds, is stored under its own id; loading that id gives it back, with `type` "docs" unless another type was given |
| `StorageUtils.EncodeLatin1` | lib/storage-utils.ts:224-241 | base64 text is itself made of single bytes, so a second `btoa` cannot throw, and it is empty only for empty input |
| `StorageUtils.SerializeRoundTrip` | lib/storage-utils.ts:37-79 | serialising fails only when `btoa` meets a character above U+00FF; what it writes is never empty, and undoing encryption, then compression, then parsing gives the document back |
| `StorageUtils.LoadAfterSave` | lib/storage-utils.ts:37-79 | after a successful save, loading the document's id gives the document back |
| `StorageUtils.LoadDocumentById` | lib/storage-utils.ts:37-79 | after a successful save of a typed document d, `loadDocument(d.id)` gives d back |
| `StorageUtils.SaveTouchesOneKey` | lib/storage-utils.ts:37-56 | a save writes only the key prefix + id, and a failed save writes nothing |
| `StorageUtils.PrefixedKeys` | lib/storage-utils.ts:146-153 | every collected key is non-empty and starts with the prefix |
| `StorageUtils.PrefixedKeysComplete` | lib/storage-utils.ts:146-153 | every non-empty key that starts with the prefix is collected |
| `StorageUtils.RemoveAllEntries` | lib/storage-utils.ts:155 | removing a list of keys keeps only entries that were there, none with a removed key |
| `StorageUtils.LookupRemoveAll` | lib/storage-utils.ts:155 | after removing a list of keys, those keys read nothing and every other key reads as before |
| `StorageUtils.ClearRemovesPrefixed` | lib/storage-utils.ts:144-161 | after `clearAllDocuments()` every key starting with the prefix reads nothing and every other key keeps its value |
| `StorageUtils.UsedByUnprefixed` | lib/storage-utils.ts:164-175 | a storage without prefixed items counts as using nothing |
| `StorageUtils.UsageAfterClear` | lib/storage-utils.ts:144-175 | after `clearAllDocuments()` the usage is 0 |
| `StorageUtils.ImportInto` | lib/storage-utils.ts:126-134 | for an array, success plus failed is the array's length |
| `StorageUtils.ImportStepOf` | lib/storage-utils.ts:127-133 | each element is saved in turn and counted as a success or a failure by the save's result |
| `StorageUtils.DocumentStorage.constructor` | lib/storage-utils.ts:30-34 | an absent or empty prefix becomes "doc-gen-" and absent flags become false |
| `StorageUtils.DocumentStorage.SaveDocument` | lib/storage-utils.ts:37-56 | the result and the new storage are those of the save definition |
| `StorageUtils.DocumentStorage.DeleteDocument` | lib/storage-utils.ts:102-111 | the call succeeds, the id then loads as null, and every other key keeps its value |
| `StorageUtils.DocumentStorage.ClearAllDocuments` | lib/storage-utils.ts:144-161 | the collecting loop and the removing loop remove exactly the prefixed keys |
| `StorageUtils.DocumentStorage.GetStorageUsage` | lib/storage-utils.ts:164-182 | the loop adds up the key and value lengths of the prefixed items; the total is 5 MiB |
| `StorageUtils.DocumentStorage.ImportDocuments` | lib/storage-utils.ts:120-141 | text that does not parse gives {0, 1} and writes nothing; a parsed value that is not an array gives {0, 0} and writes nothing; an array is saved element by element |
| `StorageUtils.DocumentStorage.ImportAll` | lib/storage-utils.ts:127-133 | the `forEach` loop gives the counts and the storage of the import definition |
| `StorageUtils.DocumentStorage.UpdateDocument` | lib/storage-utils.ts:205-216 | with no stored document (or a falsy one) the result is false and nothing is written; otherwise the merged document with the new `updatedAt` is saved |
| `StorageUtils.AutoSave.constructor` | lib/storage-utils.ts:251-254 | the interval defaults to 30000, with no document and no timer |
| `StorageUtils.AutoSave.StartAutoSave` | lib/storage-utils.ts:257-269 | the document becomes current and one timer is registered, replacing any earlier one |
| `StorageUtils.AutoSave.Tick` | lib/storage-utils.ts:264-268 | a timer firing saves the current document if there is one, and writes nothing otherwise |
| `StorageUtils.AutoSave.StopAutoSave` | lib/storage-utils.ts:272-278 | both the timer and the current document are cleared |
| `StorageUtils.AutoSave.UpdateContent` | lib/storage-utils.ts:281-286 | the current document gets the new content and `updatedAt`; without one nothing changes |
| `StorageUtils.AutoSave.SaveNow` | lib/storage-utils.ts:289-294 | without a current document the result is false and nothing is written; otherwise the document is saved |
| `JsonText.Hex4` | lib/storage-utils.ts:74 | four hexadecimal digits denote a value below 0x10000 |
| `JsonText.HexDigitValue` | lib/storage-utils.ts:40-74 | each hexadecimal digit written reads back as its value |
| `JsonText.EscapeCharReads` | lib/storage-utils.ts:40-74 | each character, escaped as `JSON.stringify` escapes it, reads back as itself |
| `JsonText.EscapeRoundTrip` | lib/storage-utils.ts:40-74 | an escaped string reads back as the string, and reading stops right after its closing quote |
| `JsonText.Stringify` | lib/storage-utils.ts:40 | the text is never empty and starts with a character that opens a value |
| `JsonText.ValueRoundTrip` | lib/storage-utils.ts:40-74 | a stringified value reads back as itself, whatever text follows it |
| `JsonText.ArrayRoundTrip` | lib/storage-utils.ts:40-74 | a stringified array reads back as the same items |
| `JsonText.ObjectRoundTrip` | lib/storage-utils.ts:40-74 | a stringified object reads back as the same members, in order |
| `JsonText.ItemsRoundTrip` | lib/storage-utils.ts:40-74 | comma-separated items read back as the same items |
| `JsonText.MembersRoundTrip` | lib/storage-utils.ts:40-74 | comma-separated members read back as the same members |
| `JsonText.ParseStringify` | lib/storage-utils.ts:40-74 | `JSON.parse(JSON.stringify(j))` gives back `j` |
| `Base64.SextetOfAlphabet` | lib/storage-utils.ts:224-241 | each alphabet character decodes to its own index |
| `Base64.Encode` | lib/storage-utils.ts:224-226 | the output has four characters for each started group of three input characters |
| `Base64.Btoa` | lib/storage-utils.ts:224-226 | `btoa` succeeds exactly when every character is at most U+00FF |
| `Base64.Group` | lib/storage-utils.ts:229-231 | a group of four characters decodes to one to three bytes, fewer than three only in the last group |
| `Base64.Atob` | lib/storage-utils.ts:229-231 | what `atob` returns is made of single bytes |
| `Base64.QuadDecodes` | lib/storage-utils.ts:224-231 | the four sextets of three bytes put back together give the three bytes |
| `Base64.AtobBtoa` | lib/storage-utils.ts:224-241 | `atob(btoa(s)) == s` whenever `btoa(s)` does not throw |
| `Base64.EncodeAlphabet` | lib/storage-utils.ts:224-226 | every character `btoa` writes is in the alphabet or is the padding `=` |
| `NotionClient.FragmentShape` | lib/notion-client.ts:147-173 | a known block type is its first text wrapped in its own tags, with an empty body when the text is missing; any other type contributes nothing |
| `NotionClient.ConcatAppend` | lib/notion-client.ts:145-176 | concatenating two lists of fragments one after the other is concatenating each and joining the results |
| `NotionClient.HtmlAppend` | lib/notion-client.ts:142-177 | the HTML of two lists of blocks one after the other is one HTML after the other |
| `NotionClient.HtmlSnoc` | lib/notion-client.ts:145-176 | one more block adds its fragment at the end |
| `NotionClient.HtmlIgnoresUnknown` | lib/notion-client.ts:171-173 | a block of an unknown type can be dropped without changing the HTML |
| `NotionClient.ConvertBlocksToHtml` | lib/notion-client.ts:142-177 | the `html +=` loop returns the concatenation of the blocks' fragments, in order |
| `NotionClient.PageTitle` | lib/notion-client.ts:180-188 | the title's first text when it is not empty, else the Name's, else "Untitled Page"; never empty |
| `NotionClient.RemoveDashes` | lib/notion-client.ts:118 | the result has no dash, is no longer than the id, and has only the id's characters |
| `NotionClient.RemoveDashesKeeps` | lib/notion-client.ts:118 | removing dashes from two texts one after the other is removing them from each, so every other character is kept in order |
| `NotionClient.RemoveDashesFixpoint` | lib/notion-client.ts:118 | an id without dashes is kept as it is |
| `NotionClient.RemoveDashesIdempotent` | lib/notion-client.ts:118 | removing the dashes twice is removing them once |
| `NotionClient.PageUrl` | lib/notion-client.ts:118 | the URL is `https://notion.so/` followed by the id without its dashes |
| `NotionClient.CreatedPage` | lib/notion-client.ts:115-120 | the created page's URL is the Notion base followed by that page's own id with its dashes removed, so nothing after the base is a dash; id, title and time are the API's id, the requested title and the current time |
| `NotionClient.Pages` | lib/notion-client.ts:65-70 | one page per API result, in order, keeping the result's id, URL and edit time and titled by `getPageTitle`, so no page has an empty title |
| `NotionClient.Databases` | lib/notion-client.ts:36-40 | one database per API result, in order, with its id and URL, titled by its first text or "Untitled Database" |
| `SearchRoute.Matches` | app/api/search/route.ts:117-118 | the number of matching pieces is at most the number of pieces |
| `SearchRoute.Score` | app/api/search/route.ts:109-120 | ignoring ASCII case: 100 when the text starts with the query, 50 when it contains it elsewhere, and otherwise a multiple of ten no larger than ten per space-separated piece of the query |
| `SearchRoute.ScoreTiers` | app/api/search/route.ts:115-120 | below the two whole-query tiers the score is ten per matching piece, and a one-word query that does not occur scores 0 |
| `SearchRoute.ScatteredPiecesScore` | app/api/search/route.ts:115-120 | when every piece of the query occurs but the whole query does not, the score is ten per piece, so a query of more than ten such pieces outscores a prefix match |
| `SearchRoute.AllMatch` | app/api/search/route.ts:117-118 | when every piece occurs, every piece counts |
| `SearchRoute.NoMatchWhole` | app/api/search/route.ts:117-119 | a one-word query that does not occur has no matching piece |
| `SearchRoute.SplitNoSpaceWhole` | app/api/search/route.ts:117 | a query without a space splits into itself alone |
| `SearchRoute.ToLowerIdempotent` | app/api/search/route.ts:110-111 | lowercasing twice is lowercasing once |
| `SearchRoute.ScoreIgnoresCase` | app/api/search/route.ts:110-111 | the score ignores case in both the text and the query |
| `SearchRoute.EmptyPieceMatches` | app/api/search/route.ts:117-118 | an empty piece, from two spaces in a row or a trailing space, occurs in every text and always scores |
| `SearchRoute.Insert` | app/api/search/route.ts:97 | inserting a result adds exactly that result |
| `SearchRoute.InsertNonIncreasing` | app/api/search/route.ts:97 | inserting into results in non-increasing score order keeps that order |
| `SearchRoute.SortByScore` | app/api/search/route.ts:97 | the sorted results are in non-increasing order of score, a permutation of the input, and results with equal scores keep their relative order (the sort is stable) |
| `SearchRoute.InsertWithScore` | app/api/search/route.ts:97 | inserting a result changes the results of its own score only by adding it, and leaves those of any other score alone |
| `SearchRoute.ProjectHits` | app/api/search/route.ts:54-58 | one project result per project row, in order, with that row's id, scored by its name and so in one of the score tiers of the query |
| `SearchRoute.DocumentHits` | app/api/search/route.ts:89-93 | one document result per document row, in order, with that row's id, scored by its title and so in one of the score tiers of the query |
| `SearchRoute.Search` | app/api/search/route.ts:6-99 | 401 exactly when there is no session user; a blank query returns no results whatever the database holds; otherwise the results are exactly the scored hits of the searched kinds, in non-increasing order of score, with equal scores in their collected order |
| `SearchRoute.TypeFilter` | app/api/search/route.ts:29-62 | `type=projects` gives only projects, `type=documents` only documents, `all` both, and any other type nothing |
| `ProjectsRoute.StripEdgesForm` | app/api/projects/route.ts:317 | dropping one leading and one trailing dash from dash-collapsed text leaves a text in slug form |
| `ProjectsRoute.Slug` | app/api/projects/route.ts:317 | every slug uses only `[a-z0-9-]`, has no `--`, and neither starts nor ends with a dash; a name already in that form is its own slug |
| `ProjectsRoute.SlugKeepsAlnums` | app/api/projects/route.ts:317 | the slug's `[a-z0-9]` characters are exactly those of the lower-cased name, in the same order; only the other characters are replaced or dropped |
| `ProjectsRoute.SlugFormFixed` | app/api/projects/route.ts:317 | lowercasing, dashifying and trimming dashes leave a text in slug form unchanged |
| `ProjectsRoute.SlugIdempotent` | app/api/projects/route.ts:317 | slugifying a slug returns it unchanged |
| `ProjectsRoute.LookupAsWritten` | app/api/projects/route.ts:245-246 | the object lookup, as written, yields an inherited property exactly for the names every object inherits |
| `ProjectsRoute.InheritedTemplate` | app/api/projects/route.ts:245-246 | as written, template id "toString" yields the inherited function rather than null |
| `ProjectsRoute.TemplateContent` | app/api/projects/route.ts:8-247 | text exactly for docs, changelog and faq, never empty, and null for any other id |
| `ProjectsRoute.TemplateContentAgrees` | app/api/projects/route.ts:245-246 | the corrected lookup agrees with the object literal on its own keys and on every id that is not an inherited name |
| `ProjectsRoute.CreateProject` | app/api/projects/route.ts:299-373 | a refusal writes nothing; a created project is appended as the one new project row, its slug in slug form and not taken before, with at most one document added after the existing ones; unique slugs stay unique; 400 for validation exactly when a signed-in request has no or an empty name, and a signed-in request with a name whose slug is free is created |
| `ProjectsRoute.CreateProjectRejects` | app/api/projects/route.ts:299-331 | every answer but 201 leaves the database as it was; 401 exactly when there is no session user; a slug already in use gives 400, and 400 for the slug only then |
| `ProjectsRoute.CreatedProject` | app/api/projects/route.ts:313-349 | a created project is the one new row, owned by the session user, with the slug of its name in slug form, `isPublic` defaulting to false, and the slugs stay unique |
| `ProjectsRoute.CreatedTemplateDocument` | app/api/projects/route.ts:354-368 | a "getting-started" document holding the template's content is created exactly when a template id is given and its content exists; otherwise no document is added |
| `TemplatesRoute.TemplateList` | app/api/templates/route.ts:7-157 | GET returns three templates, docs, changelog and faq, in that order, each with content |
| `TemplatesRoute.FindTemplate` | app/api/templates/route.ts:329 | `find` succeeds exactly when some template has the id, and then yields that template's content |
| `TemplatesRoute.PostTemplatesMatchGet` | app/api/templates/route.ts:193-332 | the templates POST searches have exactly the ids and contents GET lists |
| `TemplatesRoute.FindProject` | app/api/templates/route.ts:178-186 | a project found has the slug and is owned by or shared with the user; none found means no such project exists |
| `TemplatesRoute.CreateFromTemplate` | app/api/templates/route.ts:160-348 | a refusal writes nothing; a created document is the one new row, its slug in slug form and its content non-empty; 400 exactly when a signed-in request lacks the template id, the project slug or the title; a signed-in request with all three, an editable project and a listed template is created |
| `TemplatesRoute.CreateFromTemplateRejects` | app/api/templates/route.ts:160-332 | each refusal writes nothing; 401 exactly without a user; 400 for a missing field before any lookup; 404 only when no editable project has the slug, or when the template id is not listed |
| `TemplatesRoute.CreatedFromTemplate` | app/api/templates/route.ts:335-346 | the created document is the one new row, in a project the user can edit, titled as asked, with the title's slug in slug form and the chosen template's content |
| `SocialAutomate.CloseAt` | app/api/social/automate/route.ts:127 | the position of the first `>`, with none before it, or none when the text has no `>` |
| `SocialAutomate.StripTags` | app/api/social/automate/route.ts:127 | stripping never lengthens the text and keeps only characters it had (which text is kept: `StripTagsKeepsText`, `StripTagsDropsTag`) |
| `SocialAutomate.StripTagsNoTags` | app/api/social/automate/route.ts:127 | after stripping, no `<` is followed anywhere later by a `>`, so no tag is left |
| `SocialAutomate.StripTagsPlain` | app/api/social/automate/route.ts:127 | a text without `<` is kept as it is |
| `SocialAutomate.StripTagsKeepsText` | app/api/social/automate/route.ts:127 | the text before the first `<` is kept unchanged, and the rest is stripped on its own |
| `SocialAutomate.StripTagsDropsTag` | app/api/social/automate/route.ts:127 | a tag `<t>` with no `>` inside `t` is removed entirely, up to its first `>`, and the rest is stripped on its own |
| `SocialAutomate.PlatformLookupAsWritten` | app/api/social/automate/route.ts:137-138 | the object lookup, as written, yields an inherited property exactly for the names every object inherits |
| `SocialAutomate.InheritedPlatform` | app/api/social/automate/route.ts:137-141 | as written, platform "toString" is not a listed platform yet finds the inherited function instead of falling back to twitter |
| `SocialAutomate.GenerateSocialContent` | app/api/social/automate/route.ts:125-142 | the post is the selected platform's frame around the title and the excerpt, nothing dropped: it starts with the frame's opening words and the title, holds the excerpt right after the middle words, and its length is the sum of the parts; an unlisted platform selects the twitter frame |
| `SocialAutomate.GeneratedContent` | app/api/social/automate/route.ts:125-142 | a post starts with its platform's opening words and the title, then quotes the excerpt, which has no tag and at most 200 characters; an unlisted or absent platform gets exactly the twitter text |
| `SocialAutomate.SocialPosts.constructor` | app/api/social/automate/route.ts:92-101 | the post table starts empty |
| `SocialAutomate.SocialPosts.Create` | app/api/social/automate/route.ts:92-101 | a created post is appended as the one new row and its id is its position |
| `SocialAutomate.SocialPosts.SetStatus` | app/api/social/automate/route.ts:148-172 | only that row's status changes |
| `SocialAutomate.FindBySlug` | app/api/social/automate/route.ts:26-56 | a document found has the slug, and is visible to the user when only visible documents are searched; none found means no such document exists |
| `SocialAutomate.LookupFallsBack` | app/api/social/automate/route.ts:26-61 | a document is found exactly when some document has the slug, and a visible one is preferred when there is one |
| `SocialAutomate.TriggeredUpTo` | app/api/social/automate/route.ts:107-113 | triggering keeps the number of posts |
| `SocialAutomate.PostsShape` | app/api/social/automate/route.ts:79-113 | each post carries its platform, the document's id and the user; its text is the platform's generated text with auto-generation and the given message otherwise; it is scheduled exactly when a time is given and a draft otherwise; triggering makes it published, or failed when the update throws, and keeps its text |
| `SocialAutomate.Automate` | app/api/social/automate/route.ts:6-123 | 401 exactly without a user; 404 when no document has the slug; 400 with the document's id when it is unpublished, and then no post is written; a signed-in request for a published document is always answered with the posts: one post per platform is written, and triggered when no time is given; the message says scheduled or published |
| `SocialAutomate.CreatePosts` | app/api/social/automate/route.ts:85-104 | the creating loop writes exactly the posts of the definition, in platform order |
| `SocialAutomate.TriggerPosts` | app/api/social/automate/route.ts:107-113 | the triggering loop sets each created post to published or failed, and leaves earlier rows alone |
| `Text.TrimStartShape` | lib/markdown-utils.ts:263-268 | `trim` removes exactly the leading run of whitespace, leaving a suffix that does not start with whitespace |
| `Text.TrimEndShape` | lib/markdown-utils.ts:263-268 | `trim` removes exactly the trailing run of whitespace, leaving a prefix that does not end with whitespace |
| `Text.BlankIffTrimEmpty` | app/api/search/route.ts:22 | `!query.trim()` holds exactly when the query is empty or all whitespace |
| `Text.FindSpec` | lib/validation-utils.ts:118 | a search finds the first occurrence at or after the start position, and none means there is no occurrence there |
| `Text.ContainsIff` | app/api/search/route.ts:114 | `includes` holds exactly when the pattern occurs somewhere |
| `Text.Split` | lib/markdown-utils.ts:255 | `split` always yields at least one piece |
| `Text.JoinSplit` | lib/export-utils.ts:201 | joining the pieces of a split with the same separator gives the text back |
| `Text.SplitWs` | lib/markdown-utils.ts:354 | `split(/\s+/)` always yields at least one piece |
| `Text.DashifyShape` | app/api/projects/route.ts:317 | replacing each `[^a-z0-9]+` run by `-` leaves only `[a-z0-9-]`, never `--`, starts with a dash exactly when the text starts with another character, and is empty only for empty text |
| `Text.DashifyFixpoint` | app/api/projects/route.ts:317 | a text of `[a-z0-9-]` without `--` is left as it is |
| `Text.DashifyKeepsAlnums` | app/api/projects/route.ts:317 | replacing the `[^a-z0-9]+` runs keeps every `[a-z0-9]` character, in order, and adds none |
| `Text.ToLowerFixpoint` | app/api/projects/route.ts:317 | lowercasing leaves a text of `[a-z0-9-]` as it is |

## Left out

- `UseCollaboration`: socket events are not tied to the socket that raised them. The hook has one `socket` field, and `AfterClose`/`AfterOpen` act on it whatever socket the event came from. In the source each `ws.onclose` and `ws.onopen` closes over its own `ws` and never compares it with `wsRef.current` (lib/use-collaboration.ts:43-118). So after the effect's cleanup, when `documentId` changes, the old socket's late `onclose` still marks the hook disconnected and schedules the OLD closure's `connectWebSocket`. When that timer fires, it replaces `wsRef.current` with a socket to the previous document. The model has no per-socket document and does not capture this superseded-socket behaviour.
- Transport: the Socket.IO and `ws` servers, the browser `WebSocket` and the socket bootstrap route are not part of this model. Each event is one atomic call on the registry, and the `await` inside join-document is not interleaved with other events.
- Database, session, Notion API: Prisma queries, `getServerSession` and the Notion SDK calls are inputs. These are the rows a query returns, the session's user id, and a flag for a write that throws.
- A `take: 10` or `take: 20` limit in the search queries belongs to the query, so it is part of the input rows.
- Clocks, random ids and colours: `new Date()`, `Date.now()`, `Math.random` and `generateId` are parameters (`now`, the new id). Real `setTimeout`/`setInterval` are a pending due time and a flag; only their firing is a step.
- Floating point: the storage usage percentage is left out, so `GetStorageUsage` returns `used` and `total` only.
- Date sorting: `getAllDocuments` and `exportAllDocuments`, which sort by parsed `updatedAt` dates, are not modelled.
- JSON numbers: the JSON model has strings, booleans, null, arrays and objects but no numbers. A document's fields are all strings, so `JSON.stringify` of a document stays within it.
- JSON parsing: `JsonText.Parse` does not treat duplicate object keys the way `JSON.parse` does, and it rejects every `\u` escape from D800 to DFFF, a valid surrogate pair included, where `JSON.parse` accepts them. A stored text holding such an escape therefore loads as null in the model, and `StorageUtils.DocumentStorage.ImportDocuments` counts it as failed where the source imports it. `Parse` also accepts `\/` and any `\u` escape of a non-surrogate, which `Stringify` never writes.
- `Base64.Atob`: it reads only padded base64 of the length `btoa` writes. JavaScript's `atob` also tolerates missing padding and embedded whitespace; that leniency is left out.
- Text: `toLowerCase` is modelled on ASCII letters only. `charCodeAt`, `length` and `substring` count characters, not UTF-16 code units.
- Template texts: the built-in templates of the projects and templates routes are abbreviated to their first heading line. Only their identity, non-emptiness and agreement between GET and POST matter, and the POST copies are the same texts as GET's.
- Regex renderers: `processMarkdown`, `markdownToHTML` and the UI components are not part of this model.
- `SearchRoute.SortByScore`: the in-place `Array.prototype.sort` with the comparator `b.searchScore - a.searchScore` is modelled on values as a stable insertion sort. The handler's `results` array is a value, not a mutated array.
- `SocialAutomate.Automate`: `Promise.all` is modelled as running the creates, then the status updates, one after another in platform order. A create that throws (a 500 after some posts were written), an undefined `documentSlug` or `message`, and a `platforms` value that is not an array are not modelled.
- `SocialAutomate.Automate`: the source checks only `session.user`, not its id; the model takes the user id as present with the user.
- `SocialAutomate.Automate`: the response's `posts` are the rows as created, with draft or scheduled status, while the table then holds published or failed. The model returns exactly that.
- `StorageUtils.AutoSave.UpdateContent`: the source mutates the document object the caller passed to `startAutoSave`. The model keeps the current document as a value, so that aliasing is not captured.
- `StorageUtils.DocumentStorage.ImportDocuments`: a save that throws inside `forEach` is caught by `saveDocument` itself. The model's `writeFails` flag applies to every save of one import alike.
- `WebSocketServer`: which connections are OPEN is an input to each broadcast. A `send` that throws is not modelled.
- RoomPresence (`SocketServer.RoomPresence`) and the `room-users` list: the room is a set, so the order in which `Array.from` enumerates the `Set` (joining order) is not captured. The list's members are.
- `SocketServer.Recipients`: the Socket.IO room is modelled by the server's own `documentSessions` set. Socket.IO itself drops a disconnected socket from every room, so after the case of `SocketServer.RejoinLeavesStaleMembership` the model still lists the stale socket in the old room's recipients, where Socket.IO would not deliver to it.
- `CollaborationRoute.Route`: a `request.json()` or `findUnique` that throws (answered 500 by the handlers' `catch`) is not modelled. Only the database write that follows registration can fail, through `dbFails`.
- `ProjectsRoute.CreateProject`, `TemplatesRoute.CreateFromTemplate`, `SocialAutomate.Automate`: a `request.json()` that throws on a body that is not JSON (app/api/projects/route.ts:310, app/api/templates/route.ts:167, app/api/social/automate/route.ts:21) is answered 500 by the handler's `catch`. The models take the parsed body as their input, so this 500 path is not modelled.
- `TemplatesRoute.CreateFromTemplate`: `title` is typed as a string. A truthy `title` that is not a string makes `title.toLowerCase()` throw (app/api/templates/route.ts:335), which the handler answers with a 500. That path is not modelled.
- `SocialAutomate.TriggerPosts`: the `update` inside `triggerSocialPost`'s own `catch` can throw too (app/api/social/automate/route.ts:166). It would reject `Promise.all` and answer 500; the model lets every failing update end as "failed".
- `UseCollaboration`: React rendering and state batching are not part of this model. Each `setUsers`/`setTypingUsers` reducer is applied at once.

## Notes on the code

The model follows the code as written, with two exceptions, both listed under Findings. `ProjectsRoute.CreateProject` uses the corrected `ProjectsRoute.TemplateContent`: as written, a template id such as "toString" yields an inherited function, so the project row is written and the document create then fails with a 500 (app/api/projects/route.ts:354-384). `SocialAutomate.PostFor` uses the corrected `SocialAutomate.GenerateSocialContent`: as written, such a platform yields the inherited function in place of a post text. Where the code departs from the project's own description of its behaviour, or behaves in a way worth noting, the case is listed here.
- The WebSocket server also delivers `document_change` and `typing_stop` back to the sender, because they are broadcast without `excludeWs` (server/websocket-server.ts:44-76).
- `handleTyping` sends `typing_start` on every call, not only on the first of a burst (lib/use-collaboration.ts:152-164).
- The Socket.IO `document-change` handler relays to the named room without checking that the sender has a session. It takes the user id and name from the payload (lib/socket-server.ts:121-139).
- A re-join on the same socket leaves the socket in the old room's set. `SocketServer.RejoinLeavesStaleMembership` states it.
- In `validateBestPractices` the inconsistent-list-spacing suggestion can never be made. `ValidationUtils.ListSpacingNeverSuggested` states it.
- In `useCollaboration`, cleanup closes the socket, and the close event it triggers schedules a reconnect again. `UseCollaboration.CleanupThenCloseReconnects` states it.
- In `calculateSearchScore` the partial-word tier can equal or exceed the 50 and 100 tiers for queries with many pieces. `SearchRoute.ScatteredPiecesScore` states when, and `SearchRoute.EmptyPieceMatches` shows that even empty pieces score.
- The automate route's lookup falls back to any document with the slug, so a user can post about a document in a private project they cannot see. `SocialAutomate.LookupFallsBack` states the fallback.

## Findings

| source | as written | input that shows it | evidently intended | confidence | as-written member | corrected member |
|---|---|---|---|---|---|---|
| app/api/projects/route.ts:246 | the lookup falls back to null only when it is falsy, and it also finds properties every object inherits | template id `"toString"`: the lookup yields the inherited function, which is truthy, so a "Getting Started" document is created with a function as its content (and fails after the project row was written) | null, and no document, for any id other than docs, changelog and faq | not executed | `ProjectsRoute.LookupAsWritten`, `ProjectsRoute.InheritedTemplate` | `ProjectsRoute.TemplateContent` |
| app/api/social/automate/route.ts:137-141 | `templates[platform]` also finds properties every object inherits | platform `"toString"`: the inherited function is returned in place of a post text | the twitter text for any platform other than twitter, linkedin, facebook and instagram | not executed | `SocialAutomate.PlatformLookupAsWritten`, `SocialAutomate.InheritedPlatform` | `SocialAutomate.GenerateSocialContent` |
