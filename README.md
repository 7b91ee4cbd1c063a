# Canvas2Code real-time sync, modelled in Dafny

Canvas2Code lets browsers that share a six-digit room code draw on one board, edit one code document, chat, and see each other's webcams. This project models the part that keeps these in step:

- the socket.io relay server (`relay.dfy`, module `Relay`);
- the board's stroke log and chat log (`board.dfy`, module `Board`);
- the code editor's whole-text sync with its `isTyping` echo suppression (`code_editor.dfy`, module `CodeEditor`);
- the video panel's peer list, media fallback chain and track toggles (`video_call.dfy`, module `VideoCall`);
- the landing page's room-code rules and sign-in guard (`landing.dfy`, module `Landing`).

`strings.dfy` (module `Strings`) holds the JavaScript string behaviour these need. That is decimal numerals, `join`/`split`, `trim`'s white space and UTF-16 `length`. `wrappers.dfy` holds `Option`.

State that the code changes in place is a class: `RelayServer`, `BoardState`, `Editor`, `CallPanel`, `Track` and `LoginButton`. Each handler is a method on that class. Pure computations are functions. The audience of a relay emit, the log after a drag, the SVG text and the run output are examples. Lemmas relate these functions over whole runs of events.

Network transports, timers, the camera API and the random source are inputs to the model. A socket event is a method call. A timer firing is `Editor.OnResetTimer`. A `getUserMedia` outcome is a function from constraints to an optional stream. The random room code `Math.floor(100000 + Math.random() * 900000)` is represented by `r`, the generated code minus 100000, which is below 900000. Stroke ids and chat timestamps are parameters.

The model follows the code as written. Some of its behaviour may surprise a reader of the UI:

- A remote `canvas-data` is always appended as a new entry. Strokes are not merged by id. Every mouse-move sends the whole stroke so far, so a peer gets one entry per move (`Board.ReceiverGetsOneEntryPerMove`). It does not get one stroke per drag.
- `canvas-data`, `code-change` and `send-message` reach every connected socket except the sender, and `clear` reaches all sockets, the sender included, whatever room they are in. Only `join-room` and the disconnect notices are room-scoped.
- A socket can be in several rooms at once. On disconnect, every join it made sends a `user-disconnected` to that room, and two joins to the same room send two notices. A reader might expect a single notice to the room last joined.
- No handler removes a peer from the video list. The client has no `user-disconnected` listener.
- The first reset timer to fire clears `isTyping`, even when a newer edit's timer is still pending. Remote text can therefore overwrite the local text less than 1000 ms after the last keystroke (`CodeEditor.FirstResetReopens`).
- `joinRoom` checks only that the code's JavaScript length is 6. It does not check for digits. A character above U+FFFF, such as most emoji, counts as two there (`Strings.Utf16LengthIffBmp`).

## Model

| member | source | states |
|---|---|---|
| Relay.RelayServer.constructor | server/index.js:19-21 | The server starts with no sockets. Its invariant holds from then on: the room table matches the joins, and `users` stays empty because no handler writes it. |
| Relay.RelayServer.Connect | server/index.js:21 | A new connection adds a socket with no rooms and no disconnect listeners. Nothing else changes. |
| Relay.RelayServer.OnCanvasData | server/index.js:25-27 | One emit, with the payload unchanged, to exactly the connected sockets other than the sender. Rooms play no part. |
| Relay.RelayServer.OnClear | server/index.js:29-31 | One `clear` to exactly the connected sockets, the sender included. |
| Relay.RelayServer.OnCodeChange | server/index.js:34-36 | Re-emitted as `code-update` with the same payload to every connected socket except the sender. |
| Relay.RelayServer.OnSendMessage | server/index.js:39-41 | Re-emitted as `receive-message` with the same payload to every connected socket except the sender. |
| Relay.RelayServer.OnJoinRoom | server/index.js:44-49 | The socket's rooms become its old rooms plus `r`. One more disconnect listener for `(r, u)` is registered. `user-connected(u)` goes to exactly the other members of `r`, which may be nobody. |
| Relay.RelayServer.OnDisconnect | server/index.js:51-53 | The socket leaves the server. Its emits are exactly the notices its listeners send, one per join, in registration order. |
| Relay.JoinedRooms | server/index.js:44-45 | A socket's rooms are exactly the rooms named in its joins. |
| Relay.JoinedRoomsSnoc | server/index.js:45 | One more join adds exactly its room to the socket's rooms. |
| Relay.Members | server/index.js:48-53 | The audience of `socket.to(roomId)` before the sender is removed: exactly the sockets whose rooms include the room. |
| Relay.DisconnectNotices | server/index.js:51-53 | There is one notice per join. Notice i carries that join's user id and goes to exactly the members of its room other than the leaver. |
| Relay.DisconnectReceived | server/index.js:51-53 | The leaver receives nothing. Another socket receives one `user-disconnected` per join into a room it is in, in join order. |
| Board.NewStroke | client/components/Board.tsx:66-68 | A new stroke holds one point `[x, y]` and the given id and tool. Its style is `#df4b26`/5 for the pen and `#ffffff`/20 for the eraser. |
| Board.MoveLast | client/components/Board.tsx:78-81 | The log keeps its length and every stroke but the last. The last stroke, whoever drew it, gets `[x, y]` at the end of its points. |
| Board.DragFlattens | client/components/Board.tsx:74-85 | A run of moves adds all its coordinates, in order, to the last stroke only. |
| Board.DragStep | client/components/Board.tsx:78-85 | Each move's log step is `MoveLast`. The stroke it sends is the dragged stroke with every point so far. |
| Board.StrokePointsInOrder | client/components/Board.tsx:63-85 | After a mouse-down and k moves, the log is the old log plus one stroke. That stroke's points are all k + 1 points, flattened in order. |
| Board.FragmentAt | client/components/Board.tsx:85 | The i-th stroke sent during a drag has the stroke's id and the points of the first i + 1 moves. |
| Board.ArrivalsAppend | client/components/Board.tsx:33-38 | Any run of received `canvas-data` gives the old log followed by every payload, in arrival order. |
| Board.ReceiverGetsOneEntryPerMove | client/components/Board.tsx:33-38 | A peer that receives a k-move drag gains k entries, all with the same stroke id. Earlier entries are kept. The last entry equals the drawer's finished stroke. |
| Board.OrDefault | client/components/Board.tsx:96-97 | A missing or empty name or email is replaced by the default. Any other value is kept. |
| Board.ComposeMessage | client/components/Board.tsx:91-99 | Nothing is sent if and only if the input is only JavaScript white space. Otherwise the text is the input as typed, and the sender and email default to "Guest" and "No Email". |
| Board.PathElement | client/components/Board.tsx:106 | Each stroke renders as one self-closing `<path d="M ..." ... />` element. Its `d` data is the stroke's comma-joined coordinates and its `stroke` attribute is the stroke's colour. |
| Board.PathDataSplits | client/components/Board.tsx:106 | The path data of a stroke with points, cut at its commas, gives back exactly one numeral per coordinate, in order. So no coordinate is lost, merged or reordered. |
| Board.Svg | client/components/Board.tsx:106 | The export is the comma-separated path elements inside one `<svg width="100%" height="100%">` element. |
| Board.SvgEmpty | client/components/Board.tsx:106 | An empty board exports `<svg width="100%" height="100%"></svg>`. |
| Board.SvgAppend | client/components/Board.tsx:106 | One more stroke adds "," and its `<path>` after the earlier paths. The paths appear in log order. |
| Board.BoardState.constructor | client/components/Board.tsx:16-29 | The board starts with empty logs, empty input, the pen tool and no drawing. |
| Board.BoardState.SetTool | client/components/Board.tsx:116-118 | A toolbar button sets the tool. |
| Board.BoardState.OnCanvasData | client/components/Board.tsx:33-38 | The payload becomes exactly one more entry. Earlier entries keep their order. |
| Board.BoardState.OnClear | client/components/Board.tsx:41 | The log is empty afterwards. A second clear changes nothing. |
| Board.BoardState.OnReceiveMessage | client/components/Board.tsx:43 | The message is appended at the end of the chat log. |
| Board.BoardState.MouseDown | client/components/Board.tsx:63-72 | With the hand tool nothing changes. Otherwise drawing starts and exactly one `NewStroke` is appended. |
| Board.BoardState.MouseMove | client/components/Board.tsx:74-86 | Nothing changes and nothing is sent when not drawing, with the hand tool, or with an empty log. Otherwise the log becomes `MoveLast` and the updated last stroke is sent. |
| Board.BoardState.MouseUp | client/components/Board.tsx:88 | Drawing stops. |
| Board.BoardState.SetChatInput | client/components/Board.tsx:155 | The input holds the typed text. |
| Board.BoardState.SendChat | client/components/Board.tsx:91-103 | Blank input changes nothing. Otherwise the composed message is sent, appended once, and the input is emptied. |
| Board.BoardState.GenerateCode | client/components/Board.tsx:105-108 | The modal opens and shows `Svg` of the current log. |
| Board.DragMoves | client/components/Board.tsx:74-86 | While drawing, k moves leave the log as `Drag` of the old log over those points. The k strokes sent are the drag's fragments, one per move. |
| Board.DrawStroke | client/components/Board.tsx:63-86 | Run with the handlers, a mouse-down and k moves add one stroke holding all k + 1 points in order. Earlier strokes and the chat are unchanged. The k strokes sent are the drag's fragments. |
| CodeEditor.TypingAfter | client/components/CodeEditor.tsx:44-63 | The flag after a run of events is set only if some edit happened, and always right after an edit. |
| CodeEditor.TypingIffEditSinceLastReset | client/components/CodeEditor.tsx:52-63 | The typing flag is set exactly when some edit happened after the most recent reset firing. |
| CodeEditor.RunOutput | client/components/CodeEditor.tsx:86-94 | A thrown error gives ["Error: Compiler API unavailable."] and a missing `run` gives ["Error: Execution failed."]. Otherwise the lines joined by "\n" give back the first non-empty of stdout, stderr and "No Output". No line contains "\n". |
| CodeEditor.Editor.constructor | client/components/CodeEditor.tsx:26-30 | The editor starts with the placeholder text, "python" (which has a version), the placeholder output and a clear flag. |
| CodeEditor.Editor.LoadInitialCode | client/components/CodeEditor.tsx:33-39 | A non-empty initial text replaces the document and is sent with the current language. An absent or empty one changes nothing and sends nothing. |
| CodeEditor.Editor.OnLocalEdit | client/components/CodeEditor.tsx:52-64 | The flag is set, and the text becomes the new value or "" when there is none. `{code, language}` is sent with the current language. One more reset is pending. |
| CodeEditor.Editor.OnResetTimer | client/components/CodeEditor.tsx:63 | Any pending reset that fires clears the flag, even if edits came after it was scheduled. The invariant keeps the count of pending resets equal to edits minus firings, and while the flag is set a reset is always pending, so every suppression ends. |
| CodeEditor.Editor.OnCodeUpdate | client/components/CodeEditor.tsx:42-48 | While typing, the text is unchanged. Otherwise the text becomes the incoming code. The language is never touched. |
| CodeEditor.Editor.OnLanguageChange | client/components/CodeEditor.tsx:66-71 | Only the language changes. The text stays and nothing is sent. |
| CodeEditor.Editor.RunRequest | client/components/CodeEditor.tsx:80-84 | The request carries the current language, its listed version (always present) and the current text. |
| CodeEditor.Editor.OnRunStarted | client/components/CodeEditor.tsx:73-75 | Running starts: the button is disabled and the pane says "Running...". |
| CodeEditor.Editor.OnRunFinished | client/components/CodeEditor.tsx:86-97 | The output is `RunOutput` of the response and running stops. |
| CodeEditor.FirstResetReopens | client/components/CodeEditor.tsx:52-63 | Two edits, then the first timer fires: the next remote update overwrites the typed text while one reset is still pending. |
| CodeEditor.DefaultLanguageListed | client/components/CodeEditor.tsx:9-27 | The default language "python" has the entry "3.10.0". |
| VideoCall.AddPeerStream | client/components/VideoCall.tsx:76-81 | A known id leaves the list unchanged. A new id appends exactly one entry at the end. |
| VideoCall.AddKeepsDistinct | client/components/VideoCall.tsx:78-79 | Peer ids stay pairwise distinct. |
| VideoCall.AddIdempotent | client/components/VideoCall.tsx:78 | Adding the same id a second time, with any stream, changes nothing. |
| VideoCall.AddAllGrows | client/components/VideoCall.tsx:76-81 | Over any run of arrivals the list never shrinks, old entries keep their places, ids stay distinct and every arriving id is present. |
| VideoCall.AddAllExtends | client/components/VideoCall.tsx:76-81 | Arrivals only append: the old list is a prefix and at most one entry is added per arrival. |
| VideoCall.AddAllDistinct | client/components/VideoCall.tsx:78-79 | Over any run of arrivals, peer ids stay pairwise distinct. |
| VideoCall.AddAllIds | client/components/VideoCall.tsx:76-81 | The ids present afterwards are exactly the earlier ids and the arriving ids. |
| VideoCall.FirstStreamWins | client/components/VideoCall.tsx:78-79 | The entry for a new id holds the stream of its first arrival. |
| VideoCall.NotYetAdded | client/components/VideoCall.tsx:78-79 | An id that no arrival carries is never added. |
| VideoCall.AcquireMedia | client/components/VideoCall.tsx:29-46 | Camera and microphone are tried first, then camera only, then microphone only. The first success wins. There is no stream exactly when all three fail. |
| VideoCall.FirstTrack | client/components/VideoCall.tsx:91 | The result is the earliest track of the kind, or none when the stream has no such track. |
| VideoCall.CallPanel.constructor | client/components/VideoCall.tsx:10-18 | The panel starts with no peer, no peers listed, no stream, no error and no listeners. |
| VideoCall.CallPanel.Mount | client/components/VideoCall.tsx:20-24 | A peer is created only when none exists, so at most one is ever created. |
| VideoCall.CallPanel.Unmount | client/components/VideoCall.tsx:72 | Cleanup removes only the `user-connected` listener. |
| VideoCall.CallPanel.OnOpen | client/components/VideoCall.tsx:26-70 | `join-room(roomId, id)` is announced exactly when some media request succeeds. The stream is the first available one and both listeners are then registered. When all fail, the error is set and nothing is announced or registered. |
| VideoCall.CallPanel.OnIncomingCall | client/components/VideoCall.tsx:55-60 | Once listening, a call is answered with the local stream and the caller's stream is recorded under the caller's id. Before that nothing happens. |
| VideoCall.CallPanel.OnUserConnected | client/components/VideoCall.tsx:62-86 | Once listening, the newcomer is called with the local stream and its stream is recorded under its user id. |
| VideoCall.CallPanel.ToggleAudio | client/components/VideoCall.tsx:88-94 | The first audio track's `enabled` is flipped in place and `isMuted` becomes its negation. No other track changes. With no audio track nothing changes. |
| VideoCall.CallPanel.ToggleVideo | client/components/VideoCall.tsx:96-102 | The same as ToggleAudio, for the first video track and `isVideoOff`. |
| VideoCall.ToggleAudioTwice | client/components/VideoCall.tsx:88-94 | Toggling twice gives every local track its original flag back. `isMuted` ends as the negation of the audio track's flag. It is back to its old value when there is no audio track or when it agreed with the track beforehand. |
| VideoCall.Converge | client/components/VideoCall.tsx:53-86 | Panel A hears that B joined. Afterwards A's list has B's stream under B's id and B's list has A's stream under A's id. |
| Landing.JoinRoom | client/app/page.tsx:49-52 | The app navigates to `/room/<id>` exactly when the id's JavaScript length is 6. Digits are not checked. |
| Landing.NewRoomCode | client/app/page.tsx:45 | The code has six decimal digits, no leading zero, and the value 100000 + r, which lies in [100000, 999999]. |
| Landing.CreateRoom | client/app/page.tsx:44-47 | `createRoom` navigates to a 12-character path: `/room/` then six digits with no leading zero whose value is 100000 + r. |
| Landing.CreatedRoomIsJoinable | client/app/page.tsx:45-50 | Every created code passes `joinRoom`'s check and leads to the same path. |
| Landing.LoginButton.constructor | client/app/page.tsx:20-22 | The page starts with no user and the guard off. |
| Landing.LoginButton.BeginLogin | client/app/page.tsx:24-26 | A click while a sign-in is pending does nothing. Otherwise the guard is set. |
| Landing.LoginButton.FinishLogin | client/app/page.tsx:27-41 | On success the user is kept and the token is stored, or "" if there is none. Otherwise nothing is kept. The guard is always released. |
| Landing.DoubleClick | client/app/page.tsx:24-41 | A second click during a sign-in starts nothing. Once the sign-in settles, a click starts one again. |
| Strings.JoinSplit | client/components/CodeEditor.tsx:88 | Joining the pieces of `split("\n")` with "\n" gives back the text. |
| Strings.Split | client/components/CodeEditor.tsx:88 | `split` on a one-character separator gives at least one piece, and no piece contains the separator. |
| Strings.SplitJoin | client/components/Board.tsx:106 | `split` undoes `join` when no part contains the separator, for any non-empty list of parts. |
| Strings.TrimEmptyIffBlank | client/components/Board.tsx:92 | `chatInput.trim()` is empty exactly when every character is JavaScript white space (`IsBlank`, built on `IsJsWhiteSpace`). |
| Strings.IntToString | client/components/Board.tsx:106 | A coordinate prints as a non-empty numeral: digits whose value is the number, after a "-" when it is negative. |
| Strings.Utf16Length | client/app/page.tsx:50 | `roomId.length` counts at least one and at most two code units per character. |
| Strings.Utf16LengthIffBmp | client/app/page.tsx:50 | `roomId.length` equals the number of characters exactly when none lies above U+FFFF. |
| Strings.JoinSnoc | client/components/Board.tsx:106 | Joining one more part adds the separator and that part at the end. |
| Strings.NatToStringLength | client/app/page.tsx:45 | A number with k decimal digits prints as exactly k characters. |
| Strings.ParseNatToString | client/app/page.tsx:45 | The printed numeral reads back as the number. |
| Strings.Utf16LengthOfDigits | client/app/page.tsx:50 | A numeral's JavaScript length is its number of characters. |

## Left out

- Transport: socket.io and PeerJS delivery, ordering and reconnection are not modelled. Each delivered event is one method call. A remote stream that never arrives is `None`.
- socket.io puts every socket in a room named by its own id. This is not modelled, so a room code equal to a socket id is not handled specially.
- Timers: the 1000 ms delay is not modelled. Resets fire one at a time in the order they were scheduled.
- Board.BoardState.MouseMove: strokes are values. The source mutates the shared `lastLine` object and splices the current `lines` array. Aliasing between the emitted object, the old array and the new array is not modelled. The resulting log and payload are the same.
- Board.BoardState.SetTool: the source can also change tool in the middle of a drag. This is modelled only through the `tool` field that `MouseMove` reads.
- Pointer coordinates are integers, so `IntToString` covers only integer numerals. Fractional and exponent forms of JavaScript numbers are not modelled.
- The `onCanvasChange` and `onCodeChange` callbacks to the room page are not modelled. They always receive the new stroke log, or the current text and language.
- `handleWheel` zoom and pan, the chat and modal open/close flags, the clipboard copy and alerts are left out. So are the landing-page animation and all rendering, because they are floating-point or pure presentation.
- Firebase sign-in is an outcome parameter of `FinishLogin`, not a call.
- React behaviour is not modelled. That covers stale closures, where a handler reads the state of an earlier render, and effect re-runs. Each handler reads the current state.
- VideoCall.CallPanel.OnOpen: the source's later `if (!stream)` check cannot fire. A failed third request raises the error itself, and the model says the same.
- The `srcObject` assignment to the local video element is modelled as `localStream`.
- VideoCall.ToggleAudioTwice: `isMuted` returns to its old value only when it agreed with the audio track beforehand. The model does not carry that agreement as an invariant, because a newly acquired stream's `enabled` flags are an input.
- The room page (`client/app/room/[roomId]/page.tsx`), its Drive export and its own SVG generator are not part of this model.
