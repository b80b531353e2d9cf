# Voice chat client session — a Dafny model

This project models the client-side session state machine of the
`VoiceChatInterface` React component: the state record
(`connectionStatus`, `isConnected`, `isRecording`, `isAITalking`, the
transcript `messages`), the refs its handlers update in place (the socket,
the media recorder, the recorded-chunk buffer, the current AI audio
element), and the handlers that drive it. These are connect, the socket's
open/error/close/message events, the audio element's ended event, the
recorder's start/data/stop/error events, and the push-to-talk guards.

Layout:

- `session.dfy` (module `Session`): the state record. It also holds the
  `setState` updaters, one per handler, each a record copy with a few
  fields overwritten. `getStatusText` and `getStatusColor` live here too.
- `wire.dfy` (module `Wire`): bytes, the decoded inbound frames, the
  outbound `audio_input` frame, and the join of recorded chunks (`new Blob(chunks)`).
- `machine.dfy` (module `Machine`): the whole client as a value (`Client`).
  It has one pure function per handler, the `Event` type, `Step` and `Run`.
- `properties.dfy` (module `Properties`): the invariant the handlers keep
  and lemmas over arbitrary event sequences.
- `component.dfy` (module `Component`): class `VoiceChat`. Its fields are
  the state record and the refs, and it has one method per handler. Each
  method updates the fields in place and is proved against the matching
  `Machine` function. Each method also keeps `Properties.Good`.

Browser calls are recorded, not performed:
- `pause()` calls go into `paused`;
- object URLs created and not yet revoked go into `liveUrls`;
- socket sends go into `sent`.

Message ids and timestamps (`Date.now()`, `new Date()`) are parameters.
Whether `new WebSocket(...)` throws is a parameter. So is how far
`startRecording` gets (`StartOutcome`).

The socket's `readyState` is a field, and the browser moves it on its own.
A new socket starts connecting, `onopen` finds it open, and `onerror` and
`onclose` find it closed. When a closing handshake starts, an open socket
moves to closing before any handler runs (the event `SocketClosing`,
`Machine.ClosingStarted`). No handler of the component runs then, so the
state record still says "connected" while the socket is no longer open.
These moves are assumptions about the browser, not code in the component.

The model follows the code, also where the component promises more:
- There is no barge-in, although the welcome text says the AI can be
  interrupted at any time by speaking (components/VoiceChatInterface.tsx:403). `startRecording` never pauses the current audio
  element and never clears `isAITalking`, so `isRecording` and
  `isAITalking` can both be true (`Properties.RecordingDoesNotInterrupt`).
- Nothing orders a new press after the previous recording's `onstop`.
  After a release, `isRecording` stays true until that `onstop`, so a
  press can install a new recorder first. That press empties the shared
  chunk buffer (components/VoiceChatInterface.tsx:274), and the old
  `onstop` then sends an empty frame, so the first utterance's bytes are
  never sent (`Properties.PressBeforeStopLosesUtterance`). The same
  `onstop` clears `isRecording` while the new recorder records, so the
  next release is ignored and nothing stops that recorder
  (`Properties.StaleStopStrandsRecorder`).
- `connectWebSocket` has no guard against connecting twice. Only the
  rendered button has one: it is shown only while `!isConnected` and is
  disabled while "connecting" (`Properties.GuardedRunKeepsFlag`).
- `isAITalking` is set before `play()` is awaited. A rejected `play()` is
  caught and logged, so the flag stays true.
- A response that replaces a playing element pauses it without revoking
  its object URL (`Properties.ReplacedUrlStaysLive`). Only that element's
  own `onended`, if one was already queued, revokes it
  (`Properties.StaleEndedTwoPlaying`).
- Stopping with nothing captured over an open socket still sends an
  `audio_input` frame, with empty audio (`Properties.EmptyUtterance`).
- Of `onerror` then `onclose`, the last one decides the status
  (`Properties.LastSocketEventWins`).
- A stop during the closing handshake sends nothing, although the status
  still says "connected" (`Properties.StopWhileClosingSendsNothing`).
- An `audio_response` whose audio cannot be converted has already paused
  and dropped the current element when the conversion throws
  (`Properties.UnreadableAudioDropsCurrent`).
- An element's `onended` clears the slot and `isAITalking` even when a
  newer element is playing (`Properties.StaleEndedTwoPlaying`).

## Model

| member | source | states |
|---|---|---|
| `Session.BeginConnect` | components/VoiceChatInterface.tsx:37-38 | connecting sets the status to "connecting" and changes nothing else |
| `Session.ConstructionFailed` | components/VoiceChatInterface.tsx:118-121 | a throwing socket constructor sets the status to "error" and leaves `isConnected` and everything else alone |
| `Session.Opened` | components/VoiceChatInterface.tsx:45-52 | open sets `isConnected` and "connected" and changes neither messages nor the recording/talking flags |
| `Session.Errored` | components/VoiceChatInterface.tsx:101-108 | error sets "error" with `isConnected` false, nothing else |
| `Session.Closed` | components/VoiceChatInterface.tsx:110-117 | close sets "disconnected" with `isConnected` false, nothing else |
| `Session.RoleOf` | components/VoiceChatInterface.tsx:86 | a line is the user's exactly when `speaker` is "user", otherwise the AI's |
| `Session.AppendTranscript` | components/VoiceChatInterface.tsx:82-95 | exactly one line is appended at the end; earlier lines keep their order; its content is `text`, its role follows `speaker`; no flag changes |
| `Session.TalkingStarted` | components/VoiceChatInterface.tsx:72 | `isAITalking` becomes true, nothing else changes |
| `Session.TalkingEnded` | components/VoiceChatInterface.tsx:74-75 | `isAITalking` becomes false, nothing else changes |
| `Session.RecordingStarted` | components/VoiceChatInterface.tsx:283-286 | `isRecording` becomes true, nothing else changes |
| `Session.RecordingStopped` | components/VoiceChatInterface.tsx:306 | `isRecording` becomes false, nothing else changes |
| `Session.StatusText` | components/VoiceChatInterface.tsx:370-381 | each status has its own label, and each label names exactly one status |
| `Session.StatusColor` | components/VoiceChatInterface.tsx:357-368 | each status has its own colour, and each colour names exactly one status |
| `Wire.Concat` | components/VoiceChatInterface.tsx:289 | joining no chunks gives no bytes; joining one chunk gives that chunk |
| `Wire.ConcatSize` | components/VoiceChatInterface.tsx:289 | the joined payload has exactly as many bytes as the chunks together |
| `Wire.ConcatAppend` | components/VoiceChatInterface.tsx:278-289 | appending a chunk to the buffer appends its bytes, in order, to the payload |
| `Wire.ConcatEmptyIff` | components/VoiceChatInterface.tsx:277-289 | with only non-empty chunks buffered, the payload is empty exactly when nothing was captured |
| `Machine.ConnectWebSocket` | components/VoiceChatInterface.tsx:37-122 | status "connecting" and a new connecting socket, or "error" with the old socket kept if construction throws; `isConnected`, messages, recorder, buffer and audio untouched |
| `Machine.OnOpen` | components/VoiceChatInterface.tsx:45-52 | connected with an open socket; nothing but the connection fields changes |
| `Machine.OnError` | components/VoiceChatInterface.tsx:101-108 | "error", not connected, socket closed; nothing else changes |
| `Machine.OnClose` | components/VoiceChatInterface.tsx:110-117 | "disconnected", not connected, socket closed; nothing else changes |
| `Machine.ClosingStarted` | components/VoiceChatInterface.tsx:293 | a browser step, not code of the component, whose result the open-socket check reads: a closing handshake moves an open socket to closing and leaves any other socket state; the state record, recorder, buffer, sent frames and audio are untouched, since no handler runs |
| `Machine.DropCurrent` | components/VoiceChatInterface.tsx:61-64 | the current element, if any, is paused and the slot emptied; its URL stays live; the state record and capture state are untouched |
| `Machine.PlayResponse` | components/VoiceChatInterface.tsx:59-81 | the previous element, if any, is paused and dropped before a fresh element for the payload is installed with its own URL; `isAITalking` becomes true; capture state untouched |
| `Machine.OnMessage` | components/VoiceChatInterface.tsx:54-99 | audio frames play; an audio frame whose audio cannot be converted only pauses and drops the current element; transcript frames append one line and touch nothing else; other and malformed frames change nothing |
| `Machine.OnEnded` | components/VoiceChatInterface.tsx:74-78 | the `onended` of element `id` revokes that element's own URL, clears the slot whichever element it holds, and sets `isAITalking` false; nothing else changes |
| `Machine.StartRecording` | components/VoiceChatInterface.tsx:265-320 | a failed microphone request changes nothing; otherwise the buffer is emptied and a new recorder installed (recording only if `start` succeeded); the state record, the socket and the audio are never touched |
| `Machine.OnDataAvailable` | components/VoiceChatInterface.tsx:276-281 | only a non-empty chunk is appended, at the end; nothing else changes |
| `Machine.OnStart` | components/VoiceChatInterface.tsx:283-286 | `isRecording` becomes true; refs untouched |
| `Machine.OnStop` | components/VoiceChatInterface.tsx:288-307 | the buffer is emptied and `isRecording` false in every case; one `audio_input` frame with the joined chunks is sent iff the socket is open |
| `Machine.StopRecording` | components/VoiceChatInterface.tsx:323-328 | no-op unless the recorder is recording; then only the recorder becomes inactive |
| `Machine.HandleMouseDown` | components/VoiceChatInterface.tsx:331-335 | starts recording only while `isConnected`, otherwise no-op |
| `Machine.HandleMouseUp` | components/VoiceChatInterface.tsx:337-341 | stops only while `isRecording`, otherwise no-op |
| `Machine.Step` | components/VoiceChatInterface.tsx:37-341 | each event runs the handler the component registers for it; the recorder's `onerror` changes nothing; the closing handshake changes only the socket; connect and socket events leave the transcript, the recording and talking flags and the audio alone |
| `Machine.Run` | components/VoiceChatInterface.tsx:37-341 | no events leave the client unchanged; each further event is one `Step` (composition is `Properties.RunAppend`) |
| `Properties.RunAppend` | components/VoiceChatInterface.tsx:37-341 | running two event sequences one after the other is running their concatenation |
| `Properties.MountedGood` | components/VoiceChatInterface.tsx:22-34 | the mounted component satisfies the invariant |
| `Properties.StepPreservesGood` | components/VoiceChatInterface.tsx:45-117 | every event keeps the invariant: "connected" only with `isConnected` and a socket that is open or in its closing handshake, only non-empty chunks buffered, paused ids already created, the element in the slot the newest one and playing |
| `Properties.StepKeepsPlayback` | components/VoiceChatInterface.tsx:59-78 | only audio frames (readable or not) and `onended` touch the audio element slot |
| `Properties.RecorderCallsKeepGood` | components/VoiceChatInterface.tsx:265-328 | starting and stopping the recorder keep the invariant |
| `Properties.RunPreservesGood` | components/VoiceChatInterface.tsx:37-341 | any sequence of events, including closing handshakes, keeps the invariant |
| `Properties.StopWhileClosingSendsNothing` | components/VoiceChatInterface.tsx:288-303 | a stop after the closing handshake has started sends no frame, clears the buffer and `isRecording`, while the status still says "connected" |
| `Properties.StepKeepsExclusive` | components/VoiceChatInterface.tsx:59-78 | an event keeps every element but the one in the slot paused or ended, provided an `onended` belongs to the element in the slot |
| `Properties.RunKeepsExclusive` | components/VoiceChatInterface.tsx:59-78 | a run whose `onended` events all belong to the element in the slot keeps every other element paused or ended |
| `Properties.AtMostOnePlaying` | components/VoiceChatInterface.tsx:59-78 | at most one audio element plays after any run in which every `onended` comes from the element in the slot |
| `Properties.StaleEndedTwoPlaying` | components/VoiceChatInterface.tsx:59-78 | two responses, then the first element's `onended`: the first element's URL is revoked, but the second element still plays with the slot empty and `isAITalking` false; a third response then plays alongside it |
| `Properties.ReplacedUrlStaysLive` | components/VoiceChatInterface.tsx:61-64 | the replacement pauses the old element without revoking its object URL, so it stays live until that element's own `onended`, if one was already queued |
| `Properties.UnreadableAudioDropsCurrent` | components/VoiceChatInterface.tsx:59-98 | an audio frame whose audio cannot be converted leaves no element in the slot, the old element paused with its URL live, and the state record as it was |
| `Properties.StepMessages` | components/VoiceChatInterface.tsx:82-95 | one event adds the line of a transcript frame and nothing otherwise |
| `Properties.RunTranscript` | components/VoiceChatInterface.tsx:82-95 | after any run the transcript is the old one followed by exactly the run's transcript frames in receipt order |
| `Properties.RunKeepsEarlierLines` | components/VoiceChatInterface.tsx:93 | earlier lines are never edited, removed or reordered |
| `Properties.TwoLinesInOrder` | components/VoiceChatInterface.tsx:82-95 | `transcript(user,"a")` then `transcript(ai,"b")` give exactly those two lines in that order |
| `Properties.LastSocketEventWins` | components/VoiceChatInterface.tsx:101-117 | error then close ends "disconnected"; close then error ends "error"; neither is connected |
| `Properties.StepKeepsFlag` | components/VoiceChatInterface.tsx:423-430 | one event the UI allows keeps `isConnected` equal to status "connected" |
| `Properties.GuardedRunKeepsFlag` | components/VoiceChatInterface.tsx:423-430 | through the rendered UI, `isConnected` holds exactly when the status is "connected" |
| `Properties.UnguardedConnectSplitsFlag` | components/VoiceChatInterface.tsx:37-38 | connecting while connected shows "connecting" with `isConnected` still true |
| `Properties.ConnectedOnlyOnOpen` | components/VoiceChatInterface.tsx:45-52 | the status becomes "connected" only through the socket's open event |
| `Properties.RecordingRisesOnlyOnStart` | components/VoiceChatInterface.tsx:283-286 | `isRecording` becomes true only on the recorder's start event |
| `Properties.TalkingRisesOnlyOnAudio` | components/VoiceChatInterface.tsx:59-72 | `isAITalking` becomes true only on an `audio_response` frame |
| `Properties.DataEvents` | components/VoiceChatInterface.tsx:276-281 | one data event per chunk, the i-th carrying the i-th chunk |
| `Properties.NonEmptyOnly` | components/VoiceChatInterface.tsx:277 | the kept chunks are all non-empty; no chunks keep nothing; one chunk is kept exactly when it is non-empty |
| `Properties.NonEmptyOnlyAppend` | components/VoiceChatInterface.tsx:277 | filtering two chunk lists in turn is filtering their concatenation |
| `Properties.ConcatSkipsEmpty` | components/VoiceChatInterface.tsx:277-289 | dropping empty chunks does not change the payload |
| `Properties.ConcatOfJoin` | components/VoiceChatInterface.tsx:289 | joining two chunk lists joins their payloads |
| `Properties.StepData` | components/VoiceChatInterface.tsx:276-281 | one data event appends its chunk if it is non-empty and changes nothing else |
| `Properties.RunDataEvents` | components/VoiceChatInterface.tsx:276-281 | data events append their non-empty chunks in arrival order and change nothing else |
| `Properties.Utterance` | components/VoiceChatInterface.tsx:265-341 | press, start, data, release, the data still delivered after `stop()`, stop over an open socket sends exactly one frame carrying the bytes of both parts in order and ends with an empty buffer, an inactive recorder and `isRecording` false; transcript, status, talking flag, socket and audio are kept |
| `Properties.EmptyUtterance` | components/VoiceChatInterface.tsx:288-306 | stopping with nothing captured clears `isRecording` and sends a frame with empty audio over an open socket |
| `Properties.EarlyReleaseIgnored` | components/VoiceChatInterface.tsx:337-341 | a release before the recorder's start event is ignored and the recorder keeps recording |
| `Properties.ReleasedUtterance` | components/VoiceChatInterface.tsx:265-341 | after press, start, one chunk and release, the recorder is told to stop but `isRecording` is still true and the non-empty chunk is still buffered, nothing sent |
| `Properties.PressBeforeStopLosesUtterance` | components/VoiceChatInterface.tsx:272-307 | a second press installed before the first recorder's `onstop` empties the buffer, so that `onstop` sends an empty frame instead of the recorded bytes, and leaves the new recorder recording with `isRecording` false |
| `Properties.StaleStopStrandsRecorder` | components/VoiceChatInterface.tsx:283-341 | with the new recorder's `onstart` before the old `onstop`, the following release is ignored and the new recorder keeps recording with `isRecording` false |
| `Properties.RecordingDoesNotInterrupt` | components/VoiceChatInterface.tsx:265-320 | starting to record leaves the audio element, the paused list and `isAITalking` as they were |
| `Properties.Conversation` | components/VoiceChatInterface.tsx:37-341 | connect, talk, get a transcript and a reply, reply ends: one frame with the captured bytes, one user line, connected, not recording, AI silent and no element in the slot |
| `Component.VoiceChat.constructor` | components/VoiceChatInterface.tsx:22-34 | the initial state record and empty refs |
| `Component.VoiceChat.ConnectWebSocket` | components/VoiceChatInterface.tsx:37-122 | updates the fields as `Machine.ConnectWebSocket` and keeps the invariant |
| `Component.VoiceChat.OnOpen` | components/VoiceChatInterface.tsx:45-52 | as `Machine.OnOpen`, keeping the invariant |
| `Component.VoiceChat.OnError` | components/VoiceChatInterface.tsx:101-108 | as `Machine.OnError`, keeping the invariant |
| `Component.VoiceChat.OnClose` | components/VoiceChatInterface.tsx:110-117 | as `Machine.OnClose`, keeping the invariant |
| `Component.VoiceChat.ClosingStarted` | components/VoiceChatInterface.tsx:293 | the browser step that the open-socket check reads; moves the socket to closing in place as `Machine.ClosingStarted`, keeping the invariant |
| `Component.VoiceChat.OnMessage` | components/VoiceChatInterface.tsx:54-99 | pauses and replaces the element in place, only pauses and drops it for unconvertible audio, or appends the line, as `Machine.OnMessage`, keeping the invariant |
| `Component.VoiceChat.OnEnded` | components/VoiceChatInterface.tsx:74-78 | revokes the element's URL and clears the slot in place as `Machine.OnEnded`, keeping the invariant |
| `Component.VoiceChat.StartRecording` | components/VoiceChatInterface.tsx:265-320 | as `Machine.StartRecording`, keeping the invariant |
| `Component.VoiceChat.StopRecording` | components/VoiceChatInterface.tsx:323-328 | as `Machine.StopRecording`, keeping the invariant |
| `Component.VoiceChat.HandleMouseDown` | components/VoiceChatInterface.tsx:331-335 | as `Machine.HandleMouseDown`, keeping the invariant |
| `Component.VoiceChat.HandleMouseUp` | components/VoiceChatInterface.tsx:337-341 | as `Machine.HandleMouseUp`, keeping the invariant |
| `Component.VoiceChat.OnDataAvailable` | components/VoiceChatInterface.tsx:276-281 | pushes onto the buffer in place as `Machine.OnDataAvailable`, keeping the invariant |
| `Component.VoiceChat.OnStart` | components/VoiceChatInterface.tsx:283-286 | as `Machine.OnStart`, keeping the invariant |
| `Component.VoiceChat.OnStop` | components/VoiceChatInterface.tsx:288-307 | empties the buffer and sends at most once, as `Machine.OnStop`, keeping the invariant |

## Left out

- `initializeAudio` (components/VoiceChatInterface.tsx:216-262): microphone and `AudioContext` acquisition at mount. The recorder it creates is replaced by the one `startRecording` creates, so the model starts with no recorder.
- The unmount cleanup (components/VoiceChatInterface.tsx:344-355), which closes the socket and pauses the audio. After it the component and its state are discarded, and nothing observable follows.
- `utils/websocket.js`: a socket wrapper that the component does not use. Its URL choice is configuration, and its open-state send guard duplicates the one modelled in `OnStop`.
- The commented-out copy of `connectWebSocket` (components/VoiceChatInterface.tsx:126-211), the JSX rendering, CSS and console logging. The rendered connect button's enabled condition is kept as the `Properties.Allowed` guard.
- Browser and foreign calls are abstract inputs and outputs: `getUserMedia`, `MediaRecorder`, `Blob`, `FileReader`, `Audio.play`/`pause`, `URL.createObjectURL`/`revokeObjectURL`, `JSON.parse`/`JSON.stringify`. The `FileReader` read is asynchronous; the model sends at the moment of stop. A rejected `play()` changes nothing beyond what the handler did before it.
- A transcript frame with a missing `text` field: the code stores `undefined` as the content. The model takes the text as a string. Likewise, a missing `audio` field is modelled as empty audio.
- Asynchrony: each browser event is one atomic step. The await in `startRecording` is folded into the press. Events of an abandoned recorder or socket are not told apart from those of the current one.
- The recorder's own state changes only through `start()` and `stop()`. A recorder that stops by itself (for example, the track ends) is not modelled separately; its `onstop` is the `RecorderStop` event, which leaves the model's recorder `Some(Recording)` although the browser's recorder is inactive. The only reader of that state is `stopRecording` (components/VoiceChatInterface.tsx:324), reached only through the `isRecording` guard (components/VoiceChatInterface.tsx:338), and `onstop` has already made `isRecording` false; the next `startRecording` replaces the recorder.
- The `onerror` handler of the recorder only logs; it is the identity step `RecorderError`.
- `Machine.OnEnded` models the handler as written: an `onended` that was queued for an element already replaced still clears the slot and `isAITalking` while the newer element plays (`Properties.StaleEndedTwoPlaying`). The component does not ask for this, but nothing in the code prevents it.
- `Properties.AtMostOnePlaying` is proved only for runs in which every `onended` comes from the element in the slot (`EndedOnlyFromCurrent`); with a stale `onended` two elements can play at once, as `Properties.StaleEndedTwoPlaying` shows.
