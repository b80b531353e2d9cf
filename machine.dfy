/**
 * The whole client as a value: the React state record plus the mutable
 * refs the handlers touch (socket, recorder, chunk buffer, current audio
 * element), and one pure function per event handler. Browser calls are
 * recorded rather than performed: `pause()` calls in `paused`, object URLs
 * created and not yet revoked in `liveUrls`, socket sends in `sent`.
 */
module Machine {
  import opened Wrappers
  import opened Session
  import opened Wire

  /** `readyState` of the socket held in `wsRef.current`. */
  datatype ReadyState = ReadyConnecting | ReadyOpen | ReadyClosing | ReadyClosed

  /** `state` of the recorder held in `mediaRecorderRef.current` ("paused" is never reached). */
  datatype RecorderState = Inactive | Recording

  /** The `Audio` element built for one `audio_response`; `id` tells elements apart. */
  datatype Playback = Playback(id: nat, audio: seq<Byte>)

  /**
   * How far `startRecording` gets: the microphone request or the recorder
   * constructor rejects, `start()` throws, or recording starts.
   */
  datatype StartOutcome = MicUnavailable | StartThrew | Started

  datatype Client = Client(
    chat: ChatState,
    socket: Option<ReadyState>,
    recorder: Option<RecorderState>,
    chunks: seq<Chunk>,
    current: Option<Playback>,
    nextAudio: nat,
    paused: seq<nat>,
    liveUrls: set<nat>,
    sent: seq<Outbound>)

  /** The component right after mounting. */
  const Mounted: Client := Client(Session.Initial, None, None, [], None, 0, [], {}, [])

  /** The socket, the recorder and the sent frames are unchanged. */
  predicate SameCapture(c: Client, r: Client)
  {
    r.socket == c.socket && r.recorder == c.recorder && r.chunks == c.chunks && r.sent == c.sent
  }

  /** The audio element slot and its bookkeeping are unchanged. */
  predicate SamePlayback(c: Client, r: Client)
  {
    r.current == c.current && r.nextAudio == c.nextAudio &&
    r.paused == c.paused && r.liveUrls == c.liveUrls
  }

  /** `connectWebSocket`; `constructed` is false when `new WebSocket(...)` throws. */
  function ConnectWebSocket(c: Client, constructed: bool): (r: Client)
    ensures r.chat.connectionStatus == (if constructed then Connecting else Error)
    ensures r.chat.isConnected == c.chat.isConnected && ConnectionOnly(c.chat, r.chat)
    ensures r.socket == (if constructed then Some(ReadyConnecting) else c.socket)
    ensures r.recorder == c.recorder && r.chunks == c.chunks && r.sent == c.sent
    ensures SamePlayback(c, r)
  {
    var begun := c.(chat := BeginConnect(c.chat));
    if constructed then begun.(socket := Some(ReadyConnecting))
    else begun.(chat := ConstructionFailed(begun.chat))
  }

  /** The socket's `onopen`. */
  function OnOpen(c: Client): (r: Client)
    ensures r.chat.isConnected && r.chat.connectionStatus == Connected
    ensures ConnectionOnly(c.chat, r.chat) && r.socket == Some(ReadyOpen)
    ensures r.recorder == c.recorder && r.chunks == c.chunks && r.sent == c.sent
    ensures SamePlayback(c, r)
  {
    c.(chat := Opened(c.chat), socket := Some(ReadyOpen))
  }

  /** The socket's `onerror`; an error event comes with a failed, closed socket. */
  function OnError(c: Client): (r: Client)
    ensures !r.chat.isConnected && r.chat.connectionStatus == Error
    ensures ConnectionOnly(c.chat, r.chat) && r.socket == Some(ReadyClosed)
    ensures r.recorder == c.recorder && r.chunks == c.chunks && r.sent == c.sent
    ensures SamePlayback(c, r)
  {
    c.(chat := Errored(c.chat), socket := Some(ReadyClosed))
  }

  /** The socket's `onclose`. */
  function OnClose(c: Client): (r: Client)
    ensures !r.chat.isConnected && r.chat.connectionStatus == Disconnected
    ensures ConnectionOnly(c.chat, r.chat) && r.socket == Some(ReadyClosed)
    ensures r.recorder == c.recorder && r.chunks == c.chunks && r.sent == c.sent
    ensures SamePlayback(c, r)
  {
    c.(chat := Closed(c.chat), socket := Some(ReadyClosed))
  }

  /**
   * The closing handshake starts (the server sends a close frame): the
   * browser moves an open socket to CLOSING. No handler runs, so the state
   * record still says "connected" until `onclose`.
   */
  function ClosingStarted(c: Client): (r: Client)
    ensures c.socket == Some(ReadyOpen) ==> r.socket == Some(ReadyClosing)
    ensures c.socket != Some(ReadyOpen) ==> r.socket == c.socket
    ensures r.chat == c.chat && r.recorder == c.recorder && r.chunks == c.chunks && r.sent == c.sent
    ensures SamePlayback(c, r)
  {
    if c.socket == Some(ReadyOpen) then c.(socket := Some(ReadyClosing)) else c
  }

  /**
   * The first half of an `audio_response`: the current element, if any, is
   * paused and the slot emptied. Its object URL is not revoked.
   */
  function DropCurrent(c: Client): (r: Client)
    ensures r.current == None && r.nextAudio == c.nextAudio && r.liveUrls == c.liveUrls
    ensures r.paused == (if c.current.Some? then c.paused + [c.current.value.id] else c.paused)
    ensures r.chat == c.chat && SameCapture(c, r)
  {
    if c.current.Some? then c.(paused := c.paused + [c.current.value.id], current := None)
    else c
  }

  /**
   * An `audio_response` frame: pause and drop the current element, if any,
   * then install a new one for `audio`, create its object URL and mark the
   * AI as talking.
   */
  function PlayResponse(c: Client, audio: seq<Byte>): (r: Client)
    ensures r.current == Some(Playback(c.nextAudio, audio)) && r.nextAudio == c.nextAudio + 1
    ensures r.paused == (if c.current.Some? then c.paused + [c.current.value.id] else c.paused)
    ensures r.liveUrls == c.liveUrls + {c.nextAudio}
    ensures r.chat.isAITalking && TalkingOnly(c.chat, r.chat)
    ensures SameCapture(c, r)
  {
    var dropped := DropCurrent(c);
    var element := Playback(dropped.nextAudio, audio);
    dropped.(current := Some(element), nextAudio := dropped.nextAudio + 1,
             liveUrls := dropped.liveUrls + {element.id},
             chat := TalkingStarted(dropped.chat))
  }

  /**
   * The socket's `onmessage`; `id` and `at` are the clock readings for a
   * transcript line. An `audio_response` whose audio cannot be converted
   * has already dropped the current element when the conversion throws;
   * the catch leaves it so.
   */
  function OnMessage(c: Client, frame: Inbound, id: string, at: int): (r: Client)
    ensures frame.AudioResponse? ==> r == PlayResponse(c, frame.audio)
    ensures frame.AudioUnreadable? ==> r == DropCurrent(c)
    ensures frame.Transcript? ==>
      r.chat == AppendTranscript(c.chat, frame.speaker, frame.text, id, at) &&
      SameCapture(c, r) && SamePlayback(c, r)
    ensures frame.Other? || frame.Malformed? ==> r == c
  {
    match frame
    case AudioResponse(audio) => PlayResponse(c, audio)
    case AudioUnreadable => DropCurrent(c)
    case Transcript(speaker, text) => c.(chat := AppendTranscript(c.chat, speaker, text, id, at))
    case Other => c
    case Malformed => c
  }

  /**
   * The `onended` of element `id`: the AI stops talking, that element's own
   * URL is revoked, and the slot is cleared whichever element it holds.
   */
  function OnEnded(c: Client, id: nat): (r: Client)
    ensures r.current == None && !r.chat.isAITalking && TalkingOnly(c.chat, r.chat)
    ensures r.liveUrls == c.liveUrls - {id}
    ensures r.nextAudio == c.nextAudio && r.paused == c.paused
    ensures SameCapture(c, r)
  {
    c.(chat := TalkingEnded(c.chat), liveUrls := c.liveUrls - {id}, current := None)
  }

  /**
   * `startRecording`: a new recorder replaces the old one and the chunk
   * buffer is emptied, then `start(100)` is called. It neither pauses the
   * AI's audio nor touches the state record: `isRecording` waits for `onstart`.
   */
  function StartRecording(c: Client, outcome: StartOutcome): (r: Client)
    ensures outcome == MicUnavailable ==> r == c
    ensures outcome != MicUnavailable ==>
      r.chunks == [] && r.recorder == Some(if outcome == Started then Recording else Inactive)
    ensures r.chat == c.chat && r.socket == c.socket && r.sent == c.sent
    ensures SamePlayback(c, r)
  {
    match outcome
    case MicUnavailable => c
    case StartThrew => c.(recorder := Some(Inactive), chunks := [])
    case Started => c.(recorder := Some(Recording), chunks := [])
  }

  /** The recorder's `ondataavailable`: only a non-empty chunk is buffered, at the end. */
  function OnDataAvailable(c: Client, chunk: Chunk): (r: Client)
    ensures r.chunks == (if |chunk| > 0 then c.chunks + [chunk] else c.chunks)
    ensures r.chat == c.chat && r.socket == c.socket && r.recorder == c.recorder && r.sent == c.sent
    ensures SamePlayback(c, r)
  {
    if |chunk| > 0 then c.(chunks := c.chunks + [chunk]) else c
  }

  /** The recorder's `onstart`: the only place `isRecording` becomes true. */
  function OnStart(c: Client): (r: Client)
    ensures r.chat.isRecording && RecordingOnly(c.chat, r.chat)
    ensures SameCapture(c, r) && SamePlayback(c, r)
  {
    c.(chat := RecordingStarted(c.chat))
  }

  /**
   * The recorder's `onstop`: the buffered chunks are joined and the buffer
   * emptied; the payload goes out as one `audio_input` frame only if the
   * socket is open; `isRecording` becomes false in every case.
   */
  function OnStop(c: Client): (r: Client)
    ensures r.chunks == [] && !r.chat.isRecording && RecordingOnly(c.chat, r.chat)
    ensures r.sent == (if c.socket == Some(ReadyOpen) then c.sent + [AudioInput(Concat(c.chunks))] else c.sent)
    ensures r.socket == c.socket && r.recorder == c.recorder
    ensures SamePlayback(c, r)
  {
    var payload := Concat(c.chunks);
    var emptied := c.(chunks := []);
    var delivered :=
      if emptied.socket == Some(ReadyOpen) then emptied.(sent := emptied.sent + [AudioInput(payload)])
      else emptied;
    delivered.(chat := RecordingStopped(delivered.chat))
  }

  /** `stopRecording`: calls `stop()` only on a recorder in state "recording". */
  function StopRecording(c: Client): (r: Client)
    ensures c.recorder == Some(Recording) ==> r == c.(recorder := Some(Inactive))
    ensures c.recorder != Some(Recording) ==> r == c
  {
    if c.recorder == Some(Recording) then c.(recorder := Some(Inactive)) else c
  }

  /** `handleMouseDown`: starts recording only while connected. */
  function HandleMouseDown(c: Client, outcome: StartOutcome): (r: Client)
    ensures !c.chat.isConnected ==> r == c
    ensures c.chat.isConnected ==> r == StartRecording(c, outcome)
  {
    if c.chat.isConnected then StartRecording(c, outcome) else c
  }

  /** `handleMouseUp` (also bound to mouse-leave): stops only while `isRecording`. */
  function HandleMouseUp(c: Client): (r: Client)
    ensures !c.chat.isRecording ==> r == c
    ensures c.chat.isRecording ==> r == StopRecording(c)
  {
    if c.chat.isRecording then StopRecording(c) else c
  }

  /** Everything that can happen to the component, one atomic step each. */
  datatype Event =
    | ConnectClicked(constructed: bool)
    | SocketOpen
    | SocketError
    | SocketClose
    | SocketClosing
    | FrameReceived(frame: Inbound, id: string, at: int)
    | AudioEnded(element: nat)
    | PressTalk(outcome: StartOutcome)
    | ReleaseTalk
    | RecorderStart
    | RecorderData(chunk: Chunk)
    | RecorderStop
    | RecorderError

  /**
   * Dispatch of one event to the handler the component registers for it.
   * The recorder's `onerror` only logs.
   */
  function Step(c: Client, e: Event): (r: Client)
    ensures e.RecorderError? ==> r == c
    ensures e.SocketClosing? ==> r.chat == c.chat && SameCapture(c, r.(socket := c.socket))
    ensures e.ConnectClicked? || e.SocketOpen? || e.SocketError? || e.SocketClose? || e.SocketClosing? ==>
      r.chat.messages == c.chat.messages && r.chat.isRecording == c.chat.isRecording &&
      r.chat.isAITalking == c.chat.isAITalking && SamePlayback(c, r)
  {
    match e
    case ConnectClicked(constructed) => ConnectWebSocket(c, constructed)
    case SocketOpen => OnOpen(c)
    case SocketError => OnError(c)
    case SocketClose => OnClose(c)
    case SocketClosing => ClosingStarted(c)
    case FrameReceived(frame, id, at) => OnMessage(c, frame, id, at)
    case AudioEnded(element) => OnEnded(c, element)
    case PressTalk(outcome) => HandleMouseDown(c, outcome)
    case ReleaseTalk => HandleMouseUp(c)
    case RecorderStart => OnStart(c)
    case RecorderData(chunk) => OnDataAvailable(c, chunk)
    case RecorderStop => OnStop(c)
    case RecorderError => c
  }

  /** The events applied in order. */
  function Run(c: Client, events: seq<Event>): (r: Client)
    ensures events == [] ==> r == c
    decreases |events|
  {
    if events == [] then c else Run(Step(c, events[0]), events[1..])
  }
}
