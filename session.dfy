/**
 * The component's React state record (`VoiceChatState`) and the updaters
 * that its event handlers pass to `setState`. Each updater copies the
 * previous record and overwrites a few fields (`prev => ({...prev, ...})`).
 */
module Session {

  /** The four values of `connectionStatus`. */
  datatype Status = Disconnected | Connecting | Connected | Error

  /** `Message.type`: who spoke a transcript line. */
  datatype Role = User | Ai

  /**
   * One transcript line. `id` (from `Date.now()`) and `timestamp`
   * (from `new Date()`) are supplied by the caller, since they come from the clock.
   */
  datatype Message = Message(id: string, role: Role, content: string, timestamp: int)

  datatype ChatState = ChatState(
    isConnected: bool,
    isRecording: bool,
    isAITalking: bool,
    messages: seq<Message>,
    connectionStatus: Status)

  /** The state the component mounts with. */
  const Initial: ChatState := ChatState(false, false, false, [], Disconnected)

  /** Only the connection fields (`connectionStatus`, `isConnected`) may differ. */
  predicate ConnectionOnly(s: ChatState, r: ChatState)
  {
    r.messages == s.messages && r.isRecording == s.isRecording && r.isAITalking == s.isAITalking
  }

  /** Everything except `isRecording` is the same. */
  predicate RecordingOnly(s: ChatState, r: ChatState)
  {
    r.messages == s.messages && r.isAITalking == s.isAITalking &&
    r.isConnected == s.isConnected && r.connectionStatus == s.connectionStatus
  }

  /** Everything except `isAITalking` is the same. */
  predicate TalkingOnly(s: ChatState, r: ChatState)
  {
    r.messages == s.messages && r.isRecording == s.isRecording &&
    r.isConnected == s.isConnected && r.connectionStatus == s.connectionStatus
  }

  /** `connectWebSocket`, first statement: the status becomes "connecting", nothing else changes. */
  function BeginConnect(s: ChatState): (r: ChatState)
    ensures r.connectionStatus == Connecting
    ensures r.isConnected == s.isConnected && ConnectionOnly(s, r)
  {
    s.(connectionStatus := Connecting)
  }

  /** `new WebSocket(...)` threw: the status becomes "error"; `isConnected` is not touched. */
  function ConstructionFailed(s: ChatState): (r: ChatState)
    ensures r.connectionStatus == Error
    ensures r.isConnected == s.isConnected && ConnectionOnly(s, r)
  {
    s.(connectionStatus := Error)
  }

  /** `onopen`. */
  function Opened(s: ChatState): (r: ChatState)
    ensures r.isConnected && r.connectionStatus == Connected
    ensures ConnectionOnly(s, r)
  {
    s.(isConnected := true, connectionStatus := Connected)
  }

  /** `onerror`. */
  function Errored(s: ChatState): (r: ChatState)
    ensures !r.isConnected && r.connectionStatus == Error
    ensures ConnectionOnly(s, r)
  {
    s.(connectionStatus := Error, isConnected := false)
  }

  /** `onclose`. */
  function Closed(s: ChatState): (r: ChatState)
    ensures !r.isConnected && r.connectionStatus == Disconnected
    ensures ConnectionOnly(s, r)
  {
    s.(isConnected := false, connectionStatus := Disconnected)
  }

  /** `data.speaker === "user" ? "user" : "ai"`. */
  function RoleOf(speaker: string): (r: Role)
    ensures r == User <==> speaker == "user"
  {
    if speaker == "user" then User else Ai
  }

  /**
   * A `transcript` frame: `messages: [...prev.messages, newMessage]`.
   * Exactly one line is added, at the end; the earlier lines keep their order.
   */
  function AppendTranscript(s: ChatState, speaker: string, text: string, id: string, at: int): (r: ChatState)
    ensures |r.messages| == |s.messages| + 1
    ensures r.messages[..|s.messages|] == s.messages
    ensures r.messages[|s.messages|].content == text
    ensures r.messages[|s.messages|].role == User <==> speaker == "user"
    ensures r.messages[|s.messages|].id == id && r.messages[|s.messages|].timestamp == at
    ensures r.isConnected == s.isConnected && r.connectionStatus == s.connectionStatus
    ensures r.isRecording == s.isRecording && r.isAITalking == s.isAITalking
  {
    s.(messages := s.messages + [Message(id, RoleOf(speaker), text, at)])
  }

  /** An `audio_response` frame, after its audio element is installed. */
  function TalkingStarted(s: ChatState): (r: ChatState)
    ensures r.isAITalking && TalkingOnly(s, r)
  {
    s.(isAITalking := true)
  }

  /** The audio element's `onended`. */
  function TalkingEnded(s: ChatState): (r: ChatState)
    ensures !r.isAITalking && TalkingOnly(s, r)
  {
    s.(isAITalking := false)
  }

  /** The recorder's `onstart`. */
  function RecordingStarted(s: ChatState): (r: ChatState)
    ensures r.isRecording && RecordingOnly(s, r)
  {
    s.(isRecording := true)
  }

  /** The recorder's `onstop`. */
  function RecordingStopped(s: ChatState): (r: ChatState)
    ensures !r.isRecording && RecordingOnly(s, r)
  {
    s.(isRecording := false)
  }

  /** `getStatusText`: the label shown next to the status dot. */
  function StatusText(status: Status): (r: string)
    ensures r == "Connected" <==> status == Connected
    ensures r == "Connecting..." <==> status == Connecting
    ensures r == "Connection Error" <==> status == Error
    ensures r == "Disconnected" <==> status == Disconnected
  {
    match status
    case Connected => "Connected"
    case Connecting => "Connecting..."
    case Error => "Connection Error"
    case _ => "Disconnected"
  }

  /** `getStatusColor`: green, amber, red, and grey for anything else. */
  function StatusColor(status: Status): (r: string)
    ensures r == "#10b981" <==> status == Connected
    ensures r == "#f59e0b" <==> status == Connecting
    ensures r == "#ef4444" <==> status == Error
    ensures r == "#6b7280" <==> status == Disconnected
  {
    match status
    case Connected => "#10b981"
    case Connecting => "#f59e0b"
    case Error => "#ef4444"
    case _ => "#6b7280"
  }
}
