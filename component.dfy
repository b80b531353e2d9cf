/**
 * The component as an object: the state record and the refs are fields,
 * and each event handler is a method that updates them in place. Every
 * method is specified by the matching function of `Machine`, and keeps the
 * invariant `Properties.Good`.
 */
module Component {
  import opened Wrappers
  import opened Session
  import opened Wire
  import opened Machine
  import Properties

  class VoiceChat {
    var chat: ChatState               // `state`
    var socket: Option<ReadyState>    // `wsRef.current`
    var recorder: Option<RecorderState> // `mediaRecorderRef.current`
    var chunks: seq<Chunk>            // `audioChunksRef.current`
    var current: Option<Playback>     // `currentAudioRef.current`
    var nextAudio: nat                // identity of the next `Audio` element
    var paused: seq<nat>              // elements paused so far
    var liveUrls: set<nat>            // object URLs created and not revoked
    var sent: seq<Outbound>           // frames sent on the socket

    /** The fields as one value. */
    function Snapshot(): Client
      reads this
    {
      Client(chat, socket, recorder, chunks, current, nextAudio, paused, liveUrls, sent)
    }

    ghost predicate Valid()
      reads this
    {
      Properties.Good(Snapshot())
    }

    /** Mounting: `useState` initial record, empty refs. */
    constructor ()
      ensures Valid() && Snapshot() == Mounted
    {
      chat := Session.Initial;
      socket, recorder, chunks, current := None, None, [], None;
      nextAudio, paused, liveUrls, sent := 0, [], {}, [];
    }

    method ConnectWebSocket(constructed: bool)
      requires Valid()
      modifies this
      ensures Valid() && Snapshot() == Machine.ConnectWebSocket(old(Snapshot()), constructed)
    {
      Properties.StepPreservesGood(Snapshot(), ConnectClicked(constructed));
      chat := BeginConnect(chat);
      if constructed {
        socket := Some(ReadyConnecting);
      } else {
        chat := ConstructionFailed(chat);
      }
    }

    method OnOpen()
      requires Valid()
      modifies this
      ensures Valid() && Snapshot() == Machine.OnOpen(old(Snapshot()))
    {
      Properties.StepPreservesGood(Snapshot(), SocketOpen);
      chat := Opened(chat);
      socket := Some(ReadyOpen);
    }

    method OnError()
      requires Valid()
      modifies this
      ensures Valid() && Snapshot() == Machine.OnError(old(Snapshot()))
    {
      Properties.StepPreservesGood(Snapshot(), SocketError);
      chat := Errored(chat);
      socket := Some(ReadyClosed);
    }

    method OnClose()
      requires Valid()
      modifies this
      ensures Valid() && Snapshot() == Machine.OnClose(old(Snapshot()))
    {
      Properties.StepPreservesGood(Snapshot(), SocketClose);
      chat := Closed(chat);
      socket := Some(ReadyClosed);
    }

    /** The browser starts the closing handshake; no handler of the component runs. */
    method ClosingStarted()
      requires Valid()
      modifies this
      ensures Valid() && Snapshot() == Machine.ClosingStarted(old(Snapshot()))
    {
      Properties.StepPreservesGood(Snapshot(), SocketClosing);
      if socket == Some(ReadyOpen) {
        socket := Some(ReadyClosing);
      }
    }

    method OnMessage(frame: Inbound, id: string, at: int)
      requires Valid()
      modifies this
      ensures Valid() && Snapshot() == Machine.OnMessage(old(Snapshot()), frame, id, at)
    {
      Properties.StepPreservesGood(Snapshot(), FrameReceived(frame, id, at));
      match frame
      case AudioResponse(audio) =>
        if current.Some? {
          paused := paused + [current.value.id];
          current := None;
        }
        var element := Playback(nextAudio, audio);
        liveUrls := liveUrls + {element.id};
        current := Some(element);
        nextAudio := nextAudio + 1;
        chat := TalkingStarted(chat);
      case Transcript(speaker, text) =>
        chat := AppendTranscript(chat, speaker, text, id, at);
      case AudioUnreadable =>
        if current.Some? {
          paused := paused + [current.value.id];
          current := None;
        }
      case Other =>
      case Malformed =>
    }

    /** The `onended` of element `element`. */
    method OnEnded(element: nat)
      requires Valid()
      modifies this
      ensures Valid() && Snapshot() == Machine.OnEnded(old(Snapshot()), element)
    {
      Properties.StepPreservesGood(Snapshot(), AudioEnded(element));
      chat := TalkingEnded(chat);
      liveUrls := liveUrls - {element};
      current := None;
    }

    method StartRecording(outcome: StartOutcome)
      requires Valid()
      modifies this
      ensures Valid() && Snapshot() == Machine.StartRecording(old(Snapshot()), outcome)
    {
      Properties.RecorderCallsKeepGood(Snapshot(), outcome);
      if outcome != MicUnavailable {
        recorder := Some(Inactive);
        chunks := [];
        if outcome == Started {
          recorder := Some(Recording);
        }
      }
    }

    method StopRecording()
      requires Valid()
      modifies this
      ensures Valid() && Snapshot() == Machine.StopRecording(old(Snapshot()))
    {
      Properties.RecorderCallsKeepGood(Snapshot(), MicUnavailable);
      if recorder == Some(Recording) {
        recorder := Some(Inactive);
      }
    }

    method HandleMouseDown(outcome: StartOutcome)
      requires Valid()
      modifies this
      ensures Valid() && Snapshot() == Machine.HandleMouseDown(old(Snapshot()), outcome)
    {
      if chat.isConnected {
        StartRecording(outcome);
      }
    }

    method HandleMouseUp()
      requires Valid()
      modifies this
      ensures Valid() && Snapshot() == Machine.HandleMouseUp(old(Snapshot()))
    {
      if chat.isRecording {
        StopRecording();
      }
    }

    method OnDataAvailable(chunk: Chunk)
      requires Valid()
      modifies this
      ensures Valid() && Snapshot() == Machine.OnDataAvailable(old(Snapshot()), chunk)
    {
      Properties.StepPreservesGood(Snapshot(), RecorderData(chunk));
      if |chunk| > 0 {
        chunks := chunks + [chunk];
      }
    }

    method OnStart()
      requires Valid()
      modifies this
      ensures Valid() && Snapshot() == Machine.OnStart(old(Snapshot()))
    {
      Properties.StepPreservesGood(Snapshot(), RecorderStart);
      chat := RecordingStarted(chat);
    }

    method OnStop()
      requires Valid()
      modifies this
      ensures Valid() && Snapshot() == Machine.OnStop(old(Snapshot()))
    {
      Properties.StepPreservesGood(Snapshot(), RecorderStop);
      var payload := Concat(chunks);
      chunks := [];
      if socket == Some(ReadyOpen) {
        sent := sent + [AudioInput(payload)];
      }
      chat := RecordingStopped(chat);
    }
  }
}
