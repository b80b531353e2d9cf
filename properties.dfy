/**
 * What the handlers guarantee over any sequence of events: the invariant
 * they keep, the order of the transcript, the capture round trip, the
 * push-to-talk guards, and the absence of barge-in.
 */
module Properties {
  import opened Wrappers
  import opened Session
  import opened Wire
  import opened Machine

  // ---------------------------------------------------------------------
  // Runs compose
  // ---------------------------------------------------------------------

  lemma {:induction false} RunAppend(c: Client, a: seq<Event>, b: seq<Event>)
    ensures Run(c, a + b) == Run(Run(c, a), b)
    decreases |a|
  {
    if a == [] {
      assert a + b == b;
    } else {
      assert (a + b)[0] == a[0];
      assert (a + b)[1..] == a[1..] + b;
      RunAppend(Step(c, a[0]), a[1..], b);
    }
  }

  // ---------------------------------------------------------------------
  // The invariant
  // ---------------------------------------------------------------------

  /** An audio element that was created, never paused and has not ended. */
  predicate Playing(c: Client, id: nat)
  {
    id < c.nextAudio && id !in c.paused && id in c.liveUrls
  }

  /**
   * "connected" is shown only with a socket that has opened and whose close
   * has not yet been reported (open, or in its closing handshake); only
   * non-empty chunks are buffered; the element in the slot is the newest
   * one and is playing.
   */
  predicate Good(c: Client)
  {
    (c.chat.connectionStatus == Connected ==>
      c.chat.isConnected && (c.socket == Some(ReadyOpen) || c.socket == Some(ReadyClosing))) &&
    AllNonEmpty(c.chunks) &&
    (forall i :: 0 <= i < |c.paused| ==> c.paused[i] < c.nextAudio) &&
    (c.current.Some? ==> c.current.value.id + 1 == c.nextAudio && Playing(c, c.current.value.id))
  }

  lemma MountedGood()
    ensures Good(Mounted)
  {
  }

  lemma StepPreservesGood(c: Client, e: Event)
    requires Good(c)
    ensures Good(Step(c, e))
  {
    var r := Step(c, e);
    match e
    case RecorderData(chunk) =>
      assert r.chunks == (if |chunk| > 0 then c.chunks + [chunk] else c.chunks);
    case _ =>
  }

  /** Only `audio_response` frames and `onended` touch the audio element slot. */
  lemma StepKeepsPlayback(c: Client, e: Event)
    requires !(e.FrameReceived? && (e.frame.AudioResponse? || e.frame.AudioUnreadable?)) && !e.AudioEnded?
    ensures SamePlayback(c, Step(c, e))
    ensures forall id: nat :: Playing(Step(c, e), id) == Playing(c, id)
  {
  }

  /** `startRecording` and `stopRecording` touch only the recorder and the buffer. */
  lemma RecorderCallsKeepGood(c: Client, outcome: StartOutcome)
    requires Good(c)
    ensures Good(StartRecording(c, outcome)) && Good(StopRecording(c))
  {
  }

  lemma {:induction false} RunPreservesGood(c: Client, events: seq<Event>)
    requires Good(c)
    ensures Good(Run(c, events))
    decreases |events|
  {
    if events != [] {
      StepPreservesGood(c, events[0]);
      RunPreservesGood(Step(c, events[0]), events[1..]);
    }
  }

  /**
   * A closing handshake leaves the status "connected"; a recording stopped
   * in that window sends nothing, since the socket is no longer open.
   */
  lemma StopWhileClosingSendsNothing(c: Client)
    requires Good(c) && c.chat.connectionStatus == Connected && c.socket == Some(ReadyOpen)
    ensures Run(c, [SocketClosing, RecorderStop]).chat.connectionStatus == Connected
    ensures Run(c, [SocketClosing, RecorderStop]).sent == c.sent
    ensures Run(c, [SocketClosing, RecorderStop]).chunks == []
    ensures !Run(c, [SocketClosing, RecorderStop]).chat.isRecording
  {
    assert [SocketClosing, RecorderStop][1..] == [RecorderStop];
  }

  // ---------------------------------------------------------------------
  // Playback exclusivity
  // ---------------------------------------------------------------------

  /** Every element but the one in the slot has been paused or has ended. */
  predicate Exclusive(c: Client)
  {
    forall id: nat :: id < c.nextAudio && Playing(c, id) ==> c.current.Some? && c.current.value.id == id
  }

  /** An `onended` that belongs to the element in the slot. */
  predicate EndedFromCurrent(c: Client, e: Event)
  {
    e.AudioEnded? ==> c.current.Some? && c.current.value.id == e.element
  }

  predicate EndedOnlyFromCurrent(c: Client, events: seq<Event>)
    decreases |events|
  {
    events == [] || (EndedFromCurrent(c, events[0]) && EndedOnlyFromCurrent(Step(c, events[0]), events[1..]))
  }

  lemma StepKeepsExclusive(c: Client, e: Event)
    requires Good(c) && Exclusive(c) && EndedFromCurrent(c, e)
    ensures Exclusive(Step(c, e))
  {
    var r := Step(c, e);
    match e
    case FrameReceived(AudioResponse(audio), _, _) =>
      forall id: nat | id < r.nextAudio && Playing(r, id)
        ensures r.current.Some? && r.current.value.id == id
      {
        if id != c.nextAudio {
          assert id !in c.paused;
          assert Playing(c, id);
          assert false;
        }
      }
    case FrameReceived(AudioUnreadable, _, _) =>
      forall id: nat | id < r.nextAudio
        ensures !Playing(r, id)
      {
        if Playing(r, id) {
          assert Playing(c, id);
          assert false;
        }
      }
    case AudioEnded(_) =>
      forall id: nat | id < r.nextAudio
        ensures !Playing(r, id)
      {
        if Playing(r, id) {
          assert Playing(c, id);
          assert false;
        }
      }
    case _ =>
      StepKeepsPlayback(c, e);
  }

  lemma {:induction false} RunKeepsExclusive(c: Client, events: seq<Event>)
    requires Good(c) && Exclusive(c) && EndedOnlyFromCurrent(c, events)
    ensures Exclusive(Run(c, events))
    decreases |events|
  {
    if events != [] {
      StepKeepsExclusive(c, events[0]);
      StepPreservesGood(c, events[0]);
      RunKeepsExclusive(Step(c, events[0]), events[1..]);
    }
  }

  /**
   * As long as every `onended` comes from the element in the slot, at most
   * one audio element plays.
   */
  lemma AtMostOnePlaying(events: seq<Event>, a: nat, b: nat)
    requires EndedOnlyFromCurrent(Mounted, events)
    requires Playing(Run(Mounted, events), a) && Playing(Run(Mounted, events), b)
    ensures a == b
  {
    RunKeepsExclusive(Mounted, events);
  }

  /**
   * An `onended` of a replaced element, already queued when the next
   * response was handled, revokes that element's URL but also clears the
   * slot and `isAITalking` while the new element plays on; the response
   * after that plays over it.
   */
  lemma StaleEndedTwoPlaying(x: seq<Byte>, y: seq<Byte>, z: seq<Byte>)
    ensures var mid := Run(Mounted, [FrameReceived(AudioResponse(x), "", 0),
                                     FrameReceived(AudioResponse(y), "", 0), AudioEnded(0)]);
      Playing(mid, 1) && mid.current == None && !mid.chat.isAITalking &&
      0 in mid.paused && 0 !in mid.liveUrls
    ensures var r := Run(Mounted, [FrameReceived(AudioResponse(x), "", 0),
                                   FrameReceived(AudioResponse(y), "", 0), AudioEnded(0),
                                   FrameReceived(AudioResponse(z), "", 0)]);
      Playing(r, 1) && Playing(r, 2)
  {
    var ex := FrameReceived(AudioResponse(x), "", 0);
    var ey := FrameReceived(AudioResponse(y), "", 0);
    var ez := FrameReceived(AudioResponse(z), "", 0);
    var c1 := Step(Mounted, ex);
    var c2 := Step(c1, ey);
    var c3 := Step(c2, AudioEnded(0));
    var c4 := Step(c3, ez);
    assert c2.paused == [0] && c2.liveUrls == {0, 1};
    assert c3.liveUrls == {1} && Playing(c3, 1);
    assert c4.paused == [0] && c4.liveUrls == {1, 2};
    RunAppend(Mounted, [ex, ey], [AudioEnded(0)]);
    RunAppend(Mounted, [ex, ey, AudioEnded(0)], [ez]);
    assert [ex, ey][1..] == [ey];
    assert [ex, ey] + [AudioEnded(0)] == [ex, ey, AudioEnded(0)];
    assert [ex, ey, AudioEnded(0)] + [ez] == [ex, ey, AudioEnded(0), ez];
  }

  /**
   * A response that replaces a playing element pauses it but never revokes
   * its object URL: only `onended` revokes.
   */
  lemma ReplacedUrlStaysLive(c: Client, audio: seq<Byte>)
    requires Good(c) && c.current.Some?
    ensures c.current.value.id in PlayResponse(c, audio).paused
    ensures c.current.value.id in PlayResponse(c, audio).liveUrls
    ensures !Playing(PlayResponse(c, audio), c.current.value.id)
  {
  }

  /**
   * An `audio_response` whose audio cannot be converted stops and drops the
   * current element, leaves its URL live and leaves `isAITalking` as it was.
   */
  lemma UnreadableAudioDropsCurrent(c: Client, id: string, at: int)
    requires Good(c) && c.current.Some?
    ensures var r := Step(c, FrameReceived(AudioUnreadable, id, at));
      r.current == None && c.current.value.id in r.paused && c.current.value.id in r.liveUrls &&
      r.chat == c.chat
  {
  }

  // ---------------------------------------------------------------------
  // Transcript order
  // ---------------------------------------------------------------------

  /** The transcript line an event contributes, if any. */
  function LineOf(e: Event): seq<Message>
  {
    match e
    case FrameReceived(Transcript(speaker, text), id, at) => [Message(id, RoleOf(speaker), text, at)]
    case _ => []
  }

  /** The transcript lines of a run, in receipt order. */
  function TranscriptOf(events: seq<Event>): seq<Message>
  {
    if events == [] then [] else LineOf(events[0]) + TranscriptOf(events[1..])
  }

  lemma StepMessages(c: Client, e: Event)
    ensures Step(c, e).chat.messages == c.chat.messages + LineOf(e)
  {
  }

  /**
   * The transcript after any run is the transcript before it followed by
   * exactly the transcript frames of the run, in the order received.
   */
  lemma {:induction false} RunTranscript(c: Client, events: seq<Event>)
    ensures Run(c, events).chat.messages == c.chat.messages + TranscriptOf(events)
    decreases |events|
  {
    if events == [] {
      assert c.chat.messages + [] == c.chat.messages;
    } else {
      RunCons(c, events);
      StepMessages(c, events[0]);
      RunTranscript(Step(c, events[0]), events[1..]);
      AppendAssoc(c.chat.messages, LineOf(events[0]), TranscriptOf(events[1..]));
    }
  }

  /** Earlier transcript lines are never edited, removed or reordered. */
  lemma RunKeepsEarlierLines(c: Client, events: seq<Event>)
    ensures |c.chat.messages| <= |Run(c, events).chat.messages|
    ensures Run(c, events).chat.messages[..|c.chat.messages|] == c.chat.messages
  {
    RunTranscript(c, events);
  }

  /** `transcript(user, "a")` then `transcript(ai, "b")` gives exactly those two lines, in that order. */
  lemma TwoLinesInOrder(c: Client, id1: string, at1: int, id2: string, at2: int)
    requires c.chat.messages == []
    ensures Run(c, [FrameReceived(Transcript("user", "a"), id1, at1),
                    FrameReceived(Transcript("ai", "b"), id2, at2)]).chat.messages
         == [Message(id1, User, "a", at1), Message(id2, Ai, "b", at2)]
  {
    var events := [FrameReceived(Transcript("user", "a"), id1, at1),
                   FrameReceived(Transcript("ai", "b"), id2, at2)];
    RunTranscript(c, events);
    assert TranscriptOf(events[1..][1..]) == [];
  }

  // ---------------------------------------------------------------------
  // Connection status
  // ---------------------------------------------------------------------

  /** Of an `onerror` and an `onclose`, whichever comes last decides the status. */
  lemma LastSocketEventWins(c: Client)
    ensures Run(c, [SocketError, SocketClose]).chat.connectionStatus == Disconnected
    ensures Run(c, [SocketClose, SocketError]).chat.connectionStatus == Error
    ensures !Run(c, [SocketError, SocketClose]).chat.isConnected
    ensures !Run(c, [SocketClose, SocketError]).chat.isConnected
  {
    assert [SocketError, SocketClose][1..] == [SocketClose];
    assert [SocketClose, SocketError][1..] == [SocketError];
  }

  /** The connect button is rendered only while disconnected and is disabled while connecting. */
  predicate ConnectEnabled(s: ChatState)
  {
    !s.isConnected && s.connectionStatus != Connecting
  }

  /** Events the rendered UI lets through: a connect click only on an enabled button. */
  predicate Allowed(c: Client, e: Event)
  {
    e.ConnectClicked? ==> ConnectEnabled(c.chat)
  }

  predicate GuardedRun(c: Client, events: seq<Event>)
    decreases |events|
  {
    events == [] || (Allowed(c, events[0]) && GuardedRun(Step(c, events[0]), events[1..]))
  }

  predicate FlagMatchesStatus(s: ChatState)
  {
    s.isConnected <==> s.connectionStatus == Connected
  }

  lemma StepKeepsFlag(c: Client, e: Event)
    requires FlagMatchesStatus(c.chat) && Allowed(c, e)
    ensures FlagMatchesStatus(Step(c, e).chat)
  {
  }

  /** Through the UI, `isConnected` is true exactly when the status is "connected". */
  lemma {:induction false} GuardedRunKeepsFlag(c: Client, events: seq<Event>)
    requires FlagMatchesStatus(c.chat) && GuardedRun(c, events)
    ensures FlagMatchesStatus(Run(c, events).chat)
    decreases |events|
  {
    if events != [] {
      StepKeepsFlag(c, events[0]);
      GuardedRunKeepsFlag(Step(c, events[0]), events[1..]);
    }
  }

  /**
   * `connectWebSocket` itself has no guard: invoked while connected it shows
   * "connecting" with `isConnected` still true.
   */
  lemma UnguardedConnectSplitsFlag(c: Client)
    requires c.chat.isConnected
    ensures Step(c, ConnectClicked(true)).chat.isConnected
    ensures Step(c, ConnectClicked(true)).chat.connectionStatus == Connecting
  {
  }

  /** "connected" only ever appears through `onopen`. */
  lemma ConnectedOnlyOnOpen(c: Client, e: Event)
    requires c.chat.connectionStatus != Connected && Step(c, e).chat.connectionStatus == Connected
    ensures e == SocketOpen
  {
  }

  // ---------------------------------------------------------------------
  // Recording
  // ---------------------------------------------------------------------

  /** `isRecording` becomes true only on the recorder's `onstart`. */
  lemma RecordingRisesOnlyOnStart(c: Client, e: Event)
    requires !c.chat.isRecording && Step(c, e).chat.isRecording
    ensures e == RecorderStart
  {
  }

  /** `isAITalking` becomes true only on an `audio_response` frame. */
  lemma TalkingRisesOnlyOnAudio(c: Client, e: Event)
    requires !c.chat.isAITalking && Step(c, e).chat.isAITalking
    ensures e.FrameReceived? && e.frame.AudioResponse?
  {
  }

  /** One `ondataavailable` per chunk, in order. */
  function DataEvents(chunks: seq<Chunk>): (r: seq<Event>)
    ensures |r| == |chunks|
    ensures forall i :: 0 <= i < |r| ==> r[i] == RecorderData(chunks[i])
  {
    if chunks == [] then [] else [RecorderData(chunks[0])] + DataEvents(chunks[1..])
  }

  /** The chunks that have at least one byte, in order. */
  function NonEmptyOnly(chunks: seq<Chunk>): (r: seq<Chunk>)
    ensures AllNonEmpty(r)
    ensures chunks == [] ==> r == []
    ensures |chunks| == 1 ==> r == (if |chunks[0]| > 0 then chunks else [])
  {
    if chunks == [] then []
    else (if |chunks[0]| > 0 then [chunks[0]] else []) + NonEmptyOnly(chunks[1..])
  }

  /** Filtering two lists in turn is filtering their concatenation. */
  lemma {:induction false} NonEmptyOnlyAppend(a: seq<Chunk>, b: seq<Chunk>)
    ensures NonEmptyOnly(a + b) == NonEmptyOnly(a) + NonEmptyOnly(b)
    decreases |a|
  {
    if a == [] {
      assert a + b == b;
    } else {
      assert (a + b)[0] == a[0] && (a + b)[1..] == a[1..] + b;
      NonEmptyOnlyAppend(a[1..], b);
      var head := if |a[0]| > 0 then [a[0]] else [];
      assert head + (NonEmptyOnly(a[1..]) + NonEmptyOnly(b)) == head + NonEmptyOnly(a[1..]) + NonEmptyOnly(b);
    }
  }

  /** Dropping empty chunks does not change the joined bytes. */
  lemma {:induction false} ConcatSkipsEmpty(chunks: seq<Chunk>)
    ensures Concat(NonEmptyOnly(chunks)) == Concat(chunks)
  {
    if chunks != [] {
      ConcatSkipsEmpty(chunks[1..]);
      var head := if |chunks[0]| > 0 then [chunks[0]] else [];
      ConcatOfJoin(head, NonEmptyOnly(chunks[1..]));
    }
  }

  lemma {:induction false} ConcatOfJoin(a: seq<Chunk>, b: seq<Chunk>)
    ensures Concat(a + b) == Concat(a) + Concat(b)
    decreases |a|
  {
    if a == [] {
      assert a + b == b;
    } else {
      assert (a + b)[1..] == a[1..] + b;
      ConcatOfJoin(a[1..], b);
    }
  }

  /**
   * Data events append their non-empty chunks to the buffer in arrival
   * order and change nothing else.
   */
  lemma {:induction false} RunDataEvents(c: Client, chunks: seq<Chunk>)
    ensures Run(c, DataEvents(chunks)) == c.(chunks := c.chunks + NonEmptyOnly(chunks))
    decreases |chunks|
  {
    if chunks == [] {
      assert c.chunks + [] == c.chunks;
    } else {
      var head := if |chunks[0]| > 0 then [chunks[0]] else [];
      var c1 := c.(chunks := c.chunks + head);
      RunDataHead(c, chunks);
      RunDataEvents(c1, chunks[1..]);
      NonEmptyOnlyCons(chunks);
      AppendAssoc(c.chunks, head, NonEmptyOnly(chunks[1..]));
    }
  }

  lemma NonEmptyOnlyCons(chunks: seq<Chunk>)
    requires chunks != []
    ensures NonEmptyOnly(chunks) == (if |chunks[0]| > 0 then [chunks[0]] else []) + NonEmptyOnly(chunks[1..])
  {
  }

  lemma AppendAssoc<T>(a: seq<T>, b: seq<T>, d: seq<T>)
    ensures a + b + d == a + (b + d)
  {
  }

  lemma RunDataHead(c: Client, chunks: seq<Chunk>)
    requires chunks != []
    ensures Run(c, DataEvents(chunks)) ==
      Run(c.(chunks := c.chunks + if |chunks[0]| > 0 then [chunks[0]] else []), DataEvents(chunks[1..]))
  {
    DataEventsSplit(chunks);
    RunCons(c, DataEvents(chunks));
    StepData(c, chunks[0]);
  }

  lemma DataEventsSplit(chunks: seq<Chunk>)
    requires chunks != []
    ensures DataEvents(chunks)[0] == RecorderData(chunks[0])
    ensures DataEvents(chunks)[1..] == DataEvents(chunks[1..])
  {
  }

  lemma RunCons(c: Client, events: seq<Event>)
    requires events != []
    ensures Run(c, events) == Run(Step(c, events[0]), events[1..])
  {
  }

  lemma StepData(c: Client, chunk: Chunk)
    ensures Step(c, RecorderData(chunk)) == c.(chunks := c.chunks + if |chunk| > 0 then [chunk] else [])
  {
    if |chunk| == 0 {
      assert c.chunks + [] == c.chunks;
    }
  }

  /**
   * One utterance over an open socket: press, recorder start, data events,
   * release, the data the recorder still delivers after `stop()`, recorder
   * stop. Exactly one `audio_input` frame is sent, carrying all recorded
   * bytes in order; the buffer ends empty and `isRecording` false.
   */
  lemma Utterance(c: Client, before: seq<Chunk>, after: seq<Chunk>)
    requires c.chat.isConnected && c.socket == Some(ReadyOpen)
    ensures var r := Run(c, [PressTalk(Started), RecorderStart] + DataEvents(before) + [ReleaseTalk] +
                            DataEvents(after) + [RecorderStop]);
      r.sent == c.sent + [AudioInput(Concat(before + after))] &&
      r.chunks == [] && !r.chat.isRecording && r.recorder == Some(Inactive) &&
      r.chat.messages == c.chat.messages && r.current == c.current &&
      r.chat.connectionStatus == c.chat.connectionStatus && r.chat.isConnected == c.chat.isConnected &&
      r.chat.isAITalking == c.chat.isAITalking && r.socket == c.socket
  {
    var start: seq<Event> := [PressTalk(Started), RecorderStart];
    var c1 := Run(c, start);
    assert start[1..][1..] == [];
    assert c1 == c.(recorder := Some(Recording), chunks := [], chat := RecordingStarted(c.chat));
    RunDataEvents(c1, before);
    var c2 := Run(c1, DataEvents(before));
    assert c2.chunks == NonEmptyOnly(before);
    var c3 := Step(c2, ReleaseTalk);
    assert c3 == c2.(recorder := Some(Inactive));
    RunDataEvents(c3, after);
    var c4 := Run(c3, DataEvents(after));
    assert c4.chunks == NonEmptyOnly(before) + NonEmptyOnly(after);
    var c5 := Step(c4, RecorderStop);
    NonEmptyOnlyAppend(before, after);
    ConcatSkipsEmpty(before + after);
    assert c5.sent == c.sent + [AudioInput(Concat(before + after))];
    var e1 := start + DataEvents(before);
    var e2 := e1 + [ReleaseTalk];
    var e3 := e2 + DataEvents(after);
    RunAppend(c, start, DataEvents(before));
    assert Run(c, e1) == c2;
    RunSnoc(c, e1, ReleaseTalk);
    assert Run(c, e2) == c3;
    RunAppend(c, e2, DataEvents(after));
    assert Run(c, e3) == c4;
    RunSnoc(c, e3, RecorderStop);
  }

  lemma RunSnoc(c: Client, events: seq<Event>, e: Event)
    ensures Run(c, events + [e]) == Step(Run(c, events), e)
  {
    RunAppend(c, events, [e]);
    assert [e][1..] == [];
  }

  /**
   * Stopping with nothing captured still clears `isRecording`, and over an
   * open socket sends an `audio_input` frame whose audio is empty.
   */
  lemma EmptyUtterance(c: Client)
    requires c.chunks == [] && c.socket == Some(ReadyOpen)
    ensures !Step(c, RecorderStop).chat.isRecording
    ensures Step(c, RecorderStop).sent == c.sent + [AudioInput([])]
  {
  }

  /** A release before the recorder's `onstart` is ignored, so the recorder keeps recording. */
  lemma EarlyReleaseIgnored(c: Client)
    requires c.chat.isConnected && !c.chat.isRecording
    ensures Run(c, [PressTalk(Started), ReleaseTalk]).recorder == Some(Recording)
    ensures !Run(c, [PressTalk(Started), ReleaseTalk]).chat.isRecording
  {
    assert [PressTalk(Started), ReleaseTalk][1..] == [ReleaseTalk];
  }

  /**
   * A second press whose recorder is installed before the first recorder's
   * `onstop` empties the shared buffer: that `onstop` then sends an empty
   * frame, so the first utterance's bytes are never sent, and it clears
   * `isRecording` while the new recorder records.
   */
  lemma PressBeforeStopLosesUtterance(c: Client, x: Chunk)
    requires c.chat.isConnected && c.socket == Some(ReadyOpen) && |x| > 0
    ensures var r := Run(c, [PressTalk(Started), RecorderStart, RecorderData(x), ReleaseTalk,
                             PressTalk(Started), RecorderStop]);
      r.sent == c.sent + [AudioInput([])] && r.chunks == [] &&
      !r.chat.isRecording && r.recorder == Some(Recording)
  {
    var first: seq<Event> := [PressTalk(Started), RecorderStart, RecorderData(x), ReleaseTalk];
    var e4, e5 := PressTalk(Started), RecorderStop;
    var m := Run(c, first);
    ReleasedUtterance(c, x);
    var m5 := Step(m, e4);
    assert m5.chunks == [] && m5.recorder == Some(Recording) && m5.socket == Some(ReadyOpen);
    RunSnoc(m, [], e4);
    assert [] + [e4] == [e4];
    RunSnoc(m, [e4], e5);
    assert [e4] + [e5] == [e4, e5];
    RunAppend(c, first, [e4, e5]);
    assert first + [e4, e5] == [PressTalk(Started), RecorderStart, RecorderData(x), ReleaseTalk,
                                PressTalk(Started), RecorderStop];
  }

  /**
   * The new recorder's `onstart` before the old recorder's `onstop`: the
   * `onstop` clears `isRecording`, so the next release is ignored and the
   * new recorder keeps recording with nothing left to stop it.
   */
  lemma StaleStopStrandsRecorder(c: Client, x: Chunk)
    requires c.chat.isConnected && c.socket == Some(ReadyOpen)
    ensures var r := Run(c, [PressTalk(Started), RecorderStart, RecorderData(x), ReleaseTalk,
                             PressTalk(Started), RecorderStart, RecorderStop, ReleaseTalk]);
      !r.chat.isRecording && r.recorder == Some(Recording)
  {
    var first: seq<Event> := [PressTalk(Started), RecorderStart, RecorderData(x), ReleaseTalk];
    var e4, e5, e6, e7 := PressTalk(Started), RecorderStart, RecorderStop, ReleaseTalk;
    var m := Run(c, first);
    ReleasedUtterance(c, x);
    var m6 := Step(Step(m, e4), e5);
    assert m6.recorder == Some(Recording);
    var m7 := Step(m6, e6);
    assert !m7.chat.isRecording && m7.recorder == Some(Recording);
    RunSnoc(m, [], e4);
    assert [] + [e4] == [e4];
    RunSnoc(m, [e4], e5);
    assert [e4] + [e5] == [e4, e5];
    RunSnoc(m, [e4, e5], e6);
    assert [e4, e5] + [e6] == [e4, e5, e6];
    RunSnoc(m, [e4, e5, e6], e7);
    assert [e4, e5, e6] + [e7] == [e4, e5, e6, e7];
    RunAppend(c, first, [e4, e5, e6, e7]);
    assert first + [e4, e5, e6, e7] == [PressTalk(Started), RecorderStart, RecorderData(x), ReleaseTalk,
                                        PressTalk(Started), RecorderStart, RecorderStop, ReleaseTalk];
  }

  /**
   * Press, start, one chunk, release: the recorder is told to stop but its
   * `onstop` has not run, so `isRecording` is still true and the chunk is
   * still buffered.
   */
  lemma ReleasedUtterance(c: Client, x: Chunk)
    requires c.chat.isConnected
    ensures var m := Run(c, [PressTalk(Started), RecorderStart, RecorderData(x), ReleaseTalk]);
      m.recorder == Some(Inactive) && m.chat.isRecording && m.chat.isConnected &&
      m.chunks == (if |x| > 0 then [x] else []) && m.socket == c.socket && m.sent == c.sent
  {
    var e0, e1, e2, e3 := PressTalk(Started), RecorderStart, RecorderData(x), ReleaseTalk;
    var c2 := Step(Step(c, e0), e1);
    assert c2.chat.isRecording && c2.recorder == Some(Recording) && c2.chunks == [];
    var c3 := Step(c2, e2);
    assert c3.chunks == (if |x| > 0 then [x] else []);
    RunSnoc(c, [], e0);
    assert [] + [e0] == [e0];
    RunSnoc(c, [e0], e1);
    assert [e0] + [e1] == [e0, e1];
    RunSnoc(c, [e0, e1], e2);
    assert [e0, e1] + [e2] == [e0, e1, e2];
    RunSnoc(c, [e0, e1, e2], e3);
    assert [e0, e1, e2] + [e3] == [e0, e1, e2, e3];
  }

  /**
   * No barge-in: starting to record neither pauses the AI's audio nor clears
   * `isAITalking`, so both flags can be true together.
   */
  lemma RecordingDoesNotInterrupt(c: Client)
    requires c.chat.isConnected
    ensures Run(c, [PressTalk(Started), RecorderStart]).chat.isRecording
    ensures Run(c, [PressTalk(Started), RecorderStart]).chat.isAITalking == c.chat.isAITalking
    ensures Run(c, [PressTalk(Started), RecorderStart]).current == c.current
    ensures Run(c, [PressTalk(Started), RecorderStart]).paused == c.paused
  {
    assert [PressTalk(Started), RecorderStart][1..] == [RecorderStart];
  }

  // ---------------------------------------------------------------------
  // A whole conversation
  // ---------------------------------------------------------------------

  /**
   * Connect, talk, get the user's line back and the AI's reply: one frame
   * sent with the captured bytes, one transcript line, and the AI flag back
   * to false once playback ends.
   */
  lemma Conversation(chunk: Chunk, reply: seq<Byte>, id: string, at: int)
    ensures var r := Run(Mounted, [ConnectClicked(true), SocketOpen] +
                                  ([PressTalk(Started), RecorderStart] + DataEvents([chunk]) + [ReleaseTalk] +
                                   DataEvents([]) + [RecorderStop]) +
                                  [FrameReceived(Transcript("user", "hello"), id, at),
                                   FrameReceived(AudioResponse(reply), "", 0), AudioEnded(0)]);
      r.sent == [AudioInput(chunk)] &&
      r.chat.messages == [Message(id, User, "hello", at)] &&
      r.chat.connectionStatus == Connected && r.chat.isConnected &&
      !r.chat.isRecording && !r.chat.isAITalking && r.current == None
  {
    var connect: seq<Event> := [ConnectClicked(true), SocketOpen];
    var talk := [PressTalk(Started), RecorderStart] + DataEvents([chunk]) + [ReleaseTalk] +
                DataEvents([]) + [RecorderStop];
    var reply3: seq<Event> := [FrameReceived(Transcript("user", "hello"), id, at),
                               FrameReceived(AudioResponse(reply), "", 0), AudioEnded(0)];
    var c1 := Run(Mounted, connect);
    assert connect[1..][1..] == [];
    assert c1.chat.isConnected && c1.socket == Some(ReadyOpen) && c1.sent == [] && c1.nextAudio == 0;
    Utterance(c1, [chunk], []);
    assert [chunk] + [] == [chunk];
    var c2 := Run(c1, talk);
    RunAppend(Mounted, connect, talk);
    RunAppend(Mounted, connect + talk, reply3);
    var c3 := Step(c2, reply3[0]);
    assert c3.chat.messages == [Message(id, User, "hello", at)];
    var c4 := Step(c3, reply3[1]);
    var c5 := Step(c4, reply3[2]);
    assert reply3[1..][0] == reply3[1] && reply3[1..][1..][0] == reply3[2];
    assert reply3[1..][1..][1..] == [];
    assert Run(c4, reply3[1..][1..]) == c5;
    assert Run(c3, reply3[1..]) == c5;
    assert Run(c2, reply3) == c5;
  }
}
