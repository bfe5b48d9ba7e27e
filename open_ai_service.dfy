/** The realtime bridge of `azureOpenAiService.ts`: module-level state (the
    call-side socket `ws`, the capture log `audioData`, the module `callerId`),
    the inbound relay to the realtime AI session, the outbound relay back to the
    call, the stop-audio (barge-in) path and the per-event dispatcher. */
module OpenAiService {
  import opened Wrappers
  import opened CaptureLog

  // Realtime server event types the dispatcher names.
  const SessionCreated := "session.created"
  const AudioTranscriptDelta := "response.audio_transcript.delta"
  const AudioDelta := "response.audio.delta"
  const SpeechStarted := "input_audio_buffer.speech_started"
  const InputTranscriptionCompleted := "conversation.item.input_audio_transcription.completed"
  const AudioTranscriptDone := "response.audio_transcript.done"
  const ResponseDone := "response.done"

  /** The `kind` of an outbound streaming envelope that carries audio. */
  const AudioDataKind := "audioData"

  /** A realtime server event: its `type` and, for an audio delta, the base64 `delta`.
      The fields that are only logged (session id, transcripts, status) are omitted. */
  datatype ServerEvent = ServerEvent(eventType: string, delta: string)

  /** What the dispatcher does for an event type. */
  datatype Action =
    | LogSessionId | NoAction | RelayAudio | StopPlayback
    | LogUserTranscript | LogAiTranscript | LogResponseStatus | Ignore

  /** The `switch (message.type)` of `handleRealtimeMessages`, a total map. */
  function Classify(eventType: string): (a: Action) {
    if eventType == SessionCreated then LogSessionId
    else if eventType == AudioTranscriptDelta then NoAction
    else if eventType == AudioDelta then RelayAudio
    else if eventType == SpeechStarted then StopPlayback
    else if eventType == InputTranscriptionCompleted then LogUserTranscript
    else if eventType == AudioTranscriptDone then LogAiTranscript
    else if eventType == ResponseDone then LogResponseStatus
    else Ignore
  }

  /** The session settings `createConfigMessage` sends. */
  datatype SessionConfig = SessionConfig(
    instructions: string, voice: string,
    inputAudioFormat: string, outputAudioFormat: string,
    turnDetection: string, transcriptionModel: string)

  /** Messages the bridge sends to the realtime AI session. */
  datatype ClientMessage =
    | SessionUpdate(session: SessionConfig)
    | InputAudioBufferAppend(audio: string)
  {
    /** The message's `type` on the wire. */
    function Type(): (t: string) {
      match this
      case SessionUpdate(_) => "session.update"
      case InputAudioBufferAppend(_) => "input_audio_buffer.append"
    }
  }

  /** `createConfigMessage`, for the given instruction text (the sales-assistant
      prompt constant in the source). */
  function CreateConfigMessage(instructions: string): (m: ClientMessage)
    ensures m.Type() == "session.update" && m.SessionUpdate?
    ensures m.session.instructions == instructions
    ensures m.session.inputAudioFormat == m.session.outputAudioFormat == "pcm16"
    ensures m.session.turnDetection == "server_vad"
    ensures m.session.voice == "shimmer" && m.session.transcriptionModel == "whisper-1"
  {
    SessionUpdate(SessionConfig(instructions, "shimmer", "pcm16", "pcm16", "server_vad", "whisper-1"))
  }

  /** An outbound streaming envelope as the bridge inspects it: its `kind` and,
      when present, `audioData.data`. */
  datatype Envelope = Envelope(kind: string, audioData: Option<string>)

  /** The call-automation SDK's envelope builders, whose internals lie outside the
      model: `OutStreamingData.getStreamingDataForOutbound` and
      `OutStreamingData.getStopAudioForOutbound`. */
  datatype OutStreamingCodec = OutStreamingCodec(
    streamingDataForOutbound: string -> Envelope,
    stopAudioForOutbound: Envelope)

  /** The builder wraps every payload as audio data carrying that payload. */
  ghost predicate CarriesPayload(codec: OutStreamingCodec) {
    forall d :: codec.streamingDataForOutbound(d) == Envelope(AudioDataKind, Some(d))
  }

  /** The frame `receiveAudioForOutbound` pushes for an envelope: an AI frame with
      the envelope's payload when its kind is audio data. Without a payload the
      lookup `jsonData['audioData']['data']` throws inside the `try` block and
      nothing is pushed. */
  function OutboundFrames(env: Envelope, callerId: Option<string>, now: int): (r: seq<Frame>) {
    if env.kind == AudioDataKind && env.audioData.Some? then
      [Frame(AI, env.audioData.value, callerId, now)]
    else []
  }

  /** The frames one dispatched event adds to the log. */
  function EventFrames(ev: ServerEvent, codec: OutStreamingCodec, callerId: Option<string>, now: int): (r: seq<Frame>) {
    if Classify(ev.eventType) == RelayAudio then
      OutboundFrames(codec.streamingDataForOutbound(ev.delta), callerId, now)
    else []
  }

  /** The envelopes one dispatched event writes to the call-side socket, given
      whether the socket is open. */
  function EventOutput(ev: ServerEvent, codec: OutStreamingCodec, open: bool): (r: seq<Envelope>) {
    if !open then []
    else match Classify(ev.eventType)
      case RelayAudio => [codec.streamingDataForOutbound(ev.delta)]
      case StopPlayback => [codec.stopAudioForOutbound]
      case _ => []
  }

  /** The frames a stream of events adds, event by event; `times[i]` is the clock
      reading when `events[i]` is handled. */
  function StreamFrames(events: seq<ServerEvent>, times: seq<int>, codec: OutStreamingCodec,
                        callerId: Option<string>): (r: seq<Frame>)
    requires |times| == |events|
    decreases |events|
  {
    if events == [] then []
    else StreamFrames(events[..|events| - 1], times[..|times| - 1], codec, callerId)
         + EventFrames(events[|events| - 1], codec, callerId, times[|times| - 1])
  }

  /** The envelopes a stream of events writes, event by event. */
  function StreamOutput(events: seq<ServerEvent>, codec: OutStreamingCodec, open: bool): (r: seq<Envelope>)
    decreases |events|
  {
    if events == [] then []
    else StreamOutput(events[..|events| - 1], codec, open) + EventOutput(events[|events| - 1], codec, open)
  }

  /** The deltas of the audio-delta events of a stream, in order. */
  function RelayedDeltas(events: seq<ServerEvent>): (r: seq<string>)
    decreases |events|
  {
    if events == [] then []
    else RelayedDeltas(events[..|events| - 1])
         + (if events[|events| - 1].eventType == AudioDelta then [events[|events| - 1].delta] else [])
  }

  /** The dispatch table: an audio delta is the only event that relays audio, and
      speech-started is the only one that stops playback. */
  lemma DispatchTable(eventType: string)
    ensures Classify(eventType) == RelayAudio <==> eventType == AudioDelta
    ensures Classify(eventType) == StopPlayback <==> eventType == SpeechStarted
  {
  }

  /** Only an audio delta adds to the log, and then only the AI frame of its envelope. */
  lemma EventFramesOnlyForAudioDelta(ev: ServerEvent, codec: OutStreamingCodec, callerId: Option<string>, now: int)
    ensures EventFrames(ev, codec, callerId, now) != [] ==> ev.eventType == AudioDelta
    ensures ev.eventType == AudioDelta ==>
              EventFrames(ev, codec, callerId, now)
              == OutboundFrames(codec.streamingDataForOutbound(ev.delta), callerId, now)
  {
    DispatchTable(ev.eventType);
  }

  /** With a builder that wraps each payload as audio data, an audio delta adds
      exactly one AI frame holding the delta, tagged and stamped as given. */
  lemma AudioDeltaLogsPayload(codec: OutStreamingCodec, callerId: Option<string>, now: int, delta: string)
    requires CarriesPayload(codec)
    ensures EventFrames(ServerEvent(AudioDelta, delta), codec, callerId, now) == [Frame(AI, delta, callerId, now)]
  {
    DispatchTable(AudioDelta);
    assert codec.streamingDataForOutbound(delta) == Envelope(AudioDataKind, Some(delta));
  }

  /** Speech-started writes exactly one stop-audio envelope to an open socket;
      event types that are neither an audio delta nor speech-started, known or
      not, write nothing. */
  lemma EventOutputTable(ev: ServerEvent, codec: OutStreamingCodec, open: bool)
    ensures ev.eventType == SpeechStarted ==>
              EventOutput(ev, codec, open) == if open then [codec.stopAudioForOutbound] else []
    ensures ev.eventType != AudioDelta && ev.eventType != SpeechStarted ==>
              EventOutput(ev, codec, open) == []
  {
    DispatchTable(ev.eventType);
  }

  /** A closed socket receives nothing, whatever the events. */
  lemma {:induction false} ClosedSocketReceivesNothing(events: seq<ServerEvent>, codec: OutStreamingCodec)
    ensures StreamOutput(events, codec, false) == []
    decreases |events|
  {
    if events != [] {
      ClosedSocketReceivesNothing(events[..|events| - 1], codec);
    }
  }

  /** Handling two stretches of a stream writes the first stretch's envelopes,
      then the second's. */
  lemma {:induction false} StreamOutputAppend(a: seq<ServerEvent>, b: seq<ServerEvent>, codec: OutStreamingCodec, open: bool)
    ensures StreamOutput(a + b, codec, open) == StreamOutput(a, codec, open) + StreamOutput(b, codec, open)
    decreases |b|
  {
    if b == [] {
      assert a + b == a;
    } else {
      var b' := b[..|b| - 1];
      assert (a + b)[..|a + b| - 1] == a + b';
      assert (a + b)[|a + b| - 1] == b[|b| - 1];
      StreamOutputAppend(a, b', codec, open);
    }
  }

  /** Barge-in ordering: on an open socket, a speech-started event at position `i`
      writes its stop-audio envelope after everything the earlier events wrote and
      before anything a later audio delta writes. */
  lemma BargeInPrecedesLaterAudio(events: seq<ServerEvent>, codec: OutStreamingCodec, i: nat)
    requires i < |events| && events[i].eventType == SpeechStarted
    ensures StreamOutput(events, codec, true)
         == StreamOutput(events[..i], codec, true) + [codec.stopAudioForOutbound]
            + StreamOutput(events[i + 1..], codec, true)
  {
    assert events == events[..i] + [events[i]] + events[i + 1..];
    StreamOutputAppend(events[..i] + [events[i]], events[i + 1..], codec, true);
    StreamOutputAppend(events[..i], [events[i]], codec, true);
    assert StreamOutput([events[i]], codec, true) == EventOutput(events[i], codec, true);
    EventOutputTable(events[i], codec, true);
  }

  /** Every frame a stream adds is an AI frame tagged with the module caller id. */
  lemma {:induction false} StreamFramesAreAi(events: seq<ServerEvent>, times: seq<int>,
                                              codec: OutStreamingCodec, callerId: Option<string>)
    requires |times| == |events|
    ensures forall k :: 0 <= k < |StreamFrames(events, times, codec, callerId)| ==>
              StreamFrames(events, times, codec, callerId)[k].role == AI &&
              StreamFrames(events, times, codec, callerId)[k].callerId == callerId
    decreases |events|
  {
    if events != [] {
      StreamFramesAreAi(events[..|events| - 1], times[..|times| - 1], codec, callerId);
    }
  }

  /** With a builder that wraps each payload as audio data, the AI audio a stream
      adds to the log is exactly the received deltas, in order: none lost, none
      duplicated. */
  lemma {:induction false} StreamRecordsEveryDelta(events: seq<ServerEvent>, times: seq<int>,
                                                    codec: OutStreamingCodec, callerId: Option<string>)
    requires |times| == |events| && CarriesPayload(codec)
    ensures |StreamFrames(events, times, codec, callerId)| == |RelayedDeltas(events)|
    ensures forall k :: 0 <= k < |RelayedDeltas(events)| ==>
              StreamFrames(events, times, codec, callerId)[k].audio == RelayedDeltas(events)[k]
    decreases |events|
  {
    if events != [] {
      var n := |events| - 1;
      StreamFramesAreAi(events[..n], times[..n], codec, callerId);
      StreamRecordsEveryDelta(events[..n], times[..n], codec, callerId);
      DispatchTable(events[n].eventType);
      assert codec.streamingDataForOutbound(events[n].delta) == Envelope(AudioDataKind, Some(events[n].delta));
    }
  }

  /** Handling one more event extends the stream's frames and output by that
      event's own: a log holding the frames of the first `i` events, extended by
      the frames of event `i`, holds those of the first `i + 1`; likewise for the
      envelopes written. */
  lemma StreamStep(events: seq<ServerEvent>, times: seq<int>, codec: OutStreamingCodec,
                   callerId: Option<string>, open: bool, i: nat,
                   log0: seq<Frame>, log: seq<Frame>, log': seq<Frame>,
                   sent0: seq<Envelope>, sent: seq<Envelope>, sent': seq<Envelope>)
    requires |times| == |events| && i < |events|
    requires log == log0 + StreamFrames(events[..i], times[..i], codec, callerId)
    requires log' == log + EventFrames(events[i], codec, callerId, times[i])
    requires sent == sent0 + StreamOutput(events[..i], codec, open)
    requires sent' == sent + EventOutput(events[i], codec, open)
    ensures log' == log0 + StreamFrames(events[..i + 1], times[..i + 1], codec, callerId)
    ensures sent' == sent0 + StreamOutput(events[..i + 1], codec, open)
  {
    assert events[..i + 1][..i] == events[..i];
    assert times[..i + 1][..i] == times[..i];
    assert StreamFrames(events[..i + 1], times[..i + 1], codec, callerId)
        == StreamFrames(events[..i], times[..i], codec, callerId) + EventFrames(events[i], codec, callerId, times[i]);
    assert StreamOutput(events[..i + 1], codec, open)
        == StreamOutput(events[..i], codec, open) + EventOutput(events[i], codec, open);
  }

  datatype ReadyState = Connecting | Open | Closing | Closed

  /** The call-side WebSocket: its `readyState`, which the transport changes on its
      own, and a record of every envelope written to it. */
  class CallSocket {
    var readyState: ReadyState
    ghost var sent: seq<Envelope>

    constructor (state: ReadyState)
      ensures readyState == state && sent == []
    {
      readyState := state;
      sent := [];
    }
  }

  /** `ws.readyState === WebSocket.OPEN`, false for a missing socket. */
  predicate IsOpen(s: CallSocket?)
    reads s
  {
    s != null && s.readyState == Open
  }

  /** What has been written to a socket; nothing to a missing one. */
  ghost function SentOn(s: CallSocket?): (r: seq<Envelope>)
    reads s
  {
    if s == null then [] else s.sent
  }

  /** The module state of `azureOpenAiService.ts`, with a record of the messages
      the realtime client accepted. */
  class Bridge {
    /** `ws`; null until `initWebsocket`. */
    var ws: CallSocket?
    /** `audioData`. */
    var log: seq<Frame>
    /** the module-level `callerId` (undefined when the URL held none). */
    var callerId: Option<string>
    const codec: OutStreamingCodec
    /** messages the realtime client's `send` accepted. */
    ghost var aiSent: seq<ClientMessage>

    constructor (codec: OutStreamingCodec)
      ensures ws == null && log == [] && callerId == None && aiSent == []
      ensures this.codec == codec
    {
      ws := null;
      log := [];
      callerId := None;
      this.codec := codec;
      aiSent := [];
    }

    /** `initWebsocket`. */
    method InitWebsocket(socket: CallSocket)
      modifies this`ws
      ensures ws == socket
    {
      ws := socket;
    }

    /** `initAudioData`: the log becomes the given list. */
    method InitAudioData(frames: seq<Frame>)
      modifies this`log
      ensures log == frames
    {
      log := frames;
    }

    /** `initCallerId`. */
    method InitCallerId(id: Option<string>)
      modifies this`callerId
      ensures callerId == id
    {
      callerId := id;
    }

    /** `sendAudioToExternalAi`: non-empty caller audio is pushed to the log as a
        Customer frame stamped `now`, then sent to the realtime session as an
        `input_audio_buffer.append`. `sendOk` says whether that send succeeds; when
        it fails the error is swallowed and the frame stays logged. Empty (falsy)
        audio changes nothing. */
    method SendAudioToExternalAi(data: string, frameCallerId: Option<string>, now: int, sendOk: bool)
      modifies this`log, this`aiSent
      ensures log == old(log) + (if data == "" then [] else [Frame(Customer, data, frameCallerId, now)])
      ensures aiSent == old(aiSent) + (if data != "" && sendOk then [InputAudioBufferAppend(data)] else [])
    {
      var audio := data;
      if audio != "" {
        log := log + [Frame(Customer, audio, frameCallerId, now)];
        if sendOk {
          aiSent := aiSent + [InputAudioBufferAppend(audio)];
        }
      }
    }

    /** `sendMessage`: writes the envelope only when the socket is open. A missing
        socket makes the unawaited call reject without affecting its caller. */
    method SendMessage(env: Envelope)
      modifies ws
      ensures SentOn(ws) == old(SentOn(ws)) + (if old(IsOpen(ws)) then [env] else [])
      ensures ws != null ==> ws.readyState == old(ws.readyState)
    {
      if ws != null && ws.readyState == Open {
        ws.sent := ws.sent + [env];
      }
    }

    /** `stopAudio`: sends one stop-audio envelope and leaves the log alone. */
    method StopAudio()
      modifies ws
      ensures SentOn(ws) == old(SentOn(ws)) + (if old(IsOpen(ws)) then [codec.stopAudioForOutbound] else [])
      ensures ws != null ==> ws.readyState == old(ws.readyState)
      ensures log == old(log)
    {
      var jsonData := codec.stopAudioForOutbound;
      SendMessage(jsonData);
    }

    /** `receiveAudioForOutbound`: relays the AI audio to the call, then logs it as
        an AI frame when the envelope is audio data. */
    method ReceiveAudioForOutbound(data: string, now: int)
      modifies this`log, ws
      ensures SentOn(ws) == old(SentOn(ws)) + (if old(IsOpen(ws)) then [codec.streamingDataForOutbound(data)] else [])
      ensures log == old(log) + OutboundFrames(codec.streamingDataForOutbound(data), callerId, now)
      ensures ws != null ==> ws.readyState == old(ws.readyState)
    {
      var jsonData := codec.streamingDataForOutbound(data);
      SendMessage(jsonData);
      if jsonData.kind == AudioDataKind && jsonData.audioData.Some? {
        log := log + [Frame(AI, jsonData.audioData.value, callerId, now)];
      }
    }

    /** One step of the `for await` loop of `handleRealtimeMessages`. Nothing is
        sent to the realtime session. */
    method Dispatch(ev: ServerEvent, now: int)
      modifies this`log, ws
      ensures log == old(log) + EventFrames(ev, codec, callerId, now)
      ensures SentOn(ws) == old(SentOn(ws)) + EventOutput(ev, codec, old(IsOpen(ws)))
      ensures ws != null ==> ws.readyState == old(ws.readyState)
    {
      match Classify(ev.eventType)
      case RelayAudio =>
        ReceiveAudioForOutbound(ev.delta, now);
      case StopPlayback =>
        StopAudio();
      case _ =>
    }

    /** `handleRealtimeMessages` over a finite stream of events, `times[i]` being
        the clock when `events[i]` is handled; the socket's state is taken to hold
        for the whole stream. */
    method HandleRealtimeMessages(events: seq<ServerEvent>, times: seq<int>)
      requires |times| == |events|
      modifies this`log, ws
      ensures log == old(log) + StreamFrames(events, times, codec, callerId)
      ensures SentOn(ws) == old(SentOn(ws)) + StreamOutput(events, codec, old(IsOpen(ws)))
      ensures ws != null ==> ws.readyState == old(ws.readyState)
    {
      ghost var open := IsOpen(ws);
      ghost var log0, sent0 := log, SentOn(ws);
      for i := 0 to |events|
        invariant ws != null ==> ws.readyState == old(ws.readyState)
        invariant log == log0 + StreamFrames(events[..i], times[..i], codec, callerId)
        invariant SentOn(ws) == sent0 + StreamOutput(events[..i], codec, open)
      {
        ghost var l, s := log, SentOn(ws);
        Dispatch(events[i], times[i]);
        StreamStep(events, times, codec, callerId, open, i, log0, l, log, sent0, s, SentOn(ws));
      }
      assert events[..|events|] == events;
      assert times[..|times|] == times;
    }
  }
}
