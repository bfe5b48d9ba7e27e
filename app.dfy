/** The parts of `app.ts` that carry logic: the correlation token placed in the
    media-streaming URL and read back when the call-side socket connects, the
    finaliser that collates the capture log, the base64 prefix strip before the
    recording is saved, and the call-event callback. */
module App {
  import opened Wrappers
  import opened JsString
  import opened CaptureLog
  import opened OpenAiService

  /** The query text that carries the correlation token. */
  const CallerIdQuery := "?callerId="

  const CallDisconnected := "Microsoft.Communication.CallDisconnected"

  /** `` `${WEBSOCKET_URL}?callerId=${uuid}` `` in `createOutboundCall`. */
  function WebsocketUrl(base: string, uuid: string): (url: string) {
    base + CallerIdQuery + uuid
  }

  /** `req.url.split("?callerId=")[1]` in the connection handler; `None` stands for
      `undefined`, when the URL holds no such query. */
  function ParseCallerId(url: string): (id: Option<string>) {
    var parts := Split(url, CallerIdQuery);
    if |parts| > 1 then Some(parts[1]) else None
  }

  /** `base64String.split(',')[1] || base64String` in `saveBase64AsAudioFile`: the
      text after a `data:...;base64,` prefix (RFC 2397, section 3), that is, the
      text between the first and second commas, unless it is missing or empty. */
  function StripBase64Prefix(s: string): (r: string) {
    var parts := Split(s, ",");
    if |parts| > 1 && parts[1] != "" then parts[1] else s
  }

  /** A character of the base64 alphabet (RFC 4648, section 4), padding included. */
  predicate IsBase64Char(c: char) {
    ('A' <= c <= 'Z') || ('a' <= c <= 'z') || ('0' <= c <= '9') || c == '+' || c == '/' || c == '='
  }

  predicate IsBase64Text(s: string) {
    forall i :: 0 <= i < |s| ==> IsBase64Char(s[i])
  }

  /** The text of a version-4 UUID: lower-case hexadecimal digits and dashes. */
  predicate IsUuidText(s: string) {
    forall i :: 0 <= i < |s| ==> s[i] in "0123456789abcdef-"
  }

  lemma CallerIdQueryHeadUnique()
    ensures HeadUnique(CallerIdQuery)
  {
    assert CallerIdQuery == ['?', 'c', 'a', 'l', 'l', 'e', 'r', 'I', 'd', '='];
  }

  /** Round trip of the correlation token: the connection handler reads back the
      token the call placement put in the URL, provided neither the base URL nor the
      token holds the query text. */
  lemma CallerIdRoundTrip(base: string, uuid: string)
    requires !Contains(base, CallerIdQuery) && !Contains(uuid, CallerIdQuery)
    ensures ParseCallerId(WebsocketUrl(base, uuid)) == Some(uuid)
  {
    CallerIdQueryHeadUnique();
    SplitAtFirst(base, CallerIdQuery, uuid);
    SplitWithoutSeparator(uuid, CallerIdQuery);
  }

  /** A text without '?' cannot hold the query text, which starts with one. */
  lemma QueryNeedsQuestionMark(s: string)
    requires '?' !in s
    ensures !Contains(s, CallerIdQuery)
  {
    forall j: nat | j <= |s| ensures !OccursAt(s, CallerIdQuery, j) {
      if j + |CallerIdQuery| <= |s| {
        assert s[j..j + |CallerIdQuery|][0] == s[j];
      }
    }
  }

  /** A UUID cannot hold the query text. */
  lemma UuidLacksQuery(uuid: string)
    requires IsUuidText(uuid)
    ensures !Contains(uuid, CallerIdQuery)
  {
    assert '?' !in uuid;
    QueryNeedsQuestionMark(uuid);
  }

  /** For the tokens `uuidv4` produces, the round trip needs only a base URL
      without the query text. */
  lemma UuidRoundTrip(base: string, uuid: string)
    requires !Contains(base, CallerIdQuery) && IsUuidText(uuid)
    ensures ParseCallerId(WebsocketUrl(base, uuid)) == Some(uuid)
  {
    UuidLacksQuery(uuid);
    CallerIdRoundTrip(base, uuid);
  }

  /** The caller id is undefined exactly when the URL holds no query text. */
  lemma ParseCallerIdNoneIff(url: string)
    ensures ParseCallerId(url).None? <==> !Contains(url, CallerIdQuery)
  {
    match IndexOf(url, CallerIdQuery)
    case None =>
      IndexOfNoneIff(url, CallerIdQuery);
    case Some(i) =>
      IndexOfNoneIff(url, CallerIdQuery);
      assert Split(url, CallerIdQuery) == [url[..i]] + Split(url[i + |CallerIdQuery|..], CallerIdQuery);
  }

  /** Without a comma the string is returned unchanged. */
  lemma StripWithoutComma(s: string)
    requires ',' !in s
    ensures StripBase64Prefix(s) == s
  {
    ContainsChar(s, ',');
    SplitWithoutSeparator(s, ",");
  }

  /** With a comma, the text between the first comma and the next one (or the end)
      is returned, unless that text is empty, when the whole string is returned. */
  lemma StripTakesSecondField(head: string, field: string, tail: string)
    requires ',' !in head && ',' !in field && (tail == [] || tail[0] == ',')
    ensures StripBase64Prefix(head + "," + field + tail)
         == if field == [] then head + "," + field + tail else field
  {
    ContainsChar(head, ',');
    ContainsChar(field, ',');
    assert head + "," + field + tail == head + "," + (field + tail);
    SplitAtFirst(head, ",", field + tail);
    if tail == [] {
      assert field + tail == field;
      SplitWithoutSeparator(field, ",");
    } else {
      assert field + tail == field + "," + tail[1..];
      SplitAtFirst(field, ",", tail[1..]);
    }
  }

  /** A data URL `data:<mediatype>;base64,<payload>` is stripped to its payload. */
  lemma StripDataUrl(mediaType: string, payload: string)
    requires ',' !in mediaType && ',' !in payload && payload != []
    ensures StripBase64Prefix("data:" + mediaType + ";base64," + payload) == payload
  {
    var head := "data:" + mediaType + ";base64";
    assert ',' !in "data:" && ',' !in ";base64";
    assert ',' !in head;
    assert "data:" + mediaType + ";base64," + payload == head + "," + payload + [];
    StripTakesSecondField(head, payload, []);
  }

  /** Whatever the input, the result is the input itself or a non-empty text without
      commas. */
  lemma StripResultShape(s: string)
    ensures StripBase64Prefix(s) == s || (StripBase64Prefix(s) != [] && ',' !in StripBase64Prefix(s))
  {
    SplitPiecesLackSeparator(s, ",");
    if |Split(s, ",")| > 1 {
      ContainsChar(Split(s, ",")[1], ',');
    }
  }

  lemma {:induction false} ConcatAudioBase64(s: seq<Frame>)
    requires forall k :: 0 <= k < |s| ==> IsBase64Text(s[k].audio)
    ensures IsBase64Text(ConcatAudio(s))
  {
    if s != [] {
      ConcatAudioBase64(s[1..]);
      assert ConcatAudio(s) == s[0].audio + ConcatAudio(s[1..]);
    }
  }

  /** When every logged frame holds base64 text, the collated recording holds no
      comma, so the prefix strip writes it out whole. */
  lemma CollatedBase64IsNotStripped(s: seq<Frame>)
    requires forall k :: 0 <= k < |s| ==> IsBase64Text(s[k].audio)
    ensures StripBase64Prefix(Collate(s)) == Collate(s)
  {
    var sorted := SortByTimestamp(s);
    SortIsPermutation(s);
    forall k | 0 <= k < |sorted| ensures IsBase64Text(sorted[k].audio) {
      assert sorted[k] in multiset(sorted);
      var j :| 0 <= j < |s| && s[j] == sorted[k];
    }
    ConcatAudioBase64(sorted);
    var c := Collate(s);
    assert !IsBase64Char(',');
    assert ',' !in c;
    StripWithoutComma(c);
  }

  /** A call that ends with nothing logged saves an empty recording. */
  lemma EmptyLogSavesEmptyRecording()
    ensures StripBase64Prefix(Collate([])) == ""
  {
    CollateEmpty();
    StripWithoutComma("");
  }

  /** `collateBase64Audio(audioData)`: sorts the shared log in place by timestamp and
      returns the concatenation of its audio strings. */
  method CollateBase64Audio(bridge: Bridge) returns (collated: string)
    modifies bridge`log
    ensures bridge.log == SortByTimestamp(old(bridge.log))
    ensures collated == ConcatAudio(bridge.log) == Collate(old(bridge.log))
  {
    bridge.log := SortByTimestamp(bridge.log);
    collated := ConcatAudio(bridge.log);
  }

  /** The part of a call-automation event envelope the callback reads. */
  datatype CallbackEvent = CallbackEvent(eventType: string, callConnectionId: string, serverCallId: string)

  /** The module state of `app.ts` the callback handler reassigns, and the service
      whose `audioData` it collates. */
  class Server {
    var callConnectionId: Option<string>
    var serverCallId: Option<string>
    const bridge: Bridge

    constructor (bridge: Bridge)
      ensures this.bridge == bridge && callConnectionId == None && serverCallId == None
    {
      this.bridge := bridge;
      callConnectionId := None;
      serverCallId := None;
    }

    /** The `/api/callbacks` handler. Only the first event of the body is read; a
        call-disconnected event collates the log and returns the text written to the
        raw dump. An empty body makes `req.body[0].data` throw before anything
        changes. */
    method HandleCallback(body: seq<CallbackEvent>) returns (written: Option<string>)
      modifies this, bridge`log
      ensures body == [] ==>
                callConnectionId == old(callConnectionId) && serverCallId == old(serverCallId)
      ensures body != [] ==>
                callConnectionId == Some(body[0].callConnectionId) && serverCallId == Some(body[0].serverCallId)
      ensures body != [] && body[0].eventType == CallDisconnected ==>
                bridge.log == SortByTimestamp(old(bridge.log)) &&
                written == Some(StripBase64Prefix(Collate(old(bridge.log))))
      ensures body == [] || body[0].eventType != CallDisconnected ==>
                bridge.log == old(bridge.log) && written == None
    {
      written := None;
      if body == [] {
        return;
      }
      var event := body[0];
      callConnectionId := Some(event.callConnectionId);
      serverCallId := Some(event.serverCallId);
      if event.eventType == CallDisconnected {
        var audioDataString := CollateBase64Audio(bridge);
        written := Some(StripBase64Prefix(audioDataString));
      }
    }

    /** The start of the WebSocket `connection` handler: read the caller id from the
        URL, then `initWebsocket`, `initAudioData([])` and `initCallerId`. */
    method OnConnection(url: string, socket: CallSocket)
      modifies bridge
      ensures bridge.ws == socket && bridge.log == [] && bridge.callerId == ParseCallerId(url)
      ensures bridge.aiSent == old(bridge.aiSent)
    {
      var callerId := ParseCallerId(url);
      bridge.InitWebsocket(socket);
      bridge.InitAudioData([]);
      bridge.InitCallerId(callerId);
    }
  }

  /** The URL of the call below carries its token back to the socket handler. */
  lemma ScenarioUrl()
    ensures ParseCallerId(WebsocketUrl("/media", "3f2a-9b")) == Some("3f2a-9b")
  {
    assert '?' !in "/media";
    QueryNeedsQuestionMark("/media");
    UuidRoundTrip("/media", "3f2a-9b");
  }

  /** The first part of one call: the socket connects on the URL the call
      placement built, the caller says "AAAA" at time 100 and the AI answers
      "BBBB" at time 50 (by the local clock). The caller id is read back from the
      URL and both turns are logged in the order they happened. */
  method ConnectAndConverse() returns (server: Server, callerId: Option<string>)
    ensures fresh(server) && fresh(server.bridge)
    ensures callerId == Some("3f2a-9b")
    ensures server.bridge.log == [Frame(Customer, "AAAA", callerId, 100), Frame(AI, "BBBB", callerId, 50)]
  {
    var codec := OutStreamingCodec(d => Envelope(AudioDataKind, Some(d)), Envelope("stopAudio", None));
    var bridge := new Bridge(codec);
    server := new Server(bridge);
    var socket := new CallSocket(Open);
    var url := WebsocketUrl("/media", "3f2a-9b");
    ScenarioUrl();
    server.OnConnection(url, socket);
    callerId := bridge.callerId;
    bridge.SendAudioToExternalAi("AAAA", callerId, 100, true);
    assert CarriesPayload(codec);
    AudioDeltaLogsPayload(codec, callerId, 50, "BBBB");
    bridge.Dispatch(ServerEvent(AudioDelta, "BBBB"), 50);
  }

  /** One call end to end: after the exchange above the call disconnects, and the
      saved recording puts the AI audio first, as its earlier timestamp says. */
  method RecordingScenario() returns (callerId: Option<string>, written: Option<string>)
    ensures callerId == Some("3f2a-9b")
    ensures written == Some("BBBBAAAA")
  {
    var server;
    server, callerId := ConnectAndConverse();
    CollateScenario(callerId);
    assert ',' !in "BBBBAAAA";
    StripWithoutComma("BBBBAAAA");
    written := server.HandleCallback([CallbackEvent(CallDisconnected, "conn-1", "server-1")]);
  }
}
