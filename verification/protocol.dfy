/** `GeminiWebsocketClient`: the open/closed gate on the socket, the setup
    message sent first on open, the framing of outbound media, and the
    dispatch of an inbound server message into an ordered list of events.
    The socket is an abstract state; everything written to it is appended
    to an outbox. */
module Protocol {
  import opened Wrappers
  import opened Pcm
  import opened Settings
  import opened Events

  const AudioPcm := "audio/pcm"
  const ImageJpeg := "image/jpeg"

  /** Event names the client emits. */
  const AudioEvent := "audio"
  const InterruptedEvent := "interrupted"
  const TurnCompleteEvent := "turn_complete"

  datatype MediaChunk = MediaChunk(mimeType: string, data: seq<Byte>)

  datatype Turn = Turn(role: string, text: string)

  /** Messages the client writes to the socket. */
  datatype OutMsg =
    | Setup(config: Config)
    | RealtimeInput(mediaChunks: seq<MediaChunk>)
    | ClientContent(turns: seq<Turn>, turnComplete: bool)

  /** `this.ws`: not assigned (`null`), or the socket assigned on open, with
      whether its `readyState` is still `OPEN`. */
  datatype Socket = NoSocket | Assigned(open: bool)

  datatype Client<L> = Client(config: Config, ws: Socket, outbox: seq<OutMsg>, emitter: Emitter<L>)

  datatype ConnectionError = ConnectionError

  /** Why an inbound message produced no events at all. */
  datatype DecodeError =
    | Unparseable                 // the payload was empty or not JSON
    | MissingMimeType(part: nat)  // `inlineData` without a `mimeType` throws inside `find`

  datatype InlineData = InlineData(mimeType: Option<string>, data: seq<Byte>)
  datatype Part = Part(inlineData: Option<InlineData>)
  datatype ModelTurn = ModelTurn(parts: Option<seq<Part>>)
  datatype ServerContent = ServerContent(modelTurn: Option<ModelTurn>, interrupted: bool, turnComplete: bool)
  datatype ServerMessage = ServerMessage(serverContent: Option<ServerContent>)

  /** An inbound frame: a parsed JSON message, or a payload that fails to
      parse. */
  datatype Wire = Json(message: ServerMessage) | Malformed

  datatype Event = Audio(data: seq<Byte>) | Interrupted | TurnComplete

  function NewClient<L>(config: Config): Client<L>
  {
    Client(config, NoSocket, [], NewEmitter())
  }

  predicate IsOpen<L>(c: Client<L>)
  {
    c.ws == Assigned(true)
  }

  /** `sendJSON`: write the message only while the socket is open; otherwise
      drop it (nothing is queued for later). */
  function SendJSON<L>(c: Client<L>, m: OutMsg): (r: Client<L>)
    ensures IsOpen(c) ==> r.outbox == c.outbox + [m]
    ensures !IsOpen(c) ==> r == c
    ensures r.ws == c.ws && r.config == c.config && r.emitter == c.emitter
  {
    if IsOpen(c) then c.(outbox := c.outbox + [m]) else c
  }

  /** `sendAudio`: one `audio/pcm` media chunk. */
  function SendAudio<L>(c: Client<L>, data: seq<Byte>): (r: Client<L>)
    ensures IsOpen(c) ==> r.outbox == c.outbox + [RealtimeInput([MediaChunk(AudioPcm, data)])]
    ensures !IsOpen(c) ==> r == c
    ensures r.ws == c.ws
  {
    SendJSON(c, RealtimeInput([MediaChunk(AudioPcm, data)]))
  }

  /** `sendImage`: one `image/jpeg` media chunk. */
  function SendImage<L>(c: Client<L>, data: seq<Byte>): (r: Client<L>)
    ensures IsOpen(c) ==> r.outbox == c.outbox + [RealtimeInput([MediaChunk(ImageJpeg, data)])]
    ensures !IsOpen(c) ==> r == c
    ensures r.ws == c.ws
  {
    SendJSON(c, RealtimeInput([MediaChunk(ImageJpeg, data)]))
  }

  /** `connect`: a no-op when the socket is already open; otherwise a new
      socket either opens (it is assigned and `{setup: config}` is written
      before `connect` resolves) or reports an error before opening
      (`connect` rejects and nothing changes). */
  function Connect<L>(c: Client<L>, opens: bool): (r: Result<Client<L>, ConnectionError>)
    ensures IsOpen(c) ==> r == Success(c)
    ensures !IsOpen(c) && !opens ==> r == Failure(ConnectionError)
    ensures !IsOpen(c) && opens ==> r.Success? && IsOpen(r.value) && r.value.outbox == c.outbox + [Setup(c.config)]
    ensures r.Success? ==> r.value.config == c.config && r.value.emitter == c.emitter
  {
    if IsOpen(c) then Success(c)
    else if opens then Success(SendJSON(c.(ws := Assigned(true)), Setup(c.config)))
    else Failure(ConnectionError)
  }

  /** `disconnect`: close and forget the socket if there is one. */
  function Disconnect<L>(c: Client<L>): (r: Client<L>)
    ensures r.ws == NoSocket && !IsOpen(r)
    ensures r.outbox == c.outbox && r.config == c.config && r.emitter == c.emitter
  {
    c.(ws := NoSocket)
  }

  /** The server closes the socket: it stays assigned but is no longer open. */
  function RemoteClose<L>(c: Client<L>): (r: Client<L>)
    ensures !IsOpen(r) && r.outbox == c.outbox
    ensures c.ws.NoSocket? ==> r == c
  {
    match c.ws
    case NoSocket => c
    case Assigned(_) => c.(ws := Assigned(false))
  }

  /** `p.inlineData?.mimeType.startsWith("audio/pcm")` holds. */
  predicate IsAudioPart(p: Part)
  {
    p.inlineData.Some? && p.inlineData.value.mimeType.Some? && AudioPcm <= p.inlineData.value.mimeType.value
  }

  /** Evaluating the `find` predicate on the part throws. */
  predicate Throws(p: Part)
  {
    p.inlineData.Some? && p.inlineData.value.mimeType.None?
  }

  /** `parts.find(...)` from index `from`: the index of the first audio part,
      none, or the index of the part whose predicate threw. */
  function FindAudioPart(parts: seq<Part>, from: nat): (r: Result<Option<nat>, DecodeError>)
    requires from <= |parts|
    ensures r.Success? && r.value.Some? ==>
      && from <= r.value.value < |parts|
      && IsAudioPart(parts[r.value.value])
      && forall j :: from <= j < r.value.value ==> !IsAudioPart(parts[j]) && !Throws(parts[j])
    ensures r == Success(None) <==> forall j :: from <= j < |parts| ==> !IsAudioPart(parts[j]) && !Throws(parts[j])
    ensures r.Failure? ==>
      && r.error.MissingMimeType?
      && from <= r.error.part < |parts|
      && Throws(parts[r.error.part])
      && forall j :: from <= j < r.error.part ==> !IsAudioPart(parts[j]) && !Throws(parts[j])
    decreases |parts| - from
  {
    if from == |parts| then Success(None)
    else if Throws(parts[from]) then Failure(MissingMimeType(from))
    else if IsAudioPart(parts[from]) then Success(Some(from))
    else FindAudioPart(parts, from + 1)
  }

  /** The model-turn parts of a message, when `serverContent.modelTurn.parts`
      is present. */
  function PartsOf(m: ServerMessage): Option<seq<Part>>
  {
    if m.serverContent.Some? && m.serverContent.value.modelTurn.Some? then m.serverContent.value.modelTurn.value.parts
    else None
  }

  /** The audio payload an inbound message carries: the data of its first
      audio part. */
  function AudioOf(m: ServerMessage): Result<Option<seq<Byte>>, DecodeError>
  {
    match PartsOf(m)
    case None => Success(None)
    case Some(parts) =>
      match FindAudioPart(parts, 0)
      case Failure(e) => Failure(e)
      case Success(None) => Success(None)
      case Success(Some(i)) => Success(Some(parts[i].inlineData.value.data))
  }

  function InterruptedFlag(m: ServerMessage): bool
  {
    m.serverContent.Some? && m.serverContent.value.interrupted
  }

  function TurnCompleteFlag(m: ServerMessage): bool
  {
    m.serverContent.Some? && m.serverContent.value.turnComplete
  }

  /** Position of an event kind in the emission order. */
  function Rank(e: Event): nat
  {
    match e
    case Audio(_) => 0
    case Interrupted => 1
    case TurnComplete => 2
  }

  /** Events strictly ordered audio, then interrupted, then turn_complete. */
  predicate Ordered(evs: seq<Event>)
  {
    forall i, j :: 0 <= i < j < |evs| ==> Rank(evs[i]) < Rank(evs[j])
  }

  /** `receive`: the events one inbound message raises, in emission order. */
  function Receive(w: Wire): (r: Result<seq<Event>, DecodeError>)
    ensures w.Malformed? ==> r == Failure(Unparseable)
    ensures w.Json? ==> (r.Failure? <==> AudioOf(w.message).Failure?)
    ensures r.Success? ==> Ordered(r.value) && |r.value| <= 3
    ensures r.Success? ==> (Interrupted in r.value <==> InterruptedFlag(w.message))
    ensures r.Success? ==> (TurnComplete in r.value <==> TurnCompleteFlag(w.message))
    ensures r.Success? ==> forall d :: Audio(d) in r.value <==> AudioOf(w.message) == Success(Some(d))
  {
    match w
    case Malformed => Failure(Unparseable)
    case Json(m) =>
      match AudioOf(m)
      case Failure(e) => Failure(e)
      case Success(audio) =>
        var evs :=
          (if audio.Some? then [Audio(audio.value)] else [])
          + (if InterruptedFlag(m) then [Interrupted] else [])
          + (if TurnCompleteFlag(m) then [TurnComplete] else []);
        Success(evs)
  }

  /** The name under which an event is emitted. */
  function NameOf(e: Event): string
  {
    match e
    case Audio(_) => AudioEvent
    case Interrupted => InterruptedEvent
    case TurnComplete => TurnCompleteEvent
  }

  /** Messages sent while the socket is not open are lost for good: a later
      successful `connect` writes the setup message and nothing else. */
  lemma NoReplayAfterConnect<L>(c: Client<L>, dropped: seq<OutMsg>)
    requires !IsOpen(c)
    ensures SendAllJSON(c, dropped) == c
    ensures Connect(SendAllJSON(c, dropped), true).Success?
    ensures Connect(SendAllJSON(c, dropped), true).value.outbox == c.outbox + [Setup(c.config)]
  {
    SendAllDropped(c, dropped);
  }

  /** Several `sendJSON` calls in order. */
  function SendAllJSON<L>(c: Client<L>, ms: seq<OutMsg>): Client<L>
    decreases |ms|
  {
    if ms == [] then c else SendAllJSON(SendJSON(c, ms[0]), ms[1..])
  }

  /** While open, messages are written in call order; while not, all are
      dropped. */
  lemma {:induction false} SendAllDropped<L>(c: Client<L>, ms: seq<OutMsg>)
    ensures !IsOpen(c) ==> SendAllJSON(c, ms) == c
    ensures IsOpen(c) ==> SendAllJSON(c, ms) == c.(outbox := c.outbox + ms)
    decreases |ms|
  {
    if ms != [] {
      SendAllDropped(SendJSON(c, ms[0]), ms[1..]);
      if IsOpen(c) {
        assert c.outbox + [ms[0]] + ms[1..] == c.outbox + ms;
      }
    }
  }

  /** The first message a freshly opened socket carries is the setup. */
  lemma SetupFirst<L>(c: Client<L>, ms: seq<OutMsg>)
    requires !IsOpen(c)
    ensures Connect(c, true).Success?
    ensures SendAllJSON(Connect(c, true).value, ms).outbox == c.outbox + [Setup(c.config)] + ms
  {
    var c1 := Connect(c, true).value;
    SendAllDropped(c1, ms);
  }

  /** `connect` on an open socket and a second `disconnect` change nothing. */
  lemma ConnectDisconnectIdempotent<L>(c: Client<L>, opens: bool)
    ensures IsOpen(c) ==> Connect(c, opens) == Success(c)
    ensures Disconnect(Disconnect(c)) == Disconnect(c)
  {
  }

  /** A message with `interrupted` set and no model-turn parts raises
      exactly the `interrupted` event (followed by `turn_complete` when that
      flag is set too). */
  lemma InterruptOnly(sc: ServerContent)
    requires sc.modelTurn.None? && sc.interrupted
    ensures Receive(Json(ServerMessage(Some(sc)))) ==
      Success([Interrupted] + (if sc.turnComplete then [TurnComplete] else []))
  {
    var m := ServerMessage(Some(sc));
    assert PartsOf(m).None?;
    assert AudioOf(m) == Success(None);
    var tail: seq<Event> := if sc.turnComplete then [TurnComplete] else [];
    assert [] + [Interrupted] + tail == [Interrupted] + tail;
  }
}
