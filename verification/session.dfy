/** `GeminiAgent` and the live-tab click handlers: the connected /
    initialized flags, the single media-capture interval slot, the wiring of
    the client's events to the playback scheduler and of captured frames to
    the client, and the camera/screen policy of the page. Every callback of
    the browser is an explicit input of one event-driven state machine. */
module Session {
  import opened Wrappers
  import opened Pcm
  import opened Events
  import opened Settings
  import Capture
  import Playback
  import Snapshot
  import Protocol

  /** The two listeners `setupClientListeners` registers on a client. */
  datatype Listener = PlayAudio | StopPlayback

  type Client = Protocol.Client<Listener>

  /** The objects `initializeMedia` creates. */
  datatype Media = Media(
    streamer: Playback.Streamer,
    recorder: Capture.Recorder,
    camera: Snapshot.Manager,
    screen: Snapshot.Manager)

  /** `timer` is the media-capture interval: which source it captures from,
      while one is armed. */
  datatype Agent = Agent(
    connected: bool,
    initialized: bool,
    client: Option<Client>,
    media: Option<Media>,
    timer: Option<Snapshot.Kind>)

  /** An agent operation's new state, and whether the screen manager's stop
      callback emitted `screenshare_stopped` on the way. */
  datatype Out = Out(agent: Agent, screenStopped: bool)

  /** The one-character user turn sent to open the dialogue. */
  const InitialTurn := Protocol.ClientContent([Protocol.Turn("user", ".")], true)

  function NewAgent(): Agent
  {
    Agent(false, false, None, None, None)
  }

  /** The listener table of a client after `setupClientListeners`. */
  function ClientListeners(): Emitter<Listener>
  {
    On(On(NewEmitter(), Protocol.AudioEvent, PlayAudio), Protocol.InterruptedEvent, StopPlayback)
  }

  function FreshMedia(rate: Playback.Rate): Media
  {
    Media(
      Playback.Initialize(Playback.NewStreamer(rate)),
      Capture.NewRecorder(),
      Snapshot.NewManager(Snapshot.Camera),
      Snapshot.NewManager(Snapshot.Screen))
  }

  /** `disconnect`: close the client, stop the recorder, dispose both
      snapshot managers (the screen one reports `screenshare_stopped`), clear
      the interval and both flags. Safe from any state. */
  function DisconnectAgent(a: Agent): (o: Out)
    ensures !o.agent.connected && !o.agent.initialized && o.agent.timer.None?
    ensures o.agent.client.Some? <==> a.client.Some?
    ensures o.agent.client.Some? ==>
      !Protocol.IsOpen(o.agent.client.value) && o.agent.client.value.outbox == a.client.value.outbox
    ensures o.agent.media.Some? <==> a.media.Some?
    ensures o.agent.media.Some? ==>
      var m := o.agent.media.value;
      !m.recorder.recording && !m.camera.initialized && !m.screen.initialized
    ensures a.media.Some? ==> (o.screenStopped <==> a.media.value.screen.kind == Snapshot.Screen)
    ensures a.media.None? ==> !o.screenStopped
  {
    var client := if a.client.Some? then Some(Protocol.Disconnect(a.client.value)) else None;
    match a.media
    case None => Out(Agent(false, false, client, None, None), false)
    case Some(m) =>
      var screen := Snapshot.Dispose(m.screen);
      var m' := m.(recorder := Capture.Stop(m.recorder), camera := Snapshot.Dispose(m.camera).0, screen := screen.0);
      Out(Agent(false, false, client, Some(m'), None), screen.1)
  }

  /** `connectAndInitialize`: a no-op when connected; otherwise a new client
      for `config` is connected, its listeners registered, fresh media
      created and the initial turn sent. A failed connect tears everything
      down through `disconnect`. */
  function ConnectAndInitialize(a: Agent, config: Config, rate: Playback.Rate, opens: bool): (o: Out)
    ensures a.connected ==> o == Out(a, false)
    ensures !a.connected && opens ==>
      && o.agent.connected && o.agent.initialized && !o.screenStopped
      && o.agent.client.Some? && Protocol.IsOpen(o.agent.client.value)
      && o.agent.client.value.outbox == [Protocol.Setup(config), InitialTurn]
      && o.agent.client.value.emitter == ClientListeners()
      && o.agent.media == Some(FreshMedia(rate))
    ensures !a.connected && !opens ==>
      && !o.agent.connected && !o.agent.initialized
      && o.agent.client.Some? && !Protocol.IsOpen(o.agent.client.value)
      && o.agent.client.value.outbox == []
    ensures !a.connected && !opens ==>
      && o.agent.timer.None?
      && (o.agent.media.Some? ==>
            && !o.agent.media.value.recorder.recording
            && !o.agent.media.value.camera.initialized
            && !o.agent.media.value.screen.initialized)
  {
    if a.connected then Out(a, false)
    else
      var created := Protocol.NewClient<Listener>(config);
      match Protocol.Connect(created, opens)
      case Failure(_) => DisconnectAgent(a.(client := Some(created)))
      case Success(c) =>
        var wired := c.(emitter := On(On(c.emitter, Protocol.AudioEvent, PlayAudio), Protocol.InterruptedEvent, StopPlayback));
        Out(Agent(true, true, Some(Protocol.SendJSON(wired, InitialTurn)), Some(FreshMedia(rate)), a.timer), false)
  }

  /** `toggleMic`: start recording when the recorder is idle, otherwise flip
      the track's enabled state. Without media (`audioRecorder` undefined)
      the call throws and nothing changes; so does a denied microphone. */
  function ToggleMic(a: Agent, granted: bool): (r: Agent)
    ensures a.media.None? ==> r == a
    ensures r.media.Some? <==> a.media.Some?
    ensures a.media.Some? && !a.media.value.recorder.recording ==>
      (r.media.value.recorder.recording <==> granted)
    ensures a.media.Some? && a.media.value.recorder.recording ==>
      r.media.value.recorder == Capture.ToggleMic(a.media.value.recorder).0
    ensures r.connected == a.connected && r.initialized == a.initialized && r.client == a.client && r.timer == a.timer
    ensures r.media.Some? ==>
      var (m, m') := (a.media.value, r.media.value);
      m'.streamer == m.streamer && m'.camera == m.camera && m'.screen == m.screen
  {
    match a.media
    case None => a
    case Some(m) =>
      if !m.recorder.recording then
        match Capture.Start(m.recorder, granted)
        case Success(rec) => a.(media := Some(m.(recorder := rec)))
        case Failure(_) => a
      else a.(media := Some(m.(recorder := Capture.ToggleMic(m.recorder).0)))
  }

  /** The manager of one snapshot kind. */
  function ManagerOf(m: Media, kind: Snapshot.Kind): Snapshot.Manager
  {
    if kind == Snapshot.Camera then m.camera else m.screen
  }

  function WithManager(m: Media, kind: Snapshot.Kind, mgr: Snapshot.Manager): (r: Media)
    ensures ManagerOf(r, kind) == mgr
    ensures ManagerOf(r, if kind == Snapshot.Camera then Snapshot.Screen else Snapshot.Camera) ==
      ManagerOf(m, if kind == Snapshot.Camera then Snapshot.Screen else Snapshot.Camera)
    ensures r.streamer == m.streamer && r.recorder == m.recorder
  {
    if kind == Snapshot.Camera then m.(camera := mgr) else m.(screen := mgr)
  }

  /** `startCameraCapture` / `startScreenShare`: initialize the manager, then
      (re)arm the single interval slot for it. The boolean is false when the
      call rejected, in which case nothing changed. */
  function StartCapture(a: Agent, kind: Snapshot.Kind, granted: bool): (r: (Agent, bool))
    ensures !r.1 ==> r.0 == a
    ensures r.0.media.Some? <==> a.media.Some?
    ensures r.1 <==> a.media.Some? && (ManagerOf(a.media.value, kind).initialized || granted)
    ensures r.1 ==> r.0.timer == Some(kind) && ManagerOf(r.0.media.value, kind).initialized
    ensures r.0.connected == a.connected && r.0.initialized == a.initialized && r.0.client == a.client
    ensures r.1 ==> var other := if kind == Snapshot.Camera then Snapshot.Screen else Snapshot.Camera;
      ManagerOf(r.0.media.value, other) == ManagerOf(a.media.value, other)
    ensures r.0.media.Some? ==>
      r.0.media.value.streamer == a.media.value.streamer && r.0.media.value.recorder == a.media.value.recorder
    ensures r.1 ==> ManagerOf(r.0.media.value, kind).kind == ManagerOf(a.media.value, kind).kind
  {
    match a.media
    case None => (a, false)
    case Some(m) =>
      match Snapshot.Initialize(ManagerOf(m, kind), granted)
      case Failure(_) => (a, false)
      case Success(mgr) => (a.(media := Some(WithManager(m, kind, mgr)), timer := Some(kind)), true)
  }

  /** `stopCameraCapture`: clear the interval and dispose the camera. */
  function StopCamera(a: Agent): (r: Agent)
    ensures r.timer.None?
    ensures r.media.Some? <==> a.media.Some?
    ensures r.media.Some? ==>
      && !r.media.value.camera.initialized
      && r.media.value.camera.kind == a.media.value.camera.kind
      && r.media.value.screen == a.media.value.screen
      && r.media.value.streamer == a.media.value.streamer
      && r.media.value.recorder == a.media.value.recorder
    ensures r.connected == a.connected && r.initialized == a.initialized && r.client == a.client
  {
    match a.media
    case None => a.(timer := None)
    case Some(m) => a.(timer := None, media := Some(m.(camera := Snapshot.Dispose(m.camera).0)))
  }

  /** Disposing the screen manager: its stop callback clears the interval
      and emits `screenshare_stopped`. */
  function DisposeScreen(a: Agent, m: Media): (o: Out)
    ensures o.agent.media.Some? && !o.agent.media.value.screen.initialized
    ensures o.screenStopped ==> o.agent.timer.None?
    ensures !o.screenStopped ==> o.agent.timer == a.timer
    ensures o.screenStopped <==> m.screen.kind == Snapshot.Screen
    ensures o.agent.media.value == m.(screen := Snapshot.Manager(m.screen.kind, false))
    ensures o.agent.connected == a.connected && o.agent.initialized == a.initialized && o.agent.client == a.client
  {
    var (screen, stopped) := Snapshot.Dispose(m.screen);
    Out(a.(media := Some(m.(screen := screen)), timer := if stopped then None else a.timer), stopped)
  }

  /** `stopScreenShare`: clear the interval, and dispose the screen manager
      when it is initialized. */
  function StopScreen(a: Agent): (o: Out)
    ensures o.agent.timer.None?
    ensures o.agent.media.Some? <==> a.media.Some?
    ensures a.media.Some? && a.media.value.screen.initialized && a.media.value.screen.kind == Snapshot.Screen ==>
      o.screenStopped && !o.agent.media.value.screen.initialized
    ensures !(a.media.Some? && a.media.value.screen.initialized) ==> o == Out(a.(timer := None), false)
    ensures o.agent.connected == a.connected && o.agent.initialized == a.initialized && o.agent.client == a.client
    ensures o.agent.media.Some? ==>
      && o.agent.media.value.camera == a.media.value.camera
      && o.agent.media.value.streamer == a.media.value.streamer
      && o.agent.media.value.recorder == a.media.value.recorder
      && o.agent.media.value.screen.kind == a.media.value.screen.kind
  {
    var stopped := a.(timer := None);
    if a.media.Some? && a.media.value.screen.initialized then DisposeScreen(stopped, a.media.value)
    else Out(stopped, false)
  }

  /** The screen track's `ended` event (the user stopped sharing from the
      browser): the listener is attached only once the manager initialized. */
  function ScreenTrackEnded(a: Agent): (o: Out)
    ensures !(a.media.Some? && a.media.value.screen.initialized) ==> o == Out(a, false)
    ensures a.media.Some? && a.media.value.screen.initialized && a.media.value.screen.kind == Snapshot.Screen ==>
      o.screenStopped && o.agent.timer.None? && o.agent.media.Some? && !o.agent.media.value.screen.initialized
  {
    if a.media.Some? && a.media.value.screen.initialized then DisposeScreen(a, a.media.value)
    else Out(a, false)
  }

  /** One firing of the media interval: capture from the source it was
      armed for and, when a non-empty frame comes back, send it as an image
      (an empty capture is falsy and dropped). */
  function TimerTick(a: Agent, frame: seq<Byte>): (r: Agent)
    ensures a.timer.None? ==> r == a
    ensures r == a.(client := r.client)
    ensures a.timer.Some? && a.media.Some? && ManagerOf(a.media.value, a.timer.value).initialized && a.client.Some? && frame != [] ==>
      r.client == Some(Protocol.SendImage(a.client.value, frame))
    ensures !(a.timer.Some? && a.media.Some? && ManagerOf(a.media.value, a.timer.value).initialized) ==> r == a
    ensures frame == [] ==> r == a
    ensures r.client.Some? <==> a.client.Some?
    ensures r.client.Some? ==> r.client.value.ws == a.client.value.ws && r.client.value.emitter == a.client.value.emitter
  {
    if a.timer.None? || a.media.None? || a.client.None? then a
    else
      match Snapshot.Capture(ManagerOf(a.media.value, a.timer.value), frame)
      case None => a
      case Some(img) => if img == [] then a else a.(client := Some(Protocol.SendImage(a.client.value, img)))
  }

  /** `sendAudio` for each frame the worklet posted, in posting order. */
  function SendFrames(c: Client, frames: seq<seq<Int16>>): (r: Client)
    ensures r.ws == c.ws && r.config == c.config && r.emitter == c.emitter
    ensures !Protocol.IsOpen(c) ==> r == c
    ensures Protocol.IsOpen(c) ==> |r.outbox| == |c.outbox| + |frames| && r.outbox[..|c.outbox|] == c.outbox
    ensures Protocol.IsOpen(c) ==> forall k :: 0 <= k < |frames| ==>
      r.outbox[|c.outbox| + k] == Protocol.RealtimeInput([Protocol.MediaChunk(Protocol.AudioPcm, EncodeLE(frames[k]))])
    decreases |frames|
  {
    if frames == [] then c
    else
      var c' := Protocol.SendAudio(c, EncodeLE(frames[0]));
      var r := SendFrames(c', frames[1..]);
      assert Protocol.IsOpen(c) ==> r.outbox[..|c.outbox|] == c'.outbox[..|c.outbox|];
      r
  }

  /** A render quantum reaching the capture worklet: the completed frames go
      out as `audio/pcm` chunks, little-endian, one message per frame. */
  function AudioBlock(a: Agent, xs: seq<real>): (r: Agent)
    ensures a.media.None? ==> r == a
    ensures r.connected == a.connected && r.initialized == a.initialized && r.timer == a.timer
    ensures r.media.Some? <==> a.media.Some?
    ensures r.client.Some? <==> a.client.Some?
    ensures r.client.Some? ==> r.client.value.ws == a.client.value.ws && r.client.value.emitter == a.client.value.emitter
    ensures r.media.Some? ==>
      var (m, m') := (a.media.value, r.media.value);
      && m'.streamer == m.streamer && m'.camera == m.camera && m'.screen == m.screen
      && m'.recorder == Capture.OnBlock(m.recorder, xs).0
    ensures a.media.Some? && a.client.Some? && Protocol.IsOpen(a.client.value) ==>
      var frames := Capture.OnBlock(a.media.value.recorder, xs).1;
      r.client.value.outbox == a.client.value.outbox +
        seq(|frames|, k requires 0 <= k < |frames| => Protocol.RealtimeInput([Protocol.MediaChunk(Protocol.AudioPcm, EncodeLE(frames[k]))]))
  {
    match a.media
    case None => a
    case Some(m) =>
      var (rec, frames) := Capture.OnBlock(m.recorder, xs);
      var client := if a.client.Some? then Some(SendFrames(a.client.value, frames)) else None;
      a.(media := Some(m.(recorder := rec)), client := client)
  }

  /** The streamer after some listener invocations, with the sources they
      started in order. */
  datatype Dispatched = Dispatched(streamer: Playback.Streamer, started: seq<Playback.Source>)

  /** One listener called with one event's arguments. The audio listener
      wraps its argument in a `Uint8Array`; called without data it gets an
      empty one. */
  function Invoke(s: Playback.Streamer, l: Listener, e: Protocol.Event, now: real): (r: Playback.Scheduled)
    ensures Playback.Valid(s) ==> Playback.Valid(r.streamer) && !r.step.Threw?
    ensures r.streamer.cursor >= s.cursor
    ensures l == StopPlayback ==> r == Playback.Scheduled(Playback.Stop(s), Playback.Idle)
  {
    match l
    case PlayAudio => Playback.StreamAudio(s, Playback.Uint8(if e.Audio? then e.data else []), now)
    case StopPlayback => Playback.Scheduled(Playback.Stop(s), Playback.Idle)
  }

  /** `emit`: the listeners of one event, in registration order. */
  function InvokeAll(s: Playback.Streamer, ls: seq<Listener>, e: Protocol.Event, now: real): (r: Dispatched)
    ensures Playback.Valid(s) ==> Playback.Valid(r.streamer)
    ensures r.streamer.cursor >= s.cursor
    ensures ls == [] ==> r == Dispatched(s, [])
    decreases |ls|
  {
    if ls == [] then Dispatched(s, [])
    else
      var first := Invoke(s, ls[0], e, now);
      var rest := InvokeAll(first.streamer, ls[1..], e, now);
      Dispatched(rest.streamer, (if first.step.Started? then [first.step.source] else []) + rest.started)
  }

  /** The events of one inbound message emitted in order. */
  function Dispatch(s: Playback.Streamer, emitter: Emitter<Listener>, evs: seq<Protocol.Event>, now: real): (r: Dispatched)
    ensures Playback.Valid(s) ==> Playback.Valid(r.streamer)
    ensures r.streamer.cursor >= s.cursor
    decreases |evs|
  {
    if evs == [] then Dispatched(s, [])
    else
      var first := InvokeAll(s, Listeners(emitter, Protocol.NameOf(evs[0])), evs[0], now);
      var rest := Dispatch(first.streamer, emitter, evs[1..], now);
      Dispatched(rest.streamer, first.started + rest.started)
  }

  /** Emitting as the source is written: `threw` records that a listener
      threw, which leaves the rest of `emit` and of `receive` unrun. */
  datatype Emitted = Emitted(streamer: Playback.Streamer, started: seq<Playback.Source>, threw: bool)

  /** One listener as written: the audio listener calls the unpatched
      `streamAudio`, which throws on an empty segment. */
  function InvokeAsWritten(s: Playback.Streamer, l: Listener, e: Protocol.Event, now: real): (r: Playback.Scheduled)
    ensures l == StopPlayback ==> r == Playback.Scheduled(Playback.Stop(s), Playback.Idle)
    ensures r.step.Threw? ==> l == PlayAudio && r.streamer.playing && r.streamer.inFlight == s.inFlight
    ensures Playback.Valid(s) && (l == PlayAudio ==> e.Audio? && |e.data| >= 2) ==> r == Invoke(s, l, e, now)
    ensures r.streamer.cursor >= s.cursor
  {
    match l
    case PlayAudio => Playback.StreamAudioAsWritten(s, Playback.Uint8(if e.Audio? then e.data else []), now)
    case StopPlayback => Playback.Scheduled(Playback.Stop(s), Playback.Idle)
  }

  /** `emit` as written: a throwing listener ends it. */
  function InvokeAllAsWritten(s: Playback.Streamer, ls: seq<Listener>, e: Protocol.Event, now: real): (r: Emitted)
    ensures r.threw ==> PlayAudio in ls && r.streamer.playing
    ensures r.streamer.cursor >= s.cursor
    decreases |ls|
  {
    if ls == [] then Emitted(s, [], false)
    else
      var first := InvokeAsWritten(s, ls[0], e, now);
      if first.step.Threw? then Emitted(first.streamer, [], true)
      else
        var rest := InvokeAllAsWritten(first.streamer, ls[1..], e, now);
        Emitted(rest.streamer, (if first.step.Started? then [first.step.source] else []) + rest.started, rest.threw)
  }

  /** The events of one message as written: the throw rejects `receive`,
      so the events after the throwing one are never emitted. */
  function DispatchAsWritten(s: Playback.Streamer, emitter: Emitter<Listener>, evs: seq<Protocol.Event>, now: real): (r: Emitted)
    ensures r.threw ==> r.streamer.playing
    ensures r.streamer.cursor >= s.cursor
    decreases |evs|
  {
    if evs == [] then Emitted(s, [], false)
    else
      var first := InvokeAllAsWritten(s, Listeners(emitter, Protocol.NameOf(evs[0])), evs[0], now);
      if first.threw then first
      else
        var rest := DispatchAsWritten(first.streamer, emitter, evs[1..], now);
        Emitted(rest.streamer, first.started + rest.started, rest.threw)
  }

  /** An inbound message on the open socket: decode it and emit its events
      to the client's listeners. Returns the sources the playback scheduler
      started. */
  function Inbound(a: Agent, w: Protocol.Wire, now: real): (r: (Agent, seq<Playback.Source>))
    ensures !(a.client.Some? && Protocol.IsOpen(a.client.value) && a.media.Some?) ==> r == (a, [])
    ensures Protocol.Receive(w).Failure? ==> r == (a, [])
    ensures r.0 == a.(media := r.0.media)
    ensures r.0.media.Some? <==> a.media.Some?
    ensures r.0.media.Some? ==>
      var (m, m') := (a.media.value, r.0.media.value);
      && m'.recorder == m.recorder && m'.camera == m.camera && m'.screen == m.screen
      && (Playback.Valid(m.streamer) ==> Playback.Valid(m'.streamer))
      && m'.streamer.cursor >= m.streamer.cursor
  {
    if a.client.None? || !Protocol.IsOpen(a.client.value) || a.media.None? then (a, [])
    else
      match Protocol.Receive(w)
      case Failure(_) => (a, [])
      case Success(evs) =>
        var m := a.media.value;
        var d := Dispatch(m.streamer, a.client.value.emitter, evs, now);
        (a.(media := Some(m.(streamer := d.streamer))), d.started)
  }

  /** A started source's `onended`, delivered while the session's audio
      context is open. */
  function PlaybackEnded(a: Agent, now: real): (r: (Agent, Playback.Step))
    ensures !(a.connected && a.media.Some?) ==> r == (a, Playback.Idle)
    ensures r.0 == a.(media := r.0.media)
    ensures r.0.media.Some? <==> a.media.Some?
    ensures r.0.media.Some? ==>
      var (m, m') := (a.media.value, r.0.media.value);
      && m'.recorder == m.recorder && m'.camera == m.camera && m'.screen == m.screen
      && (Playback.Valid(m.streamer) ==> Playback.Valid(m'.streamer))
  {
    if !a.connected || a.media.None? then (a, Playback.Idle)
    else
      var m := a.media.value;
      var r := Playback.Ended(m.streamer, now);
      (a.(media := Some(m.(streamer := r.streamer))), r.step)
  }

  /** The server closing the socket. */
  function ServerClosed(a: Agent): (r: Agent)
    ensures r.client.Some? <==> a.client.Some?
    ensures r.client.Some? ==> !Protocol.IsOpen(r.client.value) && r.client.value.emitter == a.client.value.emitter
    ensures r == a.(client := r.client)
  {
    if a.client.Some? then a.(client := Some(Protocol.RemoteClose(a.client.value))) else a
  }

  // ---------------------------------------------------------------------
  // The page: the agent plus the click handlers' camera/screen flags.

  /** `isCameraActive` / `isScreenActive` belong to the page, not the agent. */
  datatype Page = Page(
    agent: Agent,
    cameraActive: bool,
    screenActive: bool,
    store: Store,
    builtInInstruction: string,
    rate: Playback.Rate)

  /** Everything that can happen to the page, one event at a time. */
  datatype Input =
    | LiveTab(hasApiKey: bool, opens: bool, micGranted: bool)
    | MicClick(granted: bool)
    | DisconnectClick
    | CameraClick(granted: bool)
    | ScreenClick(granted: bool)
    | ScreenEnded
    | TimerFires(frame: seq<Byte>)
    | MicBlock(samples: seq<real>)
    | Message(wire: Protocol.Wire, now: real)
    | SourceEnded(now: real)
    | ServerClose

  function InitialPage(store: Store, builtInInstruction: string, rate: Playback.Rate): Page
  {
    Page(NewAgent(), false, false, store, builtInInstruction, rate)
  }

  /** Take an agent step, applying the page's `screenshare_stopped` handler. */
  function Apply(p: Page, o: Out): (q: Page)
    ensures q.agent == o.agent && q.cameraActive == p.cameraActive
    ensures q.screenActive <==> p.screenActive && !o.screenStopped
  {
    p.(agent := o.agent, screenActive := if o.screenStopped then false else p.screenActive)
  }

  /** Opening the live tab: without an API key nothing happens; when not
      connected, connect and initialize, and on success toggle the mic on. */
  function OpenLiveTab(p: Page, hasApiKey: bool, opens: bool, micGranted: bool): (q: Page)
    ensures !hasApiKey || p.agent.connected ==> q == p
    ensures hasApiKey && !p.agent.connected && opens ==> q.agent.initialized
    ensures hasApiKey && !p.agent.connected && !opens ==> !q.agent.initialized
    ensures hasApiKey && !p.agent.connected && opens ==>
      q.agent.media.Some? && (q.agent.media.value.recorder.recording <==> micGranted)
  {
    if !hasApiKey || p.agent.connected then p
    else
      var q := Apply(p, ConnectAndInitialize(p.agent, GetConfig(p.store, p.builtInInstruction), p.rate, opens));
      if q.agent.initialized then q.(agent := ToggleMic(q.agent, micGranted)) else q
  }

  /** The disconnect button: disconnect the agent and clear both flags. */
  function DisconnectButton(p: Page): (q: Page)
    ensures !q.cameraActive && !q.screenActive && !q.agent.initialized && q.agent.timer.None?
  {
    Apply(p, DisconnectAgent(p.agent)).(cameraActive := false, screenActive := false)
  }

  /** The camera button as written: ignored unless initialized or while the
      screen is shared; otherwise the flag flips first and the capture is
      started or stopped. A rejected camera start leaves the flag set. */
  function CameraClickAsWritten(p: Page, granted: bool): (q: Page)
    ensures !p.agent.initialized || p.screenActive ==> q == p
    ensures p.agent.initialized && !p.screenActive ==> q.cameraActive == !p.cameraActive
  {
    if !p.agent.initialized || p.screenActive then p
    else if !p.cameraActive then p.(agent := StartCapture(p.agent, Snapshot.Camera, granted).0, cameraActive := true)
    else p.(agent := StopCamera(p.agent), cameraActive := false)
  }

  /** The camera button with a rejected start clearing the flag again, as
      the screen button does (used by the rest of the model). */
  function CameraButton(p: Page, granted: bool): (q: Page)
    ensures !p.agent.initialized || p.screenActive ==> q == p
    ensures p.agent.initialized && !p.screenActive && p.cameraActive ==> !q.cameraActive && q.agent.timer.None?
    ensures p.agent.initialized && !p.screenActive && !p.cameraActive ==>
      (q.cameraActive <==> StartCapture(p.agent, Snapshot.Camera, granted).1)
    ensures q.cameraActive && !p.cameraActive ==> q.agent.timer == Some(Snapshot.Camera)
  {
    if !p.agent.initialized || p.screenActive then p
    else if !p.cameraActive then
      var (a, ok) := StartCapture(p.agent, Snapshot.Camera, granted);
      p.(agent := a, cameraActive := ok)
    else p.(agent := StopCamera(p.agent), cameraActive := false)
  }

  /** The screen button: ignored unless initialized or while the camera is
      active; starts sharing (clearing the flag again if the start fails),
      or stops it. */
  function ScreenButton(p: Page, granted: bool): (q: Page)
    ensures !p.agent.initialized || p.cameraActive ==> q == p
    ensures p.agent.initialized && !p.cameraActive && !p.screenActive ==>
      (q.screenActive <==> StartCapture(p.agent, Snapshot.Screen, granted).1)
    ensures q.screenActive && !p.screenActive ==> q.agent.timer == Some(Snapshot.Screen)
  {
    if !p.agent.initialized || p.cameraActive then p
    else if !p.screenActive then
      var (a, ok) := StartCapture(p.agent, Snapshot.Screen, granted);
      p.(agent := a, screenActive := ok)
    else Apply(p, StopScreen(p.agent))
  }

  /** The page's reaction to one input. */
  function Step(p: Page, i: Input): Page
  {
    match i
    case LiveTab(key, opens, mic) => OpenLiveTab(p, key, opens, mic)
    case MicClick(granted) => p.(agent := ToggleMic(p.agent, granted))
    case DisconnectClick => DisconnectButton(p)
    case CameraClick(granted) => CameraButton(p, granted)
    case ScreenClick(granted) => ScreenButton(p, granted)
    case ScreenEnded => Apply(p, ScreenTrackEnded(p.agent))
    case TimerFires(frame) => p.(agent := TimerTick(p.agent, frame))
    case MicBlock(xs) => p.(agent := AudioBlock(p.agent, xs))
    case Message(w, now) => p.(agent := Inbound(p.agent, w, now).0)
    case SourceEnded(now) => p.(agent := PlaybackEnded(p.agent, now).0)
    case ServerClose => p.(agent := ServerClosed(p.agent))
  }

  /** The consistency of the media objects an agent holds. */
  predicate MediaOk(p: Page, m: Media)
  {
    && Playback.Valid(m.streamer)
    && Capture.Valid(m.recorder)
    && m.camera.kind == Snapshot.Camera
    && m.screen.kind == Snapshot.Screen
    && (m.camera.initialized ==> p.cameraActive)
    && (m.screen.initialized ==> p.screenActive)
  }

  /** The page invariant. */
  predicate Inv(p: Page)
  {
    var a := p.agent;
    && a.connected == a.initialized
    && (a.initialized ==> a.client.Some? && a.media.Some? && a.client.value.emitter == ClientListeners())
    && (a.client.Some? && Protocol.IsOpen(a.client.value) ==> a.initialized)
    && !(p.cameraActive && p.screenActive)
    && (p.cameraActive || p.screenActive ==> a.initialized)
    && (a.timer.Some? ==> a.initialized)
    && (a.timer == Some(Snapshot.Camera) ==> p.cameraActive && a.media.value.camera.initialized)
    && (a.timer == Some(Snapshot.Screen) ==> p.screenActive && a.media.value.screen.initialized)
    && (a.media.Some? ==> MediaOk(p, a.media.value))
  }

  lemma InitialPageInv(store: Store, builtIn: string, rate: Playback.Rate)
    ensures Inv(InitialPage(store, builtIn, rate))
  {
  }

  /** Every input keeps the invariant. */
  lemma StepPreservesInv(p: Page, i: Input)
    requires Inv(p)
    ensures Inv(Step(p, i))
  {
    match i
    case LiveTab(key, opens, mic) =>
      if key && !p.agent.connected {
        var o := ConnectAndInitialize(p.agent, GetConfig(p.store, p.builtInInstruction), p.rate, opens);
        if opens {
          assert Inv(Apply(p, o));
        }
      }
    case MicClick(granted) =>
    case DisconnectClick =>
    case CameraClick(granted) =>
    case ScreenClick(granted) =>
    case ScreenEnded =>
    case TimerFires(frame) =>
    case MicBlock(xs) =>
    case Message(w, now) =>
    case SourceEnded(now) =>
    case ServerClose =>
  }

  /** The camera and the screen are never active together, and never both
      initialized. */
  lemma MutualExclusion(p: Page, i: Input)
    requires Inv(p)
    ensures !(Step(p, i).cameraActive && Step(p, i).screenActive)
    ensures var a := Step(p, i).agent;
      a.media.Some? ==> !(a.media.value.camera.initialized && a.media.value.screen.initialized)
  {
    StepPreservesInv(p, i);
  }
  /** The `turn_complete` event has no listener in the agent. */
  lemma TurnCompleteIgnored(s: Playback.Streamer, tail: seq<Protocol.Event>, now: real)
    requires tail == [] || tail == [Protocol.TurnComplete]
    ensures Dispatch(s, ClientListeners(), tail, now) == Dispatched(s, [])
  {
    if tail != [] {
      assert Listeners(ClientListeners(), Protocol.NameOf(tail[0])) == [];
      assert tail[1..] == [];
    }
  }

  /** Emitting `interrupted`, possibly after one audio event and before
      `turn_complete`, ends with an empty queue and `isPlaying` cleared. */
  lemma DispatchInterrupted(s: Playback.Streamer, head: seq<Protocol.Event>, tail: seq<Protocol.Event>, now: real)
    requires head == [] || (|head| == 1 && head[0].Audio?)
    requires tail == [] || tail == [Protocol.TurnComplete]
    ensures Dispatch(s, ClientListeners(), head + [Protocol.Interrupted] + tail, now).streamer.queue == []
    ensures !Dispatch(s, ClientListeners(), head + [Protocol.Interrupted] + tail, now).streamer.playing
    ensures head == [] ==>
      Dispatch(s, ClientListeners(), head + [Protocol.Interrupted] + tail, now) == Dispatched(Playback.Stop(s), [])
    decreases |head|
  {
    var L := ClientListeners();
    var evs := head + [Protocol.Interrupted] + tail;
    assert Listeners(L, Protocol.InterruptedEvent) == [StopPlayback];
    if head == [] {
      assert evs == [Protocol.Interrupted] + tail;
      assert evs[1..] == tail;
      var stopped := Playback.Stop(s);
      assert InvokeAll(s, [StopPlayback], Protocol.Interrupted, now) == Dispatched(stopped, []);
      TurnCompleteIgnored(stopped, tail, now);
    } else {
      assert evs[1..] == [Protocol.Interrupted] + tail;
      var first := InvokeAll(s, Listeners(L, Protocol.NameOf(evs[0])), evs[0], now);
      DispatchInterrupted(first.streamer, [], tail, now);
    }
  }

  /** An inbound message with `interrupted` set leaves the playback queue
      empty and `isPlaying` cleared, even when the same message carries
      audio; without audio in it, no source is started and the cursor is
      kept. */
  lemma InterruptedEmptiesQueue(a: Agent, w: Protocol.Wire, now: real)
    requires a.client.Some? && Protocol.IsOpen(a.client.value) && a.media.Some?
    requires a.client.value.emitter == ClientListeners()
    requires w.Json? && Protocol.InterruptedFlag(w.message) && Protocol.Receive(w).Success?
    ensures Inbound(a, w, now).0.media.Some?
    ensures Inbound(a, w, now).0.media.value.streamer.queue == []
    ensures !Inbound(a, w, now).0.media.value.streamer.playing
    ensures Protocol.AudioOf(w.message) == Success(None) ==>
      Inbound(a, w, now).1 == [] && Inbound(a, w, now).0.media.value.streamer.cursor == a.media.value.streamer.cursor
  {
    var m := w.message;
    var audio := Protocol.AudioOf(m).value;
    var head: seq<Protocol.Event> := if audio.Some? then [Protocol.Audio(audio.value)] else [];
    var tail: seq<Protocol.Event> := if Protocol.TurnCompleteFlag(m) then [Protocol.TurnComplete] else [];
    assert Protocol.Receive(w).value == head + [Protocol.Interrupted] + tail;
    DispatchInterrupted(a.media.value.streamer, head, tail, now);
  }

  /** As written, once a listener throws, the listeners after it in the same
      `emit` are never called: appending more of them changes nothing. */
  lemma {:induction false} ThrowSkipsListeners(s: Playback.Streamer, ls: seq<Listener>, more: seq<Listener>, e: Protocol.Event, now: real)
    requires InvokeAllAsWritten(s, ls, e, now).threw
    ensures InvokeAllAsWritten(s, ls + more, e, now) == InvokeAllAsWritten(s, ls, e, now)
    decreases |ls|
  {
    assert ls != [];
    assert (ls + more)[0] == ls[0];
    assert (ls + more)[1..] == ls[1..] + more;
    if !InvokeAsWritten(s, ls[0], e, now).step.Threw? {
      ThrowSkipsListeners(InvokeAsWritten(s, ls[0], e, now).streamer, ls[1..], more, e, now);
    }
  }

  /** As written, once `receive` is rejected by a throw, the events after the
      throwing one are never emitted: appending more of them changes nothing. */
  lemma {:induction false} ThrowSkipsEvents(s: Playback.Streamer, emitter: Emitter<Listener>, evs: seq<Protocol.Event>, tail: seq<Protocol.Event>, now: real)
    requires DispatchAsWritten(s, emitter, evs, now).threw
    ensures DispatchAsWritten(s, emitter, evs + tail, now) == DispatchAsWritten(s, emitter, evs, now)
    decreases |evs|
  {
    assert evs != [];
    assert (evs + tail)[0] == evs[0];
    assert (evs + tail)[1..] == evs[1..] + tail;
    var first := InvokeAllAsWritten(s, Listeners(emitter, Protocol.NameOf(evs[0])), evs[0], now);
    if !first.threw {
      ThrowSkipsEvents(first.streamer, emitter, evs[1..], tail, now);
    }
  }

  /** While no audio listener is handed a payload shorter than two bytes,
      one `emit` as written is the corrected one and does not throw. */
  lemma {:induction false} InvokeAllAgrees(s: Playback.Streamer, ls: seq<Listener>, e: Protocol.Event, now: real)
    requires Playback.Valid(s)
    requires PlayAudio in ls ==> e.Audio? && |e.data| >= 2
    ensures InvokeAllAsWritten(s, ls, e, now) ==
      Emitted(InvokeAll(s, ls, e, now).streamer, InvokeAll(s, ls, e, now).started, false)
    decreases |ls|
  {
    if ls != [] {
      assert PlayAudio in ls[1..] ==> PlayAudio in ls;
      InvokeAllAgrees(InvokeAsWritten(s, ls[0], e, now).streamer, ls[1..], e, now);
    }
  }

  /** With the agent's listeners, a message whose audio payloads all have at
      least two bytes is dispatched as written exactly as the corrected model
      dispatches it, without a throw. */
  lemma {:induction false} AsWrittenAgrees(s: Playback.Streamer, evs: seq<Protocol.Event>, now: real)
    requires Playback.Valid(s)
    requires forall i :: 0 <= i < |evs| && evs[i].Audio? ==> |evs[i].data| >= 2
    ensures DispatchAsWritten(s, ClientListeners(), evs, now) ==
      Emitted(Dispatch(s, ClientListeners(), evs, now).streamer, Dispatch(s, ClientListeners(), evs, now).started, false)
    decreases |evs|
  {
    if evs != [] {
      var L := ClientListeners();
      var ls := Listeners(L, Protocol.NameOf(evs[0]));
      assert PlayAudio in ls ==> evs[0].Audio? by {
        match evs[0]
        case Audio(_) =>
        case Interrupted => assert ls == [StopPlayback];
        case TurnComplete => assert ls == [];
      }
      InvokeAllAgrees(s, ls, evs[0], now);
      var first := InvokeAll(s, ls, evs[0], now);
      assert forall i :: 0 <= i < |evs[1..]| && evs[1..][i].Audio? ==> |evs[1..][i].data| >= 2 by {
        forall i | 0 <= i < |evs[1..]| && evs[1..][i].Audio?
          ensures |evs[1..][i].data| >= 2
        {
          assert evs[1..][i] == evs[i + 1];
        }
      }
      AsWrittenAgrees(first.streamer, evs[1..], now);
    }
  }

  /** A message holding only an empty audio part, on an idle valid streamer:
      the audio listener throws with `isPlaying` set and nothing started. */
  lemma EmptyAudioThrows(s: Playback.Streamer, now: real)
    requires Playback.Valid(s) && s.initialized && !s.playing
    ensures var r := DispatchAsWritten(s, ClientListeners(), [Protocol.Audio([])], now);
      && r.threw && r.streamer.playing && r.started == []
      && r.streamer.queue == s.queue && r.streamer.inFlight == s.inFlight
  {
    var evs := [Protocol.Audio([])];
    assert Listeners(ClientListeners(), Protocol.AudioEvent) == [PlayAudio];
    var one := Playback.StreamAudioAsWritten(s, Playback.Uint8([]), now);
    assert one.step.Threw? && one.streamer.queue == [];
    assert InvokeAllAsWritten(s, [PlayAudio], evs[0], now) == Emitted(one.streamer, [], true);
  }

  /** As written, the throw on the empty audio part skips the rest of the
      message. */
  lemma EmptyAudioSuppressesStop(s: Playback.Streamer, tail: seq<Protocol.Event>, now: real)
    requires Playback.Valid(s) && s.initialized && !s.playing
    ensures var r := DispatchAsWritten(s, ClientListeners(), [Protocol.Audio([]), Protocol.Interrupted] + tail, now);
      && r.threw && r.streamer.playing && r.started == []
      && r.streamer.queue == s.queue && r.streamer.inFlight == s.inFlight
  {
    EmptyAudioThrows(s, now);
    assert [Protocol.Audio([]), Protocol.Interrupted] + tail == [Protocol.Audio([])] + ([Protocol.Interrupted] + tail);
    ThrowSkipsEvents(s, ClientListeners(), [Protocol.Audio([])], [Protocol.Interrupted] + tail, now);
  }

  /** With the corrected listener, the empty audio part is dropped and the
      `interrupted` event stops playback. */
  lemma EmptyAudioThenStopCorrected(s: Playback.Streamer, tail: seq<Protocol.Event>, now: real)
    requires tail == [] || tail == [Protocol.TurnComplete]
    ensures var d := Dispatch(s, ClientListeners(), [Protocol.Audio([]), Protocol.Interrupted] + tail, now);
      !d.streamer.playing && d.streamer.queue == [] && d.started == []
  {
    var head := [Protocol.Audio([])];
    assert [Protocol.Audio([]), Protocol.Interrupted] + tail == head + [Protocol.Interrupted] + tail;
    DispatchInterrupted(s, head, tail, now);
    assert Listeners(ClientListeners(), Protocol.AudioEvent) == [PlayAudio];
    assert InvokeAll(s, [PlayAudio], Protocol.Audio([]), now) == Dispatched(s, []);
    DispatchInterrupted(s, [], tail, now);
  }

  /** As written, an empty audio part on an idle streamer throws inside
      `emit('audio')`: the `interrupted` event of the same message is never
      emitted, no source is started, and `isPlaying` stays set. The
      corrected model clears the queue and `isPlaying` instead. */
  lemma InterruptSuppressedAsWritten(s: Playback.Streamer, tail: seq<Protocol.Event>, now: real)
    requires Playback.Valid(s) && s.initialized && !s.playing
    requires tail == [] || tail == [Protocol.TurnComplete]
    ensures var r := DispatchAsWritten(s, ClientListeners(), [Protocol.Audio([]), Protocol.Interrupted] + tail, now);
      && r.threw && r.streamer.playing && r.started == []
      && r.streamer.queue == s.queue && r.streamer.inFlight == s.inFlight
    ensures var d := Dispatch(s, ClientListeners(), [Protocol.Audio([]), Protocol.Interrupted] + tail, now);
      !d.streamer.playing && d.streamer.queue == [] && d.started == []
  {
    EmptyAudioSuppressesStop(s, tail, now);
    EmptyAudioThenStopCorrected(s, tail, now);
  }

  /** Connecting from the start page writes the setup message and then the
      initial turn; a following message that only interrupts (no audio)
      starts nothing and leaves the playback queue empty. */
  lemma ConnectThenInterrupt(store: Store, builtIn: string, rate: Playback.Rate, mic: bool, turnComplete: bool, now: real)
    ensures var p := Step(InitialPage(store, builtIn, rate), LiveTab(true, true, mic));
      && p.agent.initialized
      && p.agent.client.value.outbox == [Protocol.Setup(GetConfig(store, builtIn)), InitialTurn]
    ensures var p := Step(InitialPage(store, builtIn, rate), LiveTab(true, true, mic));
      var w := Protocol.Json(Protocol.ServerMessage(Some(Protocol.ServerContent(None, true, turnComplete))));
      && Inbound(p.agent, w, now).1 == []
      && Inbound(p.agent, w, now).0.media.value.streamer.queue == []
  {
    var p := Step(InitialPage(store, builtIn, rate), LiveTab(true, true, mic));
    var sc := Protocol.ServerContent(None, true, turnComplete);
    var w := Protocol.Json(Protocol.ServerMessage(Some(sc)));
    Protocol.InterruptOnly(sc);
    assert Protocol.AudioOf(w.message) == Success(None);
    InterruptedEmptiesQueue(p.agent, w, now);
  }

  /** While the socket is not open, snapshot frames and microphone frames
      are dropped: nothing reaches the outbox. */
  lemma ClosedSocketDropsMedia(a: Agent, frame: seq<Byte>, xs: seq<real>)
    requires a.client.Some? && !Protocol.IsOpen(a.client.value)
    ensures TimerTick(a, frame).client == a.client
    ensures AudioBlock(a, xs).client == a.client
  {
    if a.media.Some? {
      var frames := Capture.OnBlock(a.media.value.recorder, xs).1;
      assert SendFrames(a.client.value, frames) == a.client.value;
    }
  }

  /** As written, a camera start the browser rejects leaves the camera flag
      set with no camera running and no interval armed, and the screen
      button is then ignored until the camera button is clicked again. */
  lemma FailedCameraStartAsWritten(p: Page, granted: bool)
    requires Inv(p) && p.agent.initialized && !p.cameraActive && !p.screenActive
    ensures var q := CameraClickAsWritten(p, false);
      && q.cameraActive
      && !q.agent.media.value.camera.initialized
      && q.agent.timer.None?
      && ScreenButton(q, granted) == q
  {
    if p.agent.timer.Some? {
      match p.agent.timer.value
      case Camera =>
      case Screen =>
    }
  }

  /** With the flag cleared on rejection, a failed camera start changes
      nothing and the screen can still be shared afterwards. */
  lemma FailedCameraStartCorrected(p: Page)
    requires Inv(p) && p.agent.initialized && !p.cameraActive && !p.screenActive
    ensures CameraButton(p, false) == p
    ensures ScreenButton(CameraButton(p, false), true).screenActive
  {
  }

  /** The as-written camera button still never activates the camera while
      the screen is shared, so exclusion holds either way. */
  lemma AsWrittenKeepsExclusion(p: Page, granted: bool)
    requires Inv(p)
    ensures Inv(CameraClickAsWritten(p, granted))
  {
  }
}
