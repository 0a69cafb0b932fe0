/** `CameraManager` and `ScreenManager`: one snapshot-source contract with
    two variants. Only the `isInitialized` gating is modelled; the device
    stream, the preview element and the JPEG encoding are abstracted into
    a frame handed in by the caller. */
module Snapshot {
  import opened Wrappers
  import opened Pcm

  datatype Kind = Camera | Screen

  datatype Manager = Manager(kind: Kind, initialized: bool)

  /** `getUserMedia`/`getDisplayMedia` rejected (permission or device). */
  datatype DeviceError = DeviceUnavailable

  function NewManager(kind: Kind): Manager
  {
    Manager(kind, false)
  }

  /** `initialize`: a no-op when already initialized; otherwise the device
      is acquired (and the manager becomes ready) or the rejection is passed
      on with nothing changed. */
  function Initialize(m: Manager, granted: bool): (r: Result<Manager, DeviceError>)
    ensures m.initialized ==> r == Success(m)
    ensures !m.initialized ==> (r.Success? <==> granted)
    ensures r.Success? ==> r.value == Manager(m.kind, true)
  {
    if m.initialized then Success(m)
    else if granted then Success(m.(initialized := true))
    else Failure(DeviceUnavailable)
  }

  /** `capture`: `null` unless initialized; otherwise the encoded frame the
      device currently shows. */
  function Capture(m: Manager, frame: seq<Byte>): (r: Option<seq<Byte>>)
    ensures r.Some? <==> m.initialized
    ensures r.Some? ==> r.value == frame
  {
    if m.initialized then Some(frame) else None
  }

  /** `dispose`: stop the tracks and become uninitialized; the screen
      variant also invokes its stop callback, every time. The second
      component says whether the callback ran. */
  function Dispose(m: Manager): (r: (Manager, bool))
    ensures r.0 == Manager(m.kind, false)
    ensures r.1 <==> m.kind == Screen
  {
    (m.(initialized := false), m.kind == Screen)
  }

  /** Initializing twice is initializing once, and `dispose` undoes
      `initialize`. */
  lemma InitializeIdempotent(m: Manager, g1: bool, g2: bool)
    requires Initialize(m, g1).Success?
    ensures Initialize(Initialize(m, g1).value, g2) == Initialize(m, g1)
    ensures Dispose(Initialize(m, g1).value).0 == NewManager(m.kind)
  {
  }
}
