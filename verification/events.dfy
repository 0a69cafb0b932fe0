/** `EventEmitter`: listeners registered per event name and invoked in
    registration order by `emit`. */
module Events {

  /** The `events` table: for each name, its listeners in registration order. */
  datatype Emitter<L> = Emitter(events: map<string, seq<L>>)

  function NewEmitter<L>(): Emitter<L>
  {
    Emitter(map[])
  }

  /** The listeners `emit(name, ...)` invokes, in invocation order; none for
      a name that was never registered. */
  function Listeners<L>(e: Emitter<L>, name: string): seq<L>
  {
    if name in e.events then e.events[name] else []
  }

  /** `on(name, listener)`: append the listener after those already
      registered for the name; every other name is untouched. */
  function On<L>(e: Emitter<L>, name: string, listener: L): (r: Emitter<L>)
    ensures Listeners(r, name) == Listeners(e, name) + [listener]
    ensures forall n :: n != name ==> Listeners(r, n) == Listeners(e, n)
  {
    Emitter(e.events[name := Listeners(e, name) + [listener]])
  }

  /** Register several listeners for one name, one `on` call after another. */
  function OnAll<L>(e: Emitter<L>, name: string, listeners: seq<L>): Emitter<L>
    decreases |listeners|
  {
    if listeners == [] then e
    else OnAll(On(e, name, listeners[0]), name, listeners[1..])
  }

  /** `emit` invokes a name's listeners exactly in the order they were
      registered, after any registered earlier, and registering under one
      name never changes what another name invokes. */
  lemma {:induction false} EmitOrder<L>(e: Emitter<L>, name: string, listeners: seq<L>)
    ensures Listeners(OnAll(e, name, listeners), name) == Listeners(e, name) + listeners
    ensures forall n :: n != name ==> Listeners(OnAll(e, name, listeners), n) == Listeners(e, n)
    decreases |listeners|
  {
    if listeners != [] {
      var e' := On(e, name, listeners[0]);
      EmitOrder(e', name, listeners[1..]);
      assert Listeners(e, name) + listeners == Listeners(e', name) + listeners[1..];
    }
  }
}
