/** The interception layer that runs before the host page: it replaces
    `addEventListener` so that listeners for the three drawing mouse events
    are wrapped, and it owns the page-wide blocking flag and the set of
    events the extension synthesised. */
module EarlyInject {
  import opened Basics

  /** A mouse event as a listener sees it. `id` stands for the identity of
      the event object (what set membership compares); the other fields are
      the properties the extension sets or reads. */
  datatype MouseEvent = MouseEvent(
    id: nat,
    eventType: string,
    isTrusted: bool,
    bubbles: bool,
    cancelable: bool,
    clientX: real, clientY: real,
    offsetX: real, offsetY: real,
    pageX: real, pageY: real,
    screenX: real, screenY: real,
    movementX: real, movementY: real,
    button: int,
    buttons: int)

  /** What a page passes to `addEventListener`: a function, or an object
      with a `handleEvent` method (every other kind of value). */
  datatype Listener = FunctionListener(fid: nat) | HandlerObject(oid: nat)

  /** What the patched `addEventListener` hands on to the browser's original
      one: the same type and options, and either the listener itself or a
      wrapper around it. */
  datatype Registration = Registration(eventType: string, listener: Listener, wrapped: bool)

  /** The event types whose listeners are wrapped. */
  predicate IsDrawingEventType(t: string)
  {
    t == "mousedown" || t == "mousemove" || t == "mouseup"
  }

  /** The replacement `addEventListener`: only drawing-event registrations
      with a function listener are wrapped; all others are forwarded as they
      are. */
  function AddEventListener(eventType: string, listener: Listener): (r: Registration)
    ensures r.eventType == eventType && r.listener == listener
    ensures r.wrapped <==> IsDrawingEventType(eventType) && listener.FunctionListener?
  {
    Registration(eventType, listener, IsDrawingEventType(eventType) && listener.FunctionListener?)
  }

  /** The decision `wrappedListener` takes for one event: `None` when the
      original listener is not called, otherwise the value it is called
      with. */
  function Intercept(e: MouseEvent, blocking: bool, synthetic: set<nat>): (r: Option<MouseEvent>)
    ensures r.None? <==> e.isTrusted && blocking
    ensures r.Some? ==> r.value.(isTrusted := e.isTrusted) == e
    ensures r.Some? ==> (r.value.isTrusted <==> e.isTrusted || e.id in synthetic)
  {
    if e.isTrusted && blocking then None
    else if !e.isTrusted && e.id in synthetic then Some(e.(isTrusted := true))
    else Some(e)
  }

  /** The values the registered listener is invoked with when the browser
      dispatches `e` to the target of registration `reg`. */
  function Deliver(reg: Registration, e: MouseEvent, blocking: bool, synthetic: set<nat>): (calls: seq<MouseEvent>)
    requires e.eventType == reg.eventType
    ensures |calls| <= 1
    ensures !reg.wrapped ==> calls == [e]
    ensures reg.wrapped ==> (calls == [] <==> e.isTrusted && blocking)
  {
    if !reg.wrapped then [e]
    else match Intercept(e, blocking, synthetic)
      case None => []
      case Some(v) => [v]
  }

  /** While blocking is on, a real event never reaches a wrapped listener. */
  lemma TrustedBlocked(reg: Registration, e: MouseEvent, synthetic: set<nat>)
    requires e.eventType == reg.eventType && reg.wrapped && e.isTrusted
    ensures Deliver(reg, e, true, synthetic) == []
  {
  }

  /** A synthetic event is delivered as a view that reads trusted and is
      otherwise the event itself, whether or not blocking is on. */
  lemma SyntheticDeliveredAsTrusted(reg: Registration, e: MouseEvent, blocking: bool, synthetic: set<nat>)
    requires e.eventType == reg.eventType && reg.wrapped
    requires !e.isTrusted && e.id in synthetic
    ensures Deliver(reg, e, blocking, synthetic) == [e.(isTrusted := true)]
  {
  }

  /** Real events while not blocking, and untrusted events the extension did
      not create, are delivered unchanged. */
  lemma OthersUnchanged(reg: Registration, e: MouseEvent, blocking: bool, synthetic: set<nat>)
    requires e.eventType == reg.eventType
    requires (e.isTrusted && !blocking) || (!e.isTrusted && e.id !in synthetic)
    ensures Deliver(reg, e, blocking, synthetic) == [e]
  {
  }

  /** The blocking flag alone decides what happens to a real event: with
      it on, a wrapped listener is not called and the event is lost for
      that listener (nothing queues it for later); the same event
      dispatched with the flag off is delivered as it is. */
  lemma BlockingAloneDecides(reg: Registration, e: MouseEvent, synthetic: set<nat>)
    requires e.eventType == reg.eventType && e.isTrusted
    requires reg == AddEventListener(e.eventType, reg.listener)
    ensures reg.wrapped ==> Deliver(reg, e, true, synthetic) == []
    ensures Deliver(reg, e, false, synthetic) == [e]
  {
  }

  /** The page-wide state the interception layer creates: the blocking flag
      (`__garticLassoBlocking`) and the set of synthetic events
      (`__garticLassoEvents`). `nextId` hands out the identities of event
      objects the extension creates. */
  class InputGate {
    var blocking: bool
    var synthetic: set<nat>
    var nextId: nat

    /** Only events already created can be in the set. */
    ghost predicate Valid()
      reads this
    {
      forall id :: id in synthetic ==> id < nextId
    }

    /** Installation: the flag starts false and the set empty. */
    constructor ()
      ensures Valid()
      ensures !blocking && synthetic == {} && nextId == 0
    {
      blocking := false;
      synthetic := {};
      nextId := 0;
    }
  }
}
