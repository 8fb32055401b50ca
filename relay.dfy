/**
 * The two view-level event relays: the native view calls them with a
 * synthetic event, and they forward its `nativeEvent` payload to the
 * application's callback when one was supplied.
 */
module EventRelay {
  import opened Wrappers
  import opened Config

  /** A synthetic event as delivered by the native view; the payload is opaque. */
  datatype NativeEvent<P> = NativeEvent(nativeEvent: P)

  /** What a relay does: nothing (it returns `null`), or one call of a callback. */
  datatype Relay<P> = NoCall | Call(callback: CallbackId, argument: P)

  /** The callback calls a relay makes, in order. */
  function Calls<P>(r: Relay<P>): seq<(CallbackId, P)> {
    match r
    case NoCall => []
    case Call(cb, arg) => [(cb, arg)]
  }

  /** Forward an event to `callback` if present. */
  function Forward<P>(callback: Option<CallbackId>, event: NativeEvent<P>): (r: Relay<P>)
    ensures callback.None? ==> Calls(r) == []
    ensures callback.Some? ==> Calls(r) == [(callback.value, event.nativeEvent)]
  {
    if callback.None? then NoCall else Call(callback.value, event.nativeEvent)
  }

  /** `sendOnPictureTakenEvent`. */
  function SendOnPictureTakenEvent<P>(p: Props, event: NativeEvent<P>): (r: Relay<P>)
    ensures r.NoCall? <==> p.onPictureTaken.None?
    ensures r.Call? ==> r.callback == p.onPictureTaken.value && r.argument == event.nativeEvent
    ensures |Calls(r)| <= 1
  {
    Forward(p.onPictureTaken, event)
  }

  /** `sendOnRectangleDetectEvent`. */
  function SendOnRectangleDetectEvent<P>(p: Props, event: NativeEvent<P>): (r: Relay<P>)
    ensures r.NoCall? <==> p.onRectangleDetect.None?
    ensures r.Call? ==> r.callback == p.onRectangleDetect.value && r.argument == event.nativeEvent
    ensures |Calls(r)| <= 1
  {
    Forward(p.onRectangleDetect, event)
  }

  /**
   * Each relay depends only on its own callback prop: props that agree on
   * that callback relay every event identically, whatever else differs.
   */
  lemma RelaysAreIndependent<P>(p: Props, q: Props, event: NativeEvent<P>)
    ensures p.onPictureTaken == q.onPictureTaken ==>
      SendOnPictureTakenEvent(p, event) == SendOnPictureTakenEvent(q, event)
    ensures p.onRectangleDetect == q.onRectangleDetect ==>
      SendOnRectangleDetectEvent(p, event) == SendOnRectangleDetectEvent(q, event)
  {
  }
}
