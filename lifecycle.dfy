/**
 * The wrapper's bookkeeping of its bus subscriptions across the component
 * lifecycle (mount, prop updates, unmount), as functions of the state before
 * the call. `Scanner.PdfScanner` performs these steps in place; the lemmas
 * below state what the steps guarantee.
 *
 * Only on Android do the picture-taken and processing-change events arrive
 * through the bus; on other platforms every step leaves the state alone.
 */
module Lifecycle {
  import opened Wrappers
  import opened Config
  import opened DeviceEvents

  /** The two bus-delivered event kinds, one listener field each. */
  datatype Kind = PictureTaken | ProcessingChange

  /** `_pictureTakenListener` and `_processingChangeListener`. */
  datatype Listeners = Listeners(pictureTaken: Option<Subscription>, processingChange: Option<Subscription>)

  /** The listener fields together with the bus they subscribe on. */
  datatype State = State(listeners: Listeners, bus: Bus)

  function EventName(k: Kind): string {
    match k
    case PictureTaken => PictureTakenEvent
    case ProcessingChange => ProcessingChangeEvent
  }

  /** The prop whose callback kind `k` delivers to. */
  function CallbackOf(p: Props, k: Kind): Option<CallbackId> {
    match k
    case PictureTaken => p.onPictureTaken
    case ProcessingChange => p.onProcessing
  }

  function Slot(l: Listeners, k: Kind): Option<Subscription> {
    match k
    case PictureTaken => l.pictureTaken
    case ProcessingChange => l.processingChange
  }

  function WithSlot(l: Listeners, k: Kind, v: Option<Subscription>): (r: Listeners)
    ensures Slot(r, k) == v
    ensures forall j :: j != k ==> Slot(r, j) == Slot(l, j)
  {
    match k
    case PictureTaken => l.(pictureTaken := v)
    case ProcessingChange => l.(processingChange := v)
  }

  /** The subscriptions the wrapper holds. */
  function Owned(l: Listeners): set<Subscription> {
    (if l.pictureTaken.Some? then {l.pictureTaken.value} else {}) +
    (if l.processingChange.Some? then {l.processingChange.value} else {})
  }

  /**
   * `if (cb) field = DeviceEventEmitter.addListener(name, cb)`: with a
   * callback, the field holds a new live subscription under the kind's event
   * name, bound to the callback and logged as added; without one, nothing changes.
   */
  function Attach(st: State, k: Kind, cb: Option<CallbackId>): (r: State)
    ensures cb.None? ==> r == st
    ensures forall j :: j != k ==> Slot(r.listeners, j) == Slot(st.listeners, j)
    ensures cb.Some? ==>
      && Slot(r.listeners, k).Some?
      && Slot(r.listeners, k).value.eventType == EventName(k)
      && Slot(r.listeners, k).value.listener == cb.value
      && r.bus.live == st.bus.live + {Slot(r.listeners, k).value}
      && r.bus.log == st.bus.log + [Added(Slot(r.listeners, k).value)]
    ensures IdsIssued(st.bus) ==> IdsIssued(r.bus)
    ensures IdsIssued(st.bus) && cb.Some? ==> Slot(r.listeners, k).value !in st.bus.live
  {
    if cb.None? then st
    else
      var (bus', s) := WithListener(st.bus, EventName(k), cb.value);
      State(WithSlot(st.listeners, k, Some(s)), bus')
  }

  /**
   * `if (field !== null) { field.remove(); field = null }`: the field ends
   * null; a held subscription is removed from the bus exactly once.
   */
  function Detach(st: State, k: Kind): (r: State)
    ensures Slot(r.listeners, k).None?
    ensures forall j :: j != k ==> Slot(r.listeners, j) == Slot(st.listeners, j)
    ensures Slot(st.listeners, k).None? ==> r == st
    ensures Slot(st.listeners, k).Some? ==>
      && r.bus.live == st.bus.live - {Slot(st.listeners, k).value}
      && r.bus.log == st.bus.log + [Removed(Slot(st.listeners, k).value)]
  {
    match Slot(st.listeners, k)
    case None => st
    case Some(s) => State(WithSlot(st.listeners, k, None), WithoutListener(st.bus, s))
  }

  /**
   * One kind's part of `componentDidUpdate`: an unchanged callback identity
   * leaves everything alone; a changed one leaves the field holding a
   * subscription exactly when the new callback is present, bound to it.
   */
  function Rebind(st: State, k: Kind, prevCb: Option<CallbackId>, cb: Option<CallbackId>): (r: State)
    ensures cb == prevCb ==> r == st
    ensures forall j :: j != k ==> Slot(r.listeners, j) == Slot(st.listeners, j)
    ensures cb != prevCb ==> (Slot(r.listeners, k).Some? <==> cb.Some?)
    ensures cb != prevCb && cb.Some? ==>
      Slot(r.listeners, k).value.listener == cb.value && Slot(r.listeners, k).value.eventType == EventName(k)
  {
    if cb == prevCb then st else Attach(Detach(st, k), k, cb)
  }

  /**
   * `componentDidMount`: on Android, each kind with a callback gets a
   * subscription under its event name bound to that callback, and a kind
   * without one keeps its field; on other platforms nothing changes.
   */
  function Mount(android: bool, p: Props, st: State): (r: State)
    ensures !android ==> r == st
    ensures android ==> forall k :: CallbackOf(p, k).Some? ==>
      && Slot(r.listeners, k).Some?
      && Slot(r.listeners, k).value.eventType == EventName(k)
      && Slot(r.listeners, k).value.listener == CallbackOf(p, k).value
    ensures android ==> forall k :: CallbackOf(p, k).None? ==> Slot(r.listeners, k) == Slot(st.listeners, k)
  {
    if !android then st
    else Attach(Attach(st, PictureTaken, p.onPictureTaken), ProcessingChange, p.onProcessing)
  }

  /**
   * `componentDidUpdate(prev)` with the current props `p`: a kind whose
   * callback identity is unchanged keeps its field; on Android a kind whose
   * identity changed ends with a subscription exactly when the new callback
   * is present, bound to it; on other platforms nothing changes.
   */
  function Update(android: bool, prev: Props, p: Props, st: State): (r: State)
    ensures !android ==> r == st
    ensures forall k :: CallbackOf(prev, k) == CallbackOf(p, k) ==> Slot(r.listeners, k) == Slot(st.listeners, k)
    ensures android ==> forall k :: CallbackOf(prev, k) != CallbackOf(p, k) ==>
      && (Slot(r.listeners, k).Some? <==> CallbackOf(p, k).Some?)
      && (Slot(r.listeners, k).Some? ==>
            Slot(r.listeners, k).value.listener == CallbackOf(p, k).value &&
            Slot(r.listeners, k).value.eventType == EventName(k))
  {
    if !android then st
    else
      var st1 := Rebind(st, PictureTaken, prev.onPictureTaken, p.onPictureTaken);
      Rebind(st1, ProcessingChange, prev.onProcessing, p.onProcessing)
  }

  /**
   * `componentWillUnmount`: on Android both fields end null and every
   * subscription they held leaves the bus; on other platforms nothing changes.
   */
  function Unmount(android: bool, st: State): (r: State)
    ensures !android ==> r == st
    ensures android ==> r.listeners == Listeners(None, None) && r.bus.live == st.bus.live - Owned(st.listeners)
  {
    if !android then st
    else
      var st1 := Detach(st, PictureTaken);
      var r := Detach(st1, ProcessingChange);
      assert Slot(r.listeners, PictureTaken) == Slot(st1.listeners, PictureTaken);
      r
  }

  // ---------------------------------------------------------------------
  // Invariants

  /**
   * The bus holds exactly the subscriptions present before the wrapper
   * (`base`) plus the ones it owns, each of the latter filed under its kind.
   */
  ghost predicate Owns(st: State, base: set<Subscription>) {
    && IdsIssued(st.bus)
    && st.bus.live == base + Owned(st.listeners)
    && base !! Owned(st.listeners)
    && (forall k :: Slot(st.listeners, k).Some? ==> Slot(st.listeners, k).value.eventType == EventName(k))
  }

  /**
   * Kind `k`'s listener field follows callback `cb`: on Android it holds a
   * subscription exactly when `cb` is present, bound to `cb`; elsewhere it stays null.
   */
  ghost predicate SlotBound(android: bool, st: State, k: Kind, cb: Option<CallbackId>) {
    var slot := Slot(st.listeners, k);
    if android then
      (slot.Some? <==> cb.Some?) && (slot.Some? ==> slot.value.listener == cb.value)
    else slot.None?
  }

  /** The state of a mounted wrapper whose current props are `p`. */
  ghost predicate Bound(android: bool, p: Props, st: State, base: set<Subscription>) {
    && Owns(st, base)
    && SlotBound(android, st, PictureTaken, p.onPictureTaken)
    && SlotBound(android, st, ProcessingChange, p.onProcessing)
  }

  /** The state of a wrapper holding no subscription (before mount, after unmount). */
  ghost predicate Released(st: State, base: set<Subscription>) {
    st.listeners == Listeners(None, None) && st.bus.live == base && IdsIssued(st.bus)
  }

  lemma {:induction false} AttachBinds(st: State, k: Kind, cb: Option<CallbackId>, base: set<Subscription>)
    requires Owns(st, base) && Slot(st.listeners, k).None?
    ensures var st' := Attach(st, k, cb);
      && Owns(st', base)
      && SlotBound(true, st', k, cb)
      && (forall j :: j != k ==> Slot(st'.listeners, j) == Slot(st.listeners, j))
  {
    if cb.Some? {
      var (bus', s) := WithListener(st.bus, EventName(k), cb.value);
      var l' := WithSlot(st.listeners, k, Some(s));
      var j := if k == PictureTaken then ProcessingChange else PictureTaken;
      assert Owned(l') == Owned(st.listeners) + {s} by {
        assert Slot(l', j) == Slot(st.listeners, j);
      }
    }
  }

  lemma {:induction false} DetachReleases(st: State, k: Kind, base: set<Subscription>)
    requires Owns(st, base)
    ensures var st' := Detach(st, k);
      && Owns(st', base)
      && Slot(st'.listeners, k).None?
      && (forall j :: j != k ==> Slot(st'.listeners, j) == Slot(st.listeners, j))
  {
    if Slot(st.listeners, k).Some? {
      var s := Slot(st.listeners, k).value;
      var l' := WithSlot(st.listeners, k, None);
      var j := if k == PictureTaken then ProcessingChange else PictureTaken;
      assert Owned(l') == Owned(st.listeners) - {s} by {
        assert Slot(l', j) == Slot(st.listeners, j);
        assert Slot(st.listeners, j).Some? ==> Slot(st.listeners, j).value != s;
      }
    }
  }

  /**
   * A kind whose callback identity is unchanged keeps its listener field,
   * and the bus sees no operation for that event.
   */
  lemma {:induction false} RebindUnchanged(st: State, k: Kind, cb: Option<CallbackId>)
    ensures Rebind(st, k, cb, cb) == st
  {
  }

  /**
   * A kind whose callback identity changed: the old listener (if any) is
   * removed exactly once, before the new one (if any) is added, and the field
   * ends bound to the new callback while the other kind's field is untouched.
   */
  lemma {:induction false} RebindReplaces(st: State, k: Kind, prevCb: Option<CallbackId>, cb: Option<CallbackId>,
                                          base: set<Subscription>)
    requires Owns(st, base) && SlotBound(true, st, k, prevCb) && prevCb != cb
    ensures var st' := Rebind(st, k, prevCb, cb);
      && Owns(st', base)
      && SlotBound(true, st', k, cb)
      && (forall j :: j != k ==> Slot(st'.listeners, j) == Slot(st.listeners, j))
      && |st'.bus.log| >= |st.bus.log|
      && st'.bus.log[|st.bus.log|..] ==
           (if Slot(st.listeners, k).Some? then [Removed(Slot(st.listeners, k).value)] else []) +
           (if cb.Some? then [Added(Slot(st'.listeners, k).value)] else [])
  {
    DetachReleases(st, k, base);
    var st1 := Detach(st, k);
    AttachBinds(st1, k, cb, base);
    var st' := Attach(st1, k, cb);
    var n := |st.bus.log|;
    assert st1.bus.log[n..] == (if Slot(st.listeners, k).Some? then [Removed(Slot(st.listeners, k).value)] else []);
    if cb.Some? {
      assert st'.bus.log == st1.bus.log + [Added(Slot(st'.listeners, k).value)];
      assert st'.bus.log[n..] == st1.bus.log[n..] + [Added(Slot(st'.listeners, k).value)];
    } else {
      assert st' == st1;
    }
  }

  // ---------------------------------------------------------------------
  // Properties of the lifecycle methods

  /**
   * `componentDidMount` from a state holding no subscription: on Android each
   * listener field is set exactly when its callback is present, subscribed
   * under its own event name; elsewhere nothing changes.
   */
  lemma {:induction false} MountBinds(android: bool, p: Props, st: State, base: set<Subscription>)
    requires Released(st, base)
    ensures Bound(android, p, Mount(android, p, st), base)
    ensures !android ==> Mount(android, p, st) == st
  {
    assert Owned(st.listeners) == {};
    if android {
      AttachBinds(st, PictureTaken, p.onPictureTaken, base);
      var st1 := Attach(st, PictureTaken, p.onPictureTaken);
      AttachBinds(st1, ProcessingChange, p.onProcessing, base);
    }
  }

  /**
   * `componentDidUpdate` keeps the mounted invariant: whatever the callbacks
   * do between renders, each kind has at most one live subscription of the
   * wrapper's, bound to the current callback.
   */
  lemma {:induction false} UpdateKeepsBound(android: bool, prev: Props, p: Props, st: State, base: set<Subscription>)
    requires Bound(android, prev, st, base)
    ensures Bound(android, p, Update(android, prev, p, st), base)
    ensures !android ==> Update(android, prev, p, st) == st
  {
    if android {
      var st1 := Rebind(st, PictureTaken, prev.onPictureTaken, p.onPictureTaken);
      if prev.onPictureTaken != p.onPictureTaken {
        RebindReplaces(st, PictureTaken, prev.onPictureTaken, p.onPictureTaken, base);
      }
      assert Owns(st1, base) && SlotBound(true, st1, PictureTaken, p.onPictureTaken);
      assert Slot(st1.listeners, ProcessingChange) == Slot(st.listeners, ProcessingChange);
      if prev.onProcessing != p.onProcessing {
        RebindReplaces(st1, ProcessingChange, prev.onProcessing, p.onProcessing, base);
      }
    }
  }

  /**
   * `componentDidUpdate` leaves a kind whose callback identity did not change
   * alone: same listener field, and no bus operation on its event.
   */
  lemma {:induction false} UpdateLeavesUnchangedKind(android: bool, prev: Props, p: Props, st: State, k: Kind,
                                                     base: set<Subscription>)
    requires Bound(android, prev, st, base)
    requires CallbackOf(prev, k) == CallbackOf(p, k)
    ensures var st' := Update(android, prev, p, st);
      && Slot(st'.listeners, k) == Slot(st.listeners, k)
      && |st'.bus.log| >= |st.bus.log|
      && OpsOf(st'.bus.log[|st.bus.log|..], EventName(k)) == []
  {
    var st' := Update(android, prev, p, st);
    var n := |st.bus.log|;
    if android {
      var j := if k == PictureTaken then ProcessingChange else PictureTaken;
      assert EventName(j) != EventName(k);
      var st1 := Rebind(st, PictureTaken, prev.onPictureTaken, p.onPictureTaken);
      if prev.onPictureTaken != p.onPictureTaken {
        RebindReplaces(st, PictureTaken, prev.onPictureTaken, p.onPictureTaken, base);
      }
      if prev.onProcessing != p.onProcessing {
        RebindReplaces(st1, ProcessingChange, prev.onProcessing, p.onProcessing, base);
      }
      // Every new operation concerns the other kind's event.
      var ops := st'.bus.log[n..];
      assert forall i :: 0 <= i < |ops| ==> ops[i].sub.eventType == EventName(j);
      OpsOfOtherEvent(ops, EventName(k));
    } else {
      assert st'.bus.log[n..] == [];
    }
  }

  lemma {:induction false} OpsOfOtherEvent(ops: seq<BusOp>, eventType: string)
    requires forall i :: 0 <= i < |ops| ==> ops[i].sub.eventType != eventType
    ensures OpsOf(ops, eventType) == []
  {
    if ops != [] {
      OpsOfOtherEvent(ops[1..], eventType);
    }
  }

  /**
   * `componentDidUpdate` for a kind whose callback identity changed: the
   * bus sees, for that event, the removal of the old listener (if any)
   * followed by the addition of the new one (if any), and nothing else.
   */
  lemma {:induction false} UpdateRebindsChangedKind(prev: Props, p: Props, st: State, k: Kind,
                                                    base: set<Subscription>)
    requires Bound(true, prev, st, base)
    requires CallbackOf(prev, k) != CallbackOf(p, k)
    ensures var st' := Update(true, prev, p, st);
      && |st'.bus.log| >= |st.bus.log|
      && (Slot(st'.listeners, k).Some? <==> CallbackOf(p, k).Some?)
      && OpsOf(st'.bus.log[|st.bus.log|..], EventName(k)) ==
           (if Slot(st.listeners, k).Some? then [Removed(Slot(st.listeners, k).value)] else []) +
           (if CallbackOf(p, k).Some? then [Added(Slot(st'.listeners, k).value)] else [])
  {
    var st1 := Rebind(st, PictureTaken, prev.onPictureTaken, p.onPictureTaken);
    var st' := Rebind(st1, ProcessingChange, prev.onProcessing, p.onProcessing);
    assert Update(true, prev, p, st) == st';
    RebindStep(st, PictureTaken, prev.onPictureTaken, p.onPictureTaken, base);
    RebindStep(st1, ProcessingChange, prev.onProcessing, p.onProcessing, base);
    if k == PictureTaken {
      RebindReplaces(st, PictureTaken, prev.onPictureTaken, p.onPictureTaken, base);
      OpsOfTwoSegments(st.bus.log, st1.bus.log, st'.bus.log, PictureTakenEvent, ProcessingChangeEvent, true);
    } else {
      RebindReplaces(st1, ProcessingChange, prev.onProcessing, p.onProcessing, base);
      OpsOfTwoSegments(st.bus.log, st1.bus.log, st'.bus.log, ProcessingChangeEvent, PictureTakenEvent, false);
    }
  }

  /**
   * A history extended twice, once with operations on `e` only and once with
   * operations on another event only (in the order `ownFirst` says): the new
   * operations on `e` are exactly the segment on `e`.
   */
  lemma {:induction false} OpsOfTwoSegments(l0: seq<BusOp>, l1: seq<BusOp>, l2: seq<BusOp>,
                                            e: string, other: string, ownFirst: bool)
    requires e != other
    requires |l0| <= |l1| <= |l2| && l1[..|l0|] == l0 && l2[..|l1|] == l1
    requires forall i :: |l0| <= i < |l1| ==> l1[i].sub.eventType == (if ownFirst then e else other)
    requires forall i :: |l1| <= i < |l2| ==> l2[i].sub.eventType == (if ownFirst then other else e)
    ensures OpsOf(l2[|l0|..], e) == if ownFirst then l1[|l0|..] else l2[|l1|..]
  {
    var a := l1[|l0|..];
    var b := l2[|l1|..];
    assert l2[|l0|..] == a + b;
    assert forall i :: 0 <= i < |a| ==> a[i] == l1[|l0| + i];
    assert forall i :: 0 <= i < |b| ==> b[i] == l2[|l1| + i];
    if ownFirst {
      OpsOfOneSided(a, b, e);
    } else {
      OpsOfOneSided(b, a, e);
    }
  }

  /** One kind's rebinding, changed or not, touches only that kind's event and field. */
  lemma {:induction false} RebindStep(st: State, k: Kind, prevCb: Option<CallbackId>, cb: Option<CallbackId>,
                                      base: set<Subscription>)
    requires Owns(st, base) && SlotBound(true, st, k, prevCb)
    ensures var st' := Rebind(st, k, prevCb, cb);
      && Owns(st', base)
      && SlotBound(true, st', k, cb)
      && (forall j :: j != k ==> Slot(st'.listeners, j) == Slot(st.listeners, j))
      && |st'.bus.log| >= |st.bus.log|
      && st'.bus.log[..|st.bus.log|] == st.bus.log
      && (forall i :: |st.bus.log| <= i < |st'.bus.log| ==> st'.bus.log[i].sub.eventType == EventName(k))
  {
    if prevCb != cb {
      RebindReplaces(st, k, prevCb, cb, base);
      var st' := Rebind(st, k, prevCb, cb);
      var n := |st.bus.log|;
      assert st'.bus.log == st.bus.log + st'.bus.log[n..];
    }
  }

  lemma {:induction false} OpsOfOneSided(a: seq<BusOp>, b: seq<BusOp>, eventType: string)
    requires forall i :: 0 <= i < |a| ==> a[i].sub.eventType == eventType
    requires forall i :: 0 <= i < |b| ==> b[i].sub.eventType != eventType
    ensures OpsOf(a + b, eventType) == a && OpsOf(b + a, eventType) == a
  {
    OpsOfAppend(a, b, eventType);
    OpsOfAppend(b, a, eventType);
    OpsOfOwnEvent(a, eventType);
    OpsOfOtherEvent(b, eventType);
    assert a + [] == a && [] + a == a;
  }

  lemma {:induction false} OpsOfOwnEvent(ops: seq<BusOp>, eventType: string)
    requires forall i :: 0 <= i < |ops| ==> ops[i].sub.eventType == eventType
    ensures OpsOf(ops, eventType) == ops
  {
    if ops != [] {
      OpsOfOwnEvent(ops[1..], eventType);
    }
  }

  /**
   * `componentWillUnmount` from a mounted state: every subscription the
   * wrapper held is removed and both fields end null, so the bus is back to
   * what it held before the wrapper mounted.
   */
  lemma {:induction false} UnmountReleases(android: bool, p: Props, st: State, base: set<Subscription>)
    requires Bound(android, p, st, base)
    ensures Released(Unmount(android, st), base)
    ensures !android ==> Unmount(android, st) == st
  {
    if android {
      DetachReleases(st, PictureTaken, base);
      var st1 := Detach(st, PictureTaken);
      DetachReleases(st1, ProcessingChange, base);
      var st2 := Detach(st1, ProcessingChange);
      assert Slot(st2.listeners, PictureTaken).None?;
      assert st2.listeners == Listeners(None, None);
    } else {
      assert Owned(st.listeners) == {};
    }
  }

  // ---------------------------------------------------------------------
  // Whole lifetimes

  /** The props of the last render: `p0`, then each of `ps` in turn. */
  function LastProps(p0: Props, ps: seq<Props>): Props {
    if ps == [] then p0 else ps[|ps| - 1]
  }

  /** `componentDidUpdate` after each re-render with the props `ps`, in order. */
  function Updates(android: bool, prev: Props, ps: seq<Props>, st: State): State
    decreases |ps|
  {
    if ps == [] then st else Updates(android, ps[0], ps[1..], Update(android, prev, ps[0], st))
  }

  lemma {:induction false} LastPropsTail(p0: Props, ps: seq<Props>)
    requires ps != []
    ensures LastProps(p0, ps) == LastProps(ps[0], ps[1..])
  {
    if |ps| > 1 {
      assert ps[1..][|ps[1..]| - 1] == ps[|ps| - 1];
    }
  }

  /** After any number of re-renders the mounted invariant still holds for the latest props. */
  lemma {:induction false} UpdatesKeepBound(android: bool, prev: Props, ps: seq<Props>, st: State,
                                            base: set<Subscription>)
    requires Bound(android, prev, st, base)
    ensures Bound(android, LastProps(prev, ps), Updates(android, prev, ps, st), base)
    decreases |ps|
  {
    if ps != [] {
      UpdateKeepsBound(android, prev, ps[0], st, base);
      UpdatesKeepBound(android, ps[0], ps[1..], Update(android, prev, ps[0], st), base);
      LastPropsTail(prev, ps);
    }
  }

  /**
   * A whole lifetime (mount with `p0`, any sequence of re-renders, unmount)
   * leaves no subscription of the wrapper's on the bus, on every platform.
   */
  lemma {:induction false} LifetimeReleasesAll(android: bool, p0: Props, ps: seq<Props>, st: State,
                                               base: set<Subscription>)
    requires Released(st, base)
    ensures Released(Unmount(android, Updates(android, p0, ps, Mount(android, p0, st))), base)
  {
    MountBinds(android, p0, st, base);
    UpdatesKeepBound(android, p0, ps, Mount(android, p0, st), base);
    UnmountReleases(android, LastProps(p0, ps), Updates(android, p0, ps, Mount(android, p0, st)), base);
  }

  /**
   * What the mounted invariant means on the bus: of the subscriptions the
   * wrapper added, there is at most one per event name, and each is bound to
   * the current callback of its kind.
   */
  lemma {:induction false} AtMostOnePerKind(android: bool, p: Props, st: State, base: set<Subscription>)
    requires Bound(android, p, st, base)
    ensures forall s, t :: s in st.bus.live - base && t in st.bus.live - base && s.eventType == t.eventType ==> s == t
    ensures forall s :: s in st.bus.live - base && s.eventType == PictureTakenEvent ==> p.onPictureTaken == Some(s.listener)
    ensures forall s :: s in st.bus.live - base && s.eventType == ProcessingChangeEvent ==> p.onProcessing == Some(s.listener)
  {
    assert st.bus.live - base == Owned(st.listeners);
    assert EventName(PictureTaken) != EventName(ProcessingChange);
    assert Slot(st.listeners, PictureTaken) == st.listeners.pictureTaken;
    assert Slot(st.listeners, ProcessingChange) == st.listeners.processingChange;
  }

  // ---------------------------------------------------------------------
  // Other clients of the shared bus

  /**
   * Another client's `addListener` between lifecycle calls keeps the
   * ownership invariant, with its new subscription counted among the
   * subscriptions that are not the wrapper's.
   */
  lemma ForeignAddKeepsOwns(st: State, base: set<Subscription>, eventType: string, listener: CallbackId)
    requires Owns(st, base)
    ensures var (bus', s) := WithListener(st.bus, eventType, listener);
      Owns(State(st.listeners, bus'), base + {s})
  {
    var (bus', s) := WithListener(st.bus, eventType, listener);
    assert s !in Owned(st.listeners);
  }

  /**
   * Another client's `remove()` of one of its own subscriptions keeps the
   * ownership invariant, with that subscription dropped from the rest.
   */
  lemma ForeignRemoveKeepsOwns(st: State, base: set<Subscription>, s: Subscription)
    requires Owns(st, base) && s !in Owned(st.listeners)
    ensures Owns(State(st.listeners, WithoutListener(st.bus, s)), base - {s})
  {
  }

  /** Foreign activity never changes the wrapper's own fields, so `Bound` survives it too. */
  lemma ForeignActivityKeepsBound(android: bool, p: Props, st: State, base: set<Subscription>,
                                  eventType: string, listener: CallbackId)
    requires Bound(android, p, st, base)
    ensures var (bus', s) := WithListener(st.bus, eventType, listener);
      Bound(android, p, State(st.listeners, bus'), base + {s})
  {
    ForeignAddKeepsOwns(st, base, eventType, listener);
  }
}
