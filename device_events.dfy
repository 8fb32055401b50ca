/**
 * The platform-wide event bus (`DeviceEventEmitter`) as far as the wrapper
 * uses it: `addListener(eventType, listener)` returns a subscription, and a
 * subscription's `remove()` ends it. The bus is shared by everyone in the
 * process, so it may hold subscriptions that the wrapper does not own.
 */
module DeviceEvents {
  import opened Config

  /** Event names on the bus used by the wrapper. */
  const PictureTakenEvent: string := "onPictureTaken"
  const ProcessingChangeEvent: string := "onProcessingChange"

  /** A subscription handle; `id` is unique per `addListener` call. */
  datatype Subscription = Subscription(id: nat, eventType: string, listener: CallbackId)

  /** One operation on the bus, as recorded in its history. */
  datatype BusOp = Added(sub: Subscription) | Removed(sub: Subscription)

  /** The bus: its live subscriptions, its history and the next id it will issue. */
  datatype Bus = Bus(live: set<Subscription>, log: seq<BusOp>, nextId: nat)

  /** Every live subscription was issued before, so a new one cannot collide with it. */
  ghost predicate IdsIssued(b: Bus) {
    forall s :: s in b.live ==> s.id < b.nextId
  }

  /** `addListener`: a new live subscription, recorded in the history. */
  function WithListener(b: Bus, eventType: string, listener: CallbackId): (r: (Bus, Subscription))
    ensures r.1.eventType == eventType && r.1.listener == listener
    ensures IdsIssued(b) ==> r.1 !in b.live && IdsIssued(r.0)
    ensures r.0.live == b.live + {r.1} && r.0.log == b.log + [Added(r.1)]
  {
    var s := Subscription(b.nextId, eventType, listener);
    (Bus(b.live + {s}, b.log + [Added(s)], b.nextId + 1), s)
  }

  /** `subscription.remove()`. */
  function WithoutListener(b: Bus, s: Subscription): (r: Bus)
    ensures s !in r.live && r.live + {s} >= b.live && r.live <= b.live
    ensures r.log == b.log + [Removed(s)]
    ensures IdsIssued(b) ==> IdsIssued(r)
  {
    Bus(b.live - {s}, b.log + [Removed(s)], b.nextId)
  }

  /** The operations of `ops` that concern the event `eventType`, in order. */
  function OpsOf(ops: seq<BusOp>, eventType: string): (r: seq<BusOp>)
    ensures |r| <= |ops|
    ensures forall i :: 0 <= i < |r| ==> r[i] in ops && r[i].sub.eventType == eventType
  {
    if ops == [] then []
    else if ops[0].sub.eventType == eventType then [ops[0]] + OpsOf(ops[1..], eventType)
    else OpsOf(ops[1..], eventType)
  }

  /** Filtering a history distributes over its parts. */
  lemma {:induction false} OpsOfAppend(a: seq<BusOp>, b: seq<BusOp>, eventType: string)
    ensures OpsOf(a + b, eventType) == OpsOf(a, eventType) + OpsOf(b, eventType)
  {
    if a == [] {
      assert a + b == b;
    } else {
      assert (a + b)[1..] == a[1..] + b;
      OpsOfAppend(a[1..], b, eventType);
    }
  }

  /** The bus as a mutable object, updated in place by the wrapper's calls. */
  class EventBus {
    var live: set<Subscription>
    var log: seq<BusOp>
    var nextId: nat

    function Value(): Bus
      reads this
    {
      Bus(live, log, nextId)
    }

    constructor ()
      ensures Value() == Bus({}, [], 0)
    {
      live, log, nextId := {}, [], 0;
    }

    method AddListener(eventType: string, listener: CallbackId) returns (s: Subscription)
      modifies this
      ensures (Value(), s) == WithListener(old(Value()), eventType, listener)
    {
      s := Subscription(nextId, eventType, listener);
      live := live + {s};
      log := log + [Added(s)];
      nextId := nextId + 1;
    }

    method Remove(s: Subscription)
      modifies this
      ensures Value() == WithoutListener(old(Value()), s)
    {
      live := live - {s};
      log := log + [Removed(s)];
    }
  }
}
