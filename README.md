# PdfScanner wrapper — a verified model

`PdfScanner` is a React Native component that wraps a native document-scanner
view. The camera, the edge detection and the cropping all run in native code.
The wrapper itself does four things, and this project models each of them:

- **Configuration normalisation** (`Config`). `getImageQuality` clamps the
  image quality into [0.1, 1], with 0.8 as the default. `render` applies
  `||`-style defaults to seven props. Because `||` tests JavaScript
  truthiness, an explicit `0` counts as absent. So `quality = 0` gives 0.8,
  not 0.1, and `saturation = 0` is sent to the view as 1. Numeric props are
  `Option<real>`, and "falsy" means `None` or `Some(0.0)`.
- **View-level event relay** (`EventRelay`). `sendOnPictureTakenEvent` and
  `sendOnRectangleDetectEvent` either do nothing or call the callback once
  with the event's `nativeEvent` payload.
- **Global-bus listener bookkeeping** (`DeviceEvents`, `Lifecycle`, `Scanner`).
  On Android, two events (`onPictureTaken` and `onProcessingChange`) arrive
  through the process-wide `DeviceEventEmitter` instead of through the view.
  The wrapper subscribes on mount. It re-subscribes on update when a
  callback's identity changes, and it unsubscribes on unmount.
  - The bus is modelled by three things: its set of live subscriptions, a log
    of add/remove operations, and an id counter. `EventBus` is the mutable
    object and `Bus` is its value.
  - `Lifecycle` gives the effect of each lifecycle method as a function of
    the state before the call. `Scanner.PdfScanner` performs the same steps
    in place, field by field, and its methods are proved equal to those
    functions.
  - The invariant `Lifecycle.Bound` says the bus holds the subscriptions it
    held before mount, plus, on Android, exactly one subscription per present
    callback. Each such subscription is filed under its event name and bound
    to the current callback. On other platforms the wrapper holds none.
- **Native handle and capture** (`Scanner`). The `ref` callback stores the view
  and the handle that `findNodeHandle` resolves for it. `capture()` calls the
  native manager only when that handle is truthy, i.e. neither `null` nor 0.
  The manager is modelled as a log of its `capture` calls.

The external calls are treated as follows:

- `Platform.OS` is a constant flag (`isAndroid`).
- `findNodeHandle` is a function given to the component when it is constructed.
- `NativeModules.RNPdfScannerManager` is the `ScannerManager` call log.
- `DeviceEventEmitter` is the `EventBus`, which is shared and may hold other
  clients' subscriptions. The invariant quantifies over the set of those
  (`base`). Other clients may add or remove their own subscriptions between
  lifecycle calls; the invariant survives that with `base` adjusted.

Lifecycle calls are treated as serialised method invocations. Before each
`componentDidUpdate`, the framework replaces `this.props`; this is modelled by
`PdfScanner.ReceiveProps`.

## Model

| member | source | states |
|---|---|---|
| `Config.ImageQuality` | src/index.tsx:72-77 | The result always lies in [0.1, 1]. A falsy quality (absent or 0) gives 0.8, a quality above 1 gives 1, one below 0.1 gives 0.1, and one within [0.1, 1] is returned unchanged. |
| `Config.ImageQualityIdempotent` | src/index.tsx:72-77 | Normalising an already normalised quality returns it unchanged. |
| `Config.ImageQualityNearest` | src/index.tsx:72-77 | For any non-zero quality, the result is the point of [0.1, 1] nearest to it. |
| `Config.ZeroQualityIsDefault` | src/index.tsx:73 | An absent quality and an explicit 0 both give 0.8. An explicit 0 is not clamped to 0.1. |
| `Config.Render` | src/index.tsx:151-158 | Each of the seven props reaches the view unchanged when truthy, and is replaced by its default when falsy. The defaults are `useFrontCam` false, brightness 0, saturation 1, contrast 1, detection count 5, duration 0 and refresh rate 50. The quality sent is `ImageQuality` of the prop. |
| `Config.ZeroDefaultsPassEveryValue` | src/index.tsx:152-157 | For brightness and durationBetweenCaptures, whose default is 0, every present value reaches the view, 0 included. |
| `Config.ExplicitZeroIsReplaced` | src/index.tsx:153-158 | Each of these props set to an explicit 0, whatever the others are, is sent as its default: saturation 1, contrast 1, detection count 5, refresh rate 50. |
| `Config.RenderIdempotent` | src/index.tsx:151-158 | Rendering again from the values already sent yields the same values. |
| `EventRelay.Forward` | src/index.tsx:62-70 | Without a callback, the relay makes no call. With one, it makes exactly one call: that callback with the event's `nativeEvent`. |
| `EventRelay.SendOnPictureTakenEvent` | src/index.tsx:62-65 | No call exactly when `onPictureTaken` is absent. Otherwise one call of `onPictureTaken` with `event.nativeEvent`. |
| `EventRelay.SendOnRectangleDetectEvent` | src/index.tsx:67-70 | No call exactly when `onRectangleDetect` is absent. Otherwise one call of `onRectangleDetect` with `event.nativeEvent`. |
| `EventRelay.RelaysAreIndependent` | src/index.tsx:62-70 | Each relay depends only on its own callback prop: two sets of props that agree on that callback relay every event identically, whatever else differs. |
| `DeviceEvents.WithListener` | src/index.tsx:85 | `addListener` returns a subscription for the given event and callback. The subscription is new to the bus, becomes live, and is logged as added. |
| `DeviceEvents.WithoutListener` | src/index.tsx:94 | `remove()` makes the subscription dead, leaves every other live subscription alone, and is logged as removed. |
| `DeviceEvents.EventBus.AddListener` | src/index.tsx:85 | The in-place bus after `addListener` equals `WithListener` of the old bus. |
| `DeviceEvents.EventBus.Remove` | src/index.tsx:94 | The in-place bus after `remove()` equals `WithoutListener` of the old bus. |
| `Lifecycle.Attach` | src/index.tsx:85-86 | `if (cb) field = addListener(name, cb)`. Without a callback nothing changes. With one, the field holds a new live subscription under the kind's event name, bound to the callback and logged as added. The other field is untouched. |
| `Lifecycle.Detach` | src/index.tsx:93-96 | `if (field !== null) { field.remove(); field = null }`. The field ends null. A held subscription leaves the live set and is logged as removed once. An empty field leaves everything unchanged. |
| `Lifecycle.Rebind` | src/index.tsx:92-100 | One kind's part of `componentDidUpdate`. An unchanged callback identity leaves the state as it was. A changed one leaves the field holding a subscription exactly when the new callback is present, bound to it under the kind's event name. The other field is untouched. |
| `Lifecycle.Mount` | src/index.tsx:82-88 | `componentDidMount`. On Android, each kind with a callback gets a subscription under its event name, bound to that callback, and a kind without one keeps its field. On other platforms nothing changes. |
| `Lifecycle.Update` | src/index.tsx:90-111 | `componentDidUpdate`. A kind whose callback identity is unchanged keeps its field. On Android, a kind whose identity changed ends with a subscription exactly when the new callback is present, bound to it. On other platforms nothing changes. |
| `Lifecycle.Unmount` | src/index.tsx:113-124 | `componentWillUnmount`. On Android both fields end null, and the live set loses exactly the subscriptions they held. On other platforms nothing changes. |
| `Lifecycle.AttachBinds` | src/index.tsx:85-86 | Subscribing one kind to a possibly absent callback keeps the ownership invariant. The field ends set exactly when the callback is present, and bound to it. The other kind's field is untouched. |
| `Lifecycle.DetachReleases` | src/index.tsx:93-96 | Removing one kind's listener keeps the ownership invariant and leaves that field null. The other kind's field is untouched. |
| `Lifecycle.RebindUnchanged` | src/index.tsx:92 | When a callback's identity is unchanged, rebinding leaves the fields and the bus exactly as they were. |
| `Lifecycle.RebindReplaces` | src/index.tsx:92-100 | When a callback's identity changes, the old listener (if any) is removed once, and then a listener for the new callback (if any) is added. Those are the only bus operations. The field ends bound to the new callback. |
| `Lifecycle.RebindStep` | src/index.tsx:92-109 | Rebinding one kind, changed or not, keeps the invariant. It only appends to the bus log, only with operations on that kind's event, and never touches the other field. |
| `Lifecycle.MountBinds` | src/index.tsx:82-88 | Mounting from a state with no subscriptions establishes the invariant. On Android, each field is set exactly when its callback is present, subscribed under `onPictureTaken` or `onProcessingChange`. On other platforms, nothing changes. |
| `Lifecycle.UpdateKeepsBound` | src/index.tsx:90-111 | `componentDidUpdate` carries the invariant from the previous props to the new ones: at most one live subscription per kind, bound to the current callback. On other platforms, nothing changes. |
| `Lifecycle.UpdateLeavesUnchangedKind` | src/index.tsx:90-111 | A kind whose callback identity did not change keeps its field, and the bus sees no operation on its event. |
| `Lifecycle.UpdateRebindsChangedKind` | src/index.tsx:90-111 | For a kind whose callback identity changed, the bus sees exactly this on its event: removal of the old listener (if any), then addition of the new one (if any). The field is set exactly when the new callback is present. |
| `Lifecycle.UnmountReleases` | src/index.tsx:113-124 | Unmounting a mounted wrapper removes every listener it held and nulls both fields, so the bus is back to what it held before mount. On other platforms, nothing changes. |
| `Lifecycle.UpdatesKeepBound` | src/index.tsx:90-111 | After any sequence of re-renders, the invariant holds for the latest props. |
| `Lifecycle.LifetimeReleasesAll` | src/index.tsx:82-124 | Mount, any number of updates, then unmount leaves no subscription of the wrapper's on the bus. |
| `Lifecycle.AtMostOnePerKind` | src/index.tsx:82-111 | Under the invariant, the wrapper's live subscriptions include at most one per event name, and each is bound to the current callback of its kind. |
| `Lifecycle.ForeignAddKeepsOwns` | src/index.tsx:85 | Another client's `addListener` on the shared bus between lifecycle calls keeps the ownership invariant; its subscription joins the ones that are not the wrapper's. |
| `Lifecycle.ForeignRemoveKeepsOwns` | src/index.tsx:94 | Another client's `remove()` of a subscription the wrapper does not hold keeps the ownership invariant, with that subscription dropped from the rest. |
| `Lifecycle.ForeignActivityKeepsBound` | src/index.tsx:82-111 | Another client's `addListener` leaves the mounted invariant intact: the wrapper's fields and their bindings to the current callbacks are unaffected. |
| `Scanner.CaptureCalls` | src/index.tsx:126-130 | `capture()` issues at most one native call. It issues one exactly when the handle is truthy, and that call carries the handle. |
| `Scanner.ScannerManager.Capture` | src/index.tsx:128 | `ScannerManager.capture(handle)` appends exactly that handle to the manager's call log. |
| `Scanner.PdfScanner.constructor` | src/index.tsx:79-80 | A new component holds no listeners, no view reference and no handle. |
| `Scanner.PdfScanner.ReceiveProps` | src/index.tsx:90-92 | The framework replaces `this.props`, which `componentDidUpdate` then compares with `prevProps`. |
| `Scanner.PdfScanner.ComponentDidMount` | src/index.tsx:82-88 | The fields and bus after the call equal `Lifecycle.Mount` of the state before it. |
| `Scanner.PdfScanner.ComponentDidUpdate` | src/index.tsx:90-111 | The fields and bus after the call equal `Lifecycle.Update` of the previous props, the current props and the state before it. |
| `Scanner.PdfScanner.ComponentWillUnmount` | src/index.tsx:113-124 | The fields and bus after the call equal `Lifecycle.Unmount` of the state before it. |
| `Scanner.PdfScanner.Capture` | src/index.tsx:126-130 | The manager's log grows by exactly `CaptureCalls` of the stored handle. That is one call when the handle is truthy and none otherwise. |
| `Scanner.PdfScanner.SetReference` | src/index.tsx:132-142 | A present ref stores the ref and `findNodeHandle(ref)`. A null ref clears both. Nothing else changes. |
| `Scanner.ReplaceCallbackThenUnmount` | src/index.tsx:82-130 | One Android lifetime: mount with both callbacks, replace the picture-taken callback, unmount, clear the ref, then capture. The bus's live subscriptions end as they began, and the late capture issues no native call. |

## Left out

- Rendering of the native view (`requireNativeComponent`, the JSX element) is not modelled. The same goes for spreading the remaining props onto it: overlay colour, torch, animation, grey-scale, base64, multi-capture, in-app save and style. The wrapper passes those through untouched; only the values it computes are modelled.
- Binding the two relays as the view's `onPictureTaken` / `onRectangleDetect` handlers is not modelled, because it is framework plumbing. The relays themselves are modelled.
- The `PictureTaken` payload interface, and its commented-out replacement shape, are not modelled. The wrapper never inspects a payload, so payloads are a type parameter.
- The internals of `DeviceEventEmitter`, `findNodeHandle`, `NativeModules.RNPdfScannerManager` and `Platform.OS` are not modelled; they are foreign code. They appear as the bus model, a function parameter, a call log and a constant flag.
- The native scanning itself (camera, rectangle detection, cropping) is not part of this repository.
- IEEE-754 details of the numeric props are not modelled: NaN and -0 are falsy in JavaScript, and non-numeric values could also be passed. Numbers are `real`, and only 0 is treated as a falsy number.
- React's scheduling and asynchronous native event delivery are not modelled. Lifecycle calls are serialised, and events are not delivered through the bus model (it records subscriptions, not dispatch).
- The lifecycle invariants assume the order the framework guarantees: mount from a state with no listeners, then updates, then unmount. Calling `componentDidMount` twice overwrites a field without removing its subscription, exactly as the code does. The model reproduces that, but no invariant is claimed for it.
- An explicit `quality = 0` gives 0.8, not 0.1, because `getImageQuality` tests `!quality` (src/index.tsx:73); see `Config.ZeroQualityIsDefault`. Numeric props set to 0 for saturation, contrast, detection count and refresh rate are likewise replaced by their defaults; see `Config.ExplicitZeroIsReplaced`.
