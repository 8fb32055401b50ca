/**
 * The `PdfScanner` component as an object: its props, its two bus listener
 * fields, its reference to the mounted native view and the native handle
 * resolved from it. The lifecycle methods update these fields in place and
 * call the shared bus; `Capture` calls the native scanner manager.
 */
module Scanner {
  import opened Wrappers
  import opened Config
  import opened DeviceEvents
  import opened Lifecycle

  /** A mounted native view instance (the value React passes to the `ref` callback). */
  type ViewRef = nat

  /** A native view tag as returned by `findNodeHandle`; 0 is falsy. */
  type NodeHandle = int

  /** `handle` is truthy in JavaScript: present and not 0. */
  predicate HandleTruthy(handle: Option<NodeHandle>) {
    handle.Some? && handle.value != 0
  }

  /** The native capture commands that `capture()` issues with the stored handle. */
  function CaptureCalls(handle: Option<NodeHandle>): (r: seq<NodeHandle>)
    ensures |r| <= 1
    ensures r != [] <==> HandleTruthy(handle)
    ensures forall i :: 0 <= i < |r| ==> r[i] == handle.value && r[i] != 0
  {
    if HandleTruthy(handle) then [handle.value] else []
  }

  /** `NativeModules.RNPdfScannerManager`, reduced to the log of its `capture` calls. */
  class ScannerManager {
    var captured: seq<NodeHandle>

    constructor ()
      ensures captured == []
    {
      captured := [];
    }

    method Capture(handle: NodeHandle)
      modifies this
      ensures captured == old(captured) + [handle]
    {
      captured := captured + [handle];
    }
  }

  class PdfScanner {
    /** `Platform.OS === 'android'`, fixed for the process. */
    const isAndroid: bool
    /** `DeviceEventEmitter`, shared by the whole process. */
    const bus: EventBus
    const manager: ScannerManager
    /** `findNodeHandle`, supplied by the host framework. */
    const findNodeHandle: ViewRef -> Option<NodeHandle>

    /** `this.props`, replaced by the framework before each `componentDidUpdate`. */
    var props: Props
    var pictureTakenListener: Option<Subscription>
    var processingChangeListener: Option<Subscription>
    var scannerRef: Option<ViewRef>
    var scannerHandle: Option<NodeHandle>

    /** The listener fields and the bus, as a value. */
    function ListenerState(): State
      reads this, bus
    {
      State(Listeners(pictureTakenListener, processingChangeListener), bus.Value())
    }

    constructor (isAndroid: bool, props: Props, bus: EventBus, manager: ScannerManager,
                 findNodeHandle: ViewRef -> Option<NodeHandle>)
      ensures this.isAndroid == isAndroid && this.props == props
      ensures this.bus == bus && this.manager == manager && this.findNodeHandle == findNodeHandle
      ensures pictureTakenListener == None && processingChangeListener == None
      ensures scannerRef == None && scannerHandle == None
    {
      this.isAndroid := isAndroid;
      this.bus := bus;
      this.manager := manager;
      this.findNodeHandle := findNodeHandle;
      this.props := props;
      pictureTakenListener := None;
      processingChangeListener := None;
      scannerRef := None;
      scannerHandle := None;
    }

    /** The framework hands the component its next props before `componentDidUpdate`. */
    method ReceiveProps(next: Props)
      modifies this`props
      ensures props == next
    {
      props := next;
    }

    method ComponentDidMount()
      modifies this`pictureTakenListener, this`processingChangeListener, bus
      ensures ListenerState() == Mount(isAndroid, props, old(ListenerState()))
    {
      if isAndroid {
        if props.onPictureTaken.Some? {
          var s := bus.AddListener(PictureTakenEvent, props.onPictureTaken.value);
          pictureTakenListener := Some(s);
        }
        if props.onProcessing.Some? {
          var s := bus.AddListener(ProcessingChangeEvent, props.onProcessing.value);
          processingChangeListener := Some(s);
        }
      }
    }

    method ComponentDidUpdate(prevProps: Props)
      modifies this`pictureTakenListener, this`processingChangeListener, bus
      ensures ListenerState() == Update(isAndroid, prevProps, props, old(ListenerState()))
    {
      if isAndroid {
        ghost var st0 := ListenerState();
        if props.onPictureTaken != prevProps.onPictureTaken {
          if pictureTakenListener.Some? {
            bus.Remove(pictureTakenListener.value);
            pictureTakenListener := None;
          }
          assert ListenerState() == Detach(st0, PictureTaken);
          if props.onPictureTaken.Some? {
            var s := bus.AddListener(PictureTakenEvent, props.onPictureTaken.value);
            pictureTakenListener := Some(s);
          }
        }
        assert ListenerState() == Rebind(st0, PictureTaken, prevProps.onPictureTaken, props.onPictureTaken);
        ghost var st1 := ListenerState();
        if props.onProcessing != prevProps.onProcessing {
          if processingChangeListener.Some? {
            bus.Remove(processingChangeListener.value);
            processingChangeListener := None;
          }
          assert ListenerState() == Detach(st1, ProcessingChange);
          if props.onProcessing.Some? {
            var s := bus.AddListener(ProcessingChangeEvent, props.onProcessing.value);
            processingChangeListener := Some(s);
          }
        }
        assert ListenerState() == Rebind(st1, ProcessingChange, prevProps.onProcessing, props.onProcessing);
      }
    }

    method ComponentWillUnmount()
      modifies this`pictureTakenListener, this`processingChangeListener, bus
      ensures ListenerState() == Unmount(isAndroid, old(ListenerState()))
    {
      if isAndroid {
        ghost var st0 := ListenerState();
        if pictureTakenListener.Some? {
          bus.Remove(pictureTakenListener.value);
          pictureTakenListener := None;
        }
        assert ListenerState() == Detach(st0, PictureTaken);
        if processingChangeListener.Some? {
          bus.Remove(processingChangeListener.value);
          processingChangeListener := None;
        }
      }
    }

    method Capture()
      modifies manager
      ensures manager.captured == old(manager.captured) + CaptureCalls(scannerHandle)
    {
      if scannerHandle.Some? && scannerHandle.value != 0 {
        manager.Capture(scannerHandle.value);
      }
    }

    /** The `ref` callback: called with the view on mount and with `null` on unmount. */
    method SetReference(ref: Option<ViewRef>)
      modifies this`scannerRef, this`scannerHandle
      ensures ref.Some? ==> scannerRef == ref && scannerHandle == findNodeHandle(ref.value)
      ensures ref.None? ==> scannerRef == None && scannerHandle == None
    {
      if ref.Some? {
        scannerRef := ref;
        scannerHandle := findNodeHandle(ref.value);
      } else {
        scannerRef := None;
        scannerHandle := None;
      }
    }
  }

  /**
   * One lifetime on Android, driven as the framework drives it: mount with
   * both callbacks present, re-render with a new picture-taken callback,
   * unmount, then the framework clears the view reference. The bus's live
   * subscriptions end as they began, and a late `capture()` reaches nothing.
   */
  method ReplaceCallbackThenUnmount(bus: EventBus, manager: ScannerManager,
                                    findNodeHandle: ViewRef -> Option<NodeHandle>,
                                    p: Props, cb: CallbackId)
    requires IdsIssued(bus.Value())
    requires p.onPictureTaken.Some? && p.onProcessing.Some? && p.onPictureTaken != Some(cb)
    modifies bus, manager
    ensures bus.live == old(bus.live)
    ensures manager.captured == old(manager.captured)
  {
    ghost var base := bus.live;
    var scanner := new PdfScanner(true, p, bus, manager, findNodeHandle);
    MountBinds(true, p, scanner.ListenerState(), base);
    scanner.ComponentDidMount();
    assert scanner.pictureTakenListener.Some? && scanner.processingChangeListener.Some?;
    assert scanner.pictureTakenListener.value.listener == p.onPictureTaken.value;

    var prev := scanner.props;
    scanner.ReceiveProps(p.(onPictureTaken := Some(cb)));
    UpdateKeepsBound(true, prev, scanner.props, scanner.ListenerState(), base);
    scanner.ComponentDidUpdate(prev);
    assert scanner.pictureTakenListener.Some? && scanner.pictureTakenListener.value.listener == cb;
    AtMostOnePerKind(true, scanner.props, scanner.ListenerState(), base);

    UnmountReleases(true, scanner.props, scanner.ListenerState(), base);
    scanner.ComponentWillUnmount();
    scanner.SetReference(None);
    scanner.Capture();
  }
}
