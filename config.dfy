/**
 * The configuration a `PdfScanner` receives from the application and the
 * normalised values it hands to the native scanner view when it renders.
 *
 * Numeric props are JavaScript numbers, modelled as `real`; an absent prop
 * is `None`. The wrapper applies its defaults with `||`, so a value counts as
 * absent whenever it is FALSY: `undefined` or `0` for a number, `undefined`
 * or `false` for a boolean.
 */
module Config {
  import opened Wrappers

  /** Identity of a callback function passed as a prop (compared with `===`). */
  type CallbackId = nat

  /**
   * The props the wrapper itself reads. The remaining props (overlay colour,
   * torch, animation and grey-scale switches, base64 and multi-capture flags,
   * style) are spread onto the native view unchanged.
   */
  datatype Props = Props(
    onPictureTaken: Option<CallbackId>,
    onRectangleDetect: Option<CallbackId>,
    onProcessing: Option<CallbackId>,
    quality: Option<real>,
    useFrontCam: Option<bool>,
    saturation: Option<real>,
    brightness: Option<real>,
    contrast: Option<real>,
    detectionCountBeforeCapture: Option<real>,
    durationBetweenCaptures: Option<real>,
    detectionRefreshRateInMS: Option<real>)

  /** The values the wrapper computes and passes to the native view. */
  datatype NativeConfig = NativeConfig(
    useFrontCam: bool,
    brightness: real,
    saturation: real,
    contrast: real,
    quality: real,
    detectionCountBeforeCapture: real,
    durationBetweenCaptures: real,
    detectionRefreshRateInMS: real)

  /** JavaScript truthiness of an optional number: present and non-zero. */
  predicate Truthy(v: Option<real>) {
    v.Some? && v.value != 0.0
  }

  /** `v || d` for an optional number. */
  function OrNumber(v: Option<real>, d: real): real {
    if Truthy(v) then v.value else d
  }

  /** `b || false` for an optional boolean. */
  function OrFalse(b: Option<bool>): bool {
    if b.Some? && b.value then b.value else false
  }

  /**
   * `getImageQuality`: the image quality sent to the native side. A falsy
   * quality gives 0.8; otherwise the value is clamped into [0.1, 1].
   */
  function ImageQuality(q: Option<real>): (r: real)
    ensures 0.1 <= r <= 1.0
    ensures !Truthy(q) ==> r == 0.8
    ensures Truthy(q) && q.value > 1.0 ==> r == 1.0
    ensures Truthy(q) && q.value < 0.1 ==> r == 0.1
    ensures Truthy(q) && 0.1 <= q.value <= 1.0 ==> r == q.value
  {
    if !Truthy(q) then 0.8
    else if q.value > 1.0 then 1.0
    else if q.value < 0.1 then 0.1
    else q.value
  }

  /** Normalising an already normalised quality changes nothing. */
  lemma ImageQualityIdempotent(q: Option<real>)
    ensures ImageQuality(Some(ImageQuality(q))) == ImageQuality(q)
  {
    var r := ImageQuality(q);
    assert Truthy(Some(r)) && 0.1 <= r <= 1.0;
  }

  /**
   * The quality is the value in [0.1, 1] nearest to the prop, except that an
   * absent or zero quality gives 0.8 rather than 0.1.
   */
  lemma ImageQualityNearest(q: real, x: real)
    requires q != 0.0 && 0.1 <= x <= 1.0
    ensures var r := ImageQuality(Some(q));
      (if r <= q then q - r else r - q) <= (if x <= q then q - x else x - q)
  {
  }

  /** The explicit zero quality is not clamped up to 0.1: it is replaced by the default. */
  lemma ZeroQualityIsDefault()
    ensures ImageQuality(Some(0.0)) == 0.8 && ImageQuality(None) == 0.8
  {
  }

  /** The prop defaults applied in `render`. */
  function Render(p: Props): (r: NativeConfig)
    ensures r.useFrontCam <==> p.useFrontCam == Some(true)
    ensures r.quality == ImageQuality(p.quality)
    ensures Truthy(p.brightness) ==> r.brightness == p.brightness.value
    ensures !Truthy(p.brightness) ==> r.brightness == 0.0
    ensures Truthy(p.saturation) ==> r.saturation == p.saturation.value
    ensures !Truthy(p.saturation) ==> r.saturation == 1.0
    ensures Truthy(p.contrast) ==> r.contrast == p.contrast.value
    ensures !Truthy(p.contrast) ==> r.contrast == 1.0
    ensures Truthy(p.detectionCountBeforeCapture) ==> r.detectionCountBeforeCapture == p.detectionCountBeforeCapture.value
    ensures !Truthy(p.detectionCountBeforeCapture) ==> r.detectionCountBeforeCapture == 5.0
    ensures Truthy(p.durationBetweenCaptures) ==> r.durationBetweenCaptures == p.durationBetweenCaptures.value
    ensures !Truthy(p.durationBetweenCaptures) ==> r.durationBetweenCaptures == 0.0
    ensures Truthy(p.detectionRefreshRateInMS) ==> r.detectionRefreshRateInMS == p.detectionRefreshRateInMS.value
    ensures !Truthy(p.detectionRefreshRateInMS) ==> r.detectionRefreshRateInMS == 50.0
  {
    NativeConfig(
      useFrontCam := OrFalse(p.useFrontCam),
      brightness := OrNumber(p.brightness, 0.0),
      saturation := OrNumber(p.saturation, 1.0),
      contrast := OrNumber(p.contrast, 1.0),
      quality := ImageQuality(p.quality),
      detectionCountBeforeCapture := OrNumber(p.detectionCountBeforeCapture, 5.0),
      durationBetweenCaptures := OrNumber(p.durationBetweenCaptures, 0.0),
      detectionRefreshRateInMS := OrNumber(p.detectionRefreshRateInMS, 50.0))
  }

  /**
   * For the two props whose default is 0, `||` behaves exactly like "absent
   * gives the default": every present value, zero included, reaches the view.
   */
  lemma ZeroDefaultsPassEveryValue(p: Props)
    ensures Render(p).brightness == p.brightness.GetOr(0.0)
    ensures Render(p).durationBetweenCaptures == p.durationBetweenCaptures.GetOr(0.0)
  {
  }

  /**
   * For the props whose default is not 0, an explicit 0 cannot reach the view:
   * saturation 0 is sent as 1, contrast 0 as 1, a detection count of 0 as 5 and
   * a refresh rate of 0 as 50.
   */
  lemma ExplicitZeroIsReplaced(p: Props)
    ensures p.saturation == Some(0.0) ==> Render(p).saturation == 1.0
    ensures p.contrast == Some(0.0) ==> Render(p).contrast == 1.0
    ensures p.detectionCountBeforeCapture == Some(0.0) ==> Render(p).detectionCountBeforeCapture == 5.0
    ensures p.detectionRefreshRateInMS == Some(0.0) ==> Render(p).detectionRefreshRateInMS == 50.0
  {
  }

  /** Rendering a second time from the values already sent changes none of them. */
  lemma RenderIdempotent(p: Props)
    ensures var r := Render(p);
      Render(Props(p.onPictureTaken, p.onRectangleDetect, p.onProcessing,
                   Some(r.quality), Some(r.useFrontCam), Some(r.saturation), Some(r.brightness),
                   Some(r.contrast), Some(r.detectionCountBeforeCapture),
                   Some(r.durationBetweenCaptures), Some(r.detectionRefreshRateInMS))) == r
  {
    ImageQualityIdempotent(p.quality);
  }
}
