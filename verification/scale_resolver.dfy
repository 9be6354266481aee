/**
 * The responsive scale resolver of the viewer (the computation inside the
 * `useResponsiveScale` hook). Given the canvas size and, optionally, the
 * model's bounding box or a character name, it yields a display scale
 * together with the range a scale slider may move in.
 *
 * JavaScript numbers are modelled as `real`; `Math.sqrt` is a parameter
 * of the legacy branch, and its properties are assumed only by the
 * lemmas that need them (see `IsMonotoneSqrt`).
 */
module ScaleResolver {
  import opened Wrappers

  /** One row of the per-character legacy table. */
  datatype ModelScaleConfig = ModelScaleConfig(
    baseScale: real,
    minScale: real,
    maxScale: real,
    responsiveMultiplier: real)

  /** What the hook returns. */
  datatype ResponsiveScale = ResponsiveScale(
    scale: real,
    minScale: real,
    maxScale: real,
    baseScale: real)

  /** The hook's arguments; optional ones are `None` when `undefined`. */
  datatype ScaleProps = ScaleProps(
    canvasWidth: real,
    canvasHeight: real,
    modelWidth: Option<real>,
    modelHeight: Option<real>,
    fillRatio: Option<real>,
    modelType: Option<string>)

  /** Floor under every returned `minScale`. */
  const UNIVERSAL_MIN_SCALE: real := 0.01
  /** Default for an omitted `fillRatio`. */
  const DEFAULT_FILL_RATIO: real := 0.8
  /** Reference canvas of the legacy branch, 1024 by 768. */
  const BASE_CANVAS_AREA: real := 1024.0 * 768.0
  /** Character used when none or an unknown one is given. */
  const DEFAULT_MODEL_TYPE: string := "hiyori"

  const MODEL_SCALE_CONFIGS: map<string, ModelScaleConfig> := map[
    "hiyori" := ModelScaleConfig(0.2, 0.05, 0.8, 0.8),
    "rice" := ModelScaleConfig(0.27, 0.05, 1.2, 1.0),
    "shizuku" := ModelScaleConfig(0.35, 0.05, 1.0, 0.9),
    "haru" := ModelScaleConfig(0.18, 0.05, 0.9, 0.85),
    "mao" := ModelScaleConfig(0.25, 0.05, 1.0, 0.8),
    "mark" := ModelScaleConfig(0.35, 0.05, 1.1, 0.95),
    "natori" := ModelScaleConfig(0.12, 0.05, 0.95, 0.88),
    "wanko" := ModelScaleConfig(0.5, 0.05, 1.2, 1.0),
    "hiyori_free_en" := ModelScaleConfig(0.2, 0.05, 0.8, 0.8)
  ]

  function Min(a: real, b: real): real { if a <= b then a else b }

  function Max(a: real, b: real): real { if a >= b then a else b }

  /** A table row whose range is well formed and whose factors are non-negative. */
  predicate ValidConfig(c: ModelScaleConfig) {
    UNIVERSAL_MIN_SCALE <= c.minScale <= c.maxScale && 0.0 <= c.baseScale && 0.0 <= c.responsiveMultiplier
  }

  /** What is assumed of `Math.sqrt`: non-negative and monotone on the non-negative reals. */
  ghost predicate IsMonotoneSqrt(sqrt: real -> real) {
    forall x: real, y: real :: 0.0 <= x <= y ==> 0.0 <= sqrt(x) <= sqrt(y)
  }

  /** JavaScript truthiness of a `number | undefined` (NaN is not modelled). */
  predicate IsTruthy(x: Option<real>) {
    x.Some? && x.value != 0.0
  }

  /** The dynamic fit runs exactly when both model dimensions are truthy. */
  predicate UsesDynamicFit(p: ScaleProps)
    ensures UsesDynamicFit(p) ==>
      p.modelWidth.Some? && p.modelHeight.Some? && p.modelWidth.value != 0.0 && p.modelHeight.value != 0.0
    ensures p.modelWidth in {None, Some(0.0)} || p.modelHeight in {None, Some(0.0)} ==> !UsesDynamicFit(p)
  {
    IsTruthy(p.modelWidth) && IsTruthy(p.modelHeight)
  }

  /** `fillRatio = 0.8` as a default parameter: only `undefined` is replaced. */
  function FillRatio(p: ScaleProps): (f: real)
    ensures p.fillRatio.None? ==> f == DEFAULT_FILL_RATIO
    ensures p.fillRatio.Some? ==> f == p.fillRatio.value
  {
    if p.fillRatio.Some? then p.fillRatio.value else DEFAULT_FILL_RATIO
  }

  /** `modelType || "hiyori"`: both `undefined` and the empty string fall back. */
  function ConfigKey(modelType: Option<string>): (k: string)
    ensures k != ""
    ensures modelType.Some? && modelType.value != "" ==> k == modelType.value
    ensures modelType.None? || modelType.value == "" ==> k == DEFAULT_MODEL_TYPE
  {
    if modelType.None? || modelType.value == "" then DEFAULT_MODEL_TYPE else modelType.value
  }

  // ---------------------------------------------------------------------
  // Dynamic mode
  // ---------------------------------------------------------------------

  /** The aspect-preserving fit: the larger scale at which the model fits both axes. */
  function FitScale(canvasWidth: real, canvasHeight: real, modelWidth: real, modelHeight: real, fillRatio: real): (s: real)
    requires modelWidth != 0.0 && modelHeight != 0.0
    ensures s <= canvasWidth * fillRatio / modelWidth
    ensures s <= canvasHeight * fillRatio / modelHeight
    ensures s == canvasWidth * fillRatio / modelWidth || s == canvasHeight * fillRatio / modelHeight
  {
    Min(canvasWidth * fillRatio / modelWidth, canvasHeight * fillRatio / modelHeight)
  }

  function DynamicScale(canvasWidth: real, canvasHeight: real, modelWidth: real, modelHeight: real, fillRatio: real): (r: ResponsiveScale)
    requires modelWidth != 0.0 && modelHeight != 0.0
    ensures r.scale == FitScale(canvasWidth, canvasHeight, modelWidth, modelHeight, fillRatio)
    ensures r.baseScale == r.scale && r.maxScale == 2.0 * r.scale
    ensures r.minScale >= UNIVERSAL_MIN_SCALE && r.minScale >= 0.1 * r.scale
    ensures r.minScale == UNIVERSAL_MIN_SCALE || r.minScale == 0.1 * r.scale
  {
    var s := FitScale(canvasWidth, canvasHeight, modelWidth, modelHeight, fillRatio);
    ResponsiveScale(s, Max(s * 0.1, UNIVERSAL_MIN_SCALE), s * 2.0, s)
  }

  /** In dynamic mode `minScale <= scale` holds exactly when the scale is at least the floor. */
  lemma DynamicMinBelowScaleIff(canvasWidth: real, canvasHeight: real, modelWidth: real, modelHeight: real, fillRatio: real)
    requires modelWidth != 0.0 && modelHeight != 0.0
    ensures var r := DynamicScale(canvasWidth, canvasHeight, modelWidth, modelHeight, fillRatio);
      r.minScale <= r.scale <==> r.scale >= UNIVERSAL_MIN_SCALE
  {
  }

  /**
   * The floor can lift `minScale` above `scale`: a 10 by 10 canvas and a
   * 1000 by 1000 model at the default fill give scale 0.008 but minScale 0.01.
   */
  lemma DynamicFloorAboveScale()
    ensures var r := DynamicScale(10.0, 10.0, 1000.0, 1000.0, DEFAULT_FILL_RATIO);
      r.scale == 0.008 && r.minScale == UNIVERSAL_MIN_SCALE && r.scale < r.minScale
  {
  }

  /** In dynamic mode `scale <= maxScale` holds exactly when the scale is non-negative. */
  lemma DynamicScaleBelowMaxIff(canvasWidth: real, canvasHeight: real, modelWidth: real, modelHeight: real, fillRatio: real)
    requires modelWidth != 0.0 && modelHeight != 0.0
    ensures var r := DynamicScale(canvasWidth, canvasHeight, modelWidth, modelHeight, fillRatio);
      r.scale <= r.maxScale <==> r.scale >= 0.0
  {
  }

  /** Positive dimensions and fill ratio give a positive scale. */
  lemma DynamicScalePositive(canvasWidth: real, canvasHeight: real, modelWidth: real, modelHeight: real, fillRatio: real)
    requires canvasWidth > 0.0 && canvasHeight > 0.0 && modelWidth > 0.0 && modelHeight > 0.0 && fillRatio > 0.0
    ensures DynamicScale(canvasWidth, canvasHeight, modelWidth, modelHeight, fillRatio).scale > 0.0
  {
  }

  /** `k * a / d == k * (a / d)`, the step the homogeneity proof needs. */
  lemma ScaledQuotient(k: real, a: real, f: real, d: real)
    requires d != 0.0
    ensures (k * a) * f / d == k * (a * f / d)
  {
  }

  /**
   * Dynamic mode is homogeneous in the canvas: multiplying both canvas
   * dimensions by k > 0 multiplies `scale`, `baseScale` and `maxScale` by k.
   */
  lemma DynamicHomogeneous(k: real, canvasWidth: real, canvasHeight: real, modelWidth: real, modelHeight: real, fillRatio: real)
    requires k > 0.0
    requires modelWidth != 0.0 && modelHeight != 0.0
    ensures var r := DynamicScale(canvasWidth, canvasHeight, modelWidth, modelHeight, fillRatio);
      var rk := DynamicScale(k * canvasWidth, k * canvasHeight, modelWidth, modelHeight, fillRatio);
      rk.scale == k * r.scale && rk.baseScale == k * r.baseScale && rk.maxScale == k * r.maxScale
  {
    var x := canvasWidth * fillRatio / modelWidth;
    var y := canvasHeight * fillRatio / modelHeight;
    ScaledQuotient(k, canvasWidth, fillRatio, modelWidth);
    ScaledQuotient(k, canvasHeight, fillRatio, modelHeight);
    MinScaled(k, x, y);
  }

  /** A positive factor commutes with `Min`. */
  lemma MinScaled(k: real, x: real, y: real)
    requires k > 0.0
    ensures Min(k * x, k * y) == k * Min(x, y)
  {
  }

  /** A larger canvas never gives a smaller dynamic scale (positive model box, non-negative fill). */
  lemma DynamicMonotoneInCanvas(canvasWidth: real, canvasHeight: real, canvasWidth': real, canvasHeight': real, modelWidth: real, modelHeight: real, fillRatio: real)
    requires modelWidth > 0.0 && modelHeight > 0.0 && fillRatio >= 0.0
    requires canvasWidth <= canvasWidth' && canvasHeight <= canvasHeight'
    ensures DynamicScale(canvasWidth, canvasHeight, modelWidth, modelHeight, fillRatio).scale
         <= DynamicScale(canvasWidth', canvasHeight', modelWidth, modelHeight, fillRatio).scale
  {
  }

  // ---------------------------------------------------------------------
  // Legacy mode
  // ---------------------------------------------------------------------

  /** Every row of the legacy table is valid. */
  lemma ConfigsValid()
    ensures forall k :: k in MODEL_SCALE_CONFIGS ==> ValidConfig(MODEL_SCALE_CONFIGS[k])
  {
  }

  /** The table row for a character name, falling back to `hiyori`. */
  function LookupConfig(modelType: Option<string>): (c: ModelScaleConfig)
    ensures c in MODEL_SCALE_CONFIGS.Values
    ensures ValidConfig(c)
  {
    ConfigsValid();
    var key := ConfigKey(modelType);
    if key in MODEL_SCALE_CONFIGS then MODEL_SCALE_CONFIGS[key] else MODEL_SCALE_CONFIGS[DEFAULT_MODEL_TYPE]
  }

  /** A missing, empty or unknown character name uses the `hiyori` row. */
  lemma LookupFallsBackToHiyori(modelType: Option<string>)
    requires modelType.None? || modelType.value == "" || modelType.value !in MODEL_SCALE_CONFIGS
    ensures LookupConfig(modelType) == MODEL_SCALE_CONFIGS["hiyori"]
  {
  }

  /** A known character name uses its own row. */
  lemma LookupKnown(name: string)
    requires name in MODEL_SCALE_CONFIGS
    ensures LookupConfig(Some(name)) == MODEL_SCALE_CONFIGS[name]
  {
  }

  /** `Math.max(lo, Math.min(hi, x))`. */
  function Clamp(lo: real, hi: real, x: real): (r: real)
    ensures lo <= hi ==> lo <= r <= hi
    ensures lo <= x <= hi ==> r == x
    ensures x < lo ==> r == lo
    ensures lo <= hi && hi < x ==> r == hi
  {
    Max(lo, Min(hi, x))
  }

  /** Clamping keeps order. */
  lemma ClampMonotone(lo: real, hi: real, x: real, y: real)
    requires x <= y
    ensures Clamp(lo, hi, x) <= Clamp(lo, hi, y)
  {
  }

  /** Canvas area relative to the 1024 by 768 reference. */
  function AreaRatio(canvasWidth: real, canvasHeight: real): (a: real)
    ensures a * BASE_CANVAS_AREA == canvasWidth * canvasHeight
    ensures canvasWidth * canvasHeight >= 0.0 ==> a >= 0.0
  {
    canvasWidth * canvasHeight / BASE_CANVAS_AREA
  }

  /** The legacy scale before clamping: base scale times square-root area growth times the multiplier. */
  function UnclampedLegacyScale(c: ModelScaleConfig, canvasWidth: real, canvasHeight: real, sqrt: real -> real): (u: real)
    ensures canvasWidth * canvasHeight == BASE_CANVAS_AREA && sqrt(1.0) == 1.0 ==>
      u == c.baseScale * c.responsiveMultiplier
    ensures ValidConfig(c) && sqrt(AreaRatio(canvasWidth, canvasHeight)) >= 0.0 ==> u >= 0.0
  {
    c.baseScale * sqrt(AreaRatio(canvasWidth, canvasHeight)) * c.responsiveMultiplier
  }

  function LegacyScale(canvasWidth: real, canvasHeight: real, modelType: Option<string>, sqrt: real -> real): (r: ResponsiveScale)
    ensures var c := LookupConfig(modelType);
      c.minScale <= r.scale <= c.maxScale
      && r.minScale == Max(c.minScale, UNIVERSAL_MIN_SCALE)
      && r.maxScale == c.maxScale
      && r.baseScale == c.baseScale
    ensures var c := LookupConfig(modelType);
      r.scale == Clamp(c.minScale, c.maxScale, UnclampedLegacyScale(c, canvasWidth, canvasHeight, sqrt))
    ensures UNIVERSAL_MIN_SCALE <= r.minScale <= r.scale <= r.maxScale
  {
    var c := LookupConfig(modelType);
    var s := Clamp(c.minScale, c.maxScale, UnclampedLegacyScale(c, canvasWidth, canvasHeight, sqrt));
    ResponsiveScale(s, Max(c.minScale, UNIVERSAL_MIN_SCALE), c.maxScale, c.baseScale)
  }

  /**
   * For a fixed character, the legacy scale (before and after clamping)
   * does not decrease as the canvas area grows.
   */
  lemma LegacyMonotoneInArea(modelType: Option<string>, sqrt: real -> real,
                             canvasWidth: real, canvasHeight: real, canvasWidth': real, canvasHeight': real)
    requires IsMonotoneSqrt(sqrt)
    requires 0.0 <= canvasWidth * canvasHeight <= canvasWidth' * canvasHeight'
    ensures var c := LookupConfig(modelType);
      UnclampedLegacyScale(c, canvasWidth, canvasHeight, sqrt) <= UnclampedLegacyScale(c, canvasWidth', canvasHeight', sqrt)
    ensures LegacyScale(canvasWidth, canvasHeight, modelType, sqrt).scale
         <= LegacyScale(canvasWidth', canvasHeight', modelType, sqrt).scale
  {
  }

  // ---------------------------------------------------------------------
  // The hook
  // ---------------------------------------------------------------------

  /**
   * The resolver as a plain function of its inputs. The dynamic branch is
   * only entered with two non-zero model dimensions, so it never divides by
   * zero (the precondition of `DynamicScale` is met).
   */
  function ResolveScale(p: ScaleProps, sqrt: real -> real): (r: ResponsiveScale)
    ensures r.minScale >= UNIVERSAL_MIN_SCALE
    ensures UsesDynamicFit(p) ==>
      r == DynamicScale(p.canvasWidth, p.canvasHeight, p.modelWidth.value, p.modelHeight.value, FillRatio(p))
    ensures !UsesDynamicFit(p) ==> r == LegacyScale(p.canvasWidth, p.canvasHeight, p.modelType, sqrt)
    ensures r.minScale <= r.scale <==> !UsesDynamicFit(p) || r.scale >= UNIVERSAL_MIN_SCALE
  {
    if UsesDynamicFit(p) then
      DynamicMinBelowScaleIff(p.canvasWidth, p.canvasHeight, p.modelWidth.value, p.modelHeight.value, FillRatio(p));
      DynamicScale(p.canvasWidth, p.canvasHeight, p.modelWidth.value, p.modelHeight.value, FillRatio(p))
    else
      LegacyScale(p.canvasWidth, p.canvasHeight, p.modelType, sqrt)
  }

  /**
   * The range invariant `minScale <= scale <= maxScale` of the returned
   * record holds in legacy mode always, and in dynamic mode exactly when
   * the fitted scale is at least the floor.
   */
  lemma ResolveRangeIff(p: ScaleProps, sqrt: real -> real)
    ensures var r := ResolveScale(p, sqrt);
      (r.minScale <= r.scale <= r.maxScale) <==> (!UsesDynamicFit(p) || r.scale >= UNIVERSAL_MIN_SCALE)
  {
  }
}
