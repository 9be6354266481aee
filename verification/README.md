# Live2D viewer: responsive scale resolver and index-page colour lookup

This project models two pieces of logic of the live2d-next viewer: the
responsive scale resolver and the index page's card styling.

- **The responsive scale resolver** (`useResponsiveScale`). It turns a canvas
  size into the record `{scale, minScale, maxScale, baseScale}`. If the model's
  bounding box is known, it computes an aspect-preserving fit (dynamic mode).
  Otherwise it uses a per-character table and square-root area scaling, clamped
  to the table's range (legacy mode). The model is in module `ScaleResolver`,
  in `scale_resolver.dfy`.
- **The index page's card styling** (`getColorClasses`). This is a colour-to-class
  lookup with a gray fallback. The page takes the first class of the result
  (the card border) and the third class (the play-button background) through
  `split(" ")`. The page also holds the table of nine character cards. The model
  is in module `IndexPage`, in `index_page.dfy`. `String.prototype.split` with a
  one-character separator, and indexing into its result, are modelled in module
  `JsSplit`, in `js_split.dfy`.

Modelling choices:

- JavaScript numbers are `real`.
- `Math.sqrt` is a parameter `sqrt: real -> real` of the legacy branch. The
  monotonicity lemma only assumes that it is non-negative and monotone on the
  non-negative reals (`IsMonotoneSqrt`).
- An omitted optional argument is `None`. A `number | undefined` is truthy when
  it is present and non-zero. `modelType || "hiyori"` also falls back on the
  empty string. The `fillRatio = 0.8` default applies only when the argument is
  omitted.
- Each entry of the colour lookup is written as `ClassString(hue)`: the hue's
  four classes `border-H-500 text-H-500 bg-H-500/10 hover:bg-H-500/20`,
  joined by single spaces. This is character for character the string literal
  the page spells out for that key. The gray default is `ClassString("gray")`.

Two points about what the code does and does not promise:

- One might expect `minScale <= scale <= maxScale` to hold always. In dynamic
  mode the 0.01 floor on `minScale` (use-responsive-scale.ts line 47) makes
  `minScale <= scale` hold exactly when `scale >= 0.01`, and `scale <= maxScale`
  holds exactly when `scale >= 0` (see `DynamicMinBelowScaleIff`,
  `DynamicScaleBelowMaxIff` and `ResolveRangeIff`). `DynamicFloorAboveScale`
  gives a concrete case: a 10×10 canvas with a 1000×1000 model.
- The code checks neither the fill ratio nor the canvas and model dimensions.
  The model takes any reals and puts positivity conditions only on the lemmas
  that need them.

## Model

| member | source | states |
|---|---|---|
| `ScaleResolver.UsesDynamicFit` | src/lib/use-responsive-scale.ts:39 | the dynamic branch is chosen only when both model dimensions are present and non-zero; a missing or zero dimension never chooses it |
| `ScaleResolver.FillRatio` | src/lib/use-responsive-scale.ts:36 | an omitted fill ratio becomes 0.8; a given one, including 0, is used as is |
| `ScaleResolver.ConfigKey` | src/lib/use-responsive-scale.ts:53 | a present, non-empty character name is used as the table key; a missing or empty one gives the key `hiyori` |
| `ScaleResolver.ConfigsValid` | src/lib/use-responsive-scale.ts:22-34 | every legacy table row has `0.01 <= minScale <= maxScale` and non-negative base scale and multiplier |
| `ScaleResolver.LookupConfig` | src/lib/use-responsive-scale.ts:53 | the looked-up row is always one of the table's rows, so it is a valid row |
| `ScaleResolver.LookupFallsBackToHiyori` | src/lib/use-responsive-scale.ts:53 | a missing, empty or unknown character name uses the `hiyori` row |
| `ScaleResolver.LookupKnown` | src/lib/use-responsive-scale.ts:53 | a known character name uses its own row |
| `ScaleResolver.FitScale` | src/lib/use-responsive-scale.ts:41-43 | the fitted scale is at most each per-axis ratio `canvas*fill/model` and equals one of them, so it is their minimum |
| `ScaleResolver.DynamicScale` | src/lib/use-responsive-scale.ts:41-50 | dynamic result: `scale` is the fit, `baseScale = scale`, `maxScale = 2*scale`, `minScale >= 0.01` and `minScale >= 0.1*scale`, and `minScale` is one of those two bounds |
| `ScaleResolver.DynamicMinBelowScaleIff` | src/lib/use-responsive-scale.ts:47 | in dynamic mode `minScale <= scale` holds if and only if `scale >= 0.01` |
| `ScaleResolver.DynamicFloorAboveScale` | src/lib/use-responsive-scale.ts:41-48 | a 10×10 canvas with a 1000×1000 model at the default fill gives `scale = 0.008 < minScale = 0.01` |
| `ScaleResolver.DynamicScaleBelowMaxIff` | src/lib/use-responsive-scale.ts:46-48 | in dynamic mode `scale <= maxScale` holds if and only if `scale >= 0` |
| `ScaleResolver.DynamicScalePositive` | src/lib/use-responsive-scale.ts:41-43 | positive canvas and model dimensions and a positive fill ratio give a positive scale |
| `ScaleResolver.DynamicHomogeneous` | src/lib/use-responsive-scale.ts:41-49 | multiplying both canvas dimensions by `k > 0` multiplies `scale`, `baseScale` and `maxScale` by `k` |
| `ScaleResolver.DynamicMonotoneInCanvas` | src/lib/use-responsive-scale.ts:41-43 | with a positive model box and non-negative fill, a canvas that is no smaller on either axis gives a scale that is no smaller |
| `ScaleResolver.Clamp` | src/lib/use-responsive-scale.ts:58 | `max(lo, min(hi, x))` lies in `[lo, hi]` when `lo <= hi`; it is `x` inside the range, `lo` below it and `hi` above it |
| `ScaleResolver.ClampMonotone` | src/lib/use-responsive-scale.ts:58 | clamping keeps order |
| `ScaleResolver.AreaRatio` | src/lib/use-responsive-scale.ts:54-56 | the ratio times the 1024×768 reference area is the canvas area, and it is non-negative for a non-negative area |
| `ScaleResolver.UnclampedLegacyScale` | src/lib/use-responsive-scale.ts:57 | at the reference area (with `sqrt(1) = 1`) the pre-clamp scale is `baseScale * responsiveMultiplier`; it is non-negative for a valid row and a non-negative square root |
| `ScaleResolver.LegacyScale` | src/lib/use-responsive-scale.ts:53-64 | legacy result: `scale` is the clamp of `baseScale * sqrt(area / (1024*768)) * responsiveMultiplier` into the row's `[minScale, maxScale]`, so it lies in the row's `[minScale, maxScale]` for any area and any `sqrt`; `minScale = max(row.minScale, 0.01)`; `maxScale` and `baseScale` are the row's; and `0.01 <= minScale <= scale <= maxScale` |
| `ScaleResolver.LegacyMonotoneInArea` | src/lib/use-responsive-scale.ts:54-58 | for a fixed character and a monotone, non-negative `sqrt`, the scale before the clamp and the clamped scale do not decrease as `canvasWidth*canvasHeight` grows |
| `ScaleResolver.ResolveScale` | src/lib/use-responsive-scale.ts:36-65 | the dynamic fit is taken exactly when both model dimensions are present and non-zero, so it never divides by zero; otherwise the legacy branch runs; `minScale >= 0.01` always; `minScale <= scale` holds exactly in legacy mode or when `scale >= 0.01` |
| `ScaleResolver.ResolveRangeIff` | src/lib/use-responsive-scale.ts:45-63 | the returned `minScale <= scale <= maxScale` holds exactly in legacy mode or when the dynamic scale is at least 0.01 |
| `JsSplit.Split` | src/app/page.tsx:116 | `split` on a one-character separator always yields at least one piece |
| `JsSplit.TokenAtJoin` | src/app/page.tsx:145 | indexing `split(sep)` of separator-free pieces joined by `sep` gives the `i`-th piece, and `undefined` past the last one |
| `JsSplit.SplitPiecesHaveNoSeparator` | src/app/page.tsx:116 | no piece contains the separator |
| `JsSplit.JoinSplit` | src/app/page.tsx:116 | joining the pieces with the separator gives back the original string |
| `JsSplit.SplitJoin` | src/app/page.tsx:116 | splitting inverts joining a non-empty list of separator-free pieces |
| `IndexPage.GetColorClasses` | src/app/page.tsx:80-92 | the result is never empty and is either a value of the map or the gray default |
| `IndexPage.ColorClassesShape` | src/app/page.tsx:81-91 | every result is the class string of the colour's hue: the colour itself for the eight keys, gray otherwise; hues contain no space |
| `IndexPage.FallbackExactlyForUnmapped` | src/app/page.tsx:91 | the gray default is returned if and only if the colour is not one of the eight keys |
| `IndexPage.MappedColorsDistinct` | src/app/page.tsx:81-90 | two different keys never share a class string |
| `IndexPage.ColorClassesSplit` | src/app/page.tsx:116 | splitting any result on spaces gives exactly the four classes of its hue |
| `IndexPage.CardBorderClass` | src/app/page.tsx:116 | the first space-separated class is defined, is `border-<hue>-500`, and starts with `border-` |
| `IndexPage.PlayButtonClass` | src/app/page.tsx:145 | the third space-separated class is defined, is `bg-<hue>-500/10`, and starts with `bg-` |
| `IndexPage.ModelColorsMapped` | src/app/page.tsx:5-78 | every card's colour is a key of the map, so every card border is `border-<colour>-500` and no card falls back to gray |
| `IndexPage.ModelPathsDistinct` | src/app/page.tsx:5-110 | there are nine cards (the header count), and their paths, which are the list keys, are pairwise distinct |

## Left out

- The React `useMemo` wrapper and its dependency list. The resolver is modelled as a plain function of its inputs.
- IEEE-754 behaviour: NaN (including `Math.sqrt` of a negative area and the falsiness of NaN), infinities and rounding. The exact value of `Math.sqrt` is left out too; it is a parameter.
- Keys inherited from `Object.prototype` (such as `"constructor"`) when looking up the scale table or the colour map. Both tables are modelled as plain maps.
- All JSX and markup of the index page. This includes the `models.map` and `features.map` rendering, the icons and the feature badges; they appear only as data in `MODELS`.
- The presentation components (buttons, labels, log, section, panel). The page layout's script injection, `stats.js` loading and animation-frame loop. The Pixi/Live2D loader and its device-pixel-ratio probe. The constants-only Live2D configuration. All of these are browser I/O, timing, or have no behaviour.
- Motion-group selection (explicit, random and contextual) and the ten-entry animation log. The character pages implement these separately and are not part of this model.
