# Arrow modifier of a popper positioning library, in Dafny

This project models the `arrow` modifier of a floating-element positioning library. The
modifier runs in the pipeline's `main` phase, after `popperOffsets` has written the popper's
offsets. It does the following:

- It resolves the arrow (caret) element. The element is either a handle or a CSS selector
  looked up inside the popper. The default selector is `[data-popper-arrow]`.
- It does nothing when the selector matches nothing or the element is not inside the popper.
- Otherwise it records the element in `state.elements.arrow`.
- It picks an axis and a dimension (`len`) from the placement's base side.
- It shifts the arrow from the popper's middle to the reference's middle. It does this only
  when the popper is longer than the reference along that axis.
- It clamps the offset so the arrow stays inside the popper.
- It stores `{ [axis]: center }` in `state.modifiersData.arrow`.

Layout:

- `wrappers.dfy`: `Option`.
- `placements.dfy`: placement tokens, the base side, the main axis and `len`.
- `geometry.dfy`: rectangles, scroll totals, `within`, and the centring arithmetic over `real`.
- `arrow.dfy`: the rest of the modifier.
  - The browser calls are bundled in `Dom`, a record of functions supplied as input.
  - The state the modifier touches is a `PositioningState` value.
  - `ArrowStep` is the specification function.
  - The mutable `State` class is updated by the method `Arrow`. `Arrow` is proved to leave
    the state equal to `ArrowStep` of its old value and to return the same object.

Assumptions, because the helper bodies are not part of this model:

- `within(lo, v, hi)` is `max(lo, min(v, hi))`.
- `getBasePlacement` is `token.split('-')[0]`.
- `getMainAxisFromPlacement` is `x` for top and bottom and `y` for left and right.

## Model

| member | source | states |
|---|---|---|
| `Placements.BeforeFirstDash` | src/modifiers/arrow.js:38 | the base part of a token is a dash-free prefix of it, ending at the first dash when there is one |
| `Placements.BeforeFirstDashOfJoin` | src/modifiers/arrow.js:38 | splitting `side-variation` at the first dash gives back the side token |
| `Placements.GetBasePlacement` | src/modifiers/arrow.js:38 | the base side of a placement is the side named by its token's part before the first dash |
| `Placements.LenOfPlacement` | src/modifiers/arrow.js:38-41 | `len` is height exactly when the base is left or right; it is height exactly when the axis is y; the axis is "x" exactly for top and bottom |
| `Geometry.Within` | src/modifiers/arrow.js:78-82 | the clamp lands in [lo, hi] when that is non-empty, keeps a value already inside, and yields lo when hi < lo or v <= lo |
| `Geometry.CenterToReference` | src/modifiers/arrow.js:54-69 | the correction is 0 when the popper is not longer than the reference; otherwise it is the distance from the popper's middle to the reference's middle, less the scroll |
| `Geometry.Center` | src/modifiers/arrow.js:71-82 | the stored offset keeps the arrow inside the popper when it fits, equals the raw centre when that already fits, and is 0 when the arrow is longer than the popper |
| `Geometry.NotLongerCentersOnPopper` | src/modifiers/arrow.js:64-74 | with the popper not longer than the reference the correction is 0 and the raw centre is popper/2 - arrow/2, the arrow's middle on the popper's middle |
| `Geometry.LongerCentersOnReference` | src/modifiers/arrow.js:54-74 | with the popper longer than the reference the unclamped arrow's middle lies on the reference's middle, less the scroll |
| `Geometry.UnclampedArrowPointsAtReference` | src/modifiers/arrow.js:54-82 | when the clamp does not bite, the stored arrow points at the reference's middle, less the scroll |
| `Geometry.CenterIsTranslationInvariant` | src/modifiers/arrow.js:54-82 | moving reference and popper together leaves the stored offset unchanged |
| `ArrowModifier.EffectiveElement` | src/modifiers/arrow.js:14 | an omitted `element` option becomes the selector `[data-popper-arrow]`; a given one is kept |
| `ArrowModifier.LookUpArrowElement` | src/modifiers/arrow.js:14-23 | a selector, the default one included, is looked up inside the popper; a handle is used as given |
| `ArrowModifier.ArrowStep` | src/modifiers/arrow.js:13-89 | placement, measures, reference and popper elements, and every modifiersData entry except `arrow` are unchanged, and the popper offsets stay available |
| `ArrowModifier.DefaultSelectorIsUsed` | src/modifiers/arrow.js:14-18 | with the option omitted the popper is queried with `[data-popper-arrow]` |
| `ArrowModifier.SelectorMissIsNoOp` | src/modifiers/arrow.js:17-22 | a selector that matches nothing inside the popper leaves the whole state unchanged |
| `ArrowModifier.NotContainedIsNoOp` | src/modifiers/arrow.js:25-33 | an element the popper does not contain leaves the whole state unchanged, both arrow slots included |
| `ArrowModifier.SuccessWritesArrowSlots` | src/modifiers/arrow.js:35-86 | on success `elements.arrow` is the element and `modifiersData.arrow` is a one-key record whose key is the axis ("x" exactly for top and bottom) and whose value is the clamped centre |
| `ArrowModifier.StoredCenterInsidePopper` | src/modifiers/arrow.js:76-86 | on success the stored value lies in [0, popper[len] - arrow[len]] when the arrow fits, and equals the unclamped centre when that already lies there |
| `ArrowModifier.ArrowStepIsIdempotent` | src/modifiers/arrow.js:13-89 | a second run on the first run's output changes nothing |
| `ArrowModifier.Arrow` | src/modifiers/arrow.js:13-89 | the method returns the state object it was given, and that object's new fields are `ArrowStep` of the old ones |
| `ArrowModifier.BottomScenarioCenter` | src/modifiers/arrow.js:54-86 | for a bottom placement with a 20-wide arrow and no scroll, the stored record is `{ x: center }` of the projected geometry |
| `ArrowModifier.WiderPopperScenario` | src/modifiers/arrow.js:54-86 | a 200-wide popper under a 100-wide reference, offset -50: the output is `{ x: 90 }` |
| `ArrowModifier.EqualWidthScenario` | src/modifiers/arrow.js:54-86 | popper and reference both 100 wide: no correction, and the output is `{ x: 40 }` |

## Left out

- The browser calls are inputs in `Dom`: `querySelector`, `contains`, `getElementClientRect`
  with `addClientRectMargins`, and `getCommonTotalScroll` with `unwrapVirtualElement`. Their
  bodies are browser I/O. The model does not know that a selector match is a descendant of the
  popper, nor that an element contains itself.
- `state.scrollParents` is not modelled. It is used only to compute the common scroll totals,
  and those are an input.
- The development-only `console.error` on a containment failure is not modelled. It has no
  effect on the state.
- IEEE doubles are not modelled: no rounding, NaN or infinities. The geometry is over exact reals.
- The `auto`, `auto-start` and `auto-end` placements are not modelled. The model assumes that
  a placement is one of the twelve side tokens, four sides times three alignments. The modifier
  itself does not check this: it passes `state.placement` straight to `getBasePlacement`. Its
  behaviour on an `auto` token is not modelled either: `isVertical` would be false, so `len`
  would be `width`. `LenOfPlacement` is proved only for the twelve side tokens.
- Dom: the selector lookup is modelled as a total function that returns an element or nothing.
  In a browser, `querySelector` throws a `SyntaxError` on an invalid selector such as `"["` or
  `""`, and then `arrow` throws instead of returning the state. That exception path is not
  modelled.
- Arrow: `state.elements` and `state.modifiersData` are values held in fields of `State`, and
  the method replaces them. The source changes those sub-objects in place. So another holder of
  the same `elements` or `modifiersData` object would see the write in the source but not in
  this model. The model does not capture that aliasing.
- The registration object (`enabled`, `phase: 'main'`, `requires: ['popperOffsets']`) is kept
  only as the constant `Descriptor`. The pipeline's ordering is not modelled. The requirement
  that the popper offsets exist (`OffsetsReady`) stands for the declared dependency.
- The other fields of the positioning state (styles, attributes, options, ordered modifiers)
  are not modelled. The modifier neither reads nor writes them.
- Other modifiers' entries in `modifiersData` are opaque values. They are only carried along.
