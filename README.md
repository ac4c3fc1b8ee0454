# vue3-track, modelled in Dafny

vue3-track is a Vue plugin that tracks an element's position and its visibility
in the viewport or in a scroll container. On each scroll frame it reads the
element's bounding box. It then runs a per-axis overlap test against the
window's inner size, or against the container's box when a container is set.
It publishes `{top, left}` and `{vertical, horizontal}` and writes four CSS
custom properties on the element. Finally it calls the user's callback, if
one is configured. It has three entry points:

- the composable `useVueTrack`, which keeps reactive state and one scroll
  handler;
- the directive `VueTrackDirective`, which stores its container, handler and
  callback on the element;
- the plugin `VueTrackPlugin`, which registers the directive under a name and
  merges plugin defaults under each binding.

The model has one module per source file, plus three shared modules:

| file | module | models |
|---|---|---|
| types.dfy | `Types` | the records of src/types.ts, plus `Option`/`Result` and the geometry a frame reads |
| dom.dfy | `Dom` | the host: scroll targets, the page's listener table (`Registry`), the tracked `Element` |
| decimal.dfy | `Decimal` | `${n}px`: integer-to-decimal text, with a parser that reads it back |
| track.dfy | `Track` | what one recomputation publishes: the overlap test, the four CSS properties, the callback call |
| utils.dfy | `Utils` | `parseBinding` and `setCssProperty` |
| composable.dfy | `Composable` | `useVueTrack` as the class `Tracker` |
| directive.dfy | `Directive` | the directive's `mounted` / `beforeUnmount` and its own copy of the frame |
| plugin.dfy | `Plugin` | `install`, the name default and the `{...options, ...config}` merge |

Geometry is an already-read input, `Geometry(element, window, container)`.
Coordinates are integers. Each `getScrollContainer` lookup is a parameter
holding the target it returned at that moment (`found`), so a later lookup of
the same selector may find another container. `document.querySelector` is a
function parameter (`query`). The listener table maps
`(target, handler)` to the `passive` option. A second add of the same pair
changes nothing; a removal drops the pair. Each handler closure gets a fresh
id. A user callback is never run: each method returns the call it makes as an
`Invocation`.

The directive has no window fallback for a selector that matches nothing. It
stores `null` as the container and registers nothing. Its frame then reads
`innerHeight` of `null` and throws, which the model returns as
`Err(NullContainer)` (`Directive.Frame`).

The visibility test compares with strict inequalities on both sides. So with
a viewport of size 0 or less on an axis (a container box of zero height or
width), an element that straddles the viewport's position is still reported
visible, although it shares no pixel with the viewport
(`Track.EmptyViewportCountsStraddling`).

## Model

| member | source | states |
|---|---|---|
| `Decimal.NatToDecimal` | src/composable.ts:75-76 | the text of a pixel value is a non-empty digit string with no leading zero unless the value is 0 |
| `Decimal.NatToDecimalRoundTrip` | src/composable.ts:75-76 | reading the digits back gives the number written |
| `Decimal.IntToDecimal` | src/composable.ts:75-76 | the text starts with '-' exactly for negative values |
| `Decimal.IntToDecimalRoundTrip` | src/composable.ts:75-76 | parsing `String(n)` gives back `n`, for every integer |
| `Decimal.Px` | src/composable.ts:75-76 | the position value ends in "px" |
| `Decimal.PxRoundTrip` | src/directive.ts:74-75 | stripping "px" and parsing gives back the position |
| `Decimal.PxInjective` | src/directive.ts:74-75 | two positions give the same CSS text iff they are equal |
| `Dom.Added` | src/composable.ts:89 | registering adds exactly the pair; an existing pair keeps its options; a new one gets the given `passive` |
| `Dom.Removed` | src/composable.ts:93 | unregistering drops exactly the pair and leaves all others as they were |
| `Dom.RemovedUndoesAdded` | src/directive.ts:89-95 | removing a pair that was new restores the table |
| `Dom.Registry.NewHandler` | src/directive.ts:45 | a new handler closure is registered nowhere yet |
| `Dom.Registry.Add` | src/directive.ts:89 | `addEventListener` updates the table as `Added` says |
| `Dom.Registry.Remove` | src/directive.ts:95 | `removeEventListener` updates the table as `Removed` says |
| `Utils.ParseBinding` | src/utils.ts:18-29 | a string gives a selector-only config, a function a callback-only config, a non-null object itself, anything else the empty config |
| `Utils.ParseBindingIdempotent` | src/utils.ts:18-29 | normalising a normalised config returns it unchanged |
| `Utils.SelectorOnlyFromString` | src/utils.ts:19-23 | for a non-object value, a selector comes only from a string and a callback only from a function; offset and name are never set |
| `Utils.SetCssProperty` | src/utils.ts:38-40 | the named property gets the value; every other style property is unchanged |
| `Track.OffsetValue` | src/composable.ts:63 | a missing offset counts as 0 |
| `Track.AxisVisible` | src/composable.ts:64-65 | an element whose shifted start is at or past the viewport's end, or whose shifted end is at or before 0, is not visible |
| `Track.AxisVisibleIsOverlap` | src/composable.ts:64-65 | for positive sizes, visible iff the shifted element shares a pixel with `[0, extent)` |
| `Track.ZeroSizeOnlyStrictlyInside` | src/composable.ts:64 | a zero-size element is visible only strictly inside the viewport |
| `Track.EmptyViewportCountsStraddling` | src/composable.ts:63-65 | with a viewport of size 0 or less no pixel is shared, yet an element straddling the viewport's position is visible, e.g. start -10 and size 20 against extent 0 |
| `Track.OffsetIsShift` | src/composable.ts:63-65 | the offset acts as a shift of the element's start |
| `Track.Flag` | src/composable.ts:71-72 | the flag text is "1" iff the axis is visible and "0" iff not |
| `Track.TrackedStyle` | src/composable.ts:71-76 | the two flag properties get `Flag` of the vertical and horizontal visibility, the two position properties get `Px` of top and left; no other property changes; no key is dropped |
| `Track.TrackedStyleIdempotent` | src/composable.ts:71-76 | writing the same result twice leaves the style as writing it once |
| `Track.TrackedStyleDeterminesSnapshot` | src/directive.ts:70-75 | the four CSS values determine the published position and visibility |
| `Track.CallbackCall` | src/composable.ts:80-82 | the configured callback, and only it, is called iff one is configured, with exactly the published position and visibility |
| `Composable.ViewportOf` | src/composable.ts:52-61 | the window's inner size for the window, the container box's size for an element |
| `Composable.Frame` | src/composable.ts:45-68 | the published position is the box's top/left whatever the offset and container |
| `Composable.FrameIsOverlap` | src/composable.ts:45-68 | both flags are the overlap of the offset-shifted box with the chosen viewport |
| `Composable.PositionIgnoresViewport` | src/composable.ts:67 | configs, containers and window sizes do not affect the position |
| `Composable.InViewExample` | src/composable.ts:45-76 | a 50x50 box at (100, 200) in an 800x1200 window: visible both ways, "100px", "200px", "1", "1" |
| `Composable.AboveViewportExample` | src/composable.ts:64 | a box with top -200 and height 50 is not vertically visible |
| `Composable.Tracker.constructor` | src/composable.ts:33-37 | state starts at `{0,0}` / `{false,false}`; the container is what the setup-time lookup of the initial selector returned; nothing is registered |
| `Composable.Tracker.SetElement` | src/composable.ts:34 | the element ref takes the new value |
| `Composable.Tracker.Recompute` | src/composable.ts:40-83 | with no element nothing changes and no callback is made; otherwise state, style and callback carry the frame's result |
| `Composable.Tracker.AddListener` | src/composable.ts:87-90 | recomputes once, then registers the handler on the current container |
| `Composable.Tracker.RemoveListener` | src/composable.ts:92-94 | afterwards the handler is registered on no target |
| `Composable.Tracker.SetConfig` | src/composable.ts:96-104 | while the component is mounted, with auto-registration and a non-empty selector, the handler moves to the container the watch-time lookup returned and is registered there only; otherwise container and table are unchanged |
| `Composable.Tracker.Mounted` | src/composable.ts:107-109 | registers on the current container iff auto-registration is on |
| `Composable.Tracker.Unmounted` | src/composable.ts:111-113 | marks the component unmounted, which stops the config watch; with auto-registration, afterwards the handler is registered nowhere |
| `Composable.ConfigAfterUnmount` | src/composable.ts:96-113 | after an auto-registering tracker unmounts, a new config leaves the container alone and the handler registered nowhere |
| `Composable.RecomputeTwice` | src/composable.ts:45-82 | two recomputations with unchanged geometry and config make the same call and leave the state and style of one |
| `Directive.MountContainer` | src/directive.ts:33-35 | the window without a selector; otherwise the node `querySelector` returns, null exactly when the selector matches nothing |
| `Directive.Frame` | src/directive.ts:48-67 | a null container is an error; otherwise the position is the box's top/left |
| `Directive.CopiesAgree` | src/directive.ts:48-67 | for a non-null container the directive's frame equals the composable's |
| `Directive.HandleScroll` | src/directive.ts:45-81 | on error nothing is written; otherwise the style and the stored callback get the frame's result |
| `Directive.Mounted` | src/directive.ts:29-91 | with the normalised binding: stores container, callback and the captured config; takes a fresh handler id; warns iff a selector matches nothing; runs one frame; registers that handler passively only on a non-null container |
| `Directive.BeforeUnmount` | src/directive.ts:92-97 | unregisters iff both container and handler are set |
| `Directive.MountThenUnmount` | src/directive.ts:29-97 | mount followed by unmount leaves the listener table exactly as before |
| `Directive.ScrollAfterRebind` | src/directive.ts:30-38 | a new binding value assigned after mount does not reach the handler, which keeps the mount-time config and callback |
| `Plugin.DirectiveName` | src/plugin.ts:13 | the given name when it is non-empty, "track-scroll" otherwise; never empty |
| `Plugin.Pick` | src/plugin.ts:19 | a key present at the usage site wins; an absent one comes from the plugin |
| `Plugin.Merge` | src/plugin.ts:17-19 | every present usage key wins, every absent key comes from the options, `name` included; with no options the binding's config is unchanged |
| `Plugin.MergeIdempotent` | src/plugin.ts:19 | merging the same defaults again changes nothing |
| `Plugin.ShorthandBindingKeepsDefaults` | src/plugin.ts:17-19 | a string or function binding keeps the plugin's other keys |
| `Plugin.DirectiveSeesMergedConfig` | src/plugin.ts:19-21 | the directive's own normalisation returns the merged object unchanged |
| `Plugin.VueTrackDirective` | src/directive.ts:28-98 | the directive's hook set: its own `mounted` and `beforeUnmount` |
| `Plugin.App.Install` | src/plugin.ts:12-24 | registers under the chosen name the directive's hooks with `mounted` replaced; `beforeUnmount` stays the directive's |
| `Plugin.MergingMount` | src/plugin.ts:15-22 | overwrites the binding with the merged config; then every effect of the directive's `mounted` (container, callback, handler id, warning, registration, first frame) holds for exactly that config |
| `Plugin.BindingAfterMount` | src/plugin.ts:17-19 | the plain hook leaves the binding value alone; the merging hook leaves an object that normalises to the merge |
| `Plugin.RunMounted` | src/plugin.ts:13-22 | the binding value the hook leaves, and every effect of the directive's `mounted` for the plain directive's normalised binding or the installed one's merge |
| `Plugin.RunBeforeUnmount` | src/plugin.ts:14 | the one `beforeUnmount` there is unregisters as the directive's does |

## Left out

- `requestAnimationFrame` deferral and per-frame coalescing (src/composable.ts:41, src/directive.ts:46): a frame is a direct call (`Recompute`, `HandleScroll`).
- Vue reactivity and lifecycle (`watch`, `onMounted`, `onUnmounted`, refs): they are explicit method calls. `SetConfig` models each assignment of a new config object, which the watch sees until the component unmounts (`Tracker.unmounted`); watch flush timing is not modelled.
- DOM APIs: geometry is given as numbers, `querySelector` is a function parameter and `getScrollContainer` results are parameters, listeners are an abstract table. Listener options other than `passive`, the capture flag and other event types are not modelled.
- `getScrollContainer` is not part of this model. The model assumes it never returns null, so the composable's `currentContainer !== null` test (src/composable.ts:56) is not a separate case.
- `querySelector` throwing a SyntaxError on an invalid selector (for example "#"): `query` always returns a match or none, so the abort of the directive's `mounted` at src/directive.ts:34, before anything is stored, is not modelled.
- The `|| {top: 0, left: 0, width: 0, height: 0}` fallback (src/composable.ts:45-50) is not modelled: `getBoundingClientRect` always returns a box, so the fallback is never taken.
- JavaScript numbers: coordinates and offsets are integers, so fractions, NaN (also mapped to 0 by `|| 0`) and -0 are out.
- Decimal.Px: writes plain decimal digits for every integer, while JavaScript writes magnitudes of 10^21 and above in exponent form.
- `console.warn` output: it is the boolean `warned` that `Directive.Mounted` returns.
- User callbacks that throw: the code does not handle them.
- The spread of a key present with value `undefined`: config keys are `Option`s and are merged by presence.
- Directive.ScrollAfterRebind: only a new binding value is modelled. Changing the fields of a config object in place is not: the directive's handler reads `config[OFFSET]` through the object it captured at mount (src/utils.ts:24-25, src/directive.ts:30,65), so such a change reaches it. Likewise the composable reads `configRef.value.offset` and `callback` at frame time (src/composable.ts:63,81), so an in-place change reaches it without `Composable.Tracker.SetConfig`, and the shallow watch does not fire for it.
- Build and entry files (vite configs, src/index.ts, src/main.ts), and the unused `_vueTrackRemoveListener` augmentation in src/types.ts.
