# Canvas image drag — a Dafny model

This project models the core of a small React app that draws a few images on a
canvas and lets the user pick one up with the mouse, drag it and let it go.
Two parts of the app are modelled:

* the geometry and z-order helpers of `src/helpers.ts`: the inclusive
  point-in-image test, `clamp`, `sortImagesByZIndex` and `resetZIndexes`;
* the drag hook of `src/useCanvasDrag.ts`. Its shared state (the image list,
  the position record `imagePositions`, the held id `dragging` and the grab
  offset `offsetX`/`offsetY`) becomes the class `CanvasDrag.Canvas`. Each pointer
  handler becomes a method of it. The render step `drawImages` becomes a
  method that returns the list of canvas calls it makes: `Clear`, `Stroke` and
  `Draw`.

Coordinates are exact reals. `SCALE_FACTOR` is the exact rational 0.15 = 3/20.
An image is reduced to its intrinsic width and height. Handlers receive a
point already mapped to canvas coordinates, plus the canvas size `W x H`.

Files:

* `types.dfy` (module `Types`): `Position`, `ImageElement`, `CanvasImage`,
  `LoadedImage`, `Rect` and the scale constant, after `src/types.ts` and
  `src/constants.ts`.
* `helpers.dfy` (module `Helpers`): `src/helpers.ts`.
* `use_canvas_drag.dfy` (module `CanvasDrag`): `src/useCanvasDrag.ts`.

Behaviours of the code worth knowing when reading the model:

* A press picks the first image in load order whose scaled rectangle holds
  the pointer. Images are painted in that same order, so with two overlapping
  images the press takes the one painted underneath, not the topmost one. See
  `FirstHit` and `PressOnOverlapPicksEarlier`.
* The hook never reads `zIndex` and never calls `sortImagesByZIndex` or
  `resetZIndexes`: a grabbed image is not raised. The z-order helpers are
  modelled on their own, and no "promote on grab" property is stated for the
  hook.
* `clamp` with `min > max` is defined by the code: it returns `min`.
* `if (dragging)` is JavaScript truthiness: a held id that is the empty
  string counts as "not dragging" for the move handler (`Canvas.IsDragging`).
  The render step still compares ids with `===`, so that image is outlined.
* The press handler calls `isPointInImage(pos, img, x, y)` with four
  arguments. The helper takes `({ pos, img }, { x, y })`. As written, the call
  throws (`CanvasDrag.IsPointInImageAsCalled`, see Findings). The model uses the intended inclusive
  scaled-rectangle test, defined once (`Helpers.InScaledRect`) and shared by
  `isPointInImage` and the press handler.

## Model

| member | source | states |
|---|---|---|
| `Helpers.IsPointInImage` | src/helpers.ts:12-22 | a point hits an image exactly when `pos.x <= x <= pos.x + width*0.15` and `pos.y <= y <= pos.y + height*0.15`; all four edges are inclusive |
| `Helpers.Clamp` | src/helpers.ts:32-34 | with `min <= max` the result lies in `[min, max]`; with `min > max` it is `min`; a value already in range is returned unchanged; the result is always one of `min`, `max`, `value` |
| `Helpers.ClampIdempotent` | src/helpers.ts:33 | clamping twice equals clamping once |
| `Helpers.InsertByZIndex` | src/helpers.ts:86-88 | inserting into a list sorted by the comparator keeps it sorted, adds exactly that element and grows the length by one |
| `Helpers.SortImagesByZIndex` | src/helpers.ts:82-89 | the result is a permutation of the input (same multiset, same length), non-decreasing in `zIndex` when `ascending` (the default) and non-increasing otherwise; the input is a value and is left unchanged |
| `Helpers.SortForPromotion` | src/helpers.ts:102-105 | the in-place `sort` reorders the caller's array into a permutation of its old contents, ordered so that the promoted id ranks above every other id and other ties are broken by ascending `zIndex` |
| `Helpers.Renumber` | src/helpers.ts:106 | same length; element `i` has `zIndex == i`; id, image and position of each element are kept |
| `Helpers.ResetZIndexes` | src/helpers.ts:98-107 | the caller's array is permuted in place into promotion order, and the result is that array renumbered `0..n-1` |
| `Helpers.RenumberDense` | src/helpers.ts:106 | the `zIndex` values of the result are exactly `0..n-1`, with no gap and no repeat |
| `Helpers.PermutationKeepsUniqueIds` | src/helpers.ts:102-105 | reordering a list with unique ids keeps them unique |
| `Helpers.PromotedToTop` | src/helpers.ts:102-106 | with unique ids and `topImageId` present, the promoted image ends last (so it is renumbered `n-1`), no other image has that id, and all other images are in ascending order of their old `zIndex` |
| `Helpers.AbsentTopSortsByZIndex` | src/helpers.ts:103-104 | when no image has `topImageId`, the array ends sorted by ascending `zIndex` |
| `CanvasDrag.FirstHit` | src/useCanvasDrag.ts:77-85 | a press selects the first image, in load order, whose scaled rectangle holds the point; no earlier image is hit; no selection means no image is hit |
| `CanvasDrag.IndexOfId` | src/useCanvasDrag.ts:94 | `images.find` by id: the first index carrying the id, or none when no image has it |
| `CanvasDrag.PressOnOverlapPicksEarlier` | src/useCanvasDrag.ts:77-83 | when two images are both under the pointer, the press selects the one earlier in load order, which is painted below the other |
| `CanvasDrag.OffsetInvariance` | src/useCanvasDrag.ts:81-82 | with the grab offset `p - pos0`, a move to `p + d` that needs no clamping yields exactly `pos0 + d` |
| `CanvasDrag.ScanImages` | src/useCanvasDrag.ts:77-85 | the `for...of` scan with a given per-image call: a normal end with index `k` means the call accepted image `k` and rejected every earlier one; a normal end with no index means it rejected every image; a throw carries the exception of the first image whose call threw, all earlier calls having rejected |
| `CanvasDrag.IntendedScanIsFirstHit` | src/useCanvasDrag.ts:77-85 | with the intended inclusive scaled-rectangle call, the scan returns exactly `FirstHit` |
| `CanvasDrag.AsWrittenScanThrows` | src/useCanvasDrag.ts:79 | with the call as written, the scan throws if and only if there is at least one image |
| `CanvasDrag.MisCallCounterexample` | src/useCanvasDrag.ts:79 | one 200 x 200 image at (10, 10) and a press at (15, 15): the intended test picks it up, the call as written throws |
| `CanvasDrag.LayersDraws` | src/useCanvasDrag.ts:51-71 | the per-image calls contain one `drawImage` per image, in load order, at the image's position and scaled size |
| `CanvasDrag.LayersHighlight` | src/useCanvasDrag.ts:53-70 | every outline is immediately followed by the dragged image's draw and lies one unit outside it, in green with width 2; the dragged image's draw is always immediately preceded by an outline; no clear among them |
| `CanvasDrag.FrameClearsThenDraws` | src/useCanvasDrag.ts:48-71 | a repaint starts with the one full-canvas clear and has no other; then one draw per image in load order |
| `CanvasDrag.FrameHighlight` | src/useCanvasDrag.ts:53-70 | in a whole repaint, an outline appears only immediately before the dragged image's draw, sized `(pos - 1, scaled size + 2)`; with nothing held no outline appears |
| `CanvasDrag.Canvas.constructor` | src/useCanvasDrag.ts:39-46 | after loading, the record holds exactly the image ids, each with its starting position; nothing is held and the offset is zero |
| `CanvasDrag.Canvas.DrawImages` | src/useCanvasDrag.ts:48-72 | the paint calls issued by the loop are exactly the repaint `Frame` of the current state |
| `CanvasDrag.Canvas.HandleDragStart` | src/useCanvasDrag.ts:74-88 | on a hit, `dragging` becomes the first hit image's id and the offset becomes pointer minus its position; with no hit, `dragging` and the offset are unchanged; no position changes; a repaint follows |
| `CanvasDrag.Canvas.HandleDragging` | src/useCanvasDrag.ts:90-114 | while dragging, only the held id's position changes, to `(clamp(x - offsetX, 0, W - w*0.15), clamp(y - offsetY, 0, H - h*0.15))`, then a repaint; while not dragging (null or empty id) nothing changes and nothing is painted; positions stay on the canvas |
| `CanvasDrag.Canvas.HandleDragEnd` | src/useCanvasDrag.ts:116-119 | `dragging` becomes null, positions and offset are unchanged, a repaint follows; a second call changes nothing more |
| `CanvasDrag.Canvas.Dispatch` | src/useCanvasDrag.ts:121-124 | a press yields exactly the press handler's new `dragging`, offset and repaint with positions unchanged; a move keeps `dragging` and the offset, changes nothing and paints nothing when not dragging, and when dragging sets only the held id's position to the clamped target `DragTarget` (nothing moves if no image has that id) and repaints; release and leave set `dragging` to null, keep positions and the offset, and repaint; every event keeps every image on a canvas it fits on |
| `CanvasDrag.Canvas.HandleEvents` | src/useCanvasDrag.ts:99-108 | if every image fits the canvas and starts on it, every position stays in `[0, W - w*0.15] x [0, H - h*0.15]` across any sequence of events |
| `CanvasDrag.Canvas.GrabAndMove` | src/useCanvasDrag.ts:80-98 | a grab on an image with a non-empty id followed by a move of `d` that needs no clamping moves that image by exactly `d` and no other |

## Left out

- Asset loading (`new Image()`, `onload`, `Promise.all`, src/useCanvasDrag.ts:19-29) is asynchronous I/O. The constructor receives the loaded images.
- The canvas context lookup and its failure path (src/useCanvasDrag.ts:31-34) depend on the DOM.
- Canvas sizing from `window.innerHeight` and `ASPECT_RATIO` (src/useCanvasDrag.ts:36-37) depends on the DOM and on floating point. The size is a parameter `W, H` of each handler.
- `getRandomPosition` uses `Math.random`. The constructor takes the starting positions as a parameter. The property that they lie on the canvas is a precondition of `HandleEvents`.
- `getMousePosition` uses `getBoundingClientRect`. Handlers receive the mapped canvas point.
- React (`useRef`, `useEffect`) and `src/App.tsx` are framework glue. The four listeners are registered at src/useCanvasDrag.ts:121-124 and never removed: the effect returns no cleanup function. The model leaves registration out; `Dispatch` routes each event kind to its handler.
- `CanvasDrag.DragAndReleaseScenario` is a worked example, not a model of a source function: a 800 x 450 canvas, one 200 x 200 image at (10, 10), press at (15, 15), move to (100, 100), release; its assertions state that the image ends at (95, 95) and nothing is held.
- The first repaint after loading (src/useCanvasDrag.ts:126) is a call of `DrawImages` after construction, not a separate member.
- Canvas drawing itself is not modelled. The model covers only the calls issued. The `strokeStyle` and `lineWidth` assignments are folded into the `Stroke` command.
- `ImageHistory` (src/types.ts:13-16) is an unused type.
- IEEE-754 rounding and NaN are not modelled. Coordinates are exact reals, and `zIndex` is an integer.
- Duplicate image ids are not modelled. The constructor requires unique ids because the position record is keyed by id.
- Helpers.SortImagesByZIndex: its contract states sorted and permutation but not stability. The model's insertion keeps ties in input order, as `Array.prototype.sort` does, but no lemma says so.
- Helpers.ResetZIndexes: inherits the gap of `SortForPromotion`: its contract does not fix the order of non-promoted images with equal `zIndex`, which a stable `Array.prototype.sort` keeps in input order.
- Helpers.SortForPromotion: its contract states sorted and permutation but not stability. When two images share `topImageId`, the source comparator is inconsistent and the order is implementation-defined. The model orders such ties by `zIndex`.

## Findings

| source | as written | input that shows it | evidently intended | confidence | as-written member | corrected member |
|---|---|---|---|---|---|---|
| src/useCanvasDrag.ts:79 | `isPointInImage(pos, img, x, y)` is passed to a helper declared `({ pos, img }, { x, y })`. Its `pos` is read off a Position, so it is undefined, and `pos.x` throws a TypeError on the first image. No press can ever start a drag or repaint. | one 200 x 200 image at (10, 10), press at (15, 15) | `isPointInImage({ pos, img }, { x, y })`: the inclusive scaled-rectangle test | not executed; high (JavaScript destructuring semantics; the call is also a TypeScript type error) | `CanvasDrag.MisCallCounterexample` | `CanvasDrag.IntendedScanIsFirstHit` |
