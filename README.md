# Zoomable space images, labels and hand gestures in Dafny

This project models the logic of a React browser application for looking at space images. The logic comes in three pieces:

- **The zoomable image screen.** A view transform (a scale and a pan offset) is driven by the mouse wheel, drag-to-pan, double-click and the Zoom In / Zoom Out / Reset buttons. A double-click turns the clicked point into a label position normalised to the container (the box the image is shown in). A small context menu edits or removes a label.
- **The label service.** It keeps an ordered list of labels `{text, position}` and writes the whole list to the browser's key-value storage under the key `cosmozoom-labels` after every change.
- **The gesture screen's per-frame handler.** It sorts the detected hands by their "Right"/"Left" tag. The overlay object follows the right index fingertip, and its scale follows the left thumb-to-pinky span. The overlay is drawn centred on the object's position. The overlay image is first shrunk so that its longer side is at most 200 px.

Files:

- `wrappers.dfy` — `Option`.
- `geometry.dfy` — points, rectangles and `Clamp`.
- `text.dfy` — JavaScript's `String.prototype.trim`.
- `label_store.dfy` — the label list and the `LabelService` class.
- `image_view.dfy` — the view transform, the placement of labels, the dialogs and the `ZoomableImageScreen` class.
- `gesture.dfy` — hand classification, the span-to-scale rule, the overlay rectangle and size, and the `GestureControl` class.

Each component's state is a class whose handlers are methods with `modifies` frames:

- React `useState` values and `useRef` refs become fields.
- The browser's storage entry is the ghost field `LabelService.persisted`.

Each method is stated against pure functions on the state (`ZoomAt`, `Placement`, `Spliced`, `Edited`, `TaggedHand`, `SpanScale`, `OverlayRect`, …). The properties are proved about those functions:

- the zoom keeps the image point under the cursor fixed;
- a label is placed exactly when the click falls inside the container's box as transformed on screen, and it is drawn back at the click;
- deleting the last label undoes adding it;
- the last tagged hand wins;
- the scale rule is characterised without square roots;
- the resized overlay fits in 200 × 200.

Some inputs come from outside the model and are parameters:

- the container rectangle;
- the answers to `prompt` and `confirm`;
- the canvas size;
- the loaded overlay size;
- `Math.sqrt`.

Behaviours worth noting, each modelled as the code does it:

- **Hand classification:** the last matching handedness entry wins, and an entry past the end of the landmark list yields no hand but still overwrites the earlier one.
- **`deleteLabel` with a negative index:** it deletes counting from the end, as `splice` does.
- **`deleteLabel` with an index past the end:** it removes nothing but still saves.
- **Margins beside the image:** positions are measured against the container, not the picture. The picture is only centred inside the container with a bounded size, so when its aspect ratio differs from the container's, a double-click in the empty margin beside it still places a label.

## Model

| member | source | states |
|---|---|---|
| Geometry.Clamp | src/components/ZoomableImageScreen.jsx:26 | `min(max(lo, v), hi)` lies in [lo, hi], is v when v is in range, and is the nearer bound otherwise |
| Text.Trim | src/components/ZoomableImageScreen.jsx:82-83 | the trimmed text is empty exactly when the input is all ECMAScript white space; otherwise it neither starts nor ends with white space |
| Text.TrimCutsOnlyWhiteSpace | src/components/ZoomableImageScreen.jsx:82-83 | the trimmed text is a contiguous slice of the input, and only white space lies before and after it |
| Text.TrimIdempotent | src/components/ZoomableImageScreen.jsx:82-83 | trimming twice is trimming once |
| LabelStore.Loaded | src/services/labelService.js:6-12 | a missing storage entry loads as the empty list; a present one loads as the stored list |
| LabelStore.RemovedAt | src/services/labelService.js:29-31 | removing entry i shortens the list by one, keeps the entries before i, shifts the later ones down, and removes exactly that one label from the multiset |
| LabelStore.SpliceStart | src/services/labelService.js:30 | `splice`'s start: a negative index counts back from the end and stops at 0, and an index past the end stops at the length |
| LabelStore.Spliced | src/services/labelService.js:29-31 | an index in range removes that entry, an index past the end removes nothing, and a negative index removes the entry counted from the end |
| LabelStore.Edited | src/services/labelService.js:34-39 | an existing entry gets the new text at the same position and every other entry is unchanged; an absent index changes nothing |
| LabelStore.DeleteUndoesAdd | src/services/labelService.js:24-31 | adding a label and then deleting the last index gives back the original list |
| LabelStore.EditUndoesEdit | src/services/labelService.js:34-39 | editing an entry back to its former text gives back the original list |
| LabelStore.DeleteThenEditExample | src/services/labelService.js:29-39 | A, B, C, then delete 1 gives A, C; then edit 0 to "Z" gives Z, C; deleting index 3 changes nothing |
| LabelStore.LabelService.constructor | src/services/labelService.js:2-12 | the list is what storage holds, or empty when nothing is stored |
| LabelStore.LabelService.SaveLabels | src/services/labelService.js:14-18 | the storage entry becomes the whole current list |
| LabelStore.LabelService.GetLabels | src/services/labelService.js:20-22 | returns the list, which equals the stored list whenever one is stored |
| LabelStore.LabelService.AddLabelAtPosition | src/services/labelService.js:24-27 | appends `{text, position}` and saves; storage and memory stay in agreement |
| LabelStore.LabelService.DeleteLabel | src/services/labelService.js:29-32 | the list becomes its `splice(index, 1)` and is saved, also when nothing was removed |
| LabelStore.LabelService.EditLabel | src/services/labelService.js:34-39 | an existing entry's text is replaced and the list is saved; an absent index changes neither the list nor storage |
| LabelStore.LabelService.ClearLabels | src/services/labelService.js:41-44 | the list and the stored entry both become empty |
| ImageView.ToScreen | src/components/ZoomableImageScreen.jsx:147-148 | under `translate(offset) scale(s)` with origin `0 0`, the image's corner appears at the container's corner plus the offset, and at scale 1 every image point is only shifted by the corner and the offset |
| ImageView.ToImage | src/components/ZoomableImageScreen.jsx:69-70 | at scale 1, the clicked image point is the click minus the container's corner and the offset; for any positive scale it inverts `ToScreen` (`ScreenImageRoundTrip`) |
| ImageView.ScreenImageRoundTrip | src/components/ZoomableImageScreen.jsx:147-148 | under a positive scale, screen-to-image and image-to-screen under the `translate(...) scale(...)` transform are inverse to each other |
| ImageView.WheelScale | src/components/ZoomableImageScreen.jsx:25-26 | the new scale is `scale * (1 - 0.0015 * deltaY)` when that lies in [0.1, 10], and the nearer bound otherwise; so a zero deltaY keeps an in-range scale, scrolling down never zooms in and scrolling up never zooms out |
| ImageView.ZoomTo | src/components/ZoomableImageScreen.jsx:22-31 | rescaling about the cursor gives exactly the requested scale, and rescaling to the current scale changes nothing |
| ImageView.ZoomAt | src/components/ZoomableImageScreen.jsx:19-35 | the wheel's new transform has the wheel scale `WheelScale(scale, deltaY)`, within the bounds |
| ImageView.ZoomToKeepsCursorAnchor | src/components/ZoomableImageScreen.jsx:28-31 | rescaling the offset by the cursor offset times `ratio - 1` keeps the image point under the cursor fixed, for any positive new scale |
| ImageView.ZoomKeepsCursorAnchor | src/components/ZoomableImageScreen.jsx:19-35 | a wheel zoom, clamped or not, keeps the image point under the cursor fixed |
| ImageView.ZoomWithoutDeltaIsIdentity | src/components/ZoomableImageScreen.jsx:19-35 | a wheel event with zero deltaY leaves an in-range view unchanged |
| ImageView.ZoomedIn | src/components/ZoomableImageScreen.jsx:129 | Zoom In adds exactly 0.5 when that stays at most 10 and gives 10 otherwise; an in-range scale stays in bounds and never decreases |
| ImageView.ZoomedOut | src/components/ZoomableImageScreen.jsx:130 | Zoom Out subtracts exactly 0.5 when that stays at least 0.1 and gives 0.1 otherwise; an in-range scale stays in bounds and never increases |
| ImageView.ZoomButtonsAreInverse | src/components/ZoomableImageScreen.jsx:129-130 | away from the bounds, Zoom Out undoes Zoom In and Zoom In undoes Zoom Out |
| ImageView.PanAnchor | src/components/ZoomableImageScreen.jsx:41 | the recorded pan anchor plus the current offset is the cursor at the press |
| ImageView.PanFollowsCursor | src/components/ZoomableImageScreen.jsx:38-50 | while dragging, the offset moves by exactly the cursor's displacement since the press, and returning the cursor to the press point restores the offset |
| ImageView.Placement | src/components/ZoomableImageScreen.jsx:63-78 | a placed label's position is normalised to [0, 1] × [0, 1]; a zero-sized container places nothing |
| ImageView.PlacementIffInsideView | src/components/ZoomableImageScreen.jsx:68-77 | a double-click places a label exactly when it falls inside the container's box as transformed on screen |
| ImageView.LabelAnchor | src/components/ZoomableImageScreen.jsx:159-160 | a label at `left: x*100%`, `top: y*100%` is anchored at the displayed container's top-left corner for (0, 0) and at its bottom-right corner for (1, 1) |
| ImageView.PlacementRendersAtCursor | src/components/ZoomableImageScreen.jsx:159-160 | a label placed by a double-click is anchored, at `left: x*100%` and `top: y*100%` under the same view, exactly at the click |
| ImageView.PlacementAtUnitScale | src/components/ZoomableImageScreen.jsx:68-77 | under the identity view, in a container at the origin, the normalised position is the click divided by the container's size, and it is placed exactly when it lies in [0, 1] × [0, 1] |
| ImageView.PlacementExample | src/components/ZoomableImageScreen.jsx:63-78 | in a 400 × 200 container at scale 1, a click at (100, 150) places (0.25, 0.75), and a click left of the box places nothing |
| ImageView.CounterScale | src/components/ZoomableImageScreen.jsx:161 | a label's `1/scale` exactly cancels the view's scale |
| ImageView.AddDialog | src/components/ZoomableImageScreen.jsx:80-85 | the prompt's answer becomes an add request exactly when it was given and is not blank; the request carries the trimmed, non-empty text and the clicked position |
| ImageView.EditDialog | src/components/ZoomableImageScreen.jsx:97-101 | the edit prompt's answer becomes an edit request exactly when it was given and is not blank; the request carries the trimmed, non-empty text and the index |
| ImageView.ZoomableImageScreen.constructor | src/components/ZoomableImageScreen.jsx:10-16 | scale 1, offset (0, 0), no selection, no menu, not panning |
| ImageView.ZoomableImageScreen.HandleWheel | src/components/ZoomableImageScreen.jsx:19-35 | the view becomes the wheel zoom of the old view, stays in bounds, and keeps the image point under the cursor |
| ImageView.ZoomableImageScreen.HandleMouseDown | src/components/ZoomableImageScreen.jsx:38-41 | only the primary button starts a pan; it records the cursor relative to the offset |
| ImageView.ZoomableImageScreen.HandleMouseMove | src/components/ZoomableImageScreen.jsx:44-50 | while panning, the offset is the cursor minus the recorded anchor; otherwise it is unchanged |
| ImageView.ZoomableImageScreen.HandleMouseUp | src/components/ZoomableImageScreen.jsx:52-57 | the pan ends |
| ImageView.ZoomableImageScreen.HandleDoubleClick | src/components/ZoomableImageScreen.jsx:63-78 | with Shift, the view resets and nothing is requested; without it, the view is unchanged and an add request comes only from an in-box click with a non-blank answer |
| ImageView.ZoomableImageScreen.HandleLabelClick | src/components/ZoomableImageScreen.jsx:87-95 | the clicked label is selected and the menu opens at the click for its index |
| ImageView.ZoomableImageScreen.HandleEditLabel | src/components/ZoomableImageScreen.jsx:97-103 | forwards the edit dialog's request and always closes the menu |
| ImageView.ZoomableImageScreen.HandleRemoveLabel | src/components/ZoomableImageScreen.jsx:105-110 | requests removal only when confirmed and always closes the menu |
| ImageView.ZoomableImageScreen.HandleClickOutside | src/components/ZoomableImageScreen.jsx:120-124 | a click elsewhere closes the menu |
| ImageView.ZoomableImageScreen.ZoomIn | src/components/ZoomableImageScreen.jsx:129 | the scale becomes the Zoom In scale, in bounds and not smaller |
| ImageView.ZoomableImageScreen.ZoomOut | src/components/ZoomableImageScreen.jsx:130 | the scale becomes the Zoom Out scale, in bounds and not larger |
| ImageView.ZoomableImageScreen.ResetView | src/components/ZoomableImageScreen.jsx:112-117 | identity view, no selection, no menu |
| Gesture.HandConnections | src/components/GestureControl.jsx:93-99 | the skeleton has 20 edges, each joining two of the 21 landmarks |
| Gesture.Dots | src/components/GestureControl.jsx:75-79 | one dot per landmark |
| Gesture.SkeletonSegments | src/components/GestureControl.jsx:82-89 | one line per connection, each joining two of the hand's dots |
| Gesture.LastIndexOf | src/components/GestureControl.jsx:111-114 | the index found carries the tag and no later entry does; no index means no entry carries the tag |
| Gesture.HandAt | src/components/GestureControl.jsx:112-113 | `multiHandLandmarks[i]` is a hand exactly when i is in range, and then it is the i-th one |
| Gesture.TaggedHand | src/components/GestureControl.jsx:108-114 | the last entry carrying the tag decides the hand; no such entry means no hand; a hand found is one of the detected hands |
| Gesture.ClassifyHands | src/components/GestureControl.jsx:108-114 | the loop leaves the right hand and the left hand each of the last entry carrying its tag |
| Gesture.Fingertip | src/components/GestureControl.jsx:123-124 | the object's new position is one of the hand's drawn dots: the index fingertip in canvas pixels |
| Gesture.SquaredSpan | src/components/GestureControl.jsx:131-133 | the squared thumb-to-pinky pixel distance is never negative, so `Math.sqrt` of it is defined |
| Gesture.SpanScale | src/components/GestureControl.jsx:133-134 | the gesture scale always lies in [0.3, 3.0] |
| Gesture.SpanScaleBySquares | src/components/GestureControl.jsx:128-135 | the scale is 0.3 exactly when the span is at most 45 px and 3.0 exactly when it is at least 450 px; in between, 150 × scale is the span |
| Gesture.SquareMonotone | src/components/GestureControl.jsx:133 | for non-negative values, comparing them is comparing their squares, which is what lets the rule be stated without `Math.sqrt` |
| Gesture.CalibrationSpanGivesUnitScale | src/components/GestureControl.jsx:128-135 | a thumb-to-pinky span of 150 px on a 640 × 480 canvas gives scale 1 |
| Gesture.OverlayRect | src/components/GestureControl.jsx:138-143 | the overlay is drawn centred on the object, with the image's size times the scale |
| Gesture.ResizeFactor | src/components/GestureControl.jsx:19-20 | the factor lies in (0, 1], both sides times it fit in 200, and it is the largest such factor (it is 1, or one side lands exactly on 200) |
| Gesture.ResizedLength | src/components/GestureControl.jsx:22-23 | a side of the resized canvas is the side times the factor cut to an integer, and never longer than before |
| Gesture.ResizedSize | src/components/GestureControl.jsx:19-23 | the resized canvas has both sides at most 200 and at most the original, each the side times the one common factor cut to an integer |
| Gesture.CanvasLength | src/components/GestureControl.jsx:22-23 | assigning a length to a canvas side cuts it to the integer at or below it |
| Gesture.GestureControl.constructor | src/components/GestureControl.jsx:10-12 | the object starts at (320, 240) with scale 1 |
| Gesture.GestureControl.OnResults | src/components/GestureControl.jsx:101-144 | without landmarks nothing moves; the right hand's index tip becomes the position and the left hand's span the scale, each kept from before when that hand is absent; the overlay, when loaded, is drawn centred at the position |
| Gesture.GestureControl.FollowIndexTip | src/components/GestureControl.jsx:122-125 | the object moves to the index fingertip in canvas pixels |
| Gesture.GestureControl.ScaleToSpan | src/components/GestureControl.jsx:128-135 | the scale becomes the clamped span over 150 |
| Gesture.StickyPositionExample | src/components/GestureControl.jsx:107-125 | a right index tip at (0.25, 0.75) on 640 × 480 moves the object to (160, 360), and a following frame without hands leaves it there |

## Left out

- Rendering is not modelled: JSX, CSS, the cursor style (`grab`/`grabbing`/`default`), the scale read-out, and drawing the camera image, dots and skeleton on the canvas. The drawn geometry is stated as functions (`Dots`, `SkeletonSegments`, `OverlayRect`, `LabelAnchor`).
- The browser's storage and JSON encoding become the ghost field `persisted`. A stored entry that fails to parse is not modelled: `JSON.parse` would throw.
- The `typeof window` test in `loadLabels`/`saveLabels` is not modelled: the model always runs in a browser.
- Listener registration and removal are not modelled (`addEventListener`, `removeEventListener` and the `useEffect` clean-ups). The listeners' bodies are the `Handle*` methods.
- React state updates are modelled as taking effect at once. The stale closure in `handleMouseUp` (it reads the `scale` of the press) only affects the cursor style, which is left out.
- The MediaPipe hand detector, the camera, image loading, `toDataURL` and the window resize listener are not modelled. A frame is a parameter, and so are the canvas size and the loaded overlay size. A zero-sized resized image is represented only by the size it would have.
- Floating point: numbers are exact reals. NaN and Infinity appear only where the source relies on them: a zero container side in `Placement`, and a zero image side in `ResizeFactor`.
- `Math.sqrt` is a parameter. `IsSqrt` characterises it, and `SpanScaleBySquares` states the scale rule without it.
- Aliasing: `getLabels` returns the service's array itself, and `editLabel` mutates the shared label object. The model uses values, so these sharing effects are not captured.
- `selectedLabel === label` compares object identity. The model compares label values.
- `App.jsx`, `LandingPage.jsx`, `NavigatePage.jsx`, `AppDrawer.jsx` and `HomeScreenWrapper.jsx` are page shells and routing, which this model does not include.
- Gesture.GestureControl.OnResults: the frame must be well formed (21 landmarks per hand). A shorter landmark list would make the source read `undefined` and throw.
