# Campus map widget: viewport and scene query

This project models the logic of the campus-map widget in
`src/components/CampusMap.jsx`. The widget draws a plan of campus buildings
inside one transformed layer. The user can pan the plan by dragging, zoom it
with buttons, narrow the buildings by a name search, and open a detail panel
by clicking a building.

The model has six modules:

- `Wrappers` (`wrappers.dfy`): the `Option` type, which stands for a value
  that may be `null` (the selected building).
- `Plane` (`plane.dfy`): points. It also has the CSS transform of the map
  layer, `translate(panX, panY) scale(scale)` with `transform-origin: 0 0`,
  given as a right-to-left transform list. Its lemmas tie that list to the
  affine map s ↦ pan + scale·s and to its inverse.
- `Text` (`text.dfy`): `toLowerCase` on ASCII letters. It also has `includes`,
  written as a left-to-right search and proved equal to "the needle occurs at
  some index".
- `Scene` (`scene.dfy`): the shape table as a tagged datatype with the cases
  `Rect`, `Triangle` and `Circle`. It also has `Array.prototype.filter`, with
  lemmas that it is an order-preserving selection, and the search predicate
  of the widget.
- `CampusMap` (`campus_map.dfy`): the widget state as the class `MapWidget`.
  The fields are `scale`, `panX`, `panY`, `isDragging`, the drag anchor
  `startPan`, `selectedBuilding` and `searchQuery`. Each handler is a method.
  Its `modifies` clause names only the fields the handler sets, so every other
  field provably stays the same. The object invariant `Valid()` keeps the
  scale within [MIN_SCALE, MAX_SCALE]. It also keeps the selection an entry
  of the table that is neither a triangle nor a circle. `Handle`
  dispatches one user action to the handler the markup wires it to; it
  accepts a click on any table entry, which is wider than what the markup
  sends (see "## Left out").
- `Scenarios` (`scenarios.dfy`): clients proved only from the handlers'
  contracts. These are the drag algebra over two calls, a replay of any
  sequence of actions, and sample entries of the table. The methods
  `PanZoomReset`, `ZoomOutToLimit`, `SearchVacant` and
  `SelectAndDismiss` walk through concrete sessions and carry their claims as assertions.

The constants match the code: MIN_SCALE = 0.5, MAX_SCALE = 3, ZOOM_STEP = 0.2.
Scale and pan are exact `real`s.

Three behaviours of the code worth noting:

- A click is refused by the shape's kind (`type` is `'triangle'` or
  `'circle'`), not by a separate "selectable" flag.
- The empty query keeps only shapes with a non-empty name: `b.name && …`
  rejects an empty name before the substring test. Every entry of the real
  table has a name.
- `handleBuildingClick` itself does not check that a clicked building is in
  the table. The markup guarantees it, because only drawn entries carry a
  click handler (lines 181 and 209). The model states this as a precondition
  of `BuildingClick` and `Handle`, and the object invariant keeps the
  selection an entry of the table.

## Model

| member | source | states |
|---|---|---|
| `Plane.ApplyList` | src/components/CampusMap.jsx:165 | definition: a CSS transform list acts right to left, the last function first; its meaning for the layer's list is fixed by `CssTransformIsAffine` |
| `Plane.ApplyTransform` | src/components/CampusMap.jsx:165-166 | definition: the list is applied in a frame centred on the transform origin; fixed for origin (0,0) by `CssTransformIsAffine` |
| `Plane.ToScreen` | src/components/CampusMap.jsx:165-166 | definition: the affine map s ↦ pan + scale·s; `CssTransformIsAffine` proves it is what the CSS transform draws, `FromScreen` and `ScreenRoundTrip` give its inverse |
| `Plane.CssTransformIsAffine` | src/components/CampusMap.jsx:165-166 | the layer transform `translate(pan) scale(scale)` about origin (0,0), applied right to left, sends scene point s to pan + scale·s |
| `Plane.FromScreen` | src/components/CampusMap.jsx:165-166 | for a non-zero scale, the point it returns is drawn exactly at the given screen point |
| `Plane.ScreenRoundTrip` | src/components/CampusMap.jsx:165-166 | reading back the scene point of a drawn point gives the original point, so the view map is invertible at every scale the widget allows |
| `Plane.OriginDrawnAtPan` | src/components/CampusMap.jsx:166 | with transform-origin 0 0, the scene origin is always drawn at the pan offset, whatever the scale |
| `Plane.ScreenDistance` | src/components/CampusMap.jsx:165 | screen distances are scene distances times the scale, independent of pan |
| `Plane.DragShiftsEveryPoint` | src/components/CampusMap.jsx:97-107 | after a drag from pointer p to pointer q (anchor p − pan, new pan q − anchor), every scene point is drawn shifted by exactly q − p |
| `Text.LowerChar` | src/components/CampusMap.jsx:121 | the result is never an upper-case letter; upper-case letters map to their lower-case letter; every other character is kept |
| `Text.Lower` | src/components/CampusMap.jsx:121 | keeps the length and lowers each character in place |
| `Text.LowerIdempotent` | src/components/CampusMap.jsx:121 | lowering a lowered string changes nothing |
| `Text.LowerOfLowerCase` | src/components/CampusMap.jsx:121 | a string with no upper-case letter is its own lower-cased form |
| `Text.Includes` | src/components/CampusMap.jsx:121 | definition: `includes` as a search from the left; its meaning is fixed by `IncludesIff` |
| `Text.IncludesIff` | src/components/CampusMap.jsx:121 | the `includes` search succeeds exactly when the needle occurs at some index of the string (both directions) |
| `Text.IncludesEmpty` | src/components/CampusMap.jsx:121 | every string includes the empty query |
| `Scene.Filter` | src/components/CampusMap.jsx:120-122 | the filtered list is no longer than the input and every element passes the test |
| `Scene.FilterIsOrderedSelection` | src/components/CampusMap.jsx:120-122 | the k-th drawn shape is the table entry at the k-th passing position; those positions strictly increase; a position is among them exactly when its entry passes. So the result is the passing entries, in table order, with their multiplicity |
| `Scene.FilterMembership` | src/components/CampusMap.jsx:120-122 | an element is in the result exactly when it is in the input and passes |
| `Scene.FilterConcat` | src/components/CampusMap.jsx:120-122 | filtering a concatenation is the concatenation of the filtered parts, so the filter never reorders |
| `Scene.FilterAgrees` | src/components/CampusMap.jsx:120-122 | two tests that agree on every element give the same result |
| `Scene.Selectable` | src/components/CampusMap.jsx:116 | definition: a shape is selectable unless it is a triangle or a circle; `MapWidget.BuildingClick` states its effect |
| `Scene.Matches` | src/components/CampusMap.jsx:121 | definition: the filter test, a non-empty name whose lowered form includes the lowered query; characterised by `FilterByNameMembership` and `MatchIgnoresCase` |
| `Scene.MatchesQuery` | src/components/CampusMap.jsx:120-122 | definition: the test as the function passed to `filter`; `FilterByNameKeeps` states what it keeps |
| `Scene.FilterByName` | src/components/CampusMap.jsx:120-122 | definition: `buildings.filter(test)`; its result is characterised by `FilterIsOrderedSelection`, `FilterByNameMembership` and `EmptyQueryKeepsNamed` |
| `Scene.FilterByNameMembership` | src/components/CampusMap.jsx:120-122 | a shape is drawn exactly when it is in the table, its name is non-empty, and its lower-cased name has the lower-cased query at some index |
| `Scene.FilterByNameKeeps` | src/components/CampusMap.jsx:120-122 | the membership rule, for every shape at once |
| `Scene.MatchIgnoresCase` | src/components/CampusMap.jsx:121 | lower-casing the name or the query beforehand does not change whether the shape matches |
| `Scene.EmptyQueryKeepsNamed` | src/components/CampusMap.jsx:120-122 | with the empty query, the drawn list is exactly the shapes with a non-empty name, in table order |
| `Scene.NamelessNeverDrawn` | src/components/CampusMap.jsx:121 | a shape with an empty name is never drawn, for any query |
| `CampusMap.ZoomedIn` | src/components/CampusMap.jsx:111 | the new scale never exceeds MAX_SCALE; it is one step up or MAX_SCALE, and exactly one step up when that fits; it never decreases an in-range scale; in range stays in range |
| `CampusMap.ZoomedOut` | src/components/CampusMap.jsx:112 | the new scale is never below MIN_SCALE; it is one step down or MIN_SCALE, and exactly one step down when that fits; it never increases an in-range scale; in range stays in range |
| `CampusMap.ZoomHeldAtLimits` | src/components/CampusMap.jsx:111-112 | zooming in at MAX_SCALE stays at MAX_SCALE; zooming out at MIN_SCALE stays at MIN_SCALE |
| `CampusMap.MapWidget.constructor` | src/components/CampusMap.jsx:5-11 | the mounted widget has scale 1, pan (0,0), no drag, anchor (0,0), no selection and an empty query, and satisfies the invariant |
| `CampusMap.MapWidget.MouseDown` | src/components/CampusMap.jsx:97-101 | the drag starts and the anchor is the pointer minus the current pan; only the drag flag and the anchor change |
| `CampusMap.MapWidget.MouseMove` | src/components/CampusMap.jsx:103-107 | during a drag the pan becomes pointer minus anchor; without a drag no state changes; only the pan may change |
| `CampusMap.MapWidget.MouseUp` | src/components/CampusMap.jsx:109 | the drag ends; only the drag flag changes. The same handler serves mouse-leave (line 161) |
| `CampusMap.MapWidget.ZoomIn` | src/components/CampusMap.jsx:111 | the scale becomes `ZoomedIn` of the old scale; pan, drag, anchor, selection and query are untouched; the scale invariant is kept |
| `CampusMap.MapWidget.ZoomOut` | src/components/CampusMap.jsx:112 | the scale becomes `ZoomedOut` of the old scale; nothing else changes; the scale invariant is kept |
| `CampusMap.MapWidget.ResetView` | src/components/CampusMap.jsx:113 | from any state, scale is 1 and pan is (0,0); the drag flag, anchor, selection and query are untouched |
| `CampusMap.MapWidget.BuildingClick` | src/components/CampusMap.jsx:115-118 | a triangle or circle leaves the selection as it was; any other shape becomes the selection, replacing the previous one even if it is the same shape; nothing else changes. A selectable shape must be a table entry, as the markup ensures (lines 181, 209) |
| `CampusMap.MapWidget.Dismiss` | src/components/CampusMap.jsx:344 | the selection becomes none; nothing else changes |
| `CampusMap.MapWidget.SetSearchQuery` | src/components/CampusMap.jsx:144 | the query becomes the typed text; nothing else changes |
| `CampusMap.MapWidget.Handle` | src/components/CampusMap.jsx:144-161 | dispatches each action to its handler, as wired at lines 144, 148, 158-161, 209, 300-314 and 344. A click must come from a table entry. The zoom buttons do nothing while disabled. The pan changes only by a move during a drag or by a reset. The scale changes only by zoom or reset. The drag flag changes only by a press, a release or a leave. The anchor changes only by a press. The selection changes only by a click or a close. The query changes only by typing. Each action's effect is stated |
| `CampusMap.MapWidget.FilteredBuildings` | src/components/CampusMap.jsx:120-122 | the drawn buildings are exactly the table entries that match the current query |
| `CampusMap.MapWidget.Transform` | src/components/CampusMap.jsx:165 | definition: the list `translate(panX, panY) scale(scale)` set on the layer; `ScreenPoint` proves where it draws each scene point |
| `CampusMap.MapWidget.ScreenPoint` | src/components/CampusMap.jsx:165-166 | the CSS transform of the layer draws scene point (x,y) at (panX + scale·x, panY + scale·y) |
| `Scenarios.DragGesture` | src/components/CampusMap.jsx:97-107 | after `MouseDown(p)` then `MouseMove(q)`, the pan is the old pan plus (q − p); scale and selection are unchanged |
| `Scenarios.IdentityDrag` | src/components/CampusMap.jsx:97-107 | `MouseMove(p)` right after `MouseDown(p)` leaves the pan unchanged |
| `Scenarios.MouseUpTwice` | src/components/CampusMap.jsx:109 | ending a drag twice ends it and changes nothing but the drag flag, the same whole state as ending it once |
| `Scenarios.Replay` | src/components/CampusMap.jsx:5-15 | after any sequence of user actions whose clicks are on table entries, the scale is still within [MIN_SCALE, MAX_SCALE]. With no drag in progress, a sequence without a pointer press or a reset leaves the pan where it was |
| `Scenarios.VacantLotMatchesVacant` | src/components/CampusMap.jsx:41 | the table entry "Open Space - Vacant Lot" matches the query "vacant" |
| `Scenarios.TreeMissesVacant` | src/components/CampusMap.jsx:49 | a tree, named "Tree", does not match "vacant" |
| `Scenarios.VacantSearch` | src/components/CampusMap.jsx:120-122 | searching the lot and a tree for "vacant" draws only the lot |
| `Scenarios.CanteenMatches` | src/components/CampusMap.jsx:69 | the entry named "Canteen" matches "canteen" and does not match "xyz" |
| `Scenarios.CanteenSearch` | src/components/CampusMap.jsx:69 | "canteen" finds the entry named "Canteen" and "xyz" finds nothing |

## Left out

- Rendering is not modelled. This covers the JSX and DOM markup, the SVG decoration (roads, guard house, campus text), styling classes, icons and the CSS transition (lines 124-356). These are presentation, not logic.
- React hook mechanics are not modelled: batching of state updates, `useCallback` memoisation and `useRef` identity. The state is plain fields, and each handler runs to completion before the next event.
- `e.preventDefault()` and other browser event plumbing are left out.
- Point-in-shape hit testing is left out. The browser finds which drawn shape was clicked; the model takes the clicked shape as the argument of `BuildingClick`. Only rectangle groups carry a click handler in the markup.
- The static table of buildings (lines 18-93) appears only through the four sample entries in `Scenarios`. The geometry fields (position, size, rotation, points, radius) are carried but play no part in the logic.
- Floating point is not modelled. Scale and pan are exact reals, so no claim concerns rounding. In particular, the model does not show where ten steps of 0.2 from 1.0 land in IEEE doubles.
- MapWidget.Handle: accepts a click on any entry of the table, including triangles, circles and entries the current search hides. The markup sends clicks only from drawn rectangles (lines 181-209). Requiring the entry to be drawn would tie a click to the query at that moment, and `BuildingClick` ignores triangles and circles anyway.
- Text.Lower: lowers only the ASCII letters A-Z. JavaScript's `toLowerCase` also folds all other Unicode letters, so two names that differ only in case outside ASCII are distinguished here.
- The "Get Directions" button (lines 348-351) is a stub without behaviour.
- The zoom percentage text (line 323) is display only.
- The drawing of the selected rectangle with a thicker outline (lines 219-220) is presentation.
