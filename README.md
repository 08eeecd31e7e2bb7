# GarticLasso in Dafny

GarticLasso is a browser extension that adds two drawing tools to the
Gartic Phone drawing page:

- **Lasso fill.** The user draws a freehand closed outline on an overlay
  canvas. When the pointer is released, the outline is rasterised into
  horizontal spans 8 pixels apart. The spans are then replayed into the game
  as one continuous stroke of synthetic `mousedown` / `mousemove` /
  `mouseup` events: a back-and-forth walk over every span, in moves of at
  most 12 pixels.
- **Tapered brush.** A freehand stroke is painted straight onto the game
  canvas as a chain of round stamps. The stamp width follows pen pressure
  or, without pressure, the pointer's speed.

The game only accepts trusted events. An interception layer, installed
before the page, wraps every function listener registered for `mousedown`,
`mousemove` or `mouseup` (a handler object is passed through unwrapped)
so that:

- events the extension created reach the listener as trusted;
- while a fill is replaying, real input is dropped before it reaches the
  game's listeners (it is not queued or replayed later).

A toolbar with one button per tool and the keyboard shortcuts `L`, `T` and
`Escape` selects the active tool. The content script sets everything up
when the page shows a drawing canvas (the largest canvas wider and taller
than 100 pixels) and tears it down when the canvas goes away.

The model has one module per source file:

- `EarlyInject` (`early-inject.js`): the listener wrapper, as a pure
  delivery policy, and the page-wide `InputGate`, a class holding the
  blocking flag and the set of synthetic event identities.
- `LassoGeometry` (`rasterizePolygon` in `lasso-tool.js`): the scanline
  fill, as functions, and the loops of the source, as methods proved
  against them.
- `LassoFill` (`fillPolygon`, `dispatchMouseEvent`): the event plan of a
  fill, as a function, and the dispatch loops, as methods over the gate.
  A dispatch that throws is modelled by the index of the failing dispatch.
- `LassoGesture` (the lasso's pointer handlers): a `Lasso` class.
  `fillPolygon` is split at its first `await` into `BeginFill` and
  `RunFill`.
- `TaperedBrush` (`tapered-brush.js`): width, smoothing and stamp
  functions, and a `Brush` class. `painted` records the stamps drawn on
  the game canvas.
- `ToolbarUi` (`toolbar.js`): a `Toolbar` class whose buttons and active
  tool stay consistent with the tools' own state.
- `Content` (`content.js`): the canvas search, and an `Extension` class
  that owns the tools and runs the observer's decision step.
- `Basics`: shared arithmetic helpers and `Option`.

Three things the code does not do, and the model therefore does not
either:

- It does not guarantee `x1 <= x2` for a span.
  `LassoGeometry.SliverSpanInverted` gives a polygon whose only span is
  `x1 = 4, x2 = 3`.
- It does not quantise the brush width into segments or ramp the width at
  either end of a stroke. The brush paints directly on the game canvas,
  and its "tapered end" is a single stamp of radius 0.5.
- It does not wrap listener removal. Only `addEventListener` is replaced,
  so there is no listener-to-wrapper table.

## Model

| member | source | states |
|---|---|---|
| EarlyInject.AddEventListener | early-inject.js:15-41 | the registration keeps the type and listener; it is wrapped exactly when the type is one of the three drawing mouse events and the listener is a function |
| EarlyInject.Intercept | early-inject.js:19-37 | the listener is skipped exactly when the event is trusted and blocking is on; otherwise it gets the event unchanged except `isTrusted`, which reads true exactly when the event is real or in the synthetic set |
| EarlyInject.Deliver | early-inject.js:15-41 | per registration, the listener is called at most once per event; an unwrapped listener always gets the event itself; a wrapped one gets nothing exactly when the event is real and blocking is on |
| EarlyInject.TrustedBlocked | early-inject.js:20-23 | while blocking, a real event never reaches a wrapped listener |
| EarlyInject.SyntheticDeliveredAsTrusted | early-inject.js:25-35 | a registered synthetic event reaches the listener as the same event reading trusted, blocking or not |
| EarlyInject.OthersUnchanged | early-inject.js:36-40 | real events while not blocking, and untrusted events the extension did not create, are delivered unchanged |
| EarlyInject.BlockingAloneDecides | early-inject.js:10-23 | a real event dispatched while blocking is on reaches no wrapped listener, and the same event dispatched with blocking off is delivered unchanged; a dropped event is not delivered later |
| EarlyInject.InputGate.constructor | early-inject.js:7-11 | the blocking flag starts false and the synthetic set empty |
| LassoGeometry.CrossingX | lasso-tool.js:232-234 | the interpolation never divides by zero on a crossing edge, and the crossing lies between the edge's end x values |
| LassoGeometry.HorizontalEdgeNeverCrosses | lasso-tool.js:232 | an edge with equal end y values never crosses a scanline |
| LassoGeometry.CrossesIffSidesDiffer | lasso-tool.js:232 | the half-open test holds exactly when the two ends lie on different sides of the scanline |
| LassoGeometry.EdgeCrossings | lasso-tool.js:227-236 | each edge contributes at most one crossing |
| LassoGeometry.EdgeCrossingsLength | lasso-tool.js:227-236 | the number of crossings is the number of crossing edges, the closing edge included |
| LassoGeometry.PathCrossingParity | lasso-tool.js:227-236 | along an open path the number of crossing edges is odd exactly when its two ends lie on different sides |
| LassoGeometry.CrossingCountEven | lasso-tool.js:227-240 | a closed polygon crosses every scanline an even number of times, so the pairing loop never drops a trailing crossing |
| LassoGeometry.SortAscendingCorrect | lasso-tool.js:238 | the numeric sort gives an ascending permutation of the crossings |
| LassoGeometry.MinY | lasso-tool.js:213-218 | the bound is at most every point's y and is attained |
| LassoGeometry.MaxY | lasso-tool.js:213-218 | the bound is at least every point's y and is attained |
| LassoGeometry.PolygonBounds | lasso-tool.js:213-218 | the bounds loop computes the least and greatest y |
| LassoGeometry.CollectCrossings | lasso-tool.js:224-236 | the edge loop collects the crossings of edges 0 .. n-1 in edge order, closing back to point 0 |
| LassoGeometry.PairCrossings | lasso-tool.js:240-246 | the pairing loop yields one span per consecutive pair, with the start rounded up and the end rounded down |
| LassoGeometry.ScanlineRow | lasso-tool.js:224-246 | one scanline's body gives the spans of its sorted, paired crossings |
| LassoGeometry.RasterizePolygon | lasso-tool.js:211-250 | the method returns the spans of scanlines ceil(minY), ceil(minY)+step, ... up to floor(maxY), and nothing for an empty list |
| LassoGeometry.PairSpansShape | lasso-tool.js:240-246 | k ascending crossings give k/2 spans built from consecutive pairs, and a span ends no later than the next one starts |
| LassoGeometry.ScanlinePairing | lasso-tool.js:223-246 | on every scanline each crossing is used, exactly twice as many crossings as spans; spans are the consecutive sorted pairs, in order along the line |
| LassoGeometry.RowsOnScanlines | lasso-tool.js:223-247 | every span lies on a scanline y0 + k*step within the range, and spans come in non-decreasing y |
| LassoGeometry.RasterizeScanlines | lasso-tool.js:220-247 | an empty outline gives no spans; otherwise every span lies on a scanline ceil(minY) + k*step within [ceil(minY), floor(maxY)], in non-decreasing y |
| LassoGeometry.TriangleExample | lasso-tool.js:211-250 | the triangle (0,0), (10,0), (5,10) at stride 8 gives the spans (0, 0..10) and (8, 4..6) |
| LassoGeometry.SliverSpanInverted | lasso-tool.js:243-244 | a thin sliver yields the inverted span x1 = 4, x2 = 3 |
| LassoFill.SubSteps | lasso-tool.js:297-299 | at least one sub-move, the sub-moves cover the distance in steps of at most 12 pixels, and no fewer would do |
| LassoFill.SubStepsIsCeiling | lasso-tool.js:299 | the integer form equals max(ceil(abs(dx) / 12), 1) |
| LassoFill.SubMoveSpacing | lasso-tool.js:300-303 | consecutive moves of a walk are at most 12 pixels apart |
| LassoFill.MoveWithinSpan | lasso-tool.js:300-303 | every move of a walk lies between the span's ends, and the last lands exactly on the far end |
| LassoFill.WalkMoves | lasso-tool.js:295-303 | a walk has at least two events, all of them moves on the span's scanline |
| LassoFill.WalkEnds | lasso-tool.js:290-303 | even spans are walked from x1 to x2 and odd spans from x2 to x1 |
| LassoFill.WalkBounded | lasso-tool.js:295-303 | every move of a walk stays within its span, and consecutive moves are at most 12 pixels apart |
| LassoFill.FillPlanShape | lasso-tool.js:283-311 | no spans give no events; otherwise one press at the first span's x1, then only moves (the first at the press position), then one release at the last span's x2 |
| LassoFill.ReleaseAfterLastMove | lasso-tool.js:310-311 | the release is on the last move's scanline, and at its x exactly when the span count is odd or the last span is one pixel wide |
| LassoFill.SyntheticEvent | lasso-tool.js:174-200 | a built event is untrusted, primary button, `buttons` 1 except 0 on release; page coordinates are client plus scroll; offsets are the canvas position |
| LassoFill.SyntheticEventRoundTrip | lasso-tool.js:175-179 | mapping a synthetic event's client position back through the inverse scale (as `canvasPoint` does) gives the canvas position it was built from |
| LassoFill.FillEventsDelivered | lasso-tool.js:202-207 | every registered event of a fill reaches a wrapped listener as trusted, even while real input is blocked |
| LassoFill.DispatchMouseEvent | lasso-tool.js:174-208 | builds the event with a fresh identity, adds it to the synthetic set before dispatching, leaves blocking alone, and the listener receives it reading trusted |
| LassoFill.DispatchSubMoves | lasso-tool.js:297-303 | the sub-move loop sends the planned moves `startX + dx * s/steps`, stopping at the dispatch that throws |
| LassoFill.DispatchWalk | lasso-tool.js:289-303 | one span's move to its start and its sub-moves, in plan order |
| LassoFill.DispatchWalks | lasso-tool.js:288-308 | the scanline loop sends every planned move in order, or stops exactly at the throwing dispatch |
| LassoFill.DispatchPlan | lasso-tool.js:285-311 | press, walks and release: the whole plan if nothing throws, otherwise exactly the events before the throwing one |
| LassoFill.DispatchFill | lasso-tool.js:279-311 | sent event k is the k-th event of the fill plan of the rasterised outline, with the next free identity, and is registered as synthetic; the fill completes exactly when no dispatch throws |
| LassoGesture.Lasso.constructor | lasso-tool.js:8-14 | inactive, no gesture, no fill, no points |
| LassoGesture.Lasso.Init | lasso-tool.js:23-29 | binds the tool and changes nothing else |
| LassoGesture.Lasso.Activate | lasso-tool.js:31-39 | the tool and overlay come on; gesture and fill are untouched |
| LassoGesture.Lasso.Deactivate | lasso-tool.js:41-52 | the tool goes off and the gesture is dropped; a running fill is not stopped |
| LassoGesture.Lasso.OnPointerDown | lasso-tool.js:54-64 | ignored unless active, primary button and not filling; otherwise a gesture of the one point under the pointer |
| LassoGesture.Lasso.OnPointerMove | lasso-tool.js:66-77 | the point is appended exactly when a gesture runs and the point is at squared distance 4 or more from the last one; otherwise nothing changes |
| LassoGesture.Lasso.OnPointerUp | lasso-tool.js:79-96 | ends a gesture; an outline of 3 or more points starts a fill of exactly those points (blocking on, overlay hidden); no points are left |
| LassoGesture.Lasso.BeginFill | lasso-tool.js:267-277 | the part before the first `await`: filling, outline pending, overlay hidden, real input blocked |
| LassoGesture.Lasso.RunFill | lasso-tool.js:277-319 | dispatches the plan of the pending outline (nothing once the canvas was released); always lowers blocking, ends the fill and re-shows the overlay exactly when the tool is active |
| LassoGesture.Lasso.Destroy | lasso-tool.js:322-327 | deactivation, then the tool is unbound; a running fill is untouched |
| LassoGesture.FillBlocksRealInput | lasso-tool.js:270-272 | while a fill runs, no real event reaches a wrapped drawing listener |
| LassoGesture.IdleDeliversRealInput | lasso-tool.js:313-315 | outside a fill, real input reaches listeners unchanged |
| TaperedBrush.Lerp | tapered-brush.js:184-186 | t = 0 gives a, t = 1 gives b, and t in [0, 1] stays between them |
| TaperedBrush.CalcWidth | tapered-brush.js:122-143 | a pressure in (0, 1) gives 1 + 15 * pressure, strictly inside (1, 16); otherwise fewer than two samples or zero elapsed time give 8.5, and else the width is the speed width of distance over elapsed time; with time moving forward every width is within [1, 16] |
| TaperedBrush.CalcWidthMonotone | tapered-brush.js:128-142 | without pressure, covering more distance in the same time never gives a wider stroke |
| TaperedBrush.CalcWidthExtremes | tapered-brush.js:136-142 | without pressure, a sample that has not moved gets width 16, and one moving at 12.5 px/ms or faster gets width 1 |
| TaperedBrush.VelocityWidthBounds | tapered-brush.js:138-142 | the speed width is within [1, 16] for any non-negative speed |
| TaperedBrush.VelocityWidthMonotone | tapered-brush.js:138-142 | faster is never wider |
| TaperedBrush.VelocityWidthExtremes | tapered-brush.js:138-142 | at rest the width is 16; from 12.5 px/ms on it is 1 |
| TaperedBrush.SmoothToward | tapered-brush.js:76-83 | the smoothed point lies between the previous smoothed point and the sample, and keeps the sample's width |
| TaperedBrush.StampSteps | tapered-brush.js:169 | at least one step, and steps of at most 2 pixels cover the segment |
| TaperedBrush.DrawSegment | tapered-brush.js:145-182 | the stamp loop paints exactly the segment's stamps: one at `to` for a segment under 0.5, otherwise steps 0 .. n of the interpolation |
| TaperedBrush.SegmentStampsEnds | tapered-brush.js:159-179 | stamp count is max(ceil(dist/2), 1) + 1, or 1 for a short segment; the last stamp is at `to` with half its width, and the first at `from` |
| TaperedBrush.SegmentStampRadii | tapered-brush.js:170-178 | every radius lies between the two ends' half widths |
| TaperedBrush.StampSpacing | tapered-brush.js:168-179 | consecutive stamps of a segment are at most 2 pixels apart |
| TaperedBrush.Brush.constructor | tapered-brush.js:8-17 | inactive, empty buffers, nothing painted |
| TaperedBrush.Brush.Init | tapered-brush.js:25-32 | binds the brush and changes nothing else |
| TaperedBrush.Brush.Activate | tapered-brush.js:34-42 | the brush and overlay come on; buffers and painting untouched |
| TaperedBrush.Brush.Deactivate | tapered-brush.js:44-55 | the stroke is abandoned and both buffers emptied; nothing is painted |
| TaperedBrush.Brush.OnPointerDown | tapered-brush.js:57-68 | ignored unless active with the primary button; otherwise both buffers restart with the one sample, at the pressure width or 8.5 |
| TaperedBrush.Brush.OnPointerMove | tapered-brush.js:70-92 | during a stroke one raw and one smoothed point are appended and exactly the segment from the previous smoothed point is painted, its length being the true distance; the stamps it paints are at most 2 pixels apart; the buffers stay in lock-step with widths in [1, 16] |
| TaperedBrush.AppendedStampsSpaced | tapered-brush.js:168-179 | the stamps a segment adds to the painting are at most 2 pixels apart |
| TaperedBrush.Brush.OnPointerUp | tapered-brush.js:94-108 | ends the stroke; with two or more smoothed points exactly one stamp of radius 0.5 at the last point is painted; buffers emptied |
| TaperedBrush.Brush.Destroy | tapered-brush.js:188-194 | deactivation, then the brush is unbound; the painting is kept |
| ToolbarUi.Toggled | toolbar.js:93-99 | toggling switches off the active tool and selects any other |
| ToolbarUi.ToggledTwice | toolbar.js:93-99 | toggling twice restores only an already active tool and otherwise leaves nothing active |
| ToolbarUi.KeyMap | toolbar.js:136-148 | key presses in INPUT or TEXTAREA do nothing; toggles only ever name the lasso or the brush |
| ToolbarUi.SingleListenerToggles | toolbar.js:137-142 | with one registered listener, `l` turns the lasso on, or off when it is on |
| ToolbarUi.DoubleListenerCancels | toolbar.js:136-149 | with two registered listeners, `l` never turns the lasso on |
| ToolbarUi.Toolbar.constructor | toolbar.js:8-11 | no toolbar, no tools, nothing active, no keyboard listener |
| ToolbarUi.Toolbar.Init | toolbar.js:28-41 | the two buttons, unmarked, with the tools recorded; one more keyboard listener |
| ToolbarUi.Toolbar.DeactivateAll | toolbar.js:123-134 | both tools off, nothing active, no button marked, buttons kept; the lasso's running fill and pending outline, the brush's painting and both bindings are kept |
| ToolbarUi.Toolbar.SetActiveTool | toolbar.js:101-117 | the tool becomes active, exactly its button is marked, and each tool is active exactly when it is the chosen one; the lasso's running fill and pending outline, the brush's painting and both bindings are kept |
| ToolbarUi.Toolbar.ToggleTool | toolbar.js:93-99 | the active tool becomes the toggled value, with the tools and buttons kept consistent; the lasso's running fill and pending outline, the brush's painting and both bindings are kept |
| ToolbarUi.Toolbar.HandleKey | toolbar.js:137-148 | one listener run applies the key's command; other keys change nothing; the lasso's running fill and pending outline, the brush's painting and both bindings are kept |
| ToolbarUi.Toolbar.KeyDown | toolbar.js:136-149 | a key press runs every registered listener in turn; the lasso's running fill and pending outline, the brush's painting and both bindings are kept |
| ToolbarUi.Toolbar.DestroyAsWritten | toolbar.js:182-190 | the toolbar is removed and tools forgotten and inactive, but the keyboard listener stays registered; the released tools keep a running fill, its pending outline, their bindings and the painting |
| ToolbarUi.Toolbar.Destroy | toolbar.js:182-190 | the same, and the keyboard listener is removed; the released tools keep a running fill, its pending outline, their bindings and the painting |
| ToolbarUi.ReinitAsWritten | toolbar.js:136-149 | init, destroy as written, init, then `l`: two listeners, and the lasso stays off |
| ToolbarUi.Reinit | toolbar.js:182-190 | the same with the listener removed on destroy: one listener, and `l` turns the lasso on |
| Content.FindDrawingCanvas | content.js:11-27 | none exactly when no canvas is over 100 pixels in both directions; otherwise a qualifying canvas of largest area, strictly larger than every qualifying canvas before it |
| Content.SmallOverNarrow | content.js:21 | a larger but narrow canvas loses to a smaller qualifying one |
| Content.FirstOfEquals | content.js:21 | of two qualifying canvases of equal area, the first wins |
| Content.Extension.constructor | content.js:7-9 | not initialized, the tools not yet set up |
| Content.Extension.InitExtension | content.js:29-47 | a no-op while initialized; otherwise the canvas is recorded and tools and toolbar are set up with nothing active; a running fill, its pending outline and the painting are kept |
| Content.Extension.Teardown | content.js:49-61 | a no-op unless initialized; otherwise the toolbar (with its `destroy` as written) and both tools are destroyed, nothing stays active, and the keyboard listener stays registered; a running fill, its pending outline and the painting are kept |
| Content.Extension.ObserverStep | content.js:64-71 | afterwards the extension is initialized exactly when a qualifying canvas exists; without a change of that flag nothing changes (the poll at content.js:76-83 runs the same step); setting up adds one keyboard listener with no tool active, and tearing down keeps the count; a running fill, its pending outline and the painting are kept |
| Content.Extension.InitialCheck | content.js:86-89 | the first check initializes exactly when a qualifying canvas exists; a running fill, its pending outline and the painting are kept |
| Content.ReappearingCanvas | content.js:64-71 | a canvas that appears, goes away and comes back leaves two keyboard listeners, and `l` then leaves the lasso off |

## Left out

- overlay.js and color-picker.js are not part of this model. The overlay
  is reduced to a per-tool `overlayShown` flag, and colors are not
  modelled.
- All drawing on the overlay is left out: the dashed "marching ants"
  preview, its animation frames, `showFillPreview` and the
  `.then(() => overlay.clear())` after a fill.
- Canvas context state (`save`, `restore`, `fillStyle`, `arc`) is left
  out. The brush's output is the `painted` stamp list.
- Numbers are exact reals, with no floating-point rounding. The infinite
  initial bounds of `rasterizePolygon` are replaced by the first point's y,
  which gives the same bounds on a non-empty outline.
- `Math.sqrt` results enter as parameters: `dist`, `sampleDist` and
  `segment`. `Brush.OnPointerMove` requires `sampleDist` and `segment` to
  be non-negative with their squares equal to the squared distances they
  measure, and `StampSpacing` requires the same of its `dist`.
  `CalcWidth`, `SegmentStamps` and `DrawSegment` accept any `dist`.
  `performance.now()` enters as the parameter `now`.
- The bounding rectangles enter as the records `OverlayRect` and
  `Viewport`.
- `setupBrushForFill`, which clicks the game's pen and largest size
  button, is left out. It changes only the page.
- The `console.log` calls are left out.
- The `window.__garticLassoEvents` existence check is left out: the
  interception layer always runs first.
- The `Proxy` / `Reflect` mechanics are left out. A delivered synthetic
  event is the same record with `isTrusted` true.
- Attaching and removing the pointer listeners in `activate` and
  `deactivate` is left out. The handlers are called directly, and their own
  guards give the same result when the tool is inactive.
- `setPointerCapture`, `makeDraggable`, `positionNearCanvas` and
  `getActiveTool` are left out.
- `tryInjectIntoToolbar` and `createFloatingToolbar` are not modelled
  separately. Both create the same two buttons.
- LassoGesture.Lasso.RunFill: the 50 ms wait and the 5 ms yield every six
  scanlines are not modelled as points where other handlers can run. Only
  the first `await` is a split point, and a `destroy` during the fill is
  captured only through the `bound` flag or `failAt`.
- LassoGesture.Lasso.RunFill: a throwing dispatch is modelled by the index
  `failAt` of the dispatch that throws, not by the cause. The rejected
  promise is not modelled either.
- TaperedBrush.Brush.OnPointerMove: requires `sampleDist` and `segment`
  to be the true lengths, and `now` to be no earlier than the previous
  sample. These are what `Math.sqrt` and `performance.now()` guarantee.
- The wrapper's loss of duplicate detection is left out. Each
  `addEventListener` call builds a fresh `wrappedListener`, so the same
  function registered twice for a drawing event is no longer recognised
  as a duplicate and runs twice per event. The model has no table of
  registrations; `EarlyInject.Deliver` speaks of one registration.
- ToolbarUi.Toolbar.SetActiveTool: requires the toolbar to be present.
  Without one, the source sets `activeTool` and then throws on the null
  `toolbarEl`.
- ToolbarUi.Toolbar.KeyDown: requires the toolbar to be present while a
  keyboard listener is registered. The stale listener that the as-written
  `destroy` leaves behind, pressed before the next `init`, is not
  modelled: it sets `activeTool` and then throws, as in the line above.

## Findings

| source | as written | input that shows it | evidently intended | confidence | as-written member | corrected member |
|---|---|---|---|---|---|---|
| toolbar.js:136-149 | `init` registers a document `keydown` listener every time, and `destroy` (toolbar.js:182-190) never removes it | init, destroy (the canvas goes away, content.js:49-61), init again (the canvas returns), then press `l` | one toggle per key press, so `l` turns the lasso on | not executed | Content.ReappearingCanvas | ToolbarUi.Reinit |

`ToolbarUi.DoubleListenerCancels` shows the as-written behaviour for every
starting state: with two listeners, `l` never turns the lasso on.
`ToolbarUi.SingleListenerToggles` shows the corrected one.
`ToolbarUi.Toolbar.DestroyAsWritten` keeps the listener count, and
`ToolbarUi.Toolbar.Destroy` clears it. `ToolbarUi.ReinitAsWritten` shows
the same sequence on the toolbar alone. `Content.Extension` calls the
`destroy` as written, because that is what `content.js` runs, so
`Content.ReappearingCanvas` shows the fault through the observer.
