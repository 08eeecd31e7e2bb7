/** The gesture half of the lasso tool: the pointer handlers that collect a
    freehand outline on the overlay, and the fill they hand the finished
    outline to. `fillPolygon` is asynchronous; it is split at its first
    `await` into `BeginFill` (what runs inside the pointer-up handler) and
    `RunFill` (the rest, with its `finally`), so that handlers running in
    between see the state the first half leaves. */
module LassoGesture {
  import opened Basics
  import opened LassoGeometry
  import opened EarlyInject
  import opened LassoFill

  /** The parts of a pointer event the handlers read. */
  datatype PointerInput = PointerInput(clientX: real, clientY: real, button: int)

  /** The overlay canvas's bounding rectangle origin and its canvas pixels
      per display pixel (`canvas.width / rect.width`, likewise for y). */
  datatype OverlayRect = OverlayRect(left: real, top: real, pixelsPerX: real, pixelsPerY: real)

  /** Fewest outline points that make a fill. */
  const MIN_POINTS: nat := 3

  /** The squared distance below which a move sample is noise. */
  const MIN_SQ_DIST: real := 4.0

  function SqDist(a: Point, b: Point): real
  {
    (b.x - a.x) * (b.x - a.x) + (b.y - a.y) * (b.y - a.y)
  }

  /** Every accepted point is at squared distance at least 4 from the one
      before it. */
  predicate Spaced(pts: seq<Point>)
  {
    forall k :: 0 < k < |pts| ==> SqDist(pts[k - 1], pts[k]) >= MIN_SQ_DIST
  }

  function Locate(e: PointerInput, rect: OverlayRect): Point
  {
    CanvasPoint(e.clientX, e.clientY, rect.left, rect.top, rect.pixelsPerX, rect.pixelsPerY)
  }

  /** The lasso tool's module state. `gate` is the page-wide blocking flag
      and synthetic-event set; `overlayShown` is whether the overlay is
      active; `bound` is whether `gameCanvas` and `overlay` are still set;
      `pending` is the outline handed to a fill that has not passed its
      first `await` yet. */
  class Lasso {
    const gate: InputGate
    var bound: bool
    var isActive: bool
    var isDrawing: bool
    var isFilling: bool
    var points: seq<Point>
    var overlayShown: bool
    var pending: Option<seq<Point>>

    /** The invariant the handlers keep: the blocking flag is up exactly
        while a fill is running, a fill runs exactly while an outline is
        pending, a gesture in progress has a first point and no fill under
        it, and there are no points outside a gesture. */
    ghost predicate Valid()
      reads this, gate
    {
      && gate.Valid()
      && gate.blocking == isFilling
      && (isFilling <==> pending.Some?)
      && (pending.Some? ==> |pending.value| >= MIN_POINTS && Spaced(pending.value))
      && (isDrawing ==> isActive && !isFilling && |points| >= 1)
      && (!isDrawing ==> points == [])
      && Spaced(points)
    }

    /** The module as loaded: inactive, no gesture, no fill, and not yet
        bound to a canvas. */
    constructor (gate: InputGate)
      requires gate.Valid() && !gate.blocking
      ensures this.gate == gate && Valid()
      ensures !bound && !isActive && !isDrawing && !isFilling && !overlayShown
      ensures points == [] && pending == None
    {
      this.gate := gate;
      bound := false;
      isActive := false;
      isDrawing := false;
      isFilling := false;
      points := [];
      overlayShown := false;
      pending := None;
    }

    /** `init`: the tool is bound to the game canvas, overlay and color
        picker; nothing else changes. */
    method Init()
      requires Valid()
      modifies this
      ensures Valid() && bound
      ensures isActive == old(isActive) && isDrawing == old(isDrawing) && isFilling == old(isFilling)
      ensures points == old(points) && pending == old(pending) && overlayShown == old(overlayShown)
    {
      bound := true;
    }

    /** `activate`: the tool and its overlay come on; nothing else changes. */
    method Activate()
      requires Valid()
      modifies this
      ensures Valid() && isActive && overlayShown
      ensures isDrawing == old(isDrawing) && isFilling == old(isFilling)
      ensures points == old(points) && pending == old(pending) && bound == old(bound)
    {
      isActive := true;
      overlayShown := true;
    }

    /** `deactivate`: the tool goes off and any gesture in progress is
        dropped. A fill already running is not stopped. */
    method Deactivate()
      requires Valid()
      modifies this
      ensures Valid()
      ensures !isActive && !isDrawing && points == [] && !overlayShown
      ensures isFilling == old(isFilling) && pending == old(pending) && bound == old(bound)
    {
      isActive := false;
      isDrawing := false;
      points := [];
      overlayShown := false;
    }

    /** `onPointerDown`: ignored unless the tool is active, the button is
        the primary one and no fill is running; otherwise a fresh gesture
        of the one point under the pointer. */
    method OnPointerDown(e: PointerInput, rect: OverlayRect)
      requires Valid()
      modifies this
      ensures Valid()
      ensures if old(isActive) && e.button == 0 && !old(isFilling)
        then isDrawing && points == [Locate(e, rect)]
        else isDrawing == old(isDrawing) && points == old(points)
      ensures isActive == old(isActive) && isFilling == old(isFilling)
      ensures pending == old(pending) && overlayShown == old(overlayShown) && bound == old(bound)
    {
      if !isActive || e.button != 0 || isFilling {
        return;
      }
      isDrawing := true;
      points := [];
      var pt := Locate(e, rect);
      points := points + [pt];
    }

    /** `onPointerMove`: during a gesture, the point under the pointer is
        appended when it is at squared distance 4 or more from the last
        one; otherwise nothing changes. */
    method OnPointerMove(e: PointerInput, rect: OverlayRect)
      requires Valid()
      modifies this
      ensures Valid()
      ensures isDrawing == old(isDrawing)
      ensures var pt := Locate(e, rect);
        if old(isDrawing) && SqDist(old(points)[|old(points)| - 1], pt) >= MIN_SQ_DIST
        then points == old(points) + [pt]
        else points == old(points)
      ensures isActive == old(isActive) && isFilling == old(isFilling)
      ensures pending == old(pending) && overlayShown == old(overlayShown) && bound == old(bound)
    {
      if !isDrawing {
        return;
      }
      var pt := Locate(e, rect);
      var last := points[|points| - 1];
      var dx := pt.x - last.x;
      var dy := pt.y - last.y;
      if dx * dx + dy * dy < MIN_SQ_DIST {
        return;
      }
      points := points + [pt];
    }

    /** `onPointerUp` (also bound to `pointerleave`): ends a gesture. An
        outline of fewer than 3 points is dropped; a longer one starts a
        fill. Either way no points are left. */
    method OnPointerUp()
      requires Valid()
      modifies this, gate
      ensures Valid()
      ensures !isDrawing && points == []
      ensures old(isDrawing) && |old(points)| >= MIN_POINTS
        ==> isFilling && pending == Some(old(points)) && gate.blocking && !overlayShown
      ensures !(old(isDrawing) && |old(points)| >= MIN_POINTS)
        ==> isFilling == old(isFilling) && pending == old(pending) && overlayShown == old(overlayShown)
      ensures isActive == old(isActive) && bound == old(bound)
      ensures gate.nextId == old(gate.nextId) && gate.synthetic == old(gate.synthetic)
    {
      if !isDrawing {
        return;
      }
      isDrawing := false;
      if |points| < MIN_POINTS {
        points := [];
        return;
      }
      // `fillPolygon([...points])` runs on a copy, and its first half does
      // not read `points`, so clearing the buffer first changes nothing.
      var outline := points;
      points := [];
      BeginFill(outline);
    }

    /** The part of `fillPolygon` before its first `await`: the fill is
        marked running, the overlay is hidden and real input is blocked. */
    method BeginFill(poly: seq<Point>)
      requires Valid() && !isFilling && |poly| >= MIN_POINTS && Spaced(poly)
      requires !isDrawing
      modifies this, gate
      ensures Valid()
      ensures isFilling && pending == Some(poly) && gate.blocking && !overlayShown
      ensures isActive == old(isActive) && isDrawing == old(isDrawing) && points == old(points) && bound == old(bound)
      ensures gate.nextId == old(gate.nextId) && gate.synthetic == old(gate.synthetic)
    {
      isFilling := true;
      pending := Some(poly);
      overlayShown := false;
      gate.blocking := true;
    }

    /** The rest of `fillPolygon`: the pending outline is rasterised and
        replayed as synthetic events; `failAt` is the position of the
        dispatch that throws, if any (one at or past the end of the plan
        means none does), and a tool whose canvas was released by `destroy`
        meanwhile throws on its first dispatch. The `finally` always lowers
        the blocking flag, re-shows the overlay if the tool is still active
        and ends the fill. */
    method RunFill(view: Viewport, failAt: nat) returns (sent: seq<MouseEvent>, completed: bool)
      requires Valid() && isFilling
      modifies this, gate
      ensures Valid()
      ensures !isFilling && !gate.blocking && pending == None
      ensures overlayShown == (old(overlayShown) || old(isActive))
      ensures var plan := FillPlan(Rasterize(old(pending).value, SCANLINE_STEP));
        var limit := if old(bound) then failAt else 0;
        (completed <==> limit >= |plan|)
        && |sent| == (if completed then |plan| else limit)
        && forall k :: 0 <= k < |sent| ==> sent[k] == SyntheticEvent(plan[k], view, old(gate.nextId) + k)
      ensures gate.nextId == old(gate.nextId) + |sent|
      ensures gate.synthetic == old(gate.synthetic) + IdsFrom(old(gate.nextId), |sent|)
      ensures isActive == old(isActive) && isDrawing == old(isDrawing) && points == old(points) && bound == old(bound)
    {
      var poly := pending.value;
      var limit := if bound then failAt else 0;
      sent, completed := DispatchFill(poly, gate, view, limit);
      // finally
      gate.blocking := false;
      if isActive {
        overlayShown := true;
      }
      isFilling := false;
      pending := None;
    }

    /** `destroy`: deactivation, then the canvas and overlay are released. */
    method Destroy()
      requires Valid()
      modifies this
      ensures Valid()
      ensures !bound && !isActive && !isDrawing && points == [] && !overlayShown
      ensures isFilling == old(isFilling) && pending == old(pending)
    {
      Deactivate();
      bound := false;
    }
  }

  /** While a fill is running (from the pointer-up that starts it until
      its `finally`), a real mouse event never reaches a wrapped drawing
      listener. */
  lemma FillBlocksRealInput(l: Lasso, reg: Registration, e: MouseEvent)
    requires l.Valid() && l.isFilling
    requires reg.wrapped && e.eventType == reg.eventType && e.isTrusted
    ensures Deliver(reg, e, l.gate.blocking, l.gate.synthetic) == []
  {
  }

  /** Outside a fill, real input reaches the listeners unchanged. */
  lemma IdleDeliversRealInput(l: Lasso, reg: Registration, e: MouseEvent)
    requires l.Valid() && !l.isFilling
    requires e.eventType == reg.eventType && e.isTrusted
    ensures Deliver(reg, e, l.gate.blocking, l.gate.synthetic) == [e]
  {
  }
}
