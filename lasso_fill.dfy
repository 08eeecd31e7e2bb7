/** The replay half of the lasso (`fillPolygon`, `dispatchMouseEvent`): the
    spans of the polygon become one continuous stroke of synthetic mouse
    events: a press at the start of the first span, a back-and-forth walk
    over every span in moves of at most 12 pixels, and a release at the end
    of the last span. */
module LassoFill {
  import opened Basics
  import opened LassoGeometry
  import opened EarlyInject

  /** Pixels between the scanlines of a fill. */
  const SCANLINE_STEP: int := 8

  /** Longest horizontal distance between two consecutive moves. */
  const MOVE_PX: real := 12.0

  /** One synthetic mouse event to dispatch: its type and its position in
      game-canvas pixels. */
  datatype Action = Action(eventType: string, x: real, y: real)

  /** Where the game canvas sits on screen: the origin of its bounding
      rectangle, the display size of one canvas pixel, and the page's scroll
      offsets. */
  datatype Viewport = Viewport(left: real, top: real, scaleX: real, scaleY: real, scrollX: real, scrollY: real)

  /** Span `i` is walked from `x1` to `x2` when `i` is even, backwards when
      it is odd. */
  function StartX(line: Span, i: nat): int
  {
    if i % 2 == 0 then line.x1 else line.x2
  }

  function EndX(line: Span, i: nat): int
  {
    if i % 2 == 0 then line.x2 else line.x1
  }

  /** The number of sub-moves that cover a horizontal distance `dx`: the
      fewest of at most `MOVE_PX` (12) pixels each, and never fewer than one.
      On an integer distance the rounded-up quotient is an integer
      division. */
  function SubSteps(dx: int): (n: nat)
    ensures n >= 1
    ensures -12 * n <= dx <= 12 * n
    ensures n == 1 || 12 * (n - 1) < (if dx < 0 then -dx else dx)
  {
    var a := if dx < 0 then -dx else dx;
    MaxInt((a + 11) / 12, 1)
  }

  /** `SubSteps` is `Math.max(Math.ceil(Math.abs(dx) / movePx), 1)`. */
  lemma SubStepsIsCeiling(dx: int)
    ensures SubSteps(dx) == MaxInt(Ceil(Abs(dx as real) / MOVE_PX), 1)
  {
    var a := if dx < 0 then -dx else dx;
    var q := (a + 11) / 12;
    var r := a as real / MOVE_PX;
    assert Abs(dx as real) == a as real;
    assert 12 * q - 11 <= a <= 12 * q;
    assert r * 12.0 == a as real;
    assert q as real - 1.0 < r <= q as real;
    var c := Ceil(r);
    assert c as real - 1.0 < r <= c as real;
    assert c == q;
  }

  /** The x of move `s` of a walk: move 0 goes to the start, move `s` of
      `1 .. n` to `startX + dx * s / n`. */
  function MoveX(startX: int, dx: int, n: nat, s: nat): real
    requires n >= 1
  {
    if s == 0 then startX as real else startX as real + dx as real * (s as real / n as real)
  }

  /** The first `k` moves over span `i`. */
  function WalkUpTo(line: Span, i: nat, k: nat): (w: seq<Action>)
    requires k <= SubSteps(EndX(line, i) - StartX(line, i)) + 1
    ensures |w| == k
  {
    if k == 0 then []
    else
      var sx := StartX(line, i);
      var dx := EndX(line, i) - sx;
      WalkUpTo(line, i, k - 1) + [Action("mousemove", MoveX(sx, dx, SubSteps(dx), k - 1), line.y as real)]
  }

  /** Move `s` of the first `k` moves is the one at `MoveX(.., s)`. */
  lemma {:induction false} WalkUpToAt(line: Span, i: nat, k: nat, s: nat)
    requires s < k <= SubSteps(EndX(line, i) - StartX(line, i)) + 1
    ensures var sx := StartX(line, i);
      var dx := EndX(line, i) - sx;
      WalkUpTo(line, i, k)[s] == Action("mousemove", MoveX(sx, dx, SubSteps(dx), s), line.y as real)
  {
    if s < k - 1 {
      WalkUpToAt(line, i, k - 1, s);
    }
  }

  /** The moves of span `i`: one to its start, then the sub-moves. */
  function Walk(line: Span, i: nat): seq<Action>
  {
    WalkUpTo(line, i, SubSteps(EndX(line, i) - StartX(line, i)) + 1)
  }

  /** The moves of spans 0 .. k-1, in order. */
  function Walks(lines: seq<Span>, k: nat): seq<Action>
    requires k <= |lines|
  {
    if k == 0 then [] else Walks(lines, k - 1) + Walk(lines[k - 1], k - 1)
  }

  /** Every event `fillPolygon` dispatches for a list of spans, in order. */
  function FillPlan(lines: seq<Span>): seq<Action>
  {
    if |lines| == 0 then []
    else
      var last := lines[|lines| - 1];
      [Action("mousedown", lines[0].x1 as real, lines[0].y as real)]
      + Walks(lines, |lines|)
      + [Action("mouseup", last.x2 as real, last.y as real)]
  }

  /** The moves of the first spans are a prefix of those of more spans. */
  lemma {:induction false} WalksPrefix(lines: seq<Span>, i: nat, k: nat)
    requires i <= k <= |lines|
    ensures Walks(lines, i) <= Walks(lines, k)
    decreases k
  {
    if i < k {
      WalksPrefix(lines, i, k - 1);
    }
  }

  /** Moves of a walk differ by `dx / n` in x, which is at most `MOVE_PX`. */
  lemma SubMoveSpacing(sx: int, dx: int, n: nat, s: nat)
    requires n >= 1 && s < n && -12 * n <= dx <= 12 * n
    ensures Abs(MoveX(sx, dx, n, s + 1) - MoveX(sx, dx, n, s)) <= MOVE_PX
  {
    var d, m := dx as real, n as real;
    assert (12 * n) as real == MOVE_PX * m;
    var u := d / m;
    ScaleQuotient(d, (s + 1) as real, m);
    ScaleQuotient(d, s as real, m);
    assert u * (s + 1) as real - u * s as real == u;
    assert MoveX(sx, dx, n, s + 1) - MoveX(sx, dx, n, s) == u;
    QuotientBound(d, m, MOVE_PX);
  }

  /** A move of a walk stays between the two ends of its span, and the last
      one lands on the far end. */
  lemma MoveWithinSpan(sx: int, ex: int, n: nat, s: nat)
    requires n >= 1 && s <= n
    ensures MinReal(sx as real, ex as real) <= MoveX(sx, ex - sx, n, s) <= MaxReal(sx as real, ex as real)
    ensures s == n ==> MoveX(sx, ex - sx, n, s) == ex as real
  {
    if s > 0 {
      UnitQuotient(s as real, n as real);
      ConvexCombination(sx as real, ex as real, s as real / n as real);
      assert (ex - sx) as real == ex as real - sx as real;
      if s == n {
        assert s as real / n as real == 1.0;
      }
    }
  }

  /** Move `s` of the walk over span `i`. */
  lemma WalkAt(line: Span, i: nat, s: nat)
    requires s <= SubSteps(EndX(line, i) - StartX(line, i))
    ensures |Walk(line, i)| == SubSteps(EndX(line, i) - StartX(line, i)) + 1
    ensures Walk(line, i)[s] == Action("mousemove", MoveX(StartX(line, i), EndX(line, i) - StartX(line, i), SubSteps(EndX(line, i) - StartX(line, i)), s), line.y as real)
  {
    WalkUpToAt(line, i, SubSteps(EndX(line, i) - StartX(line, i)) + 1, s);
  }

  /** Every event of a walk is a move on the span's scanline. */
  lemma WalkMoves(line: Span, i: nat)
    ensures |Walk(line, i)| >= 2
    ensures forall s :: 0 <= s < |Walk(line, i)| ==>
      Walk(line, i)[s].eventType == "mousemove" && Walk(line, i)[s].y == line.y as real
  {
    forall s | 0 <= s < |Walk(line, i)|
      ensures Walk(line, i)[s].eventType == "mousemove" && Walk(line, i)[s].y == line.y as real
    {
      WalkAt(line, i, s);
    }
  }

  /** The first move of span `i` lands on `x1` when `i` is even and on `x2`
      when it is odd; the last lands exactly on the other end. */
  lemma WalkEnds(line: Span, i: nat)
    ensures |Walk(line, i)| >= 2
    ensures Walk(line, i)[0].x == (if i % 2 == 0 then line.x1 else line.x2) as real
    ensures Walk(line, i)[|Walk(line, i)| - 1].x == (if i % 2 == 0 then line.x2 else line.x1) as real
  {
    var sx, ex := StartX(line, i), EndX(line, i);
    var n := SubSteps(ex - sx);
    WalkAt(line, i, 0);
    WalkAt(line, i, n);
    MoveWithinSpan(sx, ex, n, n);
  }

  /** Every move of a walk stays within its span, and consecutive moves are
      at most `MOVE_PX` apart. */
  lemma WalkBounded(line: Span, i: nat)
    ensures forall s :: 0 <= s < |Walk(line, i)| ==>
      MinReal(line.x1 as real, line.x2 as real) <= Walk(line, i)[s].x <= MaxReal(line.x1 as real, line.x2 as real)
    ensures forall s :: 0 <= s < |Walk(line, i)| - 1 ==> Abs(Walk(line, i)[s + 1].x - Walk(line, i)[s].x) <= MOVE_PX
  {
    var w := Walk(line, i);
    var sx, ex := StartX(line, i), EndX(line, i);
    var n := SubSteps(ex - sx);
    forall s | 0 <= s < |w|
      ensures MinReal(line.x1 as real, line.x2 as real) <= w[s].x <= MaxReal(line.x1 as real, line.x2 as real)
    {
      WalkAt(line, i, s);
      MoveWithinSpan(sx, ex, n, s);
    }
    forall s | 0 <= s < |w| - 1
      ensures Abs(w[s + 1].x - w[s].x) <= MOVE_PX
    {
      WalkAt(line, i, s);
      WalkAt(line, i, s + 1);
      SubMoveSpacing(sx, ex - sx, n, s);
    }
  }

  /** Sub-move `s` computed as `startX + dx * t` with `t = s / n`. */
  lemma SubMoveX(sx: int, dx: int, n: nat, s: nat, t: real)
    requires 1 <= s <= n && t == s as real / n as real
    ensures MoveX(sx, dx, n, s) == sx as real + dx as real * t
  {
  }

  /** Where each part of the plan sits: the press first, then the moves of
      span `i` after those of the spans before it, then the release. */
  lemma PlanAt(lines: seq<Span>, i: nat, j: nat)
    requires i < |lines| && j < |Walk(lines[i], i)|
    ensures |FillPlan(lines)| == |Walks(lines, |lines|)| + 2
    ensures 1 + |Walks(lines, i)| + j < |FillPlan(lines)| - 1
    ensures FillPlan(lines)[1 + |Walks(lines, i)| + j] == Walk(lines[i], i)[j]
  {
    WalksPrefix(lines, i + 1, |lines|);
    var all := Walks(lines, |lines|);
    assert Walks(lines, i + 1) == Walks(lines, i) + Walk(lines[i], i);
    assert all[|Walks(lines, i)| + j] == Walks(lines, i + 1)[|Walks(lines, i)| + j];
  }

  /** The shape of a fill: nothing for no spans; otherwise a press at the
      start of the first span, only moves, and a release at `x2` of the last
      span. The first move lands where the press was. */
  lemma FillPlanShape(lines: seq<Span>)
    ensures |lines| == 0 ==> FillPlan(lines) == []
    ensures |lines| > 0 ==>
      var plan := FillPlan(lines);
      var last := lines[|lines| - 1];
      |plan| == |Walks(lines, |lines|)| + 2 && |plan| >= 4
      && plan[0] == Action("mousedown", lines[0].x1 as real, lines[0].y as real)
      && plan[|plan| - 1] == Action("mouseup", last.x2 as real, last.y as real)
      && plan[1] == Action("mousemove", lines[0].x1 as real, lines[0].y as real)
      && (forall k :: 0 < k < |plan| - 1 ==> plan[k].eventType == "mousemove")
  {
    if |lines| > 0 {
      var plan := FillPlan(lines);
      WalkEnds(lines[0], 0);
      WalkMoves(lines[0], 0);
      PlanAt(lines, 0, 0);
      forall k | 0 < k < |plan| - 1
        ensures plan[k].eventType == "mousemove"
      {
        var i, j := WalkIndex(lines, k - 1);
        PlanAt(lines, i, j);
        WalkMoves(lines[i], i);
      }
    }
  }

  /** Locates position `p` of the moves among the spans' walks. */
  lemma WalkIndex(lines: seq<Span>, p: nat) returns (i: nat, j: nat)
    requires p < |Walks(lines, |lines|)|
    ensures i < |lines| && j < |Walk(lines[i], i)| && p == |Walks(lines, i)| + j
  {
    var k := |lines|;
    while p < |Walks(lines, k - 1)|
      invariant 0 < k <= |lines| && p < |Walks(lines, k)|
      decreases k
    {
      k := k - 1;
    }
    i, j := k - 1, p - |Walks(lines, k - 1)|;
  }

  /** The event `dispatchMouseEvent` builds for an action: untrusted,
      bubbling, cancelable, primary button, `buttons` 1 except on release;
      client coordinates from the canvas position, page coordinates the
      client ones plus scroll. */
  function SyntheticEvent(a: Action, view: Viewport, id: nat): (e: MouseEvent)
    ensures e.id == id && e.eventType == a.eventType && !e.isTrusted
    ensures e.buttons == (if a.eventType == "mouseup" then 0 else 1) && e.button == 0
    ensures e.pageX == e.clientX + view.scrollX && e.pageY == e.clientY + view.scrollY
    ensures e.offsetX == a.x && e.offsetY == a.y
  {
    var globalX := view.left + a.x * view.scaleX;
    var globalY := view.top + a.y * view.scaleY;
    MouseEvent(
      id, a.eventType, false, true, true,
      globalX, globalY,
      a.x, a.y,
      globalX + view.scrollX, globalY + view.scrollY,
      globalX, globalY,
      0.0, 0.0,
      0,
      if a.eventType == "mouseup" then 0 else 1)
  }

  /** `canvasPoint`: a client position mapped back to canvas pixels through
      a rectangle origin and canvas pixels per display pixel. */
  function CanvasPoint(clientX: real, clientY: real, left: real, top: real, pixelsPerX: real, pixelsPerY: real): Point
  {
    Point((clientX - left) * pixelsPerX, (clientY - top) * pixelsPerY)
  }

  /** Mapping a synthetic event back through a rectangle at the same place
      with the inverse scale gives the canvas position it was built from. */
  lemma SyntheticEventRoundTrip(a: Action, view: Viewport, id: nat, pixelsPerX: real, pixelsPerY: real)
    requires view.scaleX * pixelsPerX == 1.0 && view.scaleY * pixelsPerY == 1.0
    ensures var e := SyntheticEvent(a, view, id);
      CanvasPoint(e.clientX, e.clientY, view.left, view.top, pixelsPerX, pixelsPerY) == Point(a.x, a.y)
  {
    var e := SyntheticEvent(a, view, id);
    assert e.clientX - view.left == a.x * view.scaleX;
    assert (a.x * view.scaleX) * pixelsPerX == a.x * (view.scaleX * pixelsPerX);
    assert e.clientY - view.top == a.y * view.scaleY;
    assert (a.y * view.scaleY) * pixelsPerY == a.y * (view.scaleY * pixelsPerY);
  }

  /** The identities `id0 .. id0 + n - 1`. */
  function IdsFrom(id0: nat, n: nat): set<nat>
  {
    if n == 0 then {} else IdsFrom(id0, n - 1) + {id0 + n - 1}
  }

  /** `IdsFrom` holds exactly the identities in its range. */
  lemma {:induction false} IdsFromRange(id0: nat, n: nat)
    ensures forall k :: k in IdsFrom(id0, n) <==> id0 <= k < id0 + n
  {
    if n > 0 {
      IdsFromRange(id0, n - 1);
    }
  }

  /** Once the first `n` events of a plan are registered, each of them
      reaches a wrapped drawing listener as a view that reads trusted, even
      while real input is blocked. */
  lemma FillEventsDelivered(plan: seq<Action>, view: Viewport, id0: nat, s0: set<nat>, blocking: bool, n: nat, k: nat)
    requires k < n && k < |plan|
    ensures var e := SyntheticEvent(plan[k], view, id0 + k);
      Intercept(e, blocking, s0 + IdsFrom(id0, n)) == Some(e.(isTrusted := true))
  {
    IdsFromRange(id0, n);
  }

  /** `sent` holds the events built for the actions `acts`, in order, with
      identities `id0`, `id0 + 1`, ... */
  ghost predicate Built(sent: seq<MouseEvent>, acts: seq<Action>, view: Viewport, id0: nat)
  {
    |sent| == |acts|
    && (|sent| > 0 ==>
          Built(sent[..|sent| - 1], acts[..|acts| - 1], view, id0)
          && sent[|sent| - 1] == SyntheticEvent(acts[|acts| - 1], view, id0 + |acts| - 1))
  }

  /** Event `k` of the events built for a prefix of `plan` is made from
      action `k` of the plan with identity `id0 + k`. */
  lemma {:induction false} BuiltAt(sent: seq<MouseEvent>, plan: seq<Action>, view: Viewport, id0: nat)
    requires |sent| <= |plan| && Built(sent, plan[..|sent|], view, id0)
    ensures forall k :: 0 <= k < |sent| ==> sent[k] == SyntheticEvent(plan[k], view, id0 + k)
  {
    if sent != [] {
      var n := |sent| - 1;
      assert plan[..|sent|][..n] == plan[..n];
      BuiltAt(sent[..n], plan, view, id0);
      assert forall k :: 0 <= k < n ==> sent[..n][k] == sent[k];
    }
  }

  /** Appending the event of the next planned action keeps the events
      built for the plan's prefix. */
  lemma BuiltSnoc(sent: seq<MouseEvent>, plan: seq<Action>, view: Viewport, id0: nat, e: MouseEvent)
    requires |sent| < |plan| && Built(sent, plan[..|sent|], view, id0)
    requires e == SyntheticEvent(plan[|sent|], view, id0 + |sent|)
    ensures Built(sent + [e], plan[..|sent| + 1], view, id0)
  {
    assert plan[..|sent| + 1][..|sent|] == plan[..|sent|] && (sent + [e])[..|sent|] == sent;
  }

  /** The moves of span `i` sit in the plan from position `p` on. */
  ghost predicate WalkPlanned(plan: seq<Action>, p: nat, line: Span, i: nat)
  {
    p + |Walk(line, i)| <= |plan| && plan[p..p + |Walk(line, i)|] == Walk(line, i)
  }

  /** The first move of span `i`, to its start, in a plan that holds the
      walk from `p` on. */
  lemma PlannedStart(plan: seq<Action>, p: nat, line: Span, i: nat)
    requires WalkPlanned(plan, p, line, i)
    ensures p + SubSteps(EndX(line, i) - StartX(line, i)) < |plan|
    ensures plan[p] == Action("mousemove", StartX(line, i) as real, line.y as real)
  {
    WalkAt(line, i, 0);
    assert plan[p] == plan[p..p + |Walk(line, i)|][0];
  }

  /** Sub-move `s` of span `i`, computed as `sx + dx * t` from the start
      `sx`, the signed length `dx` and `t = s / n`, in a plan that holds
      the walk from `p` on. */
  lemma PlannedSubMove(plan: seq<Action>, p: nat, line: Span, i: nat, sx: int, dx: int, s: nat, t: real)
    requires WalkPlanned(plan, p, line, i)
    requires sx == StartX(line, i) && dx == EndX(line, i) - sx
    requires 1 <= s <= SubSteps(dx) && t == s as real / SubSteps(dx) as real
    ensures p + s < |plan| && plan[p + s] == Action("mousemove", sx as real + dx as real * t, line.y as real)
  {
    WalkAt(line, i, s);
    SubMoveX(sx, dx, SubSteps(dx), s, t);
    assert plan[p + s] == plan[p..p + |Walk(line, i)|][s];
  }

  /** Where the moves of span `i` start in the plan: after the press and
      the moves of the spans before it. */
  function Offset(lines: seq<Span>, i: nat): (p: nat)
    requires i <= |lines|
    ensures p >= 1
  {
    if i == 0 then 1 else Offset(lines, i - 1) + SubSteps(EndX(lines[i - 1], i - 1) - StartX(lines[i - 1], i - 1)) + 1
  }

  /** `Offset` counts the press and the moves before span `i`. */
  lemma {:induction false} OffsetCountsWalks(lines: seq<Span>, i: nat)
    requires i <= |lines|
    ensures Offset(lines, i) == 1 + |Walks(lines, i)|
  {
    if i > 0 {
      OffsetCountsWalks(lines, i - 1);
      WalkAt(lines[i - 1], i - 1, 0);
    }
  }

  /** The moves of span `i` follow the press and the moves of the spans
      before it. */
  lemma WalkInPlan(lines: seq<Span>, i: nat)
    requires i < |lines|
    ensures WalkPlanned(FillPlan(lines), Offset(lines, i), lines[i], i)
  {
    OffsetCountsWalks(lines, i);
    WalksPrefix(lines, i + 1, |lines|);
    var x, w, all := Walks(lines, i), Walk(lines[i], i), Walks(lines, |lines|);
    var last := lines[|lines| - 1];
    var press := Action("mousedown", lines[0].x1 as real, lines[0].y as real);
    var release := Action("mouseup", last.x2 as real, last.y as real);
    assert Walks(lines, i + 1) == x + w;
    PrefixSlice(x, w, all);
    assert FillPlan(lines) == [press] + all + [release];
    MiddleSlice([press], all, [release], |x|, |x| + |w|);
  }

  /** A non-empty plan laid out over its spans: the press, then the walk of
      each span at its offset, then the release. */
  ghost predicate LaidOut(plan: seq<Action>, lines: seq<Span>)
  {
    |lines| > 0 && |plan| == Offset(lines, |lines|) + 1
    && plan[0] == Action("mousedown", lines[0].x1 as real, lines[0].y as real)
    && plan[|plan| - 1] == Action("mouseup", lines[|lines| - 1].x2 as real, lines[|lines| - 1].y as real)
    && forall i {:trigger WalkPlanned(plan, Offset(lines, i), lines[i], i)} ::
         0 <= i < |lines| ==> WalkPlanned(plan, Offset(lines, i), lines[i], i)
  }

  /** The plan of a non-empty list of spans is laid out over them. */
  lemma FillPlanLaidOut(lines: seq<Span>)
    requires |lines| > 0
    ensures LaidOut(FillPlan(lines), lines)
  {
    FillPlanShape(lines);
    OffsetCountsWalks(lines, |lines|);
    forall i | 0 <= i < |lines|
      ensures WalkPlanned(FillPlan(lines), Offset(lines, i), lines[i], i)
    {
      WalkInPlan(lines, i);
    }
  }

  /** The release lands where the last move ended exactly when the last span
      was walked forwards (an odd number of spans) or is a single pixel
      wide; after an even number of spans the release jumps from `x1` to
      `x2` of the last span. */
  lemma ReleaseAfterLastMove(plan: seq<Action>, lines: seq<Span>)
    requires LaidOut(plan, lines)
    ensures var last := lines[|lines| - 1];
      plan[|plan| - 2].eventType == "mousemove" && plan[|plan| - 2].y == plan[|plan| - 1].y
      && (plan[|plan| - 2].x == plan[|plan| - 1].x <==> |lines| % 2 == 1 || last.x1 == last.x2)
  {
    var i := |lines| - 1;
    var last := lines[i];
    var p := Offset(lines, i);
    assert WalkPlanned(plan, p, last, i);
    var sx, ex := StartX(last, i), EndX(last, i);
    var n := SubSteps(ex - sx);
    WalkAt(last, i, n);
    MoveWithinSpan(sx, ex, n, n);
    assert |plan| - 2 == p + n;
    assert plan[|plan| - 2] == plan[p..p + n + 1][n] == Action("mousemove", ex as real, last.y as real);
    assert ex == last.x2 <==> |lines| % 2 == 1 || last.x1 == last.x2;
  }

  /** The state after the first `|sent|` actions of `plan` were dispatched
      in order: `sent` holds their events, and the gate handed out and
      registered exactly their identities. */
  ghost predicate Dispatched(gate: InputGate, view: Viewport, id0: nat, s0: set<nat>, plan: seq<Action>, sent: seq<MouseEvent>)
    reads gate
  {
    |sent| <= |plan| && Built(sent, plan[..|sent|], view, id0)
    && gate.nextId == id0 + |sent| && gate.synthetic == s0 + IdsFrom(id0, |sent|)
  }

  /** `dispatchMouseEvent`: builds the event, adds it to the synthetic set
      and then dispatches it; `received` is what a wrapped drawing listener
      is called with. */
  method DispatchMouseEvent(gate: InputGate, view: Viewport, a: Action) returns (e: MouseEvent, received: Option<MouseEvent>)
    modifies gate
    ensures e == SyntheticEvent(a, view, old(gate.nextId))
    ensures gate.nextId == old(gate.nextId) + 1 && gate.synthetic == old(gate.synthetic) + {e.id}
    ensures gate.blocking == old(gate.blocking) && (old(gate.Valid()) ==> gate.Valid())
    ensures received == Some(e.(isTrusted := true))
  {
    e := SyntheticEvent(a, view, gate.nextId);
    gate.nextId := gate.nextId + 1;
    gate.synthetic := gate.synthetic + {e.id};
    received := Intercept(e, gate.blocking, gate.synthetic);
  }

  /** The next dispatch of the plan, unless it is the one that throws
      (`failAt`): then nothing is sent and `ok` is false. */
  method Emit(gate: InputGate, view: Viewport, a: Action, failAt: nat,
              ghost id0: nat, ghost s0: set<nat>, ghost plan: seq<Action>, sent: seq<MouseEvent>)
    returns (sent': seq<MouseEvent>, ok: bool)
    requires Dispatched(gate, view, id0, s0, plan, sent)
    requires |sent| < |plan| && plan[|sent|] == a
    modifies gate
    ensures ok <==> failAt != |sent|
    ensures |sent'| == if ok then |sent| + 1 else |sent|
    ensures Dispatched(gate, view, id0, s0, plan, sent')
    ensures gate.blocking == old(gate.blocking)
  {
    if failAt == |sent| {
      return sent, false;
    }
    var e, received := DispatchMouseEvent(gate, view, a);
    BuiltSnoc(sent, plan, view, id0, e);
    sent', ok := sent + [e], true;
  }

  /** The sub-moves of the walk over span `i`, move `s` of `steps` at
      `startX + dx * t` with `t = s / steps`, after the move to its start
      at position `p`. Stops at the dispatch that throws. */
  method DispatchSubMoves(gate: InputGate, view: Viewport, line: Span, i: nat, failAt: nat,
                          ghost id0: nat, ghost s0: set<nat>, ghost plan: seq<Action>, ghost p: nat, sent: seq<MouseEvent>)
    returns (sent': seq<MouseEvent>, ok: bool)
    requires Dispatched(gate, view, id0, s0, plan, sent) && WalkPlanned(plan, p, line, i)
    requires |sent| == p + 1 <= failAt
    modifies gate
    ensures Dispatched(gate, view, id0, s0, plan, sent')
    ensures gate.blocking == old(gate.blocking)
    ensures var n := SubSteps(EndX(line, i) - StartX(line, i));
      (ok ==> |sent'| == p + n + 1 <= failAt)
      && (!ok ==> failAt == |sent'| <= p + n)
  {
    var startX := StartX(line, i);
    var dx := EndX(line, i) - startX;
    var steps := SubSteps(dx);
    sent', ok := sent, true;
    var s := 1;
    while s <= steps
      invariant 1 <= s <= steps + 1
      invariant |sent'| == p + s <= failAt
      invariant Dispatched(gate, view, id0, s0, plan, sent')
      invariant gate.blocking == old(gate.blocking)
    {
      var t := s as real / steps as real;
      var move := Action("mousemove", startX as real + dx as real * t, line.y as real);
      PlannedSubMove(plan, p, line, i, startX, dx, s, t);
      sent', ok := Emit(gate, view, move, failAt, id0, s0, plan, sent');
      if !ok {
        return;
      }
      s := s + 1;
    }
  }

  /** The walk over span `i`: a move to its start, then the sub-moves.
      Stops at the dispatch that throws. */
  method DispatchWalk(gate: InputGate, view: Viewport, line: Span, i: nat, failAt: nat,
                      ghost id0: nat, ghost s0: set<nat>, ghost plan: seq<Action>, sent: seq<MouseEvent>)
    returns (sent': seq<MouseEvent>, ok: bool)
    requires Dispatched(gate, view, id0, s0, plan, sent) && WalkPlanned(plan, |sent|, line, i)
    requires failAt >= |sent|
    modifies gate
    ensures Dispatched(gate, view, id0, s0, plan, sent')
    ensures gate.blocking == old(gate.blocking)
    ensures var n := SubSteps(EndX(line, i) - StartX(line, i));
      (ok ==> |sent'| == |sent| + n + 1 <= failAt)
      && (!ok ==> failAt == |sent'| <= |sent| + n)
  {
    PlannedStart(plan, |sent|, line, i);
    sent', ok := Emit(gate, view, Action("mousemove", StartX(line, i) as real, line.y as real), failAt, id0, s0, plan, sent);
    if ok {
      sent', ok := DispatchSubMoves(gate, view, line, i, failAt, id0, s0, plan, |sent|, sent');
    }
  }

  /** The walks over every span, after the press. Stops at the dispatch
      that throws. */
  method DispatchWalks(lines: seq<Span>, gate: InputGate, view: Viewport, failAt: nat,
                       ghost id0: nat, ghost s0: set<nat>, ghost plan: seq<Action>, sent: seq<MouseEvent>)
    returns (sent': seq<MouseEvent>, ok: bool)
    requires LaidOut(plan, lines) && Dispatched(gate, view, id0, s0, plan, sent)
    requires |sent| == 1 && failAt >= 1
    modifies gate
    ensures Dispatched(gate, view, id0, s0, plan, sent')
    ensures gate.blocking == old(gate.blocking)
    ensures ok ==> |sent'| == |plan| - 1 && failAt >= |sent'|
    ensures !ok ==> failAt == |sent'| < |plan|
  {
    sent', ok := sent, true;
    var i := 0;
    while i < |lines|
      invariant 0 <= i <= |lines|
      invariant |sent'| == Offset(lines, i) <= failAt
      invariant Dispatched(gate, view, id0, s0, plan, sent')
      invariant gate.blocking == old(gate.blocking)
    {
      assert WalkPlanned(plan, Offset(lines, i), lines[i], i);
      sent', ok := DispatchWalk(gate, view, lines[i], i, failAt, id0, s0, plan, sent');
      if !ok {
        return;
      }
      i := i + 1;
    }
  }

  /** The body of `fillPolygon`'s `try` once there are spans: press, walk
      every span and release. The dispatch with index `failAt` throws, if
      there is one; the events before it have been sent. */
  method DispatchPlan(lines: seq<Span>, gate: InputGate, view: Viewport, failAt: nat,
                      ghost id0: nat, ghost s0: set<nat>, ghost plan: seq<Action>)
    returns (sent: seq<MouseEvent>, completed: bool)
    requires LaidOut(plan, lines) && Dispatched(gate, view, id0, s0, plan, [])
    modifies gate
    ensures completed <==> failAt >= |plan|
    ensures |sent| == if completed then |plan| else failAt
    ensures Dispatched(gate, view, id0, s0, plan, sent)
    ensures gate.blocking == old(gate.blocking)
  {
    var ok;
    sent, ok := Emit(gate, view, Action("mousedown", lines[0].x1 as real, lines[0].y as real), failAt, id0, s0, plan, []);
    if !ok {
      return sent, false;
    }
    sent, ok := DispatchWalks(lines, gate, view, failAt, id0, s0, plan, sent);
    if !ok {
      return sent, false;
    }
    var last := lines[|lines| - 1];
    sent, completed := Emit(gate, view, Action("mouseup", last.x2 as real, last.y as real), failAt, id0, s0, plan, sent);
  }

  /** The dispatch part of `fillPolygon`: rasterize at `SCANLINE_STEP`,
      return at once when there are no spans, otherwise dispatch the plan
      event by event. `failAt` is the index of the dispatch that throws (the
      canvas went away), past the end of the plan when none does;
      `completed` is false when one did. Each sent event
      is the planned one with the next free identity and is registered as
      synthetic; blocking is left as it was. */
  method DispatchFill(poly: seq<Point>, gate: InputGate, view: Viewport, failAt: nat)
    returns (sent: seq<MouseEvent>, completed: bool)
    requires gate.Valid()
    modifies gate
    ensures var plan := FillPlan(Rasterize(poly, SCANLINE_STEP));
      (completed <==> failAt >= |plan|)
      && |sent| == (if completed then |plan| else failAt)
      && forall k :: 0 <= k < |sent| ==> sent[k] == SyntheticEvent(plan[k], view, old(gate.nextId) + k)
    ensures gate.nextId == old(gate.nextId) + |sent|
    ensures gate.synthetic == old(gate.synthetic) + IdsFrom(old(gate.nextId), |sent|)
    ensures gate.blocking == old(gate.blocking) && gate.Valid()
  {
    var lines := RasterizePolygon(poly, SCANLINE_STEP);
    ghost var plan := FillPlan(lines);
    if |lines| == 0 {
      FillPlanShape(lines);
      return [], true;
    }
    FillPlanLaidOut(lines);
    ghost var id0 := gate.nextId;
    sent, completed := DispatchPlan(lines, gate, view, failAt, id0, gate.synthetic, plan);
    BuiltAt(sent, plan, view, id0);
    IdsFromRange(id0, |sent|);
  }
}
