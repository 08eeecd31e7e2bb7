/** The tapered brush: a freehand stroke painted directly on the game canvas
    as a chain of round stamps whose width follows pen pressure or, without
    pressure, the pointer's speed (faster is thinner). Raw samples and
    exponentially smoothed points are kept in two buffers that grow in
    lock-step; each new smoothed point paints the segment from the one
    before it. */
module TaperedBrush {
  import opened Basics
  import opened LassoGeometry
  import opened LassoFill
  import opened LassoGesture

  const MIN_WIDTH: real := 1.0
  const MAX_WIDTH: real := 16.0
  /** Share of the way from the previous smoothed point to the new sample. */
  const SMOOTHING_FACTOR: real := 0.3
  /** Normalised speed per pixel per millisecond. */
  const VELOCITY_SCALE: real := 0.08
  /** Segments shorter than this paint one stamp. */
  const MIN_SEGMENT: real := 0.5
  /** Largest gap between the stamps of a segment. */
  const STAMP_GAP: real := 2.0

  /** A captured sample: canvas position, pen pressure and timestamp. */
  datatype RawPoint = RawPoint(x: real, y: real, pressure: real, time: real)

  /** A smoothed point with the width computed for its sample. */
  datatype SmoothPoint = SmoothPoint(x: real, y: real, width: real)

  /** One filled circle painted on the game canvas. */
  datatype Stamp = Stamp(x: real, y: real, radius: real)

  /** The parts of a pointer event the brush reads. */
  datatype BrushInput = BrushInput(clientX: real, clientY: real, button: int, pressure: real)

  /** `lerp` */
  function Lerp(a: real, b: real, t: real): (r: real)
    ensures t == 0.0 ==> r == a
    ensures t == 1.0 ==> r == b
    ensures 0.0 <= t <= 1.0 ==> MinReal(a, b) <= r <= MaxReal(a, b)
  {
    ConvexCombinationIfUnit(a, b, t);
    a + (b - a) * t
  }

  lemma ConvexCombinationIfUnit(a: real, b: real, t: real)
    ensures 0.0 <= t <= 1.0 ==> MinReal(a, b) <= a + (b - a) * t <= MaxReal(a, b)
  {
    if 0.0 <= t <= 1.0 {
      ConvexCombination(a, b, t);
    }
  }

  /** The width for a speed: the maximum at rest, falling linearly to the
      minimum at a normalised speed of 1 and staying there. */
  function VelocityWidth(velocity: real): real
  {
    MAX_WIDTH - (MAX_WIDTH - MIN_WIDTH) * MinReal(velocity * VELOCITY_SCALE, 1.0)
  }

  /** `calcWidth` for the sample `pt`, with `raw` the raw buffer after `pt`
      was pushed onto it and `dist` the distance from the sample before it
      (`Math.sqrt` of the squared distance, taken as an input). */
  function CalcWidth(pt: RawPoint, raw: seq<RawPoint>, dist: real): (w: real)
    ensures 0.0 < pt.pressure < 1.0 ==> w == MIN_WIDTH + (MAX_WIDTH - MIN_WIDTH) * pt.pressure
    ensures 0.0 < pt.pressure < 1.0 ==> MIN_WIDTH < w < MAX_WIDTH
    ensures !(0.0 < pt.pressure < 1.0) && |raw| >= 2 && pt.time != raw[|raw| - 2].time
      ==> w == VelocityWidth(dist / (pt.time - raw[|raw| - 2].time))
    ensures !(0.0 < pt.pressure < 1.0) && (|raw| < 2 || pt.time == raw[|raw| - 2].time)
      ==> w == (MIN_WIDTH + MAX_WIDTH) / 2.0
    ensures dist >= 0.0 && (|raw| >= 2 ==> pt.time >= raw[|raw| - 2].time)
      ==> MIN_WIDTH <= w <= MAX_WIDTH
  {
    if 0.0 < pt.pressure < 1.0 then
      MIN_WIDTH + (MAX_WIDTH - MIN_WIDTH) * pt.pressure
    else if |raw| < 2 then
      (MIN_WIDTH + MAX_WIDTH) / 2.0
    else
      var dt := pt.time - raw[|raw| - 2].time;
      if dt == 0.0 then (MIN_WIDTH + MAX_WIDTH) / 2.0
      else
        SpeedNonNegative(dist, dt);
        VelocityWidthBounds(dist / dt);
        VelocityWidth(dist / dt)
  }

  lemma SpeedNonNegative(dist: real, dt: real)
    requires dt != 0.0
    ensures dist >= 0.0 && dt > 0.0 ==> dist / dt >= 0.0
  {
    if dist >= 0.0 && dt > 0.0 {
      var v := dist / dt;
      assert v * dt == dist;
      if v < 0.0 {
        MulPositive(-v, dt);
      }
    }
  }

  /** At any non-negative speed the width is within [1, 16]. */
  lemma VelocityWidthBounds(velocity: real)
    ensures velocity >= 0.0 ==> MIN_WIDTH <= VelocityWidth(velocity) <= MAX_WIDTH
  {
    if velocity >= 0.0 {
      MulNonNegative(velocity, VELOCITY_SCALE);
    }
  }

  /** Faster is never wider. */
  lemma VelocityWidthMonotone(v1: real, v2: real)
    requires 0.0 <= v1 <= v2
    ensures VelocityWidth(v2) <= VelocityWidth(v1)
  {
    MulMonotonic(VELOCITY_SCALE, v1, v2);
    assert VELOCITY_SCALE * v1 == v1 * VELOCITY_SCALE && VELOCITY_SCALE * v2 == v2 * VELOCITY_SCALE;
  }

  /** Dividing by a positive time keeps the order of two distances. */
  lemma QuotientOrder(d1: real, d2: real, dt: real)
    requires dt > 0.0 && d1 <= d2
    ensures d1 / dt <= d2 / dt
  {
    var q1, q2 := d1 / dt, d2 / dt;
    assert q1 * dt == d1 && q2 * dt == d2;
    assert (q1 - q2) * dt == d1 - d2;
    if q1 > q2 {
      MulPositive(q1 - q2, dt);
    }
  }

  /** Without a usable pressure, and with time moving forward since the
      sample before, covering more distance never gives a wider stroke. */
  lemma CalcWidthMonotone(pt: RawPoint, raw: seq<RawPoint>, d1: real, d2: real)
    requires !(0.0 < pt.pressure < 1.0) && |raw| >= 2 && pt.time > raw[|raw| - 2].time
    requires 0.0 <= d1 <= d2
    ensures CalcWidth(pt, raw, d2) <= CalcWidth(pt, raw, d1)
  {
    var dt := pt.time - raw[|raw| - 2].time;
    QuotientOrder(d1, d2, dt);
    SpeedNonNegative(d1, dt);
    VelocityWidthMonotone(d1 / dt, d2 / dt);
  }

  /** Without a usable pressure, a sample that has not moved is painted at
      the full width, and one that moved at 12.5 pixels per millisecond or
      faster at the minimum width. */
  lemma CalcWidthExtremes(pt: RawPoint, raw: seq<RawPoint>, dist: real)
    requires !(0.0 < pt.pressure < 1.0) && |raw| >= 2 && pt.time > raw[|raw| - 2].time
    ensures dist == 0.0 ==> CalcWidth(pt, raw, dist) == MAX_WIDTH
    ensures dist >= 12.5 * (pt.time - raw[|raw| - 2].time) ==> CalcWidth(pt, raw, dist) == MIN_WIDTH
  {
    var dt := pt.time - raw[|raw| - 2].time;
    VelocityWidthExtremes(dist / dt);
    if dist >= 12.5 * dt {
      assert (12.5 * dt) / dt == 12.5;
      QuotientOrder(12.5 * dt, dist, dt);
    }
  }

  /** At rest the stroke is at its widest; from 12.5 pixels per millisecond
      on it is at its thinnest. */
  lemma VelocityWidthExtremes(velocity: real)
    ensures VelocityWidth(0.0) == MAX_WIDTH
    ensures velocity >= 12.5 ==> VelocityWidth(velocity) == MIN_WIDTH
  {
    if velocity >= 12.5 {
      MulMonotonic(VELOCITY_SCALE, 12.5, velocity);
      assert VELOCITY_SCALE * velocity == velocity * VELOCITY_SCALE;
    }
  }

  /** The exponential smoothing step: the new point lies 30% of the way
      from the previous smoothed point to the sample. */
  function SmoothToward(prev: SmoothPoint, pt: RawPoint, width: real): (s: SmoothPoint)
    ensures MinReal(prev.x, pt.x) <= s.x <= MaxReal(prev.x, pt.x)
    ensures MinReal(prev.y, pt.y) <= s.y <= MaxReal(prev.y, pt.y)
    ensures s.width == width
  {
    SmoothPoint(Lerp(prev.x, pt.x, SMOOTHING_FACTOR), Lerp(prev.y, pt.y, SMOOTHING_FACTOR), width)
  }

  /** The smoothed buffer follows the raw one: the first point is the first
      sample's position, each later one a smoothing step toward its sample. */
  predicate Smoothed(raw: seq<RawPoint>, smooth: seq<SmoothPoint>)
  {
    && |raw| == |smooth|
    && (|raw| > 0 ==> smooth[0].x == raw[0].x && smooth[0].y == raw[0].y)
    && forall k :: 0 < k < |raw| ==>
         smooth[k] == SmoothToward(smooth[k - 1], raw[k], smooth[k].width)
  }

  predicate WidthsInRange(smooth: seq<SmoothPoint>)
  {
    forall k :: 0 <= k < |smooth| ==> MIN_WIDTH <= smooth[k].width <= MAX_WIDTH
  }

  /** `drawSegment`'s number of steps: `max(ceil(dist / 2), 1)`. */
  function StampSteps(dist: real): (n: nat)
    ensures n >= 1
    ensures dist <= STAMP_GAP * n as real
  {
    MaxInt(Ceil(dist / STAMP_GAP), 1)
  }

  /** Stamp `i` of `n` steps from `from` to `to`. */
  function StampAt(from: SmoothPoint, to: SmoothPoint, n: nat, i: nat): Stamp
    requires n >= 1
  {
    var t := i as real / n as real;
    Stamp(Lerp(from.x, to.x, t), Lerp(from.y, to.y, t), Lerp(from.width, to.width, t) / 2.0)
  }

  /** The first `k` stamps of `n` steps. */
  function StampsUpTo(from: SmoothPoint, to: SmoothPoint, n: nat, k: nat): (s: seq<Stamp>)
    requires n >= 1
    ensures |s| == k
  {
    if k == 0 then [] else StampsUpTo(from, to, n, k - 1) + [StampAt(from, to, n, k - 1)]
  }

  lemma {:induction false} StampsUpToAt(from: SmoothPoint, to: SmoothPoint, n: nat, k: nat, i: nat)
    requires n >= 1 && i < k
    ensures StampsUpTo(from, to, n, k)[i] == StampAt(from, to, n, i)
  {
    if i < k - 1 {
      StampsUpToAt(from, to, n, k - 1, i);
    }
  }

  /** What `drawSegment(from, to)` paints, `dist` being the segment's length:
      one stamp at `to` for a very short segment, otherwise the stamps at
      steps 0 .. n of the interpolation. */
  function SegmentStamps(from: SmoothPoint, to: SmoothPoint, dist: real): seq<Stamp>
  {
    if dist < MIN_SEGMENT then [Stamp(to.x, to.y, to.width / 2.0)]
    else StampsUpTo(from, to, StampSteps(dist), StampSteps(dist) + 1)
  }

  /** `drawSegment`: the counted loop over the interpolation steps. */
  method DrawSegment(from: SmoothPoint, to: SmoothPoint, dist: real) returns (stamps: seq<Stamp>)
    ensures stamps == SegmentStamps(from, to, dist)
  {
    if dist < MIN_SEGMENT {
      return [Stamp(to.x, to.y, to.width / 2.0)];
    }
    var steps := StampSteps(dist);
    stamps := [];
    var i := 0;
    while i <= steps
      invariant 0 <= i <= steps + 1
      invariant stamps == StampsUpTo(from, to, steps, i)
    {
      var t := i as real / steps as real;
      stamps := stamps + [Stamp(Lerp(from.x, to.x, t), Lerp(from.y, to.y, t), Lerp(from.width, to.width, t) / 2.0)];
      i := i + 1;
    }
  }

  /** A segment of length at least 0.5 paints `max(ceil(dist / 2), 1) + 1`
      stamps, the first at `from` with half its width as radius and the last
      at `to` with half its width; a shorter one paints only the last. */
  lemma SegmentStampsEnds(from: SmoothPoint, to: SmoothPoint, dist: real)
    ensures var s := SegmentStamps(from, to, dist);
      && |s| == (if dist < MIN_SEGMENT then 1 else StampSteps(dist) + 1)
      && s[|s| - 1] == Stamp(to.x, to.y, to.width / 2.0)
      && (dist >= MIN_SEGMENT ==> s[0] == Stamp(from.x, from.y, from.width / 2.0))
  {
    if dist >= MIN_SEGMENT {
      var n := StampSteps(dist);
      StampsUpToAt(from, to, n, n + 1, 0);
      StampsUpToAt(from, to, n, n + 1, n);
      StampAtEnds(from, to, n);
    }
  }

  lemma StampAtEnds(from: SmoothPoint, to: SmoothPoint, n: nat)
    requires n >= 1
    ensures StampAt(from, to, n, 0) == Stamp(from.x, from.y, from.width / 2.0)
    ensures StampAt(from, to, n, n) == Stamp(to.x, to.y, to.width / 2.0)
  {
    assert 0 as real / n as real == 0.0;
    assert n as real / n as real == 1.0;
  }

  /** Every stamp's radius lies between the two end points' half widths. */
  lemma SegmentStampRadii(from: SmoothPoint, to: SmoothPoint, dist: real, i: nat)
    requires i < |SegmentStamps(from, to, dist)|
    ensures var r := SegmentStamps(from, to, dist)[i].radius;
      MinReal(from.width, to.width) / 2.0 <= r <= MaxReal(from.width, to.width) / 2.0
  {
    if dist >= MIN_SEGMENT {
      var n := StampSteps(dist);
      StampsUpToAt(from, to, n, n + 1, i);
      UnitQuotient(i as real, n as real);
    }
  }

  /** Consecutive interpolation parameters differ by `1 / n`, so consecutive
      interpolated values differ by `(b - a) / n`. */
  lemma LerpStep(a: real, b: real, i: nat, n: nat)
    requires n >= 1
    ensures Lerp(a, b, (i + 1) as real / n as real) - Lerp(a, b, i as real / n as real) == (b - a) / n as real
  {
    var m := n as real;
    var t0 := i as real / m;
    var t1 := (i + 1) as real / m;
    assert t0 * m == i as real;
    assert t1 * m == i as real + 1.0;
    assert (t1 - t0) * m == 1.0;
    assert (b - a) * t1 - (b - a) * t0 == (b - a) * (t1 - t0);
    ScaleQuotient(b - a, 1.0, m);
    assert (t1 - t0) == 1.0 / m;
  }

  /** Dividing a vector of length `dist` by `m` at least `dist / 2` gives
      a vector of length at most 2. */
  lemma ScaledGap(dx: real, dy: real, dist: real, m: real)
    requires dist >= 0.0 && m > 0.0 && dist <= STAMP_GAP * m
    requires dist * dist == dx * dx + dy * dy
    ensures (dx / m) * (dx / m) + (dy / m) * (dy / m) <= STAMP_GAP * STAMP_GAP
  {
    var u := dx / m;
    var v := dy / m;
    var q := dist / m;
    SquareOfScaled(dx, m);
    SquareOfScaled(dy, m);
    SquareOfScaled(dist, m);
    SumOfScaled(u * u, v * v, q * q, m, dx * dx, dy * dy, dist * dist);
    assert q * m == dist;
    assert 0.0 <= q <= STAMP_GAP by {
      if q > STAMP_GAP {
        MulPositive(q - STAMP_GAP, m);
      }
      if q < 0.0 {
        MulPositive(-q, m);
      }
    }
    SquareBound(u * u + v * v, q, STAMP_GAP);
  }

  lemma SqDistOfOffsets(a: Point, b: Point, u: real, v: real)
    requires b.x - a.x == u && b.y - a.y == v
    ensures SqDist(a, b) == u * u + v * v
  {
  }

  /** Consecutive stamps of `n` steps are `1 / n` of the segment apart. */
  lemma StampStep(from: SmoothPoint, to: SmoothPoint, n: nat, i: nat)
    requires n >= 1
    ensures var a := StampAt(from, to, n, i);
      var b := StampAt(from, to, n, i + 1);
      var m := n as real;
      SqDist(Point(a.x, a.y), Point(b.x, b.y))
        == ((to.x - from.x) / m) * ((to.x - from.x) / m) + ((to.y - from.y) / m) * ((to.y - from.y) / m)
  {
    var a := StampAt(from, to, n, i);
    var b := StampAt(from, to, n, i + 1);
    LerpStep(from.x, to.x, i, n);
    LerpStep(from.y, to.y, i, n);
    SqDistOfOffsets(Point(a.x, a.y), Point(b.x, b.y), (to.x - from.x) / n as real, (to.y - from.y) / n as real);
  }

  /** Consecutive stamps of `n` steps, `n` at least half the segment's
      length, are at most 2 pixels apart. */
  lemma StampAtSpacing(from: SmoothPoint, to: SmoothPoint, dist: real, n: nat, i: nat)
    requires n >= 1 && dist >= 0.0 && dist <= STAMP_GAP * n as real
    requires dist * dist == SqDist(Point(from.x, from.y), Point(to.x, to.y))
    ensures var a := StampAt(from, to, n, i);
      var b := StampAt(from, to, n, i + 1);
      SqDist(Point(a.x, a.y), Point(b.x, b.y)) <= STAMP_GAP * STAMP_GAP
  {
    var dx := to.x - from.x;
    var dy := to.y - from.y;
    SqDistOfOffsets(Point(from.x, from.y), Point(to.x, to.y), dx, dy);
    StampStep(from, to, n, i);
    ScaledGap(dx, dy, dist, n as real);
  }

  /** With `dist` the true length of the segment, consecutive stamps of a
      segment are at most 2 pixels apart. */
  lemma StampSpacing(from: SmoothPoint, to: SmoothPoint, dist: real, i: nat)
    requires dist >= 0.0
    requires dist * dist == SqDist(Point(from.x, from.y), Point(to.x, to.y))
    requires i + 1 < |SegmentStamps(from, to, dist)|
    ensures var s := SegmentStamps(from, to, dist);
      SqDist(Point(s[i].x, s[i].y), Point(s[i + 1].x, s[i + 1].y)) <= STAMP_GAP * STAMP_GAP
  {
    var n := StampSteps(dist);
    StampsUpToAt(from, to, n, n + 1, i);
    StampsUpToAt(from, to, n, n + 1, i + 1);
    StampAtSpacing(from, to, dist, n, i);
  }

  /** Appending the stamps of a segment of true length `dist` keeps
      consecutive new stamps at most 2 pixels apart. */
  lemma AppendedStampsSpaced(before: seq<Stamp>, from: SmoothPoint, to: SmoothPoint, dist: real)
    requires dist >= 0.0
    requires dist * dist == SqDist(Point(from.x, from.y), Point(to.x, to.y))
    ensures var all := before + SegmentStamps(from, to, dist);
      forall k :: |before| <= k < |all| - 1 ==>
        SqDist(Point(all[k].x, all[k].y), Point(all[k + 1].x, all[k + 1].y)) <= STAMP_GAP * STAMP_GAP
  {
    var s := SegmentStamps(from, to, dist);
    var all := before + s;
    forall k | |before| <= k < |all| - 1
      ensures SqDist(Point(all[k].x, all[k].y), Point(all[k + 1].x, all[k + 1].y)) <= STAMP_GAP * STAMP_GAP
    {
      var i := k - |before|;
      assert all[k] == s[i] && all[k + 1] == s[i + 1];
      StampSpacing(from, to, dist, i);
    }
  }

  /** The tapered brush's module state; `painted` is what the brush has
      drawn on the game canvas, in order. */
  class Brush {
    var bound: bool
    var isActive: bool
    var isDrawing: bool
    var overlayShown: bool
    var rawPoints: seq<RawPoint>
    var smoothPoints: seq<SmoothPoint>
    var painted: seq<Stamp>

    /** The two buffers have equal length and are empty outside a stroke;
        the smoothed buffer follows the raw one; every width is in
        [1, 16]. */
    ghost predicate Valid()
      reads this
    {
      && Smoothed(rawPoints, smoothPoints)
      && WidthsInRange(smoothPoints)
      && (isDrawing ==> isActive && |rawPoints| >= 1)
      && (!isDrawing ==> rawPoints == [] && smoothPoints == [])
    }

    /** The module as loaded: inactive, empty buffers, nothing painted, not
        yet bound to a canvas. */
    constructor ()
      ensures Valid()
      ensures !bound && !isActive && !isDrawing && !overlayShown
      ensures rawPoints == [] && smoothPoints == [] && painted == []
    {
      bound := false;
      isActive := false;
      isDrawing := false;
      overlayShown := false;
      rawPoints := [];
      smoothPoints := [];
      painted := [];
    }

    /** `init`: the brush is bound to the game canvas and its 2D context,
        the overlay and the color picker; nothing else changes. */
    method Init()
      requires Valid()
      modifies this
      ensures Valid() && bound
      ensures isActive == old(isActive) && isDrawing == old(isDrawing) && overlayShown == old(overlayShown)
      ensures rawPoints == old(rawPoints) && smoothPoints == old(smoothPoints) && painted == old(painted)
    {
      bound := true;
    }

    /** `activate` */
    method Activate()
      requires Valid()
      modifies this
      ensures Valid() && isActive && overlayShown
      ensures isDrawing == old(isDrawing) && rawPoints == old(rawPoints) && smoothPoints == old(smoothPoints)
      ensures painted == old(painted) && bound == old(bound)
    {
      isActive := true;
      overlayShown := true;
    }

    /** `deactivate`: the stroke in progress is abandoned, nothing is
        painted. */
    method Deactivate()
      requires Valid()
      modifies this
      ensures Valid()
      ensures !isActive && !isDrawing && !overlayShown && rawPoints == [] && smoothPoints == []
      ensures painted == old(painted) && bound == old(bound)
    {
      isActive := false;
      isDrawing := false;
      rawPoints := [];
      smoothPoints := [];
      overlayShown := false;
    }

    /** `capturePoint`: `now` stands for `performance.now()`. */
    static function Capture(e: BrushInput, rect: OverlayRect, now: real): RawPoint
    {
      var p := CanvasPoint(e.clientX, e.clientY, rect.left, rect.top, rect.pixelsPerX, rect.pixelsPerY);
      RawPoint(p.x, p.y, e.pressure, now)
    }

    /** `onPointerDown`: ignored unless the tool is active and the button is
        the primary one; otherwise both buffers restart with the one sample
        under the pointer, whose width is the pressure width or the
        midpoint. */
    method OnPointerDown(e: BrushInput, rect: OverlayRect, now: real)
      requires Valid()
      modifies this
      ensures Valid()
      ensures var pt := Capture(e, rect, now);
        if old(isActive) && e.button == 0
        then isDrawing && rawPoints == [pt] && smoothPoints == [SmoothPoint(pt.x, pt.y, CalcWidth(pt, [pt], 0.0))]
        else isDrawing == old(isDrawing) && rawPoints == old(rawPoints) && smoothPoints == old(smoothPoints)
      ensures isActive == old(isActive) && painted == old(painted)
      ensures overlayShown == old(overlayShown) && bound == old(bound)
    {
      if !isActive || e.button != 0 {
        return;
      }
      isDrawing := true;
      rawPoints := [];
      smoothPoints := [];
      var pt := Capture(e, rect, now);
      rawPoints := rawPoints + [pt];
      smoothPoints := smoothPoints + [SmoothPoint(pt.x, pt.y, CalcWidth(pt, rawPoints, 0.0))];
    }

    /** `onPointerMove`: during a stroke, one raw and one smoothed point are
        appended and the segment from the previous smoothed point to the new
        one is painted. `sampleDist` is the distance from the previous
        sample and `segment` the length of the new segment: both are
        `Math.sqrt` results, taken as inputs and tied to the points they
        measure. `now` never runs backwards. The stamps the move paints are
        at most 2 pixels apart. */
    method OnPointerMove(e: BrushInput, rect: OverlayRect, now: real, sampleDist: real, segment: real)
      requires Valid()
      requires isDrawing ==>
        var pt := Capture(e, rect, now);
        var last := rawPoints[|rawPoints| - 1];
        && now >= last.time
        && sampleDist >= 0.0 && sampleDist * sampleDist == SqDist(Point(last.x, last.y), Point(pt.x, pt.y))
      requires isDrawing ==>
        var prev := smoothPoints[|smoothPoints| - 1];
        var next := SmoothToward(prev, Capture(e, rect, now), prev.width);
        segment >= 0.0 && segment * segment == SqDist(Point(prev.x, prev.y), Point(next.x, next.y))
      modifies this
      ensures Valid()
      ensures isDrawing == old(isDrawing)
      ensures old(isDrawing) ==>
        var pt := Capture(e, rect, now);
        var prev := old(smoothPoints)[|old(smoothPoints)| - 1];
        var next := SmoothToward(prev, pt, CalcWidth(pt, old(rawPoints) + [pt], sampleDist));
        && rawPoints == old(rawPoints) + [pt]
        && smoothPoints == old(smoothPoints) + [next]
        && painted == old(painted) + SegmentStamps(prev, next, segment)
      ensures forall k :: |old(painted)| <= k < |painted| - 1 ==>
        SqDist(Point(painted[k].x, painted[k].y), Point(painted[k + 1].x, painted[k + 1].y)) <= STAMP_GAP * STAMP_GAP
      ensures !old(isDrawing) ==>
        rawPoints == old(rawPoints) && smoothPoints == old(smoothPoints) && painted == old(painted)
      ensures isActive == old(isActive) && overlayShown == old(overlayShown) && bound == old(bound)
    {
      if !isDrawing {
        return;
      }
      var pt := Capture(e, rect, now);
      rawPoints := rawPoints + [pt];
      var prev := smoothPoints[|smoothPoints| - 1];
      var smoothed := SmoothToward(prev, pt, CalcWidth(pt, rawPoints, sampleDist));
      smoothPoints := smoothPoints + [smoothed];
      if |smoothPoints| >= 2 {
        var stamps := DrawSegment(smoothPoints[|smoothPoints| - 2], smoothPoints[|smoothPoints| - 1], segment);
        ghost var before := painted;
        painted := painted + stamps;
        AppendedStampsSpaced(before, prev, smoothed, segment);
      }
    }

    /** `onPointerUp` (also bound to `pointerleave`): ends the stroke. With
        two or more smoothed points the "tapered end" is painted: a
        zero-length segment to the last point at the minimum width, which
        is one stamp of radius 0.5 at the last point. Both buffers are
        emptied. */
    method OnPointerUp()
      requires Valid()
      modifies this
      ensures Valid()
      ensures !isDrawing && rawPoints == [] && smoothPoints == []
      ensures old(isDrawing) && |old(smoothPoints)| >= 2 ==>
        var last := old(smoothPoints)[|old(smoothPoints)| - 1];
        painted == old(painted) + [Stamp(last.x, last.y, MIN_WIDTH / 2.0)]
      ensures !(old(isDrawing) && |old(smoothPoints)| >= 2) ==> painted == old(painted)
      ensures isActive == old(isActive) && overlayShown == old(overlayShown) && bound == old(bound)
    {
      if !isDrawing {
        return;
      }
      isDrawing := false;
      if |smoothPoints| >= 2 {
        var last := smoothPoints[|smoothPoints| - 1];
        var taperEnd := SmoothPoint(last.x, last.y, MIN_WIDTH);
        var stamps := DrawSegment(last, taperEnd, 0.0);
        painted := painted + stamps;
      }
      rawPoints := [];
      smoothPoints := [];
    }

    /** `destroy`: deactivation, then the canvas, context and overlay are
        released. */
    method Destroy()
      requires Valid()
      modifies this
      ensures Valid()
      ensures !bound && !isActive && !isDrawing && !overlayShown && rawPoints == [] && smoothPoints == []
      ensures painted == old(painted)
    {
      Deactivate();
      bound := false;
    }
  }
}
