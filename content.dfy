/** The extension's entry point: it picks the game's drawing canvas (the
    largest canvas more than 100 pixels in each direction), sets the tools
    up once when such a canvas appears and tears them down once when it
    goes away. The mutation observer, the one-second poll and the initial
    check all run the same decision step. */
module Content {
  import opened Basics
  import opened EarlyInject
  import opened LassoGesture
  import opened TaperedBrush
  import opened ToolbarUi

  /** Smallest width and height, exclusive, of a drawing canvas. */
  const MIN_SIDE: real := 100.0

  /** A canvas element and its on-screen size. */
  datatype CanvasRect = CanvasRect(id: nat, width: real, height: real)

  function Area(c: CanvasRect): real
  {
    c.width * c.height
  }

  predicate Qualifies(c: CanvasRect)
  {
    c.width > MIN_SIDE && c.height > MIN_SIDE
  }

  /** `findDrawingCanvas`: the position of the qualifying canvas with the
      largest area, the first of equals, or `None` when no canvas
      qualifies. */
  method FindDrawingCanvas(canvases: seq<CanvasRect>) returns (best: Option<nat>)
    ensures best == None <==> forall j :: 0 <= j < |canvases| ==> !Qualifies(canvases[j])
    ensures best.Some? ==>
      && best.value < |canvases|
      && Qualifies(canvases[best.value])
      && (forall j :: 0 <= j < |canvases| && Qualifies(canvases[j]) ==> Area(canvases[j]) <= Area(canvases[best.value]))
      && (forall j :: 0 <= j < best.value && Qualifies(canvases[j]) ==> Area(canvases[j]) < Area(canvases[best.value]))
  {
    best := None;
    var bestArea := 0.0;
    var i := 0;
    while i < |canvases|
      invariant 0 <= i <= |canvases|
      invariant best == None <==> forall j :: 0 <= j < i ==> !Qualifies(canvases[j])
      invariant best == None ==> bestArea == 0.0
      invariant best.Some? ==>
        && best.value < i
        && Qualifies(canvases[best.value])
        && bestArea == Area(canvases[best.value])
        && (forall j :: 0 <= j < i && Qualifies(canvases[j]) ==> Area(canvases[j]) <= bestArea)
        && (forall j :: 0 <= j < best.value && Qualifies(canvases[j]) ==> Area(canvases[j]) < bestArea)
    {
      var c := canvases[i];
      var area := c.width * c.height;
      if Qualifies(c) {
        MulPositive(c.width, c.height);
      }
      if area > bestArea && c.width > MIN_SIDE && c.height > MIN_SIDE {
        best := Some(i);
        bestArea := area;
      }
      i := i + 1;
    }
  }

  /** A canvas list with one qualifying canvas ahead of a larger one that
      is too narrow: the qualifying one is chosen. */
  method SmallOverNarrow() returns (best: Option<nat>)
    ensures best == Some(1)
  {
    var cs := [CanvasRect(0, 50.0, 50.0), CanvasRect(1, 200.0, 150.0), CanvasRect(2, 90.0, 900.0)];
    best := FindDrawingCanvas(cs);
    assert Qualifies(cs[1]);
    assert !Qualifies(cs[0]) && !Qualifies(cs[2]);
  }

  /** Two qualifying canvases of equal area: the first one wins. */
  method FirstOfEquals() returns (best: Option<nat>)
    ensures best == Some(0)
  {
    var cs := [CanvasRect(7, 200.0, 300.0), CanvasRect(8, 300.0, 200.0)];
    best := FindDrawingCanvas(cs);
    assert Qualifies(cs[0]) && Qualifies(cs[1]);
    assert Area(cs[0]) == 60000.0 && Area(cs[1]) == 60000.0;
  }

  /** The content script's state and the tool modules it drives. `canvas`
      is the id of `gameCanvas`, if set. */
  class Extension {
    const gate: InputGate
    const lasso: Lasso
    const brush: Brush
    const toolbar: Toolbar
    var initialized: bool
    var canvas: Option<nat>

    /** The tools are set up (bound, toolbar present) exactly while the
        extension is initialized, and then at least one keyboard listener
        is registered. The toolbar's `destroy` leaves its listener behind,
        so the count only grows. */
    ghost predicate Valid()
      reads this, gate, lasso, brush, toolbar, toolbar.lasso, toolbar.brush
      reads if toolbar.lasso != null then {toolbar.lasso.gate} else {}
    {
      && lasso.gate == gate
      && lasso.Valid() && brush.Valid() && toolbar.Valid()
      && (initialized <==> canvas.Some?)
      && lasso.bound == initialized && brush.bound == initialized
      && toolbar.present == initialized
      && (initialized ==> toolbar.keyListeners >= 1)
      && (initialized ==> toolbar.lasso == lasso && toolbar.brush == brush)
      && (!initialized ==> !lasso.isActive && !brush.isActive)
    }

    /** The script as loaded: the interception layer's state, the tool
        modules before their `init`, and `initialized` false. */
    constructor ()
      ensures Valid() && !initialized && fresh(gate) && fresh(lasso) && fresh(brush) && fresh(toolbar)
      ensures toolbar.keyListeners == 0
    {
      var g := new InputGate();
      gate := g;
      lasso := new Lasso(g);
      brush := new Brush();
      toolbar := new Toolbar();
      initialized := false;
      canvas := None;
    }

    /** `initExtension`: a no-op while initialized; otherwise the flag is
        set, the canvas recorded and the tools and toolbar set up. */
    method InitExtension(c: nat)
      requires Valid()
      modifies this, lasso, brush, toolbar
      ensures Valid()
      ensures initialized
      ensures lasso.isFilling == old(lasso.isFilling) && lasso.pending == old(lasso.pending) && brush.painted == old(brush.painted)
      ensures old(initialized) ==> canvas == old(canvas) && unchanged(lasso, brush, toolbar)
      ensures !old(initialized) ==> canvas == Some(c) && toolbar.activeTool == None
      ensures !old(initialized) ==> toolbar.keyListeners == old(toolbar.keyListeners) + 1
    {
      if initialized {
        return;
      }
      initialized := true;
      canvas := Some(c);
      lasso.Init();
      brush.Init();
      toolbar.Init(lasso, brush);
    }

    /** `teardown`: a no-op while not initialized; otherwise the flag is
        cleared and the toolbar and tools are destroyed. The toolbar's
        `destroy` is the one as written, which keeps the keyboard listener
        registered. */
    method Teardown()
      requires Valid()
      modifies this, lasso, brush, toolbar
      ensures Valid()
      ensures !initialized && canvas == None
      ensures lasso.isFilling == old(lasso.isFilling) && lasso.pending == old(lasso.pending) && brush.painted == old(brush.painted)
      ensures !old(initialized) ==> unchanged(lasso, brush, toolbar)
      ensures !lasso.isActive && !brush.isActive && toolbar.activeTool == None
      ensures toolbar.keyListeners == old(toolbar.keyListeners)
    {
      if !initialized {
        return;
      }
      initialized := false;
      canvas := None;
      toolbar.DestroyAsWritten();
      lasso.Destroy();
      brush.Destroy();
    }

    /** The decision step the mutation observer and the poll both run:
        set up exactly when a canvas is found and the extension is not
        initialized, tear down exactly when none is found and it is, and
        otherwise change nothing. Afterwards the extension is initialized
        exactly when a canvas was found. */
    method ObserverStep(canvases: seq<CanvasRect>)
      requires Valid()
      modifies this, lasso, brush, toolbar
      ensures Valid()
      ensures initialized <==> exists j :: 0 <= j < |canvases| && Qualifies(canvases[j])
      ensures lasso.isFilling == old(lasso.isFilling) && lasso.pending == old(lasso.pending) && brush.painted == old(brush.painted)
      ensures initialized == old(initialized) ==> canvas == old(canvas) && unchanged(lasso, brush, toolbar)
      ensures !old(initialized) && initialized ==>
        toolbar.activeTool == None && toolbar.keyListeners == old(toolbar.keyListeners) + 1
      ensures old(initialized) && !initialized ==> toolbar.keyListeners == old(toolbar.keyListeners)
    {
      var found := FindDrawingCanvas(canvases);
      if found.Some? && !initialized {
        InitExtension(canvases[found.value].id);
      } else if found.None? && initialized {
        Teardown();
      }
    }

    /** The check the script makes once when it loads. */
    method InitialCheck(canvases: seq<CanvasRect>)
      requires Valid() && !initialized
      modifies this, lasso, brush, toolbar
      ensures Valid()
      ensures initialized <==> exists j :: 0 <= j < |canvases| && Qualifies(canvases[j])
      ensures lasso.isFilling == old(lasso.isFilling) && lasso.pending == old(lasso.pending) && brush.painted == old(brush.painted)
    {
      var found := FindDrawingCanvas(canvases);
      if found.Some? {
        InitExtension(canvases[found.value].id);
      }
    }
  }

  /** The drawing canvas appears, goes away and comes back (the page
      replaced it), and then `l` is pressed. The keyboard listener of the
      first set-up is still registered beside the new one, so the two
      toggles cancel and the lasso stays off. */
  method ReappearingCanvas() returns (active: Option<string>, listeners: nat)
    ensures listeners == 2 && active == None
  {
    var ext := new Extension();
    var page := [CanvasRect(1, 800.0, 600.0)];
    assert Qualifies(page[0]);
    ext.ObserverStep(page);
    ext.ObserverStep([]);
    ext.ObserverStep(page);
    var toolbar := ext.toolbar;
    toolbar.KeyDown("l", "CANVAS");
    DoubleListenerCancels(None, "CANVAS");
    active, listeners := toolbar.activeTool, toolbar.keyListeners;
  }
}
