/** The toolbar: two tool buttons (lasso and tapered brush), the active
    tool, and the document-wide keyboard shortcuts. Selecting a tool first
    deactivates both tools, then marks exactly the matching button and
    activates the matching tool. */
module ToolbarUi {
  import opened Basics
  import opened LassoGesture
  import opened TaperedBrush
  import opened EarlyInject

  const LASSO: string := "lasso"
  const TAPERED_BRUSH: string := "taperedBrush"

  /** A tool button: its `data-tool` value and whether it carries the
      `active` class. */
  datatype Button = Button(tool: string, active: bool)

  /** The buttons `init` creates, in order, none marked. */
  const INITIAL_BUTTONS: seq<Button> := [Button(LASSO, false), Button(TAPERED_BRUSH, false)]

  /** `toggleTool`'s effect on the active tool. */
  function Toggled(active: Option<string>, toolId: string): (r: Option<string>)
    ensures r == None <==> active == Some(toolId)
    ensures r != None ==> r == Some(toolId)
  {
    if active == Some(toolId) then None else Some(toolId)
  }

  /** Toggling the same tool twice ends with it active only if it was
      active to begin with, and with nothing active otherwise. */
  lemma ToggledTwice(active: Option<string>, toolId: string)
    ensures Toggled(Toggled(active, toolId), toolId) == (if active == Some(toolId) then active else None)
  {
  }

  /** What the keyboard listener does for one key press: `l`/`L` toggles
      the lasso, `t`/`T` the tapered brush, `Escape` deactivates all, other
      keys and key presses in text fields do nothing. */
  datatype KeyCommand = ToggleCommand(toolId: string) | DeactivateCommand | NoCommand

  function KeyMap(key: string, targetTag: string): (c: KeyCommand)
    ensures targetTag == "INPUT" || targetTag == "TEXTAREA" ==> c == NoCommand
    ensures c.ToggleCommand? ==> c.toolId == LASSO || c.toolId == TAPERED_BRUSH
  {
    if targetTag == "INPUT" || targetTag == "TEXTAREA" then NoCommand
    else if key == "l" || key == "L" then ToggleCommand(LASSO)
    else if key == "t" || key == "T" then ToggleCommand(TAPERED_BRUSH)
    else if key == "Escape" then DeactivateCommand
    else NoCommand
  }

  /** The active tool after one run of the keyboard listener. */
  function AfterKey(active: Option<string>, key: string, targetTag: string): Option<string>
  {
    match KeyMap(key, targetTag)
    case ToggleCommand(id) => Toggled(active, id)
    case DeactivateCommand => None
    case NoCommand => active
  }

  /** The active tool after a key press reaches `n` registrations of the
      keyboard listener, each running in turn. */
  function AfterKeyPress(n: nat, active: Option<string>, key: string, targetTag: string): Option<string>
  {
    if n == 0 then active else AfterKey(AfterKeyPress(n - 1, active, key, targetTag), key, targetTag)
  }

  /** With the listener registered once, `l` turns the lasso on from any
      other state and off when it is on. */
  lemma SingleListenerToggles(active: Option<string>, targetTag: string)
    requires targetTag != "INPUT" && targetTag != "TEXTAREA"
    ensures AfterKeyPress(1, active, "l", targetTag) == (if active == Some(LASSO) then None else Some(LASSO))
  {
  }

  /** With the listener registered twice, `l` can never turn the lasso on:
      whatever was active, the result is the lasso if it was already active
      and nothing otherwise. */
  lemma DoubleListenerCancels(active: Option<string>, targetTag: string)
    requires targetTag != "INPUT" && targetTag != "TEXTAREA"
    ensures AfterKeyPress(2, active, "l", targetTag) == (if active == Some(LASSO) then active else None)
    ensures active != Some(LASSO) ==> AfterKeyPress(2, active, "l", targetTag) != Some(LASSO)
  {
    assert AfterKeyPress(1, active, "l", targetTag) == Toggled(active, LASSO);
    ToggledTwice(active, LASSO);
  }

  /** Exactly the button whose tool is `active` is marked. */
  predicate Marked(buttons: seq<Button>, active: Option<string>)
  {
    forall k :: 0 <= k < |buttons| ==> (buttons[k].active <==> active == Some(buttons[k].tool))
  }

  /** The buttons keep their tools, in order. */
  predicate SameTools(a: seq<Button>, b: seq<Button>)
  {
    |a| == |b| && forall k :: 0 <= k < |a| ==> a[k].tool == b[k].tool
  }

  /** The toolbar module's state. `present` is whether `toolbarEl` is set;
      `lasso` and `brush` are `tools.lasso` and `tools.taperedBrush`;
      `keyListeners` counts the registrations of the keyboard listener on
      the document. */
  class Toolbar {
    var present: bool
    var buttons: seq<Button>
    var activeTool: Option<string>
    var lasso: Lasso?
    var brush: Brush?
    var keyListeners: nat

    ghost predicate ToolsValid()
      reads this, lasso, brush, if lasso != null then {lasso.gate} else {}
    {
      && (lasso != null ==> lasso.Valid())
      && (brush != null ==> brush.Valid())
    }

    /** While the toolbar is up it holds the two buttons, exactly the one
        of the active tool is marked and each tool is active exactly when it
        is the active one; once destroyed there is no toolbar, no tool and
        no active tool. */
    ghost predicate Valid()
      reads this, lasso, brush, if lasso != null then {lasso.gate} else {}
    {
      && ToolsValid()
      && (present ==>
            && SameTools(buttons, INITIAL_BUTTONS)
            && Marked(buttons, activeTool))
      && (!present ==> buttons == [] && activeTool == None && lasso == null && brush == null)
      && (lasso != null ==> (lasso.isActive <==> activeTool == Some(LASSO)))
      && (brush != null ==> (brush.isActive <==> activeTool == Some(TAPERED_BRUSH)))
    }

    /** The module before `init`. */
    constructor ()
      ensures Valid() && !present && keyListeners == 0
    {
      present := false;
      buttons := [];
      activeTool := None;
      lasso := null;
      brush := null;
      keyListeners := 0;
    }

    /** `init`: the two buttons are created (in the page's toolbar or a
        floating one), the tools are recorded and the keyboard listener is
        registered. */
    method Init(lasso: Lasso?, brush: Brush?)
      requires Valid() && !present
      requires lasso != null ==> lasso.Valid() && !lasso.isActive
      requires brush != null ==> brush.Valid() && !brush.isActive
      modifies this
      ensures Valid() && present
      ensures buttons == INITIAL_BUTTONS && activeTool == None
      ensures this.lasso == lasso && this.brush == brush
      ensures keyListeners == old(keyListeners) + 1
    {
      this.lasso := lasso;
      this.brush := brush;
      buttons := INITIAL_BUTTONS;
      present := true;
      keyListeners := keyListeners + 1;
    }

    /** `deactivateAll`: both tools are deactivated, nothing is active and
        no button is marked. */
    method DeactivateAll()
      requires Valid()
      modifies this, lasso, brush
      ensures Valid()
      ensures activeTool == None
      ensures SameTools(buttons, old(buttons)) && Marked(buttons, None)
      ensures present == old(present) && lasso == old(lasso) && brush == old(brush)
      ensures keyListeners == old(keyListeners)
      ensures lasso != null ==> lasso.isFilling == old(lasso.isFilling) && lasso.pending == old(lasso.pending) && lasso.bound == old(lasso.bound)
      ensures brush != null ==> brush.painted == old(brush.painted) && brush.bound == old(brush.bound)
    {
      if lasso != null {
        lasso.Deactivate();
      }
      if brush != null {
        brush.Deactivate();
      }
      activeTool := None;
      if present {
        var btns := buttons;
        var i := 0;
        while i < |btns|
          invariant 0 <= i <= |btns|
          invariant SameTools(btns, buttons)
          invariant forall k :: 0 <= k < i ==> !btns[k].active
        {
          btns := btns[i := btns[i].(active := false)];
          i := i + 1;
        }
        buttons := btns;
      }
    }

    /** `setActiveTool`: after deactivating both tools, `toolId` becomes
        the active tool, exactly its button is marked and the matching tool,
        if any, is activated. */
    method SetActiveTool(toolId: string)
      requires Valid() && present
      modifies this, lasso, brush
      ensures Valid()
      ensures activeTool == Some(toolId)
      ensures SameTools(buttons, old(buttons)) && Marked(buttons, Some(toolId))
      ensures lasso != null ==> (lasso.isActive <==> toolId == LASSO)
      ensures brush != null ==> (brush.isActive <==> toolId == TAPERED_BRUSH)
      ensures present && lasso == old(lasso) && brush == old(brush)
      ensures keyListeners == old(keyListeners)
      ensures lasso != null ==> lasso.isFilling == old(lasso.isFilling) && lasso.pending == old(lasso.pending) && lasso.bound == old(lasso.bound)
      ensures brush != null ==> brush.painted == old(brush.painted) && brush.bound == old(brush.bound)
    {
      DeactivateAll();
      activeTool := Some(toolId);
      var btns := buttons;
      var i := 0;
      while i < |btns|
        invariant 0 <= i <= |btns|
        invariant SameTools(btns, buttons)
        invariant forall k :: 0 <= k < i ==> (btns[k].active <==> btns[k].tool == toolId)
      {
        btns := btns[i := btns[i].(active := btns[i].tool == toolId)];
        i := i + 1;
      }
      buttons := btns;
      if toolId == LASSO && lasso != null {
        lasso.Activate();
      } else if toolId == TAPERED_BRUSH && brush != null {
        brush.Activate();
      }
    }

    /** `toggleTool`: the active tool is switched off; any other is
        selected. */
    method ToggleTool(toolId: string)
      requires Valid() && present
      modifies this, lasso, brush
      ensures Valid()
      ensures activeTool == Toggled(old(activeTool), toolId)
      ensures present && lasso == old(lasso) && brush == old(brush)
      ensures keyListeners == old(keyListeners)
      ensures lasso != null ==> lasso.isFilling == old(lasso.isFilling) && lasso.pending == old(lasso.pending) && lasso.bound == old(lasso.bound)
      ensures brush != null ==> brush.painted == old(brush.painted) && brush.bound == old(brush.bound)
    {
      if activeTool == Some(toolId) {
        DeactivateAll();
      } else {
        SetActiveTool(toolId);
      }
    }

    /** One run of the keyboard listener. */
    method HandleKey(key: string, targetTag: string)
      requires Valid() && present
      modifies this, lasso, brush
      ensures Valid()
      ensures activeTool == AfterKey(old(activeTool), key, targetTag)
      ensures KeyMap(key, targetTag) == NoCommand ==> activeTool == old(activeTool) && buttons == old(buttons)
      ensures present && lasso == old(lasso) && brush == old(brush)
      ensures keyListeners == old(keyListeners)
      ensures lasso != null ==> lasso.isFilling == old(lasso.isFilling) && lasso.pending == old(lasso.pending) && lasso.bound == old(lasso.bound)
      ensures brush != null ==> brush.painted == old(brush.painted) && brush.bound == old(brush.bound)
    {
      match KeyMap(key, targetTag)
      case ToggleCommand(id) =>
        ToggleTool(id);
      case DeactivateCommand =>
        DeactivateAll();
      case NoCommand =>
    }

    /** A key press on the document: every registration of the keyboard
        listener runs in turn. */
    method KeyDown(key: string, targetTag: string)
      requires Valid() && (keyListeners > 0 ==> present)
      modifies this, lasso, brush
      ensures Valid()
      ensures activeTool == AfterKeyPress(old(keyListeners), old(activeTool), key, targetTag)
      ensures present == old(present) && lasso == old(lasso) && brush == old(brush)
      ensures keyListeners == old(keyListeners)
      ensures lasso != null ==> lasso.isFilling == old(lasso.isFilling) && lasso.pending == old(lasso.pending) && lasso.bound == old(lasso.bound)
      ensures brush != null ==> brush.painted == old(brush.painted) && brush.bound == old(brush.bound)
    {
      var i := 0;
      while i < keyListeners
        invariant 0 <= i <= keyListeners
        invariant Valid()
        invariant activeTool == AfterKeyPress(i, old(activeTool), key, targetTag)
        invariant present == old(present) && lasso == old(lasso) && brush == old(brush)
        invariant keyListeners == old(keyListeners)
        invariant lasso != null ==> lasso.isFilling == old(lasso.isFilling) && lasso.pending == old(lasso.pending) && lasso.bound == old(lasso.bound)
        invariant brush != null ==> brush.painted == old(brush.painted) && brush.bound == old(brush.bound)
      {
        HandleKey(key, targetTag);
        i := i + 1;
      }
    }

    /** `destroy` as it is written: tools deactivated, toolbar removed,
        tools forgotten, nothing active, and the keyboard listener still
        registered. */
    method DestroyAsWritten()
      requires Valid()
      modifies this, lasso, brush
      ensures Valid()
      ensures !present && buttons == [] && activeTool == None && lasso == null && brush == null
      ensures keyListeners == old(keyListeners)
      ensures old(lasso) != null ==> old(lasso).Valid() && !old(lasso).isActive
      ensures old(brush) != null ==> old(brush).Valid() && !old(brush).isActive
      ensures old(lasso) != null ==> old(lasso).isFilling == old(lasso.isFilling) && old(lasso).pending == old(lasso.pending) && old(lasso).bound == old(lasso.bound)
      ensures old(brush) != null ==> old(brush).painted == old(brush.painted) && old(brush).bound == old(brush.bound)
    {
      DeactivateAll();
      present := false;
      buttons := [];
      lasso := null;
      brush := null;
      activeTool := None;
    }

    /** `destroy` with the keyboard listener removed as well, so that a
        later `init` registers it exactly once again. */
    method Destroy()
      requires Valid()
      modifies this, lasso, brush
      ensures Valid()
      ensures !present && buttons == [] && activeTool == None && lasso == null && brush == null
      ensures keyListeners == 0
      ensures old(lasso) != null ==> old(lasso).Valid() && !old(lasso).isActive
      ensures old(brush) != null ==> old(brush).Valid() && !old(brush).isActive
      ensures old(lasso) != null ==> old(lasso).isFilling == old(lasso.isFilling) && old(lasso).pending == old(lasso.pending) && old(lasso).bound == old(lasso.bound)
      ensures old(brush) != null ==> old(brush).painted == old(brush.painted) && old(brush).bound == old(brush.bound)
    {
      DeactivateAll();
      present := false;
      buttons := [];
      lasso := null;
      brush := null;
      activeTool := None;
      keyListeners := 0;
    }
  }

  /** The toolbar torn down and set up again for the same tools, as
      `destroy` is written, then `l` pressed: the listener is registered
      twice and the lasso stays off. */
  method ReinitAsWritten() returns (active: Option<string>, listeners: nat)
    ensures listeners == 2 && active == None
  {
    var gate := new InputGate();
    var lasso := new Lasso(gate);
    var brush := new Brush();
    var toolbar := new Toolbar();
    toolbar.Init(lasso, brush);
    toolbar.DestroyAsWritten();
    toolbar.Init(lasso, brush);
    toolbar.KeyDown("l", "CANVAS");
    DoubleListenerCancels(None, "CANVAS");
    active, listeners := toolbar.activeTool, toolbar.keyListeners;
  }

  /** The same sequence with `destroy` removing the listener: `l` turns the
      lasso on. */
  method Reinit() returns (active: Option<string>, listeners: nat)
    ensures listeners == 1 && active == Some(LASSO)
  {
    var gate := new InputGate();
    var lasso := new Lasso(gate);
    var brush := new Brush();
    var toolbar := new Toolbar();
    toolbar.Init(lasso, brush);
    toolbar.Destroy();
    toolbar.Init(lasso, brush);
    toolbar.KeyDown("l", "CANVAS");
    SingleListenerToggles(None, "CANVAS");
    active, listeners := toolbar.activeTool, toolbar.keyListeners;
  }
}
