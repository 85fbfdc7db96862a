/**
 * The viewer window's input handling: the keyboard and special-key tables
 * that map key codes to Canvas mutators, and the one-shot fullscreen flag.
 */
module Window {
  import opened Render

  // Keyboard codes (`ord` of the pressed character).
  const ESCAPE: int := 27
  const E_CHAR: int := 101
  const FILTER: int := 102
  const LIGHTN: int := 108
  const DEPTHT: int := 100
  const BLENDT: int := 98

  // Special-key codes (arrow keys, Home and End).
  const LEFTXY: int := 100
  const RIGHXY: int := 102
  const UPARYZ: int := 101
  const DOARYZ: int := 103
  const LEARXZ: int := 106
  const RIARXZ: int := 107

  /** What one keyboard event leaves behind: the render state, the
      fullscreen flag, whether the program ends, and whether the window
      was switched to fullscreen by this event. */
  datatype KeyOutcome = KeyOutcome(state: State, fullscreen: int, quit: bool, enterFullScreen: bool)

  /** The keyboard table of keyPressed. */
  function KeyStep(s: State, fullscreen: int, key: int): KeyOutcome
  {
    if key == ESCAPE then KeyOutcome(s, fullscreen, true, false)
    else if key == E_CHAR then
      if fullscreen == 0 then KeyOutcome(s, 1, false, true)
      else KeyOutcome(s, fullscreen, false, false)
    else if key == FILTER then KeyOutcome(FilterCycled(s), fullscreen, false, false)
    else if key == LIGHTN then KeyOutcome(Toggled(s, Lighting), fullscreen, false, false)
    else if key == BLENDT then KeyOutcome(Toggled(s, Blending), fullscreen, false, false)
    else if key == DEPTHT then KeyOutcome(Toggled(s, DepthTest), fullscreen, false, false)
    else KeyOutcome(s, fullscreen, false, false)
  }

  /** The special-key table of specialkeypressed. */
  function SpecialKeyStep(s: State, key: int): State
  {
    if key == LEFTXY then Rotated(s, XY, -1)
    else if key == RIGHXY then Rotated(s, XY, 1)
    else if key == DOARYZ then Rotated(s, YZ, -1)
    else if key == UPARYZ then Rotated(s, YZ, 1)
    else if key == LEARXZ then Rotated(s, XZ, -1)
    else if key == RIARXZ then Rotated(s, XZ, 1)
    else s
  }

  /** Codes the keyboard table reacts to. */
  predicate IsKeyCode(key: int)
  {
    key in {ESCAPE, E_CHAR, FILTER, LIGHTN, BLENDT, DEPTHT}
  }

  /** Codes the special-key table reacts to. */
  predicate IsSpecialKeyCode(key: int)
  {
    key in {LEFTXY, RIGHXY, DOARYZ, UPARYZ, LEARXZ, RIARXZ}
  }

  /** The rotation a special key applies to the counter of axis a. */
  function SpecialDelta(key: int, a: Axis): int
  {
    match a
    case XY => if key == RIGHXY then 1 else if key == LEFTXY then -1 else 0
    case YZ => if key == UPARYZ then 1 else if key == DOARYZ then -1 else 0
    case XZ => if key == RIARXZ then 1 else if key == LEARXZ then -1 else 0
  }

  /** Each special code moves exactly one counter by exactly one degree,
      and leaves the toggles and the filter alone; any other code changes
      nothing. */
  lemma SpecialKeyEffect(s: State, key: int)
    ensures forall a :: Counter(SpecialKeyStep(s, key), a) == Counter(s, a) + SpecialDelta(key, a)
    ensures forall t :: Flag(SpecialKeyStep(s, key), t) == Flag(s, t)
    ensures SpecialKeyStep(s, key).filter == s.filter
    ensures IsSpecialKeyCode(key) <==> SpecialKeyStep(s, key) != s
    ensures IsSpecialKeyCode(key) ==>
      exists a :: (SpecialDelta(key, a) == 1 || SpecialDelta(key, a) == -1)
        && forall b :: b != a ==> SpecialDelta(key, b) == 0
  {
    if IsSpecialKeyCode(key) {
      var a := if key in {LEFTXY, RIGHXY} then XY else if key in {UPARYZ, DOARYZ} then YZ else XZ;
      assert SpecialDelta(key, a) == 1 || SpecialDelta(key, a) == -1;
      assert Counter(SpecialKeyStep(s, key), a) != Counter(s, a);
    }
  }

  /** Keys outside the keyboard table change nothing. */
  lemma KeyStepUnmatched(s: State, fullscreen: int, key: int)
    requires !IsKeyCode(key)
    ensures KeyStep(s, fullscreen, key) == KeyOutcome(s, fullscreen, false, false)
  {
  }

  /** Only Escape ends the program; the filter key and the three toggle
      keys each change exactly their own part of the state. */
  lemma KeyStepEffect(s: State, fullscreen: int, key: int)
    ensures KeyStep(s, fullscreen, key).quit <==> key == ESCAPE
    ensures KeyStep(s, fullscreen, key).state.filter != s.filter ==> key == FILTER
    ensures forall t :: Flag(KeyStep(s, fullscreen, key).state, t) != Flag(s, t) ==>
      key == (match t case Lighting => LIGHTN case Blending => BLENDT case DepthTest => DEPTHT)
    ensures forall a :: Counter(KeyStep(s, fullscreen, key).state, a) == Counter(s, a)
    ensures KeyStep(s, fullscreen, key).fullscreen != fullscreen ==> key == E_CHAR && fullscreen == 0
  {
  }

  /** The filter key keeps the filter mode among 0, 1 and 2. */
  lemma KeyStepKeepsFilterInRange(s: State, fullscreen: int, key: int)
    requires FilterInRange(s.filter)
    ensures FilterInRange(KeyStep(s, fullscreen, key).state.filter)
  {
  }

  /** The effect of a run of keyboard events: the final state and flag,
      and how many times the window was switched to fullscreen. Escape ends
      the program, so the keys after it are never handled. */
  datatype Session = Session(state: State, fullscreen: int, fullScreenRequests: nat, quit: bool)

  function RunKeys(s: State, fullscreen: int, keys: seq<int>): Session
    decreases |keys|
  {
    if keys == [] then Session(s, fullscreen, 0, false)
    else
      var o := KeyStep(s, fullscreen, keys[0]);
      if o.quit then Session(o.state, o.fullscreen, 0, true)
      else
        var rest := RunKeys(o.state, o.fullscreen, keys[1..]);
        rest.(fullScreenRequests := rest.fullScreenRequests + if o.enterFullScreen then 1 else 0)
  }

  /** Whatever keys are pressed, the window is switched to fullscreen at
      most once, and never when the flag is already set; the flag only ever
      moves from 0 to 1. */
  lemma {:induction false} FullScreenAtMostOnce(s: State, fullscreen: int, keys: seq<int>)
    ensures RunKeys(s, fullscreen, keys).fullScreenRequests <= (if fullscreen == 0 then 1 else 0)
    ensures RunKeys(s, fullscreen, keys).fullscreen == fullscreen
         || (fullscreen == 0 && RunKeys(s, fullscreen, keys).fullscreen == 1)
    decreases |keys|
  {
    if keys != [] {
      var o := KeyStep(s, fullscreen, keys[0]);
      if !o.quit {
        FullScreenAtMostOnce(o.state, o.fullscreen, keys[1..]);
      }
    }
  }

  /** Three presses of the filter key return to the starting state; four
      equal one. */
  lemma FilterKeyPeriod(s: State, fullscreen: int)
    requires FilterInRange(s.filter)
    ensures RunKeys(s, fullscreen, [FILTER, FILTER, FILTER]).state == s
    ensures RunKeys(s, fullscreen, [FILTER, FILTER, FILTER, FILTER]).state
         == KeyStep(s, fullscreen, FILTER).state
  {
    NextFilterPeriod(s.filter);
    var s1 := FilterCycled(s);
    var s2 := FilterCycled(s1);
    var s3 := FilterCycled(s2);
    var s4 := FilterCycled(s3);
    assert [FILTER][1..] == [];
    assert RunKeys(s3, fullscreen, [FILTER]).state == s4;
    assert RunKeys(s2, fullscreen, [FILTER]).state == s3;
    assert [FILTER, FILTER][1..] == [FILTER];
    assert RunKeys(s2, fullscreen, [FILTER, FILTER]).state == s4;
    assert RunKeys(s1, fullscreen, [FILTER, FILTER]).state == s3;
    assert [FILTER, FILTER, FILTER][1..] == [FILTER, FILTER];
    assert RunKeys(s1, fullscreen, [FILTER, FILTER, FILTER]).state == s4;
    assert [FILTER, FILTER, FILTER, FILTER][1..] == [FILTER, FILTER, FILTER];
  }

  class GLWindow {
    var canvas: Canvas
    var fullscreen: int  // `bool` in the source: 0 until the E key is pressed

    constructor (canvas: Canvas)
      ensures this.canvas == canvas && fullscreen == 0
    {
      this.canvas := canvas;
      fullscreen := 0;
    }

    /** keyPressed: returns whether the program ends (Escape) and whether
        glutFullScreen is called. */
    method KeyPressed(key: int) returns (quit: bool, enterFullScreen: bool)
      modifies this`fullscreen, canvas
      ensures KeyOutcome(canvas.Snapshot(), fullscreen, quit, enterFullScreen)
           == KeyStep(old(canvas.Snapshot()), old(fullscreen), key)
      ensures canvas.name == old(canvas.name)
      ensures canvas.glLight1 == (if key == LIGHTN then canvas.light else old(canvas.glLight1))
      ensures canvas.glBlend == (if key == BLENDT then canvas.blending else old(canvas.glBlend))
      ensures canvas.glDepthTest == (if key == DEPTHT then canvas.depthTest else old(canvas.glDepthTest))
      ensures old(canvas.GLSynced()) ==> canvas.GLSynced()
      ensures old(canvas.FilterValid()) ==> canvas.FilterValid()
    {
      quit, enterFullScreen := false, false;
      if key == ESCAPE {
        quit := true;
      } else if key == E_CHAR {
        if fullscreen == 0 {
          fullscreen := 1;
          enterFullScreen := true;
        }
      } else if key == FILTER {
        canvas.filter := canvas.filter + 1;
        if canvas.filter > 2 {
          canvas.filter := 0;
        }
      } else if key == LIGHTN {
        canvas.ChangeLight();
      } else if key == BLENDT {
        canvas.ChangeBlending();
      } else if key == DEPTHT {
        canvas.ChangeDepth();
      }
    }

    /** specialkeypressed. */
    method SpecialKeyPressed(key: int)
      modifies canvas
      ensures canvas.Snapshot() == SpecialKeyStep(old(canvas.Snapshot()), key)
      ensures canvas.name == old(canvas.name)
      ensures canvas.glLight1 == old(canvas.glLight1) && canvas.glBlend == old(canvas.glBlend)
      ensures canvas.glDepthTest == old(canvas.glDepthTest)
    {
      if key == LEFTXY {
        canvas.DecreaseXYRotation();
      } else if key == RIGHXY {
        canvas.IncreaseXYRotation();
      } else if key == DOARYZ {
        canvas.DecreaseYZRotation();
      } else if key == UPARYZ {
        canvas.IncreaseYZRotation();
      } else if key == LEARXZ {
        canvas.DecreaseXZRotation();
      } else if key == RIARXZ {
        canvas.IncreaseXZRotation();
      }
    }
  }
}
