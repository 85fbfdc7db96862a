/**
 * The render state of the viewer's `Canvas`: three boolean toggles, three
 * rotation counters and a texture-filter mode, the mutators the input events
 * drive, and the projection `ReSizeGLScene` sets up.
 *
 * The OpenGL capabilities the toggles switch (GL_LIGHT1, GL_BLEND,
 * GL_DEPTH_TEST) are mirrored by ghost fields of the Canvas.
 */
module Render {

  /** The three boolean toggles. */
  datatype Toggle = Lighting | Blending | DepthTest

  /** The three rotation counters, named by the plane they rotate in. */
  datatype Axis = XY | YZ | XZ

  /** A snapshot of a Canvas's render state. */
  datatype State = State(
    filter: int,
    light: bool,
    blending: bool,
    depthTest: bool,
    xyRotation: int,
    yzRotation: int,
    xzRotation: int)

  /** The state a fresh Canvas starts in. */
  function Initial(): State
  {
    State(0, true, true, false, 0, 0, 0)
  }

  function Flag(s: State, t: Toggle): bool
  {
    match t
    case Lighting => s.light
    case Blending => s.blending
    case DepthTest => s.depthTest
  }

  function Counter(s: State, a: Axis): int
  {
    match a
    case XY => s.xyRotation
    case YZ => s.yzRotation
    case XZ => s.xzRotation
  }

  /** The filter modes are 0, 1 and 2. */
  predicate FilterInRange(f: int)
  {
    0 <= f <= 2
  }

  /** The state after flipping toggle t. */
  function Toggled(s: State, t: Toggle): State
  {
    match t
    case Lighting => s.(light := !s.light)
    case Blending => s.(blending := !s.blending)
    case DepthTest => s.(depthTest := !s.depthTest)
  }

  /** The state after adding delta degrees to the counter of axis a. */
  function Rotated(s: State, a: Axis, delta: int): State
  {
    match a
    case XY => s.(xyRotation := s.xyRotation + delta)
    case YZ => s.(yzRotation := s.yzRotation + delta)
    case XZ => s.(xzRotation := s.xzRotation + delta)
  }

  /** The filter mode after one press of the filter key: one up, back to 0
      past 2. */
  function NextFilter(f: int): int
  {
    if f + 1 > 2 then 0 else f + 1
  }

  function FilterCycled(s: State): State
  {
    s.(filter := NextFilter(s.filter))
  }

  /** Flipping a toggle negates exactly that flag; the other flags, the
      filter and the rotation counters are unchanged. */
  lemma ToggledFlipsOnlyItsFlag(s: State, t: Toggle)
    ensures Flag(Toggled(s, t), t) == !Flag(s, t)
    ensures forall u :: u != t ==> Flag(Toggled(s, t), u) == Flag(s, u)
    ensures forall a :: Counter(Toggled(s, t), a) == Counter(s, a)
    ensures Toggled(s, t).filter == s.filter
  {
  }

  /** Flipping a toggle twice restores the state. */
  lemma ToggledTwice(s: State, t: Toggle)
    ensures Toggled(Toggled(s, t), t) == s
  {
  }

  /** A rotation changes the counter of its own axis by exactly delta; the
      other counters, the flags and the filter are unchanged. */
  lemma RotatedChangesOnlyItsCounter(s: State, a: Axis, delta: int)
    ensures Counter(Rotated(s, a, delta), a) == Counter(s, a) + delta
    ensures forall b :: b != a ==> Counter(Rotated(s, a, delta), b) == Counter(s, b)
    ensures forall t :: Flag(Rotated(s, a, delta), t) == Flag(s, t)
    ensures Rotated(s, a, delta).filter == s.filter
  {
  }

  /** An increase followed by a decrease, or the other way round, is the
      identity. */
  lemma RotatedInverse(s: State, a: Axis)
    ensures Rotated(Rotated(s, a, 1), a, -1) == s
    ensures Rotated(Rotated(s, a, -1), a, 1) == s
  {
  }

  /** k presses of the same rotation key. */
  function RotatedTimes(s: State, a: Axis, delta: int, k: nat): State
  {
    if k == 0 then s else Rotated(RotatedTimes(s, a, delta, k - 1), a, delta)
  }

  /** k presses add k * delta degrees: the counter is unbounded, with no
      clamping or wrap-around. */
  lemma {:induction false} RotatedTimesAdds(s: State, a: Axis, delta: int, k: nat)
    ensures RotatedTimes(s, a, delta, k) == Rotated(s, a, k * delta)
  {
    if k > 0 {
      RotatedTimesAdds(s, a, delta, k - 1);
      assert (k - 1) * delta + delta == k * delta;
    }
  }

  /** 360 one-degree presses give a full turn: the angle modulo 360 is the
      one the state started with, and nothing else changed. */
  lemma FullTurn(s: State, a: Axis)
    ensures Counter(RotatedTimes(s, a, 1, 360), a) == Counter(s, a) + 360
    ensures Counter(RotatedTimes(s, a, 1, 360), a) % 360 == Counter(s, a) % 360
    ensures forall b :: b != a ==> Counter(RotatedTimes(s, a, 1, 360), b) == Counter(s, b)
  {
    RotatedTimesAdds(s, a, 1, 360);
  }

  /** The filter key keeps the filter among 0, 1 and 2. */
  lemma NextFilterInRange(f: int)
    requires FilterInRange(f)
    ensures FilterInRange(NextFilter(f))
    ensures NextFilter(f) != f
  {
  }

  /** Three presses of the filter key come back to the start, and four
      presses equal one. */
  lemma NextFilterPeriod(f: int)
    requires FilterInRange(f)
    ensures NextFilter(NextFilter(NextFilter(f))) == f
    ensures NextFilter(NextFilter(NextFilter(NextFilter(f)))) == NextFilter(f)
  {
  }

  // ---------------------------------------------------------------------
  // Projection
  // ---------------------------------------------------------------------

  /** What ReSizeGLScene hands to glViewport and glOrtho. */
  datatype Projection = Projection(
    viewportWidth: int,
    viewportHeight: int,
    left: real,
    right: real,
    bottom: real,
    top: real,
    near: real,
    far: real)

  /** ReSizeGLScene: a zero width is replaced by 1; the orthographic box is
      [-4, 4] across and scaled by height / width vertically. */
  function Resize(width: int, height: int): (p: Projection)
    ensures p.viewportWidth != 0
    ensures width != 0 ==> p.viewportWidth == width
    ensures p.viewportHeight == height
    ensures p.left == -4.0 && p.right == 4.0 && p.near == -100.0 && p.far == 100.0
    ensures (p.top - p.bottom) * (p.viewportWidth as real) == (p.right - p.left) * (height as real)
    ensures p.bottom == -p.top
  {
    var w := if width == 0 then 1 else width;
    var aspect := height as real / w as real;
    Projection(w, height, -4.0, 4.0, -4.0 * aspect, 4.0 * aspect, -100.0, 100.0)
  }

  /** A zero width behaves exactly as a width of 1. */
  lemma ResizeZeroWidth(height: int)
    ensures Resize(0, height) == Resize(1, height)
  {
  }

  // ---------------------------------------------------------------------
  // Canvas
  // ---------------------------------------------------------------------

  class Canvas {
    var name: string
    var filter: int
    var light: bool
    var blending: bool
    var depthTest: bool
    var xyRotation: int
    var yzRotation: int
    var xzRotation: int

    // Mirror of the OpenGL capabilities the toggles switch.
    ghost var glLight1: bool
    ghost var glBlend: bool
    ghost var glDepthTest: bool

    function Snapshot(): State
      reads this
    {
      State(filter, light, blending, depthTest, xyRotation, yzRotation, xzRotation)
    }

    /** The filter mode is one of 0, 1 and 2. */
    ghost predicate FilterValid()
      reads this
    {
      FilterInRange(filter)
    }

    /** The GL capabilities agree with the toggles. */
    ghost predicate GLSynced()
      reads this
    {
      glLight1 == light && glBlend == blending && glDepthTest == depthTest
    }

    constructor (textureName: string)
      ensures Snapshot() == Initial() && name == textureName
      ensures FilterValid()
    {
      name := textureName;
      filter := 0;
      light := true;
      blending := true;
      depthTest := false;
      xyRotation := 0;
      yzRotation := 0;
      xzRotation := 0;
    }

    /** The capability settings of initGL: GL_LIGHT1 on, GL_DEPTH_TEST off,
        GL_BLEND on, then the projection for the window size. */
    method InitGL(width: int, height: int) returns (p: Projection)
      modifies this`glLight1, this`glBlend, this`glDepthTest
      ensures glLight1 && glBlend && !glDepthTest
      ensures p == Resize(width, height)
      ensures old(Snapshot()) == Initial() ==> GLSynced()
    {
      glLight1 := true;
      glDepthTest := false;
      glBlend := true;
      p := Resize(width, height);
    }

    method ChangeLight()
      modifies this`light, this`glLight1
      ensures Snapshot() == Toggled(old(Snapshot()), Lighting)
      ensures glLight1 == light
      ensures glBlend == old(glBlend) && glDepthTest == old(glDepthTest)
    {
      light := !light;
      if light {
        glLight1 := true;
      } else {
        glLight1 := false;
      }
    }

    method ChangeBlending()
      modifies this`blending, this`glBlend
      ensures Snapshot() == Toggled(old(Snapshot()), Blending)
      ensures glBlend == blending
      ensures glLight1 == old(glLight1) && glDepthTest == old(glDepthTest)
    {
      blending := !blending;
      if blending {
        glBlend := true;
      } else {
        glBlend := false;
      }
    }

    method ChangeDepth()
      modifies this`depthTest, this`glDepthTest
      ensures Snapshot() == Toggled(old(Snapshot()), DepthTest)
      ensures glDepthTest == depthTest
      ensures glLight1 == old(glLight1) && glBlend == old(glBlend)
    {
      depthTest := !depthTest;
      if depthTest {
        glDepthTest := true;
      } else {
        glDepthTest := false;
      }
    }

    method IncreaseXYRotation()
      modifies this`xyRotation
      ensures Snapshot() == Rotated(old(Snapshot()), XY, 1)
    {
      xyRotation := xyRotation + 1;
    }

    method DecreaseXYRotation()
      modifies this`xyRotation
      ensures Snapshot() == Rotated(old(Snapshot()), XY, -1)
    {
      xyRotation := xyRotation - 1;
    }

    method IncreaseYZRotation()
      modifies this`yzRotation
      ensures Snapshot() == Rotated(old(Snapshot()), YZ, 1)
    {
      yzRotation := yzRotation + 1;
    }

    method DecreaseYZRotation()
      modifies this`yzRotation
      ensures Snapshot() == Rotated(old(Snapshot()), YZ, -1)
    {
      yzRotation := yzRotation - 1;
    }

    method IncreaseXZRotation()
      modifies this`xzRotation
      ensures Snapshot() == Rotated(old(Snapshot()), XZ, 1)
    {
      xzRotation := xzRotation + 1;
    }

    method DecreaseXZRotation()
      modifies this`xzRotation
      ensures Snapshot() == Rotated(old(Snapshot()), XZ, -1)
    {
      xzRotation := xzRotation - 1;
    }
  }
}
