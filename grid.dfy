/**
 * The scrolling ground grid: the per-vertex "moveable" flags and the
 * displacement the patched vertex shader applies to flagged vertices.
 * Shader arithmetic is over exact reals; floor and mod follow GLSL's
 * definitions (mod(x, y) = x - y * floor(x / y)).
 */
module GridShader {

  /** The shared uniforms the scene starts with: speed 1 and window size 20. */
  const Speed := 1.0
  const Size := 20.0

  /** The flag of vertex k: the block 1, 1, 0, 0 repeats every four vertices. */
  function MoveableFlag(k: nat): real {
    if k % 4 < 2 then 1.0 else 0.0
  }

  /**
   * Fills the flag buffer for a grid of vertexCount vertices: one block of four
   * flags per iteration, for as many iterations as i < vertexCount / 4 allows.
   */
  method BuildMoveable(vertexCount: nat) returns (moveable: seq<real>)
    ensures |moveable| == 4 * ((vertexCount + 3) / 4)
    ensures vertexCount <= |moveable| < vertexCount + 4
    ensures vertexCount % 4 == 0 ==> |moveable| == vertexCount
    ensures forall k :: 0 <= k < |moveable| ==> moveable[k] == MoveableFlag(k)
  {
    moveable := [];
    var i := 0;
    // i < vertexCount / 4 over JavaScript numbers is 4 * i < vertexCount
    while 4 * i < vertexCount
      invariant 0 <= i <= (vertexCount + 3) / 4
      invariant |moveable| == 4 * i
      invariant forall k :: 0 <= k < |moveable| ==> moveable[k] == MoveableFlag(k)
    {
      moveable := moveable + [1.0, 1.0, 0.0, 0.0];
      i := i + 1;
    }
  }

  /** The shader's test floor(moveable + 0.1) > 0.5. */
  predicate Flagged(moveable: real) {
    (moveable + 0.1).Floor as real > 0.5
  }

  /** A vertex scrolls exactly when its flag is at least 0.9. */
  lemma FlaggedIff(moveable: real)
    ensures Flagged(moveable) <==> moveable >= 0.9
  {
    var f := (moveable + 0.1).Floor;
    assert f as real <= moveable + 0.1 < f as real + 1.0;
    if moveable >= 0.9 {
      assert f >= 1;
    } else {
      assert f <= 0;
    }
  }

  /** q * y <= x < (q + 1) * y for q = floor(x / y) and y > 0. */
  lemma FloorScaled(x: real, y: real)
    requires y > 0.0
    ensures var q := (x / y).Floor as real; q * y <= x < q * y + y
  {
    var f := x / y;
    var q := f.Floor as real;
    var frac := f - q;
    assert 0.0 <= frac < 1.0;
    var rest := frac * y;
    assert 0.0 <= rest < y by {
      assert (1.0 - frac) * y > 0.0;
    }
    assert x == q * y + rest by {
      assert f * y == x;
      assert f * y == q * y + frac * y;
    }
  }

  /** GLSL's mod: for a positive modulus the result lies in [0, y). */
  function GlslMod(x: real, y: real): (r: real)
    requires y != 0.0
    ensures y > 0.0 ==> 0.0 <= r < y
  {
    var q := (x / y).Floor as real;
    assert y > 0.0 ==> q * y <= x < q * y + y by {
      if y > 0.0 {
        FloorScaled(x, y);
      }
    }
    x - y * q
  }

  /**
   * The new z of a flagged vertex: mod((z - start) + time * speed, size) + start
   * with start = -size / 2. For a positive size it lies in the window
   * [-size / 2, size / 2).
   */
  function ScrollZ(z: real, time: real, speed: real, size: real): (r: real)
    requires size != 0.0
    ensures size > 0.0 ==> -size / 2.0 <= r < size / 2.0
  {
    var start := size * -0.5;
    GlslMod((z - start) + time * speed, size) + start
  }

  /** The z the patched shader outputs for a vertex with the given flag. */
  function DisplacedZ(z: real, moveable: real, time: real, speed: real, size: real): (r: real)
    requires Flagged(moveable) ==> size != 0.0
    ensures !Flagged(moveable) ==> r == z
    ensures Flagged(moveable) && size > 0.0 ==> -size / 2.0 <= r < size / 2.0
  {
    if Flagged(moveable) then ScrollZ(z, time, speed, size) else z
  }

  /** With no elapsed scroll, a vertex already inside the window stays put. */
  lemma ScrollZKeepsInWindow(z: real, time: real, speed: real, size: real)
    requires size > 0.0 && time * speed == 0.0
    requires -size / 2.0 <= z < size / 2.0
    ensures ScrollZ(z, time, speed, size) == z
  {
    var x := (z - size * -0.5) + time * speed;
    assert 0.0 <= x / size < 1.0 by {
      assert 0.0 <= x < size;
      assert (x / size) * size == x;
    }
    assert (x / size).Floor == 0;
  }

  /** floor(a + k) == floor(a) + k for an integer k. */
  lemma FloorShift(a: real, k: int)
    ensures (a + k as real).Floor == a.Floor + k
  {
    var f := a.Floor;
    assert (f + k) as real <= a + k as real < (f + k) as real + 1.0;
  }

  /**
   * Advancing time * speed by any whole number of window sizes leaves the
   * scrolled position unchanged: the scroll is periodic with period size.
   */
  lemma ScrollZPeriodic(z: real, time: real, speed: real, time': real, speed': real, size: real, k: int)
    requires size != 0.0
    requires time' * speed' == time * speed + k as real * size
    ensures ScrollZ(z, time', speed', size) == ScrollZ(z, time, speed, size)
  {
    var x := (z - size * -0.5) + time * speed;
    var x' := (z - size * -0.5) + time' * speed';
    assert x' == x + k as real * size;
    assert x' / size == x / size + k as real;
    FloorShift(x / size, k);
    var q := (x / size).Floor;
    assert (x' / size).Floor == q + k;
    assert size * (q + k) as real == size * q as real + k as real * size;
    assert GlslMod(x', size) == GlslMod(x, size);
  }

  /** The seam: a vertex at the window's upper edge is drawn at its lower edge. */
  lemma ScrollZSeam(time: real, speed: real, size: real)
    requires size > 0.0 && time * speed == 0.0
    ensures ScrollZ(size / 2.0, time, speed, size) == -size / 2.0
  {
    var x := (size / 2.0 - size * -0.5) + time * speed;
    assert x == size;
    assert x / size == 1.0 by { assert size / size == 1.0; }
    assert (x / size).Floor == 1;
    assert GlslMod(x, size) == 0.0;
  }

  /** size 20, speed 1, z 9, time 2: mod(21, 20) - 10 == -9. */
  lemma ScrollZExample()
    ensures ScrollZ(9.0, 2.0, Speed, Size) == -9.0
  {
    assert (21.0 / 20.0).Floor == 1;
  }

  /**
   * Vertex k of the grid scrolls exactly when k mod 4 is 0 or 1; every other
   * vertex keeps its z whatever the time.
   */
  lemma GridVertexZ(k: nat, z: real, time: real, speed: real, size: real)
    requires size != 0.0
    ensures Flagged(MoveableFlag(k)) <==> k % 4 < 2
    ensures DisplacedZ(z, MoveableFlag(k), time, speed, size) ==
            if k % 4 < 2 then ScrollZ(z, time, speed, size) else z
  {
    FlaggedIff(MoveableFlag(k));
  }
}
