/**
 * The per-frame arithmetic of one particle (particles.js:228-269), on values,
 * in exact real arithmetic.
 *
 * `Math.sqrt` is not modelled: the distance `d` from the pointer is an input,
 * tied to the coordinates by `d >= 0 && d * d == dx * dx + dy * dy`. With that
 * `d`, `Math.cos(Math.atan2(dy, dx))` and `Math.sin(Math.atan2(dy, dx))` are
 * exactly `dx / d` and `dy / d` when `d > 0`, and 1 and 0 when `d == 0`
 * (`atan2(0, 0)` is 0), so the direction of the push needs no trigonometry.
 */
module Kinematics {
  import opened Wrappers

  /** One axis of a particle: its coordinate and its speed along that axis. */
  datatype Axis = Axis(pos: real, speed: real)

  /** The fields of a particle that `update` changes. */
  datatype Motion = Motion(x: real, y: real, speedX: real, speedY: real, size: real)

  /** How far the pointer pushes a particle it touches at distance 0, per frame. */
  const Repel: real := 3.0
  /** How much a particle under the pointer grows, at most. */
  const Grow: real := 2.0
  /** The fraction of the gap to the base size closed per frame. */
  const Decay: real := 0.1

  function Abs(v: real): real {
    if v < 0.0 then -v else v
  }

  function Min(a: real, b: real): real {
    if a <= b then a else b
  }

  function Max(a: real, b: real): real {
    if a >= b then a else b
  }

  /**
   * `d` is the Euclidean length of the vector (dx, dy): it is non-negative and
   * its square is dx * dx + dy * dy. That a zero length belongs to the zero
   * vector follows from the square; it is spelled out so that no proof has to
   * derive it.
   */
  predicate IsDistance(d: real, dx: real, dy: real) {
    d >= 0.0 && d * d == dx * dx + dy * dy && (d == 0.0 ==> dx == 0.0 && dy == 0.0)
  }

  predicate InBounds(m: Motion, width: real, height: real) {
    0.0 <= m.x <= width && 0.0 <= m.y <= height
  }

  /** The size lies between the base size and the base size grown by `Grow`. */
  predicate InBand(size: real, base: real) {
    base <= size <= base + Grow
  }

  /**
   * One axis of the Euler step and the edge bounce (particles.js:230-241):
   * move by the speed; if that lands at or past an edge, reverse the speed
   * and clamp back onto the canvas.
   */
  function Bounce(pos: real, speed: real, limit: real): (r: Axis)
    requires limit >= 0.0
    // the new coordinate is on the canvas
    ensures 0.0 <= r.pos <= limit
    // the speed keeps its magnitude
    ensures Abs(r.speed) == Abs(speed)
    // it reverses exactly when the step reaches an edge
    ensures pos + speed <= 0.0 || pos + speed >= limit ==> r.speed == -speed
    ensures 0.0 < pos + speed < limit ==> r.speed == speed && r.pos == pos + speed
    // a particle that reaches an edge stays on that edge
    ensures pos + speed <= 0.0 ==> r.pos == 0.0
    ensures pos + speed >= limit ==> r.pos == limit
  {
    var moved := pos + speed;
    if moved <= 0.0 || moved >= limit then Axis(Max(0.0, Min(limit, moved)), -speed)
    else Axis(moved, speed)
  }

  /** The move-and-bounce part of `update` (particles.js:230-241), on both axes. */
  function Move(m: Motion, width: real, height: real): (r: Motion)
    requires width >= 0.0 && height >= 0.0
    ensures InBounds(r, width, height)
    ensures Abs(r.speedX) == Abs(m.speedX) && Abs(r.speedY) == Abs(m.speedY)
    ensures r.size == m.size
  {
    var ax := Bounce(m.x, m.speedX, width);
    var ay := Bounce(m.y, m.speedY, height);
    Motion(ax.pos, ay.pos, ax.speed, ay.speed, m.size)
  }

  /** How strongly the pointer acts at distance `d` (particles.js:251): 1 at the pointer, 0 at the radius. */
  function Force(d: real, radius: real): (f: real)
    requires 0.0 <= d < radius
    ensures 0.0 < f <= 1.0
    ensures f == 1.0 <==> d == 0.0
  {
    (radius - d) / radius
  }

  /** The size one frame closer to the base size (particles.js:263, 267). */
  function Relax(size: real, base: real): (s: real)
    // the gap to the base size shrinks by exactly a factor 0.9 ...
    ensures s - base == (1.0 - Decay) * (size - base)
    // ... so it never grows, and the band is kept
    ensures Abs(s - base) <= Abs(size - base)
    ensures InBand(size, base) ==> InBand(s, base)
  {
    size + (base - size) * Decay
  }

  /**
   * `(cos(atan2(dy, dx)), sin(atan2(dy, dx)))` for the vector (dx, dy) of
   * length `d`: the vector divided by its length, and (1, 0) for the zero vector,
   * where `atan2(0, 0)` is 0.
   */
  function Direction(dx: real, dy: real, d: real): (c: (real, real))
    // scaled by the length it gives back the vector
    ensures IsDistance(d, dx, dy) ==> c.0 * d == dx && c.1 * d == dy
    ensures d == 0.0 ==> c == (1.0, 0.0)
  {
    if d == 0.0 then (1.0, 0.0) else (dx / d, dy / d)
  }

  /**
   * The push of particles.js:251-254, where (dx, dy) is the offset from the
   * particle to the pointer and `d` its length: `force * 3` along that offset.
   */
  function Push(dx: real, dy: real, d: real, radius: real): (real, real)
    requires 0.0 <= d < radius
  {
    var force := Force(d, radius);
    var angle := Direction(dx, dy, d);
    (angle.0 * force * Repel, angle.1 * force * Repel)
  }

  /** The pointer is known: both of its coordinates are set. */
  predicate Pointing(mouseX: Option<real>, mouseY: Option<real>) {
    mouseX.Some? && mouseY.Some?
  }

  /** `d` is the distance from `m` to the pointer, when there is a pointer. */
  predicate DistanceTo(m: Motion, mouseX: Option<real>, mouseY: Option<real>, d: real) {
    Pointing(mouseX, mouseY) ==> IsDistance(d, mouseX.value - m.x, mouseY.value - m.y)
  }

  /** The particle is inside the pointer's radius (particles.js:244, 249). */
  predicate Influenced(mouseX: Option<real>, mouseY: Option<real>, radius: real, d: real) {
    Pointing(mouseX, mouseY) && d < radius
  }

  /**
   * The pointer part of `update` (particles.js:244-268): inside the radius the
   * particle is pushed away and grown; otherwise, or with no pointer, its size
   * relaxes towards the base size.
   */
  function Interact(m: Motion, base: real, mouseX: Option<real>, mouseY: Option<real>, radius: real, d: real): (r: Motion)
    requires radius > 0.0
    requires Pointing(mouseX, mouseY) ==> d >= 0.0
    ensures r.speedX == m.speedX && r.speedY == m.speedY
    ensures !Influenced(mouseX, mouseY, radius, d) ==>
      r.x == m.x && r.y == m.y && r.size - base == (1.0 - Decay) * (m.size - base)
    ensures Influenced(mouseX, mouseY, radius, d) ==>
      r.size == base + Grow * Force(d, radius) && InBand(r.size, base)
    ensures InBand(m.size, base) ==> InBand(r.size, base)
  {
    if Pointing(mouseX, mouseY) && d < radius then
      var push := Push(mouseX.value - m.x, mouseY.value - m.y, d, radius);
      Motion(m.x - push.0, m.y - push.1, m.speedX, m.speedY, base + Force(d, radius) * Grow)
    else
      m.(size := Relax(m.size, base))
  }

  /** A whole `update` (particles.js:228-269); `d` is measured after the bounce. */
  function Update(m: Motion, base: real, mouseX: Option<real>, mouseY: Option<real>,
                  radius: real, width: real, height: real, d: real): (r: Motion)
    requires width >= 0.0 && height >= 0.0 && radius > 0.0
    requires Pointing(mouseX, mouseY) ==> d >= 0.0
    // speeds keep their magnitudes
    ensures Abs(r.speedX) == Abs(m.speedX) && Abs(r.speedY) == Abs(m.speedY)
    // out of the pointer's reach the particle stays on the canvas (the push can leave it)
    ensures !Influenced(mouseX, mouseY, radius, d) ==> InBounds(r, width, height)
    // the size stays between the base size and the base size plus 2
    ensures InBand(m.size, base) ==> InBand(r.size, base)
  {
    Interact(Move(m, width, height), base, mouseX, mouseY, radius, d)
  }

  /**
   * The push moves the particle straight away from the pointer: its new
   * distance is the old one plus `Repel * force`, so strictly larger.
   */
  lemma Repulsion(m: Motion, base: real, mouseX: Option<real>, mouseY: Option<real>, radius: real, d: real)
    requires radius > 0.0 && DistanceTo(m, mouseX, mouseY, d)
    requires Influenced(mouseX, mouseY, radius, d)
    ensures var r := Interact(m, base, mouseX, mouseY, radius, d);
      IsDistance(d + Repel * Force(d, radius), mouseX.value - r.x, mouseY.value - r.y)
      && d + Repel * Force(d, radius) > d
  {
    var dx, dy := mouseX.value - m.x, mouseY.value - m.y;
    var push := Push(dx, dy, d, radius);
    var r := Interact(m, base, mouseX, mouseY, radius, d);
    assert r.x == m.x - push.0 && r.y == m.y - push.1;
    assert mouseX.value - r.x == dx + push.0 && mouseY.value - r.y == dy + push.1;
    PushAway(dx, dy, d, radius);
  }

  /** Adding the push to the offset from the particle to the pointer lengthens it by `Repel * force`. */
  lemma PushAway(dx: real, dy: real, d: real, radius: real)
    requires IsDistance(d, dx, dy) && 0.0 <= d < radius
    ensures IsDistance(d + Repel * Force(d, radius), dx + Push(dx, dy, d, radius).0, dy + Push(dx, dy, d, radius).1)
  {
    var f := Force(d, radius);
    var e := Repel * f;
    var c := Direction(dx, dy, d);
    var push := Push(dx, dy, d, radius);
    assert push.0 == c.0 * e by {
      assert push.0 == c.0 * f * Repel;
    }
    assert push.1 == c.1 * e by {
      assert push.1 == c.1 * f * Repel;
    }
    if d == 0.0 {
      assert c == (1.0, 0.0);
      assert push.0 == e && push.1 == 0.0;
    } else {
      assert c == (dx / d, dy / d);
      Stretch(dx, dy, d, e);
    }
  }

  /**
   * The push comes after the bounce, so it can carry a particle off the
   * canvas: a particle resting one unit from the left edge, with the pointer
   * one unit to its right, ends up left of the edge. This is why `Update`
   * promises the canvas bounds only out of the pointer's reach.
   */
  lemma PushCanLeaveCanvas()
    ensures var r := Update(Motion(1.0, 1.0, 0.0, 0.0, 1.0), 1.0, Some(2.0), Some(1.0), 150.0, 100.0, 100.0, 1.0);
      DistanceTo(Move(Motion(1.0, 1.0, 0.0, 0.0, 1.0), 100.0, 100.0), Some(2.0), Some(1.0), 1.0)
      && r.x < 0.0 && !InBounds(r, 100.0, 100.0)
  {
  }

  /**
   * `Repulsion` is about the push alone, measured from the position after the
   * step: over a whole frame the step can bring the particle nearer than the
   * push carries it back. A particle 149.9 from the pointer, moving towards it
   * at 0.5 per frame, ends the frame 149.412 away.
   */
  lemma FrameCanApproach()
    ensures var m := Motion(500.0, 500.0, 0.5, 0.0, 1.0);
      var r := Update(m, 1.0, Some(649.9), Some(500.0), 150.0, 1000.0, 1000.0, 149.4);
      IsDistance(149.9, 649.9 - m.x, 500.0 - m.y)
      && DistanceTo(Move(m, 1000.0, 1000.0), Some(649.9), Some(500.0), 149.4)
      && IsDistance(149.412, 649.9 - r.x, 500.0 - r.y)
      && 149.412 < 149.9
  {
  }

  /** Moving a vector of length `d > 0` further along itself by `e` gives length `d + e`. */
  lemma Stretch(dx: real, dy: real, d: real, e: real)
    requires d > 0.0 && d * d == dx * dx + dy * dy
    ensures (dx + dx / d * e) * (dx + dx / d * e) + (dy + dy / d * e) * (dy + dy / d * e) == (d + e) * (d + e)
  {
    var k := (d + e) / d;
    assert k * d == d + e;
    assert dx + dx / d * e == dx * k;
    assert dy + dy / d * e == dy * k;
    calc {
      (dx * k) * (dx * k) + (dy * k) * (dy * k);
      (dx * dx + dy * dy) * (k * k);
      (d * d) * (k * k);
      (k * d) * (k * d);
    }
  }

  /** `n` frames of `update` with no pointer. */
  function Drift(m: Motion, base: real, width: real, height: real, n: nat): (r: Motion)
    requires width >= 0.0 && height >= 0.0
    decreases n
  {
    if n == 0 then m
    else Drift(Update(m, base, None, None, 1.0, width, height, 0.0), base, width, height, n - 1)
  }

  function Pow(b: real, n: nat): real {
    if n == 0 then 1.0 else b * Pow(b, n - 1)
  }

  /**
   * With no pointer, the gap between a particle's size and its base size
   * after `n` frames is `0.9^n` times the starting gap, the particle stays on
   * the canvas after every frame, and its speeds keep their magnitudes.
   */
  lemma {:induction false} DriftDecays(m: Motion, base: real, width: real, height: real, n: nat)
    requires width >= 0.0 && height >= 0.0
    ensures Drift(m, base, width, height, n).size - base == Pow(1.0 - Decay, n) * (m.size - base)
    ensures n > 0 ==> InBounds(Drift(m, base, width, height, n), width, height)
    ensures Abs(Drift(m, base, width, height, n).speedX) == Abs(m.speedX)
    ensures Abs(Drift(m, base, width, height, n).speedY) == Abs(m.speedY)
    decreases n
  {
    if n > 0 {
      var next := Update(m, base, None, None, 1.0, width, height, 0.0);
      DriftDecays(next, base, width, height, n - 1);
      assert next.size - base == (1.0 - Decay) * (m.size - base);
      assert Drift(m, base, width, height, n) == Drift(next, base, width, height, n - 1);
      if n > 1 {
        assert Drift(next, base, width, height, n - 1)
            == Drift(Update(next, base, None, None, 1.0, width, height, 0.0), base, width, height, n - 2);
      }
    }
  }
}
