/**
 * One particle of the background (particles.js:207-269): where it is born,
 * its colour, and its per-frame `update`, which changes its fields in place.
 *
 * `Math.random()` is not modelled: each of the six draws a particle makes when
 * it is built is an input in [0, 1), collected in a `Draw`.
 */
module Particles {
  import opened Wrappers
  import opened Kinematics

  /** The four colours a particle can take (particles.js:219-224). */
  const Palette: seq<string> := [
    "rgba(128, 0, 255, 0.8)",
    "rgba(207, 89, 230, 0.8)",
    "rgba(107, 197, 248, 0.8)",
    "rgba(176, 243, 241, 0.6)"
  ]

  /** The smallest size a particle is born with, and the width of the range of sizes. */
  const MinSize: real := 1.0
  const SizeRange: real := 1.5
  /** Speeds are born in [-SpeedRange/2, SpeedRange/2). */
  const SpeedRange: real := 1.2

  /** The random draws of one `new Particle(...)`, in the order the source makes them. */
  datatype Draw = Draw(ux: real, uy: real, usize: real, uspeedX: real, uspeedY: real, ucolor: real)

  predicate Unit(u: real) {
    0.0 <= u < 1.0
  }

  /** Every draw is a value `Math.random()` can return. */
  predicate ValidDraw(draw: Draw) {
    Unit(draw.ux) && Unit(draw.uy) && Unit(draw.usize)
    && Unit(draw.uspeedX) && Unit(draw.uspeedY) && Unit(draw.ucolor)
  }

  /** A unit draw scaled to [0, limit], and below `limit` when the range is not empty. */
  lemma ScaleUnit(u: real, limit: real)
    requires Unit(u) && limit >= 0.0
    ensures 0.0 <= u * limit <= limit
    ensures limit > 0.0 ==> u * limit < limit
  {
  }

  /** `Math.floor(Math.random() * colors.length)` (particles.js:225): always an index of the palette. */
  function ColorIndex(u: real): (k: int)
    requires Unit(u)
    ensures 0 <= k < |Palette|
  {
    (u * (|Palette| as real)).Floor
  }

  /** The position, speeds and size a particle is born with (particles.js:209-214). */
  function Spawn(draw: Draw, width: real, height: real): (m: Motion)
    requires ValidDraw(draw) && width >= 0.0 && height >= 0.0
    // on the canvas, and strictly inside it along any side that is not empty
    ensures InBounds(m, width, height)
    ensures width > 0.0 ==> m.x < width
    ensures height > 0.0 ==> m.y < height
    // a size in [1, 2.5)
    ensures MinSize <= m.size < MinSize + SizeRange
    // speeds in [-0.6, 0.6)
    ensures -SpeedRange / 2.0 <= m.speedX < SpeedRange / 2.0
    ensures -SpeedRange / 2.0 <= m.speedY < SpeedRange / 2.0
  {
    ScaleUnit(draw.ux, width);
    ScaleUnit(draw.uy, height);
    Motion(draw.ux * width, draw.uy * height,
           (draw.uspeedX - 0.5) * SpeedRange, (draw.uspeedY - 0.5) * SpeedRange,
           draw.usize * SizeRange + MinSize)
  }

  class Particle {
    var x: real
    var y: real
    var speedX: real
    var speedY: real
    var size: real
    /** Set once when the particle is built; `const`, so no method can change it. */
    const baseSize: real
    const color: string

    /** The fields `update` changes. */
    function State(): Motion
      reads this
    {
      Motion(x, y, speedX, speedY, size)
    }

    /**
     * The base size is one a particle can be born with, the current size lies
     * between the base size and the base size plus 2, and the colour is from
     * the palette.
     */
    ghost predicate Valid()
      reads this
    {
      MinSize <= baseSize < MinSize + SizeRange
      && InBand(size, baseSize)
      && color in Palette
    }

    /** `new Particle(canvasWidth, canvasHeight)` (particles.js:208-216). */
    constructor (canvasWidth: real, canvasHeight: real, draw: Draw)
      requires ValidDraw(draw) && canvasWidth >= 0.0 && canvasHeight >= 0.0
      ensures Valid()
      ensures State() == Spawn(draw, canvasWidth, canvasHeight)
      ensures baseSize == size
      ensures color == Palette[ColorIndex(draw.ucolor)]
    {
      var m := Spawn(draw, canvasWidth, canvasHeight);
      x := m.x;
      y := m.y;
      size := m.size;
      baseSize := m.size;
      speedX := m.speedX;
      speedY := m.speedY;
      color := Palette[ColorIndex(draw.ucolor)];
    }

    /**
     * `update(mouse, canvasWidth, canvasHeight)` (particles.js:228-269). The
     * pointer is `mouseX`, `mouseY` (`None` for JavaScript's null) and
     * `radius`; `distance` is the value the source computes with `Math.sqrt`
     * once the particle has moved and bounced.
     */
    method Update(mouseX: Option<real>, mouseY: Option<real>, radius: real,
                  canvasWidth: real, canvasHeight: real, distance: real)
      requires Valid() && radius > 0.0 && canvasWidth >= 0.0 && canvasHeight >= 0.0
      requires DistanceTo(Move(State(), canvasWidth, canvasHeight), mouseX, mouseY, distance)
      modifies this
      ensures Valid()
      ensures State() == Kinematics.Update(old(State()), baseSize, mouseX, mouseY, radius, canvasWidth, canvasHeight, distance)
    {
      ghost var moved := Move(State(), canvasWidth, canvasHeight);
      x := x + speedX;
      y := y + speedY;

      if x <= 0.0 || x >= canvasWidth {
        speedX := -speedX;
        x := Max(0.0, Min(canvasWidth, x));
      }
      if y <= 0.0 || y >= canvasHeight {
        speedY := -speedY;
        y := Max(0.0, Min(canvasHeight, y));
      }
      assert State() == moved;

      if mouseX.Some? && mouseY.Some? {
        var dx := mouseX.value - x;
        var dy := mouseY.value - y;
        if distance < radius {
          var force := Force(distance, radius);
          var push := Push(dx, dy, distance, radius);
          x := x - push.0;
          y := y - push.1;
          size := baseSize + force * Grow;
        } else {
          size := size + (baseSize - size) * Decay;
        }
      } else {
        size := size + (baseSize - size) * Decay;
      }
    }
  }
}
