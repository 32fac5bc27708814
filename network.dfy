/**
 * The particle system as a whole (particles.js:5-205): the collection of
 * particles, the pointer, and the handle of the scheduled animation frame,
 * with the operations that change them, and the pass that decides which
 * connecting lines a frame draws.
 *
 * The browser is replaced by inputs: the canvas size, the element under the
 * pointer and its `closest` test, the frame handle `requestAnimationFrame`
 * returns, the draws of `Math.random()`, and the distances the source
 * computes with `Math.sqrt`.
 */
module Network {
  import opened Wrappers
  import opened Kinematics
  import opened Particles

  /** Canvas area per particle, and the bounds on the number of particles (particles.js:54-55). */
  const AreaPerParticle: real := 9000.0
  const MinParticles: int := 30
  const MaxParticles: int := 150

  /** The radius of the pointer (particles.js:15). */
  const MouseRadius: real := 150.0

  /** Particles closer than this are joined by a line (particles.js:156). */
  const MaxDistance: real := 120.0
  /** The opacity of a line at distance 0, between particles and to the pointer (particles.js:167, 186). */
  const PairAlpha: real := 0.3
  const PointerAlpha: real := 0.5

  /**
   * `Math.max(30, Math.min(Math.floor(area / 9000), 150))` with `area` the
   * canvas area `width * height` (particles.js:53-55): one particle per whole
   * 9000 units of area, but never fewer than 30 or more than 150.
   */
  function ParticleCount(width: real, height: real): (n: int)
    ensures MinParticles <= n <= MaxParticles
    ensures width * height < (MinParticles as real) * AreaPerParticle ==> n == MinParticles
    ensures width * height >= (MaxParticles as real) * AreaPerParticle ==> n == MaxParticles
    // in between, `n` is the number of whole blocks of 9000 in the area
    ensures (MinParticles as real) * AreaPerParticle <= width * height < (MaxParticles as real) * AreaPerParticle ==>
      (n as real) * AreaPerParticle <= width * height < ((n + 1) as real) * AreaPerParticle
  {
    var area := width * height;
    var blocks := (area / AreaPerParticle).Floor;
    if blocks < MinParticles then MinParticles
    else if blocks > MaxParticles then MaxParticles
    else blocks
  }

  /** The counts the rule gives for an empty canvas, 300 x 300, and areas of 75 and 150 blocks. */
  lemma ParticleCountExamples()
    ensures ParticleCount(0.0, 0.0) == 30
    ensures ParticleCount(300.0, 300.0) == 30
    ensures ParticleCount(9000.0, 75.0) == 75
    ensures ParticleCount(9000.0, 150.0) == 150
  {
  }

  /** The opacity of the line between two particles at distance `d` (particles.js:167). */
  function PairOpacity(d: real): (o: real)
    // visible for every line drawn, and never more than 0.3
    ensures d < MaxDistance ==> 0.0 < o
    ensures 0.0 <= d ==> o <= PairAlpha
    // 0.3 exactly at distance 0, half of it half-way
    ensures o == PairAlpha <==> d == 0.0
    ensures d == MaxDistance / 2.0 ==> o == PairAlpha / 2.0
  {
    (1.0 - d / MaxDistance) * PairAlpha
  }

  /** The opacity of the line from a particle at distance `d` to the pointer (particles.js:186). */
  function PointerOpacity(d: real, radius: real): (o: real)
    requires radius > 0.0
    ensures d < radius ==> 0.0 < o
    ensures 0.0 <= d ==> o <= PointerAlpha
    ensures o == PointerAlpha <==> d == 0.0
  {
    (1.0 - d / radius) * PointerAlpha
  }

  lemma Positive(x: real, y: real)
    requires x > 0.0 && y > 0.0
    ensures x * y > 0.0
  {
  }

  /** Squaring keeps the order of non-negative numbers, both ways. */
  lemma SquareLess(a: real, b: real)
    requires 0.0 <= a && 0.0 <= b
    ensures a < b <==> a * a < b * b
  {
    assert b * b - a * a == (b - a) * (b + a);
    if a < b {
      Positive(b - a, b + a);
    } else {
      assert (a - b) * (b + a) >= 0.0;
    }
  }

  /**
   * The test `distance < limit` on the distance of an offset (dx, dy) is the
   * test `dx * dx + dy * dy < limit * limit`, which needs no square root
   * (particles.js:164-166, 183-185).
   */
  lemma Within(d: real, dx: real, dy: real, limit: real)
    requires IsDistance(d, dx, dy) && limit >= 0.0
    ensures d < limit <==> dx * dx + dy * dy < limit * limit
  {
    SquareLess(d, limit);
  }

  /** The selectors of the elements over which the pointer is ignored (particles.js:99-116). */
  const InteractiveSelectors: seq<string> := [
    ".navbar", ".about-card", ".skill-category", ".project-card",
    ".timeline-content", ".education-card", ".contact-wrapper", ".social-link",
    ".btn", ".skill-pill", ".skill-tag", ".project-tag",
    ".job-tag", ".theme-toggle", "button", "a"
  ]

  /**
   * `selectors.some(selector => element.closest(selector))`: `closest(e, s)`
   * stands for the browser's `e.closest(s)` being non-null.
   */
  function MatchesAny<E>(element: E, closest: (E, string) -> bool, selectors: seq<string>): (b: bool)
    ensures b <==> exists k :: 0 <= k < |selectors| && closest(element, selectors[k])
    decreases |selectors|
  {
    if selectors == [] then false
    else closest(element, selectors[0]) || MatchesAny(element, closest, selectors[1..])
  }

  /**
   * `element && interactiveSelectors.some(...)` (particles.js:118-120): there
   * is an element under the pointer and one of the selectors matches it or
   * one of its ancestors.
   */
  function IsOverInteractive<E>(element: Option<E>, closest: (E, string) -> bool): (b: bool)
    ensures b <==> (element.Some? &&
      exists k :: 0 <= k < |InteractiveSelectors| && closest(element.value, InteractiveSelectors[k]))
  {
    element.Some? && MatchesAny(element.value, closest, InteractiveSelectors)
  }

  /** A line between particles `from` and `to`, and one from a particle to the pointer. */
  datatype PairLink = PairLink(from: int, to: int, opacity: real)
  datatype PointerLink = PointerLink(particle: int, opacity: real)

  /** The order in which the nested loop visits pairs. */
  predicate Before(a: PairLink, b: PairLink) {
    a.from < b.from || (a.from == b.from && a.to < b.to)
  }

  /**
   * `links` are the lines between particles among `n` that the nested loop
   * draws: one for each pair `a < b` closer than 120, with its opacity, each
   * once and in the order of the loop.
   */
  predicate ExactPairLinks(links: seq<PairLink>, n: int, pairDistance: (int, int) -> real) {
    (forall k :: 0 <= k < |links| ==>
      0 <= links[k].from < links[k].to < n
      && pairDistance(links[k].from, links[k].to) < MaxDistance
      && links[k].opacity == PairOpacity(pairDistance(links[k].from, links[k].to)))
    && (forall a, b :: 0 <= a < b < n && pairDistance(a, b) < MaxDistance ==>
      PairLink(a, b, PairOpacity(pairDistance(a, b))) in links)
    && (forall k, l :: 0 <= k < l < |links| ==> Before(links[k], links[l]))
  }

  /**
   * `links` are the lines to the pointer: none when it is not known,
   * otherwise one for each particle inside `radius`, with its opacity, each
   * once and in the order of the particles.
   */
  predicate ExactPointerLinks(links: seq<PointerLink>, n: int, pointing: bool, pointerDistance: int -> real, radius: real)
    requires radius > 0.0
  {
    (!pointing ==> links == [])
    && (forall k :: 0 <= k < |links| ==>
      0 <= links[k].particle < n
      && pointerDistance(links[k].particle) < radius
      && links[k].opacity == PointerOpacity(pointerDistance(links[k].particle), radius))
    && (pointing ==> forall p :: 0 <= p < n && pointerDistance(p) < radius ==>
      PointerLink(p, PointerOpacity(pointerDistance(p), radius)) in links)
    && (forall k, l :: 0 <= k < l < |links| ==> links[k].particle < links[l].particle)
  }

  /** Two sequences of lines, each strictly in loop order, with the same lines, are the same sequence. */
  lemma {:induction false} OrderedPairLinksUnique(l1: seq<PairLink>, l2: seq<PairLink>)
    requires forall k, l :: 0 <= k < l < |l1| ==> Before(l1[k], l1[l])
    requires forall k, l :: 0 <= k < l < |l2| ==> Before(l2[k], l2[l])
    requires forall x :: x in l1 <==> x in l2
    ensures l1 == l2
    decreases |l1|
  {
    assert l1 != [] ==> l1[0] in l2;
    assert l2 != [] ==> l2[0] in l1;
    if l1 != [] && l2 != [] {
      assert l1[0] == l2[0] by {
        assert l1[0] in l2 && l2[0] in l1;
        var m :| 0 <= m < |l2| && l2[m] == l1[0];
        var p :| 0 <= p < |l1| && l1[p] == l2[0];
        if m > 0 && p > 0 {
          assert false;
        }
      }
      forall x
        ensures x in l1[1..] <==> x in l2[1..]
      {
        if x in l1[1..] {
          var q :| 1 <= q < |l1| && l1[q] == x;
          assert Before(l1[0], x);
          assert x in l2;
        }
        if x in l2[1..] {
          var q :| 1 <= q < |l2| && l2[q] == x;
          assert Before(l2[0], x);
          assert x in l1;
        }
      }
      OrderedPairLinksUnique(l1[1..], l2[1..]);
      assert l1 == [l1[0]] + l1[1..] && l2 == [l2[0]] + l2[1..];
    }
  }

  /** The lines between particles are determined: two answers that both satisfy `ExactPairLinks` are equal. */
  lemma ExactPairLinksUnique(l1: seq<PairLink>, l2: seq<PairLink>, n: int, pairDistance: (int, int) -> real)
    requires ExactPairLinks(l1, n, pairDistance) && ExactPairLinks(l2, n, pairDistance)
    ensures l1 == l2
  {
    forall x
      ensures x in l1 <==> x in l2
    {
      if x in l1 {
        var k :| 0 <= k < |l1| && l1[k] == x;
        assert PairLink(x.from, x.to, PairOpacity(pairDistance(x.from, x.to))) in l2;
      }
      if x in l2 {
        var k :| 0 <= k < |l2| && l2[k] == x;
        assert PairLink(x.from, x.to, PairOpacity(pairDistance(x.from, x.to))) in l1;
      }
    }
    OrderedPairLinksUnique(l1, l2);
  }

  /** Two sequences of pointer lines, each strictly in particle order, with the same lines, are the same. */
  lemma {:induction false} OrderedPointerLinksUnique(l1: seq<PointerLink>, l2: seq<PointerLink>)
    requires forall k, l :: 0 <= k < l < |l1| ==> l1[k].particle < l1[l].particle
    requires forall k, l :: 0 <= k < l < |l2| ==> l2[k].particle < l2[l].particle
    requires forall x :: x in l1 <==> x in l2
    ensures l1 == l2
    decreases |l1|
  {
    assert l1 != [] ==> l1[0] in l2;
    assert l2 != [] ==> l2[0] in l1;
    if l1 != [] && l2 != [] {
      assert l1[0] == l2[0] by {
        assert l1[0] in l2 && l2[0] in l1;
        var m :| 0 <= m < |l2| && l2[m] == l1[0];
        var p :| 0 <= p < |l1| && l1[p] == l2[0];
        if m > 0 && p > 0 {
          assert false;
        }
      }
      forall x
        ensures x in l1[1..] <==> x in l2[1..]
      {
        if x in l1[1..] {
          var q :| 1 <= q < |l1| && l1[q] == x;
          assert l1[0].particle < x.particle;
          assert x in l2;
        }
        if x in l2[1..] {
          var q :| 1 <= q < |l2| && l2[q] == x;
          assert l2[0].particle < x.particle;
          assert x in l1;
        }
      }
      OrderedPointerLinksUnique(l1[1..], l2[1..]);
      assert l1 == [l1[0]] + l1[1..] && l2 == [l2[0]] + l2[1..];
    }
  }

  /** The lines to the pointer are determined: two answers that both satisfy `ExactPointerLinks` are equal. */
  lemma ExactPointerLinksUnique(l1: seq<PointerLink>, l2: seq<PointerLink>, n: int, pointing: bool,
                                pointerDistance: int -> real, radius: real)
    requires radius > 0.0
    requires ExactPointerLinks(l1, n, pointing, pointerDistance, radius)
    requires ExactPointerLinks(l2, n, pointing, pointerDistance, radius)
    ensures l1 == l2
  {
    forall x
      ensures x in l1 <==> x in l2
    {
      if x in l1 {
        var k :| 0 <= k < |l1| && l1[k] == x;
        assert PointerLink(x.particle, PointerOpacity(pointerDistance(x.particle), radius)) in l2;
      }
      if x in l2 {
        var k :| 0 <= k < |l2| && l2[k] == x;
        assert PointerLink(x.particle, PointerOpacity(pointerDistance(x.particle), radius)) in l1;
      }
    }
    OrderedPointerLinksUnique(l1, l2);
  }

  /** The number of pairs `(a, b)` with `a < i` and `a < b < n`: the pairs of the first `i` rows. */
  function PairsBefore(n: int, i: int): int
    requires 0 <= i <= n
    decreases i
  {
    if i == 0 then 0 else PairsBefore(n, i - 1) + (n - i)
  }

  /** The nested loop has looked at pair `(a, b)` before it reaches pair `(i, j)`. */
  predicate Visited(a: int, b: int, i: int, j: int) {
    a < i || (a == i && b < j)
  }

  /** `links` are exactly the lines `ExactPairLinks` asks for among the pairs visited before `(i, j)`. */
  predicate PairLinksUpTo(links: seq<PairLink>, n: int, pairDistance: (int, int) -> real, i: int, j: int) {
    (forall k :: 0 <= k < |links| ==>
      0 <= links[k].from < links[k].to < n && Visited(links[k].from, links[k].to, i, j)
      && pairDistance(links[k].from, links[k].to) < MaxDistance
      && links[k].opacity == PairOpacity(pairDistance(links[k].from, links[k].to)))
    && (forall a, b {:trigger pairDistance(a, b)} :: 0 <= a < b < n && Visited(a, b, i, j) && pairDistance(a, b) < MaxDistance ==>
      PairLink(a, b, PairOpacity(pairDistance(a, b))) in links)
    && (forall k, l :: 0 <= k < l < |links| ==> Before(links[k], links[l]))
  }

  /** One turn of the inner loop on a pair `(i, j)` that is too far apart: nothing is drawn. */
  lemma SkipPair(links: seq<PairLink>, n: int, pairDistance: (int, int) -> real, i: int, j: int)
    requires 0 <= i < j < n && PairLinksUpTo(links, n, pairDistance, i, j)
    requires pairDistance(i, j) >= MaxDistance
    ensures PairLinksUpTo(links, n, pairDistance, i, j + 1)
  {
    forall a, b | 0 <= a < b < n && Visited(a, b, i, j + 1) && pairDistance(a, b) < MaxDistance
      ensures PairLink(a, b, PairOpacity(pairDistance(a, b))) in links
    {
      assert Visited(a, b, i, j);
    }
  }

  /** One turn of the inner loop on a close pair `(i, j)`: its line is drawn after the others. */
  lemma DrawPair(links: seq<PairLink>, n: int, pairDistance: (int, int) -> real, i: int, j: int)
    requires 0 <= i < j < n && PairLinksUpTo(links, n, pairDistance, i, j)
    requires pairDistance(i, j) < MaxDistance
    ensures PairLinksUpTo(links + [PairLink(i, j, PairOpacity(pairDistance(i, j)))], n, pairDistance, i, j + 1)
  {
    var next := links + [PairLink(i, j, PairOpacity(pairDistance(i, j)))];
    forall a, b | 0 <= a < b < n && Visited(a, b, i, j + 1) && pairDistance(a, b) < MaxDistance
      ensures PairLink(a, b, PairOpacity(pairDistance(a, b))) in next
    {
      if a == i && b == j {
        assert next[|links|] == PairLink(a, b, PairOpacity(pairDistance(a, b)));
      } else {
        assert PairLink(a, b, PairOpacity(pairDistance(a, b))) in links;
      }
    }
  }

  /** The end of a row: having visited `(i, j)` for every `j`, the loop has visited everything before row `i + 1`. */
  lemma NextRow(links: seq<PairLink>, n: int, pairDistance: (int, int) -> real, i: int)
    requires 0 <= i < n && PairLinksUpTo(links, n, pairDistance, i, n)
    ensures PairLinksUpTo(links, n, pairDistance, i + 1, i + 2)
  {
    forall a, b | 0 <= a < b < n && Visited(a, b, i + 1, i + 2)
      ensures Visited(a, b, i, n)
    {
    }
  }

  /** After the last row every pair has been visited, which is `ExactPairLinks`. */
  lemma AllRows(links: seq<PairLink>, n: int, pairDistance: (int, int) -> real)
    requires n >= 0 && PairLinksUpTo(links, n, pairDistance, n, n + 1)
    ensures ExactPairLinks(links, n, pairDistance)
  {
    forall a, b | 0 <= a < b < n && pairDistance(a, b) < MaxDistance
      ensures PairLink(a, b, PairOpacity(pairDistance(a, b))) in links
    {
      assert Visited(a, b, n, n + 1);
    }
  }

  /** All `n` rows hold the `n * (n - 1) / 2` unordered pairs. */
  lemma {:induction false} PairsBeforeCount(n: int, i: int)
    requires 0 <= i <= n
    ensures 2 * PairsBefore(n, i) == i * (2 * n - i - 1)
    decreases i
  {
    if i > 0 {
      PairsBeforeCount(n, i - 1);
      calc {
        2 * PairsBefore(n, i);
        2 * PairsBefore(n, i - 1) + 2 * (n - i);
        (i - 1) * (2 * n - i) + 2 * (n - i);
        i * (2 * n - i - 1);
      }
    }
  }

  /**
   * The inner loop of `connectParticles()` (particles.js:160-176) for row `i`:
   * it looks at the pairs `(i, j)` with `i < j < n` in turn and draws each
   * close one after the lines `links` drawn so far.
   */
  method ScanRow(n: int, pairDistance: (int, int) -> real, i: int, links: seq<PairLink>)
    returns (row: seq<PairLink>, looked: int)
    requires 0 <= i < n && PairLinksUpTo(links, n, pairDistance, i, i + 1)
    ensures looked == n - i - 1
    ensures PairLinksUpTo(row, n, pairDistance, i, n)
  {
    row, looked := links, 0;
    var j := i + 1;
    while j < n
      invariant i + 1 <= j <= n
      invariant looked == j - i - 1
      invariant PairLinksUpTo(row, n, pairDistance, i, j)
    {
      var distance := pairDistance(i, j);
      looked := looked + 1;
      if distance < MaxDistance {
        DrawPair(row, n, pairDistance, i, j);
        row := row + [PairLink(i, j, PairOpacity(distance))];
      } else {
        SkipPair(row, n, pairDistance, i, j);
      }
      j := j + 1;
    }
  }

  /** The nested loop over all `n` rows looks at `n * (n - 1) / 2` pairs. */
  lemma AllPairs(n: int)
    requires n >= 0
    ensures PairsBefore(n, n) == n * (n - 1) / 2
  {
    PairsBeforeCount(n, n);
    assert 2 * PairsBefore(n, n) == n * (n - 1);
  }

  class ParticleNetwork {
    /** Whether the page has the canvas; without it the constructor gives up (particles.js:7-11). */
    const hasCanvas: bool
    var width: real
    var height: real
    var particles: seq<Particle>
    /** The pointer: `None` stands for JavaScript's null. */
    var mouseX: Option<real>
    var mouseY: Option<real>
    const radius: real := MouseRadius
    /** The handle of the scheduled frame, `None` when no frame is scheduled. */
    var animationFrameId: Option<int>

    /**
     * The canvas size is not negative; the pointer is known on both axes or
     * on neither; frame handles are non-zero, as `requestAnimationFrame`
     * returns them; the particles are distinct objects, each valid; and
     * without a canvas there is nothing.
     */
    ghost predicate Valid()
      reads this, particles
    {
      width >= 0.0 && height >= 0.0
      && (mouseX.None? <==> mouseY.None?)
      && (animationFrameId.Some? ==> animationFrameId.value > 0)
      && (forall a, b :: 0 <= a < b < |particles| ==> particles[a] != particles[b])
      && (forall k :: 0 <= k < |particles| ==> particles[k].Valid())
      && (!hasCanvas ==> particles == [] && animationFrameId == None)
    }

    /**
     * `new ParticleNetwork()` (particles.js:6-21): with a canvas of size
     * `canvas.value`, build the particles from `draws` and run the first
     * frame with no pointer, which `requestAnimationFrame` answers with
     * `frameId`. Without a canvas nothing is built.
     */
    constructor (canvas: Option<(real, real)>, draws: seq<Draw>, frameId: int)
      requires canvas.Some? ==> canvas.value.0 >= 0.0 && canvas.value.1 >= 0.0 && frameId > 0
      requires canvas.Some? ==> |draws| >= ParticleCount(canvas.value.0, canvas.value.1)
      requires forall k :: 0 <= k < |draws| ==> ValidDraw(draws[k])
      ensures Valid()
      ensures hasCanvas == canvas.Some?
      ensures mouseX == None && mouseY == None
      ensures canvas.None? ==> particles == [] && animationFrameId == None
      ensures canvas.Some? ==> width == canvas.value.0 && height == canvas.value.1
      ensures canvas.Some? ==> |particles| == ParticleCount(width, height)
      ensures canvas.Some? ==> animationFrameId == Some(frameId)
      ensures canvas.Some? ==>
        forall k :: 0 <= k < |particles| ==>
          particles[k].baseSize == Spawn(draws[k], width, height).size
          && particles[k].color == Palette[ColorIndex(draws[k].ucolor)]
          && particles[k].State()
             == Kinematics.Update(Spawn(draws[k], width, height), particles[k].baseSize, None, None, radius, width, height, 0.0)
    {
      hasCanvas := canvas.Some?;
      width, height := 0.0, 0.0;
      if canvas.Some? {
        width, height := canvas.value.0, canvas.value.1;
      }
      particles := [];
      mouseX, mouseY := None, None;
      animationFrameId := None;
      new;
      if canvas.Some? {
        CreateParticles(draws);
        Animate(seq(|particles|, k => 0.0), frameId);
      }
    }

    /**
     * `createParticles()` (particles.js:52-62): throw the old particles away
     * and build `ParticleCount(width, height)` new ones, the `k`-th from
     * `draws[k]`.
     */
    method CreateParticles(draws: seq<Draw>)
      requires Valid() && hasCanvas
      requires |draws| >= ParticleCount(width, height)
      requires forall k :: 0 <= k < |draws| ==> ValidDraw(draws[k])
      modifies this
      ensures width == old(width) && height == old(height)
      ensures mouseX == old(mouseX) && mouseY == old(mouseY) && animationFrameId == old(animationFrameId)
      ensures Valid()
      ensures |particles| == ParticleCount(width, height)
      ensures forall k :: 0 <= k < |particles| ==>
        fresh(particles[k])
        && particles[k].State() == Spawn(draws[k], width, height)
        && particles[k].baseSize == particles[k].size
        && particles[k].color == Palette[ColorIndex(draws[k].ucolor)]
    {
      var count := ParticleCount(width, height);
      var created: seq<Particle> := [];
      var i := 0;
      while i < count
        modifies {}
        invariant 0 <= i <= count && |created| == i
        invariant forall a, b :: 0 <= a < b < i ==> created[a] != created[b]
        invariant forall k :: 0 <= k < i ==>
          fresh(created[k]) && created[k].Valid()
          && created[k].State() == Spawn(draws[k], width, height)
          && created[k].baseSize == created[k].size
          && created[k].color == Palette[ColorIndex(draws[k].ucolor)]
      {
        var p := new Particle(width, height, draws[i]);
        created := created + [p];
        i := i + 1;
      }
      particles := created;
    }

    /**
     * One `animate()` (particles.js:131-146) without its drawing: every
     * particle makes one `update`, the `k`-th at distance `distances[k]` from
     * the pointer, and the next frame is scheduled under `frameId`.
     */
    method Animate(distances: seq<real>, frameId: int)
      requires Valid() && hasCanvas && frameId > 0
      requires |distances| == |particles|
      // `distances[k]` is how far particle `k` will be from the pointer once it has moved
      requires forall k :: 0 <= k < |particles| ==>
        DistanceTo(Move(particles[k].State(), width, height), mouseX, mouseY, distances[k])
      // (so, with a pointer, none of them is negative)
      requires Pointing(mouseX, mouseY) ==> forall k :: 0 <= k < |distances| ==> distances[k] >= 0.0
      modifies this, particles
      ensures Valid()
      ensures particles == old(particles)
      ensures width == old(width) && height == old(height) && mouseX == old(mouseX) && mouseY == old(mouseY)
      ensures forall k :: 0 <= k < |particles| ==>
        particles[k].State()
        == Kinematics.Update(old(particles[k].State()), particles[k].baseSize, mouseX, mouseY, radius, width, height, distances[k])
      ensures animationFrameId == Some(frameId)
    {
      UpdateParticles(distances);
      animationFrameId := Some(frameId);
    }

    /** The loop of `animate()` (particles.js:135-139): `update` on every particle in turn. */
    method UpdateParticles(distances: seq<real>)
      requires Valid() && |distances| == |particles|
      requires forall k :: 0 <= k < |particles| ==>
        DistanceTo(Move(particles[k].State(), width, height), mouseX, mouseY, distances[k])
      requires Pointing(mouseX, mouseY) ==> forall k :: 0 <= k < |distances| ==> distances[k] >= 0.0
      modifies particles
      ensures Valid()
      ensures forall k :: 0 <= k < |particles| ==>
        particles[k].State()
        == Kinematics.Update(old(particles[k].State()), particles[k].baseSize, mouseX, mouseY, radius, width, height, distances[k])
    {
      var i := 0;
      while i < |particles|
        invariant 0 <= i <= |particles|
        invariant forall k :: 0 <= k < |particles| ==>
          particles[k].Valid() &&
          particles[k].State()
          == if k < i then Kinematics.Update(old(particles[k].State()), particles[k].baseSize, mouseX, mouseY, radius, width, height, distances[k])
             else old(particles[k].State())
      {
        particles[i].Update(mouseX, mouseY, radius, width, height, distances[i]);
        i := i + 1;
      }
    }

    /**
     * `handleMouseMove(e)` (particles.js:96-129): over an interactive element
     * the pointer is forgotten, elsewhere it is the event's position.
     */
    method HandleMouseMove<E>(clientX: real, clientY: real, element: Option<E>, closest: (E, string) -> bool)
      requires Valid()
      modifies this
      ensures Valid()
      ensures IsOverInteractive(element, closest) ==> mouseX == None && mouseY == None
      ensures !IsOverInteractive(element, closest) ==> mouseX == Some(clientX) && mouseY == Some(clientY)
      ensures particles == old(particles) && width == old(width) && height == old(height)
      ensures animationFrameId == old(animationFrameId)
    {
      var isOverInteractive := IsOverInteractive(element, closest);
      if isOverInteractive {
        mouseX := None;
        mouseY := None;
      } else {
        mouseX := Some(clientX);
        mouseY := Some(clientY);
      }
    }

    /** The `mouseleave` handler (particles.js:81-84): the pointer is forgotten. */
    method MouseLeave()
      requires Valid()
      modifies this
      ensures Valid()
      ensures mouseX == None && mouseY == None
      ensures particles == old(particles) && width == old(width) && height == old(height)
      ensures animationFrameId == old(animationFrameId)
    {
      mouseX := None;
      mouseY := None;
    }

    /**
     * `stopAnimation()` (particles.js:148-153): cancel the scheduled frame, if
     * any; `cancelled` is the handle given to `cancelAnimationFrame`. Afterwards
     * no frame is scheduled, so a second call cancels nothing and changes
     * nothing.
     */
    method StopAnimation() returns (cancelled: Option<int>)
      requires Valid()
      modifies this
      ensures Valid()
      ensures animationFrameId == None
      ensures cancelled == old(animationFrameId)
      ensures particles == old(particles) && width == old(width) && height == old(height)
      ensures mouseX == old(mouseX) && mouseY == old(mouseY)
    {
      cancelled := None;
      // a handle is truthy when it is set and non-zero
      if animationFrameId.Some? && animationFrameId.value != 0 {
        cancelled := animationFrameId;
        animationFrameId := None;
      }
    }

    /**
     * `destroy()` (particles.js:199-204): stop the animation and drop every
     * particle.
     */
    method Destroy() returns (cancelled: Option<int>)
      requires Valid()
      modifies this
      ensures Valid()
      ensures particles == [] && animationFrameId == None
      ensures cancelled == old(animationFrameId)
      ensures width == old(width) && height == old(height)
      ensures mouseX == old(mouseX) && mouseY == old(mouseY)
    {
      cancelled := StopAnimation();
      particles := [];
    }

    /** `pairDistance(a, b)` is the distance between particles `a` and `b`, for every pair. */
    ghost predicate PairDistances(pairDistance: (int, int) -> real)
      reads this, particles
    {
      forall a, b {:trigger particles[a], particles[b]} :: 0 <= a < b < |particles| ==>
        IsDistance(pairDistance(a, b), particles[a].x - particles[b].x, particles[a].y - particles[b].y)
    }

    /** `pointerDistance(k)` is the distance between particle `k` and the pointer, when there is one. */
    ghost predicate PointerDistances(pointerDistance: int -> real)
      reads this, particles
    {
      Pointing(mouseX, mouseY) ==>
        forall k {:trigger particles[k]} :: 0 <= k < |particles| ==>
          IsDistance(pointerDistance(k), particles[k].x - mouseX.value, particles[k].y - mouseY.value)
    }

    /**
     * The particle-to-particle half of `connectParticles()` (particles.js:157-176)
     * without its drawing: the nested loop over the pairs `i < j`, and the
     * lines it draws. `examined` counts the pairs it looks at.
     */
    method ConnectPairs(pairDistance: (int, int) -> real) returns (links: seq<PairLink>, examined: int)
      requires PairDistances(pairDistance)
      // row `i` looks at the `|particles| - i - 1` pairs `(i, j)` with `j > i`
      ensures examined == PairsBefore(|particles|, |particles|)
      ensures ExactPairLinks(links, |particles|, pairDistance)
    {
      var particleCount := |particles|;
      links, examined := [], 0;
      var i := 0;
      while i < particleCount
        invariant 0 <= i <= particleCount
        invariant examined == PairsBefore(particleCount, i)
        invariant PairLinksUpTo(links, particleCount, pairDistance, i, i + 1)
      {
        var looked;
        links, looked := ScanRow(particleCount, pairDistance, i, links);
        examined := examined + looked;
        NextRow(links, particleCount, pairDistance, i);
        i := i + 1;
      }
      AllRows(links, particleCount, pairDistance);
    }

    /**
     * The pointer half of `connectParticles()` (particles.js:178-195) without
     * its drawing: with a known pointer, a line from every particle inside
     * its radius.
     */
    method ConnectPointer(pointerDistance: int -> real) returns (pointerLinks: seq<PointerLink>)
      requires PointerDistances(pointerDistance)
      ensures ExactPointerLinks(pointerLinks, |particles|, Pointing(mouseX, mouseY), pointerDistance, radius)
    {
      var particleCount := |particles|;
      pointerLinks := [];
      if mouseX.Some? && mouseY.Some? {
        var k := 0;
        while k < particleCount
          invariant 0 <= k <= particleCount
          invariant forall q :: 0 <= q < |pointerLinks| ==>
            0 <= pointerLinks[q].particle < k
            && pointerDistance(pointerLinks[q].particle) < radius
            && pointerLinks[q].opacity == PointerOpacity(pointerDistance(pointerLinks[q].particle), radius)
          invariant forall p :: 0 <= p < k && pointerDistance(p) < radius ==>
            PointerLink(p, PointerOpacity(pointerDistance(p), radius)) in pointerLinks
          invariant forall q, l :: 0 <= q < l < |pointerLinks| ==> pointerLinks[q].particle < pointerLinks[l].particle
        {
          var distance := pointerDistance(k);
          if distance < radius {
            pointerLinks := pointerLinks + [PointerLink(k, PointerOpacity(distance, radius))];
          }
          k := k + 1;
        }
      }
    }

    /**
     * `connectParticles()` (particles.js:155-196) without its drawing: the
     * lines between particles, then the lines to the pointer.
     */
    method ConnectParticles(pairDistance: (int, int) -> real, pointerDistance: int -> real)
      returns (links: seq<PairLink>, examined: int, pointerLinks: seq<PointerLink>)
      requires PairDistances(pairDistance) && PointerDistances(pointerDistance)
      ensures examined == |particles| * (|particles| - 1) / 2
      ensures ExactPairLinks(links, |particles|, pairDistance)
      ensures ExactPointerLinks(pointerLinks, |particles|, Pointing(mouseX, mouseY), pointerDistance, radius)
    {
      links, examined := ConnectPairs(pairDistance);
      pointerLinks := ConnectPointer(pointerDistance);
      AllPairs(|particles|);
    }
  }
}
