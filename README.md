# Portfolio page scripts: typing banner, section tracking and particle background

This project models, in Dafny, the parts of a personal portfolio page that hold
state or do arithmetic: the two scripts `main.js` and `particles.js`.

- **Typing banner** (`typing.dfy`, module `Typing`). `typeRole` types one role
  string a character at a time, waits, deletes it, and moves on to the next
  role in cyclic order. Its four closure variables and the element's text are
  the fields of the class `RoleTyper`. `TypeRole` is proved against the pure
  function `Step`, and the lemmas about `Step` and `Run` give the invariants
  and the cycle length.
- **Section tracking** (`navigation.dfy`, module `Navigation`).
  `getCurrentSection` picks the section under a probe point 150 px below the
  viewport top. It has two overrides: home near the top, the last section
  near the bottom. `updateActiveNavLink` records the active id and marks
  exactly the links that point at it.
- **Particle arithmetic** (`kinematics.dfy`, module `Kinematics`). One frame of
  `Particle.update` works on values: the step, the edge bounce, the push away
  from the pointer, and the size that grows near the pointer and relaxes
  elsewhere.
- **Particles** (`particles.dfy`, module `Particles`). The class `Particle`
  has its construction ranges and an in-place `Update`, proved against
  `Kinematics.Update`.
- **Particle network** (`network.dfy`, module `Network`). The class
  `ParticleNetwork` holds the particle collection, the pointer and the frame
  handle. It covers the count rule of `createParticles`, the pointer handlers,
  `stopAnimation`, `destroy`, one frame of `animate`, and the pass of
  `connectParticles` that decides which lines a frame draws.

The browser becomes inputs:

- the page geometry, the canvas size and the element under the pointer
  (with its `closest` test);
- the handle `requestAnimationFrame` returns;
- the values `Math.random()` draws, each in [0, 1);
- the distances the source computes with `Math.sqrt`. A distance `d` for an
  offset (dx, dy) is tied to it by `d >= 0` and `d * d == dx * dx + dy * dy`.

All numbers are exact reals. With such a `d`,
`cos(atan2(dy, dx))` and `sin(atan2(dy, dx))` are `dx / d` and `dy / d`, and
(1, 0) at `d == 0`. So the direction of the push is modelled exactly.

A few facts about the source shape the contracts:

- **Bounds during the push.** The push (particles.js:256-257) runs after the
  clamp, so a particle near the pointer can be pushed past an edge.
  `Kinematics.Update` therefore promises the canvas bounds only out of the
  pointer's reach, and `Kinematics.PushCanLeaveCanvas` shows a particle that
  leaves.
- **Push versus frame.** The push moves a particle away from the pointer as
  measured from its position after the step (`Kinematics.Repulsion`). Over a
  whole frame the step can outweigh the push, so a particle inside the radius
  can end a frame nearer the pointer than it started;
  `Kinematics.FrameCanApproach` shows one.
- **Particle count.** The count rule always gives a value in [30, 150] (the
  comment at particles.js:55). `destroy` empties the collection, and a page
  without the canvas never builds one.
- **Force at the radius.** `Kinematics.Force` is defined for
  `0 <= d < radius`, because the test `distance < radius` at particles.js:249
  is strict.

## Model

| member | source | states |
|---|---|---|
| Typing.Prefix | main.js:41-45 | `substring(0, n)` gives a prefix of the role of length `n` clamped into [0, length] |
| Typing.Step | main.js:37-57 | keeps the invariant (index in range, char index within the role, text equal to the role's prefix of that length); the delay is one of 40, 80, 500, 2000; the role index changes, to `(i + 1) % n`, exactly when deletion empties the text, and the delay is 500 exactly then; while typing, deletion switches on exactly when the whole role is shown, with delay 2000 |
| Typing.Run | main.js:37-59 | any number of calls keeps the invariant |
| Typing.RunAdditive | main.js:37-59 | `j` calls followed by `k` calls are `j + k` calls |
| Typing.TypesToEnd | main.js:44-52 | typing from a prefix of length `c` reaches the full role, deleting, with delay 2000, after `length - c` calls |
| Typing.DeletesToStart | main.js:40-56 | deleting from a prefix of length `c` reaches the empty text of the next role, with delay 500, after `c` calls |
| Typing.FullCycle | main.js:26-59 | from the empty text of role `r`, exactly `2 * length(roles[r])` calls lead to the empty text of role `(r + 1) % n`, typing |
| Typing.RoleTyper.constructor | main.js:26-35 | the closure starts at role 0, char 0, typing, delay 80, empty text, which satisfies the invariant |
| Typing.RoleTyper.TypeRole | main.js:37-57 | the in-place update of the closure variables and the text is exactly one `Step`, and the invariant is kept |
| Navigation.GetCurrentSection | main.js:178-202 | home when `scrollY < 100`; otherwise, near the bottom (`scrollY + innerHeight >= scrollHeight - 50`), the last section's id, or the error when the list is empty; otherwise the last section in document order with `top <= scrollY + 150 < top + height`, or home when there is none |
| Navigation.HighlightMarks | main.js:211-222 | highlighting keeps every link's href and position and makes a link active iff its href minus the first character equals the id |
| Navigation.HighlightIdempotent | main.js:205-222 | highlighting twice for the same id is highlighting once |
| Navigation.NavBar.constructor | main.js:171-174 | no section is active yet and the links are the desktop links followed by the mobile links |
| Navigation.NavBar.UpdateActiveNavLink | main.js:205-223 | the same id again changes nothing; a new id is recorded and exactly the links pointing at it are active afterwards |
| Kinematics.Bounce | particles.js:230-241 | after the step and bounce the coordinate lies in [0, limit]; the speed keeps its magnitude and is reversed exactly when the step lands at or past an edge, where the coordinate is clamped to that edge; otherwise it is a plain step |
| Kinematics.Move | particles.js:230-241 | both coordinates end on the canvas, speeds keep their magnitudes, the size is untouched |
| Kinematics.Force | particles.js:249-251 | for `0 <= d < radius` the force lies in (0, 1], and it is 1 exactly at `d = 0` |
| Kinematics.Relax | particles.js:261-268 | the gap between size and base size is multiplied by exactly 0.9, so it never grows and the band [base, base + 2] is kept |
| Kinematics.Direction | particles.js:245-254 | the direction scaled by the distance gives back the offset to the pointer, and it is (1, 0) for the zero offset |
| Kinematics.Interact | particles.js:243-268 | speeds untouched; out of the pointer's reach the position stays and the size gap shrinks by 0.9; inside it the size becomes `base + 2 * force` within the band; the band is kept |
| Kinematics.Update | particles.js:228-269 | a whole update keeps the speed magnitudes and the band [base, base + 2], and keeps the particle on the canvas when the pointer is absent or at distance >= radius |
| Kinematics.Repulsion | particles.js:245-257 | inside the radius the push moves the particle straight away from the pointer: its new distance is `d + 3 * force`, strictly more than `d` |
| Kinematics.PushAway | particles.js:249-257 | adding the push `(cos, sin) * force * 3` to the offset to the pointer lengthens it by exactly `3 * force`, also when the offset is zero |
| Kinematics.FrameCanApproach | particles.js:230-257 | a particle 149.9 from the pointer, stepping 0.5 towards it, ends the frame 149.412 away: the push does not undo the step |
| Kinematics.PushCanLeaveCanvas | particles.js:234-257 | a particle one unit from the left edge with the pointer one unit to its right ends a frame off the canvas |
| Kinematics.DriftDecays | particles.js:228-269 | with no pointer, after `n` frames the size gap is `0.9^n` times the starting gap, the particle is on the canvas, and its speeds keep their magnitudes |
| Particles.ColorIndex | particles.js:218-226 | `floor(u * 4)` for a draw `u` in [0, 1) is an index of the four-colour palette |
| Particles.Spawn | particles.js:208-214 | a new particle lies in [0, W] x [0, H] (below W and H when they are positive), its size in [1, 2.5), its speeds in [-0.6, 0.6) |
| Particles.Particle.constructor | particles.js:208-216 | the fields are the spawn values, the base size equals the size, the colour is the palette entry drawn; the particle is valid |
| Particles.Particle.Update | particles.js:228-269 | the in-place update of the fields is exactly `Kinematics.Update` of the old fields; base size and colour are constants; the size stays in [base, base + 2] |
| Network.ParticleCount | particles.js:53-55 | the count is in [30, 150]; 30 below 30 blocks of 9000, 150 from 150 blocks on, and in between the number of whole 9000 blocks in `width * height` |
| Network.ParticleCountExamples | particles.js:53-55 | area 0 and 300 x 300 give 30, 75 blocks give 75, 150 blocks give 150 |
| Network.PairOpacity | particles.js:156-167 | a drawn line's opacity `(1 - d / 120) * 0.3` lies in (0, 0.3], is 0.3 exactly at distance 0 and 0.15 at distance 60 |
| Network.PointerOpacity | particles.js:185-186 | a pointer line's opacity `(1 - d / radius) * 0.5` lies in (0, 0.5] inside the radius, and is 0.5 exactly at distance 0 |
| Network.Within | particles.js:162-166 | the test `distance < limit` equals the test `dx * dx + dy * dy < limit * limit` |
| Network.MatchesAny | particles.js:118-120 | `selectors.some(s => element.closest(s))` holds iff some selector's `closest` test holds |
| Network.IsOverInteractive | particles.js:98-120 | the pointer is over an interactive element iff there is an element and one of the sixteen selectors matches it |
| Network.PairsBeforeCount | particles.js:160-161 | the first `i` rows of the nested loop hold `i * (2n - i - 1) / 2` pairs |
| Network.AllPairs | particles.js:160-161 | all `n` rows of the nested loop hold `n * (n - 1) / 2` pairs |
| Network.ScanRow | particles.js:161-175 | the inner loop for row `i` looks at `n - i - 1` pairs and extends the lines of the earlier rows to exactly the close pairs visited up to the end of row `i`, in loop order |
| Network.ExactPairLinksUnique | particles.js:160-176 | the lines between particles are determined: two sequences that both satisfy the pair-line specification are equal |
| Network.ExactPointerLinksUnique | particles.js:179-195 | the lines to the pointer are determined: two sequences that both satisfy the pointer-line specification are equal |
| Network.ParticleNetwork.constructor | particles.js:6-21 | without a canvas nothing is built; with one, the count-rule number of particles is spawned and updated once with no pointer, the pointer is absent and the returned frame is scheduled |
| Network.ParticleNetwork.CreateParticles | particles.js:52-62 | the collection is replaced by exactly `ParticleCount(width, height)` fresh, distinct, valid particles, the `k`-th spawned from the `k`-th draws; nothing else changes |
| Network.ParticleNetwork.Animate | particles.js:131-146 | every particle makes exactly one `Kinematics.Update` at its distance from the pointer, the collection and pointer stay, the new frame handle is stored |
| Network.ParticleNetwork.UpdateParticles | particles.js:135-139 | the loop over the particles applies exactly one `Kinematics.Update` to each, and keeps every particle valid |
| Network.ParticleNetwork.HandleMouseMove | particles.js:96-129 | the pointer is cleared on both axes iff the element under it is interactive, and set to the event position on both axes otherwise |
| Network.ParticleNetwork.MouseLeave | particles.js:81-84 | both pointer coordinates become null together |
| Network.ParticleNetwork.StopAnimation | particles.js:148-153 | the scheduled frame, if any, is cancelled and afterwards none is scheduled, so a second call cancels nothing and changes nothing |
| Network.ParticleNetwork.Destroy | particles.js:199-204 | the animation is stopped and the collection emptied |
| Network.ParticleNetwork.ConnectPairs | particles.js:155-176 | the nested loop looks at `PairsBefore(n, n)` pairs, one per row position (which `AllPairs` shows is `n * (n - 1) / 2`), and yields exactly one line per pair `i < j` closer than 120, with its opacity, in loop order |
| Network.ParticleNetwork.ConnectPointer | particles.js:178-195 | with a known pointer exactly one line per particle inside the radius, with its opacity, in particle order; none without a pointer |
| Network.ParticleNetwork.ConnectParticles | particles.js:155-196 | both passes: `n * (n - 1) / 2` pairs looked at, the pair lines and the pointer lines as above |

## Left out

- Canvas drawing: `clearRect`, `arc`, `fill`, `stroke`, shadows, `save` and `restore`, stroke and fill styles (particles.js:133, 138, 168-173, 187-192, 271-287). They are foreign rendering calls with no state the scripts read back. `ConnectParticles` returns the lines that would be drawn instead of drawing them.
- Scheduling. The frame handle from `requestAnimationFrame` is an input of `Animate`, and the self-rescheduling of `animate` is not modelled. The `setTimeout` of `typeRole` is dropped and its delay is kept as `speed`. The 250 ms resize debounce, the visibility-change handler and the `ticking` and `isManualScroll` flags of the scroll listener are not modelled either. They are host event-loop concurrency.
- Network.ParticleNetwork.Animate: does not run `connectParticles`. That pass only draws, and its distances would be square roots of the updated positions. It is modelled on its own as `ConnectParticles`.
- `resize` and the device-pixel-ratio scaling of the context (particles.js:37-50). The canvas size is an input of the constructor.
- Listener registration (particles.js:64-94) and the listener removal in `destroy` (particles.js:201-202): they are DOM wiring.
- The removal in `destroy` removes nothing. It passes `this.resize` and `this.handleMouseMove`, but the registered listeners (particles.js:67-93) are arrow functions. So after `destroy` a resize still rebuilds the particles and a `visibilitychange` still restarts `animate`; `Destroy` models only the stop and the emptying.
- Console output inside modelled functions: the `console.warn` of the constructor without a canvas (particles.js:9) and the `console.log` of `updateActiveNavLink` (main.js:208).
- The rest of `main.js`: the loader, AOS, the cursor, the theme toggle with its storage, the mobile menu, back-to-top, the navbar shadow, smooth scrolling on link clicks, and console logging. They are DOM and library wiring outside the modelled core.
- The `animating` class and the timeout that removes it (main.js:214-220). Links carry only the `active` flag.
- `Math.sqrt`, `Math.atan2`, `Math.cos`, `Math.sin`. The distance is a parameter tied to the offset by its square, and the direction is computed exactly from it.
- Kinematics.Direction: does not state that the direction has length 1. The length-one property follows from the square of the distance, but is not proved.
- `Math.random`. Each draw is an input in [0, 1), collected in `Particles.Draw`.
- IEEE floating point. All arithmetic is exact, so rounding, `NaN` and infinities are not modelled.
- `document.elementFromPoint` and `Element.closest`. The element is an optional input, and `closest` is a boolean function of the element and the selector.
- A page without the canvas: the source leaves the fields undefined after its early return. The model gives it an empty collection, no pointer and no frame.
- The text of the typing element before the first call is taken to be empty, which is the state the invariant of `Typing.Inv` starts from.
