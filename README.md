# Hero gradient trail and maelstrom vortex

This project models the two pieces of the site's front-end scripts that do
their own bookkeeping. It proves properties of both models.

- **The hero gradient's touch texture** (`js/hero-gradient.js`). A
  `TouchTexture` keeps a trail of cursor points. Each point has a position, an
  integer age, a force and a direction: the unit direction of the move, or
  (0, 0) for the first touch.
  - Every frame, `update` walks the trail from its end. It lets each point
    drift, ages it by one and splices it out once it is older than
    `maxAge` (64).
  - `addTouch` appends the cursor's new position with age 0. It does nothing
    when the cursor has not moved. Its force grows with the squared length of
    the move and is capped at 2.
  - `drawPoint` paints each point with an intensity envelope: a quarter sine
    wave while the point is young, then an ease-out parabola.
  - `trackCursorBall` feeds the cursor ball's centre to the trail only while
    it lies over the hero.
- **The maelstrom vortex** (`js/maelstrom.js`). A pool of 350 particles
  spirals into a centre. In every frame of `animate`:
  - the time step is clamped and normalised to 60 frames per second;
  - each particle is sucked inwards;
  - a particle is respawned on the outer ring, in place, once it comes closer
    than radius 2;
  - each particle is turned about the centre, faster the closer it is;
  - each particle is painted as an ellipse whose alpha fades near the rim
    and near the centre.

  Meanwhile the canvas tilts towards the cursor with exponential smoothing.

How the model is built:

- Numbers are `real`. `Math.PI` is the constant `3.141592653589793`.
- `Math.sqrt` (in `addTouch`) and `Math.sin` (in `drawPoint`) are passed in as
  functions. The model only assumes that `sqrt` is positive on positive
  numbers, and that the quarter sine maps `[0, 1]` into `[0, 1]`.
- Every `Math.random()` draw is passed in as a number in `[0, 1)`.
- Arrays that the source updates in place are `seq` fields of a class. Its
  methods reassign them. The classes are `TouchTexture.trail` and
  `Maelstrom.particles`.
- Each method is proved against a pure function of the old state: `Advance`
  for `update`, and `StepParticle` and `SpriteFor` for `animate`. The
  lifetime, range and convergence properties are then proved about those
  functions.

Files:

- `dom.dfy` holds the `Dom` module, with the bounding rectangle both
  scripts read.
- `reals.dfy` holds helpers on reals: `Min`, `Max`, `Between`, and facts
  about products.
- `hero_gradient.dfy` holds the `HeroGradient` module.
- `maelstrom.dfy` holds the `Maelstrom` module.

## Model

| member | source | states |
|---|---|---|
| HeroGradient.NewTouch | js/hero-gradient.js:49-65 | There is no new point exactly when the position equals the last recorded one. A new point has the given x and y, age 0, and a force in `[0, 2]`. The first touch has force 0 and direction (0, 0). Later touches have positive force and the unit direction of the move. |
| HeroGradient.MovedTouch | js/hero-gradient.js:55-62 | A move by a non-zero `(dx, dy)` gives a point with age 0 and force in `(0, 2]`. Its direction times the move's length is `(dx, dy)`. |
| HeroGradient.TouchForce | js/hero-gradient.js:58-62 | The force is positive, at most 2, and at most `20000 * dd`. It equals 2 once `20000 * dd` reaches 2. |
| HeroGradient.DriftFactor | js/hero-gradient.js:31 | The drift factor `force * speed * (1 - age / maxAge)` is between 0 and `force * speed`, and it is 0 at age `maxAge`. |
| HeroGradient.Step | js/hero-gradient.js:31-34 | One frame of a point raises its age by exactly one and keeps its force and direction. A point that survives stays well formed, and a point at age `maxAge` no longer drifts. |
| HeroGradient.Advance | js/hero-gradient.js:29-40 | The trail after one update never grows. Every point in it stays well formed (age at most 64, force in `[0, 2]`), and every age is at least 1. |
| HeroGradient.AdvanceN | js/hero-gradient.js:29-40 | Any number of updates keeps the trail well formed and never lengthens it. |
| HeroGradient.AdvanceConcat | js/hero-gradient.js:29-40 | Updating a trail is the same as updating each part of it separately. Points do not affect each other, and the survivors keep their order. |
| HeroGradient.AdvanceAt | js/hero-gradient.js:29-40 | Updating a trail updates the points before index `i`, then point `i` (kept aged by one exactly when it survives), then the points after it. Removal is exact and nothing else moves. |
| HeroGradient.AdvanceNConcat | js/hero-gradient.js:29-40 | Over `k` frames, the two parts of a trail evolve independently and stay in order. |
| HeroGradient.AgesOnePerFrame | js/hero-gradient.js:34 | A point that has room to live `k` more frames is still there after `k` updates, with its age raised by exactly `k`. |
| HeroGradient.EmptyStaysEmpty | js/hero-gradient.js:29 | Updating an empty trail leaves it empty. |
| HeroGradient.Expires | js/hero-gradient.js:34-36 | A point of age `a` is gone after `64 - a + 1` updates. |
| HeroGradient.TouchLifetime | js/hero-gradient.js:34-36 | A point appended with age 0 is still at the end of the trail after each of the first 64 updates, with age equal to the number of updates. The 65th update removes it and leaves the rest of the trail as if it had never been added. |
| HeroGradient.DecayPhase | js/hero-gradient.js:74 | In the decay phase (`0.3 * maxAge <= age <= maxAge`), `t` lies in `[0, 1]`, and it is 0 at age `maxAge`. |
| HeroGradient.Envelope | js/hero-gradient.js:70-76 | The intensity envelope lies in `[0, 1]` at every age up to `maxAge`, and it is 0 at age `maxAge`. |
| HeroGradient.DecayFades | js/hero-gradient.js:73-75 | In the decay phase the envelope never increases with age. |
| HeroGradient.Intensity | js/hero-gradient.js:70-77 | The drawn intensity lies between 0 and the point's force, so it is at most 2. |
| HeroGradient.HeroTouch | js/hero-gradient.js:223-233 | A touch is reported exactly when the hero has positive width and height and the ball's centre lies within it. A reported touch has both normalised coordinates in `[0, 1]`. |
| HeroGradient.TouchTexture.constructor | js/hero-gradient.js:5-14 | A new texture has an empty trail and no last position. |
| HeroGradient.TouchTexture.AddTouch | js/hero-gradient.js:49-66 | If the position equals the last one, neither the trail nor `last` changes. Otherwise `last` becomes the position and exactly one point, the one `NewTouch` describes, is appended. Earlier entries are unchanged, and the trail stays well formed. |
| HeroGradient.TouchTexture.Update | js/hero-gradient.js:26-42 | The backwards walk with `age++` and `splice` leaves exactly `Advance` of the old trail. The trail stays well formed. |
| HeroGradient.TrackCursorBall | js/hero-gradient.js:215-234 | With no ball, or a ball centre outside the hero, the trail and `last` are unchanged. Over the hero at the position already in `last`, both are unchanged as well. Otherwise `last` becomes the normalised position and exactly the `NewTouch` point is appended. |
| HeroGradient.AnimateFrame | js/hero-gradient.js:237-242 | One frame runs update, then track. If the ball is over the hero at a new position, `last` becomes that position and the trail is `Advance` of the old trail followed by the `NewTouch` point. Otherwise `last` is unchanged and the trail is `Advance` of the old trail. |
| Maelstrom.ResetParticle | js/maelstrom.js:67-78 | Given draws in `[0, 1)`: a non-zero id is kept, and otherwise a drawn id is used. The angle is in `[0, 2π)`. The radius is in `[10, 60)` when `initial`, otherwise `[55, 60)`. Speed is in `[0.2, 0.7)`, size in `[0.2, 1)`, length in `[1.5, 6.5)` and base opacity in `[0.1, 0.7)`. |
| Maelstrom.FrameDt | js/maelstrom.js:94-98 | The first frame (`lastTime` 0) has `dt = 0`. For a non-negative delta, `dt` is in `[0, 50 / 16.67]`. It is the delta over 16.67 when the delta is at most 50 ms, and `50 / 16.67` beyond that. |
| Maelstrom.Suction | js/maelstrom.js:121-122 | Suction never increases the radius. It strictly decreases it when `dt > 0` and leaves it alone when `dt = 0`. |
| Maelstrom.AngularSpeed | js/maelstrom.js:130 | The angular increment is non-negative, and positive when `dt > 0`. Its divisor `radius + 10` is positive for every radius a particle can have. |
| Maelstrom.FasterInward | js/maelstrom.js:130 | A particle nearer the centre turns at least as fast as one further out. |
| Maelstrom.StepParticle | js/maelstrom.js:117-131 | After a step the particle is live (radius in `[2, 60)`, attributes in their spawn ranges), and a non-zero id is kept. If the post-suction radius is at least 2, only the radius (sucked) and the angle (not decreased) change. If it is below 2, the particle is `resetParticle(p)` with its angle advanced. With `dt > 0` and no respawn, the radius strictly shrinks and the angle strictly grows. |
| Maelstrom.Opacity | js/maelstrom.js:143-146 | The two fades, applied one after the other, never raise a non-negative base opacity. Between radii 10 and 45 the opacity is the base. At radius 55 and beyond, or at 0 and below, it is at most 0. |
| Maelstrom.Alpha | js/maelstrom.js:144-161 | The painted alpha `max(0, opacity)` lies in `[0, opacityBase]` at every radius. It equals the base between radii 10 and 45, and it is 0 at radius 55 and beyond. |
| Maelstrom.Stretch | js/maelstrom.js:141 | The stretch factor is positive for a positive length inside radius 70. That holds for every live particle. |
| Maelstrom.StretchGrowsInward | js/maelstrom.js:141 | A particle nearer the centre is stretched at least as much. |
| Maelstrom.SpriteFor | js/maelstrom.js:137-161 | Both ellipse radii are non-negative, and positive at a positive scale. The centre lies within `60 * scale` of the canvas centre, along the particle's angle. The alpha lies in `[0, opacityBase]`. |
| Maelstrom.ScaleFor | js/maelstrom.js:56-57 | The scale is non-negative. It is the largest at which the 120-unit diameter fits both the width and the height. |
| Maelstrom.TiltTarget | js/maelstrom.js:80-91 | On each axis the target tilt has the sign of the cursor's offset from the canvas centre, and is 0 exactly when that offset is 0. While the cursor and the centre are inside the viewport, the tilt stays within ±20 degrees. |
| Maelstrom.Offset | js/maelstrom.js:87-88 | The normalised offset has the sign of the pixel offset. It lies in `[-1, 1]` when the offset is at most the viewport's extent. |
| Maelstrom.Approach | js/maelstrom.js:103-104 | A smoothing step lands between the current tilt and the target, with no overshoot. The remaining gap shrinks by the factor `1 - 0.05 * dt`. The step moves whenever `dt > 0` and the tilt is off target. |
| Maelstrom.SmoothTilt | js/maelstrom.js:103-104 | Both axes of the tilt land between their current value and the target. |
| Maelstrom.ApproachN | js/maelstrom.js:103-104 | However many frames pass under a fixed target, the tilt stays between its start and the target. |
| Maelstrom.Converges | js/maelstrom.js:103-104 | After `n` frames under a fixed target, the gap is the first gap times `(1 - 0.05 * dt)^n`. |
| Maelstrom.Maelstrom.constructor | js/maelstrom.js:6-33 | With the canvas present, the pool holds 350 live particles, each `resetParticle({}, true)` of its draws. The clock is 0 and both tilts are 0. The width and height are the parent's, and the scale is `min(width, height) / 120` of them. |
| Maelstrom.Maelstrom.Resize | js/maelstrom.js:41-58 | Records the parent's size and sets the scale to `min(width, height) / 120`. The invariant is kept. |
| Maelstrom.Maelstrom.CreateParticles | js/maelstrom.js:60-65 | The pool ends with exactly 350 live particles. Particle `i` is `resetParticle({}, true)` of draw `i`. |
| Maelstrom.Maelstrom.HandleMouseMove | js/maelstrom.js:80-91 | The target tilt becomes 20 times the cursor's normalised offset from the canvas centre. |
| Maelstrom.Maelstrom.Animate | js/maelstrom.js:93-170 | The clock becomes the new timestamp, and the tilt takes one smoothing step. Every particle is stepped in place, so the pool keeps its 350 live entries. The sprites returned are those of the new particles, in pool order. |
| Maelstrom.Maelstrom.StepParticles | js/maelstrom.js:117-165 | The `forEach` replaces particle `i` with its step and keeps the pool's length. Sprite `i` is that of the new particle `i`. |

## Left out

- The Three.js scene, the WebGL renderer and the GLSL shader (js/hero-gradient.js:94-212) are not modelled. They are GPU numerics inside a foreign library.
- The texture's canvas (`initTexture`, `clear`) and the drawing calls of `drawPoint` are not modelled. The model keeps only the intensity envelope.
- The other canvas calls of `animate` (`clearRect`, `translate`, `rotate`, `ellipse`, `fill`) and the CSS `transform` string are not modelled. A frame's output is the list of `Sprite` records, which gives each ellipse centre in polar form.
- The screen position of a particle is not computed (`cos` and `sin` times radius and scale). A `Sprite` carries the angle and the distance instead.
- Floating-point rounding, `NaN` and infinities are not modelled; all arithmetic is exact.
- `Math.sqrt` and `Math.sin` are parameters that are only assumed positive, or bounded in `[0, 1]`. The model does not prove values that depend on their exact results.
- `Math.random()` is replaced by draws passed in as parameters. A `Draws` record holds every value one `resetParticle` call may use.
- Maelstrom.ResetParticle: the id draw is consumed only when the old id is falsy; an old id of 0 stands for the missing id of `{}`.
- `requestAnimationFrame`, the `resize` and `mousemove` listeners, DOM queries and the device-pixel-ratio resizing of the canvas are not modelled. The clock in js/hero-gradient.js and the `uTime` uniform are left out too.
- Maelstrom.Maelstrom.constructor: the early return when `#maelstromCanvas` is missing is not modelled. The constructor assumes the canvas is present.
- The mobile skip (no vortex below a viewport width of 768) is not modelled.
- Maelstrom.Maelstrom.Animate: requires timestamps that never go backwards, as `requestAnimationFrame` guarantees. A negative delta would give a negative `dt`, and the source does not clamp it.
- Maelstrom.Maelstrom.HandleMouseMove: requires a viewport with positive width and height. A zero-size viewport would make the source store an infinity or `NaN`.
- js/image-reveal.js, js/magnetic-button.js, js/cursor.js, js/navbar.js, js/modal.js, js/scroll-animations.js and js/smooth-scroll.js are not part of this model. They are DOM and style glue driven by GSAP and Lenis.
