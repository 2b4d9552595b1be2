/**
  The maelstrom vortex (js/maelstrom.js).

  A fixed pool of particles spirals towards a centre. Every frame each particle
  is sucked inwards, respawned on the outer ring once it comes closer than
  `RespawnRadius`, and turned about the centre, faster the closer it is; the
  canvas is tilted towards the cursor with exponential smoothing.

  `Math.random()` is not modelled: every draw is passed in as a number in
  `[0, 1)`. Drawing is modelled as the list of sprites a frame paints, in
  polar form (the screen position needs `cos` and `sin`).
 */
module Maelstrom {
  import opened Reals
  import opened Dom

  /** `this.particleCount`. */
  const ParticleCount: nat := 350
  /** `Math.PI`, as the double closest to pi. */
  const Pi: real := 3.141592653589793
  /** One frame at 60 frames per second, in milliseconds: `dt == 1` for it. */
  const FrameMs: real := 16.67
  /** Longest frame delta taken into account, in milliseconds. */
  const MaxDeltaMs: real := 50.0
  /** A particle closer to the centre than this is respawned. */
  const RespawnRadius: real := 2.0
  /** Every particle stays closer to the centre than this. */
  const OuterRadius: real := 60.0
  /** Fraction of the remaining tilt covered per unit of `dt`. */
  const TiltRate: real := 0.05
  /** The bound on the tilt, in degrees, while the cursor and the canvas
      centre are inside the viewport. */
  const TiltRange: real := 20.0

  /** The largest `dt` a frame can have: `50 / 16.67`. */
  function MaxDt(): real
  {
    MaxDeltaMs / FrameMs
  }

  datatype Vec2 = Vec2(x: real, y: real)

  /** One particle record. */
  datatype Particle = Particle(
    id: real, angle: real, radius: real,
    speed: real, size: real, length: real, opacityBase: real)

  /** The `Math.random()` values one call of `resetParticle` may consume. */
  datatype Draws = Draws(
    id: real, angle: real, radius: real,
    speed: real, size: real, length: real, opacityBase: real)

  /** What one frame paints for a particle: the ellipse's polar centre (in
      pixels from the canvas centre), its rotation, its two radii and its alpha. */
  datatype Sprite = Sprite(
    angle: real, distance: real, rotation: real,
    sizeX: real, sizeY: real, alpha: real)

  predicate IsDraw(u: real)
  {
    0.0 <= u < 1.0
  }

  predicate ValidDraws(d: Draws)
  {
    IsDraw(d.id) && IsDraw(d.angle) && IsDraw(d.radius) && IsDraw(d.speed) &&
    IsDraw(d.size) && IsDraw(d.length) && IsDraw(d.opacityBase)
  }

  predicate AllValidDraws(ds: seq<Draws>)
  {
    forall i :: 0 <= i < |ds| ==> ValidDraws(ds[i])
  }

  /** The attributes fixed at (re)spawn lie in their ranges. */
  predicate SpawnAttributes(p: Particle)
  {
    0.2 <= p.speed < 0.7 && 0.2 <= p.size < 1.0 &&
    1.5 <= p.length < 6.5 && 0.1 <= p.opacityBase < 0.7
  }

  /** The invariant of every particle in the pool. */
  predicate Live(p: Particle)
  {
    SpawnAttributes(p) && RespawnRadius <= p.radius < OuterRadius
  }

  predicate AllLive(ps: seq<Particle>)
  {
    forall i :: 0 <= i < |ps| ==> Live(ps[i])
  }

  // ---------------------------------------------------------------------------
  // resetParticle
  // ---------------------------------------------------------------------------

  /**
    `resetParticle(p, initial)`: a fresh record. `prevId` is `p.id`, with 0
    standing for the falsy id of the empty record `{}`; a non-zero id is kept,
    otherwise a new one is drawn. The first fill spreads particles over radii
    `[10, 60)`, a respawn puts them on the outer ring `[55, 60)`.
   */
  function ResetParticle(prevId: real, initial: bool, d: Draws): (p: Particle)
    requires ValidDraws(d)
    ensures prevId != 0.0 ==> p.id == prevId
    ensures prevId == 0.0 ==> IsDraw(p.id)
    ensures 0.0 <= p.angle < 2.0 * Pi
    ensures initial ==> 10.0 <= p.radius < OuterRadius
    ensures !initial ==> 55.0 <= p.radius < OuterRadius
    ensures SpawnAttributes(p) && Live(p)
  {
    var id := if prevId != 0.0 then prevId else d.id;
    var radius := if initial then 10.0 + d.radius * 50.0 else 55.0 + d.radius * 5.0;
    Particle(id, d.angle * Pi * 2.0, radius,
             0.2 + d.speed * 0.5, 0.2 + d.size * 0.8,
             1.5 + d.length * 5.0, 0.1 + d.opacityBase * 0.6)
  }

  // ---------------------------------------------------------------------------
  // animate: time step
  // ---------------------------------------------------------------------------

  /**
    The normalised time step of a frame at timestamp `time` after one at
    `lastTime`: the delta in milliseconds, capped at 50, over 16.67. A zero
    `lastTime` (the first frame) gives a zero step.
   */
  function FrameDt(lastTime: real, time: real): (dt: real)
    ensures lastTime == 0.0 ==> dt == 0.0
    ensures lastTime <= time ==> 0.0 <= dt <= MaxDt()
    ensures lastTime != 0.0 && time - lastTime <= MaxDeltaMs ==> dt * FrameMs == time - lastTime
    ensures lastTime != 0.0 && MaxDeltaMs <= time - lastTime ==> dt == MaxDt()
  {
    var start := if lastTime == 0.0 then time else lastTime;
    Min(time - start, MaxDeltaMs) / FrameMs
  }

  // ---------------------------------------------------------------------------
  // animate: physics of one particle
  // ---------------------------------------------------------------------------

  /** The radius after this frame's suction, `radius - (0.05 + radius / 100) * speed * dt`:
      it never grows, and shrinks whenever time passes. */
  function Suction(p: Particle, dt: real): (r: real)
    requires Live(p) && 0.0 <= dt
    ensures r <= p.radius
    ensures 0.0 < dt ==> r < p.radius
    ensures dt == 0.0 ==> r == p.radius
  {
    var pull := 0.05 + p.radius / 100.0;
    assert 0.0 < Product(pull, p.speed);
    p.radius - Product(Product(pull, p.speed), dt)
  }

  /** The angle swept this frame, `(0.01 + 1.5 / (radius + 10)) * speed * dt`.
      The divisor is positive for every radius a particle can have. */
  function AngularSpeed(radius: real, speed: real, dt: real): (w: real)
    requires RespawnRadius <= radius && 0.0 < speed && 0.0 <= dt
    ensures 0.0 <= w
    ensures 0.0 < dt ==> 0.0 < w
  {
    assert 0.0 < 1.5 / (radius + 10.0);
    var turn := 0.01 + 1.5 / (radius + 10.0);
    assert 0.0 < Product(turn, speed);
    Product(Product(turn, speed), dt)
  }

  /** Closer particles turn faster: the spiral tightens towards the centre. */
  lemma {:induction false} FasterInward(r1: real, r2: real, speed: real, dt: real)
    requires RespawnRadius <= r1 <= r2 && 0.0 < speed && 0.0 <= dt
    ensures AngularSpeed(r2, speed, dt) <= AngularSpeed(r1, speed, dt)
  {
    var k := speed * dt;
    assert 0.0 <= k;
    assert 1.5 / (r2 + 10.0) <= 1.5 / (r1 + 10.0) by {
      assert 1.5 / (r2 + 10.0) * (r2 + 10.0) == 1.5;
      assert 1.5 / (r1 + 10.0) * (r1 + 10.0) == 1.5;
    }
    var t1, t2 := 0.01 + 1.5 / (r1 + 10.0), 0.01 + 1.5 / (r2 + 10.0);
    assert t1 * speed * dt - t2 * speed * dt == (t1 - t2) * k;
  }

  /**
    One frame of one particle, as the body of the `forEach` in `animate` leaves
    it: sucked inwards; respawned on the outer ring, keeping its id, exactly
    when it has come closer than `RespawnRadius`; then turned about the centre.
   */
  function StepParticle(p: Particle, dt: real, d: Draws): (q: Particle)
    requires Live(p) && 0.0 <= dt && ValidDraws(d)
    ensures Live(q)
    ensures p.id != 0.0 ==> q.id == p.id
    ensures RespawnRadius <= Suction(p, dt) ==>
      q.(angle := p.angle) == p.(radius := Suction(p, dt)) && p.angle <= q.angle
    ensures Suction(p, dt) < RespawnRadius ==>
      var reborn := ResetParticle(p.id, false, d);
      q.(angle := reborn.angle) == reborn && reborn.angle <= q.angle
    ensures 0.0 < dt && RespawnRadius <= Suction(p, dt) ==> q.radius < p.radius && p.angle < q.angle
  {
    var sucked := p.(radius := Suction(p, dt));
    var placed := if sucked.radius < RespawnRadius then ResetParticle(sucked.id, false, d) else sucked;
    placed.(angle := placed.angle + AngularSpeed(placed.radius, placed.speed, dt))
  }

  // ---------------------------------------------------------------------------
  // animate: drawing
  // ---------------------------------------------------------------------------

  /** The opacity before clamping: the base, faded in over radii `(45, 55]`
      and faded out below radius 10. The fades only ever lower a non-negative
      base, leave it alone between radii 10 and 45, and take it to zero or
      below outside radii `(0, 55)`. */
  function Opacity(p: Particle): (o: real)
    ensures 0.0 <= p.opacityBase ==> o <= p.opacityBase
    ensures 10.0 <= p.radius <= 45.0 ==> o == p.opacityBase
    ensures 0.0 <= p.opacityBase && (55.0 <= p.radius || p.radius <= 0.0) ==> o <= 0.0
  {
    assert 0.0 <= p.opacityBase && p.radius > 45.0 ==>
      Product(p.opacityBase, (55.0 - p.radius) / 10.0) <= p.opacityBase &&
      (55.0 <= p.radius ==> Product(p.opacityBase, (55.0 - p.radius) / 10.0) <= 0.0) by {
      if 0.0 <= p.opacityBase && p.radius > 45.0 {
        ScaleAtMostOne(p.opacityBase, (55.0 - p.radius) / 10.0);
      }
    }
    assert 0.0 <= p.opacityBase && p.radius < 10.0 ==>
      Product(p.opacityBase, p.radius / 10.0) <= p.opacityBase &&
      (p.radius <= 0.0 ==> Product(p.opacityBase, p.radius / 10.0) <= 0.0) by {
      if 0.0 <= p.opacityBase && p.radius < 10.0 {
        ScaleAtMostOne(p.opacityBase, p.radius / 10.0);
      }
    }
    var outer := if p.radius > 45.0 then Product(p.opacityBase, (55.0 - p.radius) / 10.0) else p.opacityBase;
    if p.radius < 10.0 then Product(outer, p.radius / 10.0) else outer
  }

  /** The alpha a particle is painted with, `max(0, opacity)`: never negative
      and never above the particle's base opacity, whatever its radius. */
  function Alpha(p: Particle): (a: real)
    requires 0.0 <= p.opacityBase
    ensures 0.0 <= a <= p.opacityBase
    ensures 10.0 <= p.radius <= 45.0 ==> a == p.opacityBase
    ensures 55.0 <= p.radius || p.radius <= 0.0 ==> a == 0.0
  {
    Max(0.0, Opacity(p))
  }

  /** The stretch of the ellipse along the direction of travel,
      `length * (1 + (50 - radius) / 20)`: positive inside radius 70. */
  function Stretch(p: Particle): (s: real)
    ensures 0.0 < p.length && p.radius < 70.0 ==> 0.0 < s
  {
    var f := 1.0 + (50.0 - p.radius) / 20.0;
    Product(p.length, f)
  }

  /** Particles nearer the centre are stretched more. */
  lemma {:induction false} StretchGrowsInward(p: Particle, q: Particle)
    requires 0.0 <= p.length && q.length == p.length && p.radius <= q.radius
    ensures Stretch(q) <= Stretch(p)
  {
    var fp, fq := 1.0 + (50.0 - p.radius) / 20.0, 1.0 + (50.0 - q.radius) / 20.0;
    assert p.length * fp - p.length * fq == p.length * (fp - fq);
  }

  /** The sprite a particle is painted as. Both radii of the ellipse are
      non-negative, so `ellipse` never rejects them, and the centre lies
      within `OuterRadius * scale` of the canvas centre. */
  function SpriteFor(p: Particle, scale: real): (s: Sprite)
    requires Live(p) && 0.0 <= scale
    ensures 0.0 <= s.sizeX && 0.0 <= s.sizeY
    ensures 0.0 < scale ==> 0.0 < s.sizeX && 0.0 < s.sizeY
    ensures 0.0 <= s.distance <= OuterRadius * scale
    ensures 0.0 <= s.alpha <= p.opacityBase
    ensures s.angle == p.angle
  {
    var stretch := Stretch(p);
    assert 0.0 < Product(p.size, stretch);
    var distance := Product(p.radius, scale);
    assert distance <= OuterRadius * scale by {
      assert Product(OuterRadius - p.radius, scale) >= 0.0 || scale == 0.0;
    }
    Sprite(p.angle, distance, p.angle + Pi / 2.0 - 15.0 * (Pi / 180.0),
           Product(Product(p.size, 0.8), scale), Product(Product(p.size, stretch), scale), Alpha(p))
  }

  // ---------------------------------------------------------------------------
  // Tilt
  // ---------------------------------------------------------------------------

  /** `resize`: the pixels per logical unit, `min(width, height) / 120`. It is
      the largest scale at which the whole 60-unit vortex fits the canvas. */
  function ScaleFor(width: real, height: real): (s: real)
    requires 0.0 <= width && 0.0 <= height
    ensures 0.0 <= s
    ensures 2.0 * OuterRadius * s <= width && 2.0 * OuterRadius * s <= height
    ensures 2.0 * OuterRadius * s == width || 2.0 * OuterRadius * s == height
  {
    Min(width, height) / 120.0
  }

  /**
    `handleMouseMove`: 20 times the cursor's offset from the canvas centre,
    as a fraction of the viewport. The tilt points the way the cursor lies
    from the centre, and stays within `TiltRange` while both the cursor and
    the canvas centre are inside the viewport.
   */
  function TiltTarget(clientX: real, clientY: real, canvas: Rect, innerWidth: real, innerHeight: real): (t: Vec2)
    requires 0.0 < innerWidth && 0.0 < innerHeight
    ensures var cx := canvas.left + canvas.width / 2.0;
      (0.0 < t.x <==> cx < clientX) && (t.x == 0.0 <==> cx == clientX) &&
      (0.0 <= clientX <= innerWidth && 0.0 <= cx <= innerWidth ==> -TiltRange <= t.x <= TiltRange)
    ensures var cy := canvas.top + canvas.height / 2.0;
      (0.0 < t.y <==> cy < clientY) && (t.y == 0.0 <==> cy == clientY) &&
      (0.0 <= clientY <= innerHeight && 0.0 <= cy <= innerHeight ==> -TiltRange <= t.y <= TiltRange)
  {
    var cx := canvas.left + canvas.width / 2.0;
    var cy := canvas.top + canvas.height / 2.0;
    Vec2(Offset(clientX - cx, innerWidth) * TiltRange, Offset(clientY - cy, innerHeight) * TiltRange)
  }

  /** `delta / extent`, which lies in `[-1, 1]` when `|delta| <= extent`. */
  function Offset(delta: real, extent: real): (u: real)
    requires 0.0 < extent
    ensures (0.0 < u <==> 0.0 < delta) && (u == 0.0 <==> delta == 0.0)
    ensures -extent <= delta <= extent ==> -1.0 <= u <= 1.0
  {
    assert delta / extent * extent == delta;
    delta / extent
  }

  /** One smoothing step of one tilt axis: `current + (target - current) * 0.05 * dt`. */
  function Approach(current: real, target: real, dt: real): (c: real)
    requires 0.0 <= dt <= MaxDt()
    ensures Between(c, current, target)
    ensures target - c == Product(target - current, 1.0 - TiltRate * dt)
    ensures 0.0 < dt && current != target ==> c != current
  {
    assert 0.0 <= TiltRate * dt < 1.0;
    Shrink(target - current, TiltRate * dt);
    assert (target - current) - (target - current) * (TiltRate * dt) == (target - current) * (1.0 - TiltRate * dt);
    current + Product(target - current, TiltRate * dt)
  }

  /** The smoothing step applied to both axes. */
  function SmoothTilt(current: Vec2, target: Vec2, dt: real): (c: Vec2)
    requires 0.0 <= dt <= MaxDt()
    ensures Between(c.x, current.x, target.x) && Between(c.y, current.y, target.y)
  {
    Vec2(Approach(current.x, target.x, dt), Approach(current.y, target.y, dt))
  }

  /** `n` smoothing steps of `dt` each towards a fixed target. Under a fixed
      target the tilt never overshoots: every step lands between the starting
      tilt and the target. */
  function ApproachN(current: real, target: real, dt: real, n: nat): (c: real)
    requires 0.0 <= dt <= MaxDt()
    ensures Between(c, current, target)
  {
    if n == 0 then current else Approach(ApproachN(current, target, dt, n - 1), target, dt)
  }

  /** `b` to the power `n`. */
  function Power(b: real, n: nat): (r: real)
    ensures 0.0 <= b <= 1.0 ==> 0.0 <= r <= 1.0
  {
    if n == 0 then 1.0
    else
      assert 0.0 <= b <= 1.0 ==> 0.0 <= Product(Power(b, n - 1), b) <= 1.0 by {
        if 0.0 <= b <= 1.0 {
          ScaleDown(Power(b, n - 1), b);
          assert Product(Power(b, n - 1), b) == Power(b, n - 1) * b;
        }
      }
      Product(Power(b, n - 1), b)
  }

  /**
    Under a fixed target the tilt converges geometrically: after `n` steps the
    remaining gap is the first gap times `(1 - 0.05 * dt)^n`.
   */
  lemma {:induction false} Converges(current: real, target: real, dt: real, n: nat)
    requires 0.0 <= dt <= MaxDt()
    ensures target - ApproachN(current, target, dt, n) == Product(target - current, Power(1.0 - TiltRate * dt, n))
  {
    if n > 0 {
      Converges(current, target, dt, n - 1);
      ProductAssociates(target - current, Power(1.0 - TiltRate * dt, n - 1), 1.0 - TiltRate * dt);
    }
  }

  // ---------------------------------------------------------------------------
  // The simulation object
  // ---------------------------------------------------------------------------

  class Maelstrom {
    /** `this.particles`. */
    var particles: seq<Particle>
    /** `this.width`, `this.height`: the size of the canvas's parent. */
    var width: real
    var height: real
    /** `this.scale`: pixels per logical unit. */
    var scale: real
    /** `this.lastTime`: the previous frame's timestamp, 0 before the first. */
    var lastTime: real
    /** `this.targetTilt`, `this.currentTilt`, in degrees. */
    var targetTilt: Vec2
    var currentTilt: Vec2

    predicate Valid()
      reads this
    {
      |particles| == ParticleCount && AllLive(particles) &&
      0.0 <= width && 0.0 <= height && scale == ScaleFor(width, height) &&
      0.0 <= lastTime
    }

    /** The constructor with the canvas present: `init` (that is, `resize`
        and `createParticles`) over a parent of the given size. */
    constructor (parentWidth: real, parentHeight: real, draws: seq<Draws>)
      requires 0.0 <= parentWidth && 0.0 <= parentHeight
      requires |draws| == ParticleCount && AllValidDraws(draws)
      ensures Valid()
      ensures width == parentWidth && height == parentHeight && scale == ScaleFor(parentWidth, parentHeight)
      ensures lastTime == 0.0 && targetTilt == Vec2(0.0, 0.0) && currentTilt == Vec2(0.0, 0.0)
      ensures forall i :: 0 <= i < |particles| ==> particles[i] == ResetParticle(0.0, true, draws[i])
    {
      particles := [];
      width, height, scale := 0.0, 0.0, 1.0;
      lastTime := 0.0;
      targetTilt := Vec2(0.0, 0.0);
      currentTilt := Vec2(0.0, 0.0);
      new;
      Resize(parentWidth, parentHeight);
      CreateParticles(draws);
    }

    /** `resize`: records the parent's size and the scale derived from it. */
    method Resize(parentWidth: real, parentHeight: real)
      requires 0.0 <= parentWidth && 0.0 <= parentHeight
      modifies this`width, this`height, this`scale
      ensures old(Valid()) ==> Valid()
      ensures width == parentWidth && height == parentHeight
      ensures scale == ScaleFor(parentWidth, parentHeight)
    {
      width := parentWidth;
      height := parentHeight;
      scale := Min(width, height) / 120.0;
    }

    /** `createParticles`: refills the pool with `ParticleCount` fresh
        particles, one per entry of `draws`. */
    method CreateParticles(draws: seq<Draws>)
      requires |draws| == ParticleCount && AllValidDraws(draws)
      modifies this`particles
      ensures |particles| == ParticleCount && AllLive(particles)
      ensures forall i :: 0 <= i < |particles| ==> particles[i] == ResetParticle(0.0, true, draws[i])
    {
      particles := [];
      var i := 0;
      while i < ParticleCount
        invariant 0 <= i <= ParticleCount
        invariant |particles| == i
        invariant forall j :: 0 <= j < i ==> particles[j] == ResetParticle(0.0, true, draws[j])
      {
        particles := particles + [ResetParticle(0.0, true, draws[i])];
        i := i + 1;
      }
    }

    /** `handleMouseMove`: points the target tilt at the cursor. */
    method HandleMouseMove(clientX: real, clientY: real, canvas: Rect, innerWidth: real, innerHeight: real)
      requires 0.0 < innerWidth && 0.0 < innerHeight
      modifies this`targetTilt
      ensures targetTilt == TiltTarget(clientX, clientY, canvas, innerWidth, innerHeight)
    {
      var x := (clientX - (canvas.left + canvas.width / 2.0)) / innerWidth;
      var y := (clientY - (canvas.top + canvas.height / 2.0)) / innerHeight;
      targetTilt := Vec2(x * TiltRange, y * TiltRange);
    }

    /**
      `animate(time)`: advances the clock and the tilt, then steps every
      particle in place (`draws[i]` feeds a respawn of particle `i`) and
      returns the sprites painted, in pool order.
     */
    method Animate(time: real, draws: seq<Draws>) returns (sprites: seq<Sprite>)
      requires Valid()
      requires lastTime <= time
      requires |draws| == |particles| && AllValidDraws(draws)
      modifies this`particles, this`lastTime, this`currentTilt
      ensures Valid()
      ensures lastTime == time
      ensures currentTilt == SmoothTilt(old(currentTilt), targetTilt, FrameDt(old(lastTime), time))
      ensures |particles| == |old(particles)|
      ensures forall i :: 0 <= i < |particles| ==>
        particles[i] == StepParticle(old(particles)[i], FrameDt(old(lastTime), time), draws[i])
      ensures |sprites| == |particles|
      ensures forall i :: 0 <= i < |sprites| ==> sprites[i] == SpriteFor(particles[i], scale)
    {
      var dt := FrameDt(lastTime, time);
      assert 0.0 <= lastTime <= time;
      lastTime := time;
      currentTilt := SmoothTilt(currentTilt, targetTilt, dt);
      sprites := StepParticles(dt, draws);
    }

    /** The `forEach` of `animate`: steps every particle in place and collects
        the sprite each one is painted as. */
    method StepParticles(dt: real, draws: seq<Draws>) returns (sprites: seq<Sprite>)
      requires 0.0 <= dt && 0.0 <= scale
      requires AllLive(particles)
      requires |draws| == |particles| && AllValidDraws(draws)
      modifies this`particles
      ensures |particles| == |old(particles)| && AllLive(particles)
      ensures forall i :: 0 <= i < |particles| ==> particles[i] == StepParticle(old(particles)[i], dt, draws[i])
      ensures |sprites| == |particles|
      ensures forall i :: 0 <= i < |sprites| ==> sprites[i] == SpriteFor(particles[i], scale)
    {
      sprites := [];
      var i := 0;
      while i < |particles|
        invariant 0 <= i <= |particles| == |old(particles)|
        invariant forall j :: 0 <= j < i ==> particles[j] == StepParticle(old(particles)[j], dt, draws[j])
        invariant forall j :: i <= j < |particles| ==> particles[j] == old(particles)[j]
        invariant AllLive(particles)
        invariant |sprites| == i
        invariant forall j :: 0 <= j < i ==> sprites[j] == SpriteFor(particles[j], scale)
      {
        var p := StepParticle(particles[i], dt, draws[i]);
        particles := particles[i := p];
        sprites := sprites + [SpriteFor(p, scale)];
        i := i + 1;
      }
    }
  }
}
