/**
  The cursor trail behind the hero gradient (js/hero-gradient.js).

  A `TouchTexture` keeps a list of trail points. Every frame `Update` ages
  each point by one, lets it drift along its direction and drops it once it is
  older than `MaxAge`; `AddTouch` appends the cursor's new position with age 0.
  The envelope that `drawPoint` paints each point with, and the test that
  decides whether the cursor is over the hero at all, are pure functions.
 */
module HeroGradient {
  import opened Reals
  import opened Dom

  /** Number of `update` calls a point lives through (`this.maxAge`). */
  const MaxAge: nat := 64
  /** Drift scale per frame (`this.speed = 1 / this.maxAge`). */
  const Speed: real := 1.0 / 64.0
  /** Ceiling on the force of a touch. */
  const MaxForce: real := 2.0

  datatype Option<T> = None | Some(value: T)

  /** A cursor position in hero-normalised coordinates (`this.last`). */
  datatype Pos = Pos(x: real, y: real)

  /** One entry of `this.trail`. */
  datatype Point = Point(x: real, y: real, age: nat, force: real, vx: real, vy: real)

  /** What every trail point satisfies: its age and its force stay in range. */
  predicate WellFormed(p: Point)
  {
    p.age <= MaxAge && 0.0 <= p.force <= MaxForce
  }

  predicate AllWellFormed(trail: seq<Point>)
  {
    forall i :: 0 <= i < |trail| ==> WellFormed(trail[i])
  }

  // ---------------------------------------------------------------------------
  // addTouch
  // ---------------------------------------------------------------------------

  /** `sqrt` stands for `Math.sqrt`; all the model relies on is that it is
      positive on positive arguments. */
  ghost predicate PositiveOnPositives(sqrt: real -> real)
  {
    forall u :: 0.0 < u ==> 0.0 < sqrt(u)
  }

  /**
    The point `addTouch` records for cursor position `pos`, or `None` when the
    cursor has not moved since `last`. The first touch carries no force and no
    direction; later ones carry the unit direction of the move and a force of
    20000 times its squared length, capped at `MaxForce`.
   */
  function NewTouch(last: Option<Pos>, pos: Pos, sqrt: real -> real): (r: Option<Point>)
    requires PositiveOnPositives(sqrt)
    ensures r.None? <==> last == Some(pos)
    ensures r.Some? ==> r.value.x == pos.x && r.value.y == pos.y && r.value.age == 0
    ensures r.Some? ==> WellFormed(r.value)
    ensures r.Some? && last.None? ==> r.value.force == 0.0 && r.value.vx == 0.0 && r.value.vy == 0.0
    ensures r.Some? && last.Some? ==> 0.0 < r.value.force
    ensures r.Some? && last.Some? ==> Heading(r.value, pos.x - last.value.x, pos.y - last.value.y, sqrt)
  {
    match last
    case None => Some(Point(pos.x, pos.y, 0, 0.0, 0.0, 0.0))
    case Some(l) =>
      var dx, dy := pos.x - l.x, pos.y - l.y;
      if dx == 0.0 && dy == 0.0 then None
      else Some(MovedTouch(pos, dx, dy, sqrt))
  }

  /** The point recorded for a move by `(dx, dy)` that ends at `pos`. */
  function MovedTouch(pos: Pos, dx: real, dy: real, sqrt: real -> real): (p: Point)
    requires PositiveOnPositives(sqrt) && (dx != 0.0 || dy != 0.0)
    ensures p.x == pos.x && p.y == pos.y && p.age == 0
    ensures 0.0 < p.force <= MaxForce
    ensures Heading(p, dx, dy, sqrt)
  {
    var dd := Square(dx) + Square(dy);
    assert 0.0 < sqrt(dd);
    Point(pos.x, pos.y, 0, TouchForce(dd), dx / sqrt(dd), dy / sqrt(dd))
  }

  /** The force of a move whose squared length is `dd`: proportional to `dd`
      and saturating at `MaxForce`. */
  function TouchForce(dd: real): (f: real)
    requires 0.0 < dd
    ensures 0.0 < f <= MaxForce
    ensures f <= dd * 20000.0
    ensures MaxForce <= dd * 20000.0 ==> f == MaxForce
  {
    Min(dd * 20000.0, MaxForce)
  }

  /** `(p.vx, p.vy)` is the move `(dx, dy)` divided by its length. */
  ghost predicate Heading(p: Point, dx: real, dy: real, sqrt: real -> real)
  {
    p.vx * sqrt(Square(dx) + Square(dy)) == dx && p.vy * sqrt(Square(dx) + Square(dy)) == dy
  }

  // ---------------------------------------------------------------------------
  // update
  // ---------------------------------------------------------------------------

  /** The factor `f` by which a point drifts along its direction this frame:
      `force * speed * (1 - age / maxAge)`. */
  function DriftFactor(p: Point): (f: real)
    requires WellFormed(p)
    ensures 0.0 <= f <= p.force * Speed
    ensures p.age == MaxAge ==> f == 0.0
  {
    var fade := 1.0 - p.age as real / MaxAge as real;
    var k := p.force * Speed;
    ScaleDown(k, fade);
    k * fade
  }

  /** One frame of a point: it drifts by `f` along `(vx, vy)` and ages by one. */
  function Step(p: Point): (q: Point)
    requires WellFormed(p)
    ensures q.age == p.age + 1
    ensures q.force == p.force && q.vx == p.vx && q.vy == p.vy
    ensures Survives(p) ==> WellFormed(q)
    ensures p.age == MaxAge ==> q.x == p.x && q.y == p.y
  {
    var f := DriftFactor(p);
    p.(x := p.x + p.vx * f, y := p.y + p.vy * f, age := p.age + 1)
  }

  /** A point survives `update` when its incremented age is at most `MaxAge`. */
  predicate Survives(p: Point)
  {
    p.age + 1 <= MaxAge
  }

  /**
    The trail after one `update`: each point is stepped and kept, in order,
    exactly when it survives.
   */
  function Advance(trail: seq<Point>): (r: seq<Point>)
    requires AllWellFormed(trail)
    ensures |r| <= |trail|
    ensures AllWellFormed(r)
    ensures forall i :: 0 <= i < |r| ==> 1 <= r[i].age
  {
    if trail == [] then []
    else (if Survives(trail[0]) then [Step(trail[0])] else []) + Advance(trail[1..])
  }

  /** The trail after `k` frames with no new touches. */
  function AdvanceN(trail: seq<Point>, k: nat): (r: seq<Point>)
    requires AllWellFormed(trail)
    ensures |r| <= |trail|
    ensures AllWellFormed(r)
    decreases k
  {
    if k == 0 then trail else AdvanceN(Advance(trail), k - 1)
  }

  /** Points of two parts of the trail never interfere: `update` works point by
      point and keeps the survivors in their order. */
  lemma {:induction false} AdvanceConcat(s: seq<Point>, t: seq<Point>)
    requires AllWellFormed(s) && AllWellFormed(t)
    ensures AllWellFormed(s + t)
    ensures Advance(s + t) == Advance(s) + Advance(t)
  {
    assert AllWellFormed(s + t) by {
      forall i | 0 <= i < |s + t| ensures WellFormed((s + t)[i]) {
        if i < |s| { assert (s + t)[i] == s[i]; } else { assert (s + t)[i] == t[i - |s|]; }
      }
    }
    if s == [] {
      assert s + t == t;
    } else {
      assert (s + t)[0] == s[0];
      assert (s + t)[1..] == s[1..] + t;
      AdvanceConcat(s[1..], t);
    }
  }

  /** `update` on a one-point trail. */
  lemma {:induction false} AdvanceOne(p: Point)
    requires WellFormed(p)
    ensures AllWellFormed([p])
    ensures Advance([p]) == if Survives(p) then [Step(p)] else []
  {
    assert [p][1..] == [];
  }

  lemma {:induction false} WellFormedSlice(s: seq<Point>, lo: nat, hi: nat)
    requires AllWellFormed(s) && lo <= hi <= |s|
    ensures AllWellFormed(s[lo..hi])
  {
    forall j | 0 <= j < hi - lo ensures WellFormed(s[lo..hi][j]) {
      assert s[lo..hi][j] == s[lo + j];
    }
  }

  /** `update` on the suffix from index `i` handles point `i`, then the rest. */
  lemma {:induction false} AdvanceFrom(s: seq<Point>, i: nat)
    requires AllWellFormed(s) && i < |s|
    ensures AllWellFormed(s[i..]) && AllWellFormed(s[i + 1..])
    ensures Advance(s[i..]) == (if Survives(s[i]) then [Step(s[i])] else []) + Advance(s[i + 1..])
  {
    WellFormedSlice(s, i, |s|);
    WellFormedSlice(s, i + 1, |s|);
    assert s[i..] == s[i..|s|] && s[i + 1..] == s[i + 1..|s|];
    assert s[i..][0] == s[i] && s[i..][1..] == s[i + 1..];
  }

  /** The three pieces of `s[..i + 1] + done` around index `i`. */
  lemma {:induction false} PiecesAt(s: seq<Point>, i: nat, done: seq<Point>, t: seq<Point>)
    requires i < |s| && t == s[..i + 1] + done
    ensures t[..i] == s[..i] && t[i] == s[i] && t[i + 1..] == done
  {
  }

  /**
    What `update` does with the point at index `i`: the points before it and
    after it contribute their own survivors on either side, and the point
    itself contributes itself aged by exactly one if and only if its new age
    is at most `MaxAge`.
   */
  lemma {:induction false} AdvanceAt(s: seq<Point>, i: nat)
    requires AllWellFormed(s) && i < |s|
    ensures AllWellFormed(s[..i]) && AllWellFormed(s[i + 1..])
    ensures Advance(s) ==
      Advance(s[..i]) + (if s[i].age + 1 <= MaxAge then [Step(s[i])] else []) + Advance(s[i + 1..])
    ensures s[i].age + 1 <= MaxAge ==> Step(s[i]).age == s[i].age + 1
  {
    WellFormedSlice(s, 0, i);
    assert s[..i] == s[0..i];
    AdvanceFrom(s, i);
    assert s == s[..i] + s[i..];
    AdvanceConcat(s[..i], s[i..]);
  }

  lemma {:induction false} AdvanceNConcat(s: seq<Point>, t: seq<Point>, k: nat)
    requires AllWellFormed(s) && AllWellFormed(t)
    ensures AllWellFormed(s + t)
    ensures AdvanceN(s + t, k) == AdvanceN(s, k) + AdvanceN(t, k)
    decreases k
  {
    AdvanceConcat(s, t);
    if k > 0 {
      AdvanceNConcat(Advance(s), Advance(t), k - 1);
    }
  }

  /** A point that still has `k` frames to live is still there, alone and
      exactly `k` older, after `k` frames. */
  lemma {:induction false} AgesOnePerFrame(p: Point, k: nat)
    requires WellFormed(p) && p.age + k <= MaxAge
    ensures |AdvanceN([p], k)| == 1 && AdvanceN([p], k)[0].age == p.age + k
    decreases k
  {
    if k > 0 {
      AdvanceOne(p);
      AgesOnePerFrame(Step(p), k - 1);
    }
  }

  lemma {:induction false} EmptyStaysEmpty(k: nat)
    ensures AdvanceN([], k) == []
  {
    if k > 0 {
      EmptyStaysEmpty(k - 1);
    }
  }

  /** A point of age `a` is gone after `MaxAge - a + 1` frames. */
  lemma {:induction false} Expires(p: Point)
    requires WellFormed(p)
    ensures AdvanceN([p], MaxAge - p.age + 1) == []
    decreases MaxAge - p.age
  {
    AdvanceOne(p);
    if p.age == MaxAge {
      EmptyStaysEmpty(0);
    } else {
      Expires(Step(p));
    }
  }

  /** A freshly added point is drawn through exactly `MaxAge` more calls of
      `update` and removed by the next one, whatever else the trail holds. */
  lemma {:induction false} TouchLifetime(s: seq<Point>, p: Point)
    requires AllWellFormed(s) && WellFormed(p) && p.age == 0
    ensures AllWellFormed(s + [p])
    ensures forall k :: 0 <= k <= MaxAge ==>
      |AdvanceN(s + [p], k)| == |AdvanceN(s, k)| + 1 &&
      AdvanceN(s + [p], k)[|AdvanceN(s, k)|].age == k
    ensures AdvanceN(s + [p], MaxAge + 1) == AdvanceN(s, MaxAge + 1)
  {
    AdvanceOne(p);
    AdvanceNConcat(s, [p], 0);
    forall k | 0 <= k <= MaxAge
      ensures |AdvanceN(s + [p], k)| == |AdvanceN(s, k)| + 1
      ensures AdvanceN(s + [p], k)[|AdvanceN(s, k)|].age == k
    {
      AdvanceNConcat(s, [p], k);
      AgesOnePerFrame(p, k);
    }
    AdvanceNConcat(s, [p], MaxAge + 1);
    Expires(p);
    assert AdvanceN(s, MaxAge + 1) + [] == AdvanceN(s, MaxAge + 1);
  }

  // ---------------------------------------------------------------------------
  // drawPoint: the intensity envelope
  // ---------------------------------------------------------------------------

  /** Stands for `u -> Math.sin(u * Math.PI / 2)` on the quarter wave: all the
      model relies on is that it maps `[0, 1]` into `[0, 1]`. */
  ghost predicate QuarterSine(halfSine: real -> real)
  {
    forall u :: 0.0 <= u <= 1.0 ==> 0.0 <= halfSine(u) <= 1.0
  }

  /** The rise phase covers ages below `0.3 * MaxAge`. */
  predicate Rising(age: nat)
  {
    (age as real) < MaxAge as real * 0.3
  }

  /** The decay variable `t` of `drawPoint`, which runs from 1 down to 0. */
  function DecayPhase(age: nat): (t: real)
    requires !Rising(age) && age <= MaxAge
    ensures 0.0 <= t <= 1.0
    ensures age == MaxAge ==> t == 0.0
  {
    1.0 - (age as real - MaxAge as real * 0.3) / (MaxAge as real * 0.7)
  }

  /** The envelope of `drawPoint`: a quarter sine wave while rising, then the
      ease-out parabola `-t * (t - 2)`. */
  function Envelope(age: nat, halfSine: real -> real): (e: real)
    requires age <= MaxAge && QuarterSine(halfSine)
    ensures 0.0 <= e <= 1.0
    ensures age == MaxAge ==> e == 0.0
  {
    if Rising(age) then
      var u := age as real / (MaxAge as real * 0.3);
      assert 0.0 <= u <= 1.0;
      halfSine(u)
    else
      var t := DecayPhase(age);
      ScaleDown(t, t);
      -t * (t - 2.0)
  }

  /** The intensity a point is drawn with never exceeds its force. */
  function Intensity(p: Point, halfSine: real -> real): (r: real)
    requires WellFormed(p) && QuarterSine(halfSine)
    ensures 0.0 <= r <= p.force <= MaxForce
  {
    var e := Envelope(p.age, halfSine);
    ScaleDown(p.force, e);
    assert p.force * e <= p.force;
    p.force * e
  }

  /** During the decay phase the envelope only falls as the point ages. */
  lemma {:induction false} DecayFades(a: nat, b: nat, halfSine: real -> real)
    requires !Rising(a) && a <= b <= MaxAge && QuarterSine(halfSine)
    ensures Envelope(b, halfSine) <= Envelope(a, halfSine)
  {
    var ta, tb := DecayPhase(a), DecayPhase(b);
    assert Envelope(a, halfSine) == -ta * (ta - 2.0);
    assert Envelope(b, halfSine) == -tb * (tb - 2.0);
    assert 0.0 <= ta - tb;
    NonNegativeProduct(ta - tb, 2.0 - ta - tb);
    assert -ta * (ta - 2.0) - (-tb * (tb - 2.0)) == Product(ta - tb, 2.0 - ta - tb);
  }

  // ---------------------------------------------------------------------------
  // trackCursorBall: the in-bounds test
  // ---------------------------------------------------------------------------

  /**
    The hero-normalised position of the cursor ball's centre (y counted upwards
    from the hero's bottom edge), or `None` when it lies outside the hero.
    A zero-width or zero-height hero makes the division yield NaN or an
    infinity, which fails the bounds test, so no touch is reported.
   */
  function HeroTouch(ball: Rect, hero: Rect): (r: Option<Pos>)
    requires 0.0 <= hero.width && 0.0 <= hero.height
    ensures r.Some? ==> 0.0 <= r.value.x <= 1.0 && 0.0 <= r.value.y <= 1.0
    ensures r.Some? <==>
      0.0 < hero.width && 0.0 < hero.height &&
      hero.left <= ball.left + ball.width / 2.0 <= hero.left + hero.width &&
      hero.top <= ball.top + ball.height / 2.0 <= hero.top + hero.height
  {
    if hero.width == 0.0 || hero.height == 0.0 then None
    else
      var cx := ball.left + ball.width / 2.0;
      var cy := ball.top + ball.height / 2.0;
      var x := (cx - hero.left) / hero.width;
      var y := 1.0 - (cy - hero.top) / hero.height;
      DividedInUnit(cx - hero.left, hero.width);
      DividedInUnit(cy - hero.top, hero.height);
      if 0.0 <= x <= 1.0 && 0.0 <= y <= 1.0 then Some(Pos(x, y)) else None
  }

  lemma {:induction false} DividedInUnit(a: real, w: real)
    requires 0.0 < w
    ensures 0.0 <= a / w <= 1.0 <==> 0.0 <= a <= w
  {
    assert a == a / w * w;
  }

  // ---------------------------------------------------------------------------
  // The trail buffer
  // ---------------------------------------------------------------------------

  class TouchTexture {
    /** `this.trail`, oldest point first. */
    var trail: seq<Point>
    /** `this.last`: the last recorded position, `None` for `null`. */
    var last: Option<Pos>

    predicate Valid()
      reads this
    {
      AllWellFormed(trail)
    }

    constructor ()
      ensures Valid() && trail == [] && last == None
    {
      trail := [];
      last := None;
    }

    /** `addTouch`: records `pos` unless the cursor has not moved. */
    method AddTouch(pos: Pos, sqrt: real -> real)
      requires Valid() && PositiveOnPositives(sqrt)
      modifies this
      ensures Valid()
      ensures old(last) == Some(pos) ==> trail == old(trail) && last == old(last)
      ensures old(last) != Some(pos) ==>
        last == Some(pos) &&
        trail == old(trail) + [NewTouch(old(last), pos, sqrt).value]
    {
      var touch := NewTouch(last, pos, sqrt);
      if touch.None? {
        return;
      }
      last := Some(Pos(pos.x, pos.y));
      var t := trail + [touch.value];
      assert forall i :: 0 <= i < |trail| ==> t[i] == trail[i];
      trail := t;
    }

    /** `update`: walks the trail from its end, ageing every point and
        splicing out the ones that have grown too old. */
    method Update()
      requires Valid()
      modifies this`trail
      ensures Valid()
      ensures trail == Advance(old(trail))
    {
      var i := |trail|;
      while i > 0
        invariant 0 <= i <= |old(trail)|
        invariant AllWellFormed(old(trail))
        invariant AllWellFormed(old(trail)[i..])
        invariant trail == old(trail)[..i] + Advance(old(trail)[i..])
      {
        i := i - 1;
        AdvanceFrom(old(trail), i);
        PiecesAt(old(trail), i, Advance(old(trail)[i + 1..]), trail);
        var point := Step(trail[i]);
        var kept := if point.age > MaxAge then [] else [point];
        assert trail[..i] + kept + trail[i + 1..] == old(trail)[..i] + (kept + Advance(old(trail)[i + 1..]));
        trail := trail[..i] + kept + trail[i + 1..];
      }
      assert old(trail)[0..] == old(trail);
    }
  }

  /** `trackCursorBall`: feeds the cursor ball's centre to the trail when it
      lies over the hero; a missing ball element is `None`. */
  method TrackCursorBall(texture: TouchTexture, ball: Option<Rect>, hero: Rect, sqrt: real -> real)
    requires texture.Valid() && PositiveOnPositives(sqrt)
    requires 0.0 <= hero.width && 0.0 <= hero.height
    modifies texture
    ensures texture.Valid()
    ensures ball.None? || HeroTouch(ball.value, hero).None? ==>
      texture.trail == old(texture.trail) && texture.last == old(texture.last)
    ensures ball.Some? && HeroTouch(ball.value, hero).Some? ==>
      var pos := HeroTouch(ball.value, hero).value;
      (old(texture.last) == Some(pos) ==> texture.trail == old(texture.trail) && texture.last == old(texture.last)) &&
      (old(texture.last) != Some(pos) ==>
        texture.last == Some(pos) &&
        texture.trail == old(texture.trail) + [NewTouch(old(texture.last), pos, sqrt).value])
  {
    if ball.None? {
      return;
    }
    var pos := HeroTouch(ball.value, hero);
    if pos.Some? {
      texture.AddTouch(pos.value, sqrt);
    }
  }

  /** One animation frame of the trail: `update`, then `trackCursorBall`. */
  method AnimateFrame(texture: TouchTexture, ball: Option<Rect>, hero: Rect, sqrt: real -> real)
    requires texture.Valid() && PositiveOnPositives(sqrt)
    requires 0.0 <= hero.width && 0.0 <= hero.height
    modifies texture
    ensures texture.Valid()
    ensures ball.Some? && HeroTouch(ball.value, hero).Some? && old(texture.last) != HeroTouch(ball.value, hero) ==>
      texture.last == HeroTouch(ball.value, hero) &&
      texture.trail == Advance(old(texture.trail)) + [NewTouch(old(texture.last), HeroTouch(ball.value, hero).value, sqrt).value]
    ensures !(ball.Some? && HeroTouch(ball.value, hero).Some? && old(texture.last) != HeroTouch(ball.value, hero)) ==>
      texture.last == old(texture.last) && texture.trail == Advance(old(texture.trail))
  {
    texture.Update();
    TrackCursorBall(texture, ball, hero, sqrt);
  }
}
