/** The dog and cat entities of the older snapshot: the dog's hit/blink
    machine, the cat's behaviour state machine with its annoyance
    accumulator, the countdown timers of jittering and cannonballing, the
    clamped movement and the pen (cat box) test.

    Random samples (the idle heading step, the jitter offset) and the
    lengths of vectors that the game normalises are passed in as parameters. */
module Entities {
  import opened Vectors
  import opened Engine

  datatype Facing = Left | Right

  const ANNOYANCE_THRESHOLD: real := 1.0
  const CANNONBALL_COUNTDOWN: real := 1.0
  const CANNONBALL_SPEED: real := 240.0
  const CANNONBALL_TIME: real := 1.25
  const JITTER_AMOUNT: real := 2.0
  const HIT_TIME: real := 0.5
  const BLINK_FRAMES: nat := 2
  const BASIC_CAT_ANNOYANCE_RATE: real := 0.75
  const BASIC_CAT_CALMING_RATE: real := 0.5
  const BASIC_CAT_SPEED: real := 150.0
  const BASIC_CAT_RW_RADIUS: real := 9.0
  /** Half-width of the random-walk heading step drawn each idle tick. */
  const RW_THETA_STEP: real := 0.3

  /** The facing that a horizontal velocity component `vx` gives: it changes
      only when `vx` is non-zero, and then follows its sign. */
  function FaceAlong(f: Facing, vx: real): (r: Facing)
    ensures vx == 0.0 ==> r == f
    ensures vx != 0.0 ==> (r == Right <==> vx > 0.0)
  {
    if vx != 0.0 then (if vx > 0.0 then Right else Left) else f
  }

  // ---------------------------------------------------------------- dog

  datatype DogState = Chasing | Blinking(shown: bool)

  /** The dog. Its key bindings are not part of the model: callers pass
      which keys are held. */
  datatype Dog = Dog(
    pos: Vec2,
    vel: Vec2,
    size: Vec2,
    facing: Facing,
    dogState: DogState,
    hitTime: real,
    hitFrame: nat)

  /** Being hit starts a visible blink lasting `HIT_TIME`; nothing else changes. */
  function Hit(d: Dog): (r: Dog)
    ensures r.dogState == Blinking(true) && r.hitTime == HIT_TIME
    ensures r.(dogState := d.dogState, hitTime := d.hitTime) == d
  {
    d.(dogState := Blinking(true), hitTime := HIT_TIME)
  }

  /** One blink step: spend `dt` of the hit time, then flip the visibility
      flag while time remains, or go back to chasing. */
  function UpdateBlink(d: Dog, value: bool, dt: real): Dog {
    var t := d.hitTime - dt;
    if t > 0.0 then d.(hitTime := t, dogState := Blinking(!value))
    else d.(hitTime := t, dogState := Chasing)
  }

  /** The per-frame dog update: a chasing dog is left alone; a blinking dog
      counts frames and takes a blink step every `BLINK_FRAMES` frames. */
  function UpdateDog(d: Dog, dt: real): (r: Dog)
    ensures d.dogState == Chasing ==> r == d
    ensures r.(dogState := d.dogState, hitTime := d.hitTime, hitFrame := d.hitFrame) == d
    ensures d.dogState.Blinking? ==> r.hitFrame < BLINK_FRAMES
    ensures d.dogState.Blinking? && d.hitFrame + 1 < BLINK_FRAMES ==>
              r == d.(hitFrame := d.hitFrame + 1)
    ensures d.dogState.Blinking? && d.hitFrame + 1 >= BLINK_FRAMES ==>
              && r.hitFrame == 0
              && r.hitTime == d.hitTime - dt
              && (r.hitTime > 0.0 ==> r.dogState == Blinking(!d.dogState.shown))
              && (r.hitTime <= 0.0 ==> r.dogState == Chasing)
  {
    match d.dogState
    case Chasing => d
    case Blinking(t) =>
      var frame := d.hitFrame + 1;
      if frame >= BLINK_FRAMES then UpdateBlink(d, t, dt).(hitFrame := 0)
      else d.(hitFrame := frame)
  }

  /** `n` consecutive frames of `UpdateDog` with the same frame time. */
  function UpdateDogFrames(d: Dog, dt: real, n: nat): Dog
    decreases n
  {
    if n == 0 then d else UpdateDogFrames(UpdateDog(d, dt), dt, n - 1)
  }

  /** A chasing dog stays exactly as it is, however many frames pass. */
  lemma {:induction false} ChasingIsStable(d: Dog, dt: real, n: nat)
    requires d.dogState == Chasing
    ensures UpdateDogFrames(d, dt, n) == d
    decreases n
  {
    if n > 0 {
      ChasingIsStable(UpdateDog(d, dt), dt, n - 1);
    }
  }

  /** The blink always ends: a dog whose remaining hit time is at most `k`
      frame times is chasing again after `2k` frames. */
  lemma {:induction false} BlinkingEnds(d: Dog, dt: real, k: nat)
    requires dt > 0.0 && k >= 1
    requires d.hitFrame < BLINK_FRAMES
    requires d.hitTime <= k as real * dt
    ensures UpdateDogFrames(d, dt, 2 * k).dogState == Chasing
    decreases k
  {
    if d.dogState == Chasing {
      ChasingIsStable(d, dt, 2 * k);
    } else {
      var d1 := UpdateDog(d, dt);
      var d2 := UpdateDog(d1, dt);
      assert UpdateDogFrames(d, dt, 2 * k) == UpdateDogFrames(d2, dt, 2 * k - 2);
      // Exactly one blink step happened in the two frames.
      assert d2.dogState == Chasing || (d2.hitTime == d.hitTime - dt && d2.hitFrame < BLINK_FRAMES);
      if k == 1 {
        assert d2.dogState == Chasing;
      }
      if d2.dogState == Chasing {
        ChasingIsStable(d2, dt, 2 * k - 2);
      } else {
        assert k != 1;
        BlinkingEnds(d2, dt, k - 1);
      }
    }
  }

  // ---------------------------------------------------------------- cat

  datatype CatType = Basic

  datatype CatState = Flee | Idle | InPen | Jittering | Cannonballing

  datatype Cat = Cat(
    pos: Vec2,
    facing: Facing,
    catType: CatType,
    radius: real,
    speed: real,
    size: Vec2,
    annoyanceTotal: real,
    annoyanceRate: real,
    calmingRate: real,
    state: CatState,
    velocity: Vec2,
    rwRadius: real,
    rwTheta: real,
    jitterOrigin: Vec2,
    targetingTime: real,
    dogTarget: Vec2,
    cannonballingTime: real)

  /** A basic cat as the game spawns it. */
  function NewBasicCat(pos: Vec2, vel: Vec2): Cat {
    Cat(pos, Left, Basic, 70.0, BASIC_CAT_SPEED, Vec2(30.0, 30.0),
        0.0, BASIC_CAT_ANNOYANCE_RATE, BASIC_CAT_CALMING_RATE, Idle, vel,
        BASIC_CAT_RW_RADIUS, 0.0, pos, 0.0, Zero, 0.0)
  }

  /** The annoyance bookkeeping every cat keeps: a non-negative total and
      non-negative rise and calming rates. */
  predicate AnnoyanceSane(c: Cat) {
    c.annoyanceTotal >= 0.0 && c.annoyanceRate >= 0.0 && c.calmingRate >= 0.0
  }

  /** A freshly spawned basic cat is idle, calm, and has sane rates. */
  lemma NewBasicCatIsCalm(pos: Vec2, vel: Vec2)
    ensures var c := NewBasicCat(pos, vel);
      && c.state == Idle && c.annoyanceTotal == 0.0 && AnnoyanceSane(c)
      && c.pos == pos && c.velocity == vel
  {
  }

  /** The overlap of the closed intervals [a, a + la] and [b, b + lb]. */
  predicate IntervalsMeet(a: real, la: real, b: real, lb: real) {
    a <= b + lb && b <= a + la
  }

  /** Cat/dog contact: the boxes spanned from each position by its size
      overlap (touching counts), and only a chasing dog can be touched. */
  function CollidesWith(c: Cat, d: Dog): (r: bool)
    ensures r <==> && d.dogState == Chasing
                   && IntervalsMeet(c.pos.x, c.size.x, d.pos.x, d.size.x)
                   && IntervalsMeet(c.pos.y, c.size.y, d.pos.y, d.size.y)
  {
    if d.dogState != Chasing then false
    else
      var isRight := c.pos.x > d.pos.x + d.size.x;
      var isLeft := c.pos.x + c.size.x < d.pos.x;
      var isTop := c.pos.y + c.size.y < d.pos.y;
      var isBottom := c.pos.y > d.pos.y + d.size.y;
      !(isRight || isLeft || isTop || isBottom)
  }

  /** Aim at the dog: the unit vector from the cat to the dog becomes the
      cannonball direction and the cannonball clock is wound up. */
  function StartTargeting(c: Cat, dogPos: Vec2, len: real): (r: Cat)
    requires IsLength(Sub(dogPos, c.pos), len) && len > 0.0
    ensures SqLen(r.dogTarget) == 1.0
    ensures r.dogTarget.x * len == dogPos.x - c.pos.x
    ensures r.dogTarget.y * len == dogPos.y - c.pos.y
    ensures r.cannonballingTime == CANNONBALL_TIME
    ensures r.(dogTarget := c.dogTarget, cannonballingTime := c.cannonballingTime) == c
  {
    c.(dogTarget := Normalize(Sub(dogPos, c.pos), len), cannonballingTime := CANNONBALL_TIME)
  }

  /** Start jittering: pin the jitter origin where the cat stands and start
      the one-second countdown to the cannonball. */
  function StartJitter(c: Cat): (r: Cat)
    ensures r.jitterOrigin == c.pos && r.targetingTime == CANNONBALL_COUNTDOWN
    ensures r.(jitterOrigin := c.jitterOrigin, targetingTime := c.targetingTime) == c
  {
    c.(jitterOrigin := c.pos, targetingTime := CANNONBALL_COUNTDOWN)
  }

  /** The shaking intensity used for drawing: annoyance relative to the
      threshold. */
  function NormalizedJitter(c: Cat): (r: real)
    ensures r >= 1.0 <==> c.annoyanceTotal >= ANNOYANCE_THRESHOLD
    ensures r * ANNOYANCE_THRESHOLD == c.annoyanceTotal
  {
    c.annoyanceTotal / ANNOYANCE_THRESHOLD
  }

  /** Clamp `v` into [lo, hi], checking the lower bound first. */
  function Clamp(v: real, lo: real, hi: real): real {
    if v < lo then lo else if v > hi then hi else v
  }

  /** The playing field `(0,0)..bounds`, from an unsigned 32-bit vector. */
  datatype Bounds = Bounds(w: nat, h: nat)

  /** Move a box of `size` centred at `pos` by `change`, clamping the centre
      into [size/2, bounds - size/2] on each axis. */
  function ClampMove(pos: Vec2, size: Vec2, bounds: Bounds, change: Vec2): (r: Vec2)
    ensures var lo, hi, n := size.x * 0.5, bounds.w as real - size.x * 0.5, pos.x + change.x;
      && (lo <= hi ==> lo <= r.x <= hi)
      && (lo <= n <= hi ==> r.x == n)
      && (r.x == n || (n < lo && r.x == lo) || (n > hi && n >= lo && r.x == hi))
    ensures var lo, hi, n := size.y * 0.5, bounds.h as real - size.y * 0.5, pos.y + change.y;
      && (lo <= hi ==> lo <= r.y <= hi)
      && (lo <= n <= hi ==> r.y == n)
      && (r.y == n || (n < lo && r.y == lo) || (n > hi && n >= lo && r.y == hi))
  {
    var half := Scale(size, 0.5);
    var moved := Add(pos, change);
    Vec2(Clamp(moved.x, half.x, bounds.w as real - half.x),
         Clamp(moved.y, half.y, bounds.h as real - half.y))
  }

  /** Clamping is idempotent: a clamped position does not move again when
      nothing pushes it. */
  lemma ClampMoveIdempotent(pos: Vec2, size: Vec2, bounds: Bounds, change: Vec2)
    requires size.x * 0.5 <= bounds.w as real - size.x * 0.5
    requires size.y * 0.5 <= bounds.h as real - size.y * 0.5
    ensures var p := ClampMove(pos, size, bounds, change);
      ClampMove(p, size, bounds, Zero) == p
  {
  }

  /** `Cat::try_move`: only the position changes, and it is clamped. */
  function TryMove(c: Cat, bounds: Bounds, change: Vec2): (r: Cat)
    ensures r == c.(pos := ClampMove(c.pos, c.size, bounds, change))
  {
    c.(pos := ClampMove(c.pos, c.size, bounds, change))
  }

  /** Calming: annoyance falls by `calmingRate * dt` and is floored at 0. */
  function DecreaseAnnoyance(c: Cat, dt: real): (r: Cat)
    ensures r.annoyanceTotal >= 0.0
    ensures c.annoyanceTotal - c.calmingRate * dt >= 0.0 ==>
              r.annoyanceTotal == c.annoyanceTotal - c.calmingRate * dt
    ensures c.annoyanceTotal - c.calmingRate * dt < 0.0 ==> r.annoyanceTotal == 0.0
    ensures r == c.(annoyanceTotal := r.annoyanceTotal)
  {
    var a := c.annoyanceTotal - c.calmingRate * dt;
    c.(annoyanceTotal := if a < 0.0 then 0.0 else a)
  }

  /** Calming never raises the annoyance of a sane cat. */
  lemma DecreaseNeverRaises(c: Cat, dt: real)
    requires AnnoyanceSane(c) && dt >= 0.0
    ensures DecreaseAnnoyance(c, dt).annoyanceTotal <= c.annoyanceTotal
    ensures AnnoyanceSane(DecreaseAnnoyance(c, dt))
  {
    assert c.calmingRate * dt >= 0.0;
  }

  /** Annoying: annoyance rises by `annoyanceRate * dt` with no upper clamp;
      reaching the threshold starts the jitter countdown from here. */
  function IncreaseAnnoyance(c: Cat, dt: real): (r: Cat)
    ensures r.annoyanceTotal == c.annoyanceTotal + c.annoyanceRate * dt
    ensures r.annoyanceTotal >= ANNOYANCE_THRESHOLD ==>
              r.jitterOrigin == c.pos && r.targetingTime == CANNONBALL_COUNTDOWN
    ensures r.annoyanceTotal < ANNOYANCE_THRESHOLD ==>
              r.jitterOrigin == c.jitterOrigin && r.targetingTime == c.targetingTime
    ensures r.(annoyanceTotal := c.annoyanceTotal, jitterOrigin := c.jitterOrigin,
               targetingTime := c.targetingTime) == c
  {
    var raised := c.(annoyanceTotal := c.annoyanceTotal + c.annoyanceRate * dt);
    if raised.annoyanceTotal >= ANNOYANCE_THRESHOLD then StartJitter(raised) else raised
  }

  /** Annoying a sane cat keeps it sane (the total never goes negative). */
  lemma IncreaseKeepsSane(c: Cat, dt: real)
    requires AnnoyanceSane(c) && dt >= 0.0
    ensures AnnoyanceSane(IncreaseAnnoyance(c, dt))
    ensures IncreaseAnnoyance(c, dt).annoyanceTotal >= c.annoyanceTotal
  {
    assert c.annoyanceRate * dt >= 0.0;
  }

  /** Leaving the cannonball: calm again and idle. */
  function StopCannonballing(c: Cat): (r: Cat)
    ensures r.annoyanceTotal == 0.0 && r.state == Idle
    ensures r.(annoyanceTotal := c.annoyanceTotal, state := c.state) == c
  {
    c.(annoyanceTotal := 0.0, state := Idle)
  }

  /** The pen: a box of `size` centred at `pos`. */
  datatype CatBox = CatBox(pos: Vec2, size: Vec2)

  /** A point is in the pen when it is within half the pen's size of the
      pen's centre on both axes, edges included. */
  function InBounds(b: CatBox, p: Vec2): (r: bool)
    ensures r <==> && -(b.size.x / 2.0) <= p.x - b.pos.x <= b.size.x / 2.0
                   && -(b.size.y / 2.0) <= p.y - b.pos.y <= b.size.y / 2.0
  {
    var half := Scale(b.size, 0.5);
    var topLeft := Sub(b.pos, half);
    var bottomRight := Add(b.pos, half);
    p.x >= topLeft.x && p.x <= bottomRight.x && p.y >= topLeft.y && p.y <= bottomRight.y
  }

  /** The four corners of a pen of non-negative size are in the pen. */
  lemma PenCornersInside(b: CatBox, sx: real, sy: real)
    requires b.size.x >= 0.0 && b.size.y >= 0.0
    requires sx == 1.0 || sx == -1.0
    requires sy == 1.0 || sy == -1.0
    ensures InBounds(b, Vec2(b.pos.x + sx * b.size.x / 2.0, b.pos.y + sy * b.size.y / 2.0))
  {
  }

  /** The dog is close enough to scare the cat: the distance between them
      (`dist`, the magnitude of cat - dog) is below the cat's radius. */
  predicate Near(c: Cat, dist: real) {
    dist < c.radius
  }

  /** `Cat::update_state`: the prioritised transition chain.
      `dist` is the distance between cat and dog. */
  function UpdateState(c: Cat, d: Dog, b: CatBox, dist: real): (r: Cat)
    requires IsLength(Sub(c.pos, d.pos), dist)
    // 1. A cannonball in flight continues.
    ensures c.state == Cannonballing && c.cannonballingTime > 0.0 ==> r == c
    // 2. A finished cannonball calms the cat down and makes it idle.
    ensures c.state == Cannonballing && c.cannonballingTime <= 0.0 ==> r == StopCannonballing(c)
    // Otherwise only the state changes, and rules 3-7 choose it.
    ensures c.state != Cannonballing ==> r == c.(state := r.state)
    ensures c.state != Cannonballing ==>
      (r.state == Cannonballing <==> c.state == Jittering && c.targetingTime <= 0.0)
    ensures c.state != Cannonballing ==>
      (r.state == Jittering <==>
        !(c.state == Jittering && c.targetingTime <= 0.0)
        && c.annoyanceTotal >= ANNOYANCE_THRESHOLD)
    ensures c.state != Cannonballing ==>
      (r.state == InPen <==>
        !(c.state == Jittering && c.targetingTime <= 0.0)
        && c.annoyanceTotal < ANNOYANCE_THRESHOLD
        && InBounds(b, c.pos))
    ensures c.state != Cannonballing ==>
      (r.state == Flee <==>
        !(c.state == Jittering && c.targetingTime <= 0.0)
        && c.annoyanceTotal < ANNOYANCE_THRESHOLD
        && !InBounds(b, c.pos)
        && d.dogState == Chasing && Near(c, dist))
  {
    if c.state == Cannonballing && c.cannonballingTime > 0.0 then
      c.(state := Cannonballing)
    else if c.state == Cannonballing && c.cannonballingTime <= 0.0 then
      StopCannonballing(c).(state := Idle)
    else if c.state == Jittering && c.targetingTime <= 0.0 then
      c.(state := Cannonballing)
    else if c.state != Cannonballing && c.annoyanceTotal >= ANNOYANCE_THRESHOLD then
      c.(state := Jittering)
    else if InBounds(b, c.pos) then
      c.(state := InPen)
    else if d.dogState == Chasing && Near(c, dist) then
      c.(state := Flee)
    else
      c.(state := Idle)
  }

  /** `Cat::flee`: run straight away from the dog at the cat's speed, move
      (clamped), and get more annoyed. `dir` (cat - dog) must be non-zero. */
  function FleeStep(c: Cat, bounds: Bounds, dir: Vec2, len: real, dt: real): (r: Cat)
    requires IsLength(dir, len) && len > 0.0
    ensures r.velocity.x * len == dir.x * c.speed && r.velocity.y * len == dir.y * c.speed
    ensures SqLen(r.velocity) == c.speed * c.speed
    ensures r.pos == ClampMove(c.pos, c.size, bounds, Scale(r.velocity, dt))
    ensures r.annoyanceTotal == c.annoyanceTotal + c.annoyanceRate * dt
    // Reaching the threshold starts the jitter where the cat now stands.
    ensures r == IncreaseAnnoyance(c.(velocity := r.velocity, pos := r.pos), dt)
    ensures r.state == c.state
  {
    var unit := Normalize(dir, len);
    var vel := Scale(unit, c.speed);
    assert SqLen(vel) == c.speed * c.speed * SqLen(unit);
    var moved := TryMove(c.(velocity := vel), bounds, Scale(vel, dt));
    IncreaseAnnoyance(moved, dt)
  }

  /** The random-walk steering of `Cat::idle`: a non-zero sum of the
      current velocity and the random-walk vector `circle` (of length `len`)
      gives the new direction, at `speed`; a zero sum keeps the velocity. */
  function Steer(vel: Vec2, circle: Vec2, len: real, speed: real): (r: Vec2)
    requires IsLength(Add(vel, circle), len)
    ensures len == 0.0 ==> r == vel
    ensures len != 0.0 ==> r.x * len == (vel.x + circle.x) * speed
    ensures len != 0.0 ==> r.y * len == (vel.y + circle.y) * speed
  {
    if len != 0.0 then
      var n := Normalize(Add(vel, circle), len);
      assert (n.x * speed) * len == (n.x * len) * speed;
      assert (n.y * speed) * len == (n.y * len) * speed;
      Scale(n, speed)
    else vel
  }

  /** `Cat::idle`: a random-walk step. The heading moves by the sampled
      `dTheta`; `circle` is the random-walk vector of length `rwRadius` at
      that heading (its trigonometry is not modelled) and `len` the length
      of velocity + circle. The steered velocity, at a third of the cat's
      speed, moves the cat (clamped), and the cat calms down. */
  function IdleStep(c: Cat, bounds: Bounds, dt: real, dTheta: real, circle: Vec2, len: real): (r: Cat)
    requires -RW_THETA_STEP <= dTheta < RW_THETA_STEP
    requires SqLen(circle) == c.rwRadius * c.rwRadius
    requires IsLength(Add(c.velocity, circle), len)
    ensures r.rwTheta == c.rwTheta + dTheta
    ensures r.velocity == Steer(c.velocity, circle, len, c.speed / 3.0)
    ensures r.pos == ClampMove(c.pos, c.size, bounds, Scale(r.velocity, dt))
    ensures r.annoyanceTotal == DecreaseAnnoyance(c, dt).annoyanceTotal
    ensures r.state == c.state
  {
    var vel := Steer(c.velocity, circle, len, c.speed / 3.0);
    var moved := c.(rwTheta := c.rwTheta + dTheta, velocity := vel,
                    pos := ClampMove(c.pos, c.size, bounds, Scale(vel, dt)));
    DecreaseAnnoyance(moved, dt)
  }

  /** `Cat::in_pen`: a penned cat stays put and calms down. */
  function InPenStep(c: Cat, dt: real): (r: Cat)
    ensures r == c.(annoyanceTotal := r.annoyanceTotal)
    ensures r.annoyanceTotal >= 0.0
    ensures r.annoyanceTotal == DecreaseAnnoyance(c, dt).annoyanceTotal
  {
    DecreaseAnnoyance(c, dt)
  }

  /** `Cat::cannonball_countdown`: the jitter clock runs down by `dt`; when
      it runs out the cat aims at the dog. */
  function CannonballCountdown(c: Cat, dt: real, dogPos: Vec2, len: real): (r: Cat)
    requires IsLength(Sub(dogPos, c.pos), len)
    requires c.targetingTime - dt <= 0.0 ==> len > 0.0
    ensures r.targetingTime == c.targetingTime - dt
    ensures r.targetingTime > 0.0 ==> r == c.(targetingTime := r.targetingTime)
    ensures r.targetingTime <= 0.0 ==>
      && r.cannonballingTime == CANNONBALL_TIME
      && SqLen(r.dogTarget) == 1.0
      && r.dogTarget.x * len == dogPos.x - c.pos.x
      && r.dogTarget.y * len == dogPos.y - c.pos.y
    ensures r == c.(targetingTime := r.targetingTime, dogTarget := r.dogTarget,
                    cannonballingTime := r.cannonballingTime)
  {
    var counted := c.(targetingTime := c.targetingTime - dt);
    if counted.targetingTime <= 0.0 then StartTargeting(counted, dogPos, len) else counted
  }

  /** `Cat::jitter`: the cat shakes within `JITTER_AMOUNT` of its jitter
      origin (`offset` is the sampled shake) while the countdown runs. */
  function JitterStep(c: Cat, dt: real, dogPos: Vec2, offset: Vec2, len: real): (r: Cat)
    requires -JITTER_AMOUNT <= offset.x < JITTER_AMOUNT
    requires -JITTER_AMOUNT <= offset.y < JITTER_AMOUNT
    requires IsLength(Sub(dogPos, Add(c.jitterOrigin, offset)), len)
    requires c.targetingTime - dt <= 0.0 ==> len > 0.0
    ensures -JITTER_AMOUNT <= r.pos.x - c.jitterOrigin.x < JITTER_AMOUNT
    ensures -JITTER_AMOUNT <= r.pos.y - c.jitterOrigin.y < JITTER_AMOUNT
    ensures r.targetingTime == c.targetingTime - dt
    ensures r.targetingTime <= 0.0 ==> r.cannonballingTime == CANNONBALL_TIME && SqLen(r.dogTarget) == 1.0
    // The aim is taken from where the shake put the cat.
    ensures r.targetingTime <= 0.0 ==>
      r.dogTarget.x * len == dogPos.x - r.pos.x && r.dogTarget.y * len == dogPos.y - r.pos.y
    ensures r.targetingTime > 0.0 ==> r.dogTarget == c.dogTarget && r.cannonballingTime == c.cannonballingTime
    ensures r.jitterOrigin == c.jitterOrigin
    ensures r.state == c.state && r.annoyanceTotal == c.annoyanceTotal && r.velocity == c.velocity
  {
    CannonballCountdown(c.(pos := Add(c.jitterOrigin, offset)), dt, dogPos, len)
  }

  /** `Cat::cannonball`: fly along the locked-in direction, run the
      cannonball clock down by `dt`, and hit the dog on contact. The game
      stores the per-tick displacement in `velocity`. */
  function CannonballStep(c: Cat, bounds: Bounds, dt: real, d: Dog): (r: (Cat, Dog))
    ensures r.0.velocity == Scale(c.dogTarget, CANNONBALL_SPEED * dt)
    ensures r.0.pos == ClampMove(c.pos, c.size, bounds, r.0.velocity)
    ensures r.0.cannonballingTime == c.cannonballingTime - dt
    ensures r.0 == c.(velocity := r.0.velocity, pos := r.0.pos, cannonballingTime := r.0.cannonballingTime)
    ensures r.1 != d <==> CollidesWith(r.0, d)
    ensures r.1 != d ==> r.1 == Hit(d)
    ensures d.dogState != Chasing ==> r.1 == d
  {
    var v := Scale(c.dogTarget, CANNONBALL_SPEED * dt);
    var moved := TryMove(c.(velocity := v), bounds, v);
    var counted := moved.(cannonballingTime := c.cannonballingTime - dt);
    if CollidesWith(counted, d) then (counted, Hit(d)) else (counted, d)
  }

  // ------------------------------------------------------ derived properties

  /** Cannonball commitment: while the cannonball clock has time left, the
      cat stays cannonballing whatever the dog, the pen or its annoyance. */
  lemma CannonballCommitment(c: Cat, d: Dog, b: CatBox, dist: real)
    requires IsLength(Sub(c.pos, d.pos), dist)
    requires c.state == Cannonballing && c.cannonballingTime > 0.0
    ensures UpdateState(c, d, b, dist).state == Cannonballing
  {
  }

  /** A dog that is blinking (recovering from a hit) scares no cat, and no
      cat can collide with it. */
  lemma BlinkingDogIsHarmless(c: Cat, d: Dog, b: CatBox, dist: real)
    requires IsLength(Sub(c.pos, d.pos), dist)
    requires d.dogState.Blinking?
    ensures UpdateState(c, d, b, dist).state != Flee
    ensures !CollidesWith(c, d)
  {
  }

  /** Priorities: an annoyed cat jitters even in the pen, and a penned cat
      stays in the pen even with the dog right next to it. */
  lemma AnnoyedBeatsPenBeatsFlee(c: Cat, d: Dog, b: CatBox, dist: real)
    requires IsLength(Sub(c.pos, d.pos), dist)
    requires c.state != Cannonballing && !(c.state == Jittering && c.targetingTime <= 0.0)
    ensures c.annoyanceTotal >= ANNOYANCE_THRESHOLD ==> UpdateState(c, d, b, dist).state == Jittering
    ensures c.annoyanceTotal < ANNOYANCE_THRESHOLD && InBounds(b, c.pos) ==>
              UpdateState(c, d, b, dist).state == InPen
  {
  }

  /** Only a jittering cat whose countdown ran out starts a cannonball, and
      only a finished cannonball resets the annoyance. */
  lemma CannonballOnlyFromJitter(c: Cat, d: Dog, b: CatBox, dist: real)
    requires IsLength(Sub(c.pos, d.pos), dist)
    ensures var r := UpdateState(c, d, b, dist);
      r.state == Cannonballing && c.state != Cannonballing ==> c.state == Jittering
    ensures var r := UpdateState(c, d, b, dist);
      r.annoyanceTotal != c.annoyanceTotal ==>
        c.state == Cannonballing && c.cannonballingTime <= 0.0 && r.annoyanceTotal == 0.0
  {
  }

  /** Every state the chain produces is one of its five outcomes, with
      `Idle` exactly when no rule above it fires. */
  lemma IdleIsTheFallback(c: Cat, d: Dog, b: CatBox, dist: real)
    requires IsLength(Sub(c.pos, d.pos), dist)
    requires c.state != Cannonballing && !(c.state == Jittering && c.targetingTime <= 0.0)
    ensures UpdateState(c, d, b, dist).state == Idle <==>
      && c.annoyanceTotal < ANNOYANCE_THRESHOLD
      && !InBounds(b, c.pos)
      && !(d.dogState == Chasing && Near(c, dist))
  {
  }

  /** A cat's flight over several ticks: each tick runs the transition chain
      and, while cannonballing, the cannonball step. The dog stays where it
      is; the returned dog records any hit. */
  function CannonballFlight(c: Cat, d: Dog, bounds: Bounds, dts: seq<real>): (r: (Cat, Dog))
    decreases |dts|
  {
    if |dts| == 0 || c.state != Cannonballing || c.cannonballingTime <= 0.0 then (c, d)
    else
      // While the clock has time left the transition chain leaves the cat
      // as it is (CannonballCommitment), so only the cannonball step acts.
      var next := CannonballStep(c, bounds, dts[0], d);
      CannonballFlight(next.0, next.1, bounds, dts[1..])
  }

  /** The cannonball holds its course: over any run of ticks whose total
      time is below the remaining cannonball time, the cat keeps
      cannonballing along the same direction, and its clock has gone down by
      exactly the elapsed time. */
  lemma {:induction false} CannonballHoldsCourse(c: Cat, d: Dog, bounds: Bounds, dts: seq<real>)
    requires c.state == Cannonballing
    requires forall i :: 0 <= i < |dts| ==> dts[i] >= 0.0
    requires Sum(dts) < c.cannonballingTime
    ensures var r := CannonballFlight(c, d, bounds, dts);
      && r.0.state == Cannonballing
      && r.0.dogTarget == c.dogTarget
      && r.0.cannonballingTime == c.cannonballingTime - Sum(dts)
      && r.0.annoyanceTotal == c.annoyanceTotal
    decreases |dts|
  {
    if |dts| > 0 {
      assert Sum(dts) == dts[0] + Sum(dts[1..]);
      SumNonNegative(dts[1..]);
      var next := CannonballStep(c, bounds, dts[0], d);
      assert forall i :: 0 <= i < |dts[1..]| ==> dts[1..][i] >= 0.0 by {
        forall i | 0 <= i < |dts[1..]| ensures dts[1..][i] >= 0.0 {
          assert dts[1..][i] == dts[i + 1];
        }
      }
      CannonballHoldsCourse(next.0, next.1, bounds, dts[1..]);
    }
  }

  /** A cat's frames while only the pen acts on it: the transition chain
      and, while it chooses the pen, the in-pen step. The dog stands still
      and a penned cat does not move, so their distance stays `dist`. */
  function PenFrames(c: Cat, d: Dog, b: CatBox, dist: real, dts: seq<real>): Cat
    requires IsLength(Sub(c.pos, d.pos), dist)
    decreases |dts|
  {
    if |dts| == 0 then c
    else
      var c1 := UpdateState(c, d, b, dist);
      if c1.state != InPen then c1
      else PenFrames(InPenStep(c1, dts[0]), d, b, dist, dts[1..])
  }

  /** A calm cat in the pen stays there: over any run of frames it is still
      in the pen, at the same place, no more annoyed, and otherwise
      unchanged. */
  lemma {:induction false} PennedCatStays(c: Cat, d: Dog, b: CatBox, dist: real, dts: seq<real>)
    requires IsLength(Sub(c.pos, d.pos), dist)
    requires c.state == InPen && c.annoyanceTotal < ANNOYANCE_THRESHOLD && InBounds(b, c.pos)
    requires AnnoyanceSane(c)
    requires forall i :: 0 <= i < |dts| ==> dts[i] >= 0.0
    ensures var r := PenFrames(c, d, b, dist, dts);
      && r.state == InPen
      && r.annoyanceTotal <= c.annoyanceTotal
      && r == c.(annoyanceTotal := r.annoyanceTotal)
    decreases |dts|
  {
    if |dts| > 0 {
      var c1 := UpdateState(c, d, b, dist);
      assert c1 == c;
      var c2 := InPenStep(c1, dts[0]);
      DecreaseNeverRaises(c1, dts[0]);
      assert forall i :: 0 <= i < |dts[1..]| ==> dts[1..][i] == dts[i + 1];
      PennedCatStays(c2, d, b, dist, dts[1..]);
    }
  }

  /** The point at `dir` from `origin`, stretched by `k`. */
  function Stretched(origin: Vec2, dir: Vec2, k: real): Vec2 {
    Add(origin, Scale(dir, k))
  }

  /** A flight away from a dog standing still takes the cat straight away
      from it: when the clamp does not stop it, the cat's offset from the
      dog is stretched by the factor 1 + speed * dt / distance, which is
      more than 1. */
  lemma FleeingGainsDistance(c: Cat, bounds: Bounds, dogPos: Vec2, len: real, dt: real)
    requires IsLength(Sub(c.pos, dogPos), len) && len > 0.0
    requires c.speed > 0.0 && dt > 0.0
    // The stretched position is inside the field, so the clamp does not bite.
    requires var p := Stretched(dogPos, Sub(c.pos, dogPos), 1.0 + c.speed / len * dt);
      && c.size.x * 0.5 <= p.x <= bounds.w as real - c.size.x * 0.5
      && c.size.y * 0.5 <= p.y <= bounds.h as real - c.size.y * 0.5
    ensures 1.0 + c.speed / len * dt > 1.0
    ensures FleeStep(c, bounds, Sub(c.pos, dogPos), len, dt).pos
            == Stretched(dogPos, Sub(c.pos, dogPos), 1.0 + c.speed / len * dt)
  {
    var dir := Sub(c.pos, dogPos);
    var r := FleeStep(c, bounds, dir, len, dt);
    AlongDirection(dir.x, r.velocity.x, len, c.speed, dt);
    AlongDirection(dir.y, r.velocity.y, len, c.speed, dt);
    assert Add(c.pos, Scale(r.velocity, dt)) == Stretched(dogPos, dir, 1.0 + c.speed / len * dt);
    PositiveProduct(c.speed / len, dt);
  }

  /** One component of a push along `dir`: `a + v * dt` is `a` scaled by
      `1 + speed * dt / len`. */
  lemma AlongDirection(a: real, v: real, len: real, speed: real, dt: real)
    requires len > 0.0
    requires v * len == a * speed
    ensures a + v * dt == a * (1.0 + speed / len * dt)
  {
    var q := speed / len;
    assert q * len == speed;
    assert v * len == (a * q) * len;
    assert v == a * q;
  }

  lemma PositiveProduct(a: real, b: real)
    requires a > 0.0 && b > 0.0
    ensures a * b > 0.0
  {
  }

  /** While the countdown has time left, an annoyed jittering cat keeps
      jittering: the transition chain leaves it exactly as it is, whatever
      the dog or the pen. */
  lemma JitterHolds(c: Cat, d: Dog, b: CatBox, dist: real)
    requires IsLength(Sub(c.pos, d.pos), dist)
    requires c.state == Jittering && c.targetingTime > 0.0 && c.annoyanceTotal >= ANNOYANCE_THRESHOLD
    ensures UpdateState(c, d, b, dist) == c
  {
  }

  /** The shaking before the launch: jitter steps while the countdown has
      time left. `offsets` are the sampled shakes and `lens` the distances
      from each shaken position to the dog. */
  function JitterFrames(c: Cat, dogPos: Vec2, dts: seq<real>, offsets: seq<Vec2>, lens: seq<real>): (r: Cat)
    requires |offsets| == |dts| && |lens| == |dts|
    requires forall i :: 0 <= i < |dts| ==> dts[i] >= 0.0
    requires Sum(dts) < c.targetingTime
    requires forall i :: 0 <= i < |dts| ==>
      && -JITTER_AMOUNT <= offsets[i].x < JITTER_AMOUNT
      && -JITTER_AMOUNT <= offsets[i].y < JITTER_AMOUNT
      && IsLength(Sub(dogPos, Add(c.jitterOrigin, offsets[i])), lens[i])
    decreases |dts|
  {
    if |dts| == 0 then c
    else
      assert Sum(dts) == dts[0] + Sum(dts[1..]);
      assert forall i :: 0 <= i < |dts[1..]| ==> dts[1..][i] == dts[i + 1];
      SumNonNegative(dts[1..]);
      var next := JitterStep(c, dts[0], dogPos, offsets[0], lens[0]);
      JitterFrames(next, dogPos, dts[1..], offsets[1..], lens[1..])
  }

  /** `r` is `c` after `elapsed` seconds of shaking: within `JITTER_AMOUNT`
      of the same origin, with the same state, annoyance and velocity, and
      the countdown down by `elapsed`. */
  predicate ShookInPlace(c: Cat, r: Cat, elapsed: real) {
    && -JITTER_AMOUNT <= r.pos.x - c.jitterOrigin.x < JITTER_AMOUNT
    && -JITTER_AMOUNT <= r.pos.y - c.jitterOrigin.y < JITTER_AMOUNT
    && r.jitterOrigin == c.jitterOrigin
    && r.targetingTime == c.targetingTime - elapsed
    && r.state == c.state && r.annoyanceTotal == c.annoyanceTotal && r.velocity == c.velocity
  }

  /** A jittering cat stays within `JITTER_AMOUNT` of the fixed spot where
      the jitter started, keeps its state, annoyance and velocity, and its
      countdown has gone down by exactly the elapsed time. */
  lemma {:induction false} JitterStaysNearOrigin(c: Cat, dogPos: Vec2, dts: seq<real>, offsets: seq<Vec2>, lens: seq<real>)
    requires |offsets| == |dts| && |lens| == |dts| && |dts| > 0
    requires forall i :: 0 <= i < |dts| ==> dts[i] >= 0.0
    requires Sum(dts) < c.targetingTime
    requires forall i :: 0 <= i < |dts| ==>
      && -JITTER_AMOUNT <= offsets[i].x < JITTER_AMOUNT
      && -JITTER_AMOUNT <= offsets[i].y < JITTER_AMOUNT
      && IsLength(Sub(dogPos, Add(c.jitterOrigin, offsets[i])), lens[i])
    ensures ShookInPlace(c, JitterFrames(c, dogPos, dts, offsets, lens), Sum(dts))
    decreases |dts|
  {
    assert Sum(dts) == dts[0] + Sum(dts[1..]);
    assert forall i :: 0 <= i < |dts[1..]| ==> dts[1..][i] == dts[i + 1];
    SumNonNegative(dts[1..]);
    var next := JitterStep(c, dts[0], dogPos, offsets[0], lens[0]);
    if |dts| > 1 {
      JitterStaysNearOrigin(next, dogPos, dts[1..], offsets[1..], lens[1..]);
    }
  }
}
