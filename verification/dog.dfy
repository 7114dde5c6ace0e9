/** `src/dog.rs`: the player's dog in the newer game. A cannonballing cat
    that runs into the dog starts a half-second recovery, during which the
    dog blinks and further hits are ignored. */
module DogSystems {
  import opened Vectors
  import opened Engine
  import opened Cats
  import opened Input

  const DOG_SPEED: real := 150.0
  const RECOVERY_TIME: real := 0.5
  const DOG_Z: real := 3.0

  datatype Dog = Dog(speed: real, recoveryTimer: Timer)

  /** Recovering: the recovery timer is running. */
  predicate IsRecovering(d: Dog) {
    !d.recoveryTimer.paused && !d.recoveryTimer.finished
  }

  /** `Dog::start_recovery`: reset and unpause the recovery timer. */
  function StartRecovery(d: Dog): (r: Dog)
    ensures IsRecovering(r)
    ensures r.recoveryTimer.elapsed == 0.0
    ensures r.speed == d.speed && r.recoveryTimer.duration == d.recoveryTimer.duration
  {
    d.(recoveryTimer := Unpause(Reset(d.recoveryTimer)))
  }

  /** The sprite animation: nothing yet, or a named tag at some frame.
      Playing a tag starts it from its first frame. */
  datatype Animation = NotPlaying | Playing(tag: string, frame: nat)

  predicate IsPlaying(a: Animation, tag: string) {
    a.Playing? && a.tag == tag
  }

  function Play(tag: string): Animation {
    Playing(tag, 0)
  }

  /** The components of the dog entity the game's systems read and write.
      `blinkEnabled` stands for the `Blink` component being switched on. */
  datatype DogEntity = DogEntity(
    dog: Dog,
    pos: Vec2,
    z: real,
    flipX: bool,
    animation: Animation,
    velocity: Vec2,
    input: PlayerInput,
    boundsMin: Vec2,
    boundsMax: Vec2,
    blinkEnabled: bool)

  /** The `dog` bundle: a dog at `pos` in a world of size `world`. */
  function SpawnDog(pos: Vec2, world: Vec2): (r: DogEntity)
    ensures r.dog.speed == DOG_SPEED && r.dog.recoveryTimer.duration == RECOVERY_TIME
    ensures !IsRecovering(r.dog) && !r.blinkEnabled
    ensures r.pos == pos && r.z == DOG_Z && r.flipX
    ensures IsPlaying(r.animation, "idle_front")
    ensures r.velocity == Zero && r.input == DefaultInput
    // The movement bounds are the world, centred on the origin.
    ensures Add(r.boundsMin, r.boundsMax) == Zero && Add(r.boundsMax, r.boundsMax) == world
  {
    var timer := Pause(FromSeconds(RECOVERY_TIME));
    var half := Scale(world, 0.5);
    DogEntity(Dog(DOG_SPEED, timer), pos, DOG_Z, true, Play("idle_front"), Zero,
              DefaultInput, Sub(Zero, half), half, false)
  }

  /** `dog_movement`: the dog runs where the input points, at its speed
      times the input's length. The input is not normalised, so a stick
      pushed part way gives a slower dog. */
  function DogMovement(e: DogEntity): (r: DogEntity)
    ensures r == e.(velocity := r.velocity)
    ensures e.input.movement == Zero ==> r.velocity == Zero
    ensures SqLen(r.velocity) == SqLen(e.input.movement) * (e.dog.speed * e.dog.speed)
    ensures SqLen(e.input.movement) == 1.0 ==> SqLen(r.velocity) == e.dog.speed * e.dog.speed
    ensures e.dog.speed > 0.0 ==>
      && (r.velocity.x > 0.0 <==> e.input.movement.x > 0.0)
      && (r.velocity.x < 0.0 <==> e.input.movement.x < 0.0)
      && (r.velocity.y > 0.0 <==> e.input.movement.y > 0.0)
      && (r.velocity.y < 0.0 <==> e.input.movement.y < 0.0)
  {
    var v := Scale(e.input.movement, e.dog.speed);
    assert SqLen(v) == SqLen(e.input.movement) * (e.dog.speed * e.dog.speed);
    assert e.dog.speed > 0.0 ==>
      && (v.x > 0.0 <==> e.input.movement.x > 0.0) && (v.x < 0.0 <==> e.input.movement.x < 0.0)
      && (v.y > 0.0 <==> e.input.movement.y > 0.0) && (v.y < 0.0 <==> e.input.movement.y < 0.0) by {
      if e.dog.speed > 0.0 {
        SignOfQuotient(e.input.movement.x, e.dog.speed, v.x);
        SignOfQuotient(e.input.movement.y, e.dog.speed, v.y);
      }
    }
    e.(velocity := v)
  }

  /** With no stick past the dead zone, a held direction on the keyboard
      makes the dog run at exactly its speed, the way the keys point. */
  lemma KeyboardRunsAtSpeed(e: DogEntity, k: Keys, g: Gamepad, keyLen: real)
    requires IsLength(KeyDirection(k), keyLen)
    requires StickMovement(g) == Zero
    requires !(RightHeld(k) == LeftHeld(k) && UpHeld(k) == DownHeld(k))
    requires e.dog.speed > 0.0
    ensures var r := DogMovement(e.(input := ReadInput(k, g, keyLen)));
      && SqLen(r.velocity) == e.dog.speed * e.dog.speed
      && (r.velocity.x > 0.0 <==> RightHeld(k) && !LeftHeld(k))
      && (r.velocity.x < 0.0 <==> !RightHeld(k) && LeftHeld(k))
      && (r.velocity.y > 0.0 <==> UpHeld(k) && !DownHeld(k))
      && (r.velocity.y < 0.0 <==> !UpHeld(k) && DownHeld(k))
  {
  }

  /** What the dog ran into. */
  datatype Collider = CatCollider(state: CatState) | OtherCollider

  /** `dog_intersects_cat`: a collision that starts on an entity. Only a
      collision on the dog (`onDog`), while it is not recovering, with a
      cannonballing cat counts: the dog starts recovering, blinks and yips
      (the second result). */
  function DogIntersectsCat(onDog: bool, e: DogEntity, other: Collider): (r: (DogEntity, bool))
    ensures !onDog || IsRecovering(e.dog) ==> r == (e, false)
    ensures onDog && !IsRecovering(e.dog) ==>
      (r.1 <==> other.CatCollider? && IsCannonballing(other.state))
    ensures r.1 ==> IsRecovering(r.0.dog) && r.0.blinkEnabled && r.0.dog.recoveryTimer.elapsed == 0.0
    ensures r.1 ==> r.0 == e.(dog := r.0.dog, blinkEnabled := true) && r.0.dog.speed == e.dog.speed
    ensures !r.1 ==> r.0 == e
  {
    if !onDog || IsRecovering(e.dog) then (e, false)
    else if other.CatCollider? && IsCannonballing(other.state) then
      (e.(dog := StartRecovery(e.dog), blinkEnabled := true), true)
    else (e, false)
  }

  /** A hit is taken once: the same collision again right after changes
      nothing and makes no sound. */
  lemma HitTakenOnce(e: DogEntity, other: Collider)
    ensures var first := DogIntersectsCat(true, e, other);
            first.1 ==> DogIntersectsCat(true, first.0, other) == (first.0, false)
  {
  }

  /** `tick_recovery`: advance the recovery timer; the tick that finishes it
      pauses it and stops the blinking. */
  function TickRecovery(e: DogEntity, dt: real): (r: DogEntity)
    requires dt >= 0.0
    ensures r == e.(dog := r.dog, blinkEnabled := r.blinkEnabled)
    ensures r.dog.speed == e.dog.speed && r.dog.recoveryTimer.duration == e.dog.recoveryTimer.duration
    ensures !IsRecovering(e.dog) ==> !IsRecovering(r.dog) && r.blinkEnabled == e.blinkEnabled
    ensures IsRecovering(e.dog) ==>
      (IsRecovering(r.dog) <==> e.dog.recoveryTimer.elapsed + dt < e.dog.recoveryTimer.duration)
    ensures IsRecovering(e.dog) && !IsRecovering(r.dog) ==> !r.blinkEnabled
    ensures IsRecovering(r.dog) ==>
      r.blinkEnabled == e.blinkEnabled && r.dog.recoveryTimer.elapsed == e.dog.recoveryTimer.elapsed + dt
  {
    var t := Tick(e.dog.recoveryTimer, dt);
    if t.justFinished then e.(dog := e.dog.(recoveryTimer := Pause(t)), blinkEnabled := false)
    else e.(dog := e.dog.(recoveryTimer := t))
  }

  /** The recovery timer over a run of frames. */
  function TickRecoveryAll(e: DogEntity, dts: seq<real>): DogEntity
    requires forall i :: 0 <= i < |dts| ==> dts[i] >= 0.0
    decreases |dts|
  {
    if |dts| == 0 then e else TickRecoveryAll(TickRecovery(e, dts[0]), dts[1..])
  }

  /** A dog that is not recovering stays so while time passes, and its blink
      setting is left alone. */
  lemma {:induction false} StaysRecovered(e: DogEntity, dts: seq<real>)
    requires forall i :: 0 <= i < |dts| ==> dts[i] >= 0.0
    requires !IsRecovering(e.dog)
    ensures !IsRecovering(TickRecoveryAll(e, dts).dog)
    ensures TickRecoveryAll(e, dts).blinkEnabled == e.blinkEnabled
    decreases |dts|
  {
    if |dts| > 0 {
      StaysRecovered(TickRecovery(e, dts[0]), dts[1..]);
    }
  }

  /** A recovering dog stays recovering exactly until its timer's remaining
      time has passed; once it is over, the blinking has stopped. */
  lemma {:induction false} RecoveryLastsItsDuration(e: DogEntity, dts: seq<real>)
    requires forall i :: 0 <= i < |dts| ==> dts[i] >= 0.0
    requires IsRecovering(e.dog)
    requires e.dog.recoveryTimer.elapsed < e.dog.recoveryTimer.duration
    ensures IsRecovering(TickRecoveryAll(e, dts).dog) <==>
      e.dog.recoveryTimer.elapsed + Sum(dts) < e.dog.recoveryTimer.duration
    ensures !IsRecovering(TickRecoveryAll(e, dts).dog) && |dts| > 0 ==>
      !TickRecoveryAll(e, dts).blinkEnabled
    decreases |dts|
  {
    if |dts| > 0 {
      var next := TickRecovery(e, dts[0]);
      assert forall i :: 0 <= i < |dts[1..]| ==> dts[1..][i] == dts[i + 1];
      SumNonNegative(dts[1..]);
      if IsRecovering(next.dog) {
        RecoveryLastsItsDuration(next, dts[1..]);
        if |dts[1..]| == 0 {
          assert TickRecoveryAll(e, dts) == next;
        }
      } else {
        StaysRecovered(next, dts[1..]);
      }
    }
  }

  /** A dog that is not recovering and is hit by a cannonballing cat is
      immune for exactly its recovery time (half a second for a spawned
      dog). */
  lemma ImmuneForRecoveryTime(e: DogEntity, dts: seq<real>)
    requires forall i :: 0 <= i < |dts| ==> dts[i] >= 0.0
    requires !IsRecovering(e.dog)
    requires e.dog.recoveryTimer.duration > 0.0
    ensures var hit := DogIntersectsCat(true, e, CatCollider(Cannonballing));
            hit.1 && (IsRecovering(TickRecoveryAll(hit.0, dts).dog) <==>
                      Sum(dts) < e.dog.recoveryTimer.duration)
  {
    var hit := DogIntersectsCat(true, e, CatCollider(Cannonballing));
    RecoveryLastsItsDuration(hit.0, dts);
  }

  /** `dog_animation`: standing still plays "idle_front", moving plays
      "run_front" and faces the way the dog runs horizontally. A tag that
      is already playing is left alone. */
  function DogAnimation(e: DogEntity): (r: DogEntity)
    ensures r == e.(animation := r.animation, flipX := r.flipX)
    ensures e.velocity == Zero ==> IsPlaying(r.animation, "idle_front")
    ensures e.velocity != Zero ==> IsPlaying(r.animation, "run_front")
    ensures e.animation.Playing? && r.animation.tag == e.animation.tag ==> r.animation == e.animation
    ensures !(e.animation.Playing? && r.animation.tag == e.animation.tag) ==> r.animation.frame == 0
    ensures e.velocity.x != 0.0 ==> (r.flipX <==> e.velocity.x > 0.0)
    ensures e.velocity.x == 0.0 ==> r.flipX == e.flipX
  {
    if e.velocity == Zero then
      if IsPlaying(e.animation, "idle_front") then e
      else e.(animation := Play("idle_front"))
    else
      var playing := if IsPlaying(e.animation, "run_front") then e else e.(animation := Play("run_front"));
      if e.velocity.x != 0.0 then playing.(flipX := e.velocity.x > 0.0) else playing
  }

  /** Running the animation rule twice is running it once. */
  lemma DogAnimationIdempotent(e: DogEntity)
    ensures DogAnimation(DogAnimation(e)) == DogAnimation(e)
  {
  }

  /** `dog_bark`: a woof plays when the query finds exactly one dog
      (`single`) and its input asks to bark. `dogs` are the inputs of the
      dog entities. */
  function DogBark(dogs: seq<PlayerInput>): bool {
    |dogs| == 1 && dogs[0].bark
  }

  /** The woof follows the frame's input: with one dog it plays exactly
      when the pad's South button is held or Space was just pressed, and
      with no dog or several it never plays. */
  lemma BarkFollowsInput(k: Keys, g: Gamepad, keyLen: real, dogs: seq<PlayerInput>)
    requires IsLength(KeyDirection(k), keyLen)
    ensures DogBark(ReadPlayerInput(k, g, keyLen, dogs)) <==>
      |dogs| == 1 && ((g.FirstGamepad? && g.southPressed) || k.spaceJustPressed)
    ensures |dogs| != 1 ==> !DogBark(ReadPlayerInput(k, g, keyLen, dogs))
  {
  }
}
