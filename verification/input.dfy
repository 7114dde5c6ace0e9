/** `src/input.rs`: one frame's keyboard and first-gamepad state turned into
    the movement direction and bark request every `PlayerInput` receives. */
module Input {
  import opened Vectors

  datatype PlayerInput = PlayerInput(movement: Vec2, bark: bool)

  const DefaultInput: PlayerInput := PlayerInput(Zero, false)

  /** A stick reading must be longer than this to count. */
  const DEADZONE: real := 0.1

  /** Held movement keys and whether Space was pressed this frame. */
  datatype Keys = Keys(
    d: bool, right: bool, a: bool, left: bool,
    w: bool, up: bool, s: bool, down: bool,
    spaceJustPressed: bool)

  /** The left stick's two axes, when the engine reports both. */
  datatype Stick = NoAxes | Axes(x: real, y: real)

  /** The first connected gamepad, if any. */
  datatype Gamepad = NoGamepad | FirstGamepad(stick: Stick, southPressed: bool)

  /** `(pos as i8 - neg as i8) as f32`. */
  function AxisValue(pos: bool, neg: bool): (r: real)
    ensures r == 1.0 <==> pos && !neg
    ensures r == -1.0 <==> !pos && neg
    ensures r == 0.0 <==> pos == neg
    ensures r > 0.0 <==> pos && !neg
    ensures r < 0.0 <==> !pos && neg
  {
    (if pos then 1.0 else 0.0) - (if neg then 1.0 else 0.0)
  }

  predicate RightHeld(k: Keys) { k.d || k.right }
  predicate LeftHeld(k: Keys) { k.a || k.left }
  predicate UpHeld(k: Keys) { k.w || k.up }
  predicate DownHeld(k: Keys) { k.s || k.down }

  /** The keyboard direction before normalisation: x is right - left, y is
      up - down. */
  function KeyDirection(k: Keys): Vec2 {
    Vec2(AxisValue(RightHeld(k), LeftHeld(k)), AxisValue(UpHeld(k), DownHeld(k)))
  }

  /** The stick reading past the dead zone. The source compares the stick's
      length with `DEADZONE`; `PastDeadzone` shows comparing the squares is
      the same test. */
  function StickMovement(g: Gamepad): (r: Vec2)
    ensures r != Zero <==>
      (g.FirstGamepad? && g.stick.Axes? && SqLen(Vec2(g.stick.x, g.stick.y)) > DEADZONE * DEADZONE)
    ensures r != Zero ==> r == Vec2(g.stick.x, g.stick.y)
  {
    if g.FirstGamepad? && g.stick.Axes? then
      var v := Vec2(g.stick.x, g.stick.y);
      if SqLen(v) > DEADZONE * DEADZONE then v else Zero
    else Zero
  }

  /** Comparing a length with the dead zone is comparing its square with the
      dead zone's square. */
  lemma PastDeadzone(v: Vec2, len: real)
    requires IsLength(v, len)
    ensures len > DEADZONE <==> SqLen(v) > DEADZONE * DEADZONE
  {
    assert SqLen(v) == len * len;
    if len > DEADZONE {
      MulMonotone(DEADZONE, len, len);
      MulMonotone(DEADZONE, DEADZONE, len);
    } else {
      MulMonotone(len, DEADZONE, len);
      MulMonotone(len, DEADZONE, DEADZONE);
    }
  }

  /** Multiplying by a non-negative factor keeps order. */
  lemma MulMonotone(a: real, b: real, c: real)
    requires a <= b && c >= 0.0
    ensures a * c <= b * c
    ensures a < b && c > 0.0 ==> a * c < b * c
  {
  }

  /** The keyboard direction is zero exactly when opposing keys cancel on
      both axes. */
  lemma KeysCancel(k: Keys)
    ensures KeyDirection(k) == Zero <==> RightHeld(k) == LeftHeld(k) && UpHeld(k) == DownHeld(k)
  {
    var v := KeyDirection(k);
    assert v.x == 0.0 <==> RightHeld(k) == LeftHeld(k);
    assert v.y == 0.0 <==> UpHeld(k) == DownHeld(k);
  }

  /** The keyboard's movement: nothing when opposing keys cancel on both
      axes, otherwise the unit vector along the held keys. `keyLen` is the
      length of the keyboard direction. */
  function KeyboardMovement(k: Keys, keyLen: real): (r: Vec2)
    requires IsLength(KeyDirection(k), keyLen)
    ensures r == Zero <==> RightHeld(k) == LeftHeld(k) && UpHeld(k) == DownHeld(k)
    ensures r != Zero ==> SqLen(r) == 1.0
  {
    KeysCancel(k);
    NormalizeOrZero(KeyDirection(k), keyLen)
  }

  /** The frame's input: the stick when it is past the dead zone, otherwise
      the keyboard; a bark from the pad's South button or from Space. */
  function ReadInput(k: Keys, g: Gamepad, keyLen: real): (r: PlayerInput)
    requires IsLength(KeyDirection(k), keyLen)
    ensures StickMovement(g) != Zero ==> r.movement == StickMovement(g)
    ensures StickMovement(g) == Zero ==> r.movement == KeyboardMovement(k, keyLen)
    ensures r.bark <==> (g.FirstGamepad? && g.southPressed) || k.spaceJustPressed
  {
    var stick := StickMovement(g);
    var movement := if stick == Zero then KeyboardMovement(k, keyLen) else stick;
    var bark := (g.FirstGamepad? && g.southPressed) || k.spaceJustPressed;
    PlayerInput(movement, bark)
  }

  /** Keyboard movement points the way the held keys say: each component's
      sign is the sign of its axis. */
  lemma KeyboardKeepsSigns(k: Keys, keyLen: real)
    requires IsLength(KeyDirection(k), keyLen)
    ensures KeyboardMovement(k, keyLen).x > 0.0 <==> RightHeld(k) && !LeftHeld(k)
    ensures KeyboardMovement(k, keyLen).x < 0.0 <==> !RightHeld(k) && LeftHeld(k)
    ensures KeyboardMovement(k, keyLen).y > 0.0 <==> UpHeld(k) && !DownHeld(k)
    ensures KeyboardMovement(k, keyLen).y < 0.0 <==> !UpHeld(k) && DownHeld(k)
  {
    var v := KeyDirection(k);
    var m := KeyboardMovement(k, keyLen);
    if v == Zero {
      assert m == Zero;
    } else {
      assert m == Normalize(v, keyLen);
      SignOfQuotient(m.x, keyLen, v.x);
      SignOfQuotient(m.y, keyLen, v.y);
    }
  }

  /** `read_player_input`: nothing happens without a `PlayerInput`, and
      otherwise every one receives the same movement and bark. */
  function ReadPlayerInput(k: Keys, g: Gamepad, keyLen: real, players: seq<PlayerInput>): (r: seq<PlayerInput>)
    requires IsLength(KeyDirection(k), keyLen)
    ensures |r| == |players|
    ensures forall i :: 0 <= i < |r| ==> r[i] == ReadInput(k, g, keyLen)
  {
    if |players| == 0 then players
    else seq(|players|, _ => ReadInput(k, g, keyLen))
  }
}
