/** `src/world.rs`: the older game's world and its frame update. The player
    walks the dog with the arrow keys; every cat then takes its step; the
    level is won once every cat sits in the pen at the same time.

    The level module (`Level`, `MAX_LEVEL`, `Level::new`, `next_level`,
    `generate_cats`) is not part of this model: what those calls produce is
    passed in as a `LevelSource`. */
module World {
  import opened Vectors
  import opened Entities

  const MOVE_SPEED: real := 150.0

  datatype GameState = StartMenu | HowToPlay | Running | Won | GameOver

  /** A level: its number, how many cats it has, its pen and its bounds. */
  datatype Level = Level(levelNum: nat, numCats: nat, catBox: CatBox, bounds: Bounds)

  /** What the level module provides: the last level's number, the first
      level, the level after the current one, and freshly generated cats. */
  datatype LevelSource = LevelSource(maxLevel: nat, first: Level, advanced: Level, freshCats: seq<Cat>)

  /** Keys pressed this frame (`Return`, `R`, `Tab`, `N`) and movement keys
      held. */
  datatype Keys = Keys(
    returnPressed: bool, rPressed: bool, tabPressed: bool, nPressed: bool,
    leftHeld: bool, rightHeld: bool, upHeld: bool, downHeld: bool)

  const NoKeys: Keys := Keys(false, false, false, false, false, false, false, false)

  /** The world; the party and the sounds are left out. `catsScored` is
      the number of cats found in the pen on the last frame. */
  datatype GameWorld = GameWorld(gameState: GameState, level: Level, dog: Dog, cats: seq<Cat>, catsScored: nat)

  // ------------------------------------------------------ state changes

  /** `restart`: the dog goes back to the pen, the cats are generated
      afresh, and play resumes. */
  function Restart(w: GameWorld, newCats: seq<Cat>): (r: GameWorld)
    ensures r.gameState == Running
    ensures r.dog == w.dog.(pos := w.level.catBox.pos)
    ensures r.cats == newCats
    ensures r.level == w.level && r.catsScored == w.catsScored
  {
    w.(dog := w.dog.(pos := w.level.catBox.pos), cats := newCats, gameState := Running)
  }

  /** `next_level`: past the last level the game is over and nothing else
      changes; otherwise the next level starts afresh. */
  function NextLevel(w: GameWorld, src: LevelSource): (r: GameWorld)
    ensures w.level.levelNum >= src.maxLevel ==> r == w.(gameState := GameOver)
    ensures w.level.levelNum < src.maxLevel ==>
      r.gameState == Running && r.level == src.advanced &&
      r.dog == w.dog.(pos := src.advanced.catBox.pos) && r.cats == src.freshCats
  {
    if w.level.levelNum >= src.maxLevel then w.(gameState := GameOver)
    else Restart(w.(level := src.advanced), src.freshCats)
  }

  /** `update_start_menu`: Return goes on to the instructions. */
  function UpdateStartMenu(w: GameWorld, k: Keys): (r: GameWorld)
    ensures k.returnPressed ==> r == w.(gameState := HowToPlay)
    ensures !k.returnPressed ==> r == w
  {
    if k.returnPressed then w.(gameState := HowToPlay) else w
  }

  /** `update_how_to_play`: Return starts play. */
  function UpdateHowToPlay(w: GameWorld, k: Keys): (r: GameWorld)
    ensures k.returnPressed ==> r == w.(gameState := Running)
    ensures !k.returnPressed ==> r == w
  {
    if k.returnPressed then w.(gameState := Running) else w
  }

  /** `update_game_over`: R starts again from the first level. */
  function UpdateGameOver(w: GameWorld, k: Keys, src: LevelSource): (r: GameWorld)
    ensures k.rPressed ==>
      r.gameState == Running && r.level == src.first &&
      r.dog == w.dog.(pos := src.first.catBox.pos) && r.cats == src.freshCats
    ensures !k.rPressed ==> r == w
  {
    if k.rPressed then Restart(w.(level := src.first), src.freshCats) else w
  }

  // ------------------------------------------------------ the dog's move

  /** One direction axis: -1 when only the negative key is held, +1 when
      only the positive one is, 0 when both or neither are. */
  function KeyAxis(neg: bool, pos: bool): (r: real)
    ensures r == -1.0 <==> neg && !pos
    ensures r == 1.0 <==> pos && !neg
    ensures r == 0.0 <==> neg == pos
  {
    (if neg && !pos then -1.0 else 0.0) + (if pos && !neg then 1.0 else 0.0)
  }

  /** The held direction, screen style: up is negative y. */
  function HeldDirection(k: Keys): Vec2 {
    Vec2(KeyAxis(k.leftHeld, k.rightHeld), KeyAxis(k.upHeld, k.downHeld))
  }

  /** The way the dog heads: the held direction normalised, or zero. Each
      component has the sign the held keys give it. */
  function Heading(k: Keys, dirLen: real): (dir: Vec2)
    requires IsLength(HeldDirection(k), dirLen)
    ensures dir == Zero <==> HeldDirection(k) == Zero
    ensures dir.x > 0.0 <==> k.rightHeld && !k.leftHeld
    ensures dir.x < 0.0 <==> k.leftHeld && !k.rightHeld
    ensures dir.y > 0.0 <==> k.downHeld && !k.upHeld
    ensures dir.y < 0.0 <==> k.upHeld && !k.downHeld
  {
    var h := HeldDirection(k);
    var dir := NormalizeOrZero(h, dirLen);
    NormalizeKeepsSigns(h, dirLen);
    HeldSigns(k);
    dir
  }

  /** Each held axis has the sign its keys give it. */
  lemma HeldSigns(k: Keys)
    ensures HeldDirection(k).x > 0.0 <==> k.rightHeld && !k.leftHeld
    ensures HeldDirection(k).x < 0.0 <==> k.leftHeld && !k.rightHeld
    ensures HeldDirection(k).y > 0.0 <==> k.downHeld && !k.upHeld
    ensures HeldDirection(k).y < 0.0 <==> k.upHeld && !k.downHeld
  {
  }

  /** Any direction held makes the dog head one unit of length that way.
      (Kept out of `Heading`'s contract: the squares weigh on every proof
      that mentions the dog's move.) */
  lemma HeadingIsUnit(k: Keys, dirLen: real)
    requires IsLength(HeldDirection(k), dirLen)
    requires HeldDirection(k) != Zero
    ensures SqLen(Heading(k, dirLen)) == 1.0
  {
  }

  /** Whenever a direction is held the dog runs at exactly `MOVE_SPEED`. */
  lemma DogRunsAtMoveSpeed(w: GameWorld, k: Keys, dt: real, dirLen: real)
    requires IsLength(HeldDirection(k), dirLen)
    requires HeldDirection(k) != Zero
    ensures SqLen(MoveDog(w, k, dt, dirLen).vel) == MOVE_SPEED * MOVE_SPEED
  {
    HeadingIsUnit(k, dirLen);
    ScaledSqLen(Heading(k, dirLen), MOVE_SPEED);
  }

  /** Scaling a vector scales its squared length by the square. */
  lemma ScaledSqLen(v: Vec2, k: real)
    ensures SqLen(Scale(v, k)) == SqLen(v) * (k * k)
  {
    assert (v.x * k) * (v.x * k) == (v.x * v.x) * (k * k);
    assert (v.y * k) * (v.y * k) == (v.y * v.y) * (k * k);
  }

  /** The dog's part of a running frame: head along the held direction at
      `MOVE_SPEED`, face the way it heads horizontally, move (clamped to the
      level), then take the blink update. */
  function MoveDog(w: GameWorld, k: Keys, dt: real, dirLen: real): (r: Dog)
    requires IsLength(HeldDirection(k), dirLen)
    ensures HeldDirection(k).x == 0.0 ==> r.facing == w.dog.facing
    ensures HeldDirection(k).x != 0.0 ==> (r.facing == Right <==> k.rightHeld && !k.leftHeld)
    ensures r.vel == Scale(Heading(k, dirLen), MOVE_SPEED)
    ensures r.vel == Zero <==> HeldDirection(k) == Zero
    ensures r.pos == ClampMove(w.dog.pos, w.dog.size, w.level.bounds, Scale(r.vel, dt))
    ensures r.(facing := w.dog.facing, vel := w.dog.vel, pos := w.dog.pos) == UpdateDog(w.dog, dt)
  {
    var dir := Heading(k, dirLen);
    var vel := Scale(dir, MOVE_SPEED);
    var moved := w.dog.(facing := FaceAlong(w.dog.facing, dir.x), vel := vel,
                        pos := ClampMove(w.dog.pos, w.dog.size, w.level.bounds, Scale(vel, dt)));
    UpdateDog(moved, dt)
  }

  // ------------------------------------------------------ the cats' moves

  /** Everything a cat's frame needs that the source computes with square
      roots or draws at random: the distance to the dog, the random-walk
      turn and vector with the steering length, the jitter shake and the
      distance from the shaken cat to the dog. */
  datatype CatSample = CatSample(
    dist: real, dTheta: real, circle: Vec2, steerLen: real, offset: Vec2, aimLen: real)

  /** The draws fit the cat once its state is decided (`c1`): they are in
      their ranges, lengths are lengths, and a cat about to launch does not
      aim at the zero vector. */
  predicate DrawsFit(c1: Cat, dogPos: Vec2, dt: real, s: CatSample) {
    && -RW_THETA_STEP <= s.dTheta < RW_THETA_STEP
    && SqLen(s.circle) == c1.rwRadius * c1.rwRadius
    && IsLength(Add(c1.velocity, s.circle), s.steerLen)
    && -JITTER_AMOUNT <= s.offset.x < JITTER_AMOUNT
    && -JITTER_AMOUNT <= s.offset.y < JITTER_AMOUNT
    && IsLength(Sub(dogPos, Add(c1.jitterOrigin, s.offset)), s.aimLen)
    && (c1.state == Jittering && c1.targetingTime - dt <= 0.0 ==> s.aimLen > 0.0)
  }

  /** The sample is right for this cat and dog: `dist` is their distance,
      the draws fit, and a fleeing cat is not standing on the dog (the
      normalisation of the zero vector is undefined). */
  predicate SampleFits(c: Cat, d: Dog, b: CatBox, dt: real, s: CatSample) {
    && IsLength(Sub(c.pos, d.pos), s.dist)
    && DrawsFit(UpdateState(c, d, b, s.dist), d.pos, dt, s)
    && (UpdateState(c, d, b, s.dist).state == Flee ==> s.dist > 0.0)
  }

  /** Only the fleeing rule looks at the dog: against a hit dog the cat
      decides the same, except that it does not flee. */
  lemma HitDogDecision(c: Cat, d: Dog, b: CatBox, dist: real)
    requires IsLength(Sub(c.pos, d.pos), dist)
    ensures IsLength(Sub(c.pos, Hit(d).pos), dist)
    ensures var c1, c2 := UpdateState(c, d, b, dist), UpdateState(c, Hit(d), b, dist);
            && c2 == c1.(state := c2.state)
            && c2.state != Flee
            && (c2.state != c1.state ==> c1.state == Flee && c2.state == Idle)
  {
    BlinkingDogIsHarmless(c, Hit(d), b, dist);
  }

  /** A hit does not spoil a sample. */
  lemma FitsAfterHit(c: Cat, d: Dog, b: CatBox, dt: real, s: CatSample)
    requires SampleFits(c, d, b, dt, s)
    ensures SampleFits(c, Hit(d), b, dt, s)
  {
    var c1, c2 := UpdateState(c, d, b, s.dist), UpdateState(c, Hit(d), b, s.dist);
    HitDogDecision(c, d, b, s.dist);
    assert c2.velocity == c1.velocity && c2.rwRadius == c1.rwRadius;
    assert c2.jitterOrigin == c1.jitterOrigin && c2.targetingTime == c1.targetingTime;
    assert c2.state == Jittering ==> c1.state == Jittering;
    assert DrawsFit(c2, Hit(d).pos, dt, s);
  }

  /** The cat ends up in the pen this frame: it is not cannonballing or
      about to launch, it is calm, and it stands in the pen. The dog plays
      no part. */
  predicate Penned(c: Cat, b: CatBox) {
    && c.state != Cannonballing
    && !(c.state == Jittering && c.targetingTime <= 0.0)
    && c.annoyanceTotal < ANNOYANCE_THRESHOLD
    && InBounds(b, c.pos)
  }

  /** `update_state` chooses `InPen` exactly for the penned cats. */
  lemma PennedDecision(c: Cat, d: Dog, b: CatBox, dist: real)
    requires IsLength(Sub(c.pos, d.pos), dist)
    ensures UpdateState(c, d, b, dist).state == InPen <==> Penned(c, b)
  {
  }

  /** The dog after the cats' frames: as it was, or hit by a cannonball
      while chasing. */
  predicate MovedOrHit(d: Dog, after: Dog) {
    after == d || (d.dogState == Chasing && after == Hit(d))
  }

  /** A cat that decides to flee has not moved yet, so the distance to the
      dog is still its distance. */
  lemma FleeingCatInPlace(c: Cat, d: Dog, b: CatBox, dist: real)
    requires IsLength(Sub(c.pos, d.pos), dist)
    ensures UpdateState(c, d, b, dist).state == Flee ==> UpdateState(c, d, b, dist).pos == c.pos
  {
  }

  /** The step a cat takes in the state it has decided on (`c1`), with the
      draws that fit that state. */
  function Act(c1: Cat, d: Dog, bounds: Bounds, dt: real, s: CatSample): (r: (Cat, Dog))
    requires DrawsFit(c1, d.pos, dt, s)
    requires c1.state == Flee ==> IsLength(Sub(c1.pos, d.pos), s.dist) && s.dist > 0.0
    ensures r.0.state == c1.state
    ensures MovedOrHit(d, r.1)
    ensures c1.state != Cannonballing ==> r.1 == d
  {
    if c1.state == Idle || c1.state == Flee then (Roam(c1, d, bounds, dt, s), d)
    else Stay(c1, d, bounds, dt, s)
  }

  /** The steps that move a cat freely: the random walk and the flight. */
  function Roam(c1: Cat, d: Dog, bounds: Bounds, dt: real, s: CatSample): (r: Cat)
    requires c1.state == Idle || c1.state == Flee
    requires DrawsFit(c1, d.pos, dt, s)
    requires c1.state == Flee ==> IsLength(Sub(c1.pos, d.pos), s.dist) && s.dist > 0.0
    ensures r.state == c1.state
  {
    if c1.state == Idle then IdleStep(c1, bounds, dt, s.dTheta, s.circle, s.steerLen)
    else FleeStep(c1, bounds, Sub(c1.pos, d.pos), s.dist, dt)
  }

  /** The other steps: resting in the pen, shaking, and the cannonball. */
  function Stay(c1: Cat, d: Dog, bounds: Bounds, dt: real, s: CatSample): (r: (Cat, Dog))
    requires c1.state != Idle && c1.state != Flee
    requires DrawsFit(c1, d.pos, dt, s)
    ensures r.0.state == c1.state
    ensures MovedOrHit(d, r.1)
    ensures c1.state != Cannonballing ==> r.1 == d
  {
    if c1.state == InPen then (InPenStep(c1, dt), d)
    else if c1.state == Jittering then (JitterStep(c1, dt, d.pos, s.offset, s.aimLen), d)
    else CannonballStep(c1, bounds, dt, d)
  }

  /** One cat's frame in `update_running`: decide the state, act on it, and
      face the way the cat now moves horizontally. Only a cannonball can
      change the dog, by hitting it. */
  function CatStep(c: Cat, d: Dog, b: CatBox, bounds: Bounds, dt: real, s: CatSample): (r: (Cat, Dog))
    requires SampleFits(c, d, b, dt, s)
    ensures r.0.state == UpdateState(c, d, b, s.dist).state
    ensures MovedOrHit(d, r.1)
    ensures UpdateState(c, d, b, s.dist).state != Cannonballing ==> r.1 == d
    ensures r.0.velocity.x != 0.0 ==> (r.0.facing == Right <==> r.0.velocity.x > 0.0)
  {
    var c1 := UpdateState(c, d, b, s.dist);
    FleeingCatInPlace(c, d, b, s.dist);
    var stepped := Act(c1, d, bounds, dt, s);
    var c2 := stepped.0;
    (c2.(facing := FaceAlong(c2.facing, c2.velocity.x)), stepped.1)
  }

  /** One cat after its frame for each cat before, in the pen exactly
      when it was penned. */
  predicate PennedExactly(before: seq<Cat>, after: seq<Cat>, b: CatBox) {
    && |after| == |before|
    && forall i :: 0 <= i < |before| ==> (after[i].state == InPen <==> Penned(before[i], b))
  }

  predicate SamplesFit(cats: seq<Cat>, d: Dog, b: CatBox, dt: real, samples: seq<CatSample>) {
    |samples| == |cats| && forall i :: 0 <= i < |cats| ==> SampleFits(cats[i], d, b, dt, samples[i])
  }

  /** Each cat of `after` is the cat of `before` after its own step
      against the dog `d`. */
  predicate StepsAgainst(before: seq<Cat>, after: seq<Cat>, d: Dog, b: CatBox, bounds: Bounds, dt: real,
                         samples: seq<CatSample>)
    requires SamplesFit(before, d, b, dt, samples)
  {
    |after| == |before| && forall i :: 0 <= i < |before| ==> after[i] == CatStep(before[i], d, b, bounds, dt, samples[i]).0
  }

  /** The number of cats in the pen. */
  function CountInPen(cats: seq<Cat>): (n: nat)
    ensures n <= |cats|
    decreases |cats|
  {
    if |cats| == 0 then 0 else (if cats[0].state == InPen then 1 else 0) + CountInPen(cats[1..])
  }

  /** All the cats' frames, in order, the dog passed from one to the next;
      the count is the number of cats that came out in the pen, and those
      are exactly the penned cats. */
  function CatsTick(cats: seq<Cat>, d: Dog, b: CatBox, bounds: Bounds, dt: real, samples: seq<CatSample>)
    : (r: (seq<Cat>, Dog, nat))
    requires SamplesFit(cats, d, b, dt, samples)
    ensures PennedExactly(cats, r.0, b)
    ensures r.2 == CountInPen(r.0)
    ensures MovedOrHit(d, r.1)
    // With no cannonball hit, every cat stepped against the same dog.
    ensures r.1 == d ==> StepsAgainst(cats, r.0, d, b, bounds, dt, samples)
    decreases |cats|
  {
    if |cats| == 0 then ([], d, 0)
    else
      var first := CatStep(cats[0], d, b, bounds, dt, samples[0]);
      PennedDecision(cats[0], d, b, samples[0].dist);
      assert SamplesFit(cats[1..], first.1, b, dt, samples[1..]) by {
        if first.1 != d {
          forall i | 0 <= i < |cats[1..]|
            ensures SampleFits(cats[1..][i], first.1, b, dt, samples[1..][i])
          {
            FitsAfterHit(cats[1..][i], d, b, dt, samples[1..][i]);
          }
        }
      }
      var rest := CatsTick(cats[1..], first.1, b, bounds, dt, samples[1..]);
      var all := [first.0] + rest.0;
      assert all[1..] == rest.0;
      (all, rest.1, (if first.0.state == InPen then 1 else 0) + rest.2)
  }

  // ------------------------------------------------------ the frame

  /** What a running frame needs: the length of the held direction and,
      unless R or Tab ends the frame early, a fitting sample per cat. */
  predicate RunFits(w: GameWorld, k: Keys, dt: real, dirLen: real, samples: seq<CatSample>) {
    && IsLength(HeldDirection(k), dirLen)
    && (SamplesFit(w.cats, MoveDog(w, k, dt, dirLen), w.level.catBox, dt, samples) || k.rPressed || k.tabPressed)
  }

  /** The screens of a level in progress or just finished, as against the
      menus. */
  predicate InPlay(s: GameState) {
    s == Running || s == Won || s == GameOver
  }

  /** The screens one frame can lead to: the menus lead forward one screen
      at a time into play, and play never leads back to them. The game-over
      screen only restarts play. */
  predicate Allowed(from: GameState, to: GameState) {
    match from
    case StartMenu => to == StartMenu || to == HowToPlay
    case HowToPlay => to == HowToPlay || to == Running
    case Running => InPlay(to)
    case Won => InPlay(to)
    case GameOver => to == GameOver || to == Running
  }

  /** A sequence of screens, each reachable from the one before in a
      frame. */
  predicate IsRun(states: seq<GameState>) {
    forall i :: 0 < i < |states| ==> Allowed(states[i - 1], states[i])
  }

  /** Once a level is being played, every later frame is still in play:
      the menus are never shown again. */
  lemma {:induction false} PlayNeverReturnsToMenus(states: seq<GameState>)
    requires IsRun(states) && |states| > 0 && InPlay(states[0])
    ensures forall i :: 0 <= i < |states| ==> InPlay(states[i])
    decreases |states|
  {
    if |states| > 1 {
      var front := states[..|states| - 1];
      assert IsRun(front) by {
        forall i | 0 < i < |front| ensures Allowed(front[i - 1], front[i]) {
          assert front[i - 1] == states[i - 1] && front[i] == states[i];
        }
      }
      PlayNeverReturnsToMenus(front);
      assert InPlay(front[|front| - 1]);
      assert Allowed(states[|states| - 2], states[|states| - 1]);
      assert forall i :: 0 <= i < |front| ==> front[i] == states[i];
    }
  }

  /** Play starts only through the instructions: a run from the start menu
      that reaches play shows the how-to-play screen on the way. */
  lemma {:induction false} PlayOnlyAfterInstructions(states: seq<GameState>)
    requires IsRun(states) && |states| > 0 && states[0] == StartMenu
    requires InPlay(states[|states| - 1])
    ensures exists i :: 0 < i < |states| && states[i] == HowToPlay
    decreases |states|
  {
    var n := |states|;
    assert n > 1;
    assert Allowed(states[n - 2], states[n - 1]);
    if states[n - 2] == HowToPlay {
      assert 0 < n - 2;
    } else {
      var front := states[..n - 1];
      assert IsRun(front) by {
        forall i | 0 < i < |front| ensures Allowed(front[i - 1], front[i]) {
          assert front[i - 1] == states[i - 1] && front[i] == states[i];
        }
      }
      PlayOnlyAfterInstructions(front);
      var i :| 0 < i < |front| && front[i] == HowToPlay;
      assert states[i] == HowToPlay;
    }
  }

  /** The body of `update_running` past its key checks: the dog moves,
      the cats take their steps in order (a cannonball may hit the dog),
      the penned cats are counted, and the level is won once that count
      reaches the level's number of cats. A won level stays won. */
  method PlayFrame(w: GameWorld, k: Keys, dt: real, dirLen: real, samples: seq<CatSample>) returns (r: GameWorld)
    requires IsLength(HeldDirection(k), dirLen)
    requires SamplesFit(w.cats, MoveDog(w, k, dt, dirLen), w.level.catBox, dt, samples)
    ensures r.level == w.level
    ensures PennedExactly(w.cats, r.cats, w.level.catBox)
    ensures r.catsScored == CountInPen(r.cats)
    ensures w.gameState == Won ==> r.gameState == Won
    ensures w.gameState != Won ==> (r.gameState == Won <==> r.catsScored == w.level.numCats)
    ensures r.gameState != Won ==> r.gameState == w.gameState
    ensures MovedOrHit(MoveDog(w, k, dt, dirLen), r.dog)
  {
    var dog := MoveDog(w, k, dt, dirLen);
    var tick := CatsTick(w.cats, dog, w.level.catBox, w.level.bounds, dt, samples);
    r := w.(dog := tick.1, cats := tick.0, catsScored := tick.2);
    if w.gameState != Won && tick.2 == w.level.numCats {
      r := r.(gameState := Won);
    }
  }

  /** `update_running`: R restarts and Tab skips to the next level, each
      ending the frame; otherwise the frame is played, and then every cat
      needs a fitting sample against the moved dog. */
  method UpdateRunning(w: GameWorld, k: Keys, dt: real, src: LevelSource, dirLen: real, samples: seq<CatSample>) returns (r: GameWorld)
    requires IsLength(HeldDirection(k), dirLen)
    requires SamplesFit(w.cats, MoveDog(w, k, dt, dirLen), w.level.catBox, dt, samples) || k.rPressed || k.tabPressed
    ensures k.rPressed ==> r == Restart(w, src.freshCats)
    ensures !k.rPressed && k.tabPressed ==> r == NextLevel(w, src)
    ensures !k.rPressed && !k.tabPressed ==>
      && r.level == w.level
      && PennedExactly(w.cats, r.cats, w.level.catBox)
      && r.catsScored == CountInPen(r.cats)
      && (w.gameState == Won ==> r.gameState == Won)
      && (w.gameState != Won ==> (r.gameState == Won <==> r.catsScored == w.level.numCats))
      && (r.gameState != Won ==> r.gameState == w.gameState)
      && MovedOrHit(MoveDog(w, k, dt, dirLen), r.dog)
  {
    if k.rPressed {
      return Restart(w, src.freshCats);
    }
    if k.tabPressed {
      return NextLevel(w, src);
    }
    r := PlayFrame(w, k, dt, dirLen, samples);
  }

  /** The world after the won screen's N key: the next level, or the
      same world when N is not pressed. */
  function PressN(w: GameWorld, k: Keys, src: LevelSource): (r: GameWorld)
    ensures !k.nPressed ==> r == w
    ensures k.nPressed && w.level.levelNum >= src.maxLevel ==> r == w.(gameState := GameOver)
    ensures k.nPressed && w.level.levelNum < src.maxLevel ==>
      r.gameState == Running && r.level == src.advanced && r.cats == src.freshCats
  {
    if k.nPressed then NextLevel(w, src) else w
  }

  /** N on the last level: `next_level` ends the game. */
  predicate EndsTheGame(w: GameWorld, k: Keys, src: LevelSource) {
    k.nPressed && w.level.levelNum >= src.maxLevel
  }

  /** Every cat of the level is in the pen and stays there this frame. */
  predicate AllPenned(w: GameWorld) {
    && |w.cats| == w.level.numCats
    && forall i :: 0 <= i < |w.cats| ==> Penned(w.cats[i], w.level.catBox)
  }

  /** The count equals the number of cats exactly when every cat is in
      the pen. */
  lemma {:induction false} CountAllPenned(cats: seq<Cat>)
    ensures CountInPen(cats) == |cats| <==> forall i :: 0 <= i < |cats| ==> cats[i].state == InPen
    decreases |cats|
  {
    if |cats| > 0 {
      CountAllPenned(cats[1..]);
      assert forall i :: 1 <= i < |cats| ==> cats[i] == cats[1..][i - 1];
    }
  }

  /** `update_won` as written: N asks for the next level, and then the
      running update is applied in the same frame whatever `next_level`
      did. On the last level the game-over state survives the frame only
      if some cat has left the pen; with every cat penned the game is won
      again, and the game-over screen is never reached. */
  method UpdateWonAsWritten(w: GameWorld, k: Keys, dt: real, src: LevelSource, dirLen: real, samples: seq<CatSample>) returns (r: GameWorld)
    requires IsLength(HeldDirection(k), dirLen)
    requires SamplesFit(PressN(w, k, src).cats, MoveDog(PressN(w, k, src), k, dt, dirLen), PressN(w, k, src).level.catBox, dt, samples) || k.rPressed || k.tabPressed
    ensures InPlay(w.gameState) ==> InPlay(r.gameState)
    ensures k.rPressed ==> r.gameState == Running
    ensures k.nPressed && w.level.levelNum < src.maxLevel && !k.rPressed && !k.tabPressed ==>
      r.level == src.advanced && |r.cats| == |src.freshCats| && (r.gameState == Running || r.gameState == Won)
    ensures w.gameState == Won && !k.nPressed && !k.rPressed && !k.tabPressed ==>
      r.gameState == Won && r.level == w.level && |r.cats| == |w.cats|
    ensures EndsTheGame(w, k, src) && !k.rPressed && !k.tabPressed ==>
      && r.level == w.level
      && (r.gameState == GameOver <==> r.catsScored != w.level.numCats)
      && (r.gameState != GameOver ==> r.gameState == Won)
    ensures EndsTheGame(w, k, src) && !k.rPressed && !k.tabPressed && AllPenned(w) ==>
      r.gameState == Won
  {
    r := UpdateRunning(PressN(w, k, src), k, dt, src, dirLen, samples);
    if EndsTheGame(w, k, src) && !k.rPressed && !k.tabPressed && AllPenned(w) {
      CountAllPenned(r.cats);
    }
  }

  /** `update_won` as evidently intended: when N ends the game on the last
      level, the game-over screen is shown instead of playing on. Otherwise
      the frame runs as in play, on the next level if N was pressed. */
  method UpdateWon(w: GameWorld, k: Keys, dt: real, src: LevelSource, dirLen: real, samples: seq<CatSample>) returns (r: GameWorld)
    requires IsLength(HeldDirection(k), dirLen)
    requires SamplesFit(PressN(w, k, src).cats, MoveDog(PressN(w, k, src), k, dt, dirLen), PressN(w, k, src).level.catBox, dt, samples) || k.rPressed || k.tabPressed || EndsTheGame(w, k, src)
    ensures InPlay(w.gameState) ==> InPlay(r.gameState)
    ensures EndsTheGame(w, k, src) ==> r == w.(gameState := GameOver)
    ensures k.nPressed && w.level.levelNum < src.maxLevel && !k.rPressed && !k.tabPressed ==>
      r.level == src.advanced && |r.cats| == |src.freshCats| && (r.gameState == Running || r.gameState == Won)
    ensures w.gameState == Won && !k.nPressed && !k.rPressed && !k.tabPressed ==>
      r.gameState == Won && r.level == w.level && |r.cats| == |w.cats|
    ensures w.gameState == Won && k.rPressed && !EndsTheGame(w, k, src) ==>
      r.gameState == Running
  {
    if EndsTheGame(w, k, src) {
      return w.(gameState := GameOver);
    }
    r := UpdateWonAsWritten(w, k, dt, src, dirLen, samples);
  }

  // ------------------------------------------------------ the finding

  const StuckBox: CatBox := CatBox(Vec2(100.0, 100.0), Vec2(60.0, 60.0))
  /** A calm cat in the middle of the pen. */
  const StuckCat: Cat := NewBasicCat(Vec2(100.0, 100.0), Zero).(state := InPen)
  /** A dog at rest below the pen. */
  const StuckDog: Dog := Dog(Vec2(100.0, 200.0), Zero, Vec2(30.0, 30.0), Left, Chasing, 0.0, 0)

  /** A won world on the last level with its one cat in the pen. */
  function StuckWorld(): GameWorld {
    GameWorld(Won, Level(3, 1, StuckBox, Bounds(400, 300)), StuckDog, [StuckCat], 1)
  }

  function StuckSource(): LevelSource {
    LevelSource(3, StuckWorld().level, StuckWorld().level, [])
  }

  const StuckKeys: Keys := NoKeys.(nPressed := true)

  /** An ordinary frame at sixty frames a second. */
  const StuckDt: real := 1.0 / 60.0

  const StuckSample: CatSample :=
    CatSample(100.0, 0.0, Vec2(9.0, 0.0), 9.0, Zero, 100.0)

  /** The dog's box fits the level at its position on both axes. */
  predicate DogInside(w: GameWorld) {
    && w.dog.size.x * 0.5 <= w.dog.pos.x <= w.level.bounds.w as real - w.dog.size.x * 0.5
    && w.dog.size.y * 0.5 <= w.dog.pos.y <= w.level.bounds.h as real - w.dog.size.y * 0.5
  }

  /** A dog that fits where it is stays put when nothing moves it. */
  lemma ClampStill(w: GameWorld)
    requires DogInside(w)
    ensures ClampMove(w.dog.pos, w.dog.size, w.level.bounds, Zero) == w.dog.pos
  {
  }

  /** With no direction held the dog does not move or turn. */
  lemma NoKeysNoStep(w: GameWorld, k: Keys, dt: real)
    requires HeldDirection(k) == Zero
    ensures MoveDog(w, k, dt, 0.0).vel == Zero
    ensures MoveDog(w, k, dt, 0.0).facing == w.dog.facing
    ensures MoveDog(w, k, dt, 0.0).pos == ClampMove(w.dog.pos, w.dog.size, w.level.bounds, Zero)
  {
    assert Scale(Zero, dt) == Zero;
  }

  /** With no direction held, a chasing dog at rest inside the level stays
      exactly as it is. */
  lemma NoKeysNoMove(w: GameWorld, k: Keys, dt: real)
    requires HeldDirection(k) == Zero
    requires w.dog.vel == Zero && w.dog.dogState == Chasing && DogInside(w)
    ensures MoveDog(w, k, dt, 0.0) == w.dog
  {
    NoKeysNoStep(w, k, dt);
    ClampStill(w);
  }

  /** In the stuck world the dog stands still. */
  lemma StuckDogStill()
    ensures MoveDog(PressN(StuckWorld(), StuckKeys, StuckSource()), StuckKeys, StuckDt, 0.0) == StuckWorld().dog
  {
    var over := PressN(StuckWorld(), StuckKeys, StuckSource());
    assert over.dog == StuckWorld().dog && over.level == StuckWorld().level;
    assert HeldDirection(StuckKeys) == Zero;
    NoKeysNoMove(over, StuckKeys, StuckDt);
  }

  /** The lengths the stuck sample claims are the lengths. */
  lemma StuckLengths()
    ensures IsLength(Vec2(0.0, -100.0), 100.0)
    ensures IsLength(Vec2(0.0, 100.0), 100.0)
    ensures IsLength(Vec2(9.0, 0.0), 9.0)
  {
  }

  /** A cat already in the pen and still penned is left as it is by
      `update_state`, so draws that fit it fit its frame. */
  lemma PennedCatFits(c: Cat, d: Dog, b: CatBox, dt: real, s: CatSample)
    requires IsLength(Sub(c.pos, d.pos), s.dist)
    requires c.state == InPen && Penned(c, b)
    requires DrawsFit(c, d.pos, dt, s)
    ensures UpdateState(c, d, b, s.dist) == c
    ensures SampleFits(c, d, b, dt, s)
  {
    PennedDecision(c, d, b, s.dist);
  }

  /** The penned cat of the stuck world stays penned, and the stuck sample
      fits it. */
  lemma StuckCatPenned()
    ensures SampleFits(StuckCat, StuckDog, StuckBox, StuckDt, StuckSample)
    ensures Penned(StuckCat, StuckBox)
  {
    StuckCatDistance();
    StuckCatDraws();
    PennedCatFits(StuckCat, StuckDog, StuckBox, StuckDt, StuckSample);
  }

  lemma StuckCatDistance()
    ensures IsLength(Sub(StuckCat.pos, StuckDog.pos), StuckSample.dist)
    ensures StuckCat.state == InPen && Penned(StuckCat, StuckBox)
  {
    StuckLengths();
  }

  lemma StuckCatDraws()
    ensures DrawsFit(StuckCat, StuckDog.pos, StuckDt, StuckSample)
  {
    StuckLengths();
  }

  /** The stuck world's one cat is penned, and so is every cat of its
      level. */
  lemma StuckAllPenned()
    ensures AllPenned(StuckWorld())
  {
    StuckCatDistance();
    OnePennedCat(StuckWorld(), StuckCat);
  }

  /** A level of one cat, that cat penned. */
  lemma OnePennedCat(w: GameWorld, c: Cat)
    requires w.cats == [c] && w.level.numCats == 1
    requires Penned(c, w.level.catBox)
    ensures AllPenned(w)
  {
  }

  /** The stuck world meets every condition under which the as-written
      `update_won` declares the level won again: N on the last level, no
      other key, a frame that can run, and every cat penned. */
  lemma NeverGameOverAsWritten()
    ensures EndsTheGame(StuckWorld(), StuckKeys, StuckSource())
    ensures !StuckKeys.rPressed && !StuckKeys.tabPressed
    ensures RunFits(PressN(StuckWorld(), StuckKeys, StuckSource()), StuckKeys, StuckDt, 0.0, [StuckSample])
    ensures AllPenned(StuckWorld())
  {
    StuckRunFits();
    StuckAllPenned();
  }

  /** Running the as-written frame on the stuck world: the game is won
      again. */
  method StuckFrame() returns (r: GameWorld)
    ensures r.gameState == Won
  {
    NeverGameOverAsWritten();
    r := UpdateWonAsWritten(StuckWorld(), StuckKeys, StuckDt, StuckSource(), 0.0, [StuckSample]);
  }

  lemma StuckRunFits()
    ensures RunFits(PressN(StuckWorld(), StuckKeys, StuckSource()), StuckKeys, StuckDt, 0.0, [StuckSample])
  {
    StuckDogStill();
    StuckCatPenned();
    StuckOver();
    OneCatFits(StuckCat, StuckDog, StuckBox, StuckDt, StuckSample);
  }

  /** The stuck world after N: the same world, game over, no keys held. */
  lemma StuckOver()
    ensures var over := PressN(StuckWorld(), StuckKeys, StuckSource());
            && over.cats == [StuckCat] && over.level.catBox == StuckBox
            && over.gameState == GameOver
    ensures HeldDirection(StuckKeys) == Zero && IsLength(HeldDirection(StuckKeys), 0.0)
    ensures !StuckKeys.rPressed && !StuckKeys.tabPressed
  {
  }

  lemma OneCatFits(c: Cat, d: Dog, b: CatBox, dt: real, s: CatSample)
    requires SampleFits(c, d, b, dt, s)
    ensures SamplesFit([c], d, b, dt, [s])
  {
  }

  // ------------------------------------------------------ dispatch

  /** `GameWorld::update`: one frame in whatever screen the game is on,
      with the corrected `update_won`. The samples must fit whichever
      frame is played: the running one, or the one after N on the won
      screen. */
  method Update(w: GameWorld, k: Keys, dt: real, src: LevelSource, dirLen: real, samples: seq<CatSample>) returns (r: GameWorld)
    requires IsLength(HeldDirection(k), dirLen)
    requires SamplesFit(w.cats, MoveDog(w, k, dt, dirLen), w.level.catBox, dt, samples) || k.rPressed || k.tabPressed || w.gameState != Running
    requires SamplesFit(PressN(w, k, src).cats, MoveDog(PressN(w, k, src), k, dt, dirLen), PressN(w, k, src).level.catBox, dt, samples) || k.rPressed || k.tabPressed || EndsTheGame(w, k, src) || w.gameState != Won
    ensures w.gameState == StartMenu ==> (r.gameState == StartMenu || r.gameState == HowToPlay)
    ensures w.gameState == HowToPlay ==> (r.gameState == HowToPlay || r.gameState == Running)
    ensures w.gameState == GameOver ==> (r.gameState == GameOver || r.gameState == Running)
    ensures w.gameState == Running && !k.rPressed && !k.tabPressed ==> (r.gameState == Running || r.gameState == Won)
    ensures w.gameState == Won && EndsTheGame(w, k, src) ==> r.gameState == GameOver
    ensures r.gameState == StartMenu ==> w.gameState == StartMenu
    ensures InPlay(w.gameState) ==> InPlay(r.gameState)
    ensures Allowed(w.gameState, r.gameState)
  {
    match w.gameState
    case StartMenu => r := UpdateStartMenu(w, k);
    case HowToPlay => r := UpdateHowToPlay(w, k);
    case Running => r := UpdateRunning(w, k, dt, src, dirLen, samples);
    case Won => r := UpdateWon(w, k, dt, src, dirLen, samples);
    case GameOver => r := UpdateGameOver(w, k, src);
  }
}
