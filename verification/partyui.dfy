/** `src/ui/party.rs`: the victory celebration of the newer game. Sixty
    cats, stacked one above the other, spin and drift down the world and
    reappear at the top once past the bottom. The world size and the random
    draws are inputs. */
module PartyUi {

  const NUM_CATS: nat := 60
  const PARTY_ITEM_SPEED: real := 30.0
  /** How far past the world's edge the cats turn round. */
  const MARGIN: real := 50.0

  datatype CatKind = Basic | Kitten | Chonk

  /** Degrees per second each kind spins, clockwise. */
  function SpinRate(k: CatKind): (r: real)
    ensures r > 0.0
    ensures k == Chonk ==> r == 90.0
    ensures k == Basic ==> r == 180.0
    ensures k == Kitten ==> r == 360.0
  {
    match k
    case Basic => 180.0
    case Kitten => 360.0
    case Chonk => 90.0
  }

  /** The world's size in pixels. */
  datatype World = World(w: nat, h: nat)

  /** A party cat: its kind, position, depth, and rotation in degrees
      (counter-clockwise positive, not reduced modulo 360). */
  datatype PartyCat = PartyCat(kind: CatKind, x: real, y: real, z: real, angle: real)

  /** A fraction drawn uniformly from [0, 1). */
  predicate Fraction(f: real) { 0.0 <= f < 1.0 }

  /** The random draws for one spawned cat. */
  datatype SpawnDraw = SpawnDraw(kind: CatKind, angle: real, x: real, y: real)

  predicate SpawnFits(d: SpawnDraw) {
    Fraction(d.angle) && Fraction(d.x) && Fraction(d.y)
  }

  function Half(n: nat): (r: real)
    ensures r >= 0.0 && r + r == n as real
  {
    n as real / 2.0
  }

  /** A fraction of a length is shorter than the length. */
  lemma ScaledFraction(n: nat, f: real)
    requires Fraction(f)
    ensures 0.0 <= n as real * f <= n as real
    ensures n > 0 ==> n as real * f < n as real
  {
    if n > 0 {
      assert n as real * f < n as real * 1.0;
    }
  }

  /** Across the world, and between the bottom turn line and the highest
      spawn point. */
  predicate InSky(c: PartyCat, world: World) {
    && -Half(world.w) <= c.x < Half(world.w)
    && -Half(world.h) - MARGIN <= c.y < Half(world.h) + (world.h + 80) as real
  }

  /** The `i`th cat of `spawn_party`. */
  function SpawnCat(i: nat, d: SpawnDraw, world: World): (r: PartyCat)
    requires SpawnFits(d)
    ensures r.kind == d.kind && r.z == 100.0 + i as real
    ensures 0.0 <= r.angle < 360.0
    ensures world.w > 0 ==> -Half(world.w) <= r.x < Half(world.w)
    ensures Half(world.h) <= r.y < Half(world.h) + (world.h + 80) as real
  {
    ScaledFraction(world.w, d.x);
    ScaledFraction(world.h + 80, d.y);
    assert (world.h + 80) as real * d.y < (world.h + 80) as real;
    PartyCat(d.kind, world.w as real * d.x - Half(world.w), (world.h + 80) as real * d.y + Half(world.h),
             100.0 + i as real, 360.0 * d.angle)
  }

  /** `spawn_party`: sixty cats, cat `i` at depth 100 + i, so every cat is
      drawn over the ones before it. */
  function SpawnParty(draws: seq<SpawnDraw>, world: World): (r: seq<PartyCat>)
    requires |draws| == NUM_CATS
    requires forall i :: 0 <= i < |draws| ==> SpawnFits(draws[i])
    requires world.w > 0
    ensures |r| == NUM_CATS
    ensures forall i :: 0 <= i < |r| ==> r[i] == SpawnCat(i, draws[i], world) && InSky(r[i], world)
    ensures forall i, j :: 0 <= i < j < |r| ==> r[i].z < r[j].z
  {
    seq(NUM_CATS, i requires 0 <= i < NUM_CATS => SpawnCat(i, draws[i], world))
  }

  /** The redraw when a cat turns round. */
  datatype WrapDraw = WrapDraw(angle: real, x: real)

  predicate WrapFits(d: WrapDraw) {
    Fraction(d.angle) && Fraction(d.x)
  }

  /** One cat in `update_cats`: spin clockwise, drift down, and turn round
      below the world. */
  function UpdateCat(c: PartyCat, dt: real, world: World, d: WrapDraw): (r: PartyCat)
    requires WrapFits(d)
    ensures r.kind == c.kind && r.z == c.z
    ensures c.y - PARTY_ITEM_SPEED * dt < -Half(world.h) - MARGIN ==>
      r.y == Half(world.h) + MARGIN && r.angle == 360.0 * d.angle &&
      r.x == world.w as real * d.x - Half(world.w)
    ensures c.y - PARTY_ITEM_SPEED * dt >= -Half(world.h) - MARGIN ==>
      r.y == c.y - PARTY_ITEM_SPEED * dt && r.x == c.x &&
      r.angle == c.angle - SpinRate(c.kind) * dt
  {
    var spun := c.(angle := c.angle - SpinRate(c.kind) * dt);
    var fell := spun.(y := spun.y - PARTY_ITEM_SPEED * dt);
    if fell.y < -Half(world.h) - MARGIN then
      fell.(angle := 360.0 * d.angle, x := world.w as real * d.x - Half(world.w),
            y := Half(world.h) + MARGIN)
    else fell
  }

  /** A cat in the sky stays there as time passes. */
  lemma CatStaysInSky(c: PartyCat, dt: real, world: World, d: WrapDraw)
    requires WrapFits(d) && dt >= 0.0 && world.w > 0
    requires InSky(c, world)
    ensures InSky(UpdateCat(c, dt, world, d), world)
  {
    var r := UpdateCat(c, dt, world, d);
    if c.y - PARTY_ITEM_SPEED * dt < -Half(world.h) - MARGIN {
      ScaledFraction(world.w, d.x);
      assert r.x == world.w as real * d.x - Half(world.w);
      assert world.w as real * d.x < world.w as real;
    } else {
      assert r.x == c.x;
    }
  }

  /** `update_cats`: every cat updates, keeping its place in the stack. */
  function UpdateCats(cats: seq<PartyCat>, dt: real, world: World, draws: seq<WrapDraw>)
    : (r: seq<PartyCat>)
    requires |draws| == |cats|
    requires forall i :: 0 <= i < |draws| ==> WrapFits(draws[i])
    ensures |r| == |cats|
    ensures forall i :: 0 <= i < |r| ==> r[i] == UpdateCat(cats[i], dt, world, draws[i])
    ensures forall i :: 0 <= i < |r| ==> r[i].z == cats[i].z && r[i].kind == cats[i].kind
  {
    seq(|cats|, i requires 0 <= i < |cats| => UpdateCat(cats[i], dt, world, draws[i]))
  }

  /** The depth order set at spawn survives any number of updates. */
  lemma StackOrderKept(cats: seq<PartyCat>, dt: real, world: World, draws: seq<WrapDraw>)
    requires |draws| == |cats|
    requires forall i :: 0 <= i < |draws| ==> WrapFits(draws[i])
    requires forall i, j :: 0 <= i < j < |cats| ==> cats[i].z < cats[j].z
    ensures var r := UpdateCats(cats, dt, world, draws);
            forall i, j :: 0 <= i < j < |r| ==> r[i].z < r[j].z
  {
  }
}
