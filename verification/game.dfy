/** `src/game.rs`: the newer game's round bookkeeping. Each frame the cats
    are counted, and the round ends when every cat is in the pen (or the
    player skips with Tab); the last level ends in victory. */
module Game {
  import opened Engine
  import opened Cats

  /** 2^32: the counters are `u32`. */
  const U32_LIMIT: nat := 0x1_0000_0000

  datatype GameState = None | Playing | LevelClear | Victory

  /** How many cats there are and how many sit in the pen. */
  datatype CatStats = CatStats(total: nat, inPen: nat)

  const DefaultStats: CatStats := CatStats(0, 0)

  /** Every cat is penned, and there is at least one. */
  predicate AllPenned(s: CatStats) {
    s.total > 0 && s.inPen == s.total
  }

  /** An empty round is never cleared by penning. */
  lemma DefaultNotPenned()
    ensures !AllPenned(DefaultStats)
  {
  }

  /** The number of cats in the pen. */
  function CountInPen(cats: seq<CatState>): (n: nat)
    ensures n <= |cats|
    decreases |cats|
  {
    if |cats| == 0 then 0 else (if cats[0] == InPen then 1 else 0) + CountInPen(cats[1..])
  }

  /** The count agrees with the multiset of cat states. */
  lemma {:induction false} CountInPenIsMultiplicity(cats: seq<CatState>)
    ensures CountInPen(cats) == multiset(cats)[InPen]
    decreases |cats|
  {
    if |cats| > 0 {
      assert cats == [cats[0]] + cats[1..];
      CountInPenIsMultiplicity(cats[1..]);
    }
  }

  /** Every cat is in the pen exactly when all of them are counted. */
  lemma {:induction false} CountAllInPen(cats: seq<CatState>)
    ensures CountInPen(cats) == |cats| <==> forall i :: 0 <= i < |cats| ==> cats[i] == InPen
    decreases |cats|
  {
    if |cats| > 0 {
      CountAllInPen(cats[1..]);
      assert forall i :: 1 <= i < |cats| ==> cats[i] == cats[1..][i - 1];
    }
  }

  /** `update_cat_stats`: both counts, truncated to `u32` as `as u32` does. */
  function UpdateCatStats(cats: seq<CatState>): (r: CatStats)
    ensures r.total < U32_LIMIT && r.inPen < U32_LIMIT
    ensures |cats| < U32_LIMIT ==>
      r.total == |cats| && r.inPen == multiset(cats)[InPen] && r.inPen <= r.total
  {
    CountInPenIsMultiplicity(cats);
    CatStats(|cats| % U32_LIMIT, CountInPen(cats) % U32_LIMIT)
  }

  /** After counting, the round is all penned exactly when there are cats
      and every one of them is in the pen. */
  lemma AllPennedMeansEveryCat(cats: seq<CatState>)
    requires |cats| < U32_LIMIT
    ensures AllPenned(UpdateCatStats(cats)) <==>
      |cats| > 0 && forall i :: 0 <= i < |cats| ==> cats[i] == InPen
  {
    CountAllInPen(cats);
    CountInPenIsMultiplicity(cats);
  }

  /** Keys that were just pressed this frame. */
  datatype RoundKeys = RoundKeys(tab: bool, enter: bool)

  /** The round is over: everything penned, or skipped with Tab. */
  predicate LevelCleared(s: CatStats, k: RoundKeys) {
    AllPenned(s) || k.tab
  }

  /** `check_state_change`. `index` is the current level's index and
      `levels` the number of levels. */
  function CheckStateChange(state: GameState, s: CatStats, k: RoundKeys, index: nat, levels: nat)
    : (r: NextState<GameState>)
    ensures state == Playing ==> (r.Pending? <==> LevelCleared(s, k))
    ensures r == Pending(Victory) <==> state == Playing && LevelCleared(s, k) && index + 1 >= levels
    ensures r == Pending(LevelClear) <==> state == Playing && LevelCleared(s, k) && index + 1 < levels
    ensures state != Playing ==> (r.Pending? <==> k.enter) && (r.Pending? ==> r.state == Playing)
    ensures r != Pending(None)
  {
    match state
    case Playing =>
      if !LevelCleared(s, k) then Unchanged
      else if index + 1 >= levels then Pending(Victory)
      else Pending(LevelClear)
    case _ =>
      if k.enter then Pending(Playing) else Unchanged
  }

  /** The pen: a 60 by 60 box at the centre, just under the cats. */
  datatype CatBox = CatBox(x: real, y: real, z: real, width: real, height: real)

  /** `setup_game`: place the pen and ask for a round to start. */
  function SetupGame(): (r: (CatBox, NextState<GameState>))
    ensures r.1 == Pending(Playing)
    ensures r.0.x == 0.0 && r.0.y == 0.0 && r.0.z < 0.0
    ensures r.0.width == 60.0 && r.0.height == 60.0
  {
    (CatBox(0.0, 0.0, -0.5, 60.0, 60.0), Pending(Playing))
  }

  /** A round that has just been set up ends once every cat is penned: on
      the last level with victory, otherwise with a level clear. */
  lemma RoundEndsWhenAllPenned(cats: seq<CatState>, k: RoundKeys, index: nat, levels: nat)
    requires 0 < |cats| < U32_LIMIT
    requires forall i :: 0 <= i < |cats| ==> cats[i] == InPen
    ensures var started := SetupGame().1.state;
            CheckStateChange(started, UpdateCatStats(cats), k, index, levels)
              == Pending(if index + 1 >= levels then Victory else LevelClear)
  {
    AllPennedMeansEveryCat(cats);
  }
}
