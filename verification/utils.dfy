/** `src/utils.rs`: blinking. A blinking entity flips between hidden and
    shown each time its repeating blink timer comes round. The timer itself
    is the engine's; whether it came round this frame is an input. */
module Utils {
  import opened Engine

  /** The flip: hidden becomes visible, anything else becomes hidden. */
  function Toggle(v: Visibility): (r: Visibility)
    ensures r != Inherited
    ensures r == Visible <==> v == Hidden
  {
    match v
    case Inherited => Hidden
    case Visible => Hidden
    case Hidden => Visible
  }

  /** Two flips give back `Visible` and `Hidden`, and turn `Inherited`
      into `Visible`. */
  lemma ToggleTwice(v: Visibility)
    ensures Toggle(Toggle(v)) == (if v == Inherited then Visible else v)
  {
  }

  /** `update_blink_visibility` for one entity: flip on the frame the blink
      timer just finished, otherwise leave it. */
  function UpdateBlinkVisibility(justFinished: bool, v: Visibility): (r: Visibility)
    ensures !justFinished ==> r == v
    ensures justFinished ==> r != Inherited && (r == Visible <==> v == Hidden)
  {
    if justFinished then Toggle(v) else v
  }

  /** How many of the frames had the blink timer come round. */
  function Flips(frames: seq<bool>): nat
    decreases |frames|
  {
    if |frames| == 0 then 0 else (if frames[0] then 1 else 0) + Flips(frames[1..])
  }

  /** The visibility after a run of frames. */
  function Blinking(v: Visibility, frames: seq<bool>): Visibility
    decreases |frames|
  {
    if |frames| == 0 then v else Blinking(UpdateBlinkVisibility(frames[0], v), frames[1..])
  }

  /** Over a run of frames the entity is hidden exactly when an odd number of
      flips started from a shown state, or an even number from hidden; with
      no flips nothing changes. */
  lemma {:induction false} BlinkParity(v: Visibility, frames: seq<bool>)
    ensures Flips(frames) == 0 ==> Blinking(v, frames) == v
    ensures Flips(frames) > 0 ==>
      Blinking(v, frames) != Inherited &&
      (Blinking(v, frames) == Hidden <==> (Flips(frames) % 2 == 1) == (v != Hidden))
    decreases |frames|
  {
    if |frames| > 0 {
      BlinkParity(UpdateBlinkVisibility(frames[0], v), frames[1..]);
    }
  }
}
