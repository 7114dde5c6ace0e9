/** `src/ui/menus.rs`: moving between the title screens with Tab and Enter
    until the game starts. */
module Menus {
  import opened Engine

  datatype AppState = Loading | StartMenu | Credits | HowToPlay | Playing

  /** Keys that were just pressed this frame. */
  datatype MenuKeys = MenuKeys(tab: bool, enter: bool)

  /** `handle_menu_input`. */
  function HandleMenuInput(s: AppState, k: MenuKeys): (r: NextState<AppState>)
    ensures s == StartMenu ==>
      r == (if k.tab then Pending(Credits) else if k.enter then Pending(HowToPlay) else Unchanged)
    ensures s == Credits ==> (r.Pending? <==> k.tab || k.enter) && (r.Pending? ==> r.state == StartMenu)
    ensures s == HowToPlay ==> (r.Pending? <==> k.enter) && (r.Pending? ==> r.state == Playing)
    ensures s == Loading || s == Playing ==> r == Unchanged
  {
    match s
    case Loading => Unchanged
    case StartMenu =>
      if k.tab then Pending(Credits)
      else if k.enter then Pending(HowToPlay)
      else Unchanged
    case Credits =>
      if k.tab || k.enter then Pending(StartMenu) else Unchanged
    case HowToPlay =>
      if k.enter then Pending(Playing) else Unchanged
    case Playing => Unchanged
  }

  /** The game is only ever started from the how-to-play screen, no state
      moves without a key, and no menu ever asks to go back to loading. */
  lemma MenuReachability(s: AppState, k: MenuKeys)
    ensures HandleMenuInput(s, k) == Pending(Playing) ==> s == HowToPlay && k.enter
    ensures !k.tab && !k.enter ==> HandleMenuInput(s, k) == Unchanged
    ensures HandleMenuInput(s, k) != Pending(Loading)
    ensures HandleMenuInput(s, k) != Pending(s)
  {
  }

  /** The screen reached after a run of frames, one set of key presses each. */
  function MenuWalk(s: AppState, presses: seq<MenuKeys>): AppState
    decreases |presses|
  {
    if |presses| == 0 then s
    else
      var next := match HandleMenuInput(s, presses[0])
                  case Unchanged => s
                  case Pending(t) => t;
      MenuWalk(next, presses[1..])
  }

  /** Any run of key presses that starts off the game and ends up playing
      was on the how-to-play screen when Enter was pressed at some frame. */
  lemma {:induction false} PlayingOnlyThroughHowToPlay(s: AppState, presses: seq<MenuKeys>)
    requires s != Playing
    ensures MenuWalk(s, presses) == Playing ==>
      exists i :: 0 <= i < |presses| && MenuWalk(s, presses[..i]) == HowToPlay && presses[i].enter
    decreases |presses|
  {
    if |presses| > 0 {
      var next := match HandleMenuInput(s, presses[0])
                  case Unchanged => s
                  case Pending(t) => t;
      if next == Playing {
        MenuReachability(s, presses[0]);
        assert MenuWalk(s, presses[..0]) == HowToPlay && presses[0].enter;
      } else {
        PlayingOnlyThroughHowToPlay(next, presses[1..]);
        if MenuWalk(s, presses) == Playing {
          var j :| 0 <= j < |presses[1..]| && MenuWalk(next, presses[1..][..j]) == HowToPlay
                   && presses[1..][j].enter;
          assert presses[..j + 1][1..] == presses[1..][..j];
          assert MenuWalk(s, presses[..j + 1]) == HowToPlay && presses[j + 1].enter;
        }
      }
    }
  }

  /** Enter on the start menu, then Enter on the how-to-play screen, starts
      the game. */
  lemma TwoEntersStartTheGame()
    ensures MenuWalk(StartMenu, [MenuKeys(false, true), MenuKeys(false, true)]) == Playing
  {
    var p := [MenuKeys(false, true), MenuKeys(false, true)];
    assert MenuWalk(StartMenu, p) == MenuWalk(HowToPlay, p[1..]);
    assert MenuWalk(HowToPlay, p[1..]) == MenuWalk(Playing, p[1..][1..]);
  }
}
