/** `src/ui/hud.rs`: the in-game overlay. A tracker shows how many cats are
    penned out of how many, and one of two prompts appears when a level is
    cleared or the game is won. */
module Hud {
  import opened Engine
  import opened Game

  // ---------------------------------------------------------------- prompts

  /** Every prompt entity of a kind gets the same visibility. */
  function SetAll(prompts: seq<Visibility>, v: Visibility): (r: seq<Visibility>)
    ensures |r| == |prompts|
    ensures forall i :: 0 <= i < |r| ==> r[i] == v
  {
    seq(|prompts|, _ => v)
  }

  /** `update_next_level_prompt`: when the game state has just changed, the
      next-level prompt shows on a level clear, the victory prompt on
      victory, and neither otherwise. */
  function UpdateNextLevelPrompt(changed: bool, state: GameState,
                                 nextLevel: seq<Visibility>, victory: seq<Visibility>)
    : (r: (seq<Visibility>, seq<Visibility>))
    ensures !changed ==> r == (nextLevel, victory)
    ensures |r.0| == |nextLevel| && |r.1| == |victory|
    ensures changed ==> forall i :: 0 <= i < |r.0| ==>
      r.0[i] == (if state == LevelClear then Inherited else Hidden)
    ensures changed ==> forall i :: 0 <= i < |r.1| ==>
      r.1[i] == (if state == Victory then Inherited else Hidden)
  {
    if !changed then (nextLevel, victory)
    else
      match state
      case LevelClear => (SetAll(nextLevel, Inherited), SetAll(victory, Hidden))
      case Victory => (SetAll(nextLevel, Hidden), SetAll(victory, Inherited))
      case _ => (SetAll(nextLevel, Hidden), SetAll(victory, Hidden))
  }

  /** After a change of state the two prompts are never on screen together,
      and in a round neither is. */
  lemma PromptsExclusive(state: GameState, nextLevel: seq<Visibility>, victory: seq<Visibility>,
                         i: nat, j: nat)
    requires i < |nextLevel| && j < |victory|
    ensures var r := UpdateNextLevelPrompt(true, state, nextLevel, victory);
            r.0[i] == Hidden || r.1[j] == Hidden
    ensures var r := UpdateNextLevelPrompt(true, state, nextLevel, victory);
            state == Playing || state == None ==> r.0[i] == Hidden && r.1[j] == Hidden
  {
  }

  // ---------------------------------------------------------------- tracker

  function DigitChar(d: nat): char
    requires d < 10
  {
    (48 + d) as char
  }

  predicate IsDigit(c: char) {
    '0' <= c <= '9'
  }

  function DigitValue(c: char): nat
    requires IsDigit(c)
  {
    c as nat - 48
  }

  /** The decimal digits of `n`, without leading zeros. */
  function Decimal(n: nat): (s: string)
    ensures 1 <= |s|
    ensures forall i :: 0 <= i < |s| ==> IsDigit(s[i])
    ensures n < 10 <==> |s| == 1
    decreases n
  {
    if n < 10 then [DigitChar(n)] else Decimal(n / 10) + [DigitChar(n % 10)]
  }

  /** `{:02}`: padded on the left with zeros to at least two characters. */
  function Pad2(s: string): (r: string)
    ensures |r| == if |s| < 2 then 2 else |s|
    ensures r[|r| - |s|..] == s
    ensures forall i :: 0 <= i < |r| - |s| ==> r[i] == '0'
  {
    if |s| == 0 then "00" else if |s| == 1 then ['0'] + s else s
  }

  /** The tracker's text: penned cats and total cats, two digits each at
      least, separated by a slash. */
  function TrackerText(s: CatStats): string {
    Pad2(Decimal(s.inPen)) + "/" + Pad2(Decimal(s.total))
  }

  /** The tracker before any count. */
  const InitialTracker: string := "00/00"

  lemma InitialTrackerIsEmptyCount()
    ensures TrackerText(DefaultStats) == InitialTracker
  {
    assert Decimal(0) == "0";
  }

  /** Reading a run of decimal digits, leading zeros allowed. */
  function ParseDecimal(s: string): nat
    requires forall i :: 0 <= i < |s| ==> IsDigit(s[i])
    decreases |s|
  {
    if |s| == 0 then 0 else ParseDecimal(s[..|s| - 1]) * 10 + DigitValue(s[|s| - 1])
  }

  lemma {:induction false} ParseDecimalInverts(n: nat)
    ensures ParseDecimal(Decimal(n)) == n
    decreases n
  {
    if n >= 10 {
      var s := Decimal(n);
      assert s[..|s| - 1] == Decimal(n / 10);
      ParseDecimalInverts(n / 10);
    }
  }

  /** A leading zero does not change the value read. */
  lemma {:induction false} LeadingZero(s: string)
    requires forall i :: 0 <= i < |s| ==> IsDigit(s[i])
    ensures ParseDecimal(['0'] + s) == ParseDecimal(s)
    decreases |s|
  {
    if |s| > 0 {
      var t := ['0'] + s;
      assert t[..|t| - 1] == ['0'] + s[..|s| - 1];
      LeadingZero(s[..|s| - 1]);
    }
  }

  lemma PaddedParses(n: nat)
    ensures forall i :: 0 <= i < |Pad2(Decimal(n))| ==> IsDigit(Pad2(Decimal(n))[i])
    ensures ParseDecimal(Pad2(Decimal(n))) == n
  {
    ParseDecimalInverts(n);
    var s := Decimal(n);
    if |s| == 1 {
      LeadingZero(s);
    }
  }

  /** The position of the first slash, or the length when there is none. */
  function SlashAt(t: string): (i: nat)
    ensures i <= |t|
    ensures i < |t| ==> t[i] == '/'
    ensures forall j :: 0 <= j < i ==> t[j] != '/'
    decreases |t|
  {
    if |t| == 0 then 0 else if t[0] == '/' then 0 else 1 + SlashAt(t[1..])
  }

  /** Reading the tracker back: the numbers either side of the slash. */
  function ParseTracker(t: string): (r: (nat, nat))
    requires forall i :: 0 <= i < |t| ==> IsDigit(t[i]) || t[i] == '/'
    requires SlashAt(t) < |t|
  {
    var k := SlashAt(t);
    var left := t[..k];
    var right := t[k + 1..];
    assert forall i :: 0 <= i < |right| ==> right[i] == t[k + 1 + i];
    (ParseDecimal(left), ParseNumberPart(right))
  }

  /** The digits after the slash, ignoring any further slash. */
  function ParseNumberPart(s: string): nat
    requires forall i :: 0 <= i < |s| ==> IsDigit(s[i]) || s[i] == '/'
    decreases |s|
  {
    if |s| == 0 then 0
    else if s[|s| - 1] == '/' then ParseNumberPart(s[..|s| - 1])
    else ParseNumberPart(s[..|s| - 1]) * 10 + DigitValue(s[|s| - 1])
  }

  lemma {:induction false} DigitsParseAlike(s: string)
    requires forall i :: 0 <= i < |s| ==> IsDigit(s[i])
    ensures ParseNumberPart(s) == ParseDecimal(s)
    decreases |s|
  {
    if |s| > 0 {
      DigitsParseAlike(s[..|s| - 1]);
    }
  }

  /** `t` reads back as the penned count and the total of `s`. */
  predicate Shows(t: string, s: CatStats) {
    && (forall i :: 0 <= i < |t| ==> IsDigit(t[i]) || t[i] == '/')
    && SlashAt(t) < |t|
    && ParseTracker(t) == (s.inPen, s.total)
  }

  /** The first slash of `a + "/" + b`, when `a` has none, is the one
      after `a`. */
  lemma {:induction false} SlashAfter(a: string, b: string)
    requires forall j :: 0 <= j < |a| ==> a[j] != '/'
    ensures SlashAt(a + "/" + b) == |a|
    decreases |a|
  {
    if |a| > 0 {
      assert (a + "/" + b)[1..] == a[1..] + "/" + b;
      SlashAfter(a[1..], b);
    }
  }

  /** The tracker text shows both counts faithfully: reading it back gives
      the penned count and the total. */
  lemma TrackerRoundTrip(s: CatStats)
    ensures Shows(TrackerText(s), s)
  {
    var a := Pad2(Decimal(s.inPen));
    var b := Pad2(Decimal(s.total));
    PaddedParses(s.inPen);
    PaddedParses(s.total);
    var t := a + "/" + b;
    SlashAfter(a, b);
    assert t[..|a|] == a;
    assert t[|a| + 1..] == b;
    DigitsParseAlike(b);
  }

  /** `update_cat_tracker`: when the counts have changed, every tracker
      shows them. */
  function UpdateCatTracker(changed: bool, s: CatStats, trackers: seq<string>): (r: seq<string>)
    ensures !changed ==> r == trackers
    ensures |r| == |trackers|
    ensures changed ==> forall i :: 0 <= i < |r| ==> Shows(r[i], s)
  {
    if !changed then trackers
    else
      TrackerRoundTrip(s);
      seq(|trackers|, _ => TrackerText(s))
  }

  /** Up to 99 on each side the tracker is exactly five characters. */
  lemma TrackerWidth(s: CatStats)
    requires s.inPen < 100 && s.total < 100
    ensures |TrackerText(s)| == 5
  {
    DecimalWidth(s.inPen);
    DecimalWidth(s.total);
  }

  lemma DecimalWidth(n: nat)
    requires n < 100
    ensures |Decimal(n)| <= 2
  {
    if n >= 10 {
      assert Decimal(n) == Decimal(n / 10) + [DigitChar(n % 10)];
    }
  }
}
