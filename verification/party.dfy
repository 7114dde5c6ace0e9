/** `src/party.rs`: the victory celebration of the older game, a shower of
    cats that fall down the 800 by 600 screen spinning, and start again
    from the top once past the bottom. The random draws are inputs. */
module Party {

  const NUM_ITEMS: nat := 60
  const PARTY_ITEM_SPEED: real := 60.0
  const SCREEN_W: real := 800.0
  const SCREEN_H: real := 600.0
  /** Past this height an item starts over. */
  const WRAP_Y: real := 650.0
  /** Where it starts over. */
  const RESTART_Y: real := -50.0

  datatype PartyItemKind = BasicCat | FatCat | Kitten

  /** Sampling a kind from a draw of 0, 1 or 2. */
  function KindOf(draw: nat): (k: PartyItemKind)
    ensures draw == 0 <==> k == BasicCat
    ensures draw == 1 <==> k == FatCat
    ensures draw >= 2 <==> k == Kitten
  {
    match draw
    case 0 => BasicCat
    case 1 => FatCat
    case _ => Kitten
  }

  /** Degrees per second each kind spins. */
  function SpinRate(k: PartyItemKind): (r: real)
    ensures r > 0.0
    ensures k == FatCat ==> r == 90.0
    ensures k == BasicCat ==> r == 180.0
    ensures k == Kitten ==> r == 360.0
  {
    match k
    case BasicCat => 180.0
    case FatCat => 90.0
    case Kitten => 360.0
  }

  /** The kitten spins fastest and the fat cat slowest. */
  lemma SpinOrder()
    ensures SpinRate(FatCat) < SpinRate(BasicCat) < SpinRate(Kitten)
  {
  }

  /** A party item; its colour is cosmetic and left out. */
  datatype PartyItem = PartyItem(kind: PartyItemKind, rotation: real, x: real, y: real, flip: bool)

  /** The random draws for a new item. */
  datatype ItemDraw = ItemDraw(kind: nat, rotation: real, x: real, y: real, flip: bool)

  predicate RotationDraw(r: real) { 0.0 <= r < 359.0 }
  predicate XDraw(x: real) { 0.0 <= x < SCREEN_W }

  predicate DrawFits(d: ItemDraw) {
    d.kind < 3 && RotationDraw(d.rotation) && XDraw(d.x) && -700.0 <= d.y < 0.0
  }

  /** `PartyItem::new`: an item somewhere above the screen. */
  function NewItem(d: ItemDraw): (r: PartyItem)
    requires DrawFits(d)
    ensures r.kind == KindOf(d.kind)
    ensures RotationDraw(r.rotation) && XDraw(r.x) && -700.0 <= r.y < 0.0
  {
    PartyItem(KindOf(d.kind), d.rotation, d.x, d.y, d.flip)
  }

  /** The redraw when an item starts over. */
  datatype WrapDraw = WrapDraw(x: real, rotation: real)

  predicate WrapFits(w: WrapDraw) {
    XDraw(w.x) && RotationDraw(w.rotation)
  }

  /** `PartyItem::update`: spin, fall, and start over past the bottom. */
  function UpdateItem(it: PartyItem, dt: real, w: WrapDraw): (r: PartyItem)
    requires WrapFits(w)
    ensures r.kind == it.kind && r.flip == it.flip
    ensures it.y + PARTY_ITEM_SPEED * dt > WRAP_Y ==>
      r.y == RESTART_Y && r.x == w.x && r.rotation == w.rotation
    ensures it.y + PARTY_ITEM_SPEED * dt <= WRAP_Y ==>
      r.y == it.y + PARTY_ITEM_SPEED * dt && r.x == it.x &&
      r.rotation == it.rotation + SpinRate(it.kind) * dt
  {
    var spun := it.(rotation := it.rotation + SpinRate(it.kind) * dt);
    var fell := spun.(y := spun.y + PARTY_ITEM_SPEED * dt);
    if fell.y > WRAP_Y then fell.(x := w.x, y := RESTART_Y, rotation := w.rotation)
    else fell
  }

  /** An item is across the screen, above its bottom wrap line and no
      further up than it can be drawn, and spun forwards. */
  predicate InField(it: PartyItem) {
    XDraw(it.x) && -700.0 <= it.y <= WRAP_Y && it.rotation >= 0.0
  }

  /** New items are in the field, and time passing keeps them there. */
  lemma ItemStaysInField(d: ItemDraw, it: PartyItem, dt: real, w: WrapDraw)
    requires DrawFits(d) && WrapFits(w) && dt >= 0.0
    ensures InField(NewItem(d))
    ensures InField(it) ==> InField(UpdateItem(it, dt, w))
  {
  }

  datatype Party = Party(items: seq<PartyItem>)

  /** `Party::new`: sixty new items. */
  function NewParty(draws: seq<ItemDraw>): (r: Party)
    requires |draws| == NUM_ITEMS
    requires forall i :: 0 <= i < |draws| ==> DrawFits(draws[i])
    ensures |r.items| == NUM_ITEMS
    ensures forall i :: 0 <= i < |r.items| ==> r.items[i] == NewItem(draws[i]) && InField(r.items[i])
  {
    Party(seq(NUM_ITEMS, i requires 0 <= i < NUM_ITEMS => NewItem(draws[i])))
  }

  /** `Party::update`: every item updates; none is added or lost. */
  function UpdateParty(p: Party, dt: real, wraps: seq<WrapDraw>): (r: Party)
    requires |wraps| == |p.items|
    requires forall i :: 0 <= i < |wraps| ==> WrapFits(wraps[i])
    ensures |r.items| == |p.items|
    ensures forall i :: 0 <= i < |r.items| ==> r.items[i] == UpdateItem(p.items[i], dt, wraps[i])
  {
    Party(seq(|p.items|, i requires 0 <= i < |p.items| => UpdateItem(p.items[i], dt, wraps[i])))
  }

  /** The whole party stays in the field, kind by kind. */
  lemma PartyStaysInField(p: Party, dt: real, wraps: seq<WrapDraw>)
    requires |wraps| == |p.items|
    requires forall i :: 0 <= i < |wraps| ==> WrapFits(wraps[i])
    requires dt >= 0.0
    requires forall i :: 0 <= i < |p.items| ==> InField(p.items[i])
    ensures var r := UpdateParty(p, dt, wraps);
            forall i :: 0 <= i < |r.items| ==> InField(r.items[i]) && r.items[i].kind == p.items[i].kind
  {
    var r := UpdateParty(p, dt, wraps);
    forall i | 0 <= i < |r.items|
      ensures InField(r.items[i]) && r.items[i].kind == p.items[i].kind
    {
      ItemStaysInField(ItemDraw(0, 0.0, 0.0, -1.0, false), p.items[i], dt, wraps[i]);
    }
  }
}
