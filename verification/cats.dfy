/** What the newer game systems (`src/game.rs`, `src/dog.rs`) see of a cat.
    The newer cat behaviour module is not part of this model: those systems
    only ask whether a cat is in the pen or cannonballing, so a cat is seen
    through that question alone. */
module Cats {

  datatype CatState = InPen | Cannonballing | Elsewhere

  predicate IsCannonballing(s: CatState) {
    s == Cannonballing
  }
}
