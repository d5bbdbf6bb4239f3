/** Keeping a definition closed until it is needed. */
module Sealing {
  /** Which definitions are sealed. */
  datatype Sealed = Answers | Runs | Contained | Spreads | Fillings | Differences | Marks | Pointers | Levels | Scripts | Views

  /** A sealed definition holds under Open for every k, and is used by asserting Open of its kind once.  A method
      that only passes such a fact on then does not reason about what it says. */
  predicate Open(what: Sealed, k: int) { true }
}
