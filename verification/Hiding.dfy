/**
 * Some predicates are quantified over variables that they do not depend on. The verifier looks
 * inside them only where a proof mentions `Unfold`, to use one, or `Fold`, to establish one, which
 * keeps the proofs of their clients small. `Guard` keeps the outer variable from being dropped.
 */
module Hiding {
  ghost predicate Unfold(z: int) {
    true
  }

  ghost predicate Guard(z: int) {
    true
  }

  ghost predicate Fold(w: int) {
    true
  }
}
