// Definitions shared by every part of the model.
module Basics {

  datatype Option<+T> = None | Some(value: T)

  // Identifiers: hashes of opaque tokens, uuids, key ids. One supply of fresh
  // numbers stands for both the random generator and an injective hash.
  type Id = int

  // Instants and durations, in nanoseconds.
  type Time = int

  const SECOND: int := 1_000_000_000
  const MINUTE: int := 60 * SECOND
  const HOUR: int := 60 * MINUTE
  const DAY: int := 24 * HOUR

  // A scope list, in the order it is stored and printed.
  type Scopes = seq<string>

  ghost predicate Within(inner: Scopes, outer: Scopes) {
    forall x :: x in inner ==> x in outer
  }
}
