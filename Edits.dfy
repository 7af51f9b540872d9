/** Edit closures handed to the `Set` overloads of both engines.

    In the source an edit is a `std::function<bool(T&)>`: it mutates the value
    in place and reports whether it changed anything.  Here it is a pure,
    deterministic function from the value before the edit to the pair
    (reported flag, value after the edit); replaying the closure on another
    cell means applying the same function to that cell's value. */
module Edits {

  datatype Edited<T> = Edited(changed: bool, value: T)

  type Edit<!T> = T -> Edited<T>

  /** An edit that keeps its word: whenever it reports "no change", it left
      the value as it found it.  The engines do not demand this of the
      closures they are given; it is what makes "no change" safe to skip. */
  ghost predicate Honest<T(!new)>(f: Edit<T>) {
    forall x :: !f(x).changed ==> f(x).value == x
  }
}
