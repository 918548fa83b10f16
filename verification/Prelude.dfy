/** Shared by every module: the conventional optional value, and an unused number. */
module Prelude {
  datatype Option<+T> = None | Some(value: T)

  /** Above a finite set of numbers there is always another one. */
  lemma Above(s: set<nat>) returns (n: nat)
    ensures forall x <- s :: x < n
    decreases s
  {
    if s == {} {
      n := 0;
    } else {
      var x :| x in s;
      n := Above(s - {x});
      assert forall y <- s :: y == x || y in s - {x};
      if n <= x {
        n := x + 1;
      }
    }
  }
}
