/** Shared value types: optional values, the outcome of a call to a remote party, and bounds. */
module Base {

  datatype Option<+T> = None | Some(value: T)

  /** What the caller of a database statement or a fetch observes.
      `ErrApplied` is an error reported after the statement took effect (a lost commit reply). */
  datatype Reply = Ok | Empty | Err | ErrApplied

  function Max(a: int, b: int): int {
    if a > b then a else b
  }

  function Min(a: int, b: int): int {
    if a < b then a else b
  }

  /** `f`, applied `n` times. */
  function Times<S>(f: S -> S, s: S, n: nat): S {
    if n == 0 then s else Times(f, f(s), n - 1)
  }

  lemma {:induction false} TimesAdd<S>(f: S -> S, s: S, n: nat, m: nat)
    ensures Times(f, s, n + m) == Times(f, Times(f, s, n), m)
  {
    if n == 0 {
    } else {
      TimesAdd(f, f(s), n - 1, m);
    }
  }
}
