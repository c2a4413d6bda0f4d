/** Optional values and results, used for nullable columns and for thrown exceptions, and unused ids. */
module Wrappers {
  datatype Option<+T> = None | Some(value: T)

  datatype Result<+T, +E> = Ok(value: T) | Err(error: E)

  /** What a condition on a nullable string tests. */
  predicate Truthy(s: Option<string>) {
    s.Some? && s.value != ""
  }

  /** `value || null` on a nullable string. */
  function OrNull(s: Option<string>): Option<string> {
    if Truthy(s) then s else None
  }

  lemma FreshNumber(used: set<nat>) returns (n: nat)
    ensures n !in used
  {
    n := 0;
    var rest := used;
    while rest != {}
      invariant forall m :: m in used && m >= n ==> m in rest
      decreases rest
    {
      var m :| m in rest;
      rest := rest - {m};
      if m >= n { n := m + 1; }
    }
  }
}
