/** The result types every component shares. */
module Outcomes {

  datatype Option<+T> = None | Some(value: T)

  /** The failure classes of the store's error type. */
  datatype Error = Denied | Missing | Conflict | Exhausted | Invalid

  datatype Result<+T> = Ok(value: T) | Err(error: Error)

  function Min(a: nat, b: nat): nat {
    if a < b then a else b
  }

  function Max(a: nat, b: nat): nat {
    if a < b then b else a
  }

  method Least(s: set<nat>) returns (least: nat)
    requires s != {}
    ensures least in s && forall r :: r in s ==> least <= r
  {
    least :| least in s;
    var todo := s - {least};
    while todo != {}
      invariant todo <= s && least in s
      invariant forall r :: r in s ==> r in todo || least <= r
    {
      var r :| r in todo;
      if r < least { least := r; }
      todo := todo - {r};
    }
  }
}
