/** Small value types shared by the models of the controller's components. */
module Common {

  datatype Option<+T> = None | Some(value: T) {
    function GetOr(default: T): T {
      match this
      case None => default
      case Some(v) => v
    }
  }

  datatype Result<+T, +E> = Ok(value: T) | Err(error: E)

  /** No element of `s` occurs at two positions. */
  ghost predicate Distinct<T>(s: seq<T>) {
    forall i, j :: 0 <= i < j < |s| ==> s[i] != s[j]
  }

  /** The elements of a sequence, as a set. */
  ghost function Elements<T>(s: seq<T>): set<T> {
    set x | x in s
  }

  /** The elements of a finite set in some order. */
  ghost function Listing<T(!new)>(s: set<T>): (o: seq<T>)
    ensures Distinct(o) && Elements(o) == s
  {
    if s == {} then [] else
      var x :| x in s;
      var rest := Listing(s - {x});
      assert forall y :: y in rest <==> y in Elements(rest);
      assert forall y :: y in rest + [x] <==> y in rest || y == x;
      rest + [x]
  }

  /** Induction over the naturals, for predicates that are costly to unfold. */
  lemma {:induction false} Induction(p: nat -> bool, n: nat)
    requires p(0) && forall k: nat :: p(k) ==> p(k + 1)
    ensures p(n)
  {
    if n > 0 { Induction(p, n - 1); }
  }
}
