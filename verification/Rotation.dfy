/** Visiting n positions once each, in cyclic order from a rotating start. */
module Rotation {
  import opened Arithmetic

  /** The position visited at offset `j`. */
  function Visit(start: nat, j: nat, n: nat): (i: nat)
    requires 0 < n
    ensures i < n
  {
    (start % n + j) % n
  }

  /** How many steps after the start position `i` is visited. */
  function Offset(start: nat, i: nat, n: nat): (j: nat)
    requires i < n
    ensures j < n
  {
    (i + n - start % n) % n
  }

  /** Every position is visited. */
  lemma VisitOffset(start: nat, i: nat, n: nat)
    requires i < n
    ensures Visit(start, Offset(start, i, n), n) == i
  {
    var s := start % n;
    ModOnce(i + n - s, n);
    ModOnce(s + Offset(start, i, n), n);
  }

  /** Position `i` is the one visited at offset `j` exactly when `j` is its offset. */
  lemma VisitedOnce(start: nat, j: nat, i: nat, n: nat)
    requires j < n && i < n
    ensures Visit(start, j, n) == i <==> Offset(start, i, n) == j
  {
    VisitOffset(start, i, n);
    if Offset(start, i, n) != j { VisitInjective(start, j, Offset(start, i, n), n); }
  }

  /** No position is visited twice. */
  lemma VisitInjective(start: nat, j: nat, k: nat, n: nat)
    requires j < n && k < n && j != k
    ensures Visit(start, j, n) != Visit(start, k, n)
  {
    ModOnce(start % n + j, n);
    ModOnce(start % n + k, n);
  }

  /** The offset of position `i` is what leads there from the start. */
  lemma OffsetIff(start: nat, i: nat, n: nat, j: nat)
    requires i < n && j < n
    ensures Offset(start, i, n) == j <==> (start + j) % n == i
  {
    VisitedOnce(start, j, i, n);
    ModPlus(start, j, n);
  }

  /** Moving the start on by `d` and back by `m` leaves every position further off by what `m` leaves over, less `d`. */
  lemma OffsetWraps(start: nat, i: nat, n: nat, d: nat, m: nat)
    requires i < n && m <= start + d && d <= Offset(start, i, n) + m % n < d + n
    ensures Offset(start + d - m, i, n) == Offset(start, i, n) + m % n - d
  {
    var o, q := Offset(start, i, n), m / n;
    var j, wrapped := o + m % n - d, start + d - m;
    OffsetIff(start, i, n, o);
    QuotientLeft(start, o, wrapped, j, m, n);
    ModMultiple(wrapped + j, q, n);
    OffsetIff(wrapped, i, n, j);
  }

  lemma QuotientLeft(start: nat, o: nat, wrapped: nat, j: nat, m: nat, n: nat)
    requires 0 < n && wrapped + j + m == start + o + m % n
    ensures wrapped + j + n * (m / n) == start + o
  {
  }

  /** Moving the start on by `d` brings every position at least `d` away nearer by `d`. */
  lemma OffsetAdvances(start: nat, i: nat, n: nat, d: nat)
    requires i < n && Offset(start, i, n) >= d
    ensures Offset(start + d, i, n) == Offset(start, i, n) - d
  {
    var s := start % n;
    ModOnce(i + n - s, n);
    ModPlus(start, d, n);
    ModOnce(s + d, n);
    ModOnce(i + n - (start + d) % n, n);
  }
}
