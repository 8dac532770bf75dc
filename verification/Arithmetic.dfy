/** The few facts about multiplication, division and remainder the models need. */
module Arithmetic {

  lemma MulAtLeast(n: int, d: int)
    requires 0 <= n
    ensures d >= 1 ==> n * d >= n
    ensures d <= -1 ==> n * d <= -n
  {
  }

  lemma UniqueQuotient(n: nat, q: int, r: int, q': int, r': int)
    requires 0 <= r < n && 0 <= r' < n && n * q + r == n * q' + r'
    ensures q == q' && r == r'
  {
    assert n * (q - q') == n * q - n * q';
    MulAtLeast(n, q - q');
  }

  lemma ModOnce(x: nat, n: nat)
    requires 0 < n && x < 2 * n
    ensures x % n == if x < n then x else x - n
  {
    UniqueQuotient(n, x / n, x % n, if x < n then 0 else 1, if x < n then x else x - n);
  }

  lemma ModPlus(c: nat, d: nat, n: nat)
    requires 0 < n
    ensures (c + d) % n == (c % n + d) % n
  {
    var q, r := c / n, c % n;
    assert c + d == n * (q + (r + d) / n) + (r + d) % n by {
      assert n * (q + (r + d) / n) == n * q + n * ((r + d) / n);
    }
    UniqueQuotient(n, (c + d) / n, (c + d) % n, q + (r + d) / n, (r + d) % n);
  }

  lemma ModMultiple(x: nat, q: nat, n: nat)
    requires 0 < n
    ensures (x + n * q) % n == x % n
  {
    assert x + n * q == n * (x / n + q) + x % n by {
      assert n * (x / n + q) == n * (x / n) + n * q;
    }
    UniqueQuotient(n, (x + n * q) / n, (x + n * q) % n, x / n + q, x % n);
  }

  lemma OneMore(n: int, k: int, x: int)
    requires n * (k - 1) <= x - n
    ensures n * k <= x
  {
    assert n * (k - 1) == n * k - n;
  }

  lemma DivideAtLeast(x: nat, n: nat, k: int)
    requires 0 < n && n * k <= x
    ensures k <= x / n
  {
    assert n * (k - x / n) == n * k - n * (x / n);
    MulAtLeast(n, k - x / n);
  }
}
