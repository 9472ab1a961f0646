/** The few facts about products, quotients and rounding up that the byte counts need. */
module Arithmetic {

  lemma MulLe(n: nat, a: int, b: int)
    requires a <= b
    ensures n * a <= n * b
  {
    var d: nat := b - a;
    assert n * b == n * a + n * d;
  }

  lemma MulStep(n: int, a: int)
    ensures n * (a + 1) == n * a + n
    ensures n * (a - 1) == n * a - n
  {
  }

  lemma TimesStep(k: int, q: int)
    ensures (k + 1) * q == k * q + q
  {
  }

  lemma DivModUnique(m: int, n: nat, q: int, r: nat)
    requires n >= 1 && r < n && m == n * q + r
    ensures m / n == q && m % n == r
  {
    var q' := m / n;
    assert m == n * q' + m % n;
    if q' < q {
      MulLe(n, q' + 1, q);
      MulStep(n, q');
      assert false;
    } else if q < q' {
      MulLe(n, q + 1, q');
      MulStep(n, q);
      assert false;
    }
  }

  lemma ModStep(m: int, n: nat)
    requires n >= 1
    ensures (m - n) % n == m % n && (m - n) / n == m / n - 1
  {
    MulStep(n, m / n);
    DivModUnique(m - n, n, m / n - 1, m % n);
  }

  // Division rounded up.
  function CeilDiv(m: nat, n: nat): (c: nat)
    requires n >= 1
    ensures n * c >= m && (c > 0 ==> n * (c - 1) < m)
  {
    if m == 0 then 0
    else
      var c := (m - 1) / n + 1;
      assert n * (c - 1) <= m - 1 < n * c by {
        MulStep(n, c - 1);
      }
      c
  }

  lemma CeilDivUnique(m: nat, n: nat, c: nat)
    requires n >= 1 && n * c >= m && (c > 0 ==> n * (c - 1) < m)
    ensures c == CeilDiv(m, n)
  {
    var d := CeilDiv(m, n);
    if c < d {
      MulLe(n, c, d - 1);
      assert false;
    } else if d < c {
      MulLe(n, d, c - 1);
      assert false;
    }
  }
}
