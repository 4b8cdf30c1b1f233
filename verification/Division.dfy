// Facts about products, quotients and rounding up that several modules share.
// Times, Quot and Rest are *, / and % by repeated addition and subtraction: their laws are
// linear, so that proofs about cut points stay cheap. Statements are made with the
// operators themselves, and the lemmas here carry them over to these functions.

module Division {
  function Times(j: nat, n: nat): nat {
    if j == 0 then 0 else Times(j - 1, n) + n
  }

  function Quot(a: nat, n: nat): nat
    requires n > 0
  {
    if a < n then 0 else 1 + Quot(a - n, n)
  }

  function Rest(a: nat, n: nat): nat
    requires n > 0
  {
    if a < n then a else Rest(a - n, n)
  }

  lemma {:induction false} TimesIs(j: nat, n: nat)
    ensures Times(j, n) == j * n
  {
    if j > 0 {
      TimesIs(j - 1, n);
    }
  }

  lemma {:induction false} QuotRestAre(a: nat, n: nat)
    requires n > 0
    ensures Quot(a, n) == a / n && Rest(a, n) == a % n
  {
    if a < n {
      QuotientIs(a, n, 0);
    } else {
      QuotRestAre(a - n, n);
      QuotientOfSum(a - n, 1, n);
    }
  }

  lemma {:induction false} QuotTimesRest(a: nat, n: nat)
    requires n > 0
    ensures Times(Quot(a, n), n) + Rest(a, n) == a && Rest(a, n) < n
  {
    if a >= n { QuotTimesRest(a - n, n); }
  }

  lemma {:induction false} TimesNext(j: nat, n: nat)
    ensures Times(j, n + 1) == Times(j, n) + j
  {
    if j > 0 { TimesNext(j - 1, n); }
  }

  lemma {:induction false} TimesCommutes(j: nat, n: nat)
    ensures Times(j, n) == Times(n, j)
  {
    if n == 0 {
      TimesZero(j);
    } else {
      TimesCommutes(j, n - 1);
      TimesNext(j, n - 1);
    }
  }

  lemma {:induction false} TimesZero(j: nat)
    ensures Times(j, 0) == 0
  {
    if j > 0 { TimesZero(j - 1); }
  }

  lemma {:induction false} TimesGrows(i: nat, j: nat, n: nat)
    requires i <= j
    ensures Times(i, n) <= Times(j, n)
  {
    if i < j { TimesGrows(i, j - 1, n); }
  }

  lemma {:induction false} MultipleHasNoRest(j: nat, n: nat)
    requires n > 0
    ensures Rest(Times(j, n), n) == 0
  {
    if j > 0 { MultipleHasNoRest(j - 1, n); }
  }

  lemma {:induction false} ProductGrows(a: nat, b: nat, n: nat)
    requires a <= b
    ensures a * n <= b * n
  {
  }

  lemma {:induction false} QuotientIs(a: nat, n: nat, q: nat)
    requires n > 0 && q * n <= a < q * n + n
    ensures a / n == q
  {
    var k := a / n;
    if k < q {
      ProductGrows(k + 1, q, n);
    } else if q < k {
      ProductGrows(q + 1, k, n);
    }
  }

  lemma {:induction false} QuotientGrows(a: nat, b: nat, n: nat)
    requires n > 0 && a <= b
    ensures a / n <= b / n
  {
    if a / n > b / n { ProductGrows(b / n + 1, a / n, n); }
  }

  lemma {:induction false} QuotientOfSum(a: nat, k: nat, n: nat)
    requires n > 0
    ensures (a + k * n) / n == a / n + k
  {
    assert (a / n + k) * n == a / n * n + k * n;
    QuotientIs(a + k * n, n, a / n + k);
  }

  lemma {:induction false} Distribute(q: nat, n: nat, r: nat, m: nat)
    ensures (q * n + r) * m == q * (m * n) + r * m
  {
    calc {
      (q * n + r) * m;
      (q * n) * m + r * m;
      q * (m * n) + r * m;
    }
  }

  lemma {:induction false} Compose(a: nat, m: nat, n: nat, b: nat, q: nat, r: nat)
    requires b * m <= a < b * m + m && r < n && b == q * n + r
    ensures q * (m * n) <= a < q * (m * n) + m * n
  {
    Distribute(q, n, r, m);
    ProductGrows(r + 1, n, m);
    Distribute(r, 1, 1, m);
  }

  lemma {:induction false} QuotientOfQuotient(a: nat, m: nat, n: nat)
    requires m > 0 && n > 0 && m * n > 0
    ensures a / m / n == a / (m * n)
  {
    Compose(a, m, n, a / m, a / m / n, a / m % n);
    QuotientIs(a, m * n, a / m / n);
  }

  /** a / n rounded up. */
  function Ceil(a: nat, n: nat): nat
    requires n > 0
  {
    Quot(a + n - 1, n)
  }

  lemma {:induction false} CeilIs(a: nat, n: nat)
    requires n > 0
    ensures Ceil(a, n) == (a + n - 1) / n
  {
    QuotRestAre(a + n - 1, n);
  }

  lemma {:induction false} CeilStep(a: nat, n: nat)
    requires n > 0
    ensures Ceil(a + 1, n) == Ceil(a, n) + if Rest(a, n) == 0 then 1 else 0
  {
    assert Quot(a + n, n) == 1 + Quot(a, n);
    if a > 0 { assert Quot(a + n - 1, n) == 1 + Quot(a - 1, n); }
    if a >= n { CeilStep(a - n, n); }
  }

  lemma {:induction false} CeilNext(a: nat, n: nat)
    requires n > 0
    ensures Ceil(a + 1, n) == Ceil(a, n) + if a % n == 0 then 1 else 0
  {
    CeilStep(a, n);
    QuotRestAre(a, n);
  }

  lemma {:induction false} CeilOfCeil(a: nat, m: nat, n: nat)
    requires m > 0 && n > 0 && m * n > 0
    ensures Ceil(Ceil(a, m), n) == Ceil(a, m * n)
  {
    CeilIs(a, m);
    CeilIs(Ceil(a, m), n);
    CeilIs(a, m * n);
    QuotientOfSum(a + m - 1, n - 1, m);
    assert (n - 1) * m == m * n - m;
    QuotientOfQuotient(a + m * n - 1, m, n);
  }

  lemma {:induction false} Multiple(k: nat, n: nat)
    requires n > 0
    ensures (k * n) % n == 0
  {
    QuotientIs(k * n, n, k);
  }

  /** The multiples of n below a are those below Ceil(a, n). */
  lemma {:induction false} BelowCeil(a: nat, n: nat, i: nat)
    requires n > 0
    ensures i < Ceil(a, n) <==> Times(i, n) < a
  {
    var q := Ceil(a, n);
    QuotTimesRest(a + n - 1, n);
    if i < q {
      TimesGrows(i + 1, q, n);
    } else {
      TimesGrows(q, i, n);
    }
  }
}
