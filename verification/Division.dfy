/** Integer division by way of its quotient and remainder. */
module Division {

  lemma {:induction false} DivUnique(a: nat, t: nat, q: nat, r: nat)
    requires t > 0 && a == t * q + r && r < t
    ensures a / t == q
  {
    var gap := a / t - q;
    assert t * gap == t * (a / t) - t * q;
    assert t * gap == r - a % t;
    assert 0 - t < t * gap < t;
    OnlyZeroMultiple(t, gap);
  }

  lemma {:induction false} OnlyZeroMultiple(t: nat, gap: int)
    requires 0 - t < t * gap < t
    ensures gap == 0
  {
    if gap > 0 {
      MulMonotone(t, 1, gap);
    } else if gap < 0 {
      assert t * (0 - gap) == 0 - t * gap;
      MulMonotone(t, 1, 0 - gap);
    }
  }

  lemma {:induction false} MulMonotone(c: nat, a: nat, b: nat)
    requires a <= b
    ensures c * a <= c * b
  {
  }
}
