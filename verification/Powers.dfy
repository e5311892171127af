/** Powers, and the arithmetic of the bounds stated with them. */
module Powers {
  function Pow(b: nat, e: nat): nat {
    if e == 0 then 1 else b * Pow(b, e - 1)
  }

  lemma Associate(a: nat, b: nat, c: nat)
    ensures a * (b * c) == (a * b) * c
  {
  }

  lemma {:induction false} PowAdd(b: nat, d: nat, e: nat)
    ensures Pow(b, d + e) == Pow(b, d) * Pow(b, e)
  {
    if d > 0 {
      PowAdd(b, d - 1, e);
      Associate(b, Pow(b, d - 1), Pow(b, e));
    }
  }

  lemma MulMonotone(a: nat, b: nat, c: nat, d: nat)
    requires a <= c && b <= d
    ensures a * b <= c * d
  {
    assert a * b <= c * b <= c * d;
  }

  lemma {:induction false} PowMonotone(b: nat, d: nat, e: nat)
    requires b > 0 && d <= e
    ensures 1 <= Pow(b, d) <= Pow(b, e)
    decreases e
  {
    if e > 0 {
      if d < e {
        PowMonotone(b, d, e - 1);
        MulMonotone(1, Pow(b, e - 1), b, Pow(b, e - 1));
      } else {
        PowMonotone(b, d - 1, e - 1);
        MulMonotone(1, Pow(b, e - 1), b, Pow(b, e - 1));
      }
    }
  }

  lemma {:induction false} PowProduct(a: nat, b: nat, e: nat)
    ensures Pow(a * b, e) == Pow(a, e) * Pow(b, e)
  {
    if e > 0 {
      PowProduct(a, b, e - 1);
      Shuffle(a, b, Pow(a, e - 1), Pow(b, e - 1));
    }
  }

  lemma Shuffle(a: nat, b: nat, p: nat, q: nat)
    ensures (a * b) * (p * q) == (a * p) * (b * q)
  {
    assert b * (p * q) == (b * p) * q == (p * b) * q == p * (b * q);
    assert (a * b) * (p * q) == a * (b * (p * q)) == a * (p * (b * q)) == (a * p) * (b * q);
  }

  lemma {:induction false} PowBase(a: nat, b: nat, e: nat)
    requires a <= b
    ensures Pow(a, e) <= Pow(b, e)
  {
    if e > 0 {
      PowBase(a, b, e - 1);
      MulMonotone(a, Pow(a, e - 1), b, Pow(b, e - 1));
    }
  }

  /** Two bounds of different degree add up to one of the higher degree. */
  lemma BoundSum(N: nat, v: nat, c: nat, d: nat, w: nat, k: nat, e: nat, top: nat)
    requires N > 0 && v <= c * Pow(N, d) && w <= k * Pow(N, e) && d <= top && e <= top
    ensures v + w <= (c + k) * Pow(N, top)
  {
    PowMonotone(N, d, top);
    PowMonotone(N, e, top);
    MulMonotone(c, Pow(N, d), c, Pow(N, top));
    MulMonotone(k, Pow(N, e), k, Pow(N, top));
    assert (c + k) * Pow(N, top) == c * Pow(N, top) + k * Pow(N, top);
  }

  lemma OneMore(v: nat, c: nat, p: nat)
    requires v <= c * p && p >= 1
    ensures 1 + v <= (1 + c) * p
  {
    assert (1 + c) * p == p + c * p;
  }

  lemma Regroup(v: nat, c: nat, p: nat, a: nat, b: nat)
    requires v <= c * p && p <= a * b
    ensures v <= (c * a) * b
  {
    MulMonotone(c, p, c, a * b);
    assert c * (a * b) == (c * a) * b;
  }

  lemma {:induction false} PowOfOne(e: nat)
    ensures Pow(1, e) == 1
  {
    if e > 0 {
      PowOfOne(e - 1);
    }
  }

  lemma OneTimesMore(k: nat, b: nat)
    requires k > 0
    ensures k * b == b + (k - 1) * b
  {
  }

  lemma RepeatArithmetic(min: nat, N: nat, room: nat, c: nat, P: nat)
    requires room + 1 <= min + N && N >= 1 && P >= 1
    ensures (room + 1) * (1 + c * P) <= ((min + 1) * (1 + c)) * (N * P)
  {
    OneMore(c * P, c, P);
    MulMonotone(min, 1, min, N);
    assert (min + 1) * N == min * N + N;
    MulMonotone(room + 1, 1 + c * P, (min + 1) * N, (1 + c) * P);
    Shuffle(min + 1, N, 1 + c, P);
    Shuffle(min + 1, 1 + c, N, P);
  }

  /** The work of `k` iterations. */
  function Iterations(k: nat, w: nat): nat {
    if k == 0 then 0 else 1 + w + Iterations(k - 1, w)
  }

  lemma {:induction false} IterationsIsProduct(k: nat, w: nat)
    ensures Iterations(k, w) == k * (1 + w)
  {
    if k > 0 {
      IterationsIsProduct(k - 1, w);
    }
  }
}
