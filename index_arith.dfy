/** Facts about the index arithmetic `pod * (k/2) + position` that lays pods out
    contiguously in a tier list. */
module IndexArith {

  /** Division by the pod size recovers pod and position from a tier index. */
  lemma DivModOf(q: int, r: int, h: int)
    requires h > 0 && 0 <= r < h
    ensures (q * h + r) / h == q && (q * h + r) % h == r
  {
    var n := q * h + r;
    var q', r' := n / h, n % h;
    assert (q - q') * h == r' - r;
    if q - q' >= 1 {
      MulLeMono(1, q - q', h);
    } else if q - q' <= -1 {
      MulLeMono(q - q', -1, h);
    }
  }

  lemma MulLeMono(a: int, b: int, h: int)
    requires a <= b && h >= 0
    ensures a * h <= b * h
  {
    assert b * h - a * h == (b - a) * h;
  }

  /** Position `r` of block `q` lies inside a list of `n` blocks of size `h`. */
  lemma SlotInRange(q: int, r: int, h: int, n: int)
    requires h > 0 && 0 <= q < n && 0 <= r < h
    ensures 0 <= q * h <= q * h + r < q * h + h <= n * h
  {
    MulLeMono(0, q, h);
    MulLeMono(q + 1, n, h);
  }

  /** Every index of a tier of `n` blocks of size `h` splits into a block and a position. */
  lemma SplitIndex(i: int, h: int, n: int)
    requires h > 0 && 0 <= i < n * h
    ensures 0 <= i / h < n && 0 <= i % h < h && i == (i / h) * h + i % h
  {
    if i / h >= n {
      MulLeMono(n, i / h, h);
    }
  }

  /** `n` blocks of size `h` laid end to end, counted block by block. */
  function Blocks(n: nat, h: int): int
  {
    if n == 0 then 0 else Blocks(n - 1, h) + h
  }

  lemma {:induction false} BlocksIsProduct(n: nat, h: int)
    ensures Blocks(n, h) == n * h
  {
    if n > 0 {
      BlocksIsProduct(n - 1, h);
    }
  }
}
