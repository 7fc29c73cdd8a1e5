/** The host capacity `k³/4` of a fat tree, the 32-bit arithmetic the main builder
    computes it with, and the utilization figure derived from it. */
module Capacity {
  import opened Switches
  import opened IndexArith
  import opened Wiring

  /** The host capacity of the fat tree: `k` pods of `k/2` edge switches with `k/2`
      hosts each. */
  function MaxHosts(k: int): (r: int)
    requires ValidK(k)
    ensures r == PodTierCount(k) * (k / 2) && r > 0
  {
    var h := k / 2;
    assert k * k * k == 4 * (k * h * h);
    MulLeMono(1, k * h, h);
    MulLeMono(1, k, h);
    k * k * k / 4
  }

  /** A Java `int` result: the value reduced into `[-2³¹, 2³¹)` with wrap-around. */
  function Int32(x: int): (r: int)
    ensures -0x8000_0000 <= r < 0x8000_0000 && (r - x) % 0x1_0000_0000 == 0
  {
    var m := x % 0x1_0000_0000;
    if m >= 0x8000_0000 then m - 0x1_0000_0000 else m
  }

  /** Java's integer division, which truncates toward zero. */
  function JavaDiv(a: int, b: int): (r: int)
    requires b > 0
    ensures a >= 0 ==> r * b <= a < r * b + b
    ensures a < 0 ==> r * b - b < a <= r * b
  {
    if a >= 0 then a / b else -((-a) / b)
  }

  /** `(k * k * k) / 4` as the main builder computes it, on 32-bit `int`s. */
  function MaxHostsInt32(k: int): (r: int)
    ensures -0x2000_0000 <= r < 0x2000_0000
  {
    JavaDiv(Int32(Int32(k * k) * k), 4)
  }

  /** For every even `k` up to 1290 the 32-bit computation gives the true capacity. */
  lemma MaxHostsInt32BelowOverflow(k: int)
    requires ValidK(k) && k <= 1290
    ensures MaxHostsInt32(k) == MaxHosts(k)
  {
    MulLeMono(k, 1290, k);
    MulLeMono(k, 1290, 1290);
    assert k * k <= 1290 * 1290;
    MulLeMono(k * k, 1290 * 1290, k);
    MulLeMono(k, 1290, 1290 * 1290);
    assert k * k * k <= 2146689000;
    assert Int32(k * k) == k * k;
    assert Int32(k * k * k) == k * k * k;
  }

  /** At `k = 1292`, the smallest even `k` whose cube exceeds `2³¹ - 1`, the 32-bit
      capacity wraps to a negative number, so `min(n, maxHosts)` is negative: the
      host loop places nobody, and the stats record a negative host count at a
      utilization of exactly 100 %. */
  lemma MaxHostsInt32Overflows(n: nat)
    ensures MaxHosts(1292) == 539172272
    ensures MaxHostsInt32(1292) == -534569552
    ensures Min(n, MaxHostsInt32(1292)) < 0
    ensures Utilization(Min(n, MaxHostsInt32(1292)), MaxHostsInt32(1292)) == 100.0
  {
    assert 1292 * 1292 == 1669264;
    assert Int32(1669264) == 1669264;
    assert 1669264 * 1292 == 2156689088;
    assert Int32(2156689088) == -2138278208;
  }

  /** The utilization percentage `connected·100/max`, and 0 when `max` is 0. */
  function Utilization(connected: int, max: int): (r: real)
    ensures max == 0 ==> r == 0.0
    ensures max != 0 ==> r * (max as real) == (connected as real) * 100.0
    ensures 0 <= connected <= max ==> 0.0 <= r <= 100.0
  {
    if max == 0 then 0.0 else (connected as real) * 100.0 / (max as real)
  }
}
