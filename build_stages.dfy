/** The intermediate states the loops of `connectSwitches` pass through, and the
    steps between them. The loops visit switches in tier order, so each state is
    "switches before index `n` are done, switch `n` is part-way, the rest untouched". */
module BuildStages {
  import opened Switches
  import opened IndexArith
  import opened Wiring

  /** Aggregation switches before `n` hold all their uplinks, switch `n` the first `m`,
      later ones none; no downlinks yet. */
  ghost predicate AggUplinkStage(k: int, agg: seq<Switch>, n: int, m: int)
    requires ValidK(k) && 0 <= m <= k / 2
  {
    |agg| == PodTierCount(k) &&
    forall i :: 0 <= i < |agg| ==>
      agg[i] == Switch(AggUplinks(k, i)[..if i < n then k / 2 else if i == n then m else 0], [], [])
  }

  /** Core switches before `n` hold their first `pod + 1` downlinks, the others their
      first `pod`. */
  ghost predicate CoreDownlinkStage(k: int, core: seq<Switch>, pod: int, n: int)
    requires ValidK(k) && 0 <= pod <= k && (pod == k ==> n <= 0)
  {
    |core| == CoreCount(k) &&
    forall c :: 0 <= c < |core| ==>
      core[c] == Switch([], CoreDownlinks(k, c)[..if c < n then pod + 1 else pod], [])
  }

  /** Edge switches before `n` hold all their uplinks, switch `n` the first `m`, later
      ones none. */
  ghost predicate EdgeUplinkStage(k: int, edges: seq<Switch>, n: int, m: int)
    requires ValidK(k) && 0 <= m <= k / 2
  {
    |edges| == PodTierCount(k) &&
    forall i :: 0 <= i < |edges| ==>
      edges[i] == Switch(PodBlock(k, i)[..if i < n then k / 2 else if i == n then m else 0], [], [])
  }

  /** Aggregation switches hold all their uplinks; those before `lo` all their
      downlinks, those in `[lo, mid)` the first `e + 1`, those in `[mid, hi)` the
      first `e`, later ones none. */
  ghost predicate AggDownlinkStage(k: int, agg: seq<Switch>, lo: int, mid: int, hi: int, e: int)
    requires ValidK(k) && 0 <= e <= k / 2 && (lo < mid ==> e < k / 2)
  {
    |agg| == PodTierCount(k) &&
    forall i :: 0 <= i < |agg| ==>
      agg[i] == Switch(AggUplinks(k, i),
        PodBlock(k, i)[..if i < lo then k / 2 else if i < mid then e + 1 else if i < hi then e else 0], [])
  }

  lemma StartStages(k: int)
    requires ValidK(k)
    ensures AggUplinkStage(k, Unwired(PodTierCount(k)), 0, 0)
    ensures CoreDownlinkStage(k, Unwired(CoreCount(k)), 0, 0)
    ensures EdgeUplinkStage(k, Unwired(PodTierCount(k)), 0, 0)
  {
  }

  /** A part-way switch with all `k/2` uplinks is a done one. */
  lemma AggUplinkNext(k: int, agg: seq<Switch>, n: int)
    requires ValidK(k) && AggUplinkStage(k, agg, n, k / 2)
    ensures AggUplinkStage(k, agg, n + 1, 0)
  {
  }

  lemma EdgeUplinkNext(k: int, edges: seq<Switch>, n: int)
    requires ValidK(k) && EdgeUplinkStage(k, edges, n, k / 2)
    ensures EdgeUplinkStage(k, edges, n + 1, 0)
  {
  }

  /** Once every core switch has its `pod + 1`-th downlink, the next pod starts. */
  lemma CoreDownlinkNext(k: int, core: seq<Switch>, pod: int)
    requires ValidK(k) && 0 <= pod < k && CoreDownlinkStage(k, core, pod, CoreCount(k))
    ensures CoreDownlinkStage(k, core, pod + 1, 0)
  {
  }

  lemma CoreDownlinkDone(k: int, core: seq<Switch>)
    requires ValidK(k) && CoreDownlinkStage(k, core, k, 0)
    ensures core == CoreTier(k)
  {
    assert forall c :: 0 <= c < |core| ==> core[c] == CoreTier(k)[c];
  }

  lemma EdgeUplinkDone(k: int, edges: seq<Switch>)
    requires ValidK(k) && EdgeUplinkStage(k, edges, PodTierCount(k), 0)
    ensures edges == EdgeTier(k)
  {
    assert forall i :: 0 <= i < |edges| ==> edges[i] == EdgeTier(k)[i];
  }

  /** With all uplinks in place, the downlink loops start from nothing. */
  lemma AggDownlinkStart(k: int, agg: seq<Switch>)
    requires ValidK(k) && AggUplinkStage(k, agg, PodTierCount(k), 0)
    ensures AggDownlinkStage(k, agg, 0, 0, 0, 0)
  {
  }

  /** Opening pod `[lo, hi)`: its switches have no downlinks yet. */
  lemma AggDownlinkOpen(k: int, agg: seq<Switch>, lo: int, hi: int)
    requires ValidK(k) && AggDownlinkStage(k, agg, lo, lo, lo, 0)
    ensures AggDownlinkStage(k, agg, lo, lo, hi, 0)
  {
  }

  /** When every switch of the pod has its `e + 1`-th downlink, the next edge switch starts. */
  lemma AggDownlinkRow(k: int, agg: seq<Switch>, lo: int, hi: int, e: int)
    requires ValidK(k) && 0 <= e < k / 2 && lo < hi && AggDownlinkStage(k, agg, lo, hi, hi, e)
    ensures AggDownlinkStage(k, agg, lo, lo, hi, e + 1)
  {
  }

  /** A pod whose switches all hold `k/2` downlinks is done. */
  lemma AggDownlinkClose(k: int, agg: seq<Switch>, lo: int, hi: int)
    requires ValidK(k) && lo <= hi && AggDownlinkStage(k, agg, lo, lo, hi, k / 2)
    ensures AggDownlinkStage(k, agg, hi, hi, hi, 0)
  {
  }

  lemma AggDownlinkDone(k: int, agg: seq<Switch>)
    requires ValidK(k) && AggDownlinkStage(k, agg, PodTierCount(k), PodTierCount(k), PodTierCount(k), 0)
    ensures agg == AggregationTier(k)
  {
    assert forall i :: 0 <= i < |agg| ==> agg[i] == AggregationTier(k)[i];
  }

  /** Aggregation switch `n`, part-way at `m`, takes its next uplink. */
  lemma AggUplinkStep(k: int, agg: seq<Switch>, n: int, m: int, c: int)
    requires ValidK(k) && 0 <= m < k / 2 && AggUplinkStage(k, agg, n, m) && 0 <= n < |agg|
    requires c == AggUplinks(k, n)[m]
    ensures AggUplinkStage(k, agg[n := AddUplink(agg[n], c)], n, m + 1)
  {
    assert AggUplinks(k, n)[..m] + [c] == AggUplinks(k, n)[..m + 1];
  }

  /** Core switch `n` takes its downlink for pod `pod`. */
  lemma CoreDownlinkStep(k: int, core: seq<Switch>, pod: int, n: int, a: int)
    requires ValidK(k) && 0 <= pod < k && CoreDownlinkStage(k, core, pod, n) && 0 <= n < |core|
    requires a == CoreDownlinks(k, n)[pod]
    ensures CoreDownlinkStage(k, core[n := AddDownlink(core[n], a)], pod, n + 1)
  {
    assert CoreDownlinks(k, n)[..pod] + [a] == CoreDownlinks(k, n)[..pod + 1];
  }

  /** Edge switch `n`, part-way at `m`, takes its next uplink. */
  lemma EdgeUplinkStep(k: int, edges: seq<Switch>, n: int, m: int, a: int)
    requires ValidK(k) && 0 <= m < k / 2 && EdgeUplinkStage(k, edges, n, m) && 0 <= n < |edges|
    requires a == PodBlock(k, n)[m]
    ensures EdgeUplinkStage(k, edges[n := AddUplink(edges[n], a)], n, m + 1)
  {
    assert PodBlock(k, n)[..m] + [a] == PodBlock(k, n)[..m + 1];
  }

  /** Aggregation switch `mid` takes its `e`-th downlink. */
  lemma AggDownlinkStep(k: int, agg: seq<Switch>, lo: int, mid: int, hi: int, e: int, x: int)
    requires ValidK(k) && 0 <= e < k / 2 && lo <= mid < hi && 0 <= mid < |agg|
    requires AggDownlinkStage(k, agg, lo, mid, hi, e)
    requires x == PodBlock(k, mid)[e]
    ensures AggDownlinkStage(k, agg[mid := AddDownlink(agg[mid], x)], lo, mid + 1, hi, e)
  {
    assert PodBlock(k, mid)[..e] + [x] == PodBlock(k, mid)[..e + 1];
  }

  /** The index arithmetic of the innermost loop of the first nest: aggregation switch
      `pod·(k/2) + aggSw` and core switch `aggSw·(k/2) + coreSw` are in range, and
      each is the other's next link. */
  lemma AggCoreIndices(k: int, pod: int, aggSw: int, coreSw: int, aggIndex: int, coreIndex: int)
    requires ValidK(k) && 0 <= pod < k && 0 <= aggSw < k / 2 && 0 <= coreSw < k / 2
    requires aggIndex == pod * (k / 2) + aggSw && coreIndex == aggSw * (k / 2) + coreSw
    ensures 0 <= aggIndex < PodTierCount(k) && 0 <= coreIndex < CoreCount(k)
    ensures AggUplinks(k, aggIndex)[coreSw] == coreIndex
    ensures CoreDownlinks(k, coreIndex)[pod] == aggIndex
  {
    var h := k / 2;
    SlotInRange(pod, aggSw, h, k);
    DivModOf(pod, aggSw, h);
    SlotInRange(aggSw, coreSw, h, h);
    DivModOf(aggSw, coreSw, h);
  }

  /** The index arithmetic of the innermost loop of the second nest. */
  lemma EdgeAggIndices(k: int, pod: int, edgeSw: int, aggSw: int, edgeIndex: int, aggIndex: int)
    requires ValidK(k) && 0 <= pod < k && 0 <= edgeSw < k / 2 && 0 <= aggSw < k / 2
    requires edgeIndex == pod * (k / 2) + edgeSw && aggIndex == pod * (k / 2) + aggSw
    ensures 0 <= edgeIndex < PodTierCount(k) && 0 <= aggIndex < PodTierCount(k)
    ensures PodBlock(k, edgeIndex)[aggSw] == aggIndex
    ensures PodBlock(k, aggIndex)[edgeSw] == edgeIndex
  {
    var h := k / 2;
    SlotInRange(pod, edgeSw, h, k);
    DivModOf(pod, edgeSw, h);
    SlotInRange(pod, aggSw, h, k);
    DivModOf(pod, aggSw, h);
  }

  /** One pass of the innermost loop of the first nest: aggregation switch
      `pod·(k/2) + aggSw` gains core switch `aggSw·(k/2) + coreSw` as its next uplink,
      and that core switch gains it as its `pod`-th downlink. Both indices are in range. */
  lemma AggCoreStep(k: int, agg: seq<Switch>, core: seq<Switch>, pod: int, aggSw: int, coreSw: int,
                    aggIndex: int, coreIndex: int)
    requires ValidK(k) && 0 <= pod < k && 0 <= aggSw < k / 2 && 0 <= coreSw < k / 2
    requires aggIndex == pod * (k / 2) + aggSw && coreIndex == aggSw * (k / 2) + coreSw
    requires AggUplinkStage(k, agg, aggIndex, coreSw)
    requires CoreDownlinkStage(k, core, pod, coreIndex)
    ensures 0 <= aggIndex < |agg| && 0 <= coreIndex < |core|
    ensures AggUplinkStage(k, agg[aggIndex := AddUplink(agg[aggIndex], coreIndex)], aggIndex, coreSw + 1)
    ensures CoreDownlinkStage(k, core[coreIndex := AddDownlink(core[coreIndex], aggIndex)], pod, coreIndex + 1)
  {
    AggCoreIndices(k, pod, aggSw, coreSw, aggIndex, coreIndex);
    AggUplinkStep(k, agg, aggIndex, coreSw, coreIndex);
    CoreDownlinkStep(k, core, pod, coreIndex, aggIndex);
  }

  /** One pass of the innermost loop of the second nest: edge switch
      `pod·(k/2) + edgeSw` gains aggregation switch `pod·(k/2) + aggSw` as its next
      uplink, and that aggregation switch gains it as its next downlink. */
  lemma EdgeAggStep(k: int, edges: seq<Switch>, agg: seq<Switch>, pod: int, edgeSw: int, aggSw: int,
                    podBase: int, edgeIndex: int, aggIndex: int)
    requires ValidK(k) && 0 <= pod < k && 0 <= edgeSw < k / 2 && 0 <= aggSw < k / 2
    requires podBase == pod * (k / 2) && edgeIndex == podBase + edgeSw && aggIndex == podBase + aggSw
    requires EdgeUplinkStage(k, edges, edgeIndex, aggSw)
    requires AggDownlinkStage(k, agg, podBase, aggIndex, podBase + k / 2, edgeSw)
    ensures 0 <= edgeIndex < |edges| && 0 <= aggIndex < |agg|
    ensures EdgeUplinkStage(k, edges[edgeIndex := AddUplink(edges[edgeIndex], aggIndex)], edgeIndex, aggSw + 1)
    ensures AggDownlinkStage(k, agg[aggIndex := AddDownlink(agg[aggIndex], edgeIndex)],
                             podBase, aggIndex + 1, podBase + k / 2, edgeSw)
  {
    EdgeAggIndices(k, pod, edgeSw, aggSw, edgeIndex, aggIndex);
    EdgeUplinkStep(k, edges, edgeIndex, aggSw, aggIndex);
    AggDownlinkStep(k, agg, podBase, aggIndex, podBase + k / 2, edgeSw, edgeIndex);
  }
}
