/** The switch graph that `FatTreeNetwork.connectSwitches` builds for a k-ary fat
    tree, stated per switch as a function of `k` and the switch's index, and the
    properties of that graph. Throughout, `h` stands for `k / 2`, the number of
    aggregation (and edge) switches in one pod. */
module Wiring {
  import opened Switches
  import opened IndexArith

  /** The parameter check of the main constructor: a positive even `k`. */
  predicate ValidK(k: int) { k > 0 && k % 2 == 0 }

  /** Number of core switches, `(k/2)²`. */
  function CoreCount(k: int): int { (k / 2) * (k / 2) }

  /** Number of aggregation switches, and of edge switches: `k` pods of `k/2`. */
  function PodTierCount(k: int): int { k * (k / 2) }

  /** The `k/2` indices of the pod that contains tier index `i`, in ascending order:
      the aggregation switches an edge switch uplinks to, and the edge switches an
      aggregation switch has as downlinks. */
  function PodBlock(k: int, i: int): seq<int>
    requires ValidK(k)
  {
    seq(k / 2, x => (i / (k / 2)) * (k / 2) + x)
  }

  /** The core switches of group `i mod (k/2)`: the uplinks of aggregation switch `i`. */
  function AggUplinks(k: int, i: int): seq<int>
    requires ValidK(k)
  {
    seq(k / 2, j => (i % (k / 2)) * (k / 2) + j)
  }

  /** Aggregation switch `c / (k/2)` of every pod, in pod order: the downlinks of core switch `c`. */
  function CoreDownlinks(k: int, c: int): seq<int>
    requires ValidK(k)
  {
    seq(k, p => p * (k / 2) + c / (k / 2))
  }

  function CoreTier(k: int): (r: seq<Switch>)
    requires ValidK(k)
    ensures |r| == CoreCount(k)
  {
    seq(CoreCount(k), c => Switch([], CoreDownlinks(k, c), []))
  }

  function AggregationTier(k: int): (r: seq<Switch>)
    requires ValidK(k)
    ensures |r| == PodTierCount(k)
  {
    seq(PodTierCount(k), i => Switch(AggUplinks(k, i), PodBlock(k, i), []))
  }

  function EdgeTier(k: int): (r: seq<Switch>)
    requires ValidK(k)
    ensures |r| == PodTierCount(k)
  {
    seq(PodTierCount(k), i => Switch(PodBlock(k, i), [], []))
  }

  /** The edge tier as wired, whatever hosts have been attached since. */
  ghost predicate EdgesWired(k: int, edges: seq<Switch>)
    requires ValidK(k)
  {
    |edges| == PodTierCount(k) &&
    forall i :: 0 <= i < |edges| ==> edges[i].(hosts := []) == EdgeTier(k)[i]
  }

  /** Tier sizes: `(k/2)²` core switches, and `k` pods of `k/2` aggregation and
      `k/2` edge switches; a switch index splits uniquely into pod and position. */
  lemma TierSizes(k: int, i: int)
    requires ValidK(k) && 0 <= i < PodTierCount(k)
    ensures |CoreTier(k)| == (k / 2) * (k / 2) > 0
    ensures |AggregationTier(k)| == |EdgeTier(k)| == k * (k / 2) > 0
    ensures 0 <= i / (k / 2) < k && i == (i / (k / 2)) * (k / 2) + i % (k / 2)
  {
    SplitIndex(i, k / 2, k);
    MulLeMono(1, k / 2, k / 2);
    MulLeMono(1, k, k / 2);
  }

  /** Membership in a pod block is membership in the same pod. */
  lemma InPodBlock(k: int, i: int, x: int)
    requires ValidK(k) && 0 <= i
    ensures x in PodBlock(k, i) <==> 0 <= x && x / (k / 2) == i / (k / 2)
  {
    var h := k / 2;
    if x in PodBlock(k, i) {
      var e :| 0 <= e < h && PodBlock(k, i)[e] == x;
      DivModOf(i / h, e, h);
    }
    if 0 <= x && x / h == i / h {
      assert PodBlock(k, i)[x % h] == x;
    }
  }

  /** Membership in the uplinks of aggregation switch `i`: exactly the core switches
      whose group `c / (k/2)` is the position `i mod (k/2)` of `i` in its pod. */
  lemma InAggUplinks(k: int, i: int, c: int)
    requires ValidK(k)
    ensures c in AggUplinks(k, i) <==> 0 <= c < CoreCount(k) && c / (k / 2) == i % (k / 2)
  {
    var h := k / 2;
    if c in AggUplinks(k, i) {
      var j :| 0 <= j < h && AggUplinks(k, i)[j] == c;
      DivModOf(i % h, j, h);
      SlotInRange(i % h, j, h, h);
    }
    if 0 <= c < CoreCount(k) && c / h == i % h {
      assert AggUplinks(k, i)[c % h] == c;
    }
  }

  /** Membership in the downlinks of core switch `c`: exactly the aggregation switches
      whose position in their pod is the group of `c`. */
  lemma InCoreDownlinks(k: int, c: int, i: int)
    requires ValidK(k) && 0 <= c < CoreCount(k)
    ensures i in CoreDownlinks(k, c) <==> 0 <= i < PodTierCount(k) && i % (k / 2) == c / (k / 2)
  {
    var h := k / 2;
    SplitIndex(c, h, h);
    if i in CoreDownlinks(k, c) {
      var p :| 0 <= p < k && CoreDownlinks(k, c)[p] == i;
      DivModOf(p, c / h, h);
      SlotInRange(p, c / h, h, k);
    }
    if 0 <= i < PodTierCount(k) && i % h == c / h {
      SplitIndex(i, h, k);
      assert CoreDownlinks(k, c)[i / h] == i;
    }
  }

  /** Aggregation switch `a` of pod `p` (tier index `i = p·(k/2)+a`) uplinks to the
      core switches `a·(k/2) .. a·(k/2)+k/2-1` in ascending order, all of which exist. */
  lemma AggregationUplinksAt(k: int, p: int, a: int, i: int)
    requires ValidK(k) && 0 <= p < k && 0 <= a < k / 2 && i == p * (k / 2) + a
    ensures 0 <= i < PodTierCount(k)
    ensures AggregationTier(k)[i].uplinks == seq(k / 2, j => a * (k / 2) + j)
    ensures forall c :: c in AggregationTier(k)[i].uplinks ==> 0 <= c < CoreCount(k)
  {
    var h := k / 2;
    SlotInRange(p, a, h, k);
    DivModOf(p, a, h);
    var ups := AggregationTier(k)[i].uplinks;
    forall c | c in ups ensures 0 <= c < CoreCount(k) {
      var j :| 0 <= j < h && ups[j] == c;
      SlotInRange(a, j, h, h);
    }
  }

  /** Core switch `c` has `k` downlinks: aggregation switch `c / (k/2)` of each pod,
      in pod order, all of which exist. */
  lemma CoreDownlinksAt(k: int, c: int)
    requires ValidK(k) && 0 <= c < CoreCount(k)
    ensures 0 <= c / (k / 2) < k / 2
    ensures |CoreTier(k)[c].downlinks| == k
    ensures forall p :: 0 <= p < k ==>
      CoreTier(k)[c].downlinks[p] == p * (k / 2) + c / (k / 2) < PodTierCount(k)
  {
    var h := k / 2;
    SplitIndex(c, h, h);
    forall p | 0 <= p < k ensures p * h + c / h < PodTierCount(k) {
      SlotInRange(p, c / h, h, k);
    }
  }

  /** Edge switch `x` of pod `p` (tier index `i = p·(k/2)+x`) uplinks to the `k/2`
      aggregation switches of its own pod in ascending order, all of which exist. */
  lemma EdgeUplinksAt(k: int, p: int, x: int, i: int)
    requires ValidK(k) && 0 <= p < k && 0 <= x < k / 2 && i == p * (k / 2) + x
    ensures 0 <= i < PodTierCount(k)
    ensures EdgeTier(k)[i].uplinks == seq(k / 2, a => p * (k / 2) + a)
    ensures forall y :: y in EdgeTier(k)[i].uplinks ==> 0 <= y < PodTierCount(k) && y / (k / 2) == p
  {
    var h := k / 2;
    SlotInRange(p, x, h, k);
    DivModOf(p, x, h);
    var ups := EdgeTier(k)[i].uplinks;
    forall y | y in ups ensures 0 <= y < PodTierCount(k) && y / h == p {
      var a :| 0 <= a < h && ups[a] == y;
      DivModOf(p, a, h);
      SlotInRange(p, a, h, k);
    }
  }

  /** Aggregation switch `x` of pod `p` (tier index `i = p·(k/2)+x`) has the `k/2`
      edge switches of its own pod as downlinks, in ascending order. */
  lemma AggregationDownlinksAt(k: int, p: int, x: int, i: int)
    requires ValidK(k) && 0 <= p < k && 0 <= x < k / 2 && i == p * (k / 2) + x
    ensures 0 <= i < PodTierCount(k)
    ensures AggregationTier(k)[i].downlinks == seq(k / 2, e => p * (k / 2) + e)
    ensures forall y :: y in AggregationTier(k)[i].downlinks ==> 0 <= y < PodTierCount(k) && y / (k / 2) == p
  {
    var h := k / 2;
    SlotInRange(p, x, h, k);
    DivModOf(p, x, h);
    var downs := AggregationTier(k)[i].downlinks;
    forall y | y in downs ensures 0 <= y < PodTierCount(k) && y / h == p {
      var e :| 0 <= e < h && downs[e] == y;
      DivModOf(p, e, h);
      SlotInRange(p, e, h, k);
    }
  }

  /** Core-to-aggregation links are recorded on both ends: an aggregation switch lists
      a core switch among its uplinks exactly when the core switch lists it among its
      downlinks. */
  lemma CoreLinksSymmetric(k: int, i: int, c: int)
    requires ValidK(k) && 0 <= i < PodTierCount(k) && 0 <= c < CoreCount(k)
    ensures c in AggregationTier(k)[i].uplinks <==> i in CoreTier(k)[c].downlinks
  {
    InAggUplinks(k, i, c);
    InCoreDownlinks(k, c, i);
  }

  /** Aggregation-to-edge links are recorded on both ends, and link exactly the
      switches of the same pod. */
  lemma PodLinksSymmetric(k: int, e: int, a: int)
    requires ValidK(k) && 0 <= e < PodTierCount(k) && 0 <= a < PodTierCount(k)
    ensures a in EdgeTier(k)[e].uplinks <==> a / (k / 2) == e / (k / 2)
    ensures e in AggregationTier(k)[a].downlinks <==> a / (k / 2) == e / (k / 2)
  {
    InPodBlock(k, e, a);
    InPodBlock(k, a, e);
  }
}
