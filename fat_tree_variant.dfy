/** The second fat-tree builder, kept beside the tests: it validates `k` only for
    parity, creates the three tiers in its constructor, counts the links it would
    make instead of recording them, and attaches hosts without a capacity cap. */
module FatTreeVariant {
  import opened Switches
  import opened IndexArith
  import opened Wiring
  import opened HostAssignment
  import opened Capacity
  import FatTree

  /** Why construction fails: the datacenter handle is dereferenced first, then `k`
      is checked for parity. */
  datatype ConstructionError = NullDatacenter | IllegalArgument

  datatype Result<T> = Success(value: T) | Failure(error: ConstructionError)

  /** A `double` quotient with a non-negative numerator: a number, or what IEEE
      division gives for a zero divisor. */
  datatype Ratio = Finite(value: real) | PositiveInfinity | NotANumber

  /** The statistics snapshot; `connectedHosts` is the size of the whole host list. */
  datatype NetworkStats = NetworkStats(
    k: int, coreSwitches: int, aggregationSwitches: int, edgeSwitches: int,
    connectedHosts: int, totalConnections: int, hostConnections: int, utilization: Ratio)

  /** Switch bandwidth in Gbps (`SWITCH_BW` is 10⁹ bits per second). */
  const SwitchBandwidthGbps: real := 1.0

  /** Number of aggregation switches, and of edge switches: the pod loops run only
      for positive `k`. */
  function PodTierSize(k: int): int
  {
    if k > 0 then k * (k / 2) else 0
  }

  /** The aggregation index core switch `c` is paired with in pod `pod`. */
  function AggTargetOfCore(k: int, c: int, pod: int): (r: int)
    requires k > 0 && k % 2 == 0 && c >= 0
    ensures r / (k / 2) == pod && r % (k / 2) == c % (k / 2)
  {
    DivModOf(pod, c % (k / 2), k / 2);
    pod * (k / 2) + c % (k / 2)
  }

  /** `numerator / denominator` in IEEE arithmetic, for a non-negative numerator. */
  function Divide(numerator: real, denominator: int): (r: Ratio)
    requires numerator >= 0.0
    ensures denominator != 0 <==> r.Finite?
    ensures denominator != 0 ==> r.value * (denominator as real) == numerator
    ensures denominator == 0 ==> (r == PositiveInfinity <==> numerator > 0.0)
  {
    if denominator != 0 then Finite(numerator / (denominator as real))
    else if numerator > 0.0 then PositiveInfinity
    else NotANumber
  }

  /** The utilization figure: the whole host list against `k³/4`. */
  function HostUtilization(hostCount: nat, k: int): (r: Ratio)
    ensures ValidK(k) ==> r.Finite? && r.value * (MaxHosts(k) as real) == (hostCount as real) * 100.0
  {
    var capacity := JavaDiv(k * k * k, 4);
    assert ValidK(k) ==> capacity == MaxHosts(k) by {
      if ValidK(k) {
        CubeQuarter(k);
      }
    }
    Divide((hostCount as real) * 100.0, capacity)
  }

  class FatTreeNetwork {
    const k: int
    var coreSwitches: seq<Switch>
    var aggregationSwitches: seq<Switch>
    var edgeSwitches: seq<Switch>
    var hosts: seq<Host>
    var totalConnections: int
    var hostConnections: int

    /** Tier sizes as the constructor creates them, and a host counter that never
        exceeds the host list or the edge tier's room. */
    ghost predicate Valid()
      reads this
    {
      && k % 2 == 0
      && |coreSwitches| == (k / 2) * (k / 2)
      && |aggregationSwitches| == PodTierSize(k)
      && |edgeSwitches| == PodTierSize(k)
      && 0 <= hostConnections <= |hosts|
      && (k > 0 ==> hostConnections <= |edgeSwitches| * (k / 2))
      && (k <= 0 ==> hostConnections == 0)
    }

    /** The constructor past its checks: create the tiers, then count the links. */
    constructor (k: int)
      requires k % 2 == 0
      ensures Valid() && this.k == k
      ensures coreSwitches == Unwired((k / 2) * (k / 2))
      ensures aggregationSwitches == Unwired(PodTierSize(k)) && edgeSwitches == Unwired(PodTierSize(k))
      ensures hosts == [] && hostConnections == 0
      ensures totalConnections == if k > 0 then k * k * k / 2 else 0
    {
      this.k := k;
      coreSwitches := [];
      aggregationSwitches := [];
      edgeSwitches := [];
      hosts := [];
      totalConnections := 0;
      hostConnections := 0;
      new;
      InitializeNetworkComponents();
      ConnectCoreToAggregation();
      ConnectAggregationToEdge();
      if k > 0 {
        TotalConnectionsClosedForm(k);
      }
    }

    /** Creates `(k/2)²` core switches, then `k/2` aggregation and `k/2` edge switches
        for each of the `k` pods, and empties the host list. */
    method InitializeNetworkComponents()
      requires k % 2 == 0
      modifies this`coreSwitches, this`aggregationSwitches, this`edgeSwitches, this`hosts
      ensures coreSwitches == Unwired((k / 2) * (k / 2))
      ensures aggregationSwitches == Unwired(PodTierSize(k)) && edgeSwitches == Unwired(PodTierSize(k))
      ensures hosts == []
    {
      coreSwitches := [];
      aggregationSwitches := [];
      edgeSwitches := [];
      hosts := [];
      var coreCount := (k / 2) * (k / 2);
      var i := 0;
      while i < coreCount
        modifies this`coreSwitches
        invariant 0 <= i && (i <= coreCount || i == 0) && coreSwitches == Unwired(i)
      {
        coreSwitches := coreSwitches + [NewSwitch];
        i := i + 1;
      }
      aggregationSwitches := CreatePodTier();
      edgeSwitches := CreatePodTier();
    }

    /** One of the two pod loops: `k/2` fresh switches for each of the `k` pods. */
    method CreatePodTier() returns (tier: seq<Switch>)
      requires k % 2 == 0
      ensures tier == Unwired(PodTierSize(k))
    {
      tier := [];
      var h := k / 2;
      ghost var n := 0;
      var pod := 0;
      while pod < k
        invariant 0 <= pod && (pod <= k || pod == 0)
        invariant n == pod * h && tier == Unwired(n)
      {
        var j := 0;
        while j < h
          invariant 0 <= j <= h && tier == Unwired(n + j)
        {
          tier := tier + [NewSwitch];
          j := j + 1;
        }
        n := n + h;
        pod := pod + 1;
      }
    }

    /** Every core switch is paired with one aggregation switch in each pod; each
        pairing is counted. The range check never fails, so `k` links are counted
        per core switch. */
    method ConnectCoreToAggregation()
      requires k % 2 == 0 && |aggregationSwitches| == PodTierSize(k)
      modifies this`totalConnections
      ensures totalConnections == old(totalConnections) + (if k > 0 then |coreSwitches| * k else 0)
    {
      var coreIndex := 0;
      ghost var counted := 0;
      while coreIndex < |coreSwitches|
        invariant 0 <= coreIndex <= |coreSwitches|
        invariant counted == coreIndex * (if k > 0 then k else 0)
        invariant totalConnections == old(totalConnections) + counted
      {
        var pod := 0;
        while pod < k
          invariant 0 <= pod && (pod <= k || pod == 0)
          invariant totalConnections == old(totalConnections) + counted + pod
        {
          var aggSwitchIndex := AggTargetOfCore(k, coreIndex, pod);
          AggTargetInPod(k, coreIndex, pod);
          if aggSwitchIndex < |aggregationSwitches| {
            totalConnections := totalConnections + 1;
          }
          pod := pod + 1;
        }
        counted := counted + (if k > 0 then k else 0);
        coreIndex := coreIndex + 1;
      }
    }

    /** Pod by pod, the pod's aggregation and edge switches are collected and every
        pair of them counted: `(k/2)²` links per pod. */
    method ConnectAggregationToEdge()
      requires k % 2 == 0 && |aggregationSwitches| == PodTierSize(k) && |edgeSwitches| == PodTierSize(k)
      modifies this`totalConnections
      ensures totalConnections == old(totalConnections) + (if k > 0 then k * ((k / 2) * (k / 2)) else 0)
    {
      var h := k / 2;
      var pod := 0;
      ghost var counted := 0;
      while pod < k
        invariant 0 <= pod && (pod <= k || pod == 0)
        invariant counted == pod * (h * h)
        invariant totalConnections == old(totalConnections) + counted
      {
        var podAggSwitches, podEdgeSwitches := CollectPod(pod, pod * h);
        CountPodLinks(|podAggSwitches|, |podEdgeSwitches|);
        assert (pod + 1) * (h * h) == pod * (h * h) + h * h;
        counted := counted + h * h;
        pod := pod + 1;
      }
    }

    /** The full-mesh loops of one pod: one count per (aggregation, edge) pair. */
    method CountPodLinks(aggCount: nat, edgeCount: nat)
      modifies this`totalConnections
      ensures totalConnections == old(totalConnections) + aggCount * edgeCount
    {
      var a := 0;
      ghost var counted := 0;
      while a < aggCount
        invariant 0 <= a <= aggCount && counted == a * edgeCount
        invariant totalConnections == old(totalConnections) + counted
      {
        var e := 0;
        while e < edgeCount
          invariant 0 <= e <= edgeCount
          invariant totalConnections == old(totalConnections) + counted + e
        {
          totalConnections := totalConnections + 1;
          e := e + 1;
        }
        counted := counted + edgeCount;
        a := a + 1;
      }
    }

    /** The collection loop of one pod: positions `0 .. k/2 - 1` of the pod in each
        tier, all of them in range. */
    method CollectPod(pod: int, ghost base: int) returns (podAggSwitches: seq<Switch>, podEdgeSwitches: seq<Switch>)
      requires k > 0 && k % 2 == 0 && 0 <= pod < k && base == pod * (k / 2)
      requires |aggregationSwitches| == PodTierSize(k) && |edgeSwitches| == PodTierSize(k)
      ensures 0 <= base && base + k / 2 <= |aggregationSwitches|
      ensures podAggSwitches == aggregationSwitches[base .. base + k / 2]
      ensures podEdgeSwitches == edgeSwitches[base .. base + k / 2]
    {
      var h := k / 2;
      SlotInRange(pod, 0, h, k);
      podAggSwitches, podEdgeSwitches := [], [];
      var i := 0;
      while i < h
        invariant 0 <= i <= h
        invariant podAggSwitches == aggregationSwitches[base .. base + i]
        invariant podEdgeSwitches == edgeSwitches[base .. base + i]
      {
        var aggIndex := pod * h + i;
        var edgeIndex := pod * h + i;
        if aggIndex < |aggregationSwitches| {
          podAggSwitches := podAggSwitches + [aggregationSwitches[aggIndex]];
        }
        if edgeIndex < |edgeSwitches| {
          podEdgeSwitches := podEdgeSwitches + [edgeSwitches[edgeIndex]];
        }
        i := i + 1;
      }
    }

    /** Replaces the host list, resets the host counter, and attaches hosts in input
        order, `k/2` per edge switch, until the hosts or the edge switches run out.
        No capacity cap is applied besides the edge tier's room. */
    method ConnectHosts(networkHosts: seq<Host>)
      requires Valid()
      modifies this`hosts, this`hostConnections, this`edgeSwitches
      ensures Valid() && hosts == networkHosts
      ensures k > 0 ==> hostConnections == Min(|networkHosts|, |edgeSwitches| * (k / 2))
      ensures k <= 0 ==> hostConnections == 0
      ensures |edgeSwitches| == |old(edgeSwitches)|
      ensures k > 0 ==> forall j :: 0 <= j < |edgeSwitches| ==>
        edgeSwitches[j] == AddHosts(old(edgeSwitches[j]), HostsFor(networkHosts, k / 2, |networkHosts|, j))
    {
      hosts := networkHosts;
      var hostsPerEdgeSwitch := k / 2;
      hostConnections := 0;
      if k <= 0 {
        // no pods, so no edge switches: both loops are empty
        return;
      }
      AttachHosts(networkHosts, hostsPerEdgeSwitch);
    }

    /** The two host loops of `connectHosts`, for positive `k`. */
    method AttachHosts(networkHosts: seq<Host>, perSwitch: nat)
      requires hostConnections == 0
      modifies this`hostConnections, this`edgeSwitches
      ensures hostConnections == Min(|networkHosts|, |old(edgeSwitches)| * perSwitch)
      ensures |edgeSwitches| == |old(edgeSwitches)|
      ensures forall j :: 0 <= j < |edgeSwitches| ==>
        edgeSwitches[j] == AddHosts(old(edgeSwitches[j]), HostsFor(networkHosts, perSwitch, |networkHosts|, j))
    {
      var limit := |networkHosts|;
      var hostIndex := 0;
      var i := 0;
      ghost var base := 0;
      while i < |edgeSwitches| && hostIndex < |networkHosts|
        invariant 0 <= i <= |edgeSwitches| == |old(edgeSwitches)|
        invariant 0 <= base == Blocks(i, perSwitch) && hostIndex == Min(base, limit)
        invariant hostConnections == hostIndex
        invariant forall j :: 0 <= j < |edgeSwitches| ==>
          edgeSwitches[j] == AddHosts(old(edgeSwitches[j]),
            if j < i then HostsFor(networkHosts, perSwitch, limit, j) else [])
      {
        BlocksIsProduct(i, perSwitch);
        hostIndex := ConnectToEdgeSwitch(i, networkHosts, perSwitch, hostIndex, base);
        base := base + perSwitch;
        i := i + 1;
      }
      BlocksIsProduct(i, perSwitch);
      if i < |edgeSwitches| {
        // the hosts ran out first
        MulLeMono(i, |edgeSwitches|, perSwitch);
        forall j | i <= j < |edgeSwitches|
          ensures HostsFor(networkHosts, perSwitch, limit, j) == []
        {
          NothingAfterLimit(networkHosts, perSwitch, limit, i, j);
        }
      }
    }

    /** The inner host loop: edge switch `i` takes hosts from `hostIndex` on, at most
        `perSwitch` of them, and the host counter counts each one. */
    method ConnectToEdgeSwitch(i: int, networkHosts: seq<Host>, perSwitch: nat, hostIndex: int, ghost base: nat)
      returns (next: int)
      requires 0 <= i < |edgeSwitches| && hostIndex == Min(base, |networkHosts|)
      requires hostConnections == hostIndex
      modifies this`edgeSwitches, this`hostConnections
      ensures next == Min(base + perSwitch, |networkHosts|) && hostConnections == next
      ensures |edgeSwitches| == |old(edgeSwitches)|
      ensures forall j :: 0 <= j < |edgeSwitches| && j != i ==> edgeSwitches[j] == old(edgeSwitches[j])
      ensures edgeSwitches[i] == AddHosts(old(edgeSwitches[i]), networkHosts[hostIndex..next])
    {
      next := hostIndex;
      assert old(edgeSwitches[i]).hosts + [] == old(edgeSwitches[i]).hosts;
      var j := 0;
      while j < perSwitch && next < |networkHosts|
        invariant 0 <= j <= perSwitch && hostIndex <= next
        invariant next == Min(base + j, |networkHosts|) && hostConnections == next
        invariant |edgeSwitches| == |old(edgeSwitches)|
        invariant forall j' :: 0 <= j' < |edgeSwitches| && j' != i ==> edgeSwitches[j'] == old(edgeSwitches[j'])
        invariant edgeSwitches[i] == AddHosts(old(edgeSwitches[i]), networkHosts[hostIndex..next])
      {
        var host := networkHosts[next];
        edgeSwitches := edgeSwitches[i := AddHost(edgeSwitches[i], host)];
        next := next + 1;
        hostConnections := hostConnections + 1;
        assert networkHosts[hostIndex..next] == networkHosts[hostIndex..next - 1] + [host];
        assert old(edgeSwitches[i]).hosts + networkHosts[hostIndex..next] ==
               old(edgeSwitches[i]).hosts + networkHosts[hostIndex..next - 1] + [host];
        j := j + 1;
      }
    }

    /** The current counts, read without changing anything. */
    function GetNetworkStats(): (r: NetworkStats)
      reads this
      ensures r.connectedHosts == |hosts| && r.hostConnections == hostConnections
      ensures r.totalConnections == totalConnections
      ensures r.utilization == HostUtilization(|hosts|, k)
    {
      NetworkStats(k, |coreSwitches|, |aggregationSwitches|, |edgeSwitches|,
                   |hosts|, totalConnections, hostConnections, HostUtilization(|hosts|, k))
    }

    /** `(k/2.0)²` times the 1 Gbps switch bandwidth: for an even `k`, one switch
        bandwidth per equal-cost path. */
    function BisectionBandwidth(): (r: real)
      ensures r >= 0.0
      ensures k % 2 == 0 ==> r == (MaxEqualCostPaths() as real) * SwitchBandwidthGbps
    {
      var half := k as real / 2.0;
      assert k % 2 == 0 ==> half * half == MaxEqualCostPaths() as real by {
        if k % 2 == 0 {
          var h := k / 2;
          assert k == 2 * h;
          assert half == h as real;
          assert (h * h) as real == (h as real) * (h as real);
        }
      }
      half * half * SwitchBandwidthGbps
    }

    /** Equal-cost paths between hosts in different pods: `k²/4`, one per core switch. */
    function MaxEqualCostPaths(): (r: int)
      ensures r >= 0
      ensures k % 2 == 0 ==> 4 * r == k * k
    {
      (k / 2) * (k / 2)
    }

    /** The equal-cost path count is one path per core switch. */
    lemma EqualCostPathsAreCores()
      requires Valid()
      ensures MaxEqualCostPaths() == |coreSwitches|
    {
    }
  }

  /** The constructor's two failure paths, in the order the source meets them: a
      null datacenter is dereferenced before `k` is looked at, and only an odd `k`
      is rejected; an even `k <= 0` builds a network without pods. */
  method Create(hasDatacenter: bool, k: int) returns (r: Result<FatTreeNetwork>)
    ensures r == Failure(NullDatacenter) <==> !hasDatacenter
    ensures r == Failure(IllegalArgument) <==> hasDatacenter && k % 2 != 0
    ensures r.Success? ==>
      && fresh(r.value) && r.value.Valid() && r.value.k == k
      && r.value.coreSwitches == Unwired((k / 2) * (k / 2))
      && r.value.aggregationSwitches == Unwired(PodTierSize(k)) && r.value.edgeSwitches == Unwired(PodTierSize(k))
      && r.value.hosts == [] && r.value.hostConnections == 0
      && r.value.totalConnections == (if k > 0 then k * k * k / 2 else 0)
  {
    if !hasDatacenter {
      return Failure(NullDatacenter);
    }
    if k % 2 != 0 {
      return Failure(IllegalArgument);
    }
    var net := new FatTreeNetwork(k);
    return Success(net);
  }

  /** Every pairing lands inside pod `pod` of the aggregation tier, so the range
      check of the counting loop always passes. */
  lemma AggTargetInPod(k: int, c: int, pod: int)
    requires k > 0 && k % 2 == 0 && c >= 0 && 0 <= pod < k
    ensures 0 <= AggTargetOfCore(k, c, pod) < PodTierSize(k)
    ensures AggTargetOfCore(k, c, pod) / (k / 2) == pod
  {
    var h := k / 2;
    SlotInRange(pod, c % h, h, k);
    DivModOf(pod, c % h, h);
  }

  /** After construction the counter holds `(k/2)²·k` core links plus `k·(k/2)²`
      pod links, which is `k³/2`. */
  lemma TotalConnectionsClosedForm(k: int)
    requires k > 0 && k % 2 == 0
    ensures (k / 2) * (k / 2) * k + k * ((k / 2) * (k / 2)) == k * k * k / 2
  {
    var h := k / 2;
    assert k == 2 * h;
    assert k * k * k == 8 * (h * h * h);
    assert (h * h) * k == 2 * (h * h * h);
    assert k * (h * h) == 2 * (h * h * h);
  }

  /** The core switch with the rows and columns of the `(k/2) × (k/2)` core grid exchanged. */
  function Transposed(k: int, c: int): int
    requires k > 0 && k % 2 == 0 && c >= 0
  {
    (c % (k / 2)) * (k / 2) + c / (k / 2)
  }

  /** The two builders pair core and aggregation switches by transposed core grids:
      the aggregation switch this builder gives core switch `c` in pod `pod` is the
      one the main builder gives core switch `Transposed(k, c)`; and transposing
      twice gives back `c`, so both pairings are bijections of the same shape. */
  lemma PairingIsTransposed(k: int, c: int, pod: int)
    requires ValidK(k) && 0 <= c < CoreCount(k) && 0 <= pod < k
    ensures 0 <= Transposed(k, c) < CoreCount(k)
    ensures AggTargetOfCore(k, c, pod) == CoreTier(k)[Transposed(k, c)].downlinks[pod]
    ensures Transposed(k, Transposed(k, c)) == c
  {
    var h := k / 2;
    SplitIndex(c, h, h);
    var t := Transposed(k, c);
    SlotInRange(c % h, c / h, h, h);
    DivModOf(c % h, c / h, h);
    CoreDownlinksAt(k, t);
  }

  /** For `k >= 4` the pairings differ: core switch 1 meets aggregation position 1
      here and position 0 in the main builder. */
  lemma PairingsDiffer(k: int)
    requires ValidK(k) && k >= 4
    ensures 1 < CoreCount(k)
    ensures AggTargetOfCore(k, 1, 0) == 1 && CoreTier(k)[1].downlinks[0] == 0
  {
    var h := k / 2;
    MulLeMono(2, h, h);
    CoreDownlinksAt(k, 1);
  }

  /** Utilization divides the size of the whole host list, not the hosts actually
      attached, by `k³/4`: with more hosts than that it exceeds 100 %, although
      the attached count stays within the edge tier's room. For `k = 0` the divisor
      is 0 and the figure is infinite, or not a number when there are no hosts. */
  lemma UtilizationUnclamped(hostCount: nat, k: int)
    requires k % 2 == 0
    ensures ValidK(k) ==> HostUtilization(hostCount, k).Finite?
    ensures ValidK(k) && hostCount > MaxHosts(k) ==> HostUtilization(hostCount, k).value > 100.0
    ensures k == 0 ==> HostUtilization(hostCount, k) == (if hostCount > 0 then PositiveInfinity else NotANumber)
  {
    if ValidK(k) {
      var m := MaxHosts(k);
      CubeQuarter(k);
      if hostCount > m {
        AboveCapacity(hostCount, m);
      }
    }
  }

  /** For a positive even `k`, the 32-bit-free `(k*k*k)/4` is the capacity. */
  lemma CubeQuarter(k: int)
    requires ValidK(k)
    ensures JavaDiv(k * k * k, 4) == MaxHosts(k) > 0
  {
    MulLeMono(1, k, k);
    MulLeMono(1, k, k * k);
  }

  lemma AboveCapacity(hostCount: nat, m: int)
    requires 0 < m < hostCount
    ensures Divide((hostCount as real) * 100.0, m).value > 100.0
  {
    var r := Divide((hostCount as real) * 100.0, m).value;
    assert r * (m as real) == (hostCount as real) * 100.0;
  }

  /** The two builders' metrics for the same `k`: the main one reports ten times
      the bisection bandwidth (10 Gbps links against 1 Gbps), and this one reports
      the square of the main one's equal-cost path count. */
  lemma MetricsAgainstMain(main: FatTree.FatTreeNetwork, variant: FatTreeNetwork)
    requires main.k == variant.k
    ensures main.BisectionBandwidth() == 10.0 * variant.BisectionBandwidth()
    ensures variant.MaxEqualCostPaths() == main.MaxEqualCostPaths() * main.MaxEqualCostPaths()
  {
  }
}
