/** The main fat-tree topology engine (`FatTreeNetwork` of the simulation package):
    parameter check, one-time construction and wiring of the three switch tiers,
    capacity-limited host attachment, the path query and the structural metrics. */
module FatTree {
  import opened Switches
  import opened IndexArith
  import opened Wiring
  import opened HostAssignment
  import opened Routing
  import opened Capacity
  import opened BuildStages

  /** The statistics snapshot the network keeps after building and after attaching hosts. */
  datatype NetworkStats = NetworkStats(
    k: int, coreSwitches: int, aggregationSwitches: int, edgeSwitches: int,
    connectedHosts: int, utilization: real)

  /** The `IllegalArgumentException` the constructor throws for a bad `k`. */
  datatype ConstructionError = IllegalArgument

  datatype Result<T> = Success(value: T) | Failure(error: ConstructionError)

  /** Link capacity used for the bisection bandwidth, in Gbps. */
  const LinkCapacity: real := 10.0

  /** The statistics recorded right after the topology is built: no hosts yet. */
  function InitialStats(k: int): NetworkStats
    requires ValidK(k)
  {
    NetworkStats(k, CoreCount(k), PodTierCount(k), PodTierCount(k), 0, Utilization(0, MaxHosts(k)))
  }

  class FatTreeNetwork {
    const k: int
    /** Whether the CloudSim simulation and datacenter handles are non-null. */
    var hasSimulation: bool
    var hasDatacenter: bool
    var coreSwitches: seq<Switch>
    var aggregationSwitches: seq<Switch>
    var edgeSwitches: seq<Switch>
    var hosts: seq<Host>
    var networkStats: Option<NetworkStats>

    predicate Unbuilt()
      reads this
    {
      coreSwitches == [] && aggregationSwitches == [] && edgeSwitches == []
    }

    ghost predicate Built()
      reads this
    {
      Wired(k, coreSwitches, aggregationSwitches, edgeSwitches)
    }

    /** A network is either not yet built, or built exactly once as a fat tree. */
    ghost predicate Valid()
      reads this
    {
      ValidK(k) && (Unbuilt() || Built())
    }

    constructor (k: int, hasSimulation: bool, hasDatacenter: bool)
      requires ValidK(k)
      ensures Valid() && Unbuilt()
      ensures this.k == k && this.hasSimulation == hasSimulation && this.hasDatacenter == hasDatacenter
      ensures hosts == [] && networkStats == None
    {
      this.k := k;
      this.hasSimulation := hasSimulation;
      this.hasDatacenter := hasDatacenter;
      coreSwitches := [];
      aggregationSwitches := [];
      edgeSwitches := [];
      hosts := [];
      networkStats := None;
    }

    /** Sets both handles and builds the topology if no switch exists yet. */
    method SetSimulationAndDatacenter(hasSimulation: bool, hasDatacenter: bool)
      requires Valid()
      modifies this
      ensures Valid() && this.hasSimulation == hasSimulation && this.hasDatacenter == hasDatacenter
      ensures old(Unbuilt()) && hasDatacenter ==> Built() && networkStats == Some(InitialStats(k))
      ensures old(Unbuilt()) && hasDatacenter ==>
        coreSwitches == CoreTier(k) && aggregationSwitches == AggregationTier(k) && edgeSwitches == EdgeTier(k)
      ensures !(old(Unbuilt()) && hasDatacenter) ==>
        && coreSwitches == old(coreSwitches) && aggregationSwitches == old(aggregationSwitches)
        && edgeSwitches == old(edgeSwitches) && networkStats == old(networkStats)
      ensures hosts == old(hosts)
    {
      this.hasSimulation := hasSimulation;
      this.hasDatacenter := hasDatacenter;
      if Unbuilt() {
        InitializeTopology();
      }
    }

    /** Sets the datacenter handle (taking the simulation from it when none is set)
        and builds the topology if no switch exists yet. */
    method SetDatacenter(hasDatacenter: bool)
      requires Valid()
      modifies this
      ensures Valid() && this.hasDatacenter == hasDatacenter
      ensures hasSimulation == (old(hasSimulation) || hasDatacenter)
      ensures old(Unbuilt()) && hasDatacenter ==> Built() && networkStats == Some(InitialStats(k))
      ensures old(Unbuilt()) && hasDatacenter ==>
        coreSwitches == CoreTier(k) && aggregationSwitches == AggregationTier(k) && edgeSwitches == EdgeTier(k)
      ensures !(old(Unbuilt()) && hasDatacenter) ==>
        && coreSwitches == old(coreSwitches) && aggregationSwitches == old(aggregationSwitches)
        && edgeSwitches == old(edgeSwitches) && networkStats == old(networkStats)
      ensures hosts == old(hosts)
    {
      this.hasDatacenter := hasDatacenter;
      if !hasSimulation && hasDatacenter {
        hasSimulation := true;
      }
      if Unbuilt() {
        InitializeTopology();
      }
    }

    /** Creates `(k/2)²` core, `k·(k/2)` aggregation and `k·(k/2)` edge switches, wires
        them, and records the initial statistics; without a datacenter it does nothing. */
    method InitializeTopology()
      requires ValidK(k) && Unbuilt()
      modifies this`coreSwitches, this`aggregationSwitches, this`edgeSwitches, this`networkStats
      ensures hasDatacenter ==> Built() && networkStats == Some(InitialStats(k))
      ensures hasDatacenter ==>
        coreSwitches == CoreTier(k) && aggregationSwitches == AggregationTier(k) && edgeSwitches == EdgeTier(k)
      ensures !hasDatacenter ==> Unbuilt() && networkStats == old(networkStats)
    {
      if !hasDatacenter {
        return;
      }
      var numCoreSwitches := (k / 2) * (k / 2);
      var numAggSwitches := (k / 2) * k;
      var numEdgeSwitches := (k / 2) * k;
      var i := 0;
      while i < numCoreSwitches
        modifies this`coreSwitches
        invariant 0 <= i <= numCoreSwitches && coreSwitches == Unwired(i)
      {
        coreSwitches := coreSwitches + [NewSwitch];
        i := i + 1;
      }
      i := 0;
      while i < numAggSwitches
        modifies this`aggregationSwitches
        invariant 0 <= i <= numAggSwitches && aggregationSwitches == Unwired(i)
      {
        aggregationSwitches := aggregationSwitches + [NewSwitch];
        i := i + 1;
      }
      i := 0;
      while i < numEdgeSwitches
        modifies this`edgeSwitches
        invariant 0 <= i <= numEdgeSwitches && edgeSwitches == Unwired(i)
      {
        edgeSwitches := edgeSwitches + [NewSwitch];
        i := i + 1;
      }
      ConnectSwitches();
      UpdateNetworkStats(0, MaxHosts(k));
    }

    /** Wires the freshly created tiers: aggregation switch `a` of every pod to the
        core switches of group `a`, and every edge switch to every aggregation switch
        of its pod, recording each link on both ends. The defensive checks of the
        source (an empty tier, an index past the end of a tier) are proved never to
        trigger. */
    method ConnectSwitches()
      requires ValidK(k)
      requires coreSwitches == Unwired(CoreCount(k))
      requires aggregationSwitches == Unwired(PodTierCount(k))
      requires edgeSwitches == Unwired(PodTierCount(k))
      modifies this`coreSwitches, this`aggregationSwitches, this`edgeSwitches
      ensures coreSwitches == CoreTier(k) && aggregationSwitches == AggregationTier(k)
      ensures edgeSwitches == EdgeTier(k) && Built()
    {
      TierSizes(k, 0);
      // the early return for an empty tier is never taken
      assert aggregationSwitches != [] && coreSwitches != [] && edgeSwitches != [];
      ConnectAggregationToCore();
      ConnectEdgeToAggregation();
      assert forall i :: 0 <= i < |edgeSwitches| ==> edgeSwitches[i].(hosts := []) == EdgeTier(k)[i];
    }

    /** The first loop nest of `connectSwitches`: pod by pod, aggregation switch `a`
        uplinks to core switches `a·(k/2) + j` for `j` ascending, and each of those
        core switches records it as its downlink for that pod. */
    method ConnectAggregationToCore()
      requires ValidK(k)
      requires coreSwitches == Unwired(CoreCount(k))
      requires aggregationSwitches == Unwired(PodTierCount(k))
      modifies this`coreSwitches, this`aggregationSwitches
      ensures coreSwitches == CoreTier(k)
      ensures AggUplinkStage(k, aggregationSwitches, PodTierCount(k), 0)
    {
      StartStages(k);
      var h := k / 2;
      var pod := 0;
      ghost var podBase := 0;
      while pod < k
        invariant 0 <= pod <= k && podBase == Blocks(pod, h)
        invariant AggUplinkStage(k, aggregationSwitches, podBase, 0)
        invariant CoreDownlinkStage(k, coreSwitches, pod, 0)
      {
        BlocksIsProduct(pod, h);
        LinkPodToCores(pod, podBase);
        podBase := podBase + h;
        pod := pod + 1;
      }
      BlocksIsProduct(pod, h);
      CoreDownlinkDone(k, coreSwitches);
    }

    /** One pass of the pod loop of the first nest. */
    method LinkPodToCores(pod: int, ghost podBase: int)
      requires ValidK(k) && 0 <= pod < k && podBase == pod * (k / 2)
      requires AggUplinkStage(k, aggregationSwitches, podBase, 0)
      requires CoreDownlinkStage(k, coreSwitches, pod, 0)
      modifies this`coreSwitches, this`aggregationSwitches
      ensures AggUplinkStage(k, aggregationSwitches, podBase + k / 2, 0)
      ensures CoreDownlinkStage(k, coreSwitches, pod + 1, 0)
    {
      var h := k / 2;
      var aggSw := 0;
      ghost var aggIndex := podBase;
      ghost var coreBase := 0;
      while aggSw < h
        invariant 0 <= aggSw <= h && aggIndex == podBase + aggSw && coreBase == Blocks(aggSw, h)
        invariant AggUplinkStage(k, aggregationSwitches, aggIndex, 0)
        invariant CoreDownlinkStage(k, coreSwitches, pod, coreBase)
      {
        BlocksIsProduct(aggSw, h);
        LinkAggregationToCores(pod, aggSw, aggIndex, coreBase);
        AggUplinkNext(k, aggregationSwitches, aggIndex);
        aggIndex := aggIndex + 1;
        coreBase := coreBase + h;
        aggSw := aggSw + 1;
      }
      BlocksIsProduct(aggSw, h);
      assert coreBase == CoreCount(k);
      CoreDownlinkNext(k, coreSwitches, pod);
    }

    /** One pass of the aggregation-switch loop of the first nest: aggregation
        switch `a` of pod `pod` takes its `k/2` uplinks. */
    method LinkAggregationToCores(pod: int, aggSw: int, ghost aggIndex: int, ghost coreBase: int)
      requires ValidK(k) && 0 <= pod < k && 0 <= aggSw < k / 2
      requires aggIndex == pod * (k / 2) + aggSw && coreBase == aggSw * (k / 2)
      requires AggUplinkStage(k, aggregationSwitches, aggIndex, 0)
      requires CoreDownlinkStage(k, coreSwitches, pod, coreBase)
      modifies this`coreSwitches, this`aggregationSwitches
      ensures AggUplinkStage(k, aggregationSwitches, aggIndex, k / 2)
      ensures CoreDownlinkStage(k, coreSwitches, pod, coreBase + k / 2)
    {
      var h := k / 2;
      var coreSw := 0;
      while coreSw < h
        invariant 0 <= coreSw <= h
        invariant AggUplinkStage(k, aggregationSwitches, aggIndex, coreSw)
        invariant CoreDownlinkStage(k, coreSwitches, pod, coreBase + coreSw)
      {
        var aggIdx := pod * h + aggSw;
        var coreIndex := aggSw * h + coreSw;
        AggCoreStep(k, aggregationSwitches, coreSwitches, pod, aggSw, coreSw, aggIdx, coreIndex);
        // the out-of-range guards on the two indices never fire
        assert aggIdx < |aggregationSwitches| && coreIndex < |coreSwitches|;
        aggregationSwitches := aggregationSwitches[aggIdx := AddUplink(aggregationSwitches[aggIdx], coreIndex)];
        coreSwitches := coreSwitches[coreIndex := AddDownlink(coreSwitches[coreIndex], aggIdx)];
        coreSw := coreSw + 1;
      }
    }

    /** The second loop nest of `connectSwitches`: pod by pod, every edge switch
        uplinks to the aggregation switches of its pod in ascending order, and each
        of those records it as a downlink. */
    method ConnectEdgeToAggregation()
      requires ValidK(k)
      requires edgeSwitches == Unwired(PodTierCount(k))
      requires AggUplinkStage(k, aggregationSwitches, PodTierCount(k), 0)
      modifies this`edgeSwitches, this`aggregationSwitches
      ensures aggregationSwitches == AggregationTier(k) && edgeSwitches == EdgeTier(k)
    {
      StartStages(k);
      AggDownlinkStart(k, aggregationSwitches);
      var h := k / 2;
      var pod := 0;
      ghost var podBase := 0;
      while pod < k
        invariant 0 <= pod <= k && podBase == Blocks(pod, h)
        invariant EdgeUplinkStage(k, edgeSwitches, podBase, 0)
        invariant AggDownlinkStage(k, aggregationSwitches, podBase, podBase, podBase, 0)
      {
        BlocksIsProduct(pod, h);
        LinkPodEdges(pod, podBase);
        podBase := podBase + h;
        pod := pod + 1;
      }
      BlocksIsProduct(pod, h);
      EdgeUplinkDone(k, edgeSwitches);
      AggDownlinkDone(k, aggregationSwitches);
    }

    /** One pass of the pod loop of the second nest. */
    method LinkPodEdges(pod: int, ghost podBase: int)
      requires ValidK(k) && 0 <= pod < k && podBase == pod * (k / 2)
      requires EdgeUplinkStage(k, edgeSwitches, podBase, 0)
      requires AggDownlinkStage(k, aggregationSwitches, podBase, podBase, podBase, 0)
      modifies this`edgeSwitches, this`aggregationSwitches
      ensures EdgeUplinkStage(k, edgeSwitches, podBase + k / 2, 0)
      ensures AggDownlinkStage(k, aggregationSwitches, podBase + k / 2, podBase + k / 2, podBase + k / 2, 0)
    {
      var h := k / 2;
      AggDownlinkOpen(k, aggregationSwitches, podBase, podBase + h);
      var edgeSw := 0;
      ghost var edgeIndex := podBase;
      while edgeSw < h
        invariant 0 <= edgeSw <= h && edgeIndex == podBase + edgeSw
        invariant EdgeUplinkStage(k, edgeSwitches, edgeIndex, 0)
        invariant AggDownlinkStage(k, aggregationSwitches, podBase, podBase, podBase + h, edgeSw)
      {
        LinkEdgeToAggregations(pod, edgeSw, podBase, edgeIndex);
        EdgeUplinkNext(k, edgeSwitches, edgeIndex);
        AggDownlinkRow(k, aggregationSwitches, podBase, podBase + h, edgeSw);
        edgeIndex := edgeIndex + 1;
        edgeSw := edgeSw + 1;
      }
      AggDownlinkClose(k, aggregationSwitches, podBase, podBase + h);
    }

    /** One pass of the edge-switch loop of the second nest: edge switch `e` of pod
        `pod` takes the pod's `k/2` aggregation switches as uplinks. */
    method LinkEdgeToAggregations(pod: int, edgeSw: int, ghost podBase: int, ghost edgeIndex: int)
      requires ValidK(k) && 0 <= pod < k && 0 <= edgeSw < k / 2
      requires podBase == pod * (k / 2) && edgeIndex == podBase + edgeSw
      requires EdgeUplinkStage(k, edgeSwitches, edgeIndex, 0)
      requires AggDownlinkStage(k, aggregationSwitches, podBase, podBase, podBase + k / 2, edgeSw)
      modifies this`edgeSwitches, this`aggregationSwitches
      ensures EdgeUplinkStage(k, edgeSwitches, edgeIndex, k / 2)
      ensures AggDownlinkStage(k, aggregationSwitches, podBase, podBase + k / 2, podBase + k / 2, edgeSw)
    {
      var aggSw := 0;
      while aggSw < k / 2
        invariant 0 <= aggSw <= k / 2
        invariant EdgeUplinkStage(k, edgeSwitches, edgeIndex, aggSw)
        invariant AggDownlinkStage(k, aggregationSwitches, podBase, podBase + aggSw, podBase + k / 2, edgeSw)
      {
        LinkEdgeToAggregation(pod, edgeSw, aggSw, podBase, edgeIndex);
        aggSw := aggSw + 1;
      }
    }

    /** One pass of the innermost loop of the second nest: edge switch `e` of pod `pod`
        takes aggregation switch `a` of that pod as its next uplink, and that switch
        takes it as its `e`-th downlink. */
    method LinkEdgeToAggregation(pod: int, edgeSw: int, aggSw: int, ghost podBase: int, ghost edgeIndex: int)
      requires ValidK(k) && 0 <= pod < k && 0 <= edgeSw < k / 2 && 0 <= aggSw < k / 2
      requires podBase == pod * (k / 2) && edgeIndex == podBase + edgeSw
      requires EdgeUplinkStage(k, edgeSwitches, edgeIndex, aggSw)
      requires AggDownlinkStage(k, aggregationSwitches, podBase, podBase + aggSw, podBase + k / 2, edgeSw)
      modifies this`edgeSwitches, this`aggregationSwitches
      ensures EdgeUplinkStage(k, edgeSwitches, edgeIndex, aggSw + 1)
      ensures AggDownlinkStage(k, aggregationSwitches, podBase, podBase + aggSw + 1, podBase + k / 2, edgeSw)
    {
      var edgeIdx := pod * (k / 2) + edgeSw;
      var aggIndex := pod * (k / 2) + aggSw;
      EdgeAggStep(k, edgeSwitches, aggregationSwitches, pod, edgeSw, aggSw, podBase, edgeIdx, aggIndex);
      edgeSwitches := edgeSwitches[edgeIdx := AddUplink(edgeSwitches[edgeIdx], aggIndex)];
      aggregationSwitches := aggregationSwitches[aggIndex := AddDownlink(aggregationSwitches[aggIndex], edgeIdx)];
    }

    /** Attaches hosts in input order, `k/2` per edge switch and switch after switch,
        up to the capacity `k³/4`; keeps a copy of the whole input list. A missing or
        empty list, or an unbuilt network, changes nothing. A repeated call appends
        to the switches' host lists again. */
    method ConnectHosts(hostList: Option<seq<Host>>)
      requires Valid()
      modifies this`hosts, this`edgeSwitches, this`networkStats
      ensures Valid()
      ensures hostList.None? || hostList.value == [] || old(edgeSwitches) == [] ==>
        hosts == old(hosts) && edgeSwitches == old(edgeSwitches) && networkStats == old(networkStats)
      ensures hostList.Some? && hostList.value != [] && old(edgeSwitches) != [] ==>
        var actual := Min(|hostList.value|, MaxHosts(k));
        && hosts == hostList.value
        && |edgeSwitches| == |old(edgeSwitches)|
        && (forall j :: 0 <= j < |edgeSwitches| ==>
              edgeSwitches[j] == AddHosts(old(edgeSwitches[j]), HostsFor(hostList.value, k / 2, actual, j)))
        && networkStats == Some(NetworkStats(k, |coreSwitches|, |aggregationSwitches|, |edgeSwitches|,
                                             actual, Utilization(actual, MaxHosts(k))))
    {
      if hostList.None? || hostList.value == [] {
        return;
      }
      if edgeSwitches == [] {
        return;
      }
      var list := hostList.value;
      hosts := list;
      var maxHosts := MaxHosts(k);
      var actualHosts := Min(|list|, maxHosts);
      var hostsPerEdgeSwitch := k / 2;
      PlaceHosts(list, hostsPerEdgeSwitch, actualHosts);
      assert Built() ==> EdgesWired(k, edgeSwitches);
      UpdateNetworkStats(actualHosts, maxHosts);
    }

    /** The two host loops of `connectHosts`: switch `i` in list order receives the
        next hosts of `list` until it holds `perSwitch` more or `limit` are placed. */
    method PlaceHosts(list: seq<Host>, perSwitch: nat, limit: nat)
      requires limit <= |list|
      modifies this`edgeSwitches
      ensures |edgeSwitches| == |old(edgeSwitches)|
      ensures forall j :: 0 <= j < |edgeSwitches| ==>
        edgeSwitches[j] == AddHosts(old(edgeSwitches[j]), HostsFor(list, perSwitch, limit, j))
    {
      var hostIndex := 0;
      var i := 0;
      ghost var base := 0;
      while i < |edgeSwitches| && hostIndex < limit
        invariant 0 <= i <= |edgeSwitches| == |old(edgeSwitches)|
        invariant 0 <= base == Blocks(i, perSwitch) && hostIndex == Min(base, limit)
        invariant forall j :: 0 <= j < |edgeSwitches| ==>
          edgeSwitches[j] == AddHosts(old(edgeSwitches[j]), if j < i then HostsFor(list, perSwitch, limit, j) else [])
      {
        BlocksIsProduct(i, perSwitch);
        hostIndex := FillEdgeSwitch(i, list, perSwitch, limit, hostIndex);
        base := base + perSwitch;
        i := i + 1;
      }
      BlocksIsProduct(i, perSwitch);
      forall j | i <= j < |edgeSwitches|
        ensures HostsFor(list, perSwitch, limit, j) == []
      {
        NothingAfterLimit(list, perSwitch, limit, i, j);
      }
    }

    /** The inner host loop: edge switch `i` receives hosts from position `hostIndex`
        on, at most `perSwitch` of them and none at or past `limit`. */
    method FillEdgeSwitch(i: int, list: seq<Host>, perSwitch: nat, limit: nat, hostIndex: int) returns (next: int)
      requires 0 <= i < |edgeSwitches| && limit <= |list| && hostIndex == Min(i * perSwitch, limit)
      modifies this`edgeSwitches
      ensures next == Min(i * perSwitch + perSwitch, limit)
      ensures |edgeSwitches| == |old(edgeSwitches)|
      ensures forall j :: 0 <= j < |edgeSwitches| && j != i ==> edgeSwitches[j] == old(edgeSwitches[j])
      ensures edgeSwitches[i] == AddHosts(old(edgeSwitches[i]), list[hostIndex..next])
    {
      next := hostIndex;
      assert old(edgeSwitches[i]).hosts + [] == old(edgeSwitches[i]).hosts;
      var h := 0;
      while h < perSwitch && next < limit
        invariant 0 <= h <= perSwitch && hostIndex <= next
        invariant next == Min(i * perSwitch + h, limit)
        invariant |edgeSwitches| == |old(edgeSwitches)|
        invariant forall j :: 0 <= j < |edgeSwitches| && j != i ==> edgeSwitches[j] == old(edgeSwitches[j])
        invariant edgeSwitches[i] == AddHosts(old(edgeSwitches[i]), list[hostIndex..next])
      {
        var host := list[next];
        next := next + 1;
        assert list[hostIndex..next] == list[hostIndex..next - 1] + [host];
        assert old(edgeSwitches[i]).hosts + list[hostIndex..next] ==
               old(edgeSwitches[i]).hosts + list[hostIndex..next - 1] + [host];
        edgeSwitches := edgeSwitches[i := AddHost(edgeSwitches[i], host)];
        h := h + 1;
      }
    }

    /** Replaces the statistics snapshot with the current tier sizes and host count. */
    method UpdateNetworkStats(connectedHosts: int, maxHosts: int)
      modifies this`networkStats
      ensures networkStats == Some(NetworkStats(k, |coreSwitches|, |aggregationSwitches|, |edgeSwitches|,
                                                connectedHosts, Utilization(connectedHosts, maxHosts)))
    {
      networkStats := Some(NetworkStats(k, |coreSwitches|, |aggregationSwitches|, |edgeSwitches|,
                                        connectedHosts, Utilization(connectedHosts, maxHosts)));
    }

    /** The first edge switch, in list order, that holds `host`. */
    method FindEdgeSwitchForHost(host: Host) returns (r: Option<int>)
      ensures r == EdgeOf(edgeSwitches, host)
    {
      var i := 0;
      while i < |edgeSwitches|
        invariant 0 <= i <= |edgeSwitches|
        invariant forall j :: 0 <= j < i ==> host !in edgeSwitches[j].hosts
      {
        if host in edgeSwitches[i].hosts {
          return Some(i);
        }
        i := i + 1;
      }
      return None;
    }

    /** The switch path between the edge switches of two hosts: empty when either
        host is on no switch, then the same-switch, same-pod and cross-pod cases. */
    method FindPath(sourceHost: Host, destHost: Host) returns (path: seq<SwitchRef>)
      requires Valid()
      ensures FirstUplinksExist(edgeSwitches, aggregationSwitches)
      ensures path == Route(k, edgeSwitches, aggregationSwitches,
                            EdgeOf(edgeSwitches, sourceHost), EdgeOf(edgeSwitches, destHost))
    {
      Routable();
      path := [];
      var sourceEdge := FindEdgeSwitchForHost(sourceHost);
      var destEdge := FindEdgeSwitchForHost(destHost);
      if sourceEdge.None? || destEdge.None? {
        return;
      }
      path := PathBetween(sourceEdge.value, destEdge.value);
    }

    /** A valid network's edge switches name existing aggregation switches as first uplinks. */
    lemma Routable()
      requires Valid()
      ensures FirstUplinksExist(edgeSwitches, aggregationSwitches)
    {
      if Built() {
        WiredFirstUplinksExist(k, coreSwitches, aggregationSwitches, edgeSwitches);
      }
    }

    /** The three cases of the path query once both edge switches are known. */
    method PathBetween(s: int, d: int) returns (path: seq<SwitchRef>)
      requires ValidK(k) && FirstUplinksExist(edgeSwitches, aggregationSwitches)
      requires 0 <= s < |edgeSwitches| && 0 <= d < |edgeSwitches|
      ensures path == Route(k, edgeSwitches, aggregationSwitches, Some(s), Some(d))
    {
      path := [];
      if s == d {
        path := path + [Edge(s)];
      } else if InSamePod(k, s, d) {
        path := path + [Edge(s)];
        if edgeSwitches[s].uplinks != [] {
          path := path + [Agg(edgeSwitches[s].uplinks[0])];
        }
        path := path + [Edge(d)];
      } else {
        path := path + [Edge(s)];
        if edgeSwitches[s].uplinks != [] {
          var aggSwitch := edgeSwitches[s].uplinks[0];
          path := path + [Agg(aggSwitch)];
          if aggregationSwitches[aggSwitch].uplinks != [] {
            path := path + [Core(aggregationSwitches[aggSwitch].uplinks[0])];
          }
          if edgeSwitches[d].uplinks != [] {
            path := path + [Agg(edgeSwitches[d].uplinks[0])];
          }
        }
        path := path + [Edge(d)];
      }
    }

    /** Equal-cost paths between two edge switches of one pod: one per aggregation
        switch of the pod, so half of `k`. */
    function MaxEqualCostPaths(): (r: int)
      ensures ValidK(k) ==> r > 0 && 2 * r == k
    {
      k / 2
    }

    /** `(k/2.0)² · 10` Gbps: one 10 Gbps link per core switch of the `k`-ary tree. */
    function BisectionBandwidth(): (r: real)
      ensures r >= 0.0
      ensures ValidK(k) ==> r == (CoreCount(k) as real) * LinkCapacity
    {
      var half := k as real / 2.0;
      assert ValidK(k) ==> half * half == CoreCount(k) as real by {
        if ValidK(k) {
          var h := k / 2;
          assert k == 2 * h;
          assert half == h as real;
          assert (h * h) as real == (h as real) * (h as real);
        }
      }
      half * half * LinkCapacity
    }

    /** Downlink over uplink capacity of an aggregation switch of the `k`-ary tree:
        1, since each has as many uplinks as downlinks. */
    function OversubscriptionRatio(): (r: real)
      ensures ValidK(k) ==> forall i :: 0 <= i < PodTierCount(k) ==>
        r * (|AggregationTier(k)[i].uplinks| as real) == |AggregationTier(k)[i].downlinks| as real
    {
      1.0
    }

    /** Cost in thousands: 50 per core, 30 per aggregation, 20 per edge switch. */
    function EstimatedNetworkCost(): (r: real)
      reads this
      ensures 20.0 * (SwitchCount() as real) <= r <= 50.0 * (SwitchCount() as real)
      ensures r == 0.0 <==> SwitchCount() == 0
    {
      (|coreSwitches| as real) * 50.0 + (|aggregationSwitches| as real) * 30.0 + (|edgeSwitches| as real) * 20.0
    }

    /** Power in kW: 5 per core, 3 per aggregation, 2 per edge switch. */
    function EstimatedPowerConsumption(): (r: real)
      reads this
      ensures 2.0 * (SwitchCount() as real) <= r <= 5.0 * (SwitchCount() as real)
      ensures r == 0.0 <==> SwitchCount() == 0
    {
      (|coreSwitches| as real) * 5.0 + (|aggregationSwitches| as real) * 3.0 + (|edgeSwitches| as real) * 2.0
    }

    /** Switches in all three tiers. */
    function SwitchCount(): nat
      reads this
    {
      |coreSwitches| + |aggregationSwitches| + |edgeSwitches|
    }

    /** Between two edge switches of one pod there are `MaxEqualCostPaths()` distinct
        two-hop paths, one through each of the source's uplinks, and each of them
        follows links of the network. */
    lemma SamePodEqualCostPaths(s: int, d: int)
      requires Built() && 0 <= s < |edgeSwitches| && 0 <= d < |edgeSwitches|
      requires s / (k / 2) == d / (k / 2)
      ensures |edgeSwitches[s].uplinks| == MaxEqualCostPaths()
      ensures forall j1, j2 :: 0 <= j1 < j2 < |edgeSwitches[s].uplinks| ==>
        edgeSwitches[s].uplinks[j1] < edgeSwitches[s].uplinks[j2]
      ensures forall a :: a in edgeSwitches[s].uplinks ==>
        Connected(coreSwitches, aggregationSwitches, edgeSwitches, [Edge(s), Agg(a), Edge(d)])
    {
      var h := k / 2;
      TierSizes(k, s);
      EdgeUplinksAt(k, s / h, s % h, s);
      assert edgeSwitches[s].uplinks == EdgeTier(k)[s].uplinks;
      assert edgeSwitches[d].uplinks == EdgeTier(k)[d].uplinks;
      forall a | a in edgeSwitches[s].uplinks
        ensures Connected(coreSwitches, aggregationSwitches, edgeSwitches, [Edge(s), Agg(a), Edge(d)])
      {
        PodLinksSymmetric(k, s, a);
        PodLinksSymmetric(k, d, a);
        assert Linked(coreSwitches, aggregationSwitches, edgeSwitches, Edge(s), Agg(a));
        assert Linked(coreSwitches, aggregationSwitches, edgeSwitches, Edge(d), Agg(a));
      }
    }

    /** The bisection bandwidth is one link capacity per core switch. */
    lemma BisectionIsCoreCapacity()
      requires Built()
      ensures BisectionBandwidth() == (|coreSwitches| as real) * LinkCapacity
    {
      var h := k / 2;
      assert k == 2 * h;
      assert k as real / 2.0 == h as real;
      assert |coreSwitches| == h * h;
      assert (h * h) as real == (h as real) * (h as real);
    }

    /** The wiring is non-blocking, which is what an oversubscription ratio of 1
        stands for: every aggregation switch has as many uplinks as downlinks, and
        every edge switch as many uplinks as the `k/2` hosts it takes. */
    lemma NonBlocking()
      requires Built()
      ensures OversubscriptionRatio() == 1.0
      ensures forall i :: 0 <= i < |aggregationSwitches| ==>
        |aggregationSwitches[i].uplinks| == |aggregationSwitches[i].downlinks| == k / 2
      ensures forall e :: 0 <= e < |edgeSwitches| ==> |edgeSwitches[e].uplinks| == k / 2
    {
      assert forall e :: 0 <= e < |edgeSwitches| ==> edgeSwitches[e].uplinks == EdgeTier(k)[e].uplinks;
    }

    /** Cost and power: nothing before the topology is built; `150·(k/2)²` thousand
        and `15·(k/2)²` kW once it is. */
    lemma CostAndPower()
      requires Valid()
      ensures Unbuilt() ==> EstimatedNetworkCost() == 0.0 && EstimatedPowerConsumption() == 0.0
      ensures Built() ==> EstimatedNetworkCost() == 150.0 * (CoreCount(k) as real)
      ensures Built() ==> EstimatedPowerConsumption() == 15.0 * (CoreCount(k) as real)
    {
      if Built() {
        var h := k / 2;
        assert k == 2 * h;
        assert PodTierCount(k) == 2 * CoreCount(k);
      }
    }
  }

  /** The constructor: a `k` that is not positive and even is rejected before any
      network exists; otherwise a network with empty tiers and no statistics. */
  method Create(k: int, hasSimulation: bool, hasDatacenter: bool) returns (r: Result<FatTreeNetwork>)
    ensures r.Failure? <==> k <= 0 || k % 2 != 0
    ensures r.Success? ==>
      && fresh(r.value) && r.value.Valid() && r.value.Unbuilt()
      && r.value.k == k && r.value.hasSimulation == hasSimulation && r.value.hasDatacenter == hasDatacenter
      && r.value.hosts == [] && r.value.networkStats == None
  {
    if k <= 0 || k % 2 != 0 {
      return Failure(IllegalArgument);
    }
    var net := new FatTreeNetwork(k, hasSimulation, hasDatacenter);
    return Success(net);
  }

  /** The capacity `k³/4` is exactly what the edge tier can take at `k/2` hosts per
      switch, so the host loops place every one of the first `min(n, k³/4)` hosts. */
  lemma CapacityFitsEdgeTier(k: int, list: seq<Host>)
    requires ValidK(k)
    ensures Min(|list|, MaxHosts(k)) <= PodTierCount(k) * (k / 2)
    ensures Placed(list, k / 2, Min(|list|, MaxHosts(k)), PodTierCount(k)) == list[..Min(|list|, MaxHosts(k))]
  {
    var actual := Min(|list|, MaxHosts(k));
    AllPlaced(list, k / 2, actual, PodTierCount(k));
  }
}
