# Fat-tree topology engine, modelled in Dafny

This project models the k-ary fat-tree builder of a CloudSim data-centre simulation. The repository has two versions of it.

The main `FatTreeNetwork` (simulation package) does the following:
- It rejects any `k` that is not a positive even number.
- The constructor does not build. `setSimulationAndDatacenter` and `setDatacenter` build the switch graph only when no switch exists yet and a datacenter handle is present; `initializeTopology` itself builds whenever it is called with a datacenter. A build creates every switch fresh, with no hosts:
  - `(k/2)²` core switches;
  - `k·(k/2)` aggregation switches;
  - `k·(k/2)` edge switches;
  - every link recorded as an uplink on the lower switch and a downlink on the upper one.
- It attaches hosts to edge switches in input order, `k/2` per switch, up to the capacity `k³/4`.
- It answers a three-case path query.
- It reports closed-form metrics.

The variant kept beside the tests does the following:
- It rejects only an odd `k`.
- It creates the same three tiers in its constructor.
- It counts the links it would make in `totalConnections` instead of recording them.
- It pairs core switches with aggregation switches by a different rule.
- It attaches hosts with no capacity cap other than the edge tier's room.

Modules:

- `Switches`: the shared values.
  - A switch is `Switch(uplinks, downlinks, hosts)`.
  - A link is an index into the adjacent tier.
  - A host is an opaque `int`.
  - A path element is `Core(i)`, `Agg(i)` or `Edge(i)`.
- `Wiring`: the graph the main builder produces for a given `k`, as functions (`CoreTier`, `AggregationTier`, `EdgeTier`), and lemmas about which links exist and that both ends record each link.
- `BuildStages`: the intermediate states the wiring loops pass through, and one lemma per loop step.
- `HostAssignment`: which slice of the host list each edge switch receives (`HostsFor`), and the lemmas that placement keeps input order and skips nobody.
- `Routing`: the path query (`Route`), edge-switch lookup (`EdgeOf`), pod membership (`InSamePod`), and the proof that every path follows links.
- `Capacity`: the capacity `k³/4`, Java's 32-bit `int` arithmetic and integer division, and the utilization percentage.
- `FatTree`: the main builder as a class.
  - Its tier lists are `seq` fields, and its loops are methods proved against the `Wiring` and `HostAssignment` functions.
  - Each loop level is its own method.
- `FatTreeVariant`: the test-side variant as a class, with its counters, its pairing rule, and lemmas comparing it with the main builder.

Assumptions:
- **Edge-switch id.** `inSamePod` divides CloudSim's switch id by `k/2`. The model assumes an edge switch's id equals its index in `edgeSwitches`, and `Routing.InSamePod` works on that index. `Routing.SamePodIffSameUplinks` shows that under this assumption, pod membership by id agrees with the wiring.
- **Handles as booleans.** The CloudSim simulation and datacenter handles are modelled only by whether they are non-null (`hasSimulation`, `hasDatacenter`).

A repeated `connectHosts` replaces the `hosts` field but appends to each edge switch's host list again; `FatTree.FatTreeNetwork.ConnectHosts` states the append.

## Model

| member | source | states |
|---|---|---|
| FatTree.Create | src/main/java/com/datacenter/simulation/FatTreeNetwork.java:65-76 | construction fails exactly when `k <= 0` or `k` is odd; on success the network has empty tiers, no hosts, no statistics and the given handles |
| FatTree.FatTreeNetwork.constructor | src/main/java/com/datacenter/simulation/FatTreeNetwork.java:65-76 | a new network is unbuilt, keeps `k` and both handles, and has no statistics |
| FatTree.FatTreeNetwork.SetSimulationAndDatacenter | src/main/java/com/datacenter/simulation/FatTreeNetwork.java:96-102 | sets both handles; builds the fat tree (the tiers become exactly `CoreTier(k)`, `AggregationTier(k)` and `EdgeTier(k)`, so every edge switch has no hosts) and records the initial statistics only when no switch exists yet and the datacenter is present; otherwise tiers and statistics are unchanged |
| FatTree.FatTreeNetwork.SetDatacenter | src/main/java/com/datacenter/simulation/FatTreeNetwork.java:107-119 | sets the datacenter; a simulation handle is present afterwards iff it was before or the datacenter is present; builds at most once, as above, into exactly `CoreTier(k)`, `AggregationTier(k)` and `EdgeTier(k)` with no hosts on any switch |
| FatTree.FatTreeNetwork.InitializeTopology | src/main/java/com/datacenter/simulation/FatTreeNetwork.java:124-164 | with a datacenter: the three tiers become exactly `CoreTier(k)`, `AggregationTier(k)` and `EdgeTier(k)`, fresh switches with no hosts, and the statistics record 0 hosts out of `k³/4`; without one: nothing changes |
| FatTree.FatTreeNetwork.ConnectSwitches | src/main/java/com/datacenter/simulation/FatTreeNetwork.java:170-221 | from freshly created tiers, the result is exactly `CoreTier(k)`, `AggregationTier(k)` and `EdgeTier(k)`; the emptiness check never aborts |
| FatTree.FatTreeNetwork.ConnectAggregationToCore | src/main/java/com/datacenter/simulation/FatTreeNetwork.java:180-205 | the first loop nest leaves every core switch fully wired and every aggregation switch with all its uplinks and no downlinks; neither range guard fires |
| FatTree.FatTreeNetwork.LinkPodToCores | src/main/java/com/datacenter/simulation/FatTreeNetwork.java:181-204 | one pod pass: the pod's aggregation switches gain all their uplinks, and every core switch gains that pod as its next downlink |
| FatTree.FatTreeNetwork.LinkAggregationToCores | src/main/java/com/datacenter/simulation/FatTreeNetwork.java:182-203 | aggregation switch `pod·(k/2)+a` gains uplinks to cores `a·(k/2) ..` in ascending order, and each of those cores gains it as its `pod`-th downlink |
| FatTree.FatTreeNetwork.ConnectEdgeToAggregation | src/main/java/com/datacenter/simulation/FatTreeNetwork.java:208-220 | the second loop nest completes the aggregation and edge tiers: each edge switch uplinks to the aggregation switches of its pod, and each aggregation switch records the pod's edge switches as downlinks |
| FatTree.FatTreeNetwork.LinkPodEdges | src/main/java/com/datacenter/simulation/FatTreeNetwork.java:209-219 | one pod pass of the second nest completes that pod's edge and aggregation switches |
| FatTree.FatTreeNetwork.LinkEdgeToAggregations | src/main/java/com/datacenter/simulation/FatTreeNetwork.java:210-218 | edge switch `pod·(k/2)+e` gains the pod's `k/2` aggregation switches in order, and each of those gains it as its `e`-th downlink |
| FatTree.FatTreeNetwork.LinkEdgeToAggregation | src/main/java/com/datacenter/simulation/FatTreeNetwork.java:213-218 | one innermost pass: edge switch `pod·(k/2)+e` takes aggregation switch `pod·(k/2)+a` as its next uplink and is recorded as that switch's `e`-th downlink; both indices are in range |
| FatTree.FatTreeNetwork.ConnectHosts | src/main/java/com/datacenter/simulation/FatTreeNetwork.java:229-272 | a missing or empty list, or no edge switches, changes nothing; otherwise `hosts` becomes the input, edge switch `j` has appended exactly its slice of the first `min(n, k³/4)` hosts, and the statistics record that minimum and its utilization |
| FatTree.FatTreeNetwork.PlaceHosts | src/main/java/com/datacenter/simulation/FatTreeNetwork.java:247-268 | the two host loops append `HostsFor(list, k/2, limit, j)` to every edge switch `j` and change nothing else |
| FatTree.FatTreeNetwork.FillEdgeSwitch | src/main/java/com/datacenter/simulation/FatTreeNetwork.java:253-267 | the inner loop appends to switch `i` the next at most `k/2` hosts before the limit, and moves the host index to `min((i+1)·(k/2), limit)` |
| FatTree.FatTreeNetwork.UpdateNetworkStats | src/main/java/com/datacenter/simulation/FatTreeNetwork.java:274-285 | the snapshot holds `k`, the three tier sizes, the host count, and utilization `connected·100/max` (0 when `max` is 0) |
| FatTree.FatTreeNetwork.FindEdgeSwitchForHost | src/main/java/com/datacenter/simulation/FatTreeNetwork.java:381-388 | the first edge switch in list order whose host list contains the host, or none iff no switch holds it |
| FatTree.FatTreeNetwork.FindPath | src/main/java/com/datacenter/simulation/FatTreeNetwork.java:343-379 | on a valid network the path is `Route(...)` of the two hosts' edge switches: empty when either host is on no switch |
| FatTree.FatTreeNetwork.PathBetween | src/main/java/com/datacenter/simulation/FatTreeNetwork.java:353-376 | the three cases of the query once both edge switches are known, following first uplinks |
| FatTree.FatTreeNetwork.Routable | src/main/java/com/datacenter/simulation/FatTreeNetwork.java:357-373 | on a valid network every non-empty uplink list starts with an existing aggregation switch, so the first-uplink lookups of the query are in range |
| FatTree.FatTreeNetwork.SamePodEqualCostPaths | src/main/java/com/datacenter/simulation/FatTreeNetwork.java:310-312 | between two edge switches of one pod there are exactly `getMaxEqualCostPaths() = k/2` distinct two-hop paths, each following links |
| FatTree.FatTreeNetwork.BisectionIsCoreCapacity | src/main/java/com/datacenter/simulation/FatTreeNetwork.java:314-317 | `(k/2)²·10` Gbps is one 10 Gbps link per core switch of the built network |
| FatTree.FatTreeNetwork.NonBlocking | src/main/java/com/datacenter/simulation/FatTreeNetwork.java:319-321 | the ratio is 1, and in the built network every aggregation switch has `k/2` uplinks and `k/2` downlinks and every edge switch `k/2` uplinks |
| FatTree.FatTreeNetwork.CostAndPower | src/main/java/com/datacenter/simulation/FatTreeNetwork.java:323-341 | cost and power are 0 before building, and `150·(k/2)²` and `15·(k/2)²` once built |
| FatTree.FatTreeNetwork.MaxEqualCostPaths | src/main/java/com/datacenter/simulation/FatTreeNetwork.java:310-312 | for a valid `k` the path count is positive and half of `k`: one per aggregation switch of a pod |
| FatTree.FatTreeNetwork.BisectionBandwidth | src/main/java/com/datacenter/simulation/FatTreeNetwork.java:314-317 | the bandwidth is non-negative, and for a valid `k` the real `(k/2.0)²·10` equals the integer core count `(k/2)²` times 10 Gbps |
| FatTree.FatTreeNetwork.OversubscriptionRatio | src/main/java/com/datacenter/simulation/FatTreeNetwork.java:319-321 | in the `k`-ary tree, the ratio times each aggregation switch's uplink count is its downlink count |
| FatTree.FatTreeNetwork.EstimatedNetworkCost | src/main/java/com/datacenter/simulation/FatTreeNetwork.java:323-331 | the cost lies between 20 and 50 per switch of the three tiers, and is 0 iff there is no switch |
| FatTree.FatTreeNetwork.EstimatedPowerConsumption | src/main/java/com/datacenter/simulation/FatTreeNetwork.java:333-341 | the power lies between 2 and 5 per switch of the three tiers, and is 0 iff there is no switch |
| FatTree.CapacityFitsEdgeTier | src/main/java/com/datacenter/simulation/FatTreeNetwork.java:241-253 | the capacity `k³/4` fits the edge tier exactly, so the host loops place every one of the first `min(n, k³/4)` hosts, in order |
| Wiring.TierSizes | src/main/java/com/datacenter/simulation/FatTreeNetwork.java:133-135 | the tiers have `(k/2)²`, `k·(k/2)` and `k·(k/2)` switches, and every pod-tier index splits into pod and position |
| Wiring.AggregationUplinksAt | src/main/java/com/datacenter/simulation/FatTreeNetwork.java:180-203 | aggregation switch `pod·(k/2)+a` has exactly the uplinks `a·(k/2) .. a·(k/2)+k/2-1`, in order, all existing core switches |
| Wiring.CoreDownlinksAt | src/main/java/com/datacenter/simulation/FatTreeNetwork.java:180-203 | core switch `c` has `k` downlinks: aggregation position `c/(k/2)` of pods 0..k-1, in pod order |
| Wiring.EdgeUplinksAt | src/main/java/com/datacenter/simulation/FatTreeNetwork.java:208-218 | edge switch `pod·(k/2)+e` has exactly the `k/2` aggregation switches of its pod as uplinks, in order |
| Wiring.AggregationDownlinksAt | src/main/java/com/datacenter/simulation/FatTreeNetwork.java:208-218 | aggregation switch `pod·(k/2)+x` has exactly the `k/2` edge switches of its pod as downlinks, in order |
| Wiring.InPodBlock | src/main/java/com/datacenter/simulation/FatTreeNetwork.java:210-214 | an index belongs to the pod block of `i` iff it is in the same pod |
| Wiring.InAggUplinks | src/main/java/com/datacenter/simulation/FatTreeNetwork.java:191-192 | a core switch is an uplink of aggregation switch `i` iff it is in core group `i mod (k/2)` |
| Wiring.InCoreDownlinks | src/main/java/com/datacenter/simulation/FatTreeNetwork.java:181-202 | an aggregation switch is a downlink of core `c` iff its pod position is `c/(k/2)` |
| Wiring.CoreLinksSymmetric | src/main/java/com/datacenter/simulation/FatTreeNetwork.java:201-202 | a core link is recorded on both ends: `c` is an uplink of `i` iff `i` is a downlink of `c` |
| Wiring.PodLinksSymmetric | src/main/java/com/datacenter/simulation/FatTreeNetwork.java:216-217 | a pod link is recorded on both ends, and joins exactly the switches of the same pod |
| BuildStages.AggCoreStep | src/main/java/com/datacenter/simulation/FatTreeNetwork.java:191-203 | one innermost pass of the first nest: both indices are in range (the guards never fire), and both ends advance one stage |
| BuildStages.EdgeAggStep | src/main/java/com/datacenter/simulation/FatTreeNetwork.java:213-218 | one innermost pass of the second nest: both indices are in range, and both ends advance one stage |
| BuildStages.CoreDownlinkDone | src/main/java/com/datacenter/simulation/FatTreeNetwork.java:180-205 | after all `k` pod passes the core tier is `CoreTier(k)` |
| BuildStages.AggDownlinkDone | src/main/java/com/datacenter/simulation/FatTreeNetwork.java:208-220 | after all pod passes of the second nest the aggregation tier is `AggregationTier(k)` |
| BuildStages.EdgeUplinkDone | src/main/java/com/datacenter/simulation/FatTreeNetwork.java:208-220 | after all pod passes of the second nest the edge tier is `EdgeTier(k)` |
| HostAssignment.HostsFor | src/main/java/com/datacenter/simulation/FatTreeNetwork.java:250-268 | each edge switch receives at most `k/2` hosts |
| HostAssignment.PlacedIsPrefix | src/main/java/com/datacenter/simulation/FatTreeNetwork.java:250-268 | the hosts on the first `m` switches, concatenated, are exactly the first `min(m·(k/2), limit)` inputs, so order is kept and nobody is skipped or repeated |
| HostAssignment.AllPlaced | src/main/java/com/datacenter/simulation/FatTreeNetwork.java:250-268 | when the switches have room for `limit` hosts, all of the first `limit` inputs are placed |
| HostAssignment.FillOrder | src/main/java/com/datacenter/simulation/FatTreeNetwork.java:250-253 | a switch gets hosts only when every earlier switch is full |
| HostAssignment.HostPlacement | src/main/java/com/datacenter/simulation/FatTreeNetwork.java:250-260 | input host `t` lands on switch `t / (k/2)` at position `t mod (k/2)` |
| HostAssignment.NothingAfterLimit | src/main/java/com/datacenter/simulation/FatTreeNetwork.java:250 | switches after the one where the limit is reached receive nothing |
| Routing.EdgeOf | src/main/java/com/datacenter/simulation/FatTreeNetwork.java:381-388 | the first switch holding the host, no earlier switch holds it, and none iff no switch holds it |
| Routing.Route | src/main/java/com/datacenter/simulation/FatTreeNetwork.java:343-379 | empty iff either host is on no switch; otherwise starts at the source's switch, ends at the destination's, and has at most 5 elements |
| Routing.RouteIsConnected | src/main/java/com/datacenter/simulation/FatTreeNetwork.java:343-379 | on the wired network the path has length 1 iff same switch, 3 iff same pod only, 5 iff different pods, and every step follows a link |
| Routing.InSamePod | src/main/java/com/datacenter/simulation/FatTreeNetwork.java:390-399 | for non-negative ids, two edge switches are in the same pod iff the second is in the pod block of the first |
| Routing.SamePodIffSameUplinks | src/main/java/com/datacenter/simulation/FatTreeNetwork.java:390-399 | with ids equal to indices, two edge switches are in the same pod iff they have the same uplinks |
| Routing.FirstHop | src/main/java/com/datacenter/simulation/FatTreeNetwork.java:357-364 | an edge switch's first uplink is the first aggregation switch of its pod, and it is linked to it |
| Routing.CoreHop | src/main/java/com/datacenter/simulation/FatTreeNetwork.java:367-372 | that aggregation switch's first uplink is core 0, which is linked back to it |
| Routing.WiredFirstUplinksExist | src/main/java/com/datacenter/simulation/FatTreeNetwork.java:357-373 | on the wired network every first uplink of an edge switch is an existing aggregation switch |
| Capacity.MaxHosts | src/main/java/com/datacenter/simulation/FatTreeNetwork.java:241 | `k³/4` equals `k` pods × `k/2` edge switches × `k/2` hosts, and is positive |
| Capacity.Int32 | src/main/java/com/datacenter/simulation/FatTreeNetwork.java:241 | the result lies in the 32-bit range and equals the true value modulo `2³²` |
| Capacity.JavaDiv | src/main/java/com/datacenter/simulation/FatTreeNetwork.java:241 | integer division truncating toward zero: for `a >= 0`, `r·b <= a < r·b + b`; for `a < 0`, `r·b - b < a <= r·b` |
| Capacity.MaxHostsInt32 | src/main/java/com/datacenter/simulation/FatTreeNetwork.java:241 | `(k*k*k)/4` on 32-bit `int`s, as written: the result lies in `[-2²⁹, 2²⁹)` whatever `k` is |
| Capacity.MaxHostsInt32BelowOverflow | src/main/java/com/datacenter/simulation/FatTreeNetwork.java:241 | for every even `k` up to 1290 the 32-bit computation gives the true capacity |
| Capacity.MaxHostsInt32Overflows | src/main/java/com/datacenter/simulation/FatTreeNetwork.java:241-242 | at `k = 1292` the 32-bit capacity is negative, so `min(n, maxHosts)` is negative |
| Capacity.Utilization | src/main/java/com/datacenter/simulation/FatTreeNetwork.java:275 | 0 when `max` is 0; otherwise `r·max = connected·100`; and between 0 and 100 when `0 <= connected <= max` |
| FatTreeVariant.Create | src/test/java/com/datacenter/simulation/FatTreeNetwork.java:42-54 | a null datacenter fails first; otherwise failure iff `k` is odd; an even `k <= 0` builds; the new network has `(k/2)²` core and `PodTierSize(k)` aggregation and edge switches, each with no links and no hosts, and holds `k³/2` counted links for `k > 0`, and 0 otherwise |
| FatTreeVariant.FatTreeNetwork.constructor | src/test/java/com/datacenter/simulation/FatTreeNetwork.java:42-54 | `(k/2)²` core and `PodTierSize(k)` aggregation and edge switches, each with no links and no hosts; an empty host list; and `totalConnections = k³/2` for `k > 0` (0 otherwise) |
| FatTreeVariant.FatTreeNetwork.InitializeNetworkComponents | src/test/java/com/datacenter/simulation/FatTreeNetwork.java:59-108 | `(k/2)²` core switches, `k·(k/2)` aggregation and edge switches (none for `k <= 0`), all fresh, and an empty host list |
| FatTreeVariant.FatTreeNetwork.CreatePodTier | src/test/java/com/datacenter/simulation/FatTreeNetwork.java:82-105 | each pod loop creates exactly `k·(k/2)` fresh switches (none for `k <= 0`) |
| FatTreeVariant.FatTreeNetwork.ConnectCoreToAggregation | src/test/java/com/datacenter/simulation/FatTreeNetwork.java:126-148 | every pairing is in range, so the counter grows by `|core|·k` for `k > 0` (0 otherwise) |
| FatTreeVariant.FatTreeNetwork.ConnectAggregationToEdge | src/test/java/com/datacenter/simulation/FatTreeNetwork.java:153-183 | the counter grows by `k·(k/2)²` for `k > 0` (0 otherwise) |
| FatTreeVariant.FatTreeNetwork.CollectPod | src/test/java/com/datacenter/simulation/FatTreeNetwork.java:159-170 | the collected lists are exactly the pod's contiguous block of `k/2` switches of each tier; no range check drops one |
| FatTreeVariant.FatTreeNetwork.CountPodLinks | src/test/java/com/datacenter/simulation/FatTreeNetwork.java:172-178 | the full mesh counts one link per (aggregation, edge) pair |
| FatTreeVariant.FatTreeNetwork.ConnectHosts | src/test/java/com/datacenter/simulation/FatTreeNetwork.java:189-214 | `hosts` becomes the input; `hostConnections = min(n, edgeCount·(k/2))`; edge switch `j` has its slice of the input appended, with no `k³/4` cap |
| FatTreeVariant.FatTreeNetwork.AttachHosts | src/test/java/com/datacenter/simulation/FatTreeNetwork.java:199-211 | the two host loops append to each switch its slice and count each host once |
| FatTreeVariant.FatTreeNetwork.ConnectToEdgeSwitch | src/test/java/com/datacenter/simulation/FatTreeNetwork.java:203-208 | the inner loop appends to switch `i` the next at most `k/2` hosts and counts each |
| FatTreeVariant.FatTreeNetwork.GetNetworkStats | src/test/java/com/datacenter/simulation/FatTreeNetwork.java:267-278 | the snapshot reports the whole input list as connected hosts, the two counters, and utilization of the whole list against `k³/4` |
| FatTreeVariant.FatTreeNetwork.EqualCostPathsAreCores | src/test/java/com/datacenter/simulation/FatTreeNetwork.java:291-293 | `(k/2)²` equal-cost paths is one per core switch |
| FatTreeVariant.AggTargetOfCore | src/test/java/com/datacenter/simulation/FatTreeNetwork.java:133 | the aggregation index paired with core `c` in pod `pod` has pod `pod` and position `c mod (k/2)` |
| FatTreeVariant.HostUtilization | src/test/java/com/datacenter/simulation/FatTreeNetwork.java:276 | for a positive even `k` the figure is finite and equals the host count as a percentage of `k³/4` |
| FatTreeVariant.FatTreeNetwork.BisectionBandwidth | src/test/java/com/datacenter/simulation/FatTreeNetwork.java:283-286 | the bandwidth is non-negative, and for an even `k` it is 1 Gbps per equal-cost path |
| FatTreeVariant.FatTreeNetwork.MaxEqualCostPaths | src/test/java/com/datacenter/simulation/FatTreeNetwork.java:291-293 | the path count is non-negative, and for an even `k` it is `k²/4` |
| FatTreeVariant.AggTargetInPod | src/test/java/com/datacenter/simulation/FatTreeNetwork.java:133-135 | `pod·(k/2) + c mod (k/2)` is always inside pod `pod` of the aggregation tier, so the range check passes |
| FatTreeVariant.TotalConnectionsClosedForm | src/test/java/com/datacenter/simulation/FatTreeNetwork.java:113-183 | `(k/2)²·k + k·(k/2)² = k³/2` for even `k > 0` |
| FatTreeVariant.PairingIsTransposed | src/test/java/com/datacenter/simulation/FatTreeNetwork.java:133 | the variant's pairing of core `c` in pod `pod` is the main builder's pairing of the core with the `(k/2)×(k/2)` grid position transposed; transposing twice is the identity |
| FatTreeVariant.PairingsDiffer | src/test/java/com/datacenter/simulation/FatTreeNetwork.java:133 | for `k >= 4` the two pairings differ (core 1, pod 0: position 1 here, 0 in the main builder) |
| FatTreeVariant.UtilizationUnclamped | src/test/java/com/datacenter/simulation/FatTreeNetwork.java:267-278 | utilization is finite for positive `k` and exceeds 100 % once the host list is longer than `k³/4`; for `k = 0` it is infinite, or NaN with no hosts |
| FatTreeVariant.Divide | src/test/java/com/datacenter/simulation/FatTreeNetwork.java:276 | IEEE division of a non-negative numerator: finite iff the divisor is non-zero, and then `r·d = n`; otherwise +∞ iff the numerator is positive |
| FatTreeVariant.MetricsAgainstMain | src/test/java/com/datacenter/simulation/FatTreeNetwork.java:283-293 | for the same `k` the main builder reports ten times this bisection bandwidth, and this builder reports the square of the main one's equal-cost path count |

## Left out

- Console output, and the CloudSim simulation and datacenter objects, are not modelled. Those handles are reduced to whether they are non-null. Switch construction and `getHostList().add` are modelled as creating a value and appending an `int`.
- Aliasing of CloudSim switch objects is not modelled. A switch is a value held at one index of its tier list, so updating it through the list is the only way to change it.
- Floating point is not modelled. `Math.pow` and the `double` cost, power, bandwidth and utilization values are exact `real`s. For the even `k` that fit the other 32-bit limits, cost, power and bandwidth coincide with the doubles. Utilization is the exact quotient, which the `double` division rounds. `FatTreeVariant.Ratio` keeps the infinity and NaN outcomes of a zero divisor.
- 32-bit overflow is modelled only by `Capacity.MaxHostsInt32`, the main builder's `maxHosts` as written (see Findings); the class itself uses the corrected capacity. Other values use unbounded integers:
  - the core count;
  - the variant's `totalConnections` and `hostConnections`;
  - the variant's `k*k*k`.
- FatTree.FatTreeNetwork.ConnectHosts: uses the corrected capacity `MaxHosts(k)`, so for even `k >= 1292` it places `min(n, k³/4)` hosts where the code as written places none and records a negative host count at 100 %. Only `Capacity.MaxHostsInt32Overflows` shows the as-written behaviour.
- FatTree.FatTreeNetwork.InitializeTopology: records the corrected capacity `MaxHosts(k)` in the initial statistics, not the 32-bit value, for the same reason.
- FatTree.CapacityFitsEdgeTier: is stated for the corrected capacity `MaxHosts(k)`; with the 32-bit value at `k >= 1292` nothing is placed.
- FatTreeVariant.HostUtilization: computes `k*k*k` without 32-bit wrap-around, because the variant's overflow is the same one reported for the main builder.
- `inSamePod` is modelled under the assumption that an edge switch's CloudSim id equals its index in `edgeSwitches`. Its catch-all `return false` is not modelled, because integer division by the positive `k/2` cannot throw.
- `setDatacenter` takes the simulation from the datacenter only when no simulation is set yet and a datacenter is present; the model keeps that rule on the booleans. The swallowed exception of `getSimulation()` is not modelled.
- The variant's bandwidth, delay and port setters are not modelled. They only configure external switch objects.
- The `printTopologyStats` methods of both builders, and their plain field getters, are not modelled. They only print or return fields.
- The variant's `connectHosts` with a `null` list (a `NullPointerException`) is not modelled: its input is a `seq`, which cannot be null.
- The main builder's no-argument constructor (`k = 4`, no handles) is not modelled separately. It is `Create(4, false, false)`.
- DataCenterFatTreeSimulation.java, PerformanceAnalyzer.java, the stub `network/FatTreeNetwork.java` and its test are not part of this model.

## Findings

| source | as written | input that shows it | evidently intended | confidence | as-written member | corrected member |
|---|---|---|---|---|---|---|
| src/main/java/com/datacenter/simulation/FatTreeNetwork.java:241-242 | `maxHosts = (k * k * k) / 4` in 32-bit `int`, then `actualHosts = Math.min(n, maxHosts)` | `k = 1292` (the smallest even `k` whose cube exceeds `2³¹-1`): `maxHosts` is -534569552 instead of 539172272, so `actualHosts` is negative, no host is placed, and the statistics record a negative host count at 100 % | the capacity `k³/4` computed without overflow, for example in `long` | not executed | Capacity.MaxHostsInt32Overflows | Capacity.MaxHosts |
