/** The path query of the main builder: which edge switch a host is on, whether two
    edge switches share a pod, and the three-case switch path between two hosts. */
module Routing {
  import opened Switches
  import opened IndexArith
  import opened Wiring

  /** The first edge switch, in list order, whose host list contains `host`. */
  function EdgeOf(edges: seq<Switch>, host: Host): (r: Option<int>)
    ensures r.Some? ==> 0 <= r.value < |edges| && host in edges[r.value].hosts
    ensures r.Some? ==> forall j :: 0 <= j < r.value ==> host !in edges[j].hosts
    ensures r.None? <==> forall j :: 0 <= j < |edges| ==> host !in edges[j].hosts
  {
    if |edges| == 0 then None
    else if host in edges[0].hosts then Some(0)
    else match EdgeOf(edges[1..], host)
      case None => None
      case Some(j) => Some(j + 1)
  }

  /** Pod membership of two edge switches, from their ids by integer division by
      `k/2`. The id of an edge switch is taken to be its index in the edge tier. */
  predicate InSamePod(k: int, e1: int, e2: int)
    requires ValidK(k)
    ensures 0 <= e1 && 0 <= e2 ==> (InSamePod(k, e1, e2) <==> e2 in PodBlock(k, e1))
  {
    assert 0 <= e1 ==> (e2 in PodBlock(k, e1) <==> 0 <= e2 && e2 / (k / 2) == e1 / (k / 2)) by {
      if 0 <= e1 {
        InPodBlock(k, e1, e2);
      }
    }
    e1 / (k / 2) == e2 / (k / 2)
  }

  /** Every edge switch whose uplink list is non-empty has a first uplink that names
      an existing aggregation switch, as the path query's cast and lookup need. */
  predicate FirstUplinksExist(edges: seq<Switch>, agg: seq<Switch>)
  {
    forall e :: 0 <= e < |edges| && edges[e].uplinks != [] ==> 0 <= edges[e].uplinks[0] < |agg|
  }

  /** The path between the edge switches `src` and `dst` (None: host on no switch). */
  function Route(k: int, edges: seq<Switch>, agg: seq<Switch>, src: Option<int>, dst: Option<int>): (r: seq<SwitchRef>)
    requires ValidK(k) && FirstUplinksExist(edges, agg)
    requires src.Some? ==> 0 <= src.value < |edges|
    requires dst.Some? ==> 0 <= dst.value < |edges|
    ensures src.None? || dst.None? <==> r == []
    ensures r != [] ==> r[0] == Edge(src.value) && r[|r| - 1] == Edge(dst.value) && |r| <= 5
  {
    if src.None? || dst.None? then []
    else
      var s, d := src.value, dst.value;
      if s == d then [Edge(s)]
      else if InSamePod(k, s, d) then
        [Edge(s)] + (if edges[s].uplinks == [] then [] else [Agg(edges[s].uplinks[0])]) + [Edge(d)]
      else
        [Edge(s)] +
        (if edges[s].uplinks == [] then []
         else
           var a := edges[s].uplinks[0];
           [Agg(a)] +
           (if agg[a].uplinks == [] then [] else [Core(agg[a].uplinks[0])]) +
           (if edges[d].uplinks == [] then [] else [Agg(edges[d].uplinks[0])])) +
        [Edge(d)]
  }

  /** `lower` and `upper` are joined by a link recorded on both of its ends. */
  predicate Linked(core: seq<Switch>, agg: seq<Switch>, edges: seq<Switch>, lower: SwitchRef, upper: SwitchRef)
  {
    match (lower, upper)
    case (Edge(e), Agg(a)) =>
      0 <= e < |edges| && 0 <= a < |agg| && a in edges[e].uplinks && e in agg[a].downlinks
    case (Agg(a), Core(c)) =>
      0 <= a < |agg| && 0 <= c < |core| && c in agg[a].uplinks && a in core[c].downlinks
    case _ => false
  }

  predicate Adjacent(core: seq<Switch>, agg: seq<Switch>, edges: seq<Switch>, x: SwitchRef, y: SwitchRef)
  {
    Linked(core, agg, edges, x, y) || Linked(core, agg, edges, y, x)
  }

  /** Each step of `path` follows a link of the network. */
  predicate Connected(core: seq<Switch>, agg: seq<Switch>, edges: seq<Switch>, path: seq<SwitchRef>)
  {
    forall i :: 0 <= i < |path| - 1 ==> Adjacent(core, agg, edges, path[i], path[i + 1])
  }

  /** The tiers as the builder wires them, with any hosts on the edge switches. */
  ghost predicate Wired(k: int, core: seq<Switch>, agg: seq<Switch>, edges: seq<Switch>)
  {
    ValidK(k) && core == CoreTier(k) && agg == AggregationTier(k) && EdgesWired(k, edges)
  }

  lemma WiredFirstUplinksExist(k: int, core: seq<Switch>, agg: seq<Switch>, edges: seq<Switch>)
    requires Wired(k, core, agg, edges)
    ensures FirstUplinksExist(edges, agg)
  {
    forall e | 0 <= e < |edges| && edges[e].uplinks != []
      ensures 0 <= edges[e].uplinks[0] < |agg|
    {
      TierSizes(k, e);
      EdgeUplinksAt(k, e / (k / 2), e % (k / 2), e);
      assert edges[e].uplinks == EdgeTier(k)[e].uplinks;
    }
  }

  /** Pod membership by id agrees with the wiring: two edge switches are in the same
      pod exactly when they uplink to the same aggregation switches. */
  lemma SamePodIffSameUplinks(k: int, edges: seq<Switch>, s: int, d: int)
    requires ValidK(k) && EdgesWired(k, edges) && 0 <= s < |edges| && 0 <= d < |edges|
    ensures InSamePod(k, s, d) <==> edges[s].uplinks == edges[d].uplinks
  {
    var h := k / 2;
    assert edges[s].uplinks == PodBlock(k, s) && edges[d].uplinks == PodBlock(k, d);
    if edges[s].uplinks == edges[d].uplinks {
      assert PodBlock(k, s)[0] == PodBlock(k, d)[0];
      DivModOf(s / h, 0, h);
      DivModOf(d / h, 0, h);
    }
  }

  /** An edge switch's first uplink is the first aggregation switch of its pod, and
      that link is recorded on both ends. */
  lemma FirstHop(k: int, core: seq<Switch>, agg: seq<Switch>, edges: seq<Switch>, s: int)
    requires Wired(k, core, agg, edges) && 0 <= s < |edges|
    ensures edges[s].uplinks != [] && edges[s].uplinks[0] == (s / (k / 2)) * (k / 2)
    ensures Linked(core, agg, edges, Edge(s), Agg((s / (k / 2)) * (k / 2)))
  {
    var h := k / 2;
    TierSizes(k, s);
    var p := s / h;
    EdgeUplinksAt(k, p, s % h, s);
    assert edges[s].uplinks == EdgeTier(k)[s].uplinks;
    AggregationDownlinksAt(k, p, 0, p * h);
    assert agg[p * h].downlinks[s % h] == s;
  }

  /** The first aggregation switch of every pod has core switch 0 as its first
      uplink, and that link is recorded on both ends. */
  lemma CoreHop(k: int, core: seq<Switch>, agg: seq<Switch>, edges: seq<Switch>, p: int)
    requires Wired(k, core, agg, edges) && 0 <= p < k
    ensures 0 <= p * (k / 2) < |agg| && agg[p * (k / 2)].uplinks != [] && agg[p * (k / 2)].uplinks[0] == 0
    ensures Linked(core, agg, edges, Agg(p * (k / 2)), Core(0))
  {
    var h := k / 2;
    AggregationUplinksAt(k, p, 0, p * h);
    CoreDownlinksAt(k, 0);
    assert core[0].downlinks[p] == p * h;
  }

  /** The path query on a wired network: it has length 1, 3 or 5 according as the
      hosts share an edge switch, share only a pod, or are in different pods; it runs
      from the source's edge switch to the destination's; and every step follows a
      link. In particular the core switch it picks is always linked to the
      destination's aggregation switch. */
  lemma RouteIsConnected(k: int, core: seq<Switch>, agg: seq<Switch>, edges: seq<Switch>, s: int, d: int)
    requires Wired(k, core, agg, edges) && 0 <= s < |edges| && 0 <= d < |edges|
    ensures FirstUplinksExist(edges, agg)
    ensures var r := Route(k, edges, agg, Some(s), Some(d));
      && r[0] == Edge(s) && r[|r| - 1] == Edge(d)
      && (|r| == 1 <==> s == d)
      && (|r| == 3 <==> s != d && InSamePod(k, s, d))
      && (|r| == 5 <==> !InSamePod(k, s, d))
      && Connected(core, agg, edges, r)
  {
    WiredFirstUplinksExist(k, core, agg, edges);
    var h := k / 2;
    var r := Route(k, edges, agg, Some(s), Some(d));
    TierSizes(k, s);
    TierSizes(k, d);
    var as0, ad0 := (s / h) * h, (d / h) * h;
    FirstHop(k, core, agg, edges, s);
    FirstHop(k, core, agg, edges, d);
    if s == d {
      assert r == [Edge(s)];
    } else if InSamePod(k, s, d) {
      assert r == [Edge(s), Agg(as0), Edge(d)];
      assert Adjacent(core, agg, edges, r[1], r[2]);
    } else {
      CoreHop(k, core, agg, edges, s / h);
      CoreHop(k, core, agg, edges, d / h);
      assert r == [Edge(s), Agg(as0), Core(0), Agg(ad0), Edge(d)];
      assert Adjacent(core, agg, edges, r[2], r[3]);
      assert Adjacent(core, agg, edges, r[3], r[4]);
    }
  }
}
