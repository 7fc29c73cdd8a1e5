/** Which hosts the `connectHosts` loops of both builders place on which edge switch.
    Both loops walk the edge switches in list order and give each one up to
    `perSwitch` hosts, taken in input order, until `limit` hosts are placed. */
module HostAssignment {
  import opened Switches
  import opened IndexArith

  /** The hosts placed on edge switch `j`: the slice of the input that starts where
      switch `j-1` stopped, at most `perSwitch` long, and never past `limit`. */
  function HostsFor(list: seq<Host>, perSwitch: nat, limit: nat, j: nat): (r: seq<Host>)
    requires limit <= |list|
    ensures |r| <= perSwitch
  {
    list[Min(j * perSwitch, limit) .. Min(j * perSwitch + perSwitch, limit)]
  }

  /** The hosts placed on switches `0 .. m-1`, switch after switch. */
  function Placed(list: seq<Host>, perSwitch: nat, limit: nat, m: nat): seq<Host>
    requires limit <= |list|
  {
    if m == 0 then [] else Placed(list, perSwitch, limit, m - 1) + HostsFor(list, perSwitch, limit, m - 1)
  }

  /** Placement keeps the input order and skips nobody: the first `m` switches hold,
      in order, exactly the first `min(m·perSwitch, limit)` hosts of the input. */
  lemma {:induction false} PlacedIsPrefix(list: seq<Host>, perSwitch: nat, limit: nat, m: nat)
    requires limit <= |list|
    ensures Placed(list, perSwitch, limit, m) == list[..Min(m * perSwitch, limit)]
  {
    if m > 0 {
      PlacedIsPrefix(list, perSwitch, limit, m - 1);
      assert (m - 1) * perSwitch + perSwitch == m * perSwitch;
      MulLeMono(m - 1, m, perSwitch);
      var a := Min((m - 1) * perSwitch, limit);
      var b := Min(m * perSwitch, limit);
      assert list[..a] + list[a..b] == list[..b];
    }
  }

  /** When the switches can hold `limit` hosts, all of the first `limit` hosts are placed. */
  lemma AllPlaced(list: seq<Host>, perSwitch: nat, limit: nat, m: nat)
    requires limit <= |list| && limit <= m * perSwitch
    ensures Placed(list, perSwitch, limit, m) == list[..limit]
  {
    PlacedIsPrefix(list, perSwitch, limit, m);
  }

  /** Switches fill in order: a switch that received any host has every earlier
      switch full, at `perSwitch` hosts. */
  lemma FillOrder(list: seq<Host>, perSwitch: nat, limit: nat, j1: nat, j2: nat)
    requires limit <= |list| && j1 < j2 && HostsFor(list, perSwitch, limit, j2) != []
    ensures |HostsFor(list, perSwitch, limit, j1)| == perSwitch
  {
    var start := j2 * perSwitch;
    assert Min(start, limit) < Min(start + perSwitch, limit);
    assert start < limit;
    MulLeMono(j1 + 1, j2, perSwitch);
    assert j1 * perSwitch + perSwitch == (j1 + 1) * perSwitch <= start;
  }

  /** The host at input position `t < limit` lands on switch `t / perSwitch`, at
      position `t mod perSwitch` of what that switch receives. */
  lemma HostPlacement(list: seq<Host>, perSwitch: nat, limit: nat, t: nat)
    requires limit <= |list| && perSwitch > 0 && t < limit
    ensures t % perSwitch < |HostsFor(list, perSwitch, limit, t / perSwitch)|
    ensures HostsFor(list, perSwitch, limit, t / perSwitch)[t % perSwitch] == list[t]
  {
    var j := t / perSwitch;
    assert t == j * perSwitch + t % perSwitch;
  }

  /** Past the switch where `limit` is reached, switches receive nothing. */
  lemma NothingAfterLimit(list: seq<Host>, perSwitch: nat, limit: nat, i: nat, j: nat)
    requires limit <= |list| && i <= j && limit <= i * perSwitch
    ensures HostsFor(list, perSwitch, limit, j) == []
  {
    MulLeMono(i, j, perSwitch);
  }
}
