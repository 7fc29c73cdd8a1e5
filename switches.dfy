/** Values shared by both fat-tree builders: hosts, switches and references to switches. */
module Switches {

  /** A CloudSim network host, known to the topology only by its identity. */
  type Host = int

  datatype Option<T> = None | Some(value: T)

  /** A switch of any tier. Links are indices into the tier above (uplinks)
      or below (downlinks); `hosts` is the host list of an edge switch. */
  datatype Switch = Switch(uplinks: seq<int>, downlinks: seq<int>, hosts: seq<Host>)

  /** A switch named by its tier and its index in that tier's list. */
  datatype SwitchRef = Core(index: int) | Agg(index: int) | Edge(index: int)

  /** A freshly constructed switch: no links, no hosts. */
  const NewSwitch: Switch := Switch([], [], [])

  /** The contents of a tier list right after `n` switches have been created. */
  function Unwired(n: nat): (r: seq<Switch>)
    ensures |r| == n
  {
    seq(n, _ => NewSwitch)
  }

  function Min(a: int, b: int): int { if a <= b then a else b }

  function AddUplink(s: Switch, x: int): Switch { s.(uplinks := s.uplinks + [x]) }

  function AddDownlink(s: Switch, x: int): Switch { s.(downlinks := s.downlinks + [x]) }

  function AddHost(s: Switch, h: Host): Switch { s.(hosts := s.hosts + [h]) }

  function AddHosts(s: Switch, hs: seq<Host>): Switch { s.(hosts := s.hosts + hs) }
}
