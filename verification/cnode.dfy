/** A DeviceNet node: the state interfaces and devices share. */
module Nodes {
  import opened Prims
  import opened Defs

  /** Active flag, MAC id and the consumed/produced connection sizes. */
  datatype Node = Node(active: bool, mac: uint8, consumed: uint8, produced: uint8)

  /** The MAC id stays within the DeviceNet range. */
  predicate Valid(n: Node) {
    n.mac < DEVICENET_MAX_DEVICES
  }

  /** Default constructor: inactive, MAC 0, no connection data. */
  function NewNode(): (n: Node)
    ensures !n.active && n.mac == 0 && n.consumed == 0 && n.produced == 0
    ensures Valid(n)
  {
    Node(false, 0, 0, 0)
  }

  /** `SetMacID`: takes the id only on an inactive node and only when it is a
      valid MAC id; everything else stays as it was. */
  function SetMacID(n: Node, mid: uint8): (r: Node)
    ensures r.mac == (if !n.active && mid < DEVICENET_MAX_DEVICES then mid else n.mac)
    ensures r.active == n.active && r.consumed == n.consumed && r.produced == n.produced
    ensures Valid(n) ==> Valid(r)
  {
    if !n.active && mid < DEVICENET_MAX_DEVICES then n.(mac := mid) else n
  }

  /** Parameterised constructor: inactive; the MAC id is taken when valid and
      is 0 otherwise; the sizes are stored as given. */
  function MakeNode(mid: uint8, ccs: uint8, pcs: uint8): (n: Node)
    ensures !n.active
    ensures n.mac == (if mid < DEVICENET_MAX_DEVICES then mid else 0)
    ensures n.consumed == ccs && n.produced == pcs
    ensures Valid(n)
  {
    var n := SetMacID(Node(false, 0, 0, 0), mid);
    n.(consumed := ccs, produced := pcs)
  }

  /** `SetConsumedConnSize`: unconditional, even on an active node. */
  function SetConsumedConnSize(n: Node, ccs: uint8): (r: Node)
    ensures r.consumed == ccs
    ensures r.active == n.active && r.mac == n.mac && r.produced == n.produced
  {
    n.(consumed := ccs)
  }

  /** `SetProducedConnSize`: unconditional, even on an active node. */
  function SetProducedConnSize(n: Node, pcs: uint8): (r: Node)
    ensures r.produced == pcs
    ensures r.active == n.active && r.mac == n.mac && r.consumed == n.consumed
  {
    n.(produced := pcs)
  }

  /** Setting the MAC id twice with the same value is the same as once, and on
      an active node the id cannot change at all. */
  lemma SetMacIDIdempotent(n: Node, mid: uint8)
    ensures SetMacID(SetMacID(n, mid), mid) == SetMacID(n, mid)
    ensures n.active ==> forall m: uint8 :: SetMacID(n, m) == n
  {
  }
}
