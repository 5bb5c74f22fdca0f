/** The device base class: a node with a connection type, an expected packet
    rate and the interface it is attached to. */
module Devices {
  import opened Prims
  import opened Defs
  import opened Nodes

  /** The interface is held as the raw pointer value; the object it points to
      is supplied separately to the operations that dereference it. */
  datatype Device = Device(node: Node, connType: bv8, epr: uint16, intf: Ptr)

  /** Default constructor: connection type 0, EPR 0, null interface. */
  function NewDevice(): (d: Device)
    ensures d.node == NewNode() && d.connType == 0 && d.epr == 0 && d.intf == 0
  {
    Device(NewNode(), 0, 0, 0)
  }

  /** `SetConnType`: any bit pattern on an inactive device; nothing when
      active. */
  function SetConnType(d: Device, ct: bv8): (r: Device)
    ensures r.connType == (if d.node.active then d.connType else ct)
    ensures r.node == d.node && r.epr == d.epr && r.intf == d.intf
  {
    if !d.node.active then d.(connType := ct) else d
  }

  /** `SetEPR`: only on an inactive device. */
  function SetEPR(d: Device, epr: uint16): (r: Device)
    ensures r.epr == (if d.node.active then d.epr else epr)
    ensures r.node == d.node && r.connType == d.connType && r.intf == d.intf
  {
    if !d.node.active then d.(epr := epr) else d
  }

  /** Parameterised constructor: the node rules, then connection type, EPR
      and the interface pointer stored without validation. */
  function MakeDevice(mid: uint8, ccs: uint8, pcs: uint8, ct: bv8, epr: uint16, intf: Ptr): (d: Device)
    ensures d.node == MakeNode(mid, ccs, pcs)
    ensures d.connType == ct && d.epr == epr && d.intf == intf
  {
    SetConnType(Device(MakeNode(mid, ccs, pcs), 0, 0, 0), ct).(epr := epr, intf := intf)
  }
}
