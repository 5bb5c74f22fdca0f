/** The interface base class: a node with a baud rate. */
module Interfaces {
  import opened Prims
  import opened Defs
  import opened Nodes

  datatype Interface = Interface(node: Node, baud: uint8)

  /** Default constructor: a default node and baud rate 0. */
  function NewInterface(): (i: Interface)
    ensures i.node == NewNode() && i.baud == 0
  {
    Interface(NewNode(), 0)
  }

  /** `SetBaudRate`: stores the argument only on an inactive interface and
      only when it is one of the three baud codes; in every other case,
      including an active interface, it stores 250K. */
  function SetBaudRate(i: Interface, br: uint8): (r: Interface)
    ensures r.node == i.node
    ensures !i.node.active && ValidBaud(br) ==> r.baud == br
    ensures i.node.active || !ValidBaud(br) ==> r.baud == DEVICENET_BAUD_250K
    ensures ValidBaud(r.baud)
  {
    if !i.node.active && ValidBaud(br) then i.(baud := br) else i.(baud := DEVICENET_BAUD_250K)
  }

  /** Parameterised constructor: the node constructor's rules, then the baud
      rate through `SetBaudRate`, so an invalid code becomes 250K. */
  function MakeInterface(mid: uint8, ccs: uint8, pcs: uint8, br: uint8): (i: Interface)
    ensures i.node == MakeNode(mid, ccs, pcs)
    ensures i.baud == (if ValidBaud(br) then br else DEVICENET_BAUD_250K)
  {
    SetBaudRate(Interface(MakeNode(mid, ccs, pcs), 0), br)
  }

  /** Setting the same rate twice, or re-setting the rate just stored, changes
      nothing, active or not. */
  lemma SetBaudRateStable(i: Interface, br: uint8)
    ensures SetBaudRate(SetBaudRate(i, br), br) == SetBaudRate(i, br)
    ensures SetBaudRate(SetBaudRate(i, br), SetBaudRate(i, br).baud) == SetBaudRate(i, br)
  {
  }
}
