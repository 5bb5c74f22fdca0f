/** The NI-DNET interface: a master on a National Instruments card, known to
    the SDK by the name "dnet" followed by its interface number. */
module NiInterfaces {
  import opened Prims
  import opened Defs
  import opened Vendor
  import opened Errs
  import opened Reporting
  import opened Nodes
  import opened Interfaces
  import opened NiDriver

  /** Interface number and the SDK's handle of the interface object. */
  datatype NiInterface = NiInterface(base: Interface, intfId: uint8, handle: uint32)
  {
    predicate Active() { base.node.active }
    function Mac(): uint8 { base.node.mac }
  }

  /** The SDK's interface numbers run from 0 to 31. */
  const MAX_INTF_ID: int := 32

  /** Default constructor: interface 0, no handle. */
  function NewNiInterface(): (i: NiInterface)
    ensures i.base == NewInterface() && i.intfId == 0 && i.handle == 0
  {
    NiInterface(NewInterface(), 0, 0)
  }

  /** `SetIntfID`: only on an inactive interface and only for a number below
      32. */
  function SetIntfID(i: NiInterface, id: uint8): (r: NiInterface)
    ensures r.intfId == (if !i.Active() && id < MAX_INTF_ID then id else i.intfId)
    ensures r.(intfId := i.intfId) == i
    ensures i.intfId < MAX_INTF_ID ==> r.intfId < MAX_INTF_ID
  {
    if !i.Active() && id < MAX_INTF_ID then i.(intfId := id) else i
  }

  /** Parameterised constructor: no connection sizes, the baud rate through
      `SetBaudRate`, the interface number through `SetIntfID`, no handle. */
  function MakeNiInterface(mid: uint8, br: uint8, iid: uint8): (i: NiInterface)
    ensures i.base == MakeInterface(mid, 0, 0, br) && !i.Active()
    ensures i.intfId == (if iid < MAX_INTF_ID then iid else 0)
    ensures i.handle == 0
  {
    SetIntfID(NiInterface(MakeInterface(mid, 0, 0, br), 0, 0), iid)
  }

  /** The interface's SDK name: "dnet" and the decimal interface number. */
  function NameOf(i: NiInterface): string {
    "dnet" + NatToDecimal(i.intfId)
  }

  /** `GetName`: the name copied into a buffer of `size` characters. */
  function GetName(i: NiInterface, size: nat): (buf: string)
    ensures |buf| == size
    ensures forall k :: 0 <= k < size && k < |NameOf(i)| ==> buf[k] == NameOf(i)[k]
    ensures forall k :: |NameOf(i)| <= k < size ==> buf[k] == '\0'
  {
    StrNCpy(NameOf(i), size)
  }

  /** For the numbers the setter admits the name has at most six characters,
      so it fits the seven-character buffer with its terminator, and the
      digits after "dnet" read back as the interface number. */
  lemma {:induction false} NameRoundTrip(i: NiInterface)
    requires i.intfId < MAX_INTF_ID
    ensures |NameOf(i)| <= 6
    ensures NameOf(i)[..4] == "dnet"
    ensures forall k :: 4 <= k < |NameOf(i)| ==> IsDigit(NameOf(i)[k])
    ensures DecimalValue(NameOf(i)[4..]) == i.intfId
    ensures GetName(i, 7)[|NameOf(i)|] == '\0'
  {
    assert Pow10(2) == 100;
    DecimalLength(i.intfId, 2);
    DecimalRoundTrip(i.intfId);
    assert NameOf(i)[4..] == NatToDecimal(i.intfId);
  }

  /** The SDK's baud codes. */
  const BAUD_125K: int := 1
  const BAUD_250K: int := 2
  const BAUD_500K: int := 3

  /** `BR_TO_CONST` of the SDK backend: each valid rate to its SDK code (the
      same number as the module's own code), anything else to 125K. */
  function BrToConst(br: uint8): (c: int)
    ensures ValidBaud(br) ==> c == br
    ensures !ValidBaud(br) ==> c == BAUD_125K
  {
    if br == DEVICENET_BAUD_500K then BAUD_500K
    else if br == DEVICENET_BAUD_250K then BAUD_250K
    else BAUD_125K
  }

  /** The result of an interface operation. */
  datatype Outcome = Outcome(code: int, intf: NiInterface, msg: LastMsg, calls: seq<NcCall>)

  /** SDK answers for `Open`: the open status with the handle it leaves,
      and the start status. */
  datatype OpenScript = OpenScript(openStatus: int32, handle: uint32, startStatus: int32)

  function Classify(i: NiInterface, s: int32, m: LastMsg): Reported {
    NiStatus(s, i.intfId, i.Mac(), m)
  }

  /** `Open`: nothing on an active interface. Otherwise open the interface
      object by name (a negative status returns with the interface still
      inactive) and start it; the interface becomes active exactly when the
      start status is not negative. */
  function Open(i: NiInterface, sc: OpenScript, m: LastMsg): (r: Outcome)
    ensures i.Active() ==> r == Outcome(ERR_NOERR, i, m, [])
    ensures !i.Active() ==>
      |r.calls| >= 1 && r.calls[0] == OpenDnetIntf(NameOf(i), i.Mac(), BrToConst(i.base.baud), NC_POLL_INDIV)
    ensures !i.Active() && sc.openStatus < 0 ==>
      !r.intf.Active() && r.code == ERR_NIDNET && |r.calls| == 1
    ensures !i.Active() && sc.openStatus >= 0 ==>
      && r.intf.Active() == (sc.startStatus >= 0)
      && |r.calls| == 2 && r.calls[1] == OperateDnetIntf(sc.handle, NC_OP_START)
      && Reported(r.code, r.msg) == SetNiError(sc.startStatus, i.intfId, i.Mac())
    ensures !i.Active() ==> r.intf.handle == sc.handle
    ensures r.intf.(base := i.base, handle := i.handle) == i && r.intf.base.(node := i.base.node) == i.base
  {
    if i.Active() then Outcome(ERR_NOERR, i, m, [])
    else
      var open := OpenDnetIntf(NameOf(i), i.Mac(), BrToConst(i.base.baud), NC_POLL_INDIV);
      var e := Classify(i, sc.openStatus, m);
      var i1 := i.(handle := sc.handle);
      if sc.openStatus < 0 then Outcome(e.code, i1, e.msg, [open])
      else
        var e2 := Classify(i, sc.startStatus, e.msg);
        var i2 := if sc.startStatus >= 0 then i1.(base := i1.base.(node := i1.base.node.(active := true))) else i1;
        Outcome(e2.code, i2, e2.msg, [open, OperateDnetIntf(sc.handle, NC_OP_START)])
  }

  /** SDK answers for `CloseInterface`. */
  datatype CloseScript = CloseScript(stopStatus: int32, closeStatus: int32)

  /** `CloseInterface`: on an active interface stop and close the interface
      object, then zero the handle and clear the active flag. An inactive
      interface is left as it is, handle included. The result is always 0:
      the classifications land in an inner variable that shadows the
      returned one, though they still set the message. */
  function CloseInterface(i: NiInterface, sc: CloseScript, m: LastMsg): (r: Outcome)
    ensures r.code == ERR_NOERR
    ensures !r.intf.Active()
    ensures i.Active() ==> r.intf == i.(handle := 0, base := i.base.(node := i.base.node.(active := false)))
    ensures !i.Active() ==> r.intf == i && r.calls == [] && r.msg == m
    ensures i.Active() ==>
      && r.calls == [OperateDnetIntf(i.handle, NC_OP_STOP), CloseObject(i.handle)]
      && r.msg == SetNiError(sc.closeStatus, i.intfId, i.Mac()).msg
  {
    if i.Active() then
      var e1 := Classify(i, sc.stopStatus, m);
      var e2 := Classify(i, sc.closeStatus, e1.msg);
      var r := i.(handle := 0, base := i.base.(node := i.base.node.(active := false)));
      Outcome(ERR_NOERR, r, e2.msg, [OperateDnetIntf(i.handle, NC_OP_STOP), CloseObject(i.handle)])
    else Outcome(ERR_NOERR, i, m, [])
  }

  /** `Close` delegates to `CloseInterface`. */
  function Close(i: NiInterface, sc: CloseScript, m: LastMsg): (r: Outcome)
    ensures r == CloseInterface(i, sc, m)
  {
    CloseInterface(i, sc, m)
  }

  /** Closing twice: the second close makes no call. */
  lemma CloseTwice(i: NiInterface, sc1: CloseScript, sc2: CloseScript, m: LastMsg)
    ensures var r1 := Close(i, sc1, m);
      Close(r1.intf, sc2, r1.msg) == Outcome(ERR_NOERR, r1.intf, r1.msg, [])
  {
  }

  /** An open that succeeds followed by a start that fails leaves the
      interface inactive holding the opened object's handle; `Close` then
      makes no call and keeps the handle, so the object is never closed. */
  lemma {:induction false} FailedStartKeepsHandle(i: NiInterface, h: uint32, start: int32, sc: CloseScript, m: LastMsg)
    requires !i.Active() && start < 0
    ensures var o := Open(i, OpenScript(0, h, start), m);
      var c := Close(o.intf, sc, o.msg);
      && !o.intf.Active() && o.intf.handle == h
      && c.calls == [] && c.intf.handle == h
  {
    var o := Open(i, OpenScript(0, h, start), m);
    assert !o.intf.Active() && o.intf.handle == h;
  }

  /** `Reset`: reset the interface by name, active or not, and return the
      classification; the interface is not changed. */
  function Reset(i: NiInterface, status: int32, m: LastMsg): (r: Outcome)
    ensures r.intf == i && r.calls == [ResetIntf(NameOf(i), 0)]
    ensures Reported(r.code, r.msg) == SetNiError(status, i.intfId, i.Mac())
  {
    var e := Classify(i, status, m);
    Outcome(e.code, i, e.msg, [ResetIntf(NameOf(i), 0)])
  }

  /** The reset does not look at the active flag. */
  lemma ResetIgnoresActive(i: NiInterface, a: bool, status: int32, m: LastMsg)
    ensures var j := i.(base := i.base.(node := i.base.node.(active := a)));
      Reset(j, status, m).code == Reset(i, status, m).code && Reset(j, status, m).calls == Reset(i, status, m).calls
  {
  }
}
