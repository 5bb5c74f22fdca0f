/** A slave device reached through an NI-DNET interface: an I/O connection
    object and an explicit-messaging object, each held by a handle that is
    0 while the object is not open. */
module NiDevices {
  import opened Prims
  import opened Wrappers
  import opened Defs
  import opened Vendor
  import opened Errs
  import opened Reporting
  import opened Nodes
  import opened Devices
  import opened NiDriver
  import opened Targets
  import NI = NiInterfaces
  import Identity

  /** The objects `Allocate` may open; I/O only by default. */
  const NI_CONN_IO: bv8 := 0x01
  const NI_CONN_EM: bv8 := 0x02
  const DEFAULT_FLAGS: bv8 := NI_CONN_IO

  /** `CT_TO_CT` of the SDK backend. */
  const NiConnBits := ConnBits(NC_CONN_POLL, NC_CONN_STROBE, NC_CONN_COS, NC_CONN_CYCLIC)

  /** Timeouts handed to the SDK, in milliseconds. */
  const WAIT_TIMEOUT: int := 10000
  const ATTRIBUTE_TIMEOUT: int := 2000

  datatype NiDevice = NiDevice(base: Device, hIO: uint32, hEM: uint32)
  {
    predicate Active() { base.node.active }
    function Mac(): uint8 { base.node.mac }
  }

  function WithActive(d: NiDevice, a: bool): NiDevice {
    d.(base := d.base.(node := d.base.node.(active := a)))
  }

  /** The constructors as written: the handles are not initialised, so they
      hold whatever the object's storage held. */
  function NewNiDeviceAsWritten(hIO: uint32, hEM: uint32): (d: NiDevice)
    ensures d.base == NewDevice() && d.hIO == hIO && d.hEM == hEM
  {
    NiDevice(NewDevice(), hIO, hEM)
  }

  function MakeNiDeviceAsWritten(mid: uint8, ccs: uint8, pcs: uint8, ct: bv8, epr: uint16, intf: Ptr,
                                 hIO: uint32, hEM: uint32): (d: NiDevice)
    ensures d.base == MakeDevice(mid, ccs, pcs, ct, epr, intf) && d.hIO == hIO && d.hEM == hEM
  {
    NiDevice(MakeDevice(mid, ccs, pcs, ct, epr, intf), hIO, hEM)
  }

  /** The constructors as intended: no object open yet. */
  function NewNiDevice(): (d: NiDevice)
    ensures d.base == NewDevice() && d.hIO == 0 && d.hEM == 0 && !d.Active()
  {
    NiDevice(NewDevice(), 0, 0)
  }

  function MakeNiDevice(mid: uint8, ccs: uint8, pcs: uint8, ct: bv8, epr: uint16, intf: Ptr): (d: NiDevice)
    ensures d.base == MakeDevice(mid, ccs, pcs, ct, epr, intf) && d.hIO == 0 && d.hEM == 0 && !d.Active()
  {
    NiDevice(MakeDevice(mid, ccs, pcs, ct, epr, intf), 0, 0)
  }

  /** The result of an operation that can change the device. */
  datatype Outcome = Outcome(code: int, dev: NiDevice, msg: LastMsg, calls: seq<NcCall>)

  /** The result of a request that leaves the device as it is. */
  datatype Step = Step(code: int, msg: LastMsg, calls: seq<NcCall>)

  /** SDK answers for `Allocate`: each open's status with the handle it
      writes back, and the status of the wait for the established state. */
  datatype AllocScript = AllocScript(ioStatus: int32, ioHandle: uint32, emStatus: int32, emHandle: uint32,
                                     waitStatus: int32)

  function IoOpenCall(d: NiDevice, i: NI.NiInterface): NcCall {
    OpenDnetIO(NI.NameOf(i), d.Mac(), TranslateConnType(d.base.connType, NiConnBits),
               d.base.node.consumed, d.base.node.produced, d.base.epr)
  }

  /** The last step of `Allocate`: wait for an open explicit-messaging
      object to be established, then mark the device active when nothing
      failed on the way. */
  function AllocateWait(d: NiDevice, i: NI.NiInterface, sc: AllocScript, e: Reported, calls: seq<NcCall>): (r: Outcome)
    ensures r.dev == WithActive(d, r.dev.Active())
    ensures r.dev.Active() == (d.Active() || r.code == ERR_NOERR)
    ensures d.hEM == 0 ==> r.calls == calls && r.code == e.code
    ensures d.hEM != 0 ==>
      && r.calls == calls + [WaitForState(d.hEM, NC_ST_ESTABLISHED, WAIT_TIMEOUT)]
      && Reported(r.code, r.msg) == SetNiError(sc.waitStatus, i.intfId, d.Mac())
  {
    var e' := if d.hEM != 0 then NiStatus(sc.waitStatus, i.intfId, d.Mac(), e.msg) else e;
    var calls' := if d.hEM != 0 then calls + [WaitForState(d.hEM, NC_ST_ESTABLISHED, WAIT_TIMEOUT)] else calls;
    Outcome(e'.code, if e'.code == ERR_NOERR then WithActive(d, true) else d, e'.msg, calls')
  }

  /** The middle step: open the explicit-messaging object when asked and
      not yet open; any status other than 0 returns. */
  function AllocateEm(d: NiDevice, i: NI.NiInterface, flags: bv8, sc: AllocScript, e: Reported, calls: seq<NcCall>): (r: Outcome)
    ensures r.dev.base == d.base.(node := d.base.node.(active := r.dev.Active()))
    ensures r.dev.Active() == (d.Active() || r.code == ERR_NOERR)
    ensures r.dev.hIO == d.hIO
    ensures r.dev.hEM == (if d.hEM == 0 && flags & NI_CONN_EM != 0 then sc.emHandle else d.hEM)
    ensures |r.calls| >= |calls| && r.calls[..|calls|] == calls
  {
    if d.hEM == 0 && flags & NI_CONN_EM != 0 then
      var e' := NiStatus(sc.emStatus, i.intfId, d.Mac(), e.msg);
      var d' := d.(hEM := sc.emHandle);
      var calls' := calls + [OpenDnetExplMsg(NI.NameOf(i), d.Mac())];
      if sc.emStatus != 0 then Outcome(e'.code, d', e'.msg, calls')
      else
        var r := AllocateWait(d', i, sc, e', calls');
        assert r.calls[..|calls|] == calls'[..|calls|];
        r
    else AllocateWait(d, i, sc, e, calls)
  }

  /** `Allocate`: after the guards (pointer, kind, interface state; they
      return without touching the device), open the I/O object when asked
      and not yet open (a negative status returns), open the
      explicit-messaging object likewise, wait for it to be established,
      and mark the device active when the last status recorded is clean.
      A handle that is already nonzero is taken as an open object. */
  function Allocate(d: NiDevice, t: Target, flags: bv8, sc: AllocScript, m: LastMsg): (r: Outcome)
    ensures var g := KindFirst(d.Mac(), d.base.intf, t, NI_KIND, "Allocate", m);
      g.Some? ==> r == Outcome(g.value.code, d, g.value.msg, [])
    ensures r.dev.base == d.base.(node := d.base.node.(active := r.dev.Active()))
    ensures r.dev.Active() == (d.Active() || r.code == ERR_NOERR)
    ensures var pass := KindFirst(d.Mac(), d.base.intf, t, NI_KIND, "Allocate", m).None?;
      var openIo := pass && d.hIO == 0 && flags & NI_CONN_IO != 0;
      && r.dev.hIO == (if openIo then sc.ioHandle else d.hIO)
      && r.dev.hEM == (if pass && !(openIo && sc.ioStatus < 0) && d.hEM == 0 && flags & NI_CONN_EM != 0 then sc.emHandle else d.hEM)
      && (openIo ==> t.NiTarget? && |r.calls| >= 1 && r.calls[0] == IoOpenCall(d, t.ni))
      && (openIo && sc.ioStatus < 0 ==> |r.calls| == 1 && r.code == ERR_NIDNET)
    ensures KindFirst(d.Mac(), d.base.intf, t, NI_KIND, "Allocate", m).None? && d.hIO != 0 && d.hEM != 0 ==>
      && t.NiTarget?
      && r.calls == [WaitForState(d.hEM, NC_ST_ESTABLISHED, WAIT_TIMEOUT)]
      && Reported(r.code, r.msg) == SetNiError(sc.waitStatus, t.ni.intfId, d.Mac())
  {
    match KindFirst(d.Mac(), d.base.intf, t, NI_KIND, "Allocate", m)
    case Some(g) => Outcome(g.code, d, g.msg, [])
    case None =>
      KindTest(t);
      var i := t.ni;
      if d.hIO == 0 && flags & NI_CONN_IO != 0 then
        var e := NiStatus(sc.ioStatus, i.intfId, d.Mac(), m);
        var d' := d.(hIO := sc.ioHandle);
        if sc.ioStatus < 0 then Outcome(e.code, d', e.msg, [IoOpenCall(d, i)])
        else
          var r := AllocateEm(d', i, flags, sc, e, [IoOpenCall(d, i)]);
          assert r.calls[0] == r.calls[..1][0];
          r
      else AllocateEm(d, i, flags, sc, Reported(ERR_NOERR, m), [])
  }

  /** As written, a device whose I/O handle storage happened to hold the
      debug-heap fill pattern is allocated without any SDK call: the open is
      skipped, nothing fails, and the device turns active holding a handle
      the SDK never issued. */
  lemma AllocateAsWrittenSkipsOpen(mid: uint8, ccs: uint8, pcs: uint8, ct: bv8, epr: uint16, p: Ptr,
                                   i: NI.NiInterface, sc: AllocScript, m: LastMsg)
    requires IsPtrValid(p) && i.Active()
    ensures var d := MakeNiDeviceAsWritten(mid, ccs, pcs, ct, epr, p, 0xcdcdcdcd, 0);
      var r := Allocate(d, NiTarget(i), NI_CONN_IO, sc, m);
      && r.calls == [] && r.code == ERR_NOERR && r.dev.Active() && r.dev.hIO == 0xcdcdcdcd
  {
    KindTest(NiTarget(i));
  }

  /** With the handles zeroed, the default allocation opens the I/O object
      first, with the interface's name and the device's parameters, and keeps
      the handle the SDK returns. */
  lemma AllocateFreshOpensIo(mid: uint8, ccs: uint8, pcs: uint8, ct: bv8, epr: uint16, p: Ptr,
                             i: NI.NiInterface, sc: AllocScript, m: LastMsg)
    requires IsPtrValid(p) && i.Active()
    ensures var d := MakeNiDevice(mid, ccs, pcs, ct, epr, p);
      var r := Allocate(d, NiTarget(i), DEFAULT_FLAGS, sc, m);
      && |r.calls| >= 1
      && r.calls[0] == OpenDnetIO(NI.NameOf(i), d.Mac(), TranslateConnType(ct, NiConnBits), ccs, pcs, epr)
      && r.dev.hIO == sc.ioHandle && r.dev.hEM == 0
      && (r.dev.Active() <==> r.code == ERR_NOERR)
  {
    KindTest(NiTarget(i));
  }

  /** SDK answers for `Unallocate`: the two close statuses. */
  datatype UnallocScript = UnallocScript(ioClose: int32, emClose: int32)

  /** The interface id `Unallocate` reports with: the interface's when the
      pointer is valid and names an NI interface, 0 otherwise. */
  function ReportId(d: NiDevice, t: Target): (id: uint16)
    ensures IsPtrValid(d.base.intf) && t.NiTarget? ==> id == t.ni.intfId
    ensures !(IsPtrValid(d.base.intf) && t.NiTarget?) ==> id == 0
  {
    KindTest(t);
    if IsPtrValid(d.base.intf) && Identity.IsAName(t.ClassOf(), NI_KIND) then t.ni.intfId else 0
  }

  /** `Unallocate`: close every open object, zeroing its handle whatever
      the close returned, and mark the device inactive; there are no
      guards. The explicit-messaging close, when there is one, decides the
      result. */
  function Unallocate(d: NiDevice, t: Target, sc: UnallocScript, m: LastMsg): (r: Outcome)
    ensures r.dev == WithActive(d, false).(hIO := 0, hEM := 0)
    ensures r.calls == (if d.hIO != 0 then [CloseObject(d.hIO)] else []) + (if d.hEM != 0 then [CloseObject(d.hEM)] else [])
    ensures d.hEM != 0 ==> Reported(r.code, r.msg) == SetNiError(sc.emClose, ReportId(d, t), d.Mac())
    ensures d.hEM == 0 && d.hIO != 0 ==> Reported(r.code, r.msg) == SetNiError(sc.ioClose, ReportId(d, t), d.Mac())
    ensures d.hEM == 0 && d.hIO == 0 ==> r.code == ERR_NOERR && r.msg == m
  {
    var iid := ReportId(d, t);
    var e1 := if d.hIO != 0 then NiStatus(sc.ioClose, iid, d.Mac(), m) else Reported(ERR_NOERR, m);
    var e2 := if d.hEM != 0 then NiStatus(sc.emClose, iid, d.Mac(), e1.msg) else e1;
    var calls := (if d.hIO != 0 then [CloseObject(d.hIO)] else []) + (if d.hEM != 0 then [CloseObject(d.hEM)] else []);
    Outcome(e2.code, WithActive(d, false).(hIO := 0, hEM := 0), e2.msg, calls)
  }

  /** A second `Unallocate` finds nothing open: no call, 0, and the same
      device. */
  lemma {:induction false} UnallocateTwice(d: NiDevice, t: Target, sc1: UnallocScript, sc2: UnallocScript, m: LastMsg)
    ensures var r1 := Unallocate(d, t, sc1, m);
      var r2 := Unallocate(r1.dev, t, sc2, r1.msg);
      r2.calls == [] && r2.code == ERR_NOERR && r2.dev == r1.dev && r2.msg == r1.msg
  {
    var r1 := Unallocate(d, t, sc1, m);
    assert r1.dev.hIO == 0 && r1.dev.hEM == 0;
  }

  /** The destructor unallocates an active device and leaves an inactive
      one alone. */
  function Destroy(d: NiDevice, t: Target, sc: UnallocScript, m: LastMsg): (r: Outcome)
    ensures !d.Active() ==> r == Outcome(ERR_NOERR, d, m, [])
    ensures d.Active() ==> r == Unallocate(d, t, sc, m)
  {
    if d.Active() then Unallocate(d, t, sc, m) else Outcome(ERR_NOERR, d, m, [])
  }

  /** Guards of a request over one of the device's objects: the interface
      guards (every state message names "Allocate"), then the object's
      handle. */
  function ObjectGuards(d: NiDevice, t: Target, handle: uint32, missing: int, m: LastMsg): (g: Option<Reported>)
    requires missing == ERR_NOALOCIO || missing == ERR_NOALOCEM
    ensures g.None? <==> IsPtrValid(d.base.intf) && t.NiTarget? && t.Active() && handle != 0
    ensures g.Some? ==> g.value.code in {ERR_INVPTR, ERR_INVITF, ERR_INOPER, missing}
    ensures IsPtrValid(d.base.intf) && t.NiTarget? && t.Active() && handle == 0 ==>
      g == Some(Report(missing, [Num(d.Mac())], m))
  {
    KindTest(t);
    var g := KindFirst(d.Mac(), d.base.intf, t, NI_KIND, "Allocate", m);
    if g.Some? then g
    else if handle == 0 then Some(Report(missing, [Num(d.Mac())], m))
    else None
  }

  /** `ReadIOData`: wait until input is available (a negative status
      returns), then read it; the read's status is the result. */
  function ReadIOData(d: NiDevice, t: Target, bufSize: uint32, waitStatus: int32, readStatus: int32, m: LastMsg): (r: Step)
    ensures var g := ObjectGuards(d, t, d.hIO, ERR_NOALOCIO, m);
      g.Some? ==> r == Step(g.value.code, g.value.msg, [])
    ensures ObjectGuards(d, t, d.hIO, ERR_NOALOCIO, m).None? && waitStatus < 0 ==>
      && t.NiTarget?
      && r.calls == [WaitForState(d.hIO, NC_ST_READ_AVAIL, WAIT_TIMEOUT)]
      && Reported(r.code, r.msg) == SetNiError(waitStatus, t.ni.intfId, d.Mac())
    ensures ObjectGuards(d, t, d.hIO, ERR_NOALOCIO, m).None? && waitStatus >= 0 ==>
      && t.NiTarget?
      && r.calls == [WaitForState(d.hIO, NC_ST_READ_AVAIL, WAIT_TIMEOUT), ReadDnetIO(d.hIO, bufSize)]
      && Reported(r.code, r.msg) == SetNiError(readStatus, t.ni.intfId, d.Mac())
  {
    match ObjectGuards(d, t, d.hIO, ERR_NOALOCIO, m)
    case Some(g) => Step(g.code, g.msg, [])
    case None =>
      var iid := t.ni.intfId;
      var w := NiStatus(waitStatus, iid, d.Mac(), m);
      var wait := WaitForState(d.hIO, NC_ST_READ_AVAIL, WAIT_TIMEOUT);
      if waitStatus < 0 then Step(w.code, w.msg, [wait])
      else
        var e := NiStatus(readStatus, iid, d.Mac(), w.msg);
        Step(e.code, e.msg, [wait, ReadDnetIO(d.hIO, bufSize)])
  }

  /** `WriteIOData`: one write over the I/O object; its status is the
      result. */
  function WriteIOData(d: NiDevice, t: Target, bufSize: uint32, status: int32, m: LastMsg): (r: Step)
    ensures var g := ObjectGuards(d, t, d.hIO, ERR_NOALOCIO, m);
      g.Some? ==> r == Step(g.value.code, g.value.msg, [])
    ensures ObjectGuards(d, t, d.hIO, ERR_NOALOCIO, m).None? ==>
      && t.NiTarget?
      && r.calls == [WriteDnetIO(d.hIO, bufSize)]
      && Reported(r.code, r.msg) == SetNiError(status, t.ni.intfId, d.Mac())
  {
    match ObjectGuards(d, t, d.hIO, ERR_NOALOCIO, m)
    case Some(g) => Step(g.code, g.msg, [])
    case None =>
      var e := NiStatus(status, t.ni.intfId, d.Mac(), m);
      Step(e.code, e.msg, [WriteDnetIO(d.hIO, bufSize)])
  }

  /** The classification of an attribute request: a status whose low 16
      bits are the SDK's error-response code is a device error carrying the
      device's error word, anything else an SDK classification. */
  function AttributeError(d: NiDevice, iid: uint16, status: int32, devError: uint16, m: LastMsg): (e: Reported)
    ensures Wrap16(status) == NC_ERR_DNET_ERR_RESP ==> e.code == ERR_EXPLCT
    ensures Wrap16(status) != NC_ERR_DNET_ERR_RESP ==> e == SetNiError(status, iid, d.Mac())
    ensures e.code == ERR_NOERR <==> status == 0
  {
    if Wrap16(status) == NC_ERR_DNET_ERR_RESP then SetError(ExplicitShortCall(d.Mac(), devError), m)
    else NiStatus(status, iid, d.Mac(), m)
  }

  /** The error-response test looks at 16 bits only: every status that
      agrees with the code there, negative ones included, reads as a device
      error. */
  lemma {:induction false} ErrorResponseLowBits(d: NiDevice, iid: uint16, k: int, devError: uint16, m: LastMsg)
    requires -0x8000 <= k < 0x8000
    ensures var s := NC_ERR_DNET_ERR_RESP + k * 0x1_0000;
      AttributeError(d, iid, s, devError, m).code == ERR_EXPLCT
  {
    var s := NC_ERR_DNET_ERR_RESP + k * 0x1_0000;
    assert s % 0x1_0000 == NC_ERR_DNET_ERR_RESP;
  }

  /** SDK answers for an attribute request: the status and the device's
      error word. */
  datatype AttrScript = AttrScript(status: int32, devError: uint16)

  /** `GetAttribute`: one SDK call over the explicit-messaging object. */
  function GetAttribute(d: NiDevice, t: Target, cls: uint16, inst: uint16, attr: uint8, size: uint16,
                        sc: AttrScript, m: LastMsg): (r: Step)
    ensures var g := ObjectGuards(d, t, d.hEM, ERR_NOALOCEM, m);
      g.Some? ==> r == Step(g.value.code, g.value.msg, [])
    ensures ObjectGuards(d, t, d.hEM, ERR_NOALOCEM, m).None? ==>
      && t.NiTarget?
      && r.calls == [GetDnetAttribute(d.hEM, cls, inst, attr, ATTRIBUTE_TIMEOUT, size)]
      && Reported(r.code, r.msg) == AttributeError(d, t.ni.intfId, sc.status, sc.devError, m)
  {
    match ObjectGuards(d, t, d.hEM, ERR_NOALOCEM, m)
    case Some(g) => Step(g.code, g.msg, [])
    case None =>
      var e := AttributeError(d, t.ni.intfId, sc.status, sc.devError, m);
      Step(e.code, e.msg, [GetDnetAttribute(d.hEM, cls, inst, attr, ATTRIBUTE_TIMEOUT, size)])
  }

  /** `SetAttribute`: the same with the set call. */
  function SetAttribute(d: NiDevice, t: Target, cls: uint16, inst: uint16, attr: uint8, size: uint16,
                        sc: AttrScript, m: LastMsg): (r: Step)
    ensures var g := ObjectGuards(d, t, d.hEM, ERR_NOALOCEM, m);
      g.Some? ==> r == Step(g.value.code, g.value.msg, [])
    ensures ObjectGuards(d, t, d.hEM, ERR_NOALOCEM, m).None? ==>
      && t.NiTarget?
      && r.calls == [SetDnetAttribute(d.hEM, cls, inst, attr, ATTRIBUTE_TIMEOUT, size)]
      && Reported(r.code, r.msg) == AttributeError(d, t.ni.intfId, sc.status, sc.devError, m)
  {
    match ObjectGuards(d, t, d.hEM, ERR_NOALOCEM, m)
    case Some(g) => Step(g.code, g.msg, [])
    case None =>
      var e := AttributeError(d, t.ni.intfId, sc.status, sc.devError, m);
      Step(e.code, e.msg, [SetDnetAttribute(d.hEM, cls, inst, attr, ATTRIBUTE_TIMEOUT, size)])
  }

  /** SDK answers for a service request: write, wait and read statuses. */
  datatype ServiceScript = ServiceScript(writeStatus: int32, waitStatus: int32, readStatus: int32)

  /** `ExecService`: write the request (a negative status returns), wait
      for the response (likewise) and read it; the read's status is the
      result, and the response's service code and length go unchecked. */
  function ExecService(d: NiDevice, t: Target, srv: uint8, cls: uint16, inst: uint16, size: uint16,
                       sc: ServiceScript, m: LastMsg): (r: Step)
    ensures var g := ObjectGuards(d, t, d.hEM, ERR_NOALOCEM, m);
      g.Some? ==> r == Step(g.value.code, g.value.msg, [])
    ensures ObjectGuards(d, t, d.hEM, ERR_NOALOCEM, m).None? ==>
      && t.NiTarget? && 1 <= |r.calls| <= 3
      && r.calls[0] == WriteDnetExplMsg(d.hEM, srv, cls, inst, size)
      && (|r.calls| >= 2 ==> r.calls[1] == WaitForState(d.hEM, NC_ST_READ_AVAIL, WAIT_TIMEOUT))
      && (|r.calls| == 3 ==> r.calls[2] == ReadDnetExplMsg(d.hEM, size))
      && Reported(r.code, r.msg) == SetNiError(
           if sc.writeStatus < 0 then sc.writeStatus else if sc.waitStatus < 0 then sc.waitStatus else sc.readStatus,
           t.ni.intfId, d.Mac())
      && (|r.calls| == 3 <==> sc.writeStatus >= 0 && sc.waitStatus >= 0)
  {
    match ObjectGuards(d, t, d.hEM, ERR_NOALOCEM, m)
    case Some(g) => Step(g.code, g.msg, [])
    case None =>
      var iid := t.ni.intfId;
      var write := WriteDnetExplMsg(d.hEM, srv, cls, inst, size);
      var w := NiStatus(sc.writeStatus, iid, d.Mac(), m);
      if sc.writeStatus < 0 then Step(w.code, w.msg, [write])
      else
        var wait := WaitForState(d.hEM, NC_ST_READ_AVAIL, WAIT_TIMEOUT);
        var a := NiStatus(sc.waitStatus, iid, d.Mac(), w.msg);
        if sc.waitStatus < 0 then Step(a.code, a.msg, [write, wait])
        else
          var e := NiStatus(sc.readStatus, iid, d.Mac(), a.msg);
          Step(e.code, e.msg, [write, wait, ReadDnetExplMsg(d.hEM, size)])
  }

  /** `Reset`: the reset service on instance 1 of class 1, one data byte. */
  function Reset(d: NiDevice, t: Target, sc: ServiceScript, m: LastMsg): (r: Step)
    ensures ObjectGuards(d, t, d.hEM, ERR_NOALOCEM, m).None? ==>
      |r.calls| >= 1 && r.calls[0] == WriteDnetExplMsg(d.hEM, 5, 1, 1, 1)
    ensures ObjectGuards(d, t, d.hEM, ERR_NOALOCEM, m).Some? ==> r.calls == [] && r.code != ERR_NOERR
  {
    ExecService(d, t, 5, 1, 1, 1, sc, m)
  }
}
