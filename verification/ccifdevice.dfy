/** A slave device reached through a board interface. Its operations run
    the guards, talk to the firmware through telegrams, and decode the
    master's bitmaps and diagnostics replies. */
module CifDevices {
  import opened Prims
  import opened Wrappers
  import opened Defs
  import opened Vendor
  import opened Errs
  import opened Reporting
  import opened Nodes
  import opened Devices
  import opened CifDriver
  import opened DownloadRecord
  import opened Targets
  import CI = CifInterfaces
  import Identity

  /** The device's input and output offsets in the board's process image. */
  datatype CifDevice = CifDevice(base: Device, inOff: uint16, outOff: uint16)
  {
    predicate Active() { base.node.active }
    function Mac(): uint8 { base.node.mac }
    predicate Valid() { Nodes.Valid(base.node) }
  }

  function WithActive(d: CifDevice, a: bool): CifDevice {
    d.(base := d.base.(node := d.base.node.(active := a)))
  }

  /** Default constructor: a default device with both offsets 0. */
  function NewCifDevice(): (d: CifDevice)
    ensures d.base == NewDevice() && d.inOff == 0 && d.outOff == 0 && d.Valid()
  {
    CifDevice(NewDevice(), 0, 0)
  }

  /** Parameterised constructor: the device rules, both offsets 0. */
  function MakeCifDevice(mid: uint8, ccs: uint8, pcs: uint8, ct: bv8, epr: uint16, intf: Ptr): (d: CifDevice)
    ensures d.base == MakeDevice(mid, ccs, pcs, ct, epr, intf) && d.inOff == 0 && d.outOff == 0
    ensures d.Valid() && !d.Active()
  {
    CifDevice(MakeDevice(mid, ccs, pcs, ct, epr, intf), 0, 0)
  }

  function Classify(d: CifDevice, board: uint16, s: int16, t: uint8, m: LastMsg): Reported {
    CifStatus(s, t, board, d.Mac(), m)
  }

  /** Driver answers for `Diagnostics`. */
  datatype DiagScript = DiagScript(put: int16, reply: DiagReply)

  function DiagTelegram(lay: Layout, d: CifDevice): Telegram {
    Telegram(Header(3, 16, Low8(lay.diagConfirm), 0, DNM_Device_Diag), DiagRequest(d.Mac()))
  }

  /** `Diagnostics`: request the device's diagnostics and fetch them (a hard
      failure of either returns its classification). The fault bits are
      classified as device codes, but the online error byte decides the
      result: the error-response code gives ERR_EXPLCT with the general and
      additional codes, anything else its task-error classification. */
  function Diagnostics(d: CifDevice, board: uint16, lay: Layout, ds: DiagScript, m: LastMsg): (r: CI.Step)
    ensures HardFail(ds.put) ==>
      r.calls == [PutMessage(board, DiagTelegram(lay, d), 500)]
      && Reported(r.code, r.msg) == SetCifError(ds.put, 0, board, d.Mac())
    ensures !HardFail(ds.put) ==> r.calls == [PutMessage(board, DiagTelegram(lay, d), 500), GetMessage(board, 1000)]
    ensures !HardFail(ds.put) && HardFail(ds.reply.status) ==>
      Reported(r.code, r.msg) == SetCifError(ds.reply.status, ds.reply.f, board, d.Mac())
    ensures !HardFail(ds.put) && !HardFail(ds.reply.status) && ds.reply.online == DERR_ERRRESP ==>
      r.code == ERR_EXPLCT
      && r.msg == ExplicitMsg(d.Mac(), ds.reply.general, DevErrText(ds.reply.general), ds.reply.additional, DevErrText(ds.reply.additional))
    ensures !HardFail(ds.put) && !HardFail(ds.reply.status) && ds.reply.online != DERR_ERRRESP ==>
      Reported(r.code, r.msg) == SetCifError(DRV_NO_ERROR, ds.reply.online, board, d.Mac())
  {
    var calls := [PutMessage(board, DiagTelegram(lay, d), 500)];
    var e := Classify(d, board, ds.put, 0, m);
    if HardFail(ds.put) then CI.Step(e.code, e.msg, calls)
    else
      var rep := ds.reply;
      var e2 := Classify(d, board, rep.status, rep.f, e.msg);
      var calls := calls + [GetMessage(board, 1000)];
      if HardFail(rep.status) then CI.Step(e2.code, e2.msg, calls)
      else
        var fault :=
          if rep.noResponse then Classify(d, board, DEV_NOT_RESPONDING, 0, e2.msg)
          else if rep.prmFault then Classify(d, board, DEV_ATTR_ACCESS_DENIED, 0, e2.msg)
          else if rep.cfgFault then Classify(d, board, DEV_CONN_LEN_DIFF, 0, e2.msg)
          else e2;
        var e3 :=
          if rep.online == DERR_ERRRESP then SetError(ExplicitCall(d.Mac(), rep.general, rep.additional), fault.msg)
          else Classify(d, board, DRV_NO_ERROR, rep.online, fault.msg);
        CI.Step(e3.code, e3.msg, calls)
  }

  /** The fault bits never reach the result: two replies that differ only
      in them give the same code, message and trace. */
  lemma DiagnosticsIgnoresFaultBits(d: CifDevice, board: uint16, lay: Layout, put: int16, a: DiagReply, b: DiagReply, m: LastMsg)
    requires a.(noResponse := b.noResponse, prmFault := b.prmFault, cfgFault := b.cfgFault) == b
    ensures Diagnostics(d, board, lay, DiagScript(put, a), m) == Diagnostics(d, board, lay, DiagScript(put, b), m)
  {
  }

  /** Nor does the message in force before: the result is determined by the
      driver's answers. */
  lemma DiagnosticsIgnoresMessage(d: CifDevice, board: uint16, lay: Layout, ds: DiagScript, m1: LastMsg, m2: LastMsg)
    ensures Diagnostics(d, board, lay, ds, m1) == Diagnostics(d, board, lay, ds, m2)
  {
  }

  /** The result of a device operation that can change the device and its
      interface. */
  datatype Outcome = Outcome(code: int, dev: CifDevice, target: Target, msg: LastMsg, calls: seq<Call>)

  /** The master has slave `mac` configured: it is operating and the slave's
      bit is set in the configuration bitmap. */
  predicate Configured(ts: TaskState, mac: nat)
    requires WellSized(ts) && mac < DEVICENET_MAX_DEVICES
  {
    ts.dnmState & OPERATE != 0 && ts.cfg[mac / 8] & DevMask(mac % 8) != 0
  }

  /** The slave's bit in the connection half of the state bitmap. */
  predicate Connected(ts: TaskState, mac: nat)
    requires WellSized(ts) && mac < DEVICENET_MAX_DEVICES
  {
    ts.state[mac / 8 + 8] & DevMask(mac % 8) != 0
  }

  predicate DiagPending(ts: TaskState, mac: nat)
    requires WellSized(ts) && mac < DEVICENET_MAX_DEVICES
  {
    ts.diag[mac / 8] & DevMask(mac % 8) != 0
  }

  /** Driver answers for `Allocate`, including the interface's `Open`. */
  datatype AllocScript = AllocScript(
    put: int16, get: int16, getTask: uint8, open: CI.OpenScript,
    taskStatus: int16, state: TaskState, diag: DiagScript)

  /** The allocation `Allocate` makes for a device on an interface. */
  function AllocationOf(d: CifDevice, i: CI.CifInterface): Allocation {
    AllocateOffsets(d.base.node.consumed, d.base.node.produced, i.inOff, i.outOff, d.inOff, d.outOff)
  }

  function DownloadTelegram(lay: Layout, d: CifDevice, a: Allocation): Telegram {
    var rec := BuildRecord(lay, d.base.connType, d.base.epr, d.base.node.consumed, d.base.node.produced, a);
    Telegram(Header(3, 16, MessageLength(lay, rec), 8, DNM_Download), DeviceDownload(d.Mac(), rec))
  }

  /** The end of `Allocate` once the task state was read cleanly: a
      configured slave takes its active flag from the connection bitmap and
      has pending diagnostics fetched; an inactive device with nothing
      recorded reports ERR_UKNOW. */
  function Settle(d: CifDevice, board: uint16, lay: Layout, sc: AllocScript, intf: CI.CifInterface,
                  e: Reported, calls: seq<Call>): (r: Outcome)
    requires d.Valid() && WellSized(sc.state)
    ensures r.dev == WithActive(d, if Configured(sc.state, d.Mac()) then Connected(sc.state, d.Mac()) else d.Active())
    ensures r.code == ERR_NOERR ==> r.dev.Active()
    ensures var dgc := if Configured(sc.state, d.Mac()) && DiagPending(sc.state, d.Mac())
        then Diagnostics(r.dev, board, lay, sc.diag, e.msg).code else e.code;
      && (r.dev.Active() ==> r.code == dgc)
      && (!r.dev.Active() ==> r.code == (if dgc == ERR_NOERR then ERR_UKNOW else dgc))
    ensures r.target == CifTarget(intf)
    ensures |r.calls| >= |calls| && r.calls[..|calls|] == calls
  {
    var configured := Configured(sc.state, d.Mac());
    var active := if configured then Connected(sc.state, d.Mac()) else d.Active();
    var d2 := WithActive(d, active);
    var dg := if configured && DiagPending(sc.state, d.Mac()) then Diagnostics(d2, board, lay, sc.diag, e.msg)
      else CI.Step(e.code, e.msg, []);
    if !active && dg.code == ERR_NOERR then
      var u := Report(ERR_UKNOW, [], dg.msg);
      Outcome(u.code, d2, CifTarget(intf), u.msg, calls + dg.calls)
    else Outcome(dg.code, d2, CifTarget(intf), dg.msg, calls + dg.calls)
  }

  /** `Allocate` after the download telegram went out: fetch the reply, on a
      clean one re-run the (active) interface's `Open`, then read the task
      state. */
  function AfterDownload(d: CifDevice, i: CI.CifInterface, lay: Layout, sc: AllocScript,
                         e: Reported, calls: seq<Call>): (r: Outcome)
    requires d.Valid() && WellSized(sc.state) && i.Active()
    ensures r.dev.(base := d.base) == d && r.dev.base == d.base.(node := r.dev.base.node)
    ensures r.dev.base.node == d.base.node.(active := r.dev.Active())
    ensures r.code == ERR_NOERR ==> r.dev.Active()
    ensures !HardFail(sc.get) && !HardFail(sc.taskStatus) ==>
      r.dev.Active() == (if Configured(sc.state, d.Mac()) then Connected(sc.state, d.Mac()) else d.Active())
    ensures HardFail(sc.get) || HardFail(sc.taskStatus) ==> r.dev == d
    ensures !HardFail(sc.get) && sc.taskStatus == DRV_NO_ERROR
      && !(Configured(sc.state, d.Mac()) && DiagPending(sc.state, d.Mac())) && !r.dev.Active()
      ==> r.code == ERR_UKNOW
    ensures r.target.CifTarget? && r.target.cif.inOff == i.inOff && r.target.cif.outOff == i.outOff
    ensures |r.calls| >= |calls| && r.calls[..|calls|] == calls
  {
    var board := i.board;
    var get := Classify(d, board, sc.get, sc.getTask, e.msg);
    var afterGet := calls + [GetMessage(board, 3000)];
    assert afterGet[..|calls|] == calls;
    if HardFail(sc.get) then Outcome(get.code, d, CifTarget(i), get.msg, afterGet)
    else
      var op := if get.code == ERR_NOERR then CI.Open(i, lay, sc.open, get.msg).value
        else CI.Outcome(get.code, i, get.msg, []);
      var ts := Classify(d, board, sc.taskStatus, 0, op.msg);
      var afterTask := afterGet + op.calls + [GetTaskState(board, 2)];
      assert afterTask[..|calls|] == calls;
      if HardFail(sc.taskStatus) then Outcome(ts.code, d, CifTarget(op.intf), ts.msg, afterTask)
      else
        var r := Settle(d, board, lay, sc, op.intf, ts, afterTask);
        assert r.calls[..|afterTask|] == afterTask;
        assert r.calls[..|calls|] == afterTask[..|calls|];
        r
  }

  /** `Allocate`: after the guards (pointer, kind, interface state) allocate
      the offsets, advancing the interface's counters before anything is
      sent, and download the record; the rest is `AfterDownload`. Only the
      offsets and the active flag of the device change, and 0 is returned
      only for a device that ends active. */
  function Allocate(d: CifDevice, t: Target, lay: Layout, sc: AllocScript, m: LastMsg): (r: Outcome)
    requires d.Valid() && WellSized(sc.state)
    ensures var g := KindFirst(d.Mac(), d.base.intf, t, CIF_KIND, "Allocate", m);
      g.Some? ==> r == Outcome(g.value.code, d, t, g.value.msg, [])
    ensures KindFirst(d.Mac(), d.base.intf, t, CIF_KIND, "Allocate", m).None? ==>
      && t.CifTarget? && r.target.CifTarget?
      && var a := AllocationOf(d, t.cif);
      && r.dev.inOff == a.devIn && r.dev.outOff == a.devOut
      && r.target.cif.inOff == a.nextIn && r.target.cif.outOff == a.nextOut
      && |r.calls| >= 1 && r.calls[0] == PutMessage(t.cif.board, DownloadTelegram(lay, d, a), 500)
    ensures r.code == ERR_NOERR ==> r.dev.Active()
    ensures r.dev.base == d.base.(node := d.base.node.(active := r.dev.Active()))
    ensures KindFirst(d.Mac(), d.base.intf, t, CIF_KIND, "Allocate", m).None?
      && !HardFail(sc.put) && !HardFail(sc.get) && !HardFail(sc.taskStatus)
      ==> r.dev.Active() == (if Configured(sc.state, d.Mac()) then Connected(sc.state, d.Mac()) else d.Active())
    ensures r.dev.Active() != d.Active() ==>
      !HardFail(sc.put) && !HardFail(sc.get) && !HardFail(sc.taskStatus) && Configured(sc.state, d.Mac())
    ensures KindFirst(d.Mac(), d.base.intf, t, CIF_KIND, "Allocate", m).None?
      && !HardFail(sc.put) && !HardFail(sc.get) && sc.taskStatus == DRV_NO_ERROR
      && !(Configured(sc.state, d.Mac()) && DiagPending(sc.state, d.Mac())) && !r.dev.Active()
      ==> r.code == ERR_UKNOW
  {
    match KindFirst(d.Mac(), d.base.intf, t, CIF_KIND, "Allocate", m)
    case Some(g) => Outcome(g.code, d, t, g.msg, [])
    case None =>
      KindTest(t);
      var i := t.cif;
      var a := AllocationOf(d, i);
      var d1 := d.(inOff := a.devIn, outOff := a.devOut);
      var i1 := i.(inOff := a.nextIn, outOff := a.nextOut);
      var calls := [PutMessage(i.board, DownloadTelegram(lay, d, a), 500)];
      var put := Classify(d, i.board, sc.put, 0, m);
      if HardFail(sc.put) then Outcome(put.code, d1, CifTarget(i1), put.msg, calls)
      else AfterDownload(d1, i1, lay, sc, put, calls)
  }

  /** The slave-status area of the dual-port memory Unallocate rewrites. */
  const SLAVE_STATUS_OFFSET: int := 0x2F8
  const SLAVE_STATUS_SIZE: int := 8

  /** Driver answers for `Unallocate`: the status and contents of the raw
      read, then the status of the raw write. */
  datatype UnallocScript = UnallocScript(readStatus: int16, buffer: seq<bv8>, writeStatus: int16)

  /** `Unallocate`: after the guards (the state message names "ReadIOData"),
      read the slave-status buffer, clear the device's connection bit and
      write the buffer back; the device goes inactive only when both raw
      accesses succeed, and nothing else about it or its interface changes. */
  function Unallocate(d: CifDevice, t: Target, sc: UnallocScript, m: LastMsg): (r: Outcome)
    requires d.Valid() && |sc.buffer| == SLAVE_STATUS_SIZE
    ensures var g := KindFirst(d.Mac(), d.base.intf, t, CIF_KIND, "ReadIOData", m);
      g.Some? ==> r == Outcome(g.value.code, d, t, g.value.msg, [])
    ensures KindFirst(d.Mac(), d.base.intf, t, CIF_KIND, "ReadIOData", m).None? ==>
      && t.CifTarget? && |r.calls| >= 1
      && r.calls[0] == ReadDpm(t.cif.board, SLAVE_STATUS_OFFSET, SLAVE_STATUS_SIZE)
      && (!HardFail(sc.readStatus) ==>
        r.calls == [r.calls[0], WriteDpm(t.cif.board, SLAVE_STATUS_OFFSET, ClearSlaveBit(sc.buffer, d.Mac()))])
    ensures r.target == t
    ensures r.dev == WithActive(d, r.dev.Active())
    ensures r.dev.Active() == (d.Active() && !(KindFirst(d.Mac(), d.base.intf, t, CIF_KIND, "ReadIOData", m).None?
      && !HardFail(sc.readStatus) && !HardFail(sc.writeStatus)))
    ensures r.code == ERR_NOERR ==> !r.dev.Active()
  {
    match KindFirst(d.Mac(), d.base.intf, t, CIF_KIND, "ReadIOData", m)
    case Some(g) => Outcome(g.code, d, t, g.msg, [])
    case None =>
      KindTest(t);
      var board := t.cif.board;
      var rd := Classify(d, board, sc.readStatus, 0, m);
      var calls := [ReadDpm(board, SLAVE_STATUS_OFFSET, SLAVE_STATUS_SIZE)];
      if HardFail(sc.readStatus) then Outcome(rd.code, d, t, rd.msg, calls)
      else
        var wr := Classify(d, board, sc.writeStatus, 0, rd.msg);
        var calls := calls + [WriteDpm(board, SLAVE_STATUS_OFFSET, ClearSlaveBit(sc.buffer, d.Mac()))];
        if HardFail(sc.writeStatus) then Outcome(wr.code, d, t, wr.msg, calls)
        else Outcome(wr.code, WithActive(d, false), t, wr.msg, calls)
  }

  /** The buffer Unallocate writes back has exactly the other slaves' bits
      that the board reported. */
  lemma {:induction false} UnallocateClearsOnlyOwnBit(d: CifDevice, t: Target, sc: UnallocScript, m: LastMsg, k: nat)
    requires d.Valid() && |sc.buffer| == SLAVE_STATUS_SIZE && k < DEVICENET_MAX_DEVICES
    requires KindFirst(d.Mac(), d.base.intf, t, CIF_KIND, "ReadIOData", m).None? && !HardFail(sc.readStatus)
    ensures var r := Unallocate(d, t, sc, m);
      && |r.calls| == 2 && r.calls[1].WriteDpm? && |r.calls[1].data| == 8
      && (SlaveBit(r.calls[1].data, k) <==> SlaveBit(sc.buffer, k) && k != d.Mac())
  {
    ClearSlaveBitExact(sc.buffer, d.Mac(), k);
  }

  /** The destructor unallocates an active device and leaves an inactive
      one alone. */
  function Destroy(d: CifDevice, t: Target, sc: UnallocScript, m: LastMsg): (r: Outcome)
    requires d.Valid() && |sc.buffer| == SLAVE_STATUS_SIZE
    ensures !d.Active() ==> r == Outcome(ERR_NOERR, d, t, m, [])
    ensures d.Active() ==> r == Unallocate(d, t, sc, m)
  {
    if d.Active() then Unallocate(d, t, sc, m) else Outcome(ERR_NOERR, d, t, m, [])
  }

  /** Guards of a request to an allocated device: the interface guards in
      the given order, then the device's own active flag. */
  function DeviceGuards(d: CifDevice, t: Target, kindFirst: bool, op: string, m: LastMsg): (g: Option<Reported>)
    ensures g.None? <==> IsPtrValid(d.base.intf) && t.CifTarget? && t.Active() && d.Active()
    ensures g.Some? ==> g.value.code in {ERR_INVPTR, ERR_INVITF, ERR_INOPER, ERR_NOALOC}
    ensures IsPtrValid(d.base.intf) && t.CifTarget? && t.Active() && !d.Active() ==>
      g == Some(Report(ERR_NOALOC, [Num(d.Mac())], m))
  {
    KindTest(t);
    var g := if kindFirst then KindFirst(d.Mac(), d.base.intf, t, CIF_KIND, op, m)
      else StateFirst(d.Mac(), d.base.intf, t, CIF_KIND, op, m);
    if g.Some? then g
    else if !d.Active() then Some(Report(ERR_NOALOC, [Num(d.Mac())], m))
    else None
  }

  /** `ExchangeIOData`: one exchange call over the device's input (read) or
      output (write) window, the buffer size cut to 16 bits. */
  function ExchangeIOData(d: CifDevice, t: Target, input: bool, bufSize: uint32, status: int16, m: LastMsg): (r: CI.Step)
    ensures var g := DeviceGuards(d, t, true, "ReadIOData", m);
      g.Some? ==> r == CI.Step(g.value.code, g.value.msg, [])
    ensures DeviceGuards(d, t, true, "ReadIOData", m).None? ==>
      && t.CifTarget?
      && Reported(r.code, r.msg) == SetCifError(status, TASK_F_OK, t.cif.board, d.Mac())
      && r.calls == [if input then ExchangeIO(t.cif.board, 0, 0, d.inOff, Wrap16(bufSize), 500)
                     else ExchangeIO(t.cif.board, d.outOff, Wrap16(bufSize), 0, 0, 500)]
  {
    match DeviceGuards(d, t, true, "ReadIOData", m)
    case Some(g) => CI.Step(g.code, g.msg, [])
    case None =>
      var board := t.cif.board;
      var call := if input then ExchangeIO(board, 0, 0, d.inOff, Wrap16(bufSize), 500)
        else ExchangeIO(board, d.outOff, Wrap16(bufSize), 0, 0, 500);
      var e := Classify(d, board, status, 0, m);
      CI.Step(e.code, e.msg, [call])
  }

  /** `ReadIOData`: the device's input window is received, nothing sent. */
  function ReadIOData(d: CifDevice, t: Target, bufSize: uint32, status: int16, m: LastMsg): (r: CI.Step)
    ensures DeviceGuards(d, t, true, "ReadIOData", m).None? ==>
      && t.CifTarget?
      && r.calls == [ExchangeIO(t.cif.board, 0, 0, d.inOff, Wrap16(bufSize), 500)]
      && (r.code == ERR_NOERR <==> status == DRV_NO_ERROR)
    ensures DeviceGuards(d, t, true, "ReadIOData", m).Some? ==> r.calls == [] && r.code != ERR_NOERR
  {
    ExchangeIOData(d, t, true, bufSize, status, m)
  }

  /** `WriteIOData`: the device's output window is sent, nothing received. */
  function WriteIOData(d: CifDevice, t: Target, bufSize: uint32, status: int16, m: LastMsg): (r: CI.Step)
    ensures DeviceGuards(d, t, true, "ReadIOData", m).None? ==>
      && t.CifTarget?
      && r.calls == [ExchangeIO(t.cif.board, d.outOff, Wrap16(bufSize), 0, 0, 500)]
      && (r.code == ERR_NOERR <==> status == DRV_NO_ERROR)
    ensures DeviceGuards(d, t, true, "ReadIOData", m).Some? ==> r.calls == [] && r.code != ERR_NOERR
  {
    ExchangeIOData(d, t, false, bufSize, status, m)
  }

  /** Driver answers for an explicit request: the put status, the reply,
      then the diagnostics that follow. */
  datatype ExplicitScript = ExplicitScript(put: int16, reply: Reply, diag: DiagScript)

  /** The explicit-message telegram of an attribute or service request. */
  function ExplicitTelegram(lay: Layout, d: CifDevice, command: uint8, cls: uint16, inst: uint16,
                            idx: uint8, size: uint16, fn: uint8, data: seq<uint8>): Telegram {
    Telegram(Header(3, 16, Low8(lay.telegramHeader + Low8(size)), 0, command),
             Body.Explicit(d.Mac(), Low8(cls), inst, idx, Low8(size), fn, data))
  }

  /** The classification of an explicit reply: an application-layer error
      code in the function byte is a device error, anything else a board
      classification. */
  function ReplyError(d: CifDevice, board: uint16, rep: Reply, m: LastMsg): (e: Reported)
    ensures IsAppLayerError(rep.f) ==>
      && e.code == ERR_EXPLCT && e.msg.ExplicitMsg?
      && e.msg.gen == rep.f && e.msg.add == rep.d0 && e.msg.mac == d.Mac()
    ensures !IsAppLayerError(rep.f) ==> e == SetCifError(rep.status, rep.f, board, d.Mac())
    ensures e.code == ERR_NOERR <==> rep.status == DRV_NO_ERROR && rep.f == TASK_F_OK
  {
    if IsAppLayerError(rep.f) then SetError(ExplicitCall(d.Mac(), rep.f, rep.d0), m)
    else Classify(d, board, rep.status, rep.f, m)
  }

  /** What a read of an attribute hands back besides the code. */
  datatype AttrOutcome = AttrOutcome(code: int, msg: LastMsg, calls: seq<Call>,
                                     data: Option<seq<uint8>>, actSize: Option<uint8>)

  /** `GetAttribute`: after the guards (state before kind), send a read
      request, fetch the reply (a hard failure of either returns), classify
      it, report the reply's byte count when the size pointer is valid, copy
      the data only when the reply was clean, and return the diagnostics'
      verdict. */
  function GetAttribute(d: CifDevice, t: Target, lay: Layout, cls: uint16, inst: uint16, attr: uint8,
                        size: uint16, sizePtr: Ptr, sc: ExplicitScript, m: LastMsg): (r: AttrOutcome)
    ensures var g := DeviceGuards(d, t, false, "GetAttribute", m);
      g.Some? ==> r == AttrOutcome(g.value.code, g.value.msg, [], None, None)
    ensures DeviceGuards(d, t, false, "GetAttribute", m).None? ==>
      && t.CifTarget? && |r.calls| >= 1
      && r.calls[0] == PutMessage(t.cif.board, ExplicitTelegram(lay, d, DNM_Get_Set_Attribute, cls, inst, attr, size, TASK_TFC_READ, []), 500)
    ensures r.data.Some? <==>
      && DeviceGuards(d, t, false, "GetAttribute", m).None? && !HardFail(sc.put)
      && sc.reply.status == DRV_NO_ERROR && sc.reply.f == TASK_F_OK
    ensures r.data.Some? ==> r.data.value == sc.reply.data
    ensures r.actSize.Some? <==>
      && DeviceGuards(d, t, false, "GetAttribute", m).None? && !HardFail(sc.put)
      && !HardFail(sc.reply.status) && IsPtrValid(sizePtr)
    ensures r.actSize.Some? ==> r.actSize.value == sc.reply.dataCnt
    ensures DeviceGuards(d, t, false, "GetAttribute", m).None? && !HardFail(sc.put) && !HardFail(sc.reply.status) ==>
      && t.CifTarget?
      && r.code == Diagnostics(d, t.cif.board, lay, sc.diag, Blank).code
  {
    match DeviceGuards(d, t, false, "GetAttribute", m)
    case Some(g) => AttrOutcome(g.code, g.msg, [], None, None)
    case None =>
      var board := t.cif.board;
      var calls := [PutMessage(board, ExplicitTelegram(lay, d, DNM_Get_Set_Attribute, cls, inst, attr, size, TASK_TFC_READ, []), 500)];
      var put := Classify(d, board, sc.put, 0, m);
      if HardFail(sc.put) then AttrOutcome(put.code, put.msg, calls, None, None)
      else
        var rep := sc.reply;
        var get := Classify(d, board, rep.status, rep.f, put.msg);
        var calls := calls + [GetMessage(board, 3000)];
        if HardFail(rep.status) then AttrOutcome(get.code, get.msg, calls, None, None)
        else
          var e := ReplyError(d, board, rep, get.msg);
          var act := if IsPtrValid(sizePtr) then Some(rep.dataCnt) else None;
          var data := if e.code == ERR_NOERR then Some(rep.data) else None;
          DiagnosticsIgnoresMessage(d, board, lay, sc.diag, e.msg, Blank);
          var dg := Diagnostics(d, board, lay, sc.diag, e.msg);
          AttrOutcome(dg.code, dg.msg, calls + dg.calls, data, act)
  }

  /** `SetAttribute`: after the guards send a write request carrying the
      data; once it is accepted the reply is fetched and classified without
      a hard-failure test, and the diagnostics decide the result. */
  function SetAttribute(d: CifDevice, t: Target, lay: Layout, cls: uint16, inst: uint16, attr: uint8,
                        data: seq<uint8>, sc: ExplicitScript, m: LastMsg): (r: CI.Step)
    requires |data| < 0x1_0000
    ensures var g := DeviceGuards(d, t, false, "GetAttribute", m);
      g.Some? ==> r == CI.Step(g.value.code, g.value.msg, [])
    ensures DeviceGuards(d, t, false, "GetAttribute", m).None? ==>
      && t.CifTarget? && |r.calls| >= 1
      && r.calls[0] == PutMessage(t.cif.board, ExplicitTelegram(lay, d, DNM_Get_Set_Attribute, cls, inst, attr, |data|, TASK_TFC_WRITE, data), 500)
    ensures DeviceGuards(d, t, false, "GetAttribute", m).None? && HardFail(sc.put) ==>
      && t.CifTarget? && |r.calls| == 1
      && Reported(r.code, r.msg) == SetCifError(sc.put, TASK_F_OK, t.cif.board, d.Mac())
    ensures DeviceGuards(d, t, false, "GetAttribute", m).None? && !HardFail(sc.put) ==>
      && t.CifTarget?
      && r.code == Diagnostics(d, t.cif.board, lay, sc.diag, Blank).code
      && r.calls[1..] == [GetMessage(t.cif.board, 500)] + Diagnostics(d, t.cif.board, lay, sc.diag, Blank).calls
  {
    match DeviceGuards(d, t, false, "GetAttribute", m)
    case Some(g) => CI.Step(g.code, g.msg, [])
    case None =>
      var board := t.cif.board;
      var calls := [PutMessage(board, ExplicitTelegram(lay, d, DNM_Get_Set_Attribute, cls, inst, attr, |data|, TASK_TFC_WRITE, data), 500)];
      var put := Classify(d, board, sc.put, 0, m);
      if HardFail(sc.put) then CI.Step(put.code, put.msg, calls)
      else
        var e := ReplyError(d, board, sc.reply, put.msg);
        DiagnosticsIgnoresMessage(d, board, lay, sc.diag, e.msg, Blank);
        var dg := Diagnostics(d, board, lay, sc.diag, e.msg);
        CI.Step(dg.code, dg.msg, calls + [GetMessage(board, 500)] + dg.calls)
  }

  /** The explicit-message command byte of a service request. */
  const EXEC_SERVICE_COMMAND: uint8 := 79

  /** `ExecService`: after the guards send the service request; the reply
      is classified before the hard-failure test, so a failed fetch whose
      function byte reads as an application-layer error reports ERR_EXPLCT;
      otherwise the diagnostics decide the result. */
  function ExecService(d: CifDevice, t: Target, lay: Layout, srv: uint8, cls: uint16, inst: uint16,
                       data: seq<uint8>, sc: ExplicitScript, m: LastMsg): (r: CI.Step)
    requires |data| < 0x1_0000
    ensures var g := DeviceGuards(d, t, false, "GetAttribute", m);
      g.Some? ==> r == CI.Step(g.value.code, g.value.msg, [])
    ensures DeviceGuards(d, t, false, "GetAttribute", m).None? ==>
      && t.CifTarget? && |r.calls| >= 1
      && r.calls[0] == PutMessage(t.cif.board, ExplicitTelegram(lay, d, EXEC_SERVICE_COMMAND, cls, inst, 0, |data|, srv, data), 500)
    ensures DeviceGuards(d, t, false, "GetAttribute", m).None? && !HardFail(sc.put) && HardFail(sc.reply.status) ==>
      && t.CifTarget?
      && Reported(r.code, r.msg) == ReplyError(d, t.cif.board, sc.reply, Blank)
      && (IsAppLayerError(sc.reply.f) ==> r.code == ERR_EXPLCT)
    ensures DeviceGuards(d, t, false, "GetAttribute", m).None? && !HardFail(sc.put) && !HardFail(sc.reply.status) ==>
      && t.CifTarget?
      && r.code == Diagnostics(d, t.cif.board, lay, sc.diag, Blank).code
  {
    match DeviceGuards(d, t, false, "GetAttribute", m)
    case Some(g) => CI.Step(g.code, g.msg, [])
    case None =>
      var board := t.cif.board;
      var calls := [PutMessage(board, ExplicitTelegram(lay, d, EXEC_SERVICE_COMMAND, cls, inst, 0, |data|, srv, data), 500)];
      var put := Classify(d, board, sc.put, 0, m);
      if HardFail(sc.put) then CI.Step(put.code, put.msg, calls)
      else
        var e := ReplyError(d, board, sc.reply, put.msg);
        var calls := calls + [GetMessage(board, 500)];
        if HardFail(sc.reply.status) then CI.Step(e.code, e.msg, calls)
        else
          DiagnosticsIgnoresMessage(d, board, lay, sc.diag, e.msg, Blank);
          var dg := Diagnostics(d, board, lay, sc.diag, e.msg);
          CI.Step(dg.code, dg.msg, calls + dg.calls)
  }

  /** The Identity object's reset service code, class and instance. */
  const RESET_SERVICE: uint8 := 5

  /** `Reset`: the reset service on instance 1 of class 1, with one zero
      data byte. */
  function Reset(d: CifDevice, t: Target, lay: Layout, sc: ExplicitScript, m: LastMsg): (r: CI.Step)
    ensures DeviceGuards(d, t, false, "GetAttribute", m).None? ==>
      && t.CifTarget? && |r.calls| >= 1
      && r.calls[0] == PutMessage(t.cif.board, Telegram(Header(3, 16, Low8(lay.telegramHeader + 1), 0, EXEC_SERVICE_COMMAND),
                                                        Body.Explicit(d.Mac(), 1, 1, 0, 1, RESET_SERVICE, [0])), 500)
    ensures DeviceGuards(d, t, false, "GetAttribute", m).Some? ==> r.calls == [] && r.code != ERR_NOERR
  {
    ExecService(d, t, lay, RESET_SERVICE, 1, 1, [0], sc, m)
  }

  /** `IsA` of the board device: its own id and name, then the device's. */
  lemma CifDeviceIdentity(id: int, name: string)
    ensures Identity.IsAId(Identity.CifDevice, id) <==> id == 352 || Identity.IsAId(Identity.Device, id)
    ensures Identity.IsAName(Identity.CifDevice, name) <==> name == "CCIFDevice" || Identity.IsAName(Identity.Device, name)
  {
  }
}
