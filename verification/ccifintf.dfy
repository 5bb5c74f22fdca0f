/** The board (CIF) interface: a master on a Hilscher board. Its operations
    take the driver's answers as a script and return the code, the new
    interface, the last message and the trace of driver calls. */
module CifInterfaces {
  import opened Prims
  import opened Wrappers
  import opened Defs
  import opened Vendor
  import opened Errs
  import opened Reporting
  import opened Nodes
  import opened Interfaces
  import opened CifDriver

  /** Board number, auto-clear flag and the input/output image counters the
      devices' offsets are allocated from. */
  datatype CifInterface = CifInterface(base: Interface, board: uint16, autoClear: bool, inOff: uint16, outOff: uint16)
  {
    predicate Active() { base.node.active }
    function Mac(): uint8 { base.node.mac }
  }

  /** The interface with only its active flag replaced. */
  function WithActive(i: CifInterface, a: bool): CifInterface {
    i.(base := i.base.(node := i.base.node.(active := a)))
  }

  /** Default constructor: board 0, auto-clear off, both counters 0. */
  function NewCifInterface(): (i: CifInterface)
    ensures i.base == NewInterface() && !i.Active()
    ensures i.board == 0 && !i.autoClear && i.inOff == 0 && i.outOff == 0
  {
    CifInterface(NewInterface(), 0, false, 0, 0)
  }

  /** `SetBoardNum`: only on an inactive interface and only for a board the
      driver supports. */
  function SetBoardNum(i: CifInterface, n: uint16): (r: CifInterface)
    ensures r.board == (if !i.Active() && n < MAX_DEV_BOARDS then n else i.board)
    ensures r.(board := i.board) == i
    ensures r.board < MAX_DEV_BOARDS || r.board == i.board
  {
    if !i.Active() && n < MAX_DEV_BOARDS then i.(board := n) else i
  }

  /** The flag stored for a requested auto-clear setting: the firmware's
      active or inactive code, converted to the `bool` field that holds it
      (true exactly when the code is nonzero). */
  function AutoClearFlag(b: bool): bool {
    if b then DNM_ACLR_ACTIVE != 0 else DNM_ACLR_INACTIVE != 0
  }

  /** `SetAutoClear`: only on an inactive interface. */
  function SetAutoClear(i: CifInterface, b: bool): (r: CifInterface)
    ensures r.autoClear == (if i.Active() then i.autoClear else AutoClearFlag(b))
    ensures r.(autoClear := i.autoClear) == i
  {
    if !i.Active() then i.(autoClear := AutoClearFlag(b)) else i
  }

  /** Parameterised constructor: the interface rules, then the board through
      `SetBoardNum` (an unsupported board leaves 0), auto-clear off. */
  function MakeCifInterface(mid: uint8, ccs: uint8, pcs: uint8, br: uint8, brd: uint16): (i: CifInterface)
    ensures i.base == MakeInterface(mid, ccs, pcs, br) && !i.Active()
    ensures i.board == (if brd < MAX_DEV_BOARDS then brd else 0)
    ensures i.autoClear == AutoClearFlag(false) && i.inOff == 0 && i.outOff == 0
  {
    var i := SetBoardNum(CifInterface(MakeInterface(mid, ccs, pcs, br), 0, false, 0, 0), brd);
    i.(autoClear := AutoClearFlag(false))
  }

  /** `BR_TO_CONST` as written: the second test repeats the 500K comparison. */
  function BrToConstAsWritten(br: uint8): int {
    if br == DEVICENET_BAUD_500K then DNM_BAUD_500
    else if br == DEVICENET_BAUD_500K then DNM_BAUD_250
    else DNM_BAUD_125
  }

  /** As written, a 250K interface is configured at 125K: two different valid
      rates reach the firmware as the same code. */
  lemma BrToConstAsWrittenDrops250()
    ensures BrToConstAsWritten(DEVICENET_BAUD_250K) == DNM_BAUD_125
    ensures BrToConstAsWritten(DEVICENET_BAUD_250K) == BrToConstAsWritten(DEVICENET_BAUD_125K)
    ensures forall br: uint8 :: BrToConstAsWritten(br) != DNM_BAUD_250
  {
  }

  /** The evident intent: each abstract rate to its firmware code, and any
      other value to 125K. */
  function BrToConst(br: uint8): (c: int)
    ensures br == DEVICENET_BAUD_500K ==> c == DNM_BAUD_500
    ensures br == DEVICENET_BAUD_250K ==> c == DNM_BAUD_250
    ensures !(br == DEVICENET_BAUD_500K || br == DEVICENET_BAUD_250K) ==> c == DNM_BAUD_125
  {
    if br == DEVICENET_BAUD_500K then DNM_BAUD_500
    else if br == DEVICENET_BAUD_250K then DNM_BAUD_250
    else DNM_BAUD_125
  }

  /** Corrected, the mapping keeps the valid rates apart and agrees with the
      code as written everywhere except at 250K. */
  lemma BrToConstDistinguishesRates(a: uint8, b: uint8)
    requires ValidBaud(a) && ValidBaud(b)
    ensures BrToConst(a) == BrToConst(b) <==> a == b
    ensures a != DEVICENET_BAUD_250K ==> BrToConst(a) == BrToConstAsWritten(a)
  {
  }

  /** One classification of a board status, on behalf of this interface. */
  function Classify(i: CifInterface, s: int16, t: uint8, m: LastMsg): Reported {
    CifStatus(s, t, i.board, i.Mac(), m)
  }

  /** The result of a step that does not change the interface. */
  datatype Step = Step(code: int, msg: LastMsg, calls: seq<Call>)

  /** The result of an interface operation. */
  datatype Outcome = Outcome(code: int, intf: CifInterface, msg: LastMsg, calls: seq<Call>)

  /** What the driver answers to the three calls of `Close`. */
  datatype CloseScript = CloseScript(hostStatus: int16, exitStatus: int16, closeStatus: int16)

  /** `Close`: on an active interface, host not ready, exit board and close
      driver, each classified; the result is the last classification alone.
      An inactive interface makes no call and returns 0. The active flag is
      never assigned. */
  function Close(i: CifInterface, sc: CloseScript, m: LastMsg): (r: Outcome)
    ensures r.intf == i
    ensures !i.Active() ==> r.code == ERR_NOERR && r.msg == m && r.calls == []
    ensures i.Active() ==> r.calls == [SetHostState(i.board, HOST_NOT_READY, 1000), ExitBoard(i.board), CloseDriver]
    ensures i.Active() ==> Reported(r.code, r.msg) == SetCifError(sc.closeStatus, 0, i.board, i.Mac())
  {
    if i.Active() then
      var e1 := Classify(i, sc.hostStatus, 0, m);
      var e2 := Classify(i, sc.exitStatus, 0, e1.msg);
      var e3 := Classify(i, sc.closeStatus, 0, e2.msg);
      Outcome(e3.code, i, e3.msg, [SetHostState(i.board, HOST_NOT_READY, 1000), ExitBoard(i.board), CloseDriver])
    else Outcome(ERR_NOERR, i, m, [])
  }

  /** Driver answers for one pass through the parameter stages: the
      protocol parameters, the warm start, the driver info with its host
      flags, and the clear-database request. */
  datatype Round = Round(
    paramStatus: int16, resetStatus: int16, infoStatus: int16, hostFlags: bv8,
    clearPut: int16, clearGet: int16, clearTask: uint8)

  const F_RUN: bv8 := 0x40
  const F_RDY: bv8 := 0x80

  /** The protocol parameters of every firmware reset. */
  const INIT_PARAMS := InitParams(DNM_SET_MODE_BUFFERED_DEVICE_CONTROLLED, 1000)

  /** `SetProtocolParameters`: post the parameters; unless that status is
      negative or at least 1000, warm-start the firmware, and that reset's
      classification is the result. */
  function SetProtocolParameters(i: CifInterface, rd: Round, m: LastMsg): (r: Step)
    ensures |r.calls| >= 1 && r.calls[0] == PutTaskParameter(i.board, 2, INIT_PARAMS)
    ensures (rd.paramStatus < 0 || rd.paramStatus >= 1000) ==>
      |r.calls| == 1 && Reported(r.code, r.msg) == SetCifError(rd.paramStatus, 0, i.board, i.Mac())
    ensures !(rd.paramStatus < 0 || rd.paramStatus >= 1000) ==>
      r.calls == [PutTaskParameter(i.board, 2, INIT_PARAMS), DevReset(i.board, WARMSTART, 8000)]
      && Reported(r.code, r.msg) == SetCifError(rd.resetStatus, 0, i.board, i.Mac())
  {
    var e := Classify(i, rd.paramStatus, 0, m);
    if rd.paramStatus < 0 || rd.paramStatus >= 1000 then Step(e.code, e.msg, [PutTaskParameter(i.board, 2, INIT_PARAMS)])
    else
      var e2 := Classify(i, rd.resetStatus, 0, e.msg);
      Step(e2.code, e2.msg, [PutTaskParameter(i.board, 2, INIT_PARAMS), DevReset(i.board, WARMSTART, 8000)])
  }

  /** The clear-database telegram: database access (6), clear (4), offset 8. */
  const CLEAR_DB_TELEGRAM := Telegram(Header(0, 16, 2, 0, 6), DatabaseRequest([4, 8]))

  /** `ClearDEVDB`: post the request; unless that fails hard, fetch the reply
      and classify its status together with its error byte. */
  function ClearDatabase(i: CifInterface, rd: Round, m: LastMsg): (r: Step)
    ensures HardFail(rd.clearPut) ==>
      r.calls == [PutMessage(i.board, CLEAR_DB_TELEGRAM, 500)]
      && Reported(r.code, r.msg) == SetCifError(rd.clearPut, 0, i.board, i.Mac())
    ensures !HardFail(rd.clearPut) ==>
      r.calls == [PutMessage(i.board, CLEAR_DB_TELEGRAM, 500), GetMessage(i.board, 3000)]
      && Reported(r.code, r.msg) == SetCifError(rd.clearGet, rd.clearTask, i.board, i.Mac())
  {
    var e := Classify(i, rd.clearPut, 0, m);
    if HardFail(rd.clearPut) then Step(e.code, e.msg, [PutMessage(i.board, CLEAR_DB_TELEGRAM, 500)])
    else
      var e2 := Classify(i, rd.clearGet, rd.clearTask, e.msg);
      Step(e2.code, e2.msg, [PutMessage(i.board, CLEAR_DB_TELEGRAM, 500), GetMessage(i.board, 3000)])
  }

  /** The master's bus parameters as the interface downloads them: its own
      MAC id, the board maker's vendor id 283, the firmware baud code from
      the baud map as written, the auto-clear flag, and the connection sizes
      with the current counters. */
  function BusParamsOf(i: CifInterface): (p: BusParams)
    ensures p.baud == BrToConstAsWritten(i.base.baud)
    ensures p.ownMac == i.Mac() && p.consOffset == i.inOff && p.prodOffset == i.outOff
    ensures p.autoClear == (if i.autoClear then 1 else 0)
  {
    BusParamsWith(i, BrToConstAsWritten(i.base.baud))
  }

  /** The bus parameters with the corrected baud map. */
  function BusParamsCorrected(i: CifInterface): (p: BusParams)
    ensures p.baud == BrToConst(i.base.baud)
  {
    BusParamsWith(i, BrToConst(i.base.baud))
  }

  function BusParamsWith(i: CifInterface, baud: int): BusParams {
    BusParams(i.Mac(), 283, baud, if i.autoClear then 1 else 0,
      i.base.node.consumed, i.inOff, i.base.node.produced, i.outOff)
  }

  /** The downloaded bus parameters differ from the corrected ones exactly on
      a 250K interface, which the board is told to run at 125K. */
  lemma {:induction false} BusParamsDifferAt250(i: CifInterface)
    ensures BusParamsOf(i) != BusParamsCorrected(i) <==> i.base.baud == DEVICENET_BAUD_250K
    ensures i.base.baud == DEVICENET_BAUD_250K ==>
      BusParamsOf(i).baud == DNM_BAUD_125 && BusParamsCorrected(i).baud == DNM_BAUD_250
  {
    BrToConstAsWrittenDrops250();
    if i.base.baud != DEVICENET_BAUD_250K {
      assert BrToConstAsWritten(i.base.baud) == BrToConst(i.base.baud);
    }
  }

  function BusTelegram(lay: Layout, i: CifInterface): Telegram {
    Telegram(Header(3, 16, Low8(lay.busParams + lay.downloadOverhead), 0, DNM_Download),
      BusDownload(DNM_DEVICE_PRM, BusParamsOf(i)))
  }

  /** Driver answers for the stages after the database check. */
  datatype FinishScript = FinishScript(
    downloadPut: int16, downloadGet: int16, downloadTask: uint8,
    hostReadyStatus: int16, taskStatus: int16, dnmState: bv8)

  /** `DownloadParameters`: post the bus parameters; unless that fails hard,
      fetch the reply, whose classification is the result whether or not it
      fails hard. */
  function DownloadParameters(i: CifInterface, lay: Layout, fs: FinishScript, m: LastMsg): (r: Step)
    ensures |r.calls| >= 1 && r.calls[0] == PutMessage(i.board, BusTelegram(lay, i), 500)
    ensures HardFail(fs.downloadPut) ==>
      |r.calls| == 1 && Reported(r.code, r.msg) == SetCifError(fs.downloadPut, 0, i.board, i.Mac())
    ensures !HardFail(fs.downloadPut) ==>
      r.calls == [PutMessage(i.board, BusTelegram(lay, i), 500), GetMessage(i.board, 3000)]
      && Reported(r.code, r.msg) == SetCifError(fs.downloadGet, fs.downloadTask, i.board, i.Mac())
  {
    var put := [PutMessage(i.board, BusTelegram(lay, i), 500)];
    var e := Classify(i, fs.downloadPut, 0, m);
    if HardFail(fs.downloadPut) then Step(e.code, e.msg, put)
    else
      var e2 := Classify(i, fs.downloadGet, fs.downloadTask, e.msg);
      if HardFail(fs.downloadGet) then Step(e2.code, e2.msg, put + [GetMessage(i.board, 3000)])
      else Step(e2.code, e2.msg, put + [GetMessage(i.board, 3000)])
  }

  /** Where the parameter stages leave `Open`: on to the download, or
      returning the given code. */
  datatype Stage = Proceed(msg: LastMsg, calls: seq<Call>) | Stop(code: int, msg: LastMsg, calls: seq<Call>)

  function Prefixed(calls: seq<Call>, st: Stage): Stage {
    match st
    case Proceed(m, cs) => Proceed(m, calls + cs)
    case Stop(c, m, cs) => Stop(c, m, calls + cs)
  }

  /** Stages 3 to 7 of `Open`, one round of the script per pass: protocol
      parameters, driver info, and while the host flags show RUN and RDY, a
      database clear that sends `Open` back to the parameters. Every failure
      returns `Close()`. No bound is placed on the passes; the model gives
      up (None) only when the script runs out. */
  function ParamStages(i: CifInterface, rounds: seq<Round>, close: CloseScript, m: LastMsg): (r: Option<Stage>)
    ensures !i.Active() && r.Some? && r.value.Stop? ==> r.value.code == ERR_NOERR
    decreases |rounds|
  {
    if |rounds| == 0 then None
    else
      var rd := rounds[0];
      var sp := SetProtocolParameters(i, rd, m);
      if sp.code != ERR_NOERR then
        var c := Close(i, close, sp.msg);
        Some(Stop(c.code, c.msg, sp.calls + c.calls))
      else
        var info := Classify(i, rd.infoStatus, 0, sp.msg);
        var calls := sp.calls + [GetInfo(i.board, GET_DRIVER_INFO)];
        if HardFail(rd.infoStatus) then
          var c := Close(i, close, info.msg);
          Some(Stop(c.code, c.msg, calls + c.calls))
        else if rd.hostFlags & F_RUN != 0 && rd.hostFlags & F_RDY != 0 then
          var cl := ClearDatabase(i, rd, info.msg);
          if cl.code == ERR_NOERR then
            match ParamStages(i, rounds[1..], close, cl.msg)
            case None => None
            case Some(st) => Some(Prefixed(calls + cl.calls, st))
          else
            var c := Close(i, close, cl.msg);
            Some(Stop(c.code, c.msg, calls + cl.calls + c.calls))
        else Some(Proceed(info.msg, calls))
  }

  /** Stage 8 onward: download the bus parameters (a failure returns its
      code, no `Close`), signal host ready if the interface was inactive,
      read the task state (a hard failure returns `Close()`), and take the
      active flag from whether the master's state equals OPERATE. */
  function Finish(i: CifInterface, lay: Layout, fs: FinishScript, close: CloseScript, m: LastMsg): (r: Outcome)
    ensures r.intf == WithActive(i, r.intf.Active())
    ensures var dl := DownloadParameters(i, lay, fs, m);
      dl.code != ERR_NOERR ==> r == Outcome(dl.code, i, dl.msg, dl.calls)
    ensures var dl := DownloadParameters(i, lay, fs, m);
      dl.code == ERR_NOERR && !HardFail(fs.taskStatus) ==>
        && r.intf.Active() == (fs.dnmState == OPERATE)
        && Reported(r.code, r.msg) == SetCifError(fs.taskStatus, 0, i.board, i.Mac())
    ensures var dl := DownloadParameters(i, lay, fs, m);
      dl.code == ERR_NOERR && HardFail(fs.taskStatus) ==>
        r.intf == i && (!i.Active() ==> r.code == ERR_NOERR)
  {
    var dl := DownloadParameters(i, lay, fs, m);
    if dl.code != ERR_NOERR then Outcome(dl.code, i, dl.msg, dl.calls)
    else
      var host := if !i.Active() then [SetHostState(i.board, HOST_READY, 1000)] else [];
      var ts := Classify(i, fs.taskStatus, 0, dl.msg);
      var calls := dl.calls + host + [GetTaskState(i.board, 2)];
      if HardFail(fs.taskStatus) then
        var c := Close(i, close, ts.msg);
        Outcome(c.code, c.intf, c.msg, calls + c.calls)
      else Outcome(ts.code, WithActive(i, fs.dnmState == OPERATE), ts.msg, calls)
  }

  /** Driver answers for a whole `Open`. */
  datatype OpenScript = OpenScript(
    openStatus: int16, initStatus: int16, rounds: seq<Round>, finish: FinishScript, close: CloseScript)

  /** `Open`: an inactive interface opens the driver and initialises the
      board (a hard failure of either returns its code), runs the parameter
      stages, then finishes; an active one goes straight to the finish. Only
      the active flag of the interface changes. */
  function Open(i: CifInterface, lay: Layout, sc: OpenScript, m: LastMsg): (r: Option<Outcome>)
    ensures i.Active() ==> r.Some?
    ensures r.Some? ==> r.value.intf == WithActive(i, r.value.intf.Active())
    ensures r.Some? && r.value.intf.Active() ==> sc.finish.dnmState == OPERATE || i.Active()
  {
    if i.Active() then Some(Finish(i, lay, sc.finish, sc.close, m))
    else
      var o := Classify(i, sc.openStatus, 0, m);
      if HardFail(sc.openStatus) then Some(Outcome(o.code, i, o.msg, [OpenDriver]))
      else
        var ib := Classify(i, sc.initStatus, 0, o.msg);
        var calls := [OpenDriver, InitBoard(i.board)];
        if HardFail(sc.initStatus) then Some(Outcome(ib.code, i, ib.msg, calls))
        else
          match ParamStages(i, sc.rounds, sc.close, ib.msg)
          case None => None
          case Some(Stop(c, msg, cs)) => Some(Outcome(c, i, msg, calls + cs))
          case Some(Proceed(msg, cs)) =>
            var f := Finish(i, lay, sc.finish, sc.close, msg);
            Some(f.(calls := calls + cs + f.calls))
  }

  /** A call that belongs to setting the board up: driver open, board init,
      protocol parameters, driver info, database clear, host ready. */
  predicate SetupCall(c: Call) {
    c.OpenDriver? || c.InitBoard? || c.PutTaskParameter? || c.DevReset? || c.GetInfo?
    || (c.SetHostState? && c.state == HOST_READY)
    || (c.PutMessage? && c.msg.body.DatabaseRequest?)
  }

  /** `Open` on an active interface makes no set-up call at all: its trace is
      the download, the task-state read and, if that fails hard, `Close`. */
  lemma OpenActiveSkipsSetup(i: CifInterface, lay: Layout, sc: OpenScript, m: LastMsg)
    requires i.Active()
    ensures Open(i, lay, sc, m).Some?
    ensures forall k :: 0 <= k < |Open(i, lay, sc, m).value.calls| ==> !SetupCall(Open(i, lay, sc, m).value.calls[k])
  {
    var f := Finish(i, lay, sc.finish, sc.close, m);
    var dl := DownloadParameters(i, lay, sc.finish, m);
    assert BusTelegram(lay, i).body.BusDownload?;
    assert forall k :: 0 <= k < |dl.calls| ==> !SetupCall(dl.calls[k]);
  }

  /** An inactive `Open` whose parameter stages or task-state read fail
      returns 0: the `Close` it returns does nothing on an inactive
      interface. */
  lemma OpenInactiveLateFailureIsClean(i: CifInterface, lay: Layout, sc: OpenScript, m: LastMsg)
    requires !i.Active() && !HardFail(sc.openStatus) && !HardFail(sc.initStatus)
    requires var ib := Classify(i, sc.initStatus, 0, Classify(i, sc.openStatus, 0, m).msg);
      var st := ParamStages(i, sc.rounds, sc.close, ib.msg);
      st.Some? && (st.value.Stop?
        || (DownloadParameters(i, lay, sc.finish, st.value.msg).code == ERR_NOERR && HardFail(sc.finish.taskStatus)))
    ensures Open(i, lay, sc, m).Some? && Open(i, lay, sc, m).value.code == ERR_NOERR
    ensures !Open(i, lay, sc, m).value.intf.Active()
  {
  }

  /** A database clear the script lets through: parameters, info and clear
      all clean, RUN and RDY set. */
  predicate ClearingRound(rd: Round) {
    && !(rd.paramStatus < 0 || rd.paramStatus >= 1000) && rd.resetStatus == DRV_NO_ERROR
    && rd.infoStatus == DRV_NO_ERROR && rd.hostFlags & F_RUN != 0 && rd.hostFlags & F_RDY != 0
    && rd.clearPut == DRV_NO_ERROR && rd.clearGet == DRV_NO_ERROR && rd.clearTask == TASK_F_OK
  }

  predicate IsClear(c: Call) {
    c.PutMessage? && c.msg.body.DatabaseRequest?
  }

  /** The number of database clears in a trace. */
  function CountClears(calls: seq<Call>): nat {
    if |calls| == 0 then 0
    else (if IsClear(calls[0]) then 1 else 0) + CountClears(calls[1..])
  }

  lemma {:induction false} NoClears(calls: seq<Call>)
    requires forall k :: 0 <= k < |calls| ==> !IsClear(calls[k])
    ensures CountClears(calls) == 0
    decreases |calls|
  {
    if |calls| > 0 {
      NoClears(calls[1..]);
    }
  }

  lemma {:induction false} CountClearsAppend(a: seq<Call>, b: seq<Call>)
    ensures CountClears(a + b) == CountClears(a) + CountClears(b)
    decreases |a|
  {
    if |a| > 0 {
      assert (a + b)[1..] == a[1..] + b;
      CountClearsAppend(a[1..], b);
    } else {
      assert a + b == b;
    }
  }

  /** The loop has no cap: n clearing rounds followed by a round without
      RUN and RDY reach the download after exactly n database clears, for
      every n. */
  lemma {:induction false} ClearLoopUncapped(i: CifInterface, rounds: seq<Round>, close: CloseScript, m: LastMsg)
    requires |rounds| >= 1
    requires forall k :: 0 <= k < |rounds| - 1 ==> ClearingRound(rounds[k])
    requires var last := rounds[|rounds| - 1];
      && !(last.paramStatus < 0 || last.paramStatus >= 1000) && last.resetStatus == DRV_NO_ERROR
      && last.infoStatus == DRV_NO_ERROR && last.hostFlags & F_RUN == 0
    ensures ParamStages(i, rounds, close, m).Some?
    ensures ParamStages(i, rounds, close, m).value.Proceed?
    ensures CountClears(ParamStages(i, rounds, close, m).value.calls) == |rounds| - 1
    decreases |rounds|
  {
    var rd := rounds[0];
    var sp := SetProtocolParameters(i, rd, m);
    var info := Classify(i, rd.infoStatus, 0, sp.msg);
    var calls := sp.calls + [GetInfo(i.board, GET_DRIVER_INFO)];
    NoClears(calls);
    if |rounds| > 1 {
      assert ClearingRound(rd);
      var cl := ClearDatabase(i, rd, info.msg);
      assert CountClears(cl.calls) == 1 by {
        assert cl.calls == [PutMessage(i.board, CLEAR_DB_TELEGRAM, 500), GetMessage(i.board, 3000)];
        assert cl.calls[1..] == [GetMessage(i.board, 3000)];
        NoClears(cl.calls[1..]);
      }
      assert forall k :: 0 <= k < |rounds[1..]| - 1 ==> rounds[1..][k] == rounds[k + 1];
      ClearLoopUncapped(i, rounds[1..], close, cl.msg);
      var st := ParamStages(i, rounds[1..], close, cl.msg).value;
      CountClearsAppend(calls + cl.calls, st.calls);
      CountClearsAppend(calls, cl.calls);
    }
  }

  /** Driver answers for `Reset`. */
  datatype ResetScript = ResetScript(
    openStatus: int16, initStatus: int16, resetStatus: int16, exitStatus: int16, closeStatus: int16)

  /** The reset timeout for a mode: cold and boot starts 10000, warm start
      8000, anything else 0. */
  function ResetTimeout(mode: uint16): int {
    if mode == COLDSTART || mode == BOOTSTART then 10000
    else if mode == WARMSTART then 8000
    else 0
  }

  /** `Reset(mode)`: the firmware reset, bracketed by driver open/board init
      and board exit/driver close when the interface is inactive. A mode that
      is no start mode is reported as ERR_INVFPRM and reset anyway with
      timeout 0; that report never survives, because the reset's own
      classification follows it. The interface is not changed. */
  function Reset(i: CifInterface, mode: uint16, sc: ResetScript, m: LastMsg): (r: Outcome)
    ensures r.intf == i
    ensures r.code == ERR_NOERR || r.code == ERR_CIF
    ensures r.msg.Blank? || r.msg.CifMsg?
    ensures i.Active() ==> r.calls == [DevReset(i.board, mode, ResetTimeout(mode))]
    ensures !i.Active() ==> |r.calls| >= 1 && r.calls[0] == OpenDriver
    ensures !i.Active() && !HardFail(sc.openStatus) && !HardFail(sc.initStatus) && !HardFail(sc.resetStatus) ==>
      && r.calls == [OpenDriver, InitBoard(i.board), DevReset(i.board, mode, ResetTimeout(mode)), ExitBoard(i.board), CloseDriver]
      && Reported(r.code, r.msg) == SetCifError(sc.closeStatus, 0, i.board, i.Mac())
  {
    var pre: Option<Outcome> :=
      if i.Active() then None
      else
        var o := Classify(i, sc.openStatus, 0, m);
        if HardFail(sc.openStatus) then Some(Outcome(o.code, i, o.msg, [OpenDriver]))
        else
          var ib := Classify(i, sc.initStatus, 0, o.msg);
          if HardFail(sc.initStatus) then Some(Outcome(ib.code, i, ib.msg, [OpenDriver, InitBoard(i.board)]))
          else None;
    if pre.Some? then pre.value
    else
      var m1 := if i.Active() then m else Classify(i, sc.initStatus, 0, Classify(i, sc.openStatus, 0, m).msg).msg;
      var prefix := if i.Active() then [] else [OpenDriver, InitBoard(i.board)];
      var m2 := if mode == COLDSTART || mode == BOOTSTART || mode == WARMSTART then m1
        else Report(ERR_INVFPRM, [Text("vpParam"), Text(NatToDecimal(mode)), Text("Reset")], m1).msg;
      var e := Classify(i, sc.resetStatus, 0, m2);
      var calls := prefix + [DevReset(i.board, mode, ResetTimeout(mode))];
      if HardFail(sc.resetStatus) || i.Active() then Outcome(e.code, i, e.msg, calls)
      else
        var e1 := Classify(i, sc.exitStatus, 0, e.msg);
        var e2 := Classify(i, sc.closeStatus, 0, e1.msg);
        Outcome(e2.code, i, e2.msg, calls + [ExitBoard(i.board), CloseDriver])
  }

  /** The timeout mapping: the three start modes get their timeouts, every
      other mode 0. */
  lemma ResetTimeouts(mode: uint16)
    ensures (mode == COLDSTART || mode == BOOTSTART) <==> ResetTimeout(mode) == 10000
    ensures mode == WARMSTART <==> ResetTimeout(mode) == 8000
    ensures !(mode == COLDSTART || mode == BOOTSTART || mode == WARMSTART) <==> ResetTimeout(mode) == 0
  {
  }
}
