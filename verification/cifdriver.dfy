/** The board driver as the board backend sees it: the calls it makes (kept
    as a trace), the telegrams it posts, the records the driver hands back,
    and the slave-status bitmaps indexed by MAC id. */
module CifDriver {
  import opened Prims
  import opened Defs
  import opened Vendor

  /** A status the backend stops on: a driver error (negative) or a firmware
      ("RCS") error. Statuses between the two are reported but not stopped
      on. */
  predicate HardFail(s: int) {
    s < 0 || s >= DRV_RCS_ERROR_OFFSET
  }

  /** Sizes of the driver's structures, whose headers are not part of this
      model; they enter the computed lengths only. */
  datatype Layout = Layout(
    devPrmHeader: nat,       // DNM_DEV_PRM_HEADER
    ioObjHeader: nat,        // DNM_PRED_MSTSL_IO_OBJ_HEADER
    ioModule: nat,           // DNM_IO_MODULE
    downloadOverhead: nat,   // DNM_DOWNLOAD_REQUEST less its data area
    busParams: nat,          // BUS_DNM
    diagConfirm: nat,        // DNM_DEVICE_DIAG_CONFIRM
    telegramHeader: nat,     // RCS_MESSAGETELEGRAMHEADER_10
    initParams: nat)         // DNM_INIT_PARAMETERS

  /** Protocol parameters posted before every reset of the firmware. */
  datatype InitParams = InitParams(mode: int, watchdogTime: int)

  /** Bus parameters of the master, downloaded by the interface. */
  datatype BusParams = BusParams(
    ownMac: uint8, vendorId: uint16, baud: int, autoClear: uint8,
    consSize: uint8, consOffset: uint16, prodSize: uint8, prodOffset: uint16)

  /** One I/O module of a slave's configuration. */
  datatype IoModule = IoModule(dataType: bv8, dataSize: uint8)

  /** Parameter record of one slave device, as downloaded by `Allocate`. The
      identity fields of the header, all written as zero, are not kept. */
  datatype DeviceRecord = DeviceRecord(
    devParaLen: uint16, activeFlag: bool, recFragTimer: uint16,
    cfgLen: uint16, connType: bv8, watchdogAction: int, prodInhibit: uint16,
    epr: uint16, modules: seq<IoModule>,
    addTabLen: uint16, inputCount: uint8, outputCount: uint8, offsets: seq<uint16>,
    attrDataLen: uint16, ucmmCfgLen: uint16, ucmmAddTabLen: uint16)

  /** Routing header of a telegram to the firmware. */
  datatype Header = Header(rx: uint8, tx: uint8, ln: uint8, nr: uint8, b: uint8)

  datatype Body =
    | DatabaseRequest(d: seq<uint8>)
    | BusDownload(area: uint8, bus: BusParams)
    | DeviceDownload(area: uint8, rec: DeviceRecord)
    | DiagRequest(deviceAdr: uint8)
    | Explicit(deviceAdr: uint8, dataArea: uint8, dataAdr: uint16, dataIdx: uint8,
               dataCnt: uint8, fn: uint8, data: seq<uint8>)

  datatype Telegram = Telegram(hdr: Header, body: Body)

  /** The driver calls, with the arguments the model tracks; timeouts in
      milliseconds. */
  datatype Call =
    | OpenDriver
    | InitBoard(board: uint16)
    | PutTaskParameter(board: uint16, area: int, params: InitParams)
    | DevReset(board: uint16, mode: int, timeout: int)
    | PutMessage(board: uint16, msg: Telegram, timeout: int)
    | GetMessage(board: uint16, timeout: int)
    | GetInfo(board: uint16, area: int)
    | SetHostState(board: uint16, state: int, timeout: int)
    | GetTaskState(board: uint16, area: int)
    | ExitBoard(board: uint16)
    | CloseDriver
    | ReadDpm(board: uint16, offset: int, size: int)
    | WriteDpm(board: uint16, offset: int, data: seq<bv8>)
    | ExchangeIO(board: uint16, sendOffset: uint16, sendSize: uint16, recvOffset: uint16, recvSize: uint16,
                 timeout: int)

  /** The master's task state: global state byte and the per-slave
      "configured", "state" and "diagnostics pending" bitmaps. */
  datatype TaskState = TaskState(dnmState: bv8, cfg: seq<bv8>, state: seq<bv8>, diag: seq<bv8>)

  /** The bitmaps are as wide as the master's structure: eight bytes for 64
      slaves, the state bitmap twice that. */
  predicate WellSized(t: TaskState) {
    |t.cfg| == 8 && |t.state| == 16 && |t.diag| == 8
  }

  /** A reply telegram: the get status, the function (error) byte, the first
      data byte, the returned data count and the data that reach the caller. */
  datatype Reply = Reply(status: int16, f: uint8, d0: uint8, dataCnt: uint8, data: seq<uint8>)

  /** A device-diagnostics reply: the get status and error byte, the three
      fault bits of the first status byte, and the error codes. */
  datatype DiagReply = DiagReply(
    status: int16, f: uint8, noResponse: bool, prmFault: bool, cfgFault: bool,
    online: uint8, general: uint8, additional: uint8)

  /** The bit of a slave within its byte of a bitmap, as the `DEV_0`..`DEV_7`
      switch selects it. */
  function DevMask(j: nat): (r: bv8)
    requires j < 8
  {
    if j == 0 then 0x01 else if j == 1 then 0x02 else if j == 2 then 0x04
    else if j == 3 then 0x08 else if j == 4 then 0x10 else if j == 5 then 0x20
    else if j == 6 then 0x40 else 0x80
  }

  /** The switch is the shift it spells out. */
  lemma DevMaskIsShift(j: nat)
    requires j < 8
    ensures DevMask(j) == (1 as bv8) << j
    ensures DevMask(j) != 0
  {
  }

  /** The bit of slave `k` in an eight-byte bitmap: byte `k/8`, bit `k%8`. */
  predicate SlaveBit(buf: seq<bv8>, k: nat)
    requires |buf| == 8 && k < DEVICENET_MAX_DEVICES
  {
    buf[k / 8] & DevMask(k % 8) != 0
  }

  /** Clearing the I/O connection bit of slave `mac` in the slave-status
      buffer: only byte `mac/8` is rewritten, and in it only bit `mac%8`. */
  function ClearSlaveBit(buf: seq<bv8>, mac: nat): (r: seq<bv8>)
    requires |buf| == 8 && mac < DEVICENET_MAX_DEVICES
    ensures |r| == 8
    ensures forall i :: 0 <= i < 8 && i != mac / 8 ==> r[i] == buf[i]
  {
    buf[mac / 8 := buf[mac / 8] & !DevMask(mac % 8)]
  }

  /** Within one byte, clearing one mask bit keeps every other mask bit. */
  lemma {:induction false} ClearBitInByte(x: bv8, i: nat, j: nat)
    requires i < 8 && j < 8
    ensures (x & !DevMask(i)) & DevMask(j) != 0 <==> x & DevMask(j) != 0 && i != j
  {
    DevMaskIsShift(i);
    DevMaskIsShift(j);
    if i == j {
      assert (x & !DevMask(i)) & DevMask(i) == 0;
    } else {
      assert DevMask(i) & DevMask(j) == 0;
      assert (x & !DevMask(i)) & DevMask(j) == x & DevMask(j);
    }
  }

  /** After the clear, exactly the bits of the other slaves are set that were
      set before. */
  lemma {:induction false} ClearSlaveBitExact(buf: seq<bv8>, mac: nat, k: nat)
    requires |buf| == 8 && mac < DEVICENET_MAX_DEVICES && k < DEVICENET_MAX_DEVICES
    ensures SlaveBit(ClearSlaveBit(buf, mac), k) <==> SlaveBit(buf, k) && k != mac
  {
    var r := ClearSlaveBit(buf, mac);
    if k / 8 == mac / 8 {
      ClearBitInByte(buf[mac / 8], mac % 8, k % 8);
      assert k != mac <==> k % 8 != mac % 8;
    }
  }
}
