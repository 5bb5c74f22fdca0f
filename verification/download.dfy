/** The parameter record `Allocate` downloads for one slave: the I/O offset
    allocation on the interface's counters and the section lengths, each an
    `unsigned short` accumulated step by step. */
module DownloadRecord {
  import opened Prims
  import opened Defs
  import opened Vendor
  import opened CifDriver

  function Sum(parts: seq<int>): int {
    if |parts| == 0 then 0 else parts[0] + Sum(parts[1..])
  }

  /** A length accumulated in an `unsigned short`: the start, then one
      addition per part, each result truncated to 16 bits. */
  function RunningSum(start: int, parts: seq<int>): uint16
    decreases |parts|
  {
    if |parts| == 0 then Wrap16(start) else RunningSum(Wrap16(start) + parts[0], parts[1..])
  }

  /** Truncating after each step is truncating once at the end. */
  lemma Wrap16Step(a: int, b: int)
    ensures Wrap16(Wrap16(a) + b) == Wrap16(a + b)
  {
    var q := a / 0x1_0000;
    assert a == q * 0x1_0000 + Wrap16(a);
    assert Wrap16(a) + b == (a + b) - q * 0x1_0000;
  }

  /** The running 16-bit sum is the total of all parts, modulo 2^16. */
  lemma {:induction false} RunningSumIsTotal(start: int, parts: seq<int>)
    ensures RunningSum(start, parts) == Wrap16(start + Sum(parts))
    decreases |parts|
  {
    if |parts| > 0 {
      RunningSumIsTotal(Wrap16(start) + parts[0], parts[1..]);
      Wrap16Step(start, parts[0] + Sum(parts[1..]));
      assert Wrap16(start) + parts[0] + Sum(parts[1..]) == Wrap16(start) + (parts[0] + Sum(parts[1..]));
    }
  }

  /** The outcome of the offset allocation: the address table, the device's
      offsets and the interface's advanced counters. */
  datatype Allocation = Allocation(
    offsets: seq<uint16>, inputCount: uint8, outputCount: uint8,
    devIn: uint16, devOut: uint16, nextIn: uint16, nextOut: uint16)

  /** A non-zero consumed size takes the input counter as the device's input
      offset and advances the counter by the size; the produced size does the
      same with the output counter. Offsets the device does not use keep
      their previous values. */
  function AllocateOffsets(ccs: uint8, pcs: uint8, inCtr: uint16, outCtr: uint16, devIn: uint16, devOut: uint16): (a: Allocation)
    ensures ccs != 0 ==> a.devIn == inCtr && a.nextIn == Wrap16(inCtr + ccs)
    ensures ccs == 0 ==> a.devIn == devIn && a.nextIn == inCtr
    ensures pcs != 0 ==> a.devOut == outCtr && a.nextOut == Wrap16(outCtr + pcs)
    ensures pcs == 0 ==> a.devOut == devOut && a.nextOut == outCtr
    ensures a.inputCount == (if ccs != 0 then 1 else 0)
    ensures a.outputCount == (if pcs != 0 then 1 else 0)
    ensures |a.offsets| == a.inputCount + a.outputCount
    ensures ccs != 0 ==> a.offsets[0] == inCtr
    ensures pcs != 0 ==> a.offsets[a.inputCount] == outCtr
  {
    var ins := if ccs != 0 then [inCtr] else [];
    var outs := if pcs != 0 then [outCtr] else [];
    Allocation(ins + outs, |ins|, |outs|,
      if ccs != 0 then inCtr else devIn,
      if pcs != 0 then outCtr else devOut,
      if ccs != 0 then Wrap16(inCtr + ccs) else inCtr,
      if pcs != 0 then Wrap16(outCtr + pcs) else outCtr)
  }

  /** Devices allocated one after another get consecutive, non-overlapping
      input windows as long as the counter does not wrap. */
  lemma AllocationsAdjacent(c1: uint8, c2: uint8, inCtr: uint16, outCtr: uint16, d: uint16)
    requires c1 != 0 && c2 != 0 && inCtr + c1 + c2 < 0x1_0000
    ensures
      var a1 := AllocateOffsets(c1, 0, inCtr, outCtr, d, d);
      var a2 := AllocateOffsets(c2, 0, a1.nextIn, a1.nextOut, d, d);
      a2.devIn == a1.devIn + c1 && a2.nextIn == inCtr + c1 + c2
  {
  }

  /** The I/O modules: the consumed (input) module first, then the produced
      (output) module, each present only for a non-zero size. */
  function IoModules(ccs: uint8, pcs: uint8): (ms: seq<IoModule>)
    ensures |ms| == (if ccs != 0 then 1 else 0) + (if pcs != 0 then 1 else 0)
    ensures ccs != 0 ==> ms[0] == IoModule(TASK_TDT_STRING, ccs)
    ensures pcs != 0 ==> ms[|ms| - 1] == IoModule(TASK_TDT_STRING | DNM_OUTPUT, pcs)
  {
    (if ccs != 0 then [IoModule(TASK_TDT_STRING, ccs)] else [])
    + (if pcs != 0 then [IoModule(TASK_TDT_STRING | DNM_OUTPUT, pcs)] else [])
  }

  /** The board's bit for each abstract connection type. */
  const CifConnBits := ConnBits(DNM_TYPE_POLLED, DNM_TYPE_BIT_STROBED, DNM_TYPE_CHG_OF_STATE, DNM_TYPE_CYCLIC)

  /** `CT_TO_CT` of the board backend: each abstract type bit becomes the
      board's bit for it, and every other bit is dropped. */
  lemma CifConnTypeExact(ct: bv8)
    ensures TranslateConnType(ct, CifConnBits) & DNM_TYPE_POLLED != 0 <==> ct & DEVICENET_CONN_POLLED != 0
    ensures TranslateConnType(ct, CifConnBits) & DNM_TYPE_BIT_STROBED != 0 <==> ct & DEVICENET_CONN_STRBED != 0
    ensures TranslateConnType(ct, CifConnBits) & DNM_TYPE_CHG_OF_STATE != 0 <==> ct & DEVICENET_CONN_COS != 0
    ensures TranslateConnType(ct, CifConnBits) & DNM_TYPE_CYCLIC != 0 <==> ct & DEVICENET_CONN_CYCLIC != 0
    ensures TranslateConnType(ct, CifConnBits) & !(DNM_TYPE_POLLED | DNM_TYPE_BIT_STROBED | DNM_TYPE_CHG_OF_STATE | DNM_TYPE_CYCLIC) == 0
  {
    TranslatePolled(ct, CifConnBits);
    TranslateStrobed(ct, CifConnBits);
    TranslateCos(ct, CifConnBits);
    TranslateCyclic(ct, CifConnBits);
  }

  /** Sizes of the address-table entries and of the fixed trailing sections
      (explicit attributes, UCMM configuration, UCMM address table). */
  const OFFSET_ENTRY: int := 2
  const ATTR_DATA_LEN: int := 2
  const UCMM_CFG_LEN: int := 2
  const UCMM_ADD_TAB_LEN: int := 4

  /** The configuration length: its own length word, the I/O object header
      and one entry per I/O module. */
  function CfgLen(lay: Layout, ms: seq<IoModule>): uint16 {
    RunningSum(2, [lay.ioObjHeader] + seq(|ms|, _ => lay.ioModule))
  }

  /** The device record, given the allocation already made. */
  function BuildRecord(lay: Layout, ct: bv8, epr: uint16, ccs: uint8, pcs: uint8, a: Allocation): (r: DeviceRecord)
  {
    var ms := IoModules(ccs, pcs);
    var cfg := CfgLen(lay, ms);
    var tab := RunningSum(4, seq(|a.offsets|, _ => OFFSET_ENTRY));
    var para := RunningSum(lay.devPrmHeader, [cfg, tab, ATTR_DATA_LEN, UCMM_CFG_LEN, UCMM_ADD_TAB_LEN]);
    DeviceRecord(para, true, 1000, cfg, TranslateConnType(ct, CifConnBits), DNM_TRANSMISSION_TO_TIMEOUT, 10,
      epr, ms, tab, a.inputCount, a.outputCount, a.offsets, ATTR_DATA_LEN, UCMM_CFG_LEN, UCMM_ADD_TAB_LEN)
  }

  /** The message length byte: the low byte of the parameter length plus the
      download request's header, truncated to a byte. */
  function MessageLength(lay: Layout, r: DeviceRecord): uint8 {
    Low8(Low8(r.devParaLen) + lay.downloadOverhead)
  }

  lemma Low8Step(a: int, b: int)
    ensures Low8(Low8(a) + b) == Low8(a + b)
  {
    var q := a / 0x100;
    assert a == q * 0x100 + Low8(a);
    assert Low8(a) + b == (a + b) - q * 0x100;
  }

  /** The record's lengths in closed form: the module count is the number of
      non-zero sizes, the configuration and address table grow by one entry
      per module, and the parameter length is the sum of all sections; all
      modulo 2^16, the message length modulo 2^8. */
  lemma {:induction false} RecordLengths(lay: Layout, ct: bv8, epr: uint16, ccs: uint8, pcs: uint8, a: Allocation)
    ensures var r := BuildRecord(lay, ct, epr, ccs, pcs, a);
      && |r.modules| == (if ccs != 0 then 1 else 0) + (if pcs != 0 then 1 else 0)
      && r.cfgLen == Wrap16(2 + lay.ioObjHeader + |r.modules| * lay.ioModule)
      && r.addTabLen == Wrap16(4 + OFFSET_ENTRY * |a.offsets|)
      && r.devParaLen == Wrap16(lay.devPrmHeader + r.cfgLen + r.addTabLen + ATTR_DATA_LEN + UCMM_CFG_LEN + UCMM_ADD_TAB_LEN)
      && MessageLength(lay, r) == Low8(r.devParaLen + lay.downloadOverhead)
  {
    var r := BuildRecord(lay, ct, epr, ccs, pcs, a);
    var ms := IoModules(ccs, pcs);
    SumConst(|ms|, lay.ioModule);
    assert Sum([lay.ioObjHeader] + seq(|ms|, _ => lay.ioModule)) == lay.ioObjHeader + Sum(seq(|ms|, _ => lay.ioModule)) by {
      assert ([lay.ioObjHeader] + seq(|ms|, _ => lay.ioModule))[1..] == seq(|ms|, _ => lay.ioModule);
    }
    RunningSumIsTotal(2, [lay.ioObjHeader] + seq(|ms|, _ => lay.ioModule));
    SumConst(|a.offsets|, OFFSET_ENTRY);
    RunningSumIsTotal(4, seq(|a.offsets|, _ => OFFSET_ENTRY));
    var parts := [r.cfgLen, r.addTabLen, ATTR_DATA_LEN, UCMM_CFG_LEN, UCMM_ADD_TAB_LEN];
    RunningSumIsTotal(lay.devPrmHeader, parts);
    assert Sum(parts) == r.cfgLen + r.addTabLen + ATTR_DATA_LEN + UCMM_CFG_LEN + UCMM_ADD_TAB_LEN by {
      var p1 := [r.addTabLen, ATTR_DATA_LEN, UCMM_CFG_LEN, UCMM_ADD_TAB_LEN];
      var p2 := [ATTR_DATA_LEN, UCMM_CFG_LEN, UCMM_ADD_TAB_LEN];
      var p3 := [UCMM_CFG_LEN, UCMM_ADD_TAB_LEN];
      assert parts[1..] == p1 && p1[1..] == p2 && p2[1..] == p3 && p3[1..] == [UCMM_ADD_TAB_LEN];
      assert [UCMM_ADD_TAB_LEN][1..] == [];
      assert Sum([UCMM_ADD_TAB_LEN]) == UCMM_ADD_TAB_LEN;
      assert Sum(p3) == UCMM_CFG_LEN + UCMM_ADD_TAB_LEN;
      assert Sum(p2) == ATTR_DATA_LEN + Sum(p3);
      assert Sum(p1) == r.addTabLen + Sum(p2);
    }
    Low8Step(r.devParaLen, lay.downloadOverhead);
  }

  /** n equal parts sum to n times the part. */
  lemma {:induction false} SumConst(n: nat, v: int)
    ensures Sum(seq(n, _ => v)) == n * v
  {
    if n > 0 {
      assert seq(n, _ => v)[1..] == seq(n - 1, _ => v);
      SumConst(n - 1, v);
    }
  }
}
