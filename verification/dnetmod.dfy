/** Error reporting of the module: collapsing a driver status into one return
    code, the single last-message state, and the code-to-text lookups. */
module Reporting {
  import opened Prims
  import opened Defs
  import opened Vendor
  import opened Errs

  /** A value handed to a message template. */
  datatype Arg = Num(n: int) | Text(s: string)

  /** The last message (`errmsg`), kept as the values it is formatted from.
      `Indeterminate` is what a call that passes fewer arguments than its
      template reads leaves behind. */
  datatype LastMsg =
    | Blank
    | CifMsg(board: uint16, dev: uint16, tag: string, code: int, text: string)
    | NiMsg(intf: uint16, dev: uint16, status: int32)
    | ExplicitMsg(mac: uint8, gen: uint8, genText: string, add: uint8, addText: string)
    | Formatted(code: int, args: seq<Arg>)
    | Indeterminate

  /** A call of `SetError` with its variable arguments. */
  datatype ErrCall =
    | CifCall(status: int16, task: uint8, board: uint16, dev: uint16)
    | NiCall(niStatus: int32, intf: uint16, niDev: uint16)
    | ExplicitCall(mac: uint8, gen: uint8, add: uint8)
      /** ERR_EXPLCT given only the MAC id and one device error word. */
    | ExplicitShortCall(shortMac: uint8, devError: uint16)
    | PlainCall(code: int, args: seq<Arg>)

  /** What `SetError` returns, with the last message it leaves. */
  datatype Reported = Reported(code: int, msg: LastMsg)

  /** The codes `SetError` has a message template for, besides the three
      driver classifications. */
  predicate HasTemplate(code: int) {
    code == ERR_UKNOW || code == ERR_EXT || code == ERR_CNTALM
    || code == ERR_INVFPTR || code == ERR_INVFPRM
    || (ERR_IOPER <= code <= ERR_DEVTYPE)
  }

  /** The calls that pass the arguments their code's template reads: the
      driver classifications only in their own shape. */
  predicate WellFormed(call: ErrCall) {
    call.PlainCall? ==> call.code != ERR_NIDNET && call.code != ERR_CIF && call.code != ERR_EXPLCT
  }

  /** `SetCIFError`: clean exactly when both the driver status and the task
      error are clean; otherwise ERR_CIF, a driver error ("E") taking
      precedence over a task error ("TE"). */
  function SetCifError(status: int16, task: uint8, board: uint16, dev: uint16): (r: Reported)
    ensures r.code == ERR_NOERR <==> status == DRV_NO_ERROR && task == TASK_F_OK
    ensures r.code != ERR_NOERR ==> r.code == ERR_CIF
    ensures r.code == ERR_NOERR ==> r.msg == Blank
    ensures status != DRV_NO_ERROR ==> r.msg == CifMsg(board, dev, "E", status, CifErrText(status))
    ensures status == DRV_NO_ERROR && task != TASK_F_OK ==> r.msg == CifMsg(board, dev, "TE", task, TaskErrText(task))
  {
    if status != DRV_NO_ERROR then Reported(ERR_CIF, CifMsg(board, dev, "E", status, CifErrText(status)))
    else if task != TASK_F_OK then Reported(ERR_CIF, CifMsg(board, dev, "TE", task, TaskErrText(task)))
    else Reported(ERR_NOERR, Blank)
  }

  /** `SetNIError`: clean and blank exactly when the status is 0. */
  function SetNiError(status: int32, intf: uint16, dev: uint16): (r: Reported)
    ensures r.code == ERR_NOERR <==> status == 0
    ensures r.code != ERR_NOERR ==> r.code == ERR_NIDNET && r.msg == NiMsg(intf, dev, status)
    ensures r.code == ERR_NOERR ==> r.msg == Blank
  {
    if status != 0 then Reported(ERR_NIDNET, NiMsg(intf, dev, status)) else Reported(ERR_NOERR, Blank)
  }

  /** `SetError`: the driver classifications return 0 when clean and their
      own code otherwise, ERR_EXPLCT is always returned as is, and every other
      code is returned unchanged. ERR_NOERR leaves the last message as it
      was; a code without a template blanks it. */
  function SetError(call: ErrCall, m: LastMsg): (r: Reported)
    requires WellFormed(call)
    ensures call.CifCall? ==>
      && (r.code == ERR_NOERR <==> call.status == DRV_NO_ERROR && call.task == TASK_F_OK)
      && (r.code == ERR_NOERR || r.code == ERR_CIF)
    ensures call.NiCall? ==>
      && (r.code == ERR_NOERR <==> call.niStatus == 0)
      && (r.code == ERR_NOERR || r.code == ERR_NIDNET)
    ensures call.ExplicitCall? || call.ExplicitShortCall? ==> r.code == ERR_EXPLCT
    ensures call.ExplicitCall? ==> r.msg.ExplicitMsg? && r.msg.mac == call.mac
    ensures call.PlainCall? ==> r.code == call.code
    ensures call.PlainCall? && call.code == ERR_NOERR ==> r.msg == m
    ensures call.PlainCall? && call.code != ERR_NOERR ==>
      r.msg == (if HasTemplate(call.code) then Formatted(call.code, call.args) else Blank)
    ensures r.code == ERR_NOERR ==> r.msg == m || r.msg == Blank
  {
    match call
    case CifCall(s, t, b, d) => SetCifError(s, t, b, d)
    case NiCall(s, i, d) => SetNiError(s, i, d)
    case ExplicitCall(d, g, a) => Reported(ERR_EXPLCT, ExplicitMsg(d, g, DevErrText(g), a, DevErrText(a)))
    case ExplicitShortCall(_, _) => Reported(ERR_EXPLCT, Indeterminate)
    case PlainCall(c, args) =>
      if c == ERR_NOERR then Reported(ERR_NOERR, m)
      else if HasTemplate(c) then Reported(c, Formatted(c, args))
      else Reported(c, Blank)
  }

  /** Shorthand for the classification of a board driver status. */
  function CifStatus(status: int16, task: uint8, board: uint16, dev: uint16, m: LastMsg): Reported {
    SetError(CifCall(status, task, board, dev), m)
  }

  /** Shorthand for the classification of an NI-DNET status. */
  function NiStatus(status: int32, intf: uint16, dev: uint16, m: LastMsg): Reported {
    SetError(NiCall(status, intf, dev), m)
  }

  /** Shorthand for a report with its own template. */
  function Report(code: int, args: seq<Arg>, m: LastMsg): Reported
    requires code != ERR_NIDNET && code != ERR_CIF && code != ERR_EXPLCT
  {
    SetError(PlainCall(code, args), m)
  }

  /** `GetErrMsg`: the current last message, as `render` formats it, copied
      into a buffer of `size` characters with `strncpy` truncation and
      padding. */
  function GetErrMsg(m: LastMsg, render: LastMsg -> string, size: nat): (buf: string)
    ensures |buf| == size
    ensures forall k :: 0 <= k < size && k < |render(m)| ==> buf[k] == render(m)[k]
    ensures forall k :: |render(m)| <= k < size ==> buf[k] == '\0'
  {
    StrNCpy(render(m), size)
  }

  /** A clean classification followed by ERR_NOERR still reads blank: the
      clean report empties the message and ERR_NOERR does not touch it. */
  lemma NoErrAfterCleanStatus(board: uint16, dev: uint16, m: LastMsg)
    ensures SetError(PlainCall(ERR_NOERR, []), CifStatus(DRV_NO_ERROR, TASK_F_OK, board, dev, m).msg).msg == Blank
  {
  }

  /** Result of a string lookup: return code, the caller's buffer, and the
      last message left behind. */
  datatype Lookup = Lookup(code: int, buf: string, msg: LastMsg)

  /** `VendIdToString`: ids up to DNETMOD_MAX_VENDID give the table entry
      and 0 without touching the message; larger ids give "Unknown" and
      ERR_VENDID. The vendor table is a parameter. */
  function VendIdToString(id: uint16, size: nat, names: seq<string>, m: LastMsg): (r: Lookup)
    requires |names| == DNETMOD_MAX_VENDID + 1
    ensures r.code == ERR_NOERR <==> id <= DNETMOD_MAX_VENDID
    ensures r.code != ERR_NOERR ==> r.code == ERR_VENDID && r.msg == Formatted(ERR_VENDID, [Num(id)])
    ensures r.code == ERR_NOERR ==> r.msg == m
    ensures |r.buf| == size
    ensures id <= DNETMOD_MAX_VENDID ==> forall k :: 0 <= k < size && k < |names[id]| ==> r.buf[k] == names[id][k]
    ensures id > DNETMOD_MAX_VENDID ==> forall k :: 0 <= k < size && k < 7 ==> r.buf[k] == "Unknown"[k]
  {
    if id <= DNETMOD_MAX_VENDID then
      var e := Report(ERR_NOERR, [], m);
      Lookup(e.code, StrNCpy(names[id], size), e.msg)
    else
      var e := Report(ERR_VENDID, [Num(id)], m);
      Lookup(e.code, StrNCpy("Unknown", size), e.msg)
  }

  /** `DevTypeToString`: the same with DNETMOD_MAX_DEVTYPE and ERR_DEVTYPE. */
  function DevTypeToString(id: uint16, size: nat, names: seq<string>, m: LastMsg): (r: Lookup)
    requires |names| == DNETMOD_MAX_DEVTYPE + 1
    ensures r.code == ERR_NOERR <==> id <= DNETMOD_MAX_DEVTYPE
    ensures r.code != ERR_NOERR ==> r.code == ERR_DEVTYPE && r.msg == Formatted(ERR_DEVTYPE, [Num(id)])
    ensures r.code == ERR_NOERR ==> r.msg == m
    ensures |r.buf| == size
    ensures id <= DNETMOD_MAX_DEVTYPE ==> forall k :: 0 <= k < size && k < |names[id]| ==> r.buf[k] == names[id][k]
    ensures id > DNETMOD_MAX_DEVTYPE ==> forall k :: 0 <= k < size && k < 7 ==> r.buf[k] == "Unknown"[k]
  {
    if id <= DNETMOD_MAX_DEVTYPE then
      var e := Report(ERR_NOERR, [], m);
      Lookup(e.code, StrNCpy(names[id], size), e.msg)
    else
      var e := Report(ERR_DEVTYPE, [Num(id)], m);
      Lookup(e.code, StrNCpy("Unknown", size), e.msg)
  }

  /** `DevErrToString`: the code's text copied into a buffer of `size`
      characters with NUL padding. */
  function DevErrToString(c: uint8, size: nat): (buf: string)
    ensures |buf| == size
    ensures forall k :: 0 <= k < size && k < |DevErrText(c)| ==> buf[k] == DevErrText(c)[k]
    ensures forall k :: |DevErrText(c)| <= k < size ==> buf[k] == '\0'
  {
    StrNCpy(DevErrText(c), size)
  }

  /** `CIFErrToString`: driver codes are copied into the buffer of `size`
      characters; the firmware fallback is printed whole with its terminator,
      whatever the buffer size. */
  function CifErrToString(err: int16, size: nat): (buf: string)
    ensures err < DRV_RCS_ERROR_OFFSET ==> |buf| == size
    ensures err < DRV_RCS_ERROR_OFFSET ==>
      forall k :: 0 <= k < size && k < |CifErrText(err)| ==> buf[k] == CifErrText(err)[k]
    ensures err >= DRV_RCS_ERROR_OFFSET ==> buf == "(RCS) RCS error " + IntToDecimal(err) + "\0"
  {
    NamedCifErrsBelowRcs();
    if IsNamedCifErr(err) || err < DRV_RCS_ERROR_OFFSET then StrNCpy(CifErrText(err), size)
    else CifErrText(err) + "\0"
  }

  /** `CIFTskErrToString`: named task errors are copied into the buffer of
      `size` characters; the fallback is printed whole with its terminator. */
  function CifTskErrToString(e: uint8, size: nat): (buf: string)
    ensures IsNamedTaskErr(e) ==> |buf| == size
    ensures IsNamedTaskErr(e) ==>
      forall k :: 0 <= k < size && k < |TaskErrText(e)| ==> buf[k] == TaskErrText(e)[k]
    ensures !IsNamedTaskErr(e) ==> buf == "Task error. Code " + NatToDecimal(e) + ".\0"
  {
    if IsNamedTaskErr(e) then StrNCpy(TaskErrText(e), size) else TaskErrText(e) + "\0"
  }
}
