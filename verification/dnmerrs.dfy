/** The module's error-code taxonomy: its own return codes, the
    application-layer (CIP general status) codes of explicit-message replies,
    the diagnostic fault codes, and the texts the module associates with
    driver, firmware and device codes. */
module Errs {
  import opened Prims
  import opened Wrappers
  import opened Defs
  import opened Vendor

  // Return codes of the module's functions.
  const ERR_NOERR: int := 0
  const ERR_UKNOW: int := 1
  const ERR_EXT: int := 2
  const ERR_NIDNET: int := 4
  const ERR_CIF: int := 5
  const ERR_EXPLCT: int := 6
  const ERR_CNTALM: int := 10
  const ERR_INVFPTR: int := 20
  const ERR_INVFPRM: int := 21
  const ERR_IOPER: int := 101
  const ERR_INOPER: int := 102
  const ERR_INVPTR: int := 103
  const ERR_INVITF: int := 104
  const ERR_NOALOC: int := 105
  const ERR_NOALOCIO: int := 106
  const ERR_NOALOCEM: int := 107
  const ERR_VENDID: int := 108
  const ERR_DEVTYPE: int := 109

  /** The return codes as an enumeration, to state that they are distinct. */
  datatype ErrKind =
    | NoErr | Unknown | Ext | NiDnet | Cif | Explicit | CantAlloc
    | InvFuncPtr | InvFuncParam | IntfOperational | IntfNotOperational
    | InvPtr | InvIntf | NotAlloc | NotAllocIO | NotAllocEM | VendId | DevType

  function Code(k: ErrKind): (c: int)
    ensures c >= 0
    ensures c == ERR_NOERR <==> k == NoErr
  {
    match k
    case NoErr => ERR_NOERR
    case Unknown => ERR_UKNOW
    case Ext => ERR_EXT
    case NiDnet => ERR_NIDNET
    case Cif => ERR_CIF
    case Explicit => ERR_EXPLCT
    case CantAlloc => ERR_CNTALM
    case InvFuncPtr => ERR_INVFPTR
    case InvFuncParam => ERR_INVFPRM
    case IntfOperational => ERR_IOPER
    case IntfNotOperational => ERR_INOPER
    case InvPtr => ERR_INVPTR
    case InvIntf => ERR_INVITF
    case NotAlloc => ERR_NOALOC
    case NotAllocIO => ERR_NOALOCIO
    case NotAllocEM => ERR_NOALOCEM
    case VendId => ERR_VENDID
    case DevType => ERR_DEVTYPE
  }

  /** Decoding a return code back to its name. */
  function KindOf(c: int): (k: Option<ErrKind>)
    ensures k.Some? ==> Code(k.value) == c
    ensures k.None? ==> forall e: ErrKind :: Code(e) != c
  {
    if c == ERR_NOERR then Some(NoErr)
    else if c == ERR_UKNOW then Some(Unknown)
    else if c == ERR_EXT then Some(Ext)
    else if c == ERR_NIDNET then Some(NiDnet)
    else if c == ERR_CIF then Some(Cif)
    else if c == ERR_EXPLCT then Some(Explicit)
    else if c == ERR_CNTALM then Some(CantAlloc)
    else if c == ERR_INVFPTR then Some(InvFuncPtr)
    else if c == ERR_INVFPRM then Some(InvFuncParam)
    else if c == ERR_IOPER then Some(IntfOperational)
    else if c == ERR_INOPER then Some(IntfNotOperational)
    else if c == ERR_INVPTR then Some(InvPtr)
    else if c == ERR_INVITF then Some(InvIntf)
    else if c == ERR_NOALOC then Some(NotAlloc)
    else if c == ERR_NOALOCIO then Some(NotAllocIO)
    else if c == ERR_NOALOCEM then Some(NotAllocEM)
    else if c == ERR_VENDID then Some(VendId)
    else if c == ERR_DEVTYPE then Some(DevType)
    else None
  }

  lemma CodeRoundTrip(k: ErrKind)
    ensures KindOf(Code(k)) == Some(k)
  {
  }

  /** No two return codes share a value. */
  lemma {:induction false} CodesDistinct(a: ErrKind, b: ErrKind)
    ensures Code(a) == Code(b) ==> a == b
  {
    CodeRoundTrip(a);
    CodeRoundTrip(b);
  }

  // Application-layer (CIP general status) codes of explicit-message replies.
  const DERR_OK: uint8 := 0x00
  const DERR_RES_UNAV: uint8 := 0x02
  const DERR_SRV_UNAV: uint8 := 0x08
  const DERR_ATT_INVLD: uint8 := 0x09
  const DERR_ALR_REQ: uint8 := 0x0B
  const DERR_STAT_CONFL: uint8 := 0x0C
  const DERR_ATT_NOT_SET: uint8 := 0x0E
  const DERR_PERM: uint8 := 0x0F
  const DERR_SPE: uint8 := 0x10
  const DERR_NO_RESP: uint8 := 0x11
  const DERR_NED: uint8 := 0x13
  const DERR_ATT_NOT_SUP: uint8 := 0x14
  const DERR_TMD: uint8 := 0x15
  const DERR_OBJ_DONT_EXST: uint8 := 0x16
  const DERR_DLBS: uint8 := 0x17
  const DERR_VENDSPEC: uint8 := 0x1F
  const DERR_ERRRESP: uint8 := 0x23

  /** The general status codes that have a text of their own. */
  predicate IsNamedDevErr(c: int) {
    c == DERR_OK || c == DERR_RES_UNAV || c == DERR_SRV_UNAV || c == DERR_ATT_INVLD ||
    c == DERR_ALR_REQ || c == DERR_STAT_CONFL || c == DERR_ATT_NOT_SET ||
    c == DERR_PERM || c == DERR_SPE || c == DERR_NO_RESP || c == DERR_NED ||
    c == DERR_ATT_NOT_SUP || c == DERR_TMD || c == DERR_OBJ_DONT_EXST ||
    c == DERR_DLBS || c == DERR_VENDSPEC
  }

  /** A reply function byte that reports an application-layer error. */
  predicate IsAppLayerError(f: int) {
    DERR_OK < f <= DERR_VENDSPEC
  }

  /** Every named code lies in 0x00..0x1F with DERR_VENDSPEC the largest,
      and the error-response code lies outside the application-layer range. */
  lemma DevErrRange()
    ensures forall c: int :: IsNamedDevErr(c) ==> DERR_OK <= c <= DERR_VENDSPEC
    ensures IsNamedDevErr(DERR_VENDSPEC)
    ensures forall c: int :: IsNamedDevErr(c) && c != DERR_OK ==> IsAppLayerError(c)
    ensures !IsNamedDevErr(DERR_ERRRESP) && !IsAppLayerError(DERR_ERRRESP)
  {
  }

  // Fault codes reported by the board diagnostics.
  const DEV_NOT_RESPONDING: int := -501
  const DEV_ATTR_ACCESS_DENIED: int := -502
  const DEV_CONN_LEN_DIFF: int := -503

  lemma DevFaultCodes()
    ensures DEV_NOT_RESPONDING < 0 && DEV_ATTR_ACCESS_DENIED < 0 && DEV_CONN_LEN_DIFF < 0
    ensures DEV_NOT_RESPONDING != DEV_ATTR_ACCESS_DENIED
    ensures DEV_NOT_RESPONDING != DEV_CONN_LEN_DIFF
    ensures DEV_ATTR_ACCESS_DENIED != DEV_CONN_LEN_DIFF
  {
  }

  /** Text of a general status code. Total: 0xFF reads "No" and every code
      without a text of its own reads "Unknown"; every text fits the 32-byte
      buffers the module uses for them. */
  function DevErrText(c: uint8): (t: string)
    ensures t == "No" <==> c == 0xFF
    ensures t == "Unknown" <==> !IsNamedDevErr(c) && c != 0xFF
    ensures |t| < DNETMOD_MAX_DERRMSG_LEN
  {
    if c == DERR_OK then "OK"
    else if c == DERR_RES_UNAV then "Resource unavailable"
    else if c == DERR_SRV_UNAV then "Service unavailable"
    else if c == DERR_ATT_INVLD then "Invalid attribute value"
    else if c == DERR_ALR_REQ then "Already in request mode"
    else if c == DERR_STAT_CONFL then "Object state conflict"
    else if c == DERR_ATT_NOT_SET then "Attribute not settable"
    else if c == DERR_PERM then "Permision check failed"
    else if c == DERR_SPE then "State prohibits the execution"
    else if c == DERR_NO_RESP then "No response from device"
    else if c == DERR_NED then "Not enough data received"
    else if c == DERR_ATT_NOT_SUP then "Attribute not supported"
    else if c == DERR_TMD then "To much data received"
    else if c == DERR_OBJ_DONT_EXST then "Object does't exists"
    else if c == DERR_DLBS then "Data large buffer small"
    else if c == DERR_VENDSPEC then "Vendor specific. See additional"
    else if c == 0xFF then "No"
    else "Unknown"
  }

  /** The text of a driver or diagnostic status that has one of its own. */
  function CifNamedText(c: int): Option<string> {
    if c == DRV_NO_ERROR then Some("")
    else if c == DRV_BOARD_NOT_INITIALIZED then Some("(DRIVER) Board not initialized")
    else if c == DRV_INIT_STATE_ERROR then Some("(DRIVER) Error in internal init state")
    else if c == DRV_READ_STATE_ERROR then Some("(DRIVER) Error in internal read state")
    else if c == DRV_CMD_ACTIVE then Some("(DRIVER) Command on this channel is active")
    else if c == DRV_PARAMETER_UNKNOWN then Some("(DRIVER) Unknown parameter in function occured")
    else if c == DRV_WRONG_DRIVER_VERSION then Some("(DRIVER) Version is incompatible with DLL")
    else if c == DRV_PCI_SET_CONFIG_MODE then Some("(DRIVER) Error during PCI set run mode")
    else if c == DRV_PCI_READ_DPM_LENGTH then Some("(DRIVER) Could not read PCI dual port memory length")
    else if c == DRV_PCI_SET_RUN_MODE then Some("(DRIVER) Error during PCI set run mode")
    else if c == DRV_DEV_DPM_ACCESS_ERROR then Some("(DEVICE) Dual port ram not accessable(board not found)")
    else if c == DRV_DEV_NOT_READY then Some("(DEVICE) Not ready (ready flag failed)")
    else if c == DRV_DEV_NOT_RUNNING then Some("(DEVICE) Not running (running flag failed)")
    else if c == DRV_DEV_WATCHDOG_FAILED then Some("(DEVICE) Watchdog test failed")
    else if c == DRV_DEV_OS_VERSION_ERROR then Some("(DEVICE) Signals wrong OS version")
    else if c == DRV_DEV_SYSERR then Some("(DEVICE) Error in dual port flags")
    else if c == DRV_DEV_MAILBOX_FULL then Some("(DEVICE) Send mailbox is full")
    else if c == DRV_DEV_PUT_TIMEOUT then Some("(DEVICE) PutMessage timeout")
    else if c == DRV_DEV_GET_TIMEOUT then Some("(DEVICE) GetMessage timeout")
    else if c == DRV_DEV_GET_NO_MESSAGE then Some("(DEVICE) No message available")
    else if c == DRV_DEV_RESET_TIMEOUT then Some("(DEVICE) RESET command timeout")
    else if c == DRV_DEV_NO_COM_FLAG then Some("(DEVICE) COM-flag not set")
    else if c == DRV_DEV_EXCHANGE_FAILED then Some("(DEVICE) IO data exchange failed")
    else if c == DRV_DEV_EXCHANGE_TIMEOUT then Some("(DEVICE) IO data exchange timeout")
    else if c == DRV_DEV_COM_MODE_UNKNOWN then Some("(DEVICE) IO data mode unknown")
    else if c == DRV_DEV_FUNCTION_FAILED then Some("(DEVICE) Function call failed")
    else if c == DRV_DEV_DPMSIZE_MISMATCH then Some("(DEVICE) DPM size differs from configuration")
    else if c == DRV_DEV_STATE_MODE_UNKNOWN then Some("(DEVICE) State mode unknown")
    else if c == DRV_USR_OPEN_ERROR then Some("(USER) Driver not opened (device driver not loaded)")
    else if c == DRV_USR_INIT_DRV_ERROR then Some("(USER) Can't connect with device")
    else if c == DRV_USR_NOT_INITIALIZED then Some("(USER) Board not initialized (DevInitBoard not called)")
    else if c == DRV_USR_COMM_ERR then Some("(USER) IOCTRL function failed")
    else if c == DRV_USR_DEV_NUMBER_INVALID then Some("(USER) Parameter DeviceNumber  invalid")
    else if c == DRV_USR_INFO_AREA_INVALID then Some("(USER) Parameter InfoArea unknown")
    else if c == DRV_USR_NUMBER_INVALID then Some("(USER) Parameter Number invalid")
    else if c == DRV_USR_MODE_INVALID then Some("(USER) Parameter Mode invalid")
    else if c == DRV_USR_MSG_BUF_NULL_PTR then Some("(USER) NULL pointer assignment")
    else if c == DRV_USR_MSG_BUF_TOO_SHORT then Some("(USER) Message buffer too short")
    else if c == DRV_USR_SIZE_INVALID then Some("(USER) Parameter Size invalid")
    else if c == DRV_USR_SIZE_ZERO then Some("(USER) Parameter Size with zero length")
    else if c == DRV_USR_SIZE_TOO_LONG then Some("(USER) Parameter Size too long")
    else if c == DRV_USR_DEV_PTR_NULL then Some("(USER) Device address null pointer")
    else if c == DRV_USR_BUF_PTR_NULL then Some("(USER) Pointer to buffer is a null pointer")
    else if c == DRV_USR_SENDSIZE_TOO_LONG then Some("(USER) Parameter SendSize too long")
    else if c == DRV_USR_RECVSIZE_TOO_LONG then Some("(USER) Parameter ReceiveSize too long")
    else if c == DRV_USR_SENDBUF_PTR_NULL then Some("(USER) Pointer to send buffer is a null pointer")
    else if c == DRV_USR_RECVBUF_PTR_NULL then Some("(USER) Pointer to receive buffer is a null pointer")
    else if c == DRV_USR_FILE_OPEN_FAILED then Some("(USER) file not opened")
    else if c == DRV_USR_FILE_SIZE_ZERO then Some("(USER) file size zero")
    else if c == DRV_USR_FILE_NO_MEMORY then Some("(USER) not enough memory to load file")
    else if c == DRV_USR_FILE_READ_FAILED then Some("(USER) file read failed")
    else if c == DRV_USR_INVALID_FILETYPE then Some("(USER) file type invalid")
    else if c == DRV_USR_FILENAME_INVALID then Some("(USER) file name not valid")
    else if c == DEV_NOT_RESPONDING then Some("Device not responding")
    else if c == DEV_ATTR_ACCESS_DENIED then Some("Device has denied write access to configured attribute")
    else if c == DEV_CONN_LEN_DIFF then Some("Configured and actual connection lenghts differs")
    else None
  }

  predicate IsNamedCifErr(c: int) {
    CifNamedText(c).Some?
  }

  /** Every named driver code lies below the firmware range. */
  lemma NamedCifErrsBelowRcs()
    ensures forall c: int :: IsNamedCifErr(c) ==> c <= DRV_NO_ERROR < DRV_RCS_ERROR_OFFSET
  {
  }

  /** Text of a board driver status. Total: firmware codes from
      DRV_RCS_ERROR_OFFSET up read "(RCS) RCS error n", every other code
      without a text of its own reads "Unknown", and DRV_NO_ERROR has the
      empty text. */
  function CifErrText(err: int16): (t: string)
    ensures err >= DRV_RCS_ERROR_OFFSET ==> t == "(RCS) RCS error " + IntToDecimal(err)
    ensures !IsNamedCifErr(err) && err < DRV_RCS_ERROR_OFFSET ==> t == "Unknown"
    ensures err == DRV_NO_ERROR ==> t == ""
  {
    match CifNamedText(err)
    case Some(text) => text
    case None => if err >= DRV_RCS_ERROR_OFFSET then "(RCS) RCS error " + IntToDecimal(err) else "Unknown"
  }

  /** The text of a firmware task error that has one of its own. */
  function TaskNamedText(c: int): Option<string> {
    if c == TASK_F_UNKNOWN_MODE then Some("Unknown handshake mode configured")
    else if c == TASK_F_BAUDRATE_OUT_RANGE then Some("Configured baudrate not supported")
    else if c == TASK_F_OWN_MAC_ID_OUT_RANGE then Some("DEVICE MAC-ID out of range")
    else if c == TASK_F_DUPLICATE_MAC_ID then Some("Duplicate MAC-ID detected")
    else if c == TASK_F_NO_DEV_TAB then Some("Data base in the DEVICE has no entries included")
    else if c == TASK_F_ADR_DOUBLE then Some("Double MAC-ID configured internally")
    else if c == TASK_F_DATA_SET_FIELD_LEN then Some("Size of one device data set invalid")
    else if c == TASK_F_PRED_MST_SL_ADD_LEN then Some("Offset table for predef.mst slave conn. invalid")
    else if c == TASK_F_PRED_MSTSL_CFG_FIELD_LEN then Some("Configured table length for predefined mster/slave conn invalid")
    else if c == TASK_F_PRED_MST_SL_ADD_TAB_INCONS then Some("Offset table do not correspond to I/O configuration table")
    else if c == TASK_F_EXPL_PRM_FIELD_LEN then Some("Size indicator of parameter data table corrupt")
    else if c == TASK_F_PRED_MSTSL_CFG_ADD_INPUT_INCONS then Some("Num of inputs in add tab not equal I/O configuration")
    else if c == TASK_F_PRED_MSTSL_CFG_ADD_OUTPUT_INCONS then Some("Num of outputs in add tab not equal I/O configuration")
    else if c == TASK_F_UNKNOWN_DATA_TYPE then Some("Unknown data type in I/O configuration")
    else if c == TASK_F_MODULE_DATA_SIZE then Some("Data type does not correspond to its configured length")
    else if c == TASK_F_OUTPUT_OFF_RANGE then Some("Configured output offset address out of range")
    else if c == TASK_F_INPUT_OFF_RANGE then Some("Configured input offset address out of range")
    else if c == TASK_F_WRONG_TYPE_OF_CONNECTION then Some("One predefined connection type is unknown")
    else if c == TASK_F_TYPE_CONNECTION_REDEFINITION then Some("Multiple connections defined in parallel")
    else if c == TASK_F_EXP_PACKET_LESS_PROD_INHIBIT then Some("Configured EXP_PCKT_RATE less then PROD_INHIBIT_TIME")
    else if c == TASK_F_PRM_FIELD_LEN_INCONSISTENT then Some("Parameter field DNM_SET_ATTR_DATA in data set inconsitent")
    else if c == TASK_F_NO_CAN then Some("No device responding on CAN network at cfgured baudrate")
    else if c == TASK_F_DATA_AREA then Some("Illegal address area")
    else if c == TASK_F_DATA_ADR then Some("Overflow in the buffer length")
    else if c == TASK_F_DATA_CNT then Some("Illegal data count")
    else if c == TASK_F_DATA_TYPE then Some("Unknown data type")
    else if c == TASK_F_FUNCTION then Some("Unknown function")
    else if c == TASK_F_DATABASE then Some("No database found on the system")
    else if c == TASK_F_DATABASE_READ then Some("Failure in reading database")
    else None
  }

  predicate IsNamedTaskErr(c: int) {
    TaskNamedText(c).Some?
  }

  /** Text of a firmware task error. Total: a code without a text of its own
      reads "Task error. Code n.". */
  function TaskErrText(e: uint8): (t: string)
    ensures !IsNamedTaskErr(e) ==> t == "Task error. Code " + NatToDecimal(e) + "."
  {
    match TaskNamedText(e)
    case Some(text) => text
    case None => "Task error. Code " + NatToDecimal(e) + "."
  }
}
