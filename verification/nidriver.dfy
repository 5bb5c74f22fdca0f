/** The NI-DNET SDK calls the SDK backend makes, kept as a trace. */
module NiDriver {
  import opened Prims

  datatype NcCall =
    | OpenDnetIntf(name: string, mac: uint8, baud: int, pollMode: int)
    | OperateDnetIntf(handle: uint32, op: int)
    | CloseObject(handle: uint32)
    | ResetIntf(name: string, mode: int)
    | OpenDnetIO(name: string, mac: uint8, connType: bv8, inLen: uint8, outLen: uint8, epr: uint16)
    | OpenDnetExplMsg(name: string, mac: uint8)
    | WaitForState(handle: uint32, state: int, timeout: int)
    | ReadDnetIO(handle: uint32, bufSize: uint32)
    | WriteDnetIO(handle: uint32, bufSize: uint32)
    | GetDnetAttribute(handle: uint32, cls: uint16, inst: uint16, attr: uint8, timeout: int, size: uint16)
    | SetDnetAttribute(handle: uint32, cls: uint16, inst: uint16, attr: uint8, timeout: int, size: uint16)
    | WriteDnetExplMsg(handle: uint32, service: uint8, cls: uint16, inst: uint16, size: uint16)
    | ReadDnetExplMsg(handle: uint32, size: uint16)
}
