/** Constants of the board driver, the DeviceNet master firmware and the
    NI-DNET SDK. Their headers are not part of this model: every value here is
    a stand-in chosen only to keep the named constants distinct and in the
    ranges the module's code relies on (driver errors negative, firmware
    ("RCS") errors from DRV_RCS_ERROR_OFFSET up, task errors one byte).
    TASK_F_OK is 0, as the code's literal-0 task arguments assume. */
module Vendor {

  // Board driver status codes.
  const DRV_NO_ERROR: int := 0
  const DRV_BOARD_NOT_INITIALIZED: int := -1
  const DRV_INIT_STATE_ERROR: int := -2
  const DRV_READ_STATE_ERROR: int := -3
  const DRV_CMD_ACTIVE: int := -4
  const DRV_PARAMETER_UNKNOWN: int := -5
  const DRV_WRONG_DRIVER_VERSION: int := -6
  const DRV_PCI_SET_CONFIG_MODE: int := -7
  const DRV_PCI_READ_DPM_LENGTH: int := -8
  const DRV_PCI_SET_RUN_MODE: int := -9
  const DRV_DEV_DPM_ACCESS_ERROR: int := -10
  const DRV_DEV_NOT_READY: int := -11
  const DRV_DEV_NOT_RUNNING: int := -12
  const DRV_DEV_WATCHDOG_FAILED: int := -13
  const DRV_DEV_OS_VERSION_ERROR: int := -14
  const DRV_DEV_SYSERR: int := -15
  const DRV_DEV_MAILBOX_FULL: int := -16
  const DRV_DEV_PUT_TIMEOUT: int := -17
  const DRV_DEV_GET_TIMEOUT: int := -18
  const DRV_DEV_GET_NO_MESSAGE: int := -19
  const DRV_DEV_RESET_TIMEOUT: int := -20
  const DRV_DEV_NO_COM_FLAG: int := -21
  const DRV_DEV_EXCHANGE_FAILED: int := -22
  const DRV_DEV_EXCHANGE_TIMEOUT: int := -23
  const DRV_DEV_COM_MODE_UNKNOWN: int := -24
  const DRV_DEV_FUNCTION_FAILED: int := -25
  const DRV_DEV_DPMSIZE_MISMATCH: int := -26
  const DRV_DEV_STATE_MODE_UNKNOWN: int := -27
  const DRV_USR_OPEN_ERROR: int := -30
  const DRV_USR_INIT_DRV_ERROR: int := -31
  const DRV_USR_NOT_INITIALIZED: int := -32
  const DRV_USR_COMM_ERR: int := -33
  const DRV_USR_DEV_NUMBER_INVALID: int := -34
  const DRV_USR_INFO_AREA_INVALID: int := -35
  const DRV_USR_NUMBER_INVALID: int := -36
  const DRV_USR_MODE_INVALID: int := -37
  const DRV_USR_MSG_BUF_NULL_PTR: int := -38
  const DRV_USR_MSG_BUF_TOO_SHORT: int := -39
  const DRV_USR_SIZE_INVALID: int := -40
  const DRV_USR_SIZE_ZERO: int := -42
  const DRV_USR_SIZE_TOO_LONG: int := -43
  const DRV_USR_DEV_PTR_NULL: int := -44
  const DRV_USR_BUF_PTR_NULL: int := -45
  const DRV_USR_SENDSIZE_TOO_LONG: int := -46
  const DRV_USR_RECVSIZE_TOO_LONG: int := -47
  const DRV_USR_SENDBUF_PTR_NULL: int := -48
  const DRV_USR_RECVBUF_PTR_NULL: int := -49
  const DRV_USR_FILE_OPEN_FAILED: int := -100
  const DRV_USR_FILE_SIZE_ZERO: int := -101
  const DRV_USR_FILE_NO_MEMORY: int := -102
  const DRV_USR_FILE_READ_FAILED: int := -103
  const DRV_USR_INVALID_FILETYPE: int := -104
  const DRV_USR_FILENAME_INVALID: int := -105
  const DRV_RCS_ERROR_OFFSET: int := 1000

  // Firmware task error codes.
  const TASK_F_OK: int := 0
  const TASK_F_UNKNOWN_MODE: int := 52
  const TASK_F_BAUDRATE_OUT_RANGE: int := 53
  const TASK_F_OWN_MAC_ID_OUT_RANGE: int := 54
  const TASK_F_DUPLICATE_MAC_ID: int := 55
  const TASK_F_NO_DEV_TAB: int := 56
  const TASK_F_ADR_DOUBLE: int := 57
  const TASK_F_DATA_SET_FIELD_LEN: int := 58
  const TASK_F_PRED_MST_SL_ADD_LEN: int := 59
  const TASK_F_PRED_MSTSL_CFG_FIELD_LEN: int := 60
  const TASK_F_PRED_MST_SL_ADD_TAB_INCONS: int := 61
  const TASK_F_EXPL_PRM_FIELD_LEN: int := 62
  const TASK_F_PRED_MSTSL_CFG_ADD_INPUT_INCONS: int := 63
  const TASK_F_PRED_MSTSL_CFG_ADD_OUTPUT_INCONS: int := 64
  const TASK_F_UNKNOWN_DATA_TYPE: int := 65
  const TASK_F_MODULE_DATA_SIZE: int := 66
  const TASK_F_OUTPUT_OFF_RANGE: int := 67
  const TASK_F_INPUT_OFF_RANGE: int := 68
  const TASK_F_WRONG_TYPE_OF_CONNECTION: int := 69
  const TASK_F_TYPE_CONNECTION_REDEFINITION: int := 70
  const TASK_F_EXP_PACKET_LESS_PROD_INHIBIT: int := 71
  const TASK_F_PRM_FIELD_LEN_INCONSISTENT: int := 72
  const TASK_F_NO_CAN: int := 73
  const TASK_F_DATA_AREA: int := 74
  const TASK_F_DATA_ADR: int := 75
  const TASK_F_DATA_CNT: int := 76
  const TASK_F_DATA_TYPE: int := 77
  const TASK_F_FUNCTION: int := 78
  const TASK_F_DATABASE: int := 79
  const TASK_F_DATABASE_READ: int := 80

  // Board driver: boards, reset modes, host states, info areas.
  const MAX_DEV_BOARDS: int := 4
  const COLDSTART: int := 2
  const WARMSTART: int := 3
  const BOOTSTART: int := 4
  const HOST_NOT_READY: int := 0
  const HOST_READY: int := 1
  const GET_DRIVER_INFO: int := 1
  const PARAMETER_READ: int := 1
  const PARAMETER_WRITE: int := 2

  // DeviceNet master firmware.
  const OPERATE: bv8 := 0x40
  const DNM_BAUD_125: int := 2
  const DNM_BAUD_250: int := 1
  const DNM_BAUD_500: int := 0
  const DNM_ACLR_INACTIVE: int := 0
  const DNM_ACLR_ACTIVE: int := 1
  const DNM_TYPE_POLLED: bv8 := 0x01
  const DNM_TYPE_BIT_STROBED: bv8 := 0x02
  const DNM_TYPE_CHG_OF_STATE: bv8 := 0x04
  const DNM_TYPE_CYCLIC: bv8 := 0x10
  const DNM_TRANSMISSION_TO_TIMEOUT: int := 0
  const DNM_DEVICE_PRM: int := 0x7F
  const DNM_SET_MODE_BUFFERED_DEVICE_CONTROLLED: int := 3
  const DNM_Device_Diag: int := 66
  const DNM_Download: int := 68
  const DNM_Get_Set_Attribute: int := 75
  const TASK_TFC_READ: int := 1
  const TASK_TFC_WRITE: int := 2
  const TASK_TDT_STRING: bv8 := 0x0A
  const DNM_OUTPUT: bv8 := 0x40

  // NI-DNET SDK.
  const NC_CONN_POLL: bv8 := 0x01
  const NC_CONN_STROBE: bv8 := 0x02
  const NC_CONN_COS: bv8 := 0x04
  const NC_CONN_CYCLIC: bv8 := 0x08
  const NC_POLL_INDIV: int := 1
  const NC_OP_START: int := 1
  const NC_OP_STOP: int := 2
  const NC_ST_ESTABLISHED: int := 0x08
  const NC_ST_READ_AVAIL: int := 0x01
  const NC_ERR_DNET_ERR_RESP: int := 0x0014
}
