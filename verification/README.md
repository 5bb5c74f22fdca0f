# DeviceNet module: a Dafny model

The DeviceNet module is a C++ library for a DeviceNet master. It has two
backends: a Hilscher CIF board, driven through the board driver's `Dev*`
calls and the firmware's message telegrams, and a National Instruments
interface, driven through the NI-DNET SDK's `nc*` calls. This project models
the following as immutable records and pure functions:

- the class hierarchy: nodes, interfaces and devices, their gated setters and
  the hand-rolled `IsA` chain;
- both backends' interface and device operations;
- the error classification that folds every driver status into one return
  code and a single last-message state.

No driver is called. A driver or SDK call is a value: an operation takes a
*script*, holding the statuses and records that its driver calls return. It
returns the code, the new object state, the last message and the *trace* of
calls made. Each contract then says which calls are made in which order,
which branch a status takes, and what ends up in the object.

Modules and files:

| file | module | models |
|---|---|---|
| `prims.dfy` | `Wrappers`, `Prims` | C integer widths, truncating casts, `strncpy`, decimal rendering |
| `dnmdefs.dfy` | `Defs` | DeviceNet constants, `ISPTRVALID`, the `CT_TO_CT` translation |
| `vendor.dfy` | `Vendor` | stand-in values for the vendor header constants |
| `dnmerrs.dfy` | `Errs` | the `ERR_*`, `DERR_*` and `DEV_*` codes and the code texts |
| `dnetmod.dfy` | `Reporting` | `SetError`, `SetCIFError`, `SetNIError`, `GetErrMsg`, the string lookups |
| `cid.dfy` | `Identity` | class ids and names, and the `IsA` deferral chain |
| `cnode.dfy`, `cintf.dfy`, `cdevice.dfy` | `Nodes`, `Interfaces`, `Devices` | base records and setters |
| `cifdriver.dfy` | `CifDriver` | board driver calls, telegrams, task state, slave bitmaps |
| `download.dfy` | `DownloadRecord` | the device download record and the offset allocator |
| `ccifintf.dfy` | `CifInterfaces` | board interface: `Open` state machine, `Close`, `Reset` |
| `nidriver.dfy` | `NiDriver` | NI-DNET SDK calls |
| `cniintf.dfy` | `NiInterfaces` | NI interface: name, `Open`, `Close`, `Reset` |
| `targets.dfy` | `Targets` | the object a device's interface pointer designates, and the guards |
| `ccifdevice.dfy` | `CifDevices` | board device: allocation, diagnostics, I/O, explicit messages |
| `cnidevice.dfy` | `NiDevices` | NI device: the two-handle state machine and its requests |

A device stores its interface pointer as a number. The object that pointer
designates is passed to each device operation as a `Target`, so an operation
can change that interface (the board device's `Allocate` advances its offset
counters and re-runs its `Open`).

## Model

| member | source | states |
|---|---|---|
| Identity.RootIdentity | src/cid.cpp:23-29 | the root answers to id 101 and name "CIdentificator" only, and every class answers to both |
| Identity.IsAIdChain | src/ccifdevice.cpp:143-145 | `IsA(id)` holds exactly for the ids on the class's deferral chain (own class, base named in its `IsA`, root) |
| Identity.IsANameChain | src/ccifdevice.cpp:147-149 | `IsA(name)` holds exactly for the names on the deferral chain |
| Identity.OnlyNodeIsNode | src/cintf.cpp:41-47 | only a node reports `IsA(201)`: interfaces and devices defer straight to the root |
| Identity.DevicesAreDevices | src/cdevice.cpp:49-55 | all device classes report `IsA(351)`; no interface does |
| Identity.NiDeviceIndistinguishableById | src/cnidevice.cpp:25-45 | an NI device and a plain device agree on every `IsA(id)`, but `IsA("CNIDevice")` tells them apart |
| Identity.InterfaceKindByName | src/ccifintf.cpp:85-87 | the name test a device applies holds for its own interface class only |
| Identity.GetClassId | src/cid.h:43-45 | every object reports the root's id 101, which matches its own class id only for the root |
| Identity.GetClassName | src/cid.cpp:19-21 | the buffer holds "CIdentificator" truncated to its size, NUL-padded beyond 14 characters, whatever the class |
| CifDevices.CifDeviceIdentity | src/ccifdevice.cpp:143-149 | the board device answers to 352 and "CCIFDevice", and otherwise as a device |
| Defs.InvalidPointers | src/dnmdefs.h:117-120 | a pointer is invalid exactly when it is 0, 0xcdcdcdcd or 0xcccccccc |
| Defs.TranslateConnType | src/ccifdevice.cpp:46-50 | the translation holds no bits besides the four backend bits, and is 0 when no abstract bit is set |
| Defs.TranslatePolled | src/cnidevice.cpp:20 | the polled backend bit is set exactly when the polled bit is set in the input |
| Defs.TranslateStrobed | src/cnidevice.cpp:21 | the same for bit-strobed |
| Defs.TranslateCos | src/cnidevice.cpp:22 | the same for change of state |
| Defs.TranslateCyclic | src/cnidevice.cpp:23 | the same for cyclic |
| Defs.TranslateIgnoresHighBits | src/cnidevice.cpp:19-23 | bits above the four abstract bits do not affect the translation |
| Defs.ConstantsDistinct | src/dnmdefs.h:70-77 | the connection types are disjoint single bits and the baud codes are distinct |
| Errs.Code | src/dnmerrs.h:13-33 | every return code is non-negative, and only the no-error kind has code 0 |
| Errs.KindOf | src/dnmerrs.h:13-33 | decoding finds the kind with a given code, or reports that there is none |
| Errs.CodeRoundTrip | src/dnmerrs.h:13-33 | decoding a kind's code gives back the kind |
| Errs.CodesDistinct | src/dnmerrs.h:13-33 | no two error kinds share a code |
| Errs.DevErrRange | src/dnmerrs.h:36-52 | the named application-layer codes lie in 0x00..0x1F, with 0x1F named; `DERR_ERRRESP` is outside that range |
| Errs.DevFaultCodes | src/dnmerrs.h:54-56 | the three diagnostic fault codes are distinct negatives |
| Errs.DevErrText | src/dnetmod.cpp:77-118 | 0xFF reads "No" and only 0xFF does; any other byte reads "Unknown" exactly when it has no name of its own; every text fits the 32-byte buffer |
| Errs.NamedCifErrsBelowRcs | src/dnetmod.cpp:127-293 | every named driver status is at most 0, so below the firmware error offset |
| Errs.CifErrText | src/dnetmod.cpp:296-299 | a status at or above the firmware offset reads "(RCS) RCS error n", and an unnamed lower one "Unknown" |
| Errs.TaskErrText | src/dnetmod.cpp:398 | an unnamed task error reads "Task error. Code n." |
| Reporting.SetCifError | src/dnetmod.cpp:428-453 | returns 0 with a blank message exactly when status and task error are clean; otherwise ERR_CIF, a driver error ("E") taking precedence over a task error ("TE") |
| Reporting.SetNiError | src/dnetmod.cpp:406-422 | returns 0 with a blank message exactly when the status is 0, and otherwise ERR_NIDNET carrying the status |
| Reporting.SetError | src/dnetmod.cpp:458-546 | clean board and NI statuses give 0; ERR_EXPLCT is always returned; any other code is returned unchanged; ERR_NOERR keeps the last message |
| Reporting.GetErrMsg | src/dnetmod.cpp:551-553 | the current message, copied with `strncpy` semantics into the caller's buffer |
| Reporting.NoErrAfterCleanStatus | src/dnetmod.cpp:464-465 | a clean classification followed by ERR_NOERR leaves the message blank |
| Reporting.VendIdToString | src/dnetmod.cpp:43-55 | ids up to 829 give the table entry and 0, with the message unchanged; larger ids give "Unknown" and ERR_VENDID |
| Reporting.DevTypeToString | src/dnetmod.cpp:60-72 | the same with the bound 28 and ERR_DEVTYPE |
| Reporting.DevErrToString | src/dnetmod.cpp:77-118 | the code's text, truncated or padded to the buffer size |
| Reporting.CifErrToString | src/dnetmod.cpp:123-301 | codes below the firmware offset are copied into the buffer; the firmware fallback is printed whole |
| Reporting.CifTskErrToString | src/dnetmod.cpp:306-400 | named task errors are copied into the buffer; the fallback is printed whole |
| Nodes.NewNode | src/cnode.cpp:17-22 | inactive, MAC 0, both sizes 0 |
| Nodes.MakeNode | src/cnode.cpp:24-30 | inactive; the MAC is kept only if below 64 (else 0); the sizes are stored as given |
| Nodes.SetMacID | src/cnode.cpp:32-35 | the MAC changes only on an inactive node and to a value below 64; nothing else changes; the range invariant is kept |
| Nodes.SetMacIDIdempotent | src/cnode.cpp:32-35 | setting a MAC twice is setting it once, and on an active node every call is a no-op |
| Nodes.SetConsumedConnSize | src/cnode.cpp:37-39 | the consumed size changes even on an active node, and nothing else does |
| Nodes.SetProducedConnSize | src/cnode.cpp:41-43 | the same for the produced size |
| Interfaces.NewInterface | src/cintf.cpp:21-23 | a default node with baud code 0 |
| Interfaces.MakeInterface | src/cintf.cpp:25-33 | the node rules, then a valid baud code kept and any other replaced by 250K |
| Interfaces.SetBaudRate | src/cintf.cpp:35-39 | an inactive interface takes a valid code; in every other case the rate becomes 250K; the result is always a valid code |
| Interfaces.SetBaudRateStable | src/cintf.cpp:35-39 | a second identical call, or re-setting the rate just stored, changes nothing, on an active interface too |
| Devices.NewDevice | src/cdevice.cpp:19-23 | a default node, connection type 0, EPR 0, null interface |
| Devices.MakeDevice | src/cdevice.cpp:25-37 | the node rules; connection type, EPR and interface stored unvalidated |
| Devices.SetConnType | src/cdevice.cpp:39-42 | any pattern is taken on an inactive device; an active device is left as it is |
| Devices.SetEPR | src/cdevice.cpp:44-47 | the EPR changes only on an inactive device |
| NiInterfaces.NewNiInterface | src/cniintf.cpp:30-33 | a default interface with id 0 and no handle |
| NiInterfaces.MakeNiInterface | src/cniintf.cpp:35-43 | the interface rules with sizes 0; an id of 32 or more leaves 0 |
| NiInterfaces.SetIntfID | src/cniintf.cpp:45-48 | the id changes only on an inactive interface and to a value below 32; nothing else changes |
| NiInterfaces.GetName | src/cniintf.cpp:50-57 | the name "dnet" + id, copied with `strncpy` semantics |
| NiInterfaces.NameRoundTrip | src/cniintf.cpp:50-57 | for ids below 32: at most 6 characters, the prefix "dnet", then decimal digits that read back as the id; the 7-byte buffer is NUL-terminated |
| NiInterfaces.BrToConst | src/cniintf.cpp:23-25 | valid baud codes map to themselves (500K to 3, 250K to 2, 125K to 1); anything else maps to 125K |
| NiInterfaces.Open | src/cniintf.cpp:70-91 | a no-op returning 0 when active; otherwise the handle the open writes is stored, a negative open status leaves the interface inactive, and else it becomes active exactly when the start status is not negative |
| NiInterfaces.CloseInterface | src/cniintf.cpp:97-115 | always returns 0; an active interface gets the stop and close calls and ends inactive with handle 0; an inactive one is left as it is, handle included, with no call |
| NiInterfaces.FailedStartKeepsHandle | src/cniintf.cpp:78-112 | after a successful open and a failed start the interface is inactive and holds the opened handle, and `Close` makes no call and keeps that handle |
| NiInterfaces.CloseTwice | src/cniintf.cpp:117-119 | a second `Close` makes no call and changes nothing |
| NiInterfaces.Reset | src/cniintf.cpp:124-131 | one reset of the interface by name, classified; the interface is unchanged |
| NiInterfaces.ResetIgnoresActive | src/cniintf.cpp:124-131 | the result does not depend on the active flag |
| CifDriver.DevMaskIsShift | src/ccifdevice.cpp:34-41 | the mask for bit j is `1 << j` |
| CifDriver.ClearSlaveBit | src/ccifdevice.cpp:381-400 | an 8-byte buffer stays 8 bytes, and every byte other than `mac/8` is unchanged |
| CifDriver.ClearSlaveBitExact | src/ccifdevice.cpp:373-400 | after the clear, a slave's bit is set exactly when it was set before and the slave is not `mac` |
| DownloadRecord.RunningSumIsTotal | src/ccifdevice.cpp:279-283 | adding the parts one 16-bit step at a time gives the 16-bit truncation of the total |
| DownloadRecord.AllocateOffsets | src/ccifdevice.cpp:245-262 | a nonzero size takes the interface's counter as the device offset and advances the counter by the size mod 2^16; table entries at index 0 and `inputCount` |
| DownloadRecord.AllocationsAdjacent | src/ccifdevice.cpp:245-251 | two devices allocated in turn get adjacent input windows |
| DownloadRecord.IoModules | src/ccifdevice.cpp:228-241 | one module per nonzero size: the input one first, tagged string, and the output one tagged string with the output flag |
| DownloadRecord.CifConnTypeExact | src/ccifdevice.cpp:46-50 | each board connection bit is set exactly when its abstract bit is; no other bit is set |
| DownloadRecord.RecordLengths | src/ccifdevice.cpp:264-285 | config length = 2 + header + modules × module size; table length = 4 + 2 per entry; parameter length = header + config + table + 2 + 2 + 4, all mod 2^16; the length byte is the low byte of parameter length plus overhead |
| CifInterfaces.NewCifInterface | src/ccifintf.cpp:52-56 | a default interface on board 0, auto-clear off, both counters 0 |
| CifInterfaces.MakeCifInterface | src/ccifintf.cpp:58-69 | the interface rules; an unsupported board number leaves 0; auto-clear set to the firmware's inactive code as the `bool` field holds it, and counters 0 |
| CifInterfaces.SetBoardNum | src/ccifintf.cpp:71-74 | the board changes only on an inactive interface and to a number below `MAX_DEV_BOARDS` |
| CifInterfaces.SetAutoClear | src/ccifintf.cpp:76-79 | only on an inactive interface, the flag becomes the firmware's active or inactive code as the `bool` field holds it; nothing else changes |
| CifInterfaces.BrToConstAsWrittenDrops250 | src/ccifintf.cpp:45-47 | as written, 250K maps to the 125K code and no input maps to the 250K code |
| CifInterfaces.BrToConst | src/ccifintf.cpp:45-47 | 500K, 250K and everything else map to the firmware's 500K, 250K and 125K codes |
| CifInterfaces.BrToConstDistinguishesRates | src/ccifintf.cpp:45-47 | the corrected map is injective on valid codes and agrees with the written one except at 250K |
| CifInterfaces.Close | src/ccifintf.cpp:258-279 | no call and 0 on an inactive interface; otherwise host-not-ready, exit and close in that order, with only the driver close's status deciding the result; the interface never changes, the active flag included |
| CifInterfaces.SetProtocolParameters | src/ccifintf.cpp:92-108 | the parameter put, then a warm start with timeout 8000 unless the put failed hard; the last classification is the result |
| CifInterfaces.ClearDatabase | src/ccifintf.cpp:113-133 | the clear-database telegram, then its reply unless the put failed hard; the reply's status and error byte decide |
| CifInterfaces.BusParamsOf | src/ccifintf.cpp:158-165 | the downloaded bus parameters carry the baud code of the map as written, the interface's MAC id and its current offset counters, and 1 or 0 for the auto-clear flag (the `bool` field converted back to a byte) |
| CifInterfaces.BusParamsCorrected | src/ccifintf.cpp:160 | the same record with the corrected baud map |
| CifInterfaces.BusParamsDifferAt250 | src/ccifintf.cpp:160 | the downloaded and the corrected records differ exactly on a 250K interface, which is sent the 125K code |
| CifInterfaces.DownloadParameters | src/ccifintf.cpp:138-180 | the bus-parameter telegram (put with 500 ms), then its reply (get with 3000 ms) unless the put failed hard; the reply's classification is the result |
| CifInterfaces.ParamStages | src/ccifintf.cpp:215-233 | on an inactive interface every stage failure returns `Close()`, so it returns 0 |
| CifInterfaces.Finish | src/ccifintf.cpp:236-252 | a download failure returns its code with no `Close`; on success active becomes exactly (state == OPERATE); a task-state hard failure on an inactive interface returns 0 and leaves it unchanged |
| CifInterfaces.Open | src/ccifintf.cpp:188-253 | only the active flag changes; an active interface always completes; the interface ends active only if it already was or the master reports OPERATE |
| CifInterfaces.OpenActiveSkipsSetup | src/ccifintf.cpp:194-241 | on an active interface no driver open, board init, parameter, info, database clear or host-ready call is made |
| CifInterfaces.OpenInactiveLateFailureIsClean | src/ccifintf.cpp:215-247 | from an inactive interface, every failure after board init returns 0 and leaves it inactive |
| CifInterfaces.ClearLoopUncapped | src/ccifintf.cpp:215-233 | for every n, n rounds with RUN and RDY set reach the download after exactly n database clears |
| CifInterfaces.Reset | src/ccifintf.cpp:281-335 | the interface is unchanged; the result is 0 or ERR_CIF, so the ERR_INVFPRM report never survives; open/init and exit/close bracket the reset only on an inactive interface |
| CifInterfaces.ResetTimeouts | src/ccifintf.cpp:307-316 | cold and boot start use 10000, warm start 8000, any other mode 0 |
| Targets.KindFirst | src/ccifdevice.cpp:77-97 | guards pass exactly when the pointer is valid, the interface has the right class and is active; pointer first, then kind, then state |
| Targets.StateFirst | src/ccifdevice.cpp:436-439 | the same guards with the state checked before the kind |
| Targets.GuardOrdersDiffer | src/ccifdevice.cpp:436-439 | the two orders disagree exactly on an inactive interface of the wrong kind |
| CifDevices.NewCifDevice | src/ccifdevice.cpp:55-57 | a default device with both offsets 0 |
| CifDevices.MakeCifDevice | src/ccifdevice.cpp:59-68 | the device rules with both offsets 0, inactive |
| CifDevices.Diagnostics | src/ccifdevice.cpp:102-141 | a hard failure of put or get returns its classification; otherwise only the online byte decides: `DERR_ERRRESP` gives ERR_EXPLCT with the general and additional codes, anything else the classification of (0, online) |
| CifDevices.DiagnosticsIgnoresFaultBits | src/ccifdevice.cpp:128-138 | the no-response, parameter-fault and config-fault results are always overwritten |
| CifDevices.DiagnosticsIgnoresMessage | src/ccifdevice.cpp:102-141 | the message in force before does not affect the result |
| CifDevices.Settle | src/ccifdevice.cpp:319-354 | a configured slave (OPERATE, configured bit) takes its active flag from its connection bit; otherwise the flag is kept; the code is the diagnostics code of a slave with diagnostics pending, else the task-state code, except that a device left inactive with that code 0 gets `ERR_UKNOW`; so 0 only for an active device |
| CifDevices.AfterDownload | src/ccifdevice.cpp:293-354 | after the download reply and the interface's `Open`, only the device's active flag can change, and a failed fetch leaves the device as it was; a clean fetch and task state on a slave with no diagnostics pending that stays inactive gives `ERR_UKNOW` |
| CifDevices.Allocate | src/ccifdevice.cpp:151-363 | guard failures change nothing; otherwise the counters advance before the download is sent, and the record carries the pre-call counters; active changes only after all three reads succeed on a configured slave; 0 only for a device that ends active; with the guards passed, no hard failure, a clean task state and no diagnostics pending, a device that ends inactive gets `ERR_UKNOW` |
| CifDevices.Unallocate | src/ccifdevice.cpp:365-417 | read the slave-status area, write back the buffer with the device's bit cleared; the device turns inactive exactly when both raw accesses succeed; nothing else changes |
| CifDevices.UnallocateClearsOnlyOwnBit | src/ccifdevice.cpp:381-403 | the written buffer has exactly the other slaves' bits that were read |
| CifDevices.Destroy | src/ccifdevice.cpp:612-615 | the destructor unallocates an active device and leaves an inactive one alone |
| CifDevices.DeviceGuards | src/ccifdevice.cpp:77-97 | after the interface guards, a device that is not allocated reports ERR_NOALOC |
| CifDevices.ExchangeIOData | src/ccifdevice.cpp:70-100 | a read receives the device's input window, a write sends its output window; the buffer size is cut to 16 bits |
| CifDevices.ReadIOData | src/ccifdevice.cpp:419-421 | one exchange receiving at the input offset and sending nothing; 0 exactly on a clean status |
| CifDevices.WriteIOData | src/ccifdevice.cpp:423-425 | one exchange sending at the output offset and receiving nothing; 0 exactly on a clean status |
| CifDevices.ReplyError | src/ccifdevice.cpp:469-473 | a function byte in (0x00, 0x1F] is a device error (ERR_EXPLCT); any other byte gets the board classification |
| CifDevices.GetAttribute | src/ccifdevice.cpp:427-489 | data is copied exactly when the reply is clean; the byte count is reported when the size pointer is valid; after a clean put and get, the diagnostics decide the result |
| CifDevices.SetAttribute | src/ccifdevice.cpp:491-546 | after an accepted put the reply's status is never checked, and the diagnostics decide the result |
| CifDevices.ExecService | src/ccifdevice.cpp:548-604 | the reply is classified before the hard-failure test, so a failed fetch with an application-layer byte reports ERR_EXPLCT; otherwise the diagnostics decide |
| CifDevices.Reset | src/ccifdevice.cpp:606-610 | the reset service (5) on class 1, instance 1, with one zero byte |
| NiDevices.NewNiDeviceAsWritten | src/cnidevice.cpp:28 | the handles hold whatever the storage held |
| NiDevices.MakeNiDeviceAsWritten | src/cnidevice.cpp:30-37 | the same for the parameterised constructor |
| NiDevices.NewNiDevice | src/cnidevice.cpp:28 | the corrected default constructor: both handles 0 |
| NiDevices.MakeNiDevice | src/cnidevice.cpp:30-37 | the corrected parameterised constructor: both handles 0 |
| NiDevices.AllocateAsWrittenSkipsOpen | src/cnidevice.cpp:62-92 | as written, an I/O handle holding 0xcdcdcdcd makes the default `Allocate` succeed with no SDK call |
| NiDevices.AllocateFreshOpensIo | src/cnidevice.cpp:62-70 | with zeroed handles, the default `Allocate` first opens the I/O object with the interface's name and keeps the returned handle |
| NiDevices.AllocateWait | src/cnidevice.cpp:77-92 | an open messaging object is waited on, and that wait's status decides; without one the earlier result stands; the device ends active exactly when it was already or the result is 0 |
| NiDevices.AllocateEm | src/cnidevice.cpp:71-76 | the messaging object is opened only when asked for and not yet open |
| NiDevices.Allocate | src/cnidevice.cpp:50-93 | guards change nothing; I/O opens only with handle 0 and the I/O flag, and aborts only on a negative status; EM likewise; with both handles set, only the wait is made; the device ends active exactly when it was already or the final code is 0 |
| NiDevices.ReportId | src/cnidevice.cpp:101-105 | the interface id when the pointer is valid and names an NI interface, else 0 |
| NiDevices.Unallocate | src/cnidevice.cpp:98-120 | closes each open handle, then zeroes both and clears active whatever the statuses |
| NiDevices.UnallocateTwice | src/cnidevice.cpp:107-117 | a second call makes no call, returns 0 and changes nothing |
| NiDevices.Destroy | src/cnidevice.cpp:313-316 | the destructor unallocates an active device and leaves an inactive one alone |
| NiDevices.ObjectGuards | src/cnidevice.cpp:129-153 | pointer, kind, interface state, then the handle (ERR_NOALOCIO or ERR_NOALOCEM) |
| NiDevices.ReadIOData | src/cnidevice.cpp:125-154 | wait for read-available (a negative status returns), then read; the read's status is the result |
| NiDevices.WriteIOData | src/cnidevice.cpp:159-180 | one write over the I/O handle, classified |
| NiDevices.AttributeError | src/cnidevice.cpp:205-207 | a status whose low 16 bits are the error-response code is ERR_EXPLCT; any other status gets the NI classification; 0 exactly for status 0 |
| NiDevices.ErrorResponseLowBits | src/cnidevice.cpp:205 | every status agreeing with the error-response code in its low 16 bits is taken as a device error |
| NiDevices.GetAttribute | src/cnidevice.cpp:185-216 | one get call with timeout 2000 over the messaging handle, classified as above |
| NiDevices.SetAttribute | src/cnidevice.cpp:221-251 | one set call with timeout 2000 over the messaging handle, classified as above |
| NiDevices.ExecService | src/cnidevice.cpp:256-305 | write, wait, read, aborting on a negative write or wait; the reply's service code and length are not checked |
| NiDevices.Reset | src/cnidevice.cpp:307-311 | the reset service (5) on class 1, instance 1, with one byte |

## Left out

- CifInterfaces.Reset: takes the mode by value. The source's entry point takes a pointer that defaults to null (src/cintf.h:46) and dereferences it without a test (src/ccifintf.cpp:284), so `Reset()` with no argument on a board interface crashes. That crash is not modelled.
- Driver and SDK calls are not executed. Each is a status or record in the operation's script, and the trace records the call with its arguments.
- Message rendering (`printf`, `va_arg`) is left out. The last message is a structured value: the code and arguments a template would format. `GetErrMsg` takes the renderer as a parameter.
- The NI `ERR_EXPLCT` call passes fewer arguments than its template reads. Its message is `Indeterminate`.
- The vendor header values (`DRV_*`, `TASK_F_*`, `OPERATE`, `DNM_*`, `NC_*`) come from headers that are not part of this model. `vendor.dfy` holds stand-in values. The proofs rely on their distinctness, their signs and the bits the masks test, and on `TASK_F_OK` being 0. The source assumes the latter: it passes a literal 0 as the task error where no reply was read (src/ccifdevice.cpp:87, src/ccifintf.cpp:102), and the error classification compares that argument with `TASK_F_OK` (src/dnetmod.cpp:436). No contract depends on the values of the `DNM_ACLR_*` or `DNM_BAUD_*` codes. `DRV_RCS_ERROR_OFFSET` is 1000, as the source's literal in `SetProtocolParameters` shows.
- The `sizeof` values of the driver structures are a `Layout` parameter.
- The vendor-id and device-type string tables come from a header that is not part of this model. They are parameters of the right length.
- Timeouts are not timing in the model: every driver and SDK call that takes a timeout records it in the trace. The 100 ms settle sleep is left out.
- Only the Windows build of the NI backend is modelled. The NI classification exists only there.
- The Linux driver call signatures are not modelled. They differ only in their argument lists.
- The `char*`/`const char*` mismatch between the `IsA` declarations and definitions is left out. The chain is modelled as each file writes it.
- `CifInterfaces.Open`: the script of database-clear rounds is finite. When it runs out, the model returns None instead of looping on.
- `CifDevices.GetAttribute`: the data handed back is the reply's data as a whole. The copy of exactly `usDataSz` bytes is not modelled.
- `NiDevices.GetAttribute` and `NiDevices.ExecService`: the data and sizes the SDK writes into the caller's buffers are not modelled.
- `NiDevices.Allocate`: the handle an open writes back is taken from the script whatever the status, including on a failed open.
- `DownloadRecord.BuildRecord`: the identity fields of the device record, which the source sets to zero, are not carried.
- `NiInterfaces.NameRoundTrip`: ids of 100 or more would overflow the 7-byte name buffer. `SetIntfID` keeps ids below 32, so this cannot happen.
- `Errs.CifErrText`, `Errs.TaskErrText`: only the fallback texts are stated. The named texts are a table.
- `CifDevices.Allocate`, `CifDevices.Unallocate`: they require a MAC id below 64. Every constructor and `SetMacID` keep that invariant.
- The console test program and the export and compiler plumbing carry no logic and are not modelled.

Behaviour of the code that a reader might not expect, modelled as written:

- The board interface's `Close` never clears the active flag.
- The clear-database loop in `Open` has no bound.
- `SetBaudRate` overwrites the rate with 250K on an active interface or for an invalid code. The size setters act even on an active node.
- The board device's `Unallocate` returns early on a failed raw access, leaving the device active.
- The board interface's `Reset` on an inactive interface opens and closes the driver around the reset.
- The board device's `Allocate` skips the interface's `Open` when the download reply carries a task error, but the task-state read then overwrites that error. So a configured, connected slave still ends active with 0.
- The NI interface's `Close` leaves an inactive interface's handle alone, so the object opened by an `Open` whose start failed is never closed.
- The board interface keeps its auto-clear setting in a `bool` (src/ccifintf.h:30), although `SetAutoClear` assigns the firmware's `DNM_ACLR_*` codes to it. So the byte written into the bus parameters is always 1 or 0, and it equals the firmware code only when the inactive code is 0 and the active code is nonzero.

## Findings

| source | as written | input that shows it | evidently intended | confidence | as-written member | corrected member |
|---|---|---|---|---|---|---|
| src/ccifintf.cpp:45-47 | the second test of `BR_TO_CONST` compares with 500K again | baud code 250K maps to `DNM_BAUD_125` | 250K maps to `DNM_BAUD_250` | high, not executed | CifInterfaces.BrToConstAsWrittenDrops250 | CifInterfaces.BrToConstDistinguishesRates |
| src/cnidevice.cpp:28-37 | neither constructor initialises `ulHIO` or `ulHEM` | a device whose I/O handle storage holds 0xcdcdcdcd; default `Allocate` on an active NI interface makes no SDK call, returns 0 and turns active | both handles start at 0, so `Allocate` opens the I/O object | high, not executed | NiDevices.AllocateAsWrittenSkipsOpen | NiDevices.AllocateFreshOpensIo |

The bus-parameter record the board interface downloads
(`CifInterfaces.BusParamsOf`) uses the baud map as written, so the model of
`Open` and of the board device's `Allocate` sends what the code sends;
`CifInterfaces.BusParamsCorrected` is the record with the corrected map, and
`CifInterfaces.BusParamsDifferAt250` relates the two. The NI device
operations take any device state, so they cover both the as-written and the
zeroed constructors.
