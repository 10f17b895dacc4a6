# CANopenNode protocol cores in Dafny

A model of the protocol state machines of the CANopenNode stack and proofs of
what they guarantee, over every input and every run: LSS Fastscan and node ID
assignment (CiA DSP 305), the SDO server and client with expedited, segmented
and block transfer (section 7.2.4 of CiA 301), PDO mapping with SYNC, the
emergency queue, and heartbeat monitoring.

Every protocol step exists twice. A pure function on values says what a call
does; the results about runs, networks and transfers are lemmas about these
functions. A class with the fields, buffers and loops of the C code does the
same work in place, and each of its methods is proved equal to the function.

| files | subject |
|---|---|
| `Can` | bytes, frames, little-endian numbers |
| `LssTypes`, `LssBits`, `LssSlave`, `LssMaster` | LSS slave and master |
| `LssNetwork`, `LssFastscan`, `LssEnumeration` | a master and any number of slaves on a bus |
| `Crc`, `Od` | block CRC, Object Dictionary |
| `SdoTypes`, `SdoServer`, `SdoServerEndpoint` | SDO server: step functions and class |
| `SdoServerSafe`, `SdoServerEnds`, `SdoCalls`, `SdoDomain` | server invariant, termination, domain streams |
| `SdoClient`, `SdoClientEndpoint`, `SdoClientSafe` | SDO client: step functions, class and invariant |
| `SdoBlockDownload`, `SdoBlockDownloadStart` | block download over a lossy bus, while the server is in the transfer |
| `SdoBlockDownloadWhole`, `SdoBlockDownloadDetour` | what is written over whole runs, and its limit |
| `SdoBlockDownloadAstray`, `SdoBlockDownloadCredit`, `SdoBlockDownloadReport`, `SdoBlockDownloadMislead` | what is reported over whole runs, and its limit |
| `SdoSegments`, `SdoBlockDownloadLossless`, `SdoBlockDownloadRuns` | block download with nothing lost |
| `SdoBlockUpload`, `SdoBlockUploadStart`, `SdoBlockUploadOvertaken`, `SdoBlockUploadLimit` | block upload over a lossy bus |
| `SdoBlockUploadLossless`, `SdoBlockUploadRuns` | block upload with nothing lost |
| `SdoTransfer`, `SdoTransferDown`, `SdoTransferUp`, `SdoTransferRuns`, `SdoRoundTrip` | expedited and segmented transfer, the shortcut to the own node |
| `Pdo`, `PdoSync`, `PdoObjects` | mapping, SYNC double buffer, cyclic transmission |
| `Emergency`, `EmergencyRuns` | emergency ring and error history |
| `Heartbeat` | heartbeat consumer and producer |

`dafny verify dfyconfig.toml` checks everything.

## Promises with a limit

Some properties of SDO transfer hold only up to a limit. Each limit comes with
the input that crosses it.

* A block download writes all of its data or nothing. While the server is in
  the transfer this holds for every length. Once the server has timed out, a
  late segment is read as a new request, and segment number 32 reads as the
  start of a segmented download. Over whole runs the property holds if and only
  if the data has at most 224 bytes (`WholeRunSafe`, `WholeRunLimit`).
* A client that reports the success of a block download has its data written.
  The last segment carries its number plus 128, and number 64 makes it 0xC0, the
  request of a block download. To a server that has timed out meanwhile, its
  bytes name an object, the same segment sent again is the data, and the end
  frame is confirmed. Over whole runs the report holds if and only if the data
  has at most 441 bytes or 7*ceil(n/7) exceeds the server's buffer
  (`OkMeansWritten`, `MisleadRun`, `ReportLimit`). Below the limit late segments
  can only read as commands of block upload; the answers to them are counted
  (`AstrayCall`, `StrayedStep`).
* A block upload that reports success delivers the object. There are two ways
  to miss it.
  * The client gives a block half of the timeout and then confirms what it has.
    If that confirmation leaves while a first segment (sequence number 1) is
    under way, the server starts the block again, so the segment is under way
    twice, and the second copy can be stored as the first segment of the next
    block. From every such call on, with the server in the transfer, the client
    can come to hold wrong bytes, unless every byte from there on equals the
    seventh behind it (`OvertakenFails`). Nothing has to be lost for it
    (`LosslessRunFails`), and the CRC does not always notice (`WrongSuccess`,
    with the object of zeros and `01 10 21` at bytes 7 to 9). Once the server
    has left the transfer such a call is harmless, as the server answers with an
    abort (`IdleAnswers`), unless the bytes of the confirmation name an object
    of length zero: that answer is 0x53, which is segment number 83
    (`MistakenFails`). In every run without such a call `BlockUpload` holds.
  * The client checks the size announced against its buffer, but whole segments
    are stored: if the buffer has room for the n bytes and not for 7*ceil(n/7),
    the last segment is cut off while its padding is still subtracted, and only
    the CRC notices. For an object of zeros it does not.

  So a wrong success is possible if and only if the buffer has room for the
  object, and in runs without an overtaking confirmation if and only if
  n <= room < 7*ceil(n/7) (`UploadLimit`).
* The client keeps to the user's buffer, whatever arrives and whenever it is
  called (`SdoClientSafe.RunSafe`). This fails if and only if the timeout is 1,
  or at least 2 and a server announces one to six bytes for a block upload
  (`BufferLimit`). With a timeout of 1 a new upload starts in the middle of the
  last (`StartsMidway`); after such an announcement a second end frame makes the
  client take the CRC over four gigabytes (`EndTakenTwice`).

## How the code is read

* Bytes and 16-bit and 32-bit numbers are integers in their range; sums that can
  wrap are taken modulo 2^16 or 2^32, differences of lengths likewise.
* Each receive call and each process call is one atomic step. Sending a frame is
  handing it to the bus.
* The application's OD functions, the driver's answers and the clock are
  inputs of a call.
* Buffer sizes and sizes given to the write function are below 65536.
* LSS frames are those of a little-endian build: the master stores the ID number
  in the order of the processor, while the slave swaps it. The error history is
  read in the same order.
* Selecting a slave leaves the master in waiting state even after an invalid
  call, so the results start from a master at rest with nobody selected.
* The calls that clear the tail of an LSS frame write one byte too far
  (stack/CO_LSSmaster.c:235, stack/CO_LSSslave.c:268); the model has the eight
  bytes of the frame.
* One received heartbeat zeroes the time step of the nodes behind it in that
  call, so a timeout is never early but may be late.

## Model

| member | source | states |
|---|---|---|
| `LssFastscan.FastscanSelects` | stack/CO_LSSmaster.c:762-1118 | for every accepted scan/match/skip plan, any number of slaves and any timing of the calls: a finished scan puts into configuration exactly the slaves that filtering part by part leaves (SCAN keeps the minimum, MATCH the equal ones, SKIP all), reports their values, takes 1 + 33 transfers per scanned part, and with nobody left answers NOACK and selects nobody |
| `LssFastscan.FastscanEnds` | stack/CO_LSSmaster.c:986-1118 | called once per timeout the scan is over after a number of calls fixed by the plan |
| `LssFastscan.FullScanFindsSmallest` | stack/CO_LSSmaster.c:842-964 | scanning all four parts finds the lexicographically smallest LSS address of the participants with 1 + 4*33 transfers, and selects its owners only |
| `LssFastscan.AllScanAccepted` | stack/CO_LSSmaster.c:996-1013 | the plan that scans all four parts passes the validity check |
| `LssNetwork.ConfirmFrame` | stack/CO_LSSslave.c:286-319 | the opening confirm frame brings every unconfigured waiting slave, and no other, to the first part, and is answered if there is one |
| `LssNetwork.ScanFrame` | stack/CO_LSSslave.c:320-338 | a scan frame is answered if and only if some slave still in the search agrees with all bits from the asked one up, and changes no slave |
| `LssNetwork.VerifyFrame` | stack/CO_LSSslave.c:320-338 | a verify frame moves exactly the slaves with the whole value on to the next part, or into configuration after the last |
| `LssNetwork.SelectByAddress` | stack/CO_LSSmaster.c:222-326 | the four selective frames put exactly the waiting slaves with that address into configuration, and the second call reports success if and only if one of them answers |
| `LssEnumeration.AssignSmallest` | stack/CO_LSSmaster.c:332-358 | one round of scan, node ID and deselect gives the ID to the smallest unconfigured address, changes no other slave and leaves nobody selected |
| `LssEnumeration.EnumerationInOrder` | stack/CO_LSSmaster.c:476-517 | after r rounds from node ID k the r smallest participants own k..k+r-1 in ascending address order, and no configured slave was touched |
| `LssEnumeration.EnumerationComplete` | stack/CO_LSSmaster.c:986-1118 | once every participant has its node ID the next scan ends with NOACK |
| `LssMaster.ValidatePlan` | stack/CO_LSSmaster.c:996-1013 | accepts a plan if and only if the first part is not skipped and at most two parts are |
| `LssMaster.FindNext` | stack/CO_LSSmaster.c:966-983 | the loop returns the next part that is not skipped, the first part if there is none |
| `LssMaster.Station.constructor` | stack/CO_LSSmaster.c:148-193 | a master at rest with the given timeout |
| `LssMaster.Station.OnReceive` | stack/CO_LSSmaster.c:95-128 | only an eight byte frame to a master that awaits an answer is kept |
| `LssMaster.Station.Tick` | stack/CO_LSSmaster.c:131-145 | the timer runs up to the timeout; on expiry, which is reported, it restarts at zero |
| `LssMaster.Station.SendFastscan` | stack/CO_LSSmaster.c:762-781 | ID number, bit, part and next part in their bytes of the frame |
| `LssMaster.Station.CheckWait` | stack/CO_LSSmaster.c:784-808 | refines the step that waits for any unconfigured slave |
| `LssMaster.Station.ScanInitiate` | stack/CO_LSSmaster.c:811-839 | refines the start of the bit search of a part |
| `LssMaster.Station.ScanWait` | stack/CO_LSSmaster.c:842-894 | refines one bit of the search: silence sets the bit |
| `LssMaster.Station.VerifyInitiate` | stack/CO_LSSmaster.c:897-926 | refines the start of the check of a whole value |
| `LssMaster.Station.VerifyWait` | stack/CO_LSSmaster.c:929-963 | refines the end of a part: next part, success or NOACK |
| `LssMaster.Station.Fastscan` | stack/CO_LSSmaster.c:986-1118 | a call of the scan refines the step function all scan results are about, error returns included |
| `LssMaster.Station.SwitchStateSelect` | stack/CO_LSSmaster.c:296-326 | refines the selection, which also resets the master on an invalid state |
| `LssMaster.Station.SwitchStateDeselect` | stack/CO_LSSmaster.c:332-358 | refines the global switch back to waiting |
| `LssMaster.Station.ConfigureNode` | stack/CO_LSSmaster.c:476-517 | refines the node ID configuration with its answer check |
| `LssSlave.Device.Init` | stack/CO_LSSslave.c:381-440 | refused if and only if the node ID is illegal or vendor ID or serial number is missing; otherwise a waiting, unselected slave |
| `LssSlave.Device.SwitchStateGlobal` | stack/CO_LSSslave.c:54-74 | refines the global switch, which also clears the selection |
| `LssSlave.Device.SwitchStateSelective` | stack/CO_LSSslave.c:77-119 | refines the four step selection and its answer |
| `LssSlave.Device.Configure` | stack/CO_LSSslave.c:122-154 | refines the node ID part of the configuration service |
| `LssSlave.Device.Identify` | stack/CO_LSSslave.c:275-339 | refines the scan automaton all network results are about |
| `LssSlave.Device.OnReceive` | stack/CO_LSSslave.c:349-378 | refines the dispatch by command, with frames of a wrong length ignored |
| `Crc.TableSteps` | stack/crc16-ccitt.c:59-99 | one step of the division by x^16+x^12+x^5+1 leads from entry i of the table to entries 2i and 2i+1 |
| `Crc.TableIsFeed` | stack/crc16-ccitt.c:59-99 | entry i is the register after feeding the bits of i, most significant first, into a zero register |
| `Crc.ByteStep` | stack/crc16-ccitt.c:112-115 | one pass of the loop equals feeding the eight bits of the byte |
| `Crc.Crc16` | stack/crc16-ccitt.c:105-117 | the table loop computes the bit by bit division of every message from every start value |
| `Crc.CrcConcat` | stack/crc16-ccitt.c:105-117 | the CRC of a concatenation is that of the second part started from that of the first |
| `Crc.CrcZeros` | stack/crc16-ccitt.c:105-117 | a message of zeros has CRC zero, whatever its length |
| `Crc.CrcResidue` | stack/crc16-ccitt.c:105-117 | a message followed by its own CRC, high byte first, has CRC zero |
| `Od.FindEntry` | stack/CO_SDO.c:421-453 | on every sorted dictionary: answers i iff entry i has the index, 0xFFFF iff none has, within n passes for up to 2^n entries |
| `Od.PutGet` | stack/CO_SDO.c:457-560 | a written sub-index reads back as written; all others, all lengths and attributes stay |
| `Od.SetGet` | stack/CO_SDO.c:457-560 | a write to one sub-index of one entry is a write to nothing else in the dictionary |
| `SdoServerEndpoint.Endpoint.constructor` | stack/CO_SDO.c:292-372 | an idle server with a buffer of the given size |
| `SdoServerEndpoint.Endpoint.Receive` | stack/CO_SDO.c:192-264 | refines reception: one frame is kept at a time, and segments of a sub-block go to ReceiveBlock |
| `SdoServerEndpoint.Endpoint.ReceiveBlock` | stack/CO_SDO.c:217-257 | refines the in-order, repeated and out-of-order segment cases |
| `SdoServerEndpoint.Endpoint.Accept` | stack/CO_SDO.c:226-248 | refines taking the next segment, clipped at the end of the buffer, and the end of a sub-block |
| `SdoServerEndpoint.Endpoint.CopySegment` | stack/CO_SDO.c:232-241 | the byte loop stores what fits and stops at the end of the buffer |
| `SdoServerEndpoint.Endpoint.BeginTransfer` | stack/CO_SDO.c:579-625 | refines the look up of the object of a request and its abort codes |
| `SdoServerEndpoint.Endpoint.Read` | stack/CO_SDO.c:629-696 | refines reading an object, by its OD function where there is one, in wire byte order |
| `SdoServerEndpoint.Endpoint.Write` | stack/CO_SDO.c:700-770 | refines writing the buffer to an object in processor byte order |
| `SdoServerEndpoint.Endpoint.CopyIn` | stack/CO_SDO.c:646-649 | the byte loop overwrites exactly its stretch of the buffer |
| `SdoServerEndpoint.Endpoint.SwapBytes` | stack/CO_SDO.c:679-693 | in place reversal of a stretch of the buffer |
| `SdoServerEndpoint.Endpoint.Fail` | stack/CO_SDO.c:773-783 | the abort frame names the object and the code, and the server is idle |
| `SdoServerEndpoint.Endpoint.Process` | stack/CO_SDO.c:786-1491 | one call of the whole server refines the step function all server results are about |
| `SdoServerEndpoint.Endpoint.DoStart` | stack/CO_SDO.c:832-880 | refines a request to an idle server |
| `SdoServerEndpoint.Endpoint.DoTimed` | stack/CO_SDO.c:882-904 | refines the timer, the acknowledgement on timeout and the timeout abort |
| `SdoServerEndpoint.Endpoint.DoInitiateDownload` | stack/CO_SDO.c:913-968 | refines expedited download and the start of a segmented one |
| `SdoServerEndpoint.Endpoint.DoSegmentDownload` | stack/CO_SDO.c:970-1029 | refines a download segment, the flush of a full domain buffer included |
| `SdoServerEndpoint.Endpoint.DoInitiateBlockDownload` | stack/CO_SDO.c:1031-1072 | refines the agreement on a block download |
| `SdoServerEndpoint.Endpoint.DoSubblockResponse` | stack/CO_SDO.c:1079-1129 | refines the acknowledgement of a sub-block and the size of the next |
| `SdoServerEndpoint.Endpoint.DoEndBlockDownload` | stack/CO_SDO.c:1131-1168 | refines trim, CRC check and commit of a block download |
| `SdoServerEndpoint.Endpoint.DoInitiateUpload` | stack/CO_SDO.c:1170-1207 | refines expedited upload and the start of a segmented one |
| `SdoServerEndpoint.Endpoint.DoSegmentUpload` | stack/CO_SDO.c:1209-1272 | refines an upload segment, the refill of a domain buffer included |
| `SdoServerEndpoint.Endpoint.DoInitiateBlockUpload` | stack/CO_SDO.c:1274-1320 | refines the announcement of a block upload |
| `SdoServerEndpoint.Endpoint.DoStartBlockUpload` | stack/CO_SDO.c:1322-1335 | refines the start of the first block |
| `SdoServerEndpoint.Endpoint.DoSubblockUpload` | stack/CO_SDO.c:1337-1419 | refines the confirmation of a block |
| `SdoServerEndpoint.Endpoint.MoveDown` | stack/CO_SDO.c:1373-1375 | the loop moves the rest of the data to the front |
| `SdoServerEndpoint.Endpoint.DoConfirmed` | stack/CO_SDO.c:1380-1419 | refines the refill of a domain and the start of the next block |
| `SdoServerEndpoint.Endpoint.DoSendBlockSegment` | stack/CO_SDO.c:1421-1460 | refines sending one segment of a block |
| `SdoServerEndpoint.Endpoint.DoEndBlockUpload` | stack/CO_SDO.c:1463-1472 | refines the end of a block upload |
| `SdoServerSafe.ReceiveSafe` | stack/CO_SDO.c:192-264 | any frame in any safe state leaves a safe state |
| `SdoServerSafe.ProcessSafe` | stack/CO_SDO.c:786-1491 | any process call in any safe state, with OD functions that respect their room, leaves a safe state |
| `SdoServerSafe.RunSafe` | stack/CO_SDO.c:192-264 | for arbitrary frames and calls: the offset never leaves the buffer, never passes the data while uploading, and the last-segment trim and the acknowledged shift never go below zero |
| `SdoServerEnds.SilentLess` | stack/CO_SDO.c:882-904 | a call without a frame decreases segments left, reply left and time left lexicographically, or took no time and left them as they were |
| `SdoServerEnds.PendingLess` | stack/CO_SDO.c:786-1491 | a call with a frame waiting uses it up or lets time pass, unless it took no time |
| `SdoServerEnds.SilentServerEnds` | stack/CO_SDO.c:786-1491 | from every safe state, with no further frame, the server is back to idle after finitely many calls, whatever calls take no time, as long as some later call always does |
| `SdoDomain.StreamStarts` | stack/CO_SDO.c:1281-1288 | a domain upload starts with the first chunk buffered, nothing acknowledged and the CRC of that chunk |
| `SdoDomain.StreamConserved` | stack/CO_SDO.c:1373-1449 | in every reachable state of a domain block upload, acknowledged bytes followed by buffered bytes are all chunks produced, and the running CRC is that of exactly this stream |
| `SdoClientSafe.RunSafe` | stack/CO_SDOmaster.c:118-184 | for arbitrary frames and calls of the application, with no upload call of timeout 1 and no announcement of one to six bytes taken up: nothing is stored behind the user buffer, and the CRC is taken over bytes of it |
| `SdoClientSafe.ReceiveSafe` | stack/CO_SDOmaster.c:118-184 | any frame in any safe state leaves a safe state |
| `SdoClientSafe.UploadSafe` | stack/CO_SDOmaster.c:834-1257 | an upload call of timeout 0, or of timeout 2 or more that takes up no announcement of one to six bytes, leaves a safe state |
| `SdoClientSafe.EndTakenTwice` | stack/CO_SDOmaster.c:1087-1097 | for every announced size from one to six and every timeout from 2 on: after a second end frame the CRC is taken over a length below zero |
| `SdoClientSafe.StartsMidway` | stack/CO_SDOmaster.c:1138-1140 | with timeout 1 a call of a new upload is at once inside a block, with the byte count of the transfer before |
| `SdoClientSafe.BufferLimit` | stack/CO_SDOmaster.c:834-1257 | for every timeout and every size announced: some run leaves the user buffer if and only if the timeout is 1, or at least 2 and the size one to six bytes |
| `SdoClientEndpoint.Endpoint.Receive` | stack/CO_SDOmaster.c:118-184 | refines reception: one frame at a time, segments of a block go to ReceiveBlock; keeps the client valid |
| `SdoClientEndpoint.Endpoint.ReceiveBlock` | stack/CO_SDOmaster.c:138-179 | refines the in-order, repeated and out-of-order segment cases |
| `SdoClientEndpoint.Endpoint.CopySegment` | stack/CO_SDOmaster.c:155-163 | the byte loop stores what fits the user buffer |
| `SdoClientEndpoint.Endpoint.InitiateDownload` | stack/CO_SDOmaster.c:345-421 | refines the request of an expedited, segmented or block download |
| `SdoClientEndpoint.Endpoint.TakeDownload` | stack/CO_SDOmaster.c:485-622 | refines the reaction of a download to an answer |
| `SdoClientEndpoint.Endpoint.TakeBlockAck` | stack/CO_SDOmaster.c:568-601 | refines go-back-N on a block acknowledgement |
| `SdoClientEndpoint.Endpoint.SendDownload` | stack/CO_SDOmaster.c:650-743 | refines what a download call sends |
| `SdoClientEndpoint.Endpoint.DoSendBlockSegment` | stack/CO_SDOmaster.c:685-719 | refines sending one block segment |
| `SdoClientEndpoint.Endpoint.Download` | stack/CO_SDOmaster.c:428-750 | one download call refines the step function the transfer results are about |
| `SdoClientEndpoint.Endpoint.InitiateUpload` | stack/CO_SDOmaster.c:758-830 | refines the request of an upload |
| `SdoClientEndpoint.Endpoint.TakeUpload` | stack/CO_SDOmaster.c:904-1115 | refines the reaction of an upload to an answer |
| `SdoClientEndpoint.Endpoint.DoSendConfirm` | stack/CO_SDOmaster.c:1196-1233 | refines the confirmation of a block and the size of the next |
| `SdoClientEndpoint.Endpoint.SendUpload` | stack/CO_SDOmaster.c:1148-1246 | refines what an upload call sends |
| `SdoClientEndpoint.Endpoint.Upload` | stack/CO_SDOmaster.c:834-1257 | one upload call refines the step function the transfer results are about; the client stays valid unless the timeout is 1 or an announcement of one to six bytes is taken up |
| `SdoBlockDownload.BlockDownloadSafe` | stack/CO_SDO.c:1031-1168 | go-back-N: for any loss in either direction on a FIFO bus and any timing, the server buffer is a prefix of the zero-padded data until the transfer ends, and it ends with nothing or all of the data written |
| `SdoBlockDownloadStart.BlockDownload` | stack/CO_SDOmaster.c:540-622 | the same from the request on, for every stored object and every data |
| `SdoBlockDownloadAstray.AstrayCall` | stack/CO_SDO.c:786-1491 | a server that has left the transfer and can give at most one more answer of block transfer, counted from its state and the late segments that read as commands of block upload: no call raises that number, and each such answer uses one up |
| `SdoBlockDownloadCredit.StrayedStep` | stack/CO_SDOmaster.c:540-622 | once the server has left, every event keeps the answers under way, and those it can still give, too few for the client to be told of success |
| `SdoBlockDownloadReport.OkMeansWritten` | stack/CO_SDOmaster.c:605-622 | in every whole run from the request on, whatever is lost, whenever the sides are called and also after the server has left the transfer: a client call that returns success finds the whole data written, if the data has at most 441 bytes or 7*ceil(n/7) exceeds the server buffer |
| `SdoBlockDownloadMislead.MisleadRun` | stack/CO_SDO.c:832-880 | from 442 bytes on: the run in which the late last segment, with number 64, reaches the idle server as the request of a block download, and the client reports success while the bytes of that segment are written to the object they name |
| `SdoBlockDownloadMislead.ReportLimit` | stack/CO_SDOmaster.c:605-622 | a report of success with the data not written is possible for n bytes and a server buffer of that size if and only if n > 441 and 7*ceil(n/7) is at most the buffer size |
| `SdoBlockDownloadRuns.LosslessBlockDownload` | stack/CO_SDOmaster.c:540-738 | in every run with nothing lost in which no timer reaches its limit, with any order of calls, idle calls, full transmit buffers and segments under way: the client never gives up, and its only final report is success with the data written if 7*ceil(n/7) fits the server buffer, else an abort of the server with nothing written |
| `SdoBlockDownloadRuns.LosslessDownloadEnds` | stack/CO_SDOmaster.c:685-738 | such a run is over after at most 24*ceil(n/7) + 4 stretches in which each side and each direction of the bus has its turn |
| `SdoBlockDownloadWhole.WholeRunSafe` | stack/CO_SDO.c:786-880 | up to 224 bytes no run, also beyond the end of the transfer on the server, writes anything but the whole data to the object |
| `SdoBlockDownloadDetour.DetourRun` | stack/CO_SDO.c:832-880 | from 225 bytes on: the run in which a late segment 32 reaches the idle server as a download request, with the bytes it writes |
| `SdoBlockDownloadDetour.WholeRunLimit` | stack/CO_SDO.c:786-880 | all-or-nothing over whole runs holds for n bytes if and only if n <= 224 |
| `SdoBlockUpload.IdleAnswers` | stack/CO_SDO.c:832-880 | a server that has left the transfer answers a late start, confirmation or end of the client with an abort and stays idle, unless the frame names an object without any bytes |
| `SdoBlockUpload.RunInv` | stack/CO_SDOmaster.c:983-1115 | the invariant that ties client, server and frames under way is kept by every event, also after the server has left the transfer, unless a confirmation forced by the block timer overtakes a first segment; a confirmation held up by a full transmit buffer included |
| `SdoBlockUploadStart.BlockUpload` | stack/CO_SDO.c:1274-1472 | for any loss of server frames, in every whole run without such an overtaking, the client buffer is a prefix of the padded object, and a reported success means the right size and bytes unless the user buffer cut off the last segment |
| `SdoBlockUploadOvertaken.OvertakenFails` | stack/CO_SDOmaster.c:1138-1140 | from every call on in which a confirmation forced by the block timer overtakes a first segment, with the server in the transfer, some continuation leaves wrong bytes in the client buffer, unless all bytes from there on equal the seventh behind them |
| `SdoBlockUploadOvertaken.MistakenFails` | stack/CO_SDO.c:870-880 | with the server gone: if the confirmation names an object without any bytes, a client that has taken 82 segments stores the answer as the next one |
| `SdoBlockUploadOvertaken.LosslessRunFails` | stack/CO_SDOmaster.c:1138-1140 | a run with nothing lost that leaves wrong bytes, for every object in which some byte differs from the seventh behind it |
| `SdoBlockUploadOvertaken.WrongSuccess` | stack/CO_SDOmaster.c:1087-1115 | a run with nothing lost that reports success with the first segment in place of the second, for every object whose CRC does not tell the two apart |
| `SdoBlockUploadRuns.LosslessBlockUpload` | stack/CO_SDOmaster.c:1168-1246 | in every run with nothing lost in which no timer reaches its limit, with any order of calls, idle calls, full transmit buffers and segments under way: neither side gives up and the only final report is success with the object, or with the part that a too small buffer leaves if its checksum agrees; else a CRC abort |
| `SdoBlockUploadRuns.LosslessUploadEnds` | stack/CO_SDOmaster.c:1168-1246 | such a run is over after at most 24*ceil(n/7) + 10 stretches in which each side and the bus have their turn |
| `SdoBlockUploadLimit.UploadLimit` | stack/CO_SDOmaster.c:1087-1140 | a wrong success is possible if and only if n <= room, and in runs without an overtaking confirmation if and only if n <= room < 7*ceil(n/7) |
| `SdoTransferRuns.TransferInTime` | stack/CO_SDOmaster.c:428-981 | in every run of an expedited or segmented download or upload in which no timer reaches its limit, with any order of calls, idle calls and full transmit buffers, no side gives up, and a client that is done has reported the outcome: for an upload the object, for a download the verdict of a direct write |
| `SdoTransferRuns.TransferEnds` | stack/CO_SDOmaster.c:428-981 | such a run is over after at most 6*ceil(n/7) + 4 stretches in which each side and each direction of the bus has its turn |
| `SdoTransferRuns.TogglesInStep` | stack/CO_SDOmaster.c:485-981 | throughout such a run no side finds a segment or answer with the wrong toggle bit, and a client ready to go on stands at the byte of the server |
| `SdoRoundTrip.RoundTrip` | stack/CO_SDO.c:913-1029 | an expedited or segmented download in time followed by an upload in time returns exactly the bytes written, for every length up to the buffer size, both byte orders and any order of calls |
| `SdoRoundTrip.LocalRefinesRemote` | stack/CO_SDOmaster.c:444-470 | the shortcut to the own node leaves the same dictionary, return and abort code as every remote download in time that ends, for every request to a missing or stored object |
| `Pdo.ConfigMap` | stack/CO_PDO.c:322-439 | both mapping loops compute the byte table, the change flags and the error code of the specification, entry by entry |
| `Pdo.AcceptedLength` | stack/CO_PDO.c:322-373 | every accepted mapping list totals at most eight bytes, the sum of its entries |
| `Pdo.Send` | stack/CO_PDO.c:940-985 | the frame sent starts with the bytes of the mapped objects in order |
| `Pdo.Store` | stack/CO_PDO.c:1006-1022 | the bytes of the frame end up in the mapped cells, in order |
| `Pdo.FrameIsValues` | stack/CO_PDO.c:388-439 | in the frame, the stretch of entry k is the value of its object in wire order |
| `Pdo.TableDistinct` | stack/CO_PDO.c:219-306 | different targets never share a cell |
| `Pdo.ScatterGather` | stack/CO_PDO.c:1006-1022 | storing into distinct cells and reading them back gives the frame, and touches no other cell |
| `Pdo.PdoCarriesValues` | stack/CO_PDO.c:219-306 | a TPDO received by an RPDO with the same lengths over different objects carries over every value, across byte orders |
| `Pdo.IsCos` | stack/CO_PDO.c:915-938 | true if and only if some flagged byte differs from the last frame |
| `Pdo.CosMeansChange` | stack/CO_PDO.c:388-439 | that is true if and only if the value of some object flagged for change detection differs from the one last sent |
| `PdoSync.DoubleBuffering` | stack/CO_PDO.c:64-109 | in every run where each SYNC, received or produced by the node itself, is processed before the next: the call after SYNC k received, or the call that produces SYNC k, copies exactly the last RPDO received between SYNC k-1 and SYNC k |
| `PdoSync.NothingEarly` | stack/CO_PDO.c:989-1022 | until the next SYNC, received or produced, nothing further is copied, whatever arrives |
| `PdoSync.CyclicSends` | stack/CO_PDO.c:1082-1109 | transmission type N without start value sends exactly at SYNCs N, 2N, 3N, ... |
| `PdoSync.StartSends` | stack/CO_PDO.c:1082-1109 | with start value s and a counter cycling 1..overflow it sends exactly at SYNCs s, s+N, s+2N, ... |
| `PdoSync.ProducerRun` | stack/CO_SYNC.c:339-347 | in every run of process calls of a producer, the counter of the k-th SYNC it sends is ((k-1) mod overflow) + 1 |
| `PdoSync.ProducerStartSends` | stack/CO_PDO.c:1082-1109 | in every run of such a node its own TPDO with start value s is sent exactly at its SYNCs s, s+N, s+2N, ... |
| `PdoObjects.SyncObject.Receive` | stack/CO_SYNC.c:60-89 | refines SYNC reception: counter, length check and toggle |
| `PdoObjects.SyncObject.Process` | stack/CO_SYNC.c:318-381 | refines SYNC processing: producer, timer and window |
| `PdoObjects.RpdoObject.Receive` | stack/CO_PDO.c:64-109 | refines reception into the buffer the toggle selects |
| `PdoObjects.RpdoObject.Process` | stack/CO_PDO.c:989-1054 | refines the copy of the other buffer to the mapped objects |
| `PdoObjects.TpdoObject.Process` | stack/CO_PDO.c:1057-1123 | refines the decision to send, with inhibit time, event timer and SYNC |
| `PdoObjects.TpdoObject.Cycle` | stack/CO_PDO.c:1082-1109 | refines the SYNC counter of a cyclic TPDO |
| `EmergencyRuns.FirstInFirstOut` | stack/CO_Emergency.c:196-289 | in every run, what was sent followed by what waits is what waited at first followed by what was accepted, in order |
| `EmergencyRuns.DroppedOnlyWhenFull` | stack/CO_Emergency.c:303-419 | in every run of reports, resets and process calls, a message is dropped if and only if it comes up while ten are waiting |
| `EmergencyRuns.DropIsReported` | stack/CO_Emergency.c:266-274 | after a drop, whatever happens, the next transmission leaves the overflow error bit set |
| `EmergencyRuns.HistoryIsNewest` | stack/CO_Emergency.c:276-285 | the predefined error field always lists the newest sent errors since the last clear, newest first |
| `Emergency.EmergencyObject.constructor` | stack/CO_Emergency.c:123-180 | an empty desk |
| `Emergency.EmergencyObject.Put` | stack/CO_Emergency.c:332-352 | the ring of ten refines a bounded queue: append, or note the overflow |
| `Emergency.EmergencyObject.Take` | stack/CO_Emergency.c:249-265 | the ring gives out its oldest message, wrapping at its end |
| `Emergency.EmergencyObject.ShiftDown` | stack/CO_Emergency.c:282-283 | the loop moves every history entry down by one |
| `Emergency.EmergencyObject.Remember` | stack/CO_Emergency.c:276-285 | refines the insertion of the newest history entry |
| `Emergency.EmergencyObject.DoReport` | stack/CO_Emergency.c:303-358 | refines an error report: known errors and bits out of range are not queued |
| `Emergency.EmergencyObject.DoReset` | stack/CO_Emergency.c:364-419 | refines an error reset |
| `Emergency.EmergencyObject.DoProcess` | stack/CO_Emergency.c:196-289 | refines a process call: error register, inhibit time, one message |
| `Emergency.EmergencyObject.DoReadHistory` | stack/CO_Emergency.c:57-80 | refines reading the history by SDO |
| `Emergency.EmergencyObject.DoWriteHistory` | stack/CO_Emergency.c:82-97 | refines clearing the history by SDO |
| `Heartbeat.NeverTooEarly` | stack/CO_HBconsumer.c:296-355 | in every run and for every node, a node in timeout has been without a processed heartbeat for at least its configured time |
| `Heartbeat.NoFalseTimeout` | stack/CO_HBconsumer.c:296-355 | if ceil(HBtime/dt)*dt is less than the consumer time, no call of any run reports a timeout of a producer ticking every dt, from its first, shorter interval on and among any number of nodes; nor of one that boots again, if the gap between consumer calls fits as well |
| `Heartbeat.Consumer.OnReceive` | stack/CO_HBconsumer.c:56-67 | a frame of length one is noted, any other ignored |
| `Heartbeat.Consumer.DoProcess` | stack/CO_HBconsumer.c:282-378 | refines a process call over all nodes, with the time step a heartbeat zeroes for the nodes behind it |
| `Heartbeat.Producer.DoProduce` | stack/CO_NMT_Heartbeat.c:220-239 | refines the producer: boot-up message and heartbeat |

## Left out

- SdoBlockUpload.RunInv: each frame of the client arrives and is processed before the client is called again, and no confirmation forced by the block timer overtakes a first segment, to a server in the transfer or to one that would answer it; what happens otherwise is the subject of OvertakenFails and MistakenFails. The timeout is at least 2, since the client halves it.
- SdoBlockUploadStart.BlockUpload: the same, and the request itself has arrived. The user's buffer holds at least one block of 127 segments, as the client demands for a block upload.
- SdoBlockUploadOvertaken.OvertakenFails: one way only; that a transfer survives an overtaken segment if the data repeats every seven bytes is not proved.
- SdoBlockUploadOvertaken.MistakenFails: the last two steps of such a run, from the state before them; the 82 segments that lead there are not spelled out.
- SdoBlockUploadRuns.LosslessBlockUpload: the request has arrived, the server answers it in its first call, and both buffers have room for the object; a client with less room refuses it.
- SdoBlockDownloadStart.BlockDownload: the request itself has arrived; what happens after the server leaves the transfer is the subject of WholeRunSafe.
- SdoBlockDownloadReport.OkMeansWritten: limited as in ReportLimit. The number of errors (0x1003,0), which ignores what is written, is not the object.
- SdoBlockDownloadRuns.LosslessBlockDownload: the object takes the data (writeable, of that length, not refused by its OD function).
- SdoRoundTrip.RoundTrip: the object has no OD function, which could change the data.
- SdoRoundTrip.LocalRefinesRemote: the shortcut is modelled on values; that it leaves the server's data pointer at the client's buffer is not.
- SdoClientSafe.RunSafe: limited as in BufferLimit. Sizes are 32-bit numbers, and upload calls are made while an upload lasts.
- SdoServerEndpoint.Endpoint.Read: the offset and first-segment hints given to an OD function are not modelled.
- SdoServerEnds.SilentServerEnds: the timer sums stay below 2^16, and time does not stop for good.
- LssSlave.Device.Configure: bit timing, bit rate activation and storing depend on application callbacks; devices without them.
- Pdo.PdoCarriesValues: on a big-endian node the values of mapped multibyte objects are shorter than 256 bytes, and the entry count of the error history is not a target.
- PdoObjects.SyncObject.Process: the emergency reports of SYNC timeout and wrong length are left out.
- PdoObjects.RpdoObject.Process: calls to OD extensions and manual control are left out.
- PdoSync.StartSends: the start value is at most the overflow value, as the counter never reaches a larger one.
- Emergency.EmergencyObject.DoProcess: the error register is computed from the status bits as given; callbacks are left out.
- Heartbeat.NoFalseTimeout: HBtime + dt is below 2^16; a producer that boots again needs the time of one consumer call on top.
- LED blinking, NMT commands and error behaviour of stack/CO_NMT_Heartbeat.c: settled by one reading.
- LSS master inquiry services and bit timing commands: one request and one answer each, easier than the node ID command.
- PDO and SYNC configuration objects (0x1005, 0x1006, 0x1019, communication parameters): range checks on writes.
- stack/CO_trace.c, stack/CO_Daisychain.c: a text plot and a one-slot mailbox, only easy claims.
- CANopen.c, app/, example/ and the drivers: allocation, wiring, hardware and generated dictionaries; an arbitrary sorted dictionary and a FIFO bus stand for them.
