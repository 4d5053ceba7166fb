# BLE bridge of ble_energia, modelled in Dafny

The Energia BLE library drives a separate network processor (NP) that runs
the Simple Network Processor (SNP) over a serial link. Its core,
`BLE/src/BLE.cpp`, handles two execution contexts:

- The application calls `ble.*` request methods. Each one sends a request
  through the transport and then blocks in `apEventPend` until the matching
  completion tag is posted on an event object.
- The transport's task delivers asynchronous responses (`AP_asyncCB`) and
  unsolicited events (`processSNPEventCB`). These update shared state and post
  tags, or store an error in `ble.error` and post the error tag
  (`apPostError`).

This project models that core:

- waiting and error propagation (`apEventPend`, `isError`, `apPostError`);
- the two dispatchers;
- the guarded request operations;
- `hciCommand` and `testCommand`, which copy the response the callback
  published and then release the callback;
- chunked notification/indication delivery (`writeNotifInd`);
- the three advertisement-data slots with their built-in defaults, and the
  scan response rebuilt around a device name;
- reading a characteristic value back as an integral type or a C string;
- the pairing helpers (`handleEvents`, `handleAuthKey`, the two
  comparison-button interrupts);
- `resetPublicMembers` and `end`.

## Layout

| file | module | contents |
|---|---|---|
| protocol.dfy | `Protocol` | statuses, event tags and their bits, requests, the environment of one exchange |
| event_wait.dfy | `EventWait` | `Event_pend`, `isError`, `apEventPend` and the send-then-wait pattern, as functions over a link state (posted tags, `ble.error`, request trace) |
| dispatch.dfy | `Dispatch` | the shared state and both callbacks as functions |
| bridge.dfy | `Bridge` | the guarded requests, `startAdvert`, the request built by `setSingleConnParam`, `hciCommand` and `testCommand` |
| advert.dfy | `Advert` | slot indices, default payloads, `setAdvertData`, `advertDataInit`, `setAdvertName`'s buffer |
| chunking.dfy | `Chunking` | the pieces of a value and the delivery loop of `writeNotifInd` |
| values.dfy | `Values` | integral reinterpretation of stored bytes, NUL termination |
| pairing.dfy | `Pairing` | `handleEvents`, `handleAuthKey`, the button interrupts |
| driver.dfy | `Driver` | the `Ble` class and a `Characteristic` class: the same operations as methods that update fields and an `array` of slots in place, each proved to produce the state the functions above define |

### How the concurrency is modelled

The other context's actions are inputs.

- Each wait takes an `Arrival`. It gives the tags posted while the wait was
  blocked and, if the error tag is among them, the status the poster stored
  first.
- Each request takes an `Exchange`. It gives the transport's immediate
  status, the arrivals during the wait, and the arrivals during the second,
  discarded wait that follows an advertisement-data wait.

`Event_pend` posts the arrivals, then takes and returns the masked tags that
are posted. An empty result stands for a timeout. The transport is recorded
as a `trace` of requests in the order they were sent.

### Platform assumptions

Assumed: the 32-bit ARM ABI (`int` and `long` are 4 bytes, plain `char` is
unsigned, little-endian). `uint8_t` and `uint16_t` are newtypes, and the
`uint16_t` wrap-around of `ble.mtu` and the `uint8_t` wrap-around of
`setAdvertName`'s size are written out. `BLE.h`, the SNP headers and the
transport library are not part of this model. Status codes are therefore a
datatype, not numbers. `BLE_DEF_DESIRED_*_CONN_INT`, `TI_ST_DEVICE_ID` and
`TI_ST_KEY_DATA_ID` are placeholder constants that no property depends on.

### Behaviour of the code worth noting

- A connection-terminated event clears only `connected`. The connection
  handle keeps its value (`BLE/src/BLE.cpp:1234-1240`); only `end()` resets
  it.
- The authentication-data response has no `break`, so it also posts the
  white-list tag on success (`BLE/src/BLE.cpp:1159-1184`).
- The GAP group has no `break` before the GATT group
  (`BLE/src/BLE.cpp:1186-1189`). A GAP opcode then matches nothing there, so
  this changes nothing.
- With both CCCD bits set, the request type is notification, but every piece
  still waits for an indication confirmation (`BLE/src/BLE.cpp:566-594`).

## Model

| member | source | states |
|---|---|---|
| `Protocol.EventId` | BLE/src/BLE.cpp:33-54 | every wait tag is one bit of the 32-bit event mask: bit 30 exactly for the copied-data tag, bit 31 exactly for the error tag, bits 0-16 for all the others |
| `Protocol.EventBitsDistinct` | BLE/src/BLE.cpp:33-54 | distinct tags have distinct `Event_Id` values, so a returned mask identifies the tags taken |
| `EventWait.PendTakesMasked` | BLE/src/BLE.cpp:1337-1338 | `Event_pend` returns only tags it waited for, exactly those posted before or during the wait, and leaves every other posted tag posted |
| `EventWait.IsErrorFacts` | BLE/src/BLE.cpp:1373-1385 | `isError` is true exactly for a status other than SNP_SUCCESS; BLE_CHECK_ERROR leaves `ble.error` alone; any other status is stored, so a false result leaves `ble.error` at BLE_SUCCESS |
| `EventWait.WaitSucceedsIffTagPosted` | BLE/src/BLE.cpp:1331-1357 | `apEventPend` returns true if and only if its tag was posted before or during the wait |
| `EventWait.WaitTimeout` | BLE/src/BLE.cpp:1331-1357 | neither the tag nor the error tag: false, `ble.error` is BLE_TIMEOUT, the other posted tags remain |
| `EventWait.WaitErrorKeepsPostedStatus` | BLE/src/BLE.cpp:1331-1364 | only the error tag arrived: false, and `ble.error` is the status `apPostError` stored before posting |
| `EventWait.StaleErrorFailsNextWait` | BLE/src/BLE.cpp:1331-1357 | an error tag left over from an earlier unsolicited failure fails the next wait, which reports it with `ble.error` reset to BLE_SUCCESS |
| `EventWait.DoublePostAbsorbed` | BLE/src/BLE.cpp:1339-1343 | the doubly posted advertisement-data confirmation yields one success and leaves neither copy nor an error tag posted |
| `EventWait.WaitConsumes` | BLE/src/BLE.cpp:1331-1357 | a wait never sends anything and always consumes both the tag and the error tag |
| `EventWait.CallOutcome` | BLE/src/BLE.cpp:874-884 | the send-then-wait pattern records the request, succeeds if and only if the transport accepted it and the tag was posted, fails only with BLE_CHECK_ERROR, and a rejected send leaves its status in `ble.error` |
| `EventWait.GuardShortCircuits` | BLE/src/BLE.cpp:288-294 | a failed precondition stores its error, sends nothing and leaves the posted tags as they were |
| `Dispatch.ConfirmationPostsTagOrError` | BLE/src/BLE.cpp:1131-1158 | each status-carrying confirmation posts its own tag on success, otherwise stores its status and posts the error tag, and changes nothing else |
| `Dispatch.AsyncNeverBoth` | BLE/src/BLE.cpp:1077-1213 | from nothing posted, an error tag is always posted alone, and then `ble.error` holds the message's status |
| `Dispatch.AuthDataRspFallsThrough` | BLE/src/BLE.cpp:1159-1184 | the missing `break`: a successful authentication-data response posts both the authentication tag and the white-list tag; a failed one posts the error once |
| `Dispatch.HciAndUnknownResponses` | BLE/src/BLE.cpp:1092-1125 | an HCI response always records its opcode; on success it publishes its payload and posts its tag, otherwise it posts the error; unknown messages change nothing |
| `Dispatch.ConnEstablishedSetsConnection` | BLE/src/BLE.cpp:1219-1233 | connection established: handle, three parameters, address and flag set, its tag posted, advertising, transfer size and error untouched |
| `Dispatch.TerminationClearsOnlyConnected` | BLE/src/BLE.cpp:1234-1240 | termination clears `connected`, posts its tag, and keeps the handle and every other field |
| `Dispatch.ParamUpdateOverwrites` | BLE/src/BLE.cpp:1241-1261 | a parameter update overwrites all three parameters and keeps the connection flag and handle |
| `Dispatch.AdvertEventsSetFlag` | BLE/src/BLE.cpp:1262-1288 | advertising start/end success sets/clears the flag; a failure keeps the flag and posts the error with its status |
| `Dispatch.MtuEventSetsTransferSize` | BLE/src/BLE.cpp:1289-1295 | the transfer size is the ATT MTU less 3, wrapping in 16 bits below 3, and nothing is posted |
| `Dispatch.ConnectThenTerminate` | BLE/src/BLE.cpp:1219-1240 | connect then lose the connection: not connected, handle and parameters of that connection kept |
| `Bridge.PreconditionsShortCircuit` | BLE/src/BLE.cpp:285-395 | `terminateConn`, `setConnParams` while not connected, `stopAdvert` while not advertising and `startAdvert` while advertising return BLE_CHECK_ERROR with exactly the named error and no request |
| `Bridge.GuardedRequestsOutcome` | BLE/src/BLE.cpp:499-514 | past the precondition, each operation sends its one request and succeeds if and only if it was accepted and confirmed |
| `Bridge.StartAdvertOutcome` | BLE/src/BLE.cpp:347-382 | `startAdvert` succeeds if and only if `advertDataInit` succeeded, the enable request was accepted and its confirmation posted; a success filled every empty slot that has a default, released nothing, and sent the enable request last |
| `Bridge.HciCommandOutcome` | BLE/src/BLE.cpp:481-494 | `hciCommand` returns a response if and only if the command was accepted and the HCI response tag posted; it sends the one command, returns the published response and posts the copied-data tag on success, and returns NULL without posting it otherwise |
| `Bridge.TestCommandOutcome` | BLE/src/BLE.cpp:906-916 | `testCommand` succeeds if and only if the test response tag was posted; it sends the one request, and on success copies the published response and posts the copied-data tag |
| `Bridge.HciHandshake` | BLE/src/BLE.cpp:1092-1106 | when the callback has published a successful HCI response, `hciCommand` returns exactly it, and the callback's wait for the copied-data tag then takes that tag |
| `Bridge.TestHandshake` | BLE/src/BLE.cpp:1108-1121 | the same handshake for the test response: `testCommand` copies it and the callback's wait is released |
| `Bridge.SingleParamRequest` | BLE/src/BLE.cpp:516-550 | the request carries the current handle and overrides exactly the chosen field; the others are the widest interval range and the latency and timeout in use |
| `Advert.IndexOfTypeOfIndex` | BLE/src/BLE.cpp:149-154 | every slot's type maps back to that slot |
| `Advert.TypeOfIndexOfType` | BLE/src/BLE.cpp:317-329 | `advertIndex` has a slot exactly for the three advertisement types, and that slot's type is the type |
| `Advert.DefaultScanRspShape` | BLE/src/BLE.cpp:92-147 | the default scan response is 22 bytes with a 12-byte name field; the connectable default is empty, the non-connectable one 10 bytes |
| `Advert.SetAdvertDataReplacesSlot` | BLE/src/BLE.cpp:397-415 | the slot changes only after a confirmed request and only the slot of the type; the previous buffer is released exactly when it is not a default |
| `Advert.InitFillsOnlyEmptySlots` | BLE/src/BLE.cpp:331-345 | `advertDataInit` never overwrites a filled slot, never releases a buffer, and on success has put the default in every empty slot with a non-empty default |
| `Advert.ScanRspWithNameLayout` | BLE/src/BLE.cpp:422-437 | up to 244 name bytes: length byte 1 + n, the name type, the name, then the rest of the default scan response |
| `Advert.LongNameWrapsSize` | BLE/src/BLE.cpp:424-425 | a 245-byte name wraps the `uint8_t` size to 0, and no data is sent |
| `Chunking.KindOf` | BLE/src/BLE.cpp:562-576 | notification exactly when the notify bit is set; indication exactly when only the indicate bit is |
| `Chunking.BothBitsNotifyButWait` | BLE/src/BLE.cpp:566-594 | with both CCCD bits, `writeNotifInd` is a delivery of notification requests that waits for a confirmation after every piece, and succeeds if and only if every piece was accepted and confirmed |
| `Chunking.ChunkCount` | BLE/src/BLE.cpp:577-597 | one piece for an empty value, otherwise the n with (n - 1) * mtu < L <= n * mtu |
| `Chunking.ChunkSizes` | BLE/src/BLE.cpp:580-582 | every piece holds at most `mtu` bytes, all but the last exactly `mtu`, none empty unless the value is |
| `Chunking.ChunksReassemble` | BLE/src/BLE.cpp:577-597 | the pieces in order concatenate to the value |
| `Chunking.SendPieceTrace` | BLE/src/BLE.cpp:584-597 | one pass of the loop hands exactly its piece to the transport, whether or not it then waits |
| `Chunking.DeliverAttempts` | BLE/src/BLE.cpp:577-600 | a delivery attempts between one and all of the pieces; it returns BLE_SUCCESS or BLE_CHECK_ERROR, and success means every piece was attempted |
| `Chunking.DeliverSendsPrefix` | BLE/src/BLE.cpp:577-600 | the requests sent are always a non-empty prefix of the pieces, in order, one request per attempted piece |
| `Chunking.OutcomeStep` | BLE/src/BLE.cpp:579-599 | after one pass from offset `sent`: a failed pass ends the delivery with BLE_CHECK_ERROR, a pass reaching the end with BLE_SUCCESS, and any other pass leaves the delivery from `sent` plus the piece size |
| `Chunking.NotifyNeverWaits` | BLE/src/BLE.cpp:584-593 | notifications consume no tag and succeed if and only if the transport accepts every piece |
| `Chunking.IndicateWaitsPerChunk` | BLE/src/BLE.cpp:589-594 | an indication succeeds if and only if every piece was accepted and every piece's confirmation posted |
| `Chunking.ConfirmationMissingFails` | BLE/src/BLE.cpp:589-594 | an accepted piece whose confirmation never comes fails the pass, with BLE_TIMEOUT, the status of an error posted during the wait, or BLE_SUCCESS for an older error tag in `ble.error` |
| `Chunking.Requests` | BLE/src/BLE.cpp:584-586 | one request per piece, in order, each carrying the connection, attribute, type and that piece |
| `Chunking.DeliveredPayloadIsValue` | BLE/src/BLE.cpp:560-601 | a complete delivery sends exactly the pieces of the value, which reassemble to it |
| `Chunking.FortyFiveBytesInThreeChunks` | BLE/src/BLE.cpp:577-597 | 45 bytes over a transfer size of 20 go out as 20, 20 and 5 bytes |
| `Values.DecodeInRange` | BLE/src/BLE.cpp:702-760 | a value read from 1 or 4 stored bytes lies in the range of its C type |
| `Values.DecodeRoundTrip` | BLE/src/BLE.cpp:722-730 | a value stored as its memory image reads back unchanged |
| `Values.EncodeOfDecode` | BLE/src/BLE.cpp:742-750 | every stored byte pattern of the right size is the memory image of the value read from it |
| `Values.EmptyValueReadsOutside` | BLE/src/BLE.cpp:794-800 | as written, an empty value makes `readValue_charArr` read the byte before its buffer |
| `Values.TerminatedIsCString` | BLE/src/BLE.cpp:792-808 | the result holds the value's bytes, contains a NUL, agrees with the code for every non-empty value, and is the empty string for an empty one |
| `Values.TerminatedIdempotent` | BLE/src/BLE.cpp:796-800 | a second string read changes nothing |
| `Pairing.PollMaskValues` | BLE/src/BLE.cpp:970-972 | the mask `handleEvents` stores as `opcode` is 0x800 for the authentication tag plus 0x1_0000 for the button tag, as their `Event_Id` bits give |
| `Pairing.PasskeyBelowMillion` | BLE/src/BLE.cpp:1002-1026 | the passkey is below 1000000; it is sent exactly when the peer asks for input, and otherwise nothing is sent |
| `Pairing.PasskeyEventSendsKey` | BLE/src/BLE.cpp:966-985 | a passkey-display event sends exactly the drawn key and succeeds if and only if it is accepted and acknowledged |
| `Pairing.ButtonChoosesAnswer` | BLE/src/BLE.cpp:1060-1070 | after button 1 (2), the next `handleEvents` sends 1 (0), records the button's bit as `opcode`, and succeeds if and only if the answer was accepted and acknowledged |
| `Pairing.PromptWaitsForButton` | BLE/src/BLE.cpp:966-1000 | with no button press and no passkey to send, `handleEvents` sends nothing, succeeds, and keeps the stored answer |
| `Driver.Ble.constructor` | BLE/src/BLE.cpp:79-88 | the initial state: handle 0xFFFF, not connected, not advertising, every slot empty, nothing posted |
| `Driver.Ble.IsError` | BLE/src/BLE.cpp:1373-1385 | in-place `isError`, with the result and new error `IsErrorFacts` describes |
| `Driver.Ble.ApPostError` | BLE/src/BLE.cpp:1359-1364 | stores the status, then posts the error tag; nothing else changes |
| `Driver.Ble.ApEventPend` | BLE/src/BLE.cpp:1331-1357 | in-place `apEventPend`, with the result and new link state of the `EventWait` lemmas above |
| `Driver.Ble.TerminateConn` | BLE/src/BLE.cpp:285-296 | the guarded termination request on the current handle, as `Bridge.PreconditionsShortCircuit`/`GuardedRequestsOutcome` state |
| `Driver.Ble.StopAdvert` | BLE/src/BLE.cpp:384-395 | the guarded disable request |
| `Driver.Ble.SetConnParams` | BLE/src/BLE.cpp:499-514 | the guarded parameter-update request |
| `Driver.Ble.SetSingleConnParam` | BLE/src/BLE.cpp:516-550 | `setConnParams` with `Bridge.SingleParamRequest` of the current handle and parameters |
| `Driver.Ble.UseWhiteListPolicy` | BLE/src/BLE.cpp:874-884 | the white-list request and its confirmation |
| `Driver.Ble.HciCommand` | BLE/src/BLE.cpp:481-494 | in-place `hciCommand`, with the result and new state `Bridge.HciCommandOutcome` describes |
| `Driver.Ble.TestCommand` | BLE/src/BLE.cpp:906-916 | in-place `testCommand`, with the result and new state `Bridge.TestCommandOutcome` describes |
| `Driver.Ble.SetAdvertData` | BLE/src/BLE.cpp:397-415 | updates the slot array and the released list in place as `Advert.SetAdvertDataReplacesSlot` states, and keeps every slot invariant |
| `Driver.Ble.StoreSlotOf` | BLE/src/BLE.cpp:408-413 | frees the slot's previous buffer unless it is the default, then stores the new one in the slot array, keeping every slot invariant |
| `Driver.Ble.AdvertDataInit` | BLE/src/BLE.cpp:331-345 | the slot loop, with the outcome `Advert.InitFillsOnlyEmptySlots` states |
| `Driver.Ble.InitSlot` | BLE/src/BLE.cpp:335-342 | one pass of the slot loop: an empty slot with a non-empty default gets it through `setAdvertData` and `isError`; false exactly when the loop stops |
| `Driver.Ble.StartAdvert` | BLE/src/BLE.cpp:347-382 | the guard, slot initialisation through `isError`, then the enable request, as `Bridge.StartAdvertOutcome` states |
| `Driver.Ble.SetAdvertName` | BLE/src/BLE.cpp:422-437 | hands the rebuilt scan response (`Advert.ScanRspWithNameLayout`) to `setAdvertData` |
| `Driver.Ble.WriteNotifInd` | BLE/src/BLE.cpp:560-601 | the do-while loop over the stored value: nothing for a zero CCCD, otherwise the delivery the `Chunking` lemmas describe |
| `Driver.Ble.SendValue` | BLE/src/BLE.cpp:579-599 | the do-while loop with its `sent` offset, producing the outcome of `Chunking.Deliver` (see `Chunking.DeliverSendsPrefix`, `Chunking.DeliverAttempts`) |
| `Driver.Ble.SendPieceOn` | BLE/src/BLE.cpp:584-597 | one pass: the piece through the transport and `isError`, then the confirmation wait when indicating (see `Chunking.SendPieceTrace`) |
| `Driver.Ble.ReadValueValidateSize` | BLE/src/BLE.cpp:675-690 | success if and only if the stored length is the size; otherwise BLE_CHECK_ERROR with BLE_UNDEFINED_VALUE stored |
| `Driver.Ble.ReadIntegral` | BLE/src/BLE.cpp:702-760 | for the right size, the value whose memory image is the stored bytes, with `ble.error` BLE_SUCCESS; otherwise 0 with `ble.error` BLE_CHECK_ERROR |
| `Driver.Ble.ReadValueBool` | BLE/src/BLE.cpp:692-700 | true if and only if the value is one non-zero byte; error as for the integral reads |
| `Driver.Ble.ReadValueCharArr` | BLE/src/BLE.cpp:792-808 | the buffer made a C string in place, as `Values.TerminatedIsCString` states, the stored length unchanged |
| `Driver.Ble.AsyncCB` | BLE/src/BLE.cpp:1077-1213 | the new shared state is the one the `Dispatch` lemmas on responses describe |
| `Driver.Ble.DeviceResponse` | BLE/src/BLE.cpp:1092-1124 | HCI and test responses: opcode recorded, payload published, tag posted and the copy awaited, or the error posted (`Dispatch.HciAndUnknownResponses`) |
| `Driver.Ble.ProcessSnpEvent` | BLE/src/BLE.cpp:1215-1325 | the new shared state is the one the `Dispatch` lemmas on events describe |
| `Driver.Ble.ConnectionEvent` | BLE/src/BLE.cpp:1219-1261 | connection established, terminated and parameters updated, as `Dispatch.ConnEstablishedSetsConnection`, `Dispatch.TerminationClearsOnlyConnected` and `Dispatch.ParamUpdateOverwrites` state |
| `Driver.Ble.AdvertisingEvent` | BLE/src/BLE.cpp:1262-1288 | advertising started and ended, as `Dispatch.AdvertEventsSetFlag` states |
| `Driver.Ble.SecurityEvent` | BLE/src/BLE.cpp:1296-1315 | the security state stored and confirmed; the authentication event stored and its tag posted |
| `Driver.Ble.HandleAuthKey` | BLE/src/BLE.cpp:1002-1026 | the passkey step of `Pairing.PasskeyBelowMillion` |
| `Driver.Ble.HandleEvents` | BLE/src/BLE.cpp:966-1000 | the poll and the pairing steps of the `Pairing` lemmas |
| `Driver.Ble.AuthEvent` | BLE/src/BLE.cpp:970-985 | a comparison only prompts; a passkey display runs `handleAuthKey` through `isError` (`Pairing.PasskeyEventSendsKey`) |
| `Driver.Ble.NumCmpInterrupt1` | BLE/src/BLE.cpp:1060-1064 | stores answer 1 and posts the button tag |
| `Driver.Ble.NumCmpInterrupt2` | BLE/src/BLE.cpp:1066-1070 | stores answer 0 and posts the button tag |
| `Driver.Ble.ResetPublicMembers` | BLE/src/BLE.cpp:272-283 | error BLE_SUCCESS, opcode 0, zero parameters and address, answer 0, transfer size 20; connection state and posted tags untouched |
| `Driver.Ble.End` | BLE/src/BLE.cpp:251-270 | every slot emptied without releasing its buffer, public members reset, no payload, zeroed event data, handle 0xFFFF, flags cleared |

## Findings

| source | as written | input that shows it | evidently intended | confidence | as-written member | corrected member |
|---|---|---|---|---|---|---|
| BLE/src/BLE.cpp:794-800 | `readValue_charArr` reads `_value[len - 1]` without checking `len` | a characteristic with an empty value (`_valueLen == 0`) reads the byte before the buffer | an empty value reads as the empty string | high, not executed | `Values.TerminateAsWritten` (`Values.EmptyValueReadsOutside`) | `Values.Terminated` (`Values.TerminatedIsCString`), used by `Driver.Ble.ReadValueCharArr` |

## Left out

- `begin()`, and the event creation and deletion, transport close, service
  clearing, serial flush and log reset in `end()`. These are platform set-up
  and teardown. `Driver.Ble.End` models only the state it resets, and it
  keeps the posted tags.
- Real blocking and timeouts are not modelled. Each wait is decided by its
  `Arrival` input, and an empty observation stands for the timeout.
- The callbacks running in the middle of an application operation are not
  modelled. Interleavings are represented only through the arrivals each
  wait receives. A field the other context changes during a wait (such as
  `ble.mtu` during `writeNotifInd`) keeps its value in the model.
- Debug pins, logging, printing, the display callbacks, and `handleNumCmp`'s
  prompt are output only. `pinMode`, `attachInterrupt` and `detachInterrupt`
  are not modelled.
- `getRand` is not modelled. Its value is the `rand` parameter.
- The `float` and `double` reads and writes are not modelled: the model has
  no floating point.
- The `writeValue` overloads (`BLE/src/BLE.cpp:603-673`) and
  `apCharWriteValue` are not modelled. They forward to `BLE_charWriteValue`,
  which stores the value in the service list, then call `writeNotifInd`.
  The service list is not part of this model.
- `BLE_resetCCCD`, called on termination, belongs to the service list, which
  is not part of this model.
- The thin passthroughs to the transport library are not modelled:
  `setGattParam`, `getGattParam`, `setGapParam`, `getGapParam`,
  `setSecurityParam` and its wrappers, `getRevision`, `getStatus`,
  `addService`.
- `Driver.Ble.HciCommand` returns the copied response record rather than its
  payload pointer, because memory is not modelled.
- The `BLESerial` stream methods are not modelled.
- `malloc`, `free` and `realloc` are not modelled as memory. A released
  buffer is only appended to `released`, and a heap buffer is a value.
- `Driver.Ble.SetAdvertData` does not model an advertisement type without a
  slot after a successful request. The code indexes the slot array with
  BLE_INVALID_PARAMETERS there, relying on the transport to have rejected
  the type. The model leaves the slots unchanged.
- `Driver.Ble.SetAdvertName` requires a name of at most 255 bytes with no NUL
  in it, because the length parameter is a `uint8_t` and `strcpy` stops at
  the first NUL. The rebuilt buffer is a value: for names over 244 bytes the
  code writes past its allocation, and the model does not capture that
  overflow (`Advert.LongNameWrapsSize` shows the size wrap).
- `Driver.Ble.WriteNotifInd` requires, for a non-zero CCCD and a non-empty
  value, `ble.mtu > 0`, because with 0 (an ATT MTU of 3, below the minimum of
  23 that the Bluetooth Core Specification sets) every piece is empty and
  the loop never ends. For a non-zero CCCD it also requires a value of at
  most 0xFFFF bytes, because the `uint16_t` counter `sent` would wrap.
- `Driver.Ble.HandleEvents` keeps `opcode` as an unbounded number. The
  button tag is bit 16, which a 16-bit `opcode` would lose; `BLE.h` is not
  part of this model.
- The status codes are not numbers: `BLE.h` and the SNP headers are not part
  of this model.
