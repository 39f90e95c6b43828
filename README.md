# cafehub gateway core, modelled in Dafny

cafehub is a gateway. Over a WebSocket it accepts JSON requests: scan, connect,
disconnect, read, write and set-notify. It performs them on Bluetooth Low
Energy (BLE) devices, through Bleak on the desktop or through the Android
Bluetooth stack, and sends back responses and unsolicited updates. This
project models the gateway's core and proves properties of the model:

- **The operation queue** (`ble/bleops.py`). Each device has a `QOpManager`.
  It holds a deque of pending operations and a counting semaphore that tracks
  the deque's depth.
  - FIFO adds go on the left and LIFO adds on the right.
  - `doNextOp` pops from the right once the `OpDone` event is set.
  - `cancelQ` cancels everything pending.
  - `wrap_into_QOp` turns a queued operation into a blocking call.
  - Modules: `BleOps`, `Channels`.
- **The Android event bridge**, in its typed form
  (`src/ble/android/pybluetoothgattcallback.py`) and its earlier string form
  (`ble/android/pybluetoothgattcallback.py`). Each native callback converts
  its arguments, appends one tuple on the left of a deque and raises that
  deque's semaphore. The consumer takes the oldest tuple from the right.
  - Modules: `AndroidGattCallback`, `LegacyGattCallback`, `GattTypes`,
    `PyBytes`.
- **The Android GATT session** (`ble/android/gattclient.py`). It covers the
  bodies that connect, discover services, read and write, as the queue runs
  them. Module: `AndroidGattClient`.
- **The BLE front ends** (`src/ble/bleak/ble.py`, `src/ble/android/ble.py`,
  `ble/android/ble.py`). Each keeps a per-MAC registry of GATT clients, a
  lazily made scan tool and the capability answers. The two current ones also
  have a disconnect-all pass, run on stop.
  - Modules: `BleakBle`, `AndroidBle`, `LegacyAndroidBle`, `ClientRegistry`.
- **The scan tools** (`ble/bleak/blescanner.py`, `ble/android/blescanner.py`).
  The scan callback queues entries. The tool drains them into a dict of the
  current scan, keyed by MAC. A new scan carries that dict over into the dict
  of previous results.
  - Modules: `BleakScanner`, `AndroidScanner`, `ScanResults`.
- **The WebSocket protocol**.
  - `wsserver/jsondesc.py` validates requests and responses and builds the
    messages (module `JsonDesc`).
  - `src/wsserver/server.py` handles client admission: one connection at a
    time, with BLE disconnected when the last client leaves. It also
    dispatches requests to handlers and reports escaped exceptions as
    `ExecutionError` updates (module `WsServer`).
  - The test client's request-ID generator comes from
    `tests/testwsinterface.py` (module `IdManager`).
- **The exception hierarchy**, current and earlier, with the EIDs sent on
  the wire: modules `BleExceptions` and `LegacyExceptions`.
- **The HTTP range server** (`src/httpserver/httpserver.py`):
  - parsing of the `Range` header;
  - the status line and headers of a ranged response;
  - the chunked copy of the byte range;
  - mapping a URL path into the served directory.

  Modules: `HttpServer`, `Decimal`.

Python semantics are modelled where the code relies on them:

- An operation that may raise returns
  `Outcome<T, PyException> = Returned(v) | Raised(e)`. A `PyException`
  records the class and the message.
- `len`, `in`, indexing, `== 0` and `isinstance(x, int)` on JSON values are
  written out in `JsonDesc`. For example, `True == 1` and `0.0 == 0`.
- Dicts are `map`s, and their insertion order is kept in a `seq` where the
  code iterates over them.
- Deques are `seq`s whose index 0 is the left end. Counting semaphores are
  integers.
- A wait on an event or a semaphore is a precondition, or else the delivered
  value is passed in.
- Clocks are integers supplied by the caller. Answers from native code are
  parameters:
  - whether Android issued an operation;
  - whether `getDefaultAdapter()` gave an adapter, which decides whether an
    Android front end can be made at all;
  - the adapter's enabled flag;
  - what `is_connected` and `disconnect` raise.

## Model

| member | source | states |
|---|---|---|
| BleOps.GetResult | ble/bleops.py:20-30 | getResult's three outcomes, stated by the lemmas below. |
| BleOps.Capture | ble/bleops.py:56-76 | The OpResult built from a body's outcome holds exactly one of an exception and a result. |
| BleOps.ExceptionWins | ble/bleops.py:20-30 | A stored exception is raised even when a result is also stored. |
| BleOps.EmptyResultIsNone | ble/bleops.py:20-30 | An OpResult with nothing stored yields None. |
| BleOps.CaptureRoundTrip | ble/bleops.py:20-30 | getResult of a captured outcome gives back the body's return value, or raises its exception. |
| BleOps.NewQOp | ble/bleops.py:40-54 | The constructor succeeds exactly when the `callback` keyword is given, and keeps the body and the callback. A missing keyword raises KeyError. |
| BleOps.CallbackEvents | ble/bleops.py:56-95 | The callback is invoked at most once, and exactly when it is callable. |
| BleOps.Fifos | ble/bleops.py:177-183 | A series of FIFO adds has one add per op. |
| BleOps.Lifos | ble/bleops.py:186-191 | A series of LIFO adds has one add per op. |
| BleOps.ReverseAppend | ble/bleops.py:186-191 | Reversal turns concatenation around: the order reasoning for LIFO adds. |
| BleOps.ReverseLength | ble/bleops.py:186-191 | Reversal keeps the length. |
| BleOps.ApplyAllLength | ble/bleops.py:177-191 | Every add lengthens the deque by one, so the semaphore count matches the deque length. |
| BleOps.ApplyAllSnoc | ble/bleops.py:177-191 | Adding one more op after a series of adds is applying that op last. |
| BleOps.ApplyAllConcat | ble/bleops.py:177-191 | Applying two series of adds one after the other is applying their concatenation. |
| BleOps.FifoLast | ble/bleops.py:177-210 | A FIFO add is taken after every op already pending. |
| BleOps.FifoOrder | ble/bleops.py:177-210 | FIFO adds are taken after everything already pending, in the order they were added. |
| BleOps.FifosUnfold | ble/bleops.py:177-183 | A series of FIFO adds is its first add followed by the rest. |
| BleOps.LifoFirst | ble/bleops.py:186-210 | A LIFO add is taken before every op already pending. |
| BleOps.LifoOrder | ble/bleops.py:186-210 | LIFO adds are taken most recent first, all before the ops already pending. |
| BleOps.PopOrder | ble/bleops.py:203-210 | The pop order lists every pending op. |
| BleOps.PopOrderPop | ble/bleops.py:203-210 | The rightmost op is the first in pop order, and popping it leaves the rest of that order. |
| BleOps.RunAll | ble/bleops.py:203-210 | Successive doNextOp calls that never sleep take one op per call. |
| BleOps.RunAllStep | ble/bleops.py:203-210 | A call that does not sleep found an op pending, took the rightmost, and the later calls run on the deque its body leaves. |
| BleOps.RunAllPopOrder | ble/bleops.py:177-210 | With bodies that add nothing, k calls never sleep exactly when k ops are pending. They then take the first k ops of the pop order and leave the rest of it. |
| BleOps.RunEventsSnoc | ble/bleops.py:203-210 | One more round appends that round's events to the log. |
| BleOps.RanStep | ble/bleops.py:234-240 | One round of the executor loop adds the op it took to those taken, and the rest of the run continues from the deque it leaves. |
| BleOps.RanStepEvents | ble/bleops.py:234-240 | One round of the executor loop appends its doNextOp events to the loop's log. |
| BleOps.CancelledConcat | ble/bleops.py:78-95 | The cancelled ops of a concatenated log are those of its parts, in order. |
| BleOps.RanConcat | ble/bleops.py:56-76 | The ops that ran in a concatenated log are those of its parts, in order. |
| BleOps.OneCancelEvents | ble/bleops.py:78-95 | Cancelling one op shows it as cancelled once and runs nothing. |
| BleOps.CancelEachOnce | ble/bleops.py:159-174 | cancelQ's log cancels each pending op exactly once, in deque order, and runs none of them. |
| BleOps.CancelEventsSnoc | ble/bleops.py:159-174 | The log of cancelQ grows by one op's cancel events per step. |
| BleOps.AllEnqueuesSnoc | ble/bleops.py:159-174 | The adds made by the cancelled bodies accumulate in the order the bodies run. |
| BleOps.CancelStep | ble/bleops.py:159-174 | One iteration of cancelQ: how the new deque, its length and the log grow. |
| BleOps.QOpManager.constructor | ble/bleops.py:142-149 | A new manager has an empty deque, a zero count and OpDone set. |
| BleOps.QOpManager.AddFIFOOp | ble/bleops.py:177-183 | The op goes on the left and the count rises by one; nothing else changes. |
| BleOps.QOpManager.AddLIFOOp | ble/bleops.py:186-191 | The op goes on the right and the count rises by one; nothing else changes. |
| BleOps.QOpManager.ApplyEnqueues | ble/bleops.py:177-191 | The adds a running body makes, applied in order, each raising the count. |
| BleOps.QOpManager.SignalOpIsDone | ble/bleops.py:193-198 | OpDone is set and logged; the deque and the count are unchanged. |
| BleOps.QOpManager.Do | ble/bleops.py:56-76 | do(): runs the body without a reason, captures its outcome, applies its own adds, sets OpDone, then calls the callback if it is callable. |
| BleOps.QOpManager.Cancel | ble/bleops.py:78-95 | cancel(): as do(), but the body is passed the reason and logged as cancelled. |
| BleOps.QOpManager.DoNextOp | ble/bleops.py:203-210 | Clears OpDone, pops the rightmost op and runs it. That op is the first in pop order, and when its body adds nothing the rest of the pop order is left. The remaining deque gains the body's adds, and the count invariant is kept. |
| BleOps.QOpManager.RunOps | ble/bleops.py:234-240 | Rounds of the executor loop, each running doNextOp to completion, take and leave exactly what RunAll says and log each round's events. When the bodies add nothing, they take the first k ops of the pop order and leave the rest of it. |
| BleOps.QOpManager.RunNext | ble/bleops.py:234-240 | One round of the executor loop carries the loop's state one op further. |
| BleOps.QOpManager.CancelQ | ble/bleops.py:159-174 | Corrected cancelQ. It returns the old deque and cancels each of its ops once, in order. The new deque holds exactly the adds the bodies made. The count invariant is kept, and OpDone is set if anything was cancelled. |
| BleOps.QOpManager.CancelNext | ble/bleops.py:162-172 | One iteration of cancelQ carries its loop state forward. |
| BleOps.QOpManager.CancelQAsWritten | ble/bleops.py:159-174 | cancelQ as written. It empties the deque, but raises TypeError whenever an op was pending. The count is not lowered, so the count invariant breaks. |
| BleOps.QOpManager.WrapIntoQOp | ble/bleops.py:334-367 | Enqueues exactly one FIFO op. It returns getResult of the delivered OpResult, or raises BLEOperationTimedOut with its message when nothing is delivered. |
| BleOps.Scenario | ble/bleops.py:177-210 | After two FIFO adds and a LIFO add, the LIFO op runs first, then the FIFO ops in order. |
| Channels.PostThenPop | src/ble/android/pybluetoothgattcallback.py:76-82 | The oldest element is the first posted, and posting commutes with dropping the oldest. |
| Channels.DrainPost | src/ble/android/pybluetoothgattcallback.py:76-82 | A posted element is taken after everything already waiting. |
| Channels.ChannelIsFifo | src/ble/android/pybluetoothgattcallback.py:76-82 | The bridge's deques deliver in posting order. |
| Channels.PostAllLength | src/ble/android/pybluetoothgattcallback.py:76-82 | Each post lengthens the deque by one. |
| GattTypes.ValuesAndNamesDistinct | src/ble/gattclientinterface.py:12-18 | No two client states share a value or a name. |
| PyBytes.ByteArray | src/ble/android/pybluetoothgattcallback.py:102-108 | bytearray(v) succeeds exactly when every element lies in 0..255, and then keeps every element. |
| PyBytes.Ints | src/ble/android/pybluetoothgattcallback.py:102-108 | Bytes read back as the same integers. |
| PyBytes.ByteArrayOfBytes | src/ble/android/pybluetoothgattcallback.py:102-108 | Converting bytes to integers and back gives the bytes. |
| AndroidGattCallback.StatusFromIntInverse | src/ble/android/pybluetoothgattcallback.py:12-22 | AndroidGATTStatus(i) yields a member exactly when i is that member's value. |
| AndroidGattCallback.StatusFromIntDomain | src/ble/android/pybluetoothgattcallback.py:12-22 | The conversion accepts exactly the ten listed codes. |
| AndroidGattCallback.StatusUnique | src/ble/android/pybluetoothgattcallback.py:12-22 | `@enum.unique`: values and names are pairwise distinct. |
| AndroidGattCallback.ConnStateFromIntInverse | src/ble/android/pybluetoothgattcallback.py:39-43 | AndroidConnState(i) yields a member exactly when i is its value, 0..3. |
| AndroidGattCallback.AsGATTCStateSameName | src/ble/android/pybluetoothgattcallback.py:24-46 | Each Android state maps to the client state of the same name, never INIT or CANCELLED. |
| AndroidGattCallback.AsGATTCStateInjective | src/ble/android/pybluetoothgattcallback.py:39-46 | Distinct Android states map to distinct client states. |
| AndroidGattCallback.PyBluetoothGattCallback.constructor | src/ble/android/pybluetoothgattcallback.py:63-82 | All seven semaphores start at 0 and all seven deques start empty. |
| AndroidGattCallback.PyBluetoothGattCallback.OnConnectionStateChange | src/ble/android/pybluetoothgattcallback.py:85-92 | An unknown status or state raises ValueError and changes nothing. Otherwise the typed tuple is posted and its semaphore raised. |
| AndroidGattCallback.PyBluetoothGattCallback.OnServicesDiscovered | src/ble/android/pybluetoothgattcallback.py:94-100 | The same, for the status alone. |
| AndroidGattCallback.PyBluetoothGattCallback.OnCharacteristicChanged | src/ble/android/pybluetoothgattcallback.py:102-108 | A value outside 0..255 raises and changes nothing. Otherwise (uuid, bytearray) is posted. |
| AndroidGattCallback.PyBluetoothGattCallback.OnCharacteristicRead | src/ble/android/pybluetoothgattcallback.py:110-117 | The status is checked first, then the value; on success the typed tuple is posted. |
| AndroidGattCallback.PyBluetoothGattCallback.OnCharacteristicWrite | src/ble/android/pybluetoothgattcallback.py:119-125 | An unknown status raises; otherwise (uuid, status) is posted. |
| AndroidGattCallback.PyBluetoothGattCallback.OnDescriptorRead | src/ble/android/pybluetoothgattcallback.py:127-134 | As the characteristic read, on the descriptor channel. |
| AndroidGattCallback.PyBluetoothGattCallback.OnDescriptorWrite | src/ble/android/pybluetoothgattcallback.py:136-142 | As the characteristic write, on the descriptor channel. |
| LegacyGattCallback.ConvertStatusAgreesWithEnum | ble/android/pybluetoothgattcallback.py:67-71 | A known code gets the typed enum's name, and every other code gets "UnknownGATTStatus". |
| LegacyGattCallback.ConvertStatusInjective | ble/android/pybluetoothgattcallback.py:67-71 | Distinct known codes get distinct names. |
| LegacyGattCallback.ConvertConnStateAgreesWithEnum | ble/android/pybluetoothgattcallback.py:73-77 | 0..3 get the STATE_* names and every other code gets "UnknownConnState". |
| LegacyGattCallback.ConvertConnStateInjective | ble/android/pybluetoothgattcallback.py:73-77 | Distinct known states get distinct names. |
| LegacyGattCallback.PyBluetoothGattCallback.constructor | ble/android/pybluetoothgattcallback.py:48-65 | Semaphores start at 0 and deques start empty. |
| LegacyGattCallback.PyBluetoothGattCallback.OnConnectionStateChange | ble/android/pybluetoothgattcallback.py:80-87 | Posts the two converted strings and raises the semaphore; it never fails. |
| LegacyGattCallback.PyBluetoothGattCallback.OnServicesDiscovered | ble/android/pybluetoothgattcallback.py:89-95 | Posts the converted status. |
| LegacyGattCallback.PyBluetoothGattCallback.OnCharacteristicChanged | ble/android/pybluetoothgattcallback.py:97-103 | A value outside 0..255 raises and changes nothing; otherwise (uuid, bytearray) is posted. |
| LegacyGattCallback.PyBluetoothGattCallback.OnCharacteristicRead | ble/android/pybluetoothgattcallback.py:105-112 | The same, with the converted status. |
| LegacyGattCallback.PyBluetoothGattCallback.OnCharacteristicWrite | ble/android/pybluetoothgattcallback.py:114-120 | Posts (uuid, converted status). |
| LegacyGattCallback.PyBluetoothGattCallback.OnDescriptorRead | ble/android/pybluetoothgattcallback.py:122-128 | Posts the value unconverted; it never fails. |
| LegacyGattCallback.PyBluetoothGattCallback.OnDescriptorWrite | ble/android/pybluetoothgattcallback.py:130-136 | Posts (uuid, converted status). |
| AndroidGattClient.NativeCharacteristic.constructor | ble/android/gattclient.py:92-95 | A characteristic handle starts with its UUID and an empty value. |
| AndroidGattClient.MapOfSpec | ble/android/gattclient.py:91-96 | The map's keys are exactly the UUIDs discovered, each mapped to the last handle with that UUID. |
| AndroidGattClient.FlattenContains | ble/android/gattclient.py:91-96 | Every characteristic of every service is visited. |
| AndroidGattClient.EveryDiscoveredCharacteristicIsMapped | ble/android/gattclient.py:91-96 | Every discovered characteristic's UUID is a key of the map. |
| AndroidGattClient.GATTClient.constructor | ble/android/gattclient.py:36-61 | A new session: state INIT, timeout 30, no native GATT handle and no characteristics yet. Its bridge is fresh. |
| AndroidGattClient.GATTClient.BuildCharacteristics | ble/android/gattclient.py:91-96 | The nested loops build exactly MapOf over the flattened services. |
| AndroidGattClient.GATTClient.AwaitConnectionStateChange | ble/android/gattclient.py:78-80 | The delivered event is posted and the oldest one is taken. |
| AndroidGattClient.GATTClient.AwaitServicesDiscovered | ble/android/gattclient.py:88-90 | The same for the services-discovered channel. |
| AndroidGattClient.GATTClient.Connect | ble/android/gattclient.py:65-100 | With a reason, it returns CANCELLED and touches nothing. Otherwise it connects. Services are discovered only the first time, and a refused discovery raises BLECouldntDiscoverServices. The oldest connection event is returned. |
| AndroidGattClient.GATTClient.CharRead | ble/android/gattclient.py:105-124 | It returns None when cancelled. It raises when there are no characteristics yet, or KeyError for an unknown UUID, and BLEOperationNotIssued when Android refuses. Otherwise it returns the oldest read event. |
| AndroidGattClient.GATTClient.CharWrite | ble/android/gattclient.py:126-149 | As CharRead. The handle's value is set before the write is issued, and no other handle changes. |
| AndroidGattClient.GATTClient.CallbackCharRead | ble/android/gattclient.py:199-206 | Queues exactly one FIFO read op with the converted callback. |
| AndroidGattClient.GATTClient.CallbackCharWrite | ble/android/gattclient.py:208-215 | Queues exactly one FIFO write op with the converted callback. |
| AndroidGattClient.DisconnectRun | ble/android/gattclient.py:102-103 | The queued `_disconnect` always fails with TypeError, having queued nothing. |
| AndroidGattClient.DisconnectAlwaysFails | ble/android/gattclient.py:102-103 | disconnect() therefore always re-raises that TypeError. |
| AndroidGattClient.FreshConnectReturnsItsEvent | ble/android/gattclient.py:71-80 | With no stale event pending, connect returns the event Android delivered for it. |
| BleExceptions.LeafEidsAreSmall | src/ble/bleexceptions.py:2-33 | The leaf classes are exactly those with EIDs 1..8. |
| BleExceptions.EidsDistinct | src/ble/bleexceptions.py:2-33 | No two classes share an EID. |
| BleExceptions.BLEExceptionMembers | src/ble/bleexceptions.py:2-33 | `except BLEException` catches every class of the hierarchy except UnknownException. |
| BleExceptions.HierarchyShape | src/ble/bleexceptions.py:2-33 | The grouping classes contain the leaves. |
| LegacyExceptions.EidsDefinedAndDistinct | ble/bleexceptions.py:1-36 | Only the two grouping classes lack an EID; the others have distinct EIDs 1..6. |
| LegacyExceptions.AgreesWithCurrent | ble/bleexceptions.py:1-36 | Every earlier EID and base class survives unchanged in the current hierarchy. |
| ClientRegistry.Empty | src/ble/bleak/ble.py:33 | The empty registry is valid. |
| ClientRegistry.GetClientValid | src/ble/bleak/ble.py:138-144 | A lookup keeps the registry valid and registers the MAC under the client it returns. |
| ClientRegistry.GetClientStable | src/ble/bleak/ble.py:138-144 | Asking again for the same MAC returns the same client and changes nothing. |
| ClientRegistry.GetClientMakesOnlyForNewMac | src/ble/bleak/ble.py:138-144 | Only an unknown MAC makes an executor, and an existing client is returned as is. |
| ClientRegistry.NewMacNewClient | src/ble/bleak/ble.py:138-144 | A new MAC gets a client that no other MAC has. |
| ClientRegistry.Connected | src/ble/bleak/ble.py:111-121 | A MAC is in the result exactly when it is one of the clients and its is_connected answered True. |
| ClientRegistry.PassDisconnectsConnected | src/ble/bleak/ble.py:111-121 | A disconnect-all pass visits a prefix of the clients, all of them when nothing escapes. disconnect is called on exactly the connected clients of that prefix, in order, so only on a connected client. The same holds for src/ble/android/ble.py:163-178. |
| ClientRegistry.RaisedPassStops | src/ble/android/ble.py:163-178 | Once an exception escapes the pass, the remaining clients are not visited. The same holds for src/ble/bleak/ble.py:111-121. |
| BleakBle.DisconnectSwallowsBLE | src/ble/bleak/ble.py:111-121 | When every failure is a BLEException, the pass finishes and disconnects exactly the connected clients, in order. |
| BleakBle.DisconnectEscapesNonBLE | src/ble/bleak/ble.py:111-121 | What escapes the pass is never a BLEException. |
| BleakBle.BLE.constructor | src/ble/bleak/ble.py:23-33 | No clients, no scan tool, no disconnects. |
| BleakBle.BLE.SetScanTool | src/ble/bleak/ble.py:43 | The given tool replaces whatever tool there was. |
| BleakBle.BLE.IsBLESupported | src/ble/bleak/ble.py:60-63 | Always true. |
| BleakBle.BLE.IsEnabled | src/ble/bleak/ble.py:65-69 | Always true. |
| BleakBle.BLE.RequestBLEEnableIfRequired | src/ble/bleak/ble.py:83 | Always true. |
| BleakBle.BLE.GetBLEScanTool | src/ble/bleak/ble.py:90-94 | Always a tool: the existing one, or a new default one made once. |
| BleakBle.BLE.GetGATTClient | src/ble/bleak/ble.py:138-144 | Exactly the registry lookup; the tool and the disconnects are unchanged. |
| BleakBle.BLE.DisconnectAllClients | src/ble/bleak/ble.py:111-121 | Returns the pass's outcome and records its disconnect calls; the registry is unchanged. |
| BleakBle.BLE.OnStop | src/ble/bleak/ble.py:55-58 | on_stop is exactly a disconnect-all pass. |
| AndroidBle.DisconnectSwallowsAll | src/ble/android/ble.py:163-178 | When is_connected never raises, the pass finishes whatever disconnect raises, and disconnects exactly the connected clients. |
| AndroidBle.DisconnectEscapesFromIsConnected | src/ble/android/ble.py:163-178 | What escapes the pass is raised by some client's is_connected. |
| AndroidBle.BLE.constructor | src/ble/android/ble.py:34-46 | __init__ once there is an adapter: no clients, no tool, no requests, no disconnects. |
| AndroidBle.BLE.Create | src/ble/android/ble.py:34-46 | Without an adapter, `cancelDiscovery()` on None raises AttributeError and no object is made. With one, it gives a fresh valid object in the initial state. |
| AndroidBle.BLE.SetScanTool | src/ble/android/ble.py:54-62 | The given tool replaces whatever tool there was. |
| AndroidBle.BLE.IsBLESupported | src/ble/android/ble.py:79-81 | Always true: every object that exists has an adapter. |
| AndroidBle.BLE.IsEnabled | src/ble/android/ble.py:83-88 | True exactly when the adapter is enabled. |
| AndroidBle.BLE.RequestBLEEnableIfRequired | src/ble/android/ble.py:90-109 | A request is shown, and true returned, exactly when the adapter is disabled. |
| AndroidBle.BLE.GetBLEScanTool | src/ble/android/ble.py:111-122 | None exactly when the adapter is disabled; otherwise the existing tool, or a new default one. |
| AndroidBle.BLE.GetGATTClient | src/ble/android/ble.py:135-155 | Exactly the registry lookup; nothing else changes. |
| AndroidBle.BLE.DisconnectAllClients | src/ble/android/ble.py:163-178 | Returns the pass's outcome and records its disconnect calls. |
| AndroidBle.BLE.OnStop | src/ble/android/ble.py:74-77 | on_stop is exactly a disconnect-all pass. |
| LegacyAndroidBle.BLE.constructor | ble/android/ble.py:25-35 | __init__ once there is an adapter: no clients, no tool, no requests. |
| LegacyAndroidBle.BLE.Create | ble/android/ble.py:25-35 | Without an adapter, `cancelDiscovery()` on None raises AttributeError and no object is made. With one, it gives a fresh valid object in the initial state. |
| LegacyAndroidBle.BLE.SetScanTool | ble/android/ble.py:42-50 | The given tool replaces whatever tool there was. |
| LegacyAndroidBle.BLE.IsBLESupported | ble/android/ble.py:62-64 | Always true: every object that exists has an adapter. |
| LegacyAndroidBle.BLE.IsEnabled | ble/android/ble.py:66-71 | True exactly when the adapter is enabled. |
| LegacyAndroidBle.BLE.RequestBLEEnableIfRequired | ble/android/ble.py:73-92 | A request is shown, and true returned, exactly when the adapter is disabled. |
| LegacyAndroidBle.BLE.GetBLEScanTool | ble/android/ble.py:94-104 | None exactly when the adapter is disabled; otherwise the existing tool, or a new default one. |
| LegacyAndroidBle.BLE.GetGATTClient | ble/android/ble.py:115-135 | Exactly the registry lookup; nothing else changes. |
| ScanResults.DrainKeys | ble/bleak/blescanner.py:40-52 | After draining, the MACs present are those seen before plus those queued. |
| ScanResults.DrainLastWins | ble/bleak/blescanner.py:40-52 | For each MAC, the latest queued entry is the one stored. |
| ScanResults.DrainUntouched | ble/bleak/blescanner.py:40-52 | A MAC with no queued entry keeps what it had, or stays absent. |
| ScanResults.DrainConcat | ble/bleak/blescanner.py:40-52 | Draining in two goes is draining once. |
| BleakScanner.BLEScanTool.constructor | ble/bleak/blescanner.py:30-38 | Empty queue and dicts, start time now, not scanning. |
| BleakScanner.BLEScanTool.GetSeenEntries | ble/bleak/blescanner.py:40-52 | Empties the queue into Seen, oldest first, and returns Seen. |
| BleakScanner.BLEScanTool.StopScanning | ble/bleak/blescanner.py:54-55 | Only sets the stop request. |
| BleakScanner.BLEScanTool.IsScanning | ble/bleak/blescanner.py:57-58 | Returns the scanning flag. |
| BleakScanner.BLEScanTool.ScanTimeLeft | ble/bleak/blescanner.py:60-70 | The time left, never negative, and 0 once the scan is over. |
| BleakScanner.BLEScanTool.GetPreviousEntries | ble/bleak/blescanner.py:72-78 | Returns the previous results. |
| BleakScanner.BLEScanTool.AddEntry | ble/bleak/blescanner.py:80-88 | Queues the entry, and requests a stop once the duration is exceeded. |
| BleakScanner.BLEScanTool.ResetTimer | ble/bleak/blescanner.py:90-94 | Only the start time changes. |
| BleakScanner.BLEScanTool.CarryOverSeen | ble/bleak/blescanner.py:116-118 | Previous gains every entry of Seen, replacing one for the same MAC; nothing else changes. |
| BleakScanner.BLEScanTool.StartScan | ble/bleak/blescanner.py:96-122 | Raises BLEAlreadyScanning and changes nothing while a scan runs. Otherwise the previous results absorb the current ones, the current ones start empty, and the timer restarts. |
| AndroidScanner.BLEScanTool.constructor | ble/android/blescanner.py:27-33 | Empty queue and dicts, not scanning, no native scanner yet. |
| AndroidScanner.BLEScanTool.GetSeenEntries | ble/android/blescanner.py:35-46 | Empties the queue into Seen, oldest first, and returns Seen. |
| AndroidScanner.BLEScanTool.IsScanning | ble/android/blescanner.py:48-49 | Returns the scanning flag. |
| AndroidScanner.BLEScanTool.ScanTimeLeft | ble/android/blescanner.py:51-61 | The time left, never negative, and 0 once the scan is over. |
| AndroidScanner.BLEScanTool.GetPreviousEntries | ble/android/blescanner.py:63-69 | Returns the previous results. |
| AndroidScanner.BLEScanTool.AddEntry | ble/android/blescanner.py:71-81 | Queues the entry. Once the duration is exceeded it stops the native scan and ends the scan, or raises AttributeError if no scan was ever started. |
| AndroidScanner.BLEScanTool.ResetTimer | ble/android/blescanner.py:83-87 | Only the start time changes. |
| AndroidScanner.BLEScanTool.CarryOverSeen | ble/android/blescanner.py:98-100 | Previous gains every entry of Seen, replacing one for the same MAC. |
| AndroidScanner.BLEScanTool.StartScan | ble/android/blescanner.py:89-123 | Refused while scanning. Otherwise it carries over the results, empties Seen, and stops then restarts the native scan. |
| IdManager.NextId | tests/testwsinterface.py:13-22 | The next ID lies in 1..2^32-1: one more, wrapping from 2^32-1 back to 1. |
| IdManager.IdsCycle | tests/testwsinterface.py:13-22 | The IDs handed out run 1..2^32-1 and then repeat, so no ID recurs within a round. |
| IdManager.IDManager.constructor | tests/testwsinterface.py:13-22 | A new manager starts at 0. |
| IdManager.IDManager.GetId | tests/testwsinterface.py:13-22 | Returns the next ID and stores it. |
| Decimal.DigitChar | src/httpserver/httpserver.py:224-226 | A digit value's character is a digit that reads back as the value. |
| Decimal.Show | src/httpserver/httpserver.py:136-142 | `%d` of a natural number is a non-empty run of digits. |
| Decimal.ValueOfShow | src/httpserver/httpserver.py:224-226 | int() reads back what `%d` printed. |
| Decimal.ShowFirstDigit | src/httpserver/httpserver.py:224-226 | Only 0 is printed with a leading '0'. |
| HttpServer.DigitRun | src/httpserver/httpserver.py:221-222 | `\d+` matches the longest leading run of digits. |
| HttpServer.BytesRange | src/httpserver/httpserver.py:221-231 | There is never an end without a start. |
| HttpServer.GetRangeHeader | src/httpserver/httpserver.py:211-231 | A start exists only for a header beginning "bytes=", and there is never an end without a start. |
| HttpServer.RangeAfterPrefix | src/httpserver/httpserver.py:215-221 | A header beginning "bytes=" is read by its remainder. |
| HttpServer.DigitRunOfDigits | src/httpserver/httpserver.py:221-222 | A digit run stops where the digits do. |
| HttpServer.RangeOfParts | src/httpserver/httpserver.py:221-228 | Digits and then a dash give the start; the rest decides the end. |
| HttpServer.SecondBoundOfShow | src/httpserver/httpserver.py:225-228 | The end reads back what was printed. |
| HttpServer.ClosedRangeRoundTrip | src/httpserver/httpserver.py:211-231 | "bytes=A-B" followed by a non-digit reads back as (A, B). |
| HttpServer.OpenRangeRoundTrip | src/httpserver/httpserver.py:211-231 | "bytes=A-" followed by a non-digit reads back as (A, None). |
| HttpServer.NoLeadingDigitNoRange | src/httpserver/httpserver.py:230-231 | Without a digit right after "bytes=" (including the suffix form "-N") there is no range. |
| HttpServer.ClampedToSpec | src/httpserver/httpserver.py:133-142 | The served end always lies within the file, and a requested end inside the file is honoured. |
| HttpServer.HeadLinesSpec | src/httpserver/httpserver.py:125-145 | A ranged response is 206 with Content-Range and length 1+end-start. An unranged one is 200 with the file size. |
| HttpServer.SatisfiableRangeInsideFile | src/httpserver/httpserver.py:133-142 | A start not past the clamped end lies in the file, and the length is between 1 and what remains. |
| HttpServer.RangePastEndOfFile | src/httpserver/httpserver.py:125-145 | A start at or past the end still gets 206, with a non-positive length. |
| HttpServer.Window | src/httpserver/httpserver.py:53-79 | A read window's length is what remains of the file, up to n. |
| HttpServer.InFile.constructor | src/httpserver/httpserver.py:53-79 | A file opened at position 0 with no reads yet. |
| HttpServer.InFile.Seek | src/httpserver/httpserver.py:68 | seek moves the position only. |
| HttpServer.InFile.Read | src/httpserver/httpserver.py:74 | read(n) returns up to n bytes from the position and advances past them. |
| HttpServer.OutFile.constructor | src/httpserver/httpserver.py:53-79 | Nothing written yet. |
| HttpServer.OutFile.Write | src/httpserver/httpserver.py:77 | write appends its buffer. |
| HttpServer.BodyMatchesContentLength | src/httpserver/httpserver.py:133-142 | For a satisfiable range, the bytes copied equal the Content-Length sent. |
| HttpServer.CopyCountBounds | src/httpserver/httpserver.py:53-79 | Never more than the requested span, and nothing once the start lies past the end. |
| HttpServer.WindowGrows | src/httpserver/httpserver.py:72-78 | A read from where the last one ended extends the window by what it returned. |
| HttpServer.ChunkedStep | src/httpserver/httpserver.py:71-74 | Every read asks for between 1 byte and 64 KiB. |
| HttpServer.CopyRange | src/httpserver/httpserver.py:68-79 | The loop copies exactly min(span, bytes remaining) bytes: the file's bytes from the start, in reads of 64 KiB at most. |
| HttpServer.BeforeFirst | src/httpserver/httpserver.py:197-198 | `split(c, 1)[0]` is the longest prefix without c. |
| HttpServer.BeforeFirstSkip | src/httpserver/httpserver.py:197-198 | A prefix without c is kept whole. |
| HttpServer.SplitSlash | src/httpserver/httpserver.py:200 | split('/') gives at least one word, none containing '/'. |
| HttpServer.NonEmpty | src/httpserver/httpserver.py:201 | The filter keeps exactly the non-empty words. |
| HttpServer.Tail | src/httpserver/httpserver.py:205 | A word without '/' is its own tail. |
| HttpServer.Visible | src/httpserver/httpserver.py:206 | Kept words are never "." or "..". |
| HttpServer.JoinWordsShape | src/httpserver/httpserver.py:202-207 | The result is the directory followed by "/w" for each kept word. |
| HttpServer.JoinKeptWord | src/httpserver/httpserver.py:207 | Joining a word adds "/" and the word. |
| HttpServer.SlashedCons | src/httpserver/httpserver.py:202-207 | The "/w" form unfolds one word at a time. |
| HttpServer.JoinWordsUnder | src/httpserver/httpserver.py:202-207 | The loop never leaves the directory it starts from. |
| HttpServer.TranslatedUnder | src/httpserver/httpserver.py:193-207 | Whatever the request, the translated path begins with the served directory. |
| HttpServer.StripNothing | src/httpserver/httpserver.py:197-198 | A path without '?' or '#' is kept. |
| HttpServer.StripQuery | src/httpserver/httpserver.py:197-198 | The query string is dropped. |
| HttpServer.StripFragment | src/httpserver/httpserver.py:197-198 | The fragment is dropped. |
| HttpServer.QueryAndFragmentIgnored | src/httpserver/httpserver.py:193-207 | The query and the fragment play no part in the translation. |
| HttpServer.RangeRequestHandler.constructor | src/httpserver/httpserver.py:25-27 | No range and nothing sent yet. |
| HttpServer.RangeRequestHandler.ReadRange | src/httpserver/httpserver.py:29-43 | do_GET and do_HEAD store the parsed range. |
| HttpServer.RangeRequestHandler.HeadFor | src/httpserver/httpserver.py:125-145 | The status line and headers are sent one at a time, in order. |
| HttpServer.RangeRequestHandler.SendRangeHead | src/httpserver/httpserver.py:81-145 | A missing file gives 404. Otherwise the end is clamped, the ranged or plain head is sent, and the file is handed back. |
| HttpServer.RangeRequestHandler.CopyFileRange | src/httpserver/httpserver.py:53-79 | Raises for a missing file, start or end, and writes nothing then. Otherwise it returns the bytes copied and writes exactly the file's bytes from the start. |
| HttpServer.TranslatePath | src/httpserver/httpserver.py:193-207 | The loop computes the translation. |
| JsonDesc.Len | wsserver/jsondesc.py:125-141 | len() succeeds exactly on strings, bytes, lists and dicts, and is never negative. |
| JsonDesc.IsSubstring | wsserver/jsondesc.py:143-146 | A substring is never longer than the string. |
| JsonDesc.Index | wsserver/jsondesc.py:176-244 | `v[k]` succeeds exactly when v is a dict holding k, and yields its value. |
| JsonDesc.CheckExists | wsserver/jsondesc.py:143-146 | Passes exactly when every key is present; otherwise raises ParseException naming the first missing key. |
| JsonDesc.ParseTimeout | wsserver/jsondesc.py:250-253 | Accepts exactly an int or bool of at most 2**32. |
| JsonDesc.IndexAll | wsserver/jsondesc.py:176-244 | Every lookup succeeds exactly when every key is present. |
| JsonDesc.ParseReq | wsserver/jsondesc.py:176-244 | A successful parse hands the request back unchanged. |
| JsonDesc.ParseResp | wsserver/jsondesc.py:148-174 | A successful parse hands the response back unchanged. |
| JsonDesc.ParseObj | wsserver/jsondesc.py:125-141 | A successful parse hands the message back unchanged. |
| JsonDesc.CheckExistsDict | wsserver/jsondesc.py:143-146 | On a dict, the check passes exactly when every key is a field. |
| JsonDesc.IndexAllDict | wsserver/jsondesc.py:176-244 | On a dict, all lookups succeed exactly when every key is a field. |
| JsonDesc.IndexAllNonDict | wsserver/jsondesc.py:176-244 | On anything but a dict, a lookup fails. |
| JsonDesc.ParseParamsSpec | wsserver/jsondesc.py:195-244 | Each command's params check accepts exactly the well-formed params. |
| JsonDesc.ParseReqSpec | wsserver/jsondesc.py:176-244 | parse_req accepts exactly the well-formed requests: at most four fields, a known command, a non-zero id, good params. |
| JsonDesc.ErrorCheckSpec | wsserver/jsondesc.py:165-171 | The error check accepts exactly a dict of at most two fields holding eid and errmsg. |
| JsonDesc.ParseRespSpec | wsserver/jsondesc.py:148-174 | parse_resp accepts exactly the well-formed responses. |
| JsonDesc.ParseObjSpec | wsserver/jsondesc.py:125-141 | parse_obj accepts exactly the well-formed requests and responses, and returns them unchanged. |
| JsonDesc.AcceptedRequestFields | wsserver/jsondesc.py:176-244 | An accepted request has exactly the fields type, id, command and params. |
| JsonDesc.AcceptedResponseFields | wsserver/jsondesc.py:148-174 | An accepted response has exactly type, id, error and results, and never params. |
| JsonDesc.SubsetSmaller | wsserver/jsondesc.py:125-141 | A subset is no larger. |
| JsonDesc.SubsetOfSameSize | wsserver/jsondesc.py:125-141 | A subset of the same size is the whole set. |
| JsonDesc.MakeReq | wsserver/jsondesc.py:276-283 | The request has exactly the four fields, holding the given values. |
| JsonDesc.MakeError | wsserver/jsondesc.py:285-290 | The error has exactly eid and errmsg. |
| JsonDesc.MakeResp | wsserver/jsondesc.py:292-299 | The response has exactly the four fields, holding the given values. |
| JsonDesc.MakeUpdate | wsserver/jsondesc.py:301-308 | The update has exactly the four fields, holding the given values. |
| JsonDesc.Strs | wsserver/jsondesc.py:318-324 | Each string becomes a JSON string, in order. |
| JsonDesc.ParseObjOnDict | wsserver/jsondesc.py:125-141 | A small dict with a type goes to the request or response parser, or raises "Unknown type: ...". |
| JsonDesc.ParseReqOnHeader | wsserver/jsondesc.py:176-244 | With the header fields present, a zero id is refused first, then the params are checked. |
| JsonDesc.RequestSize | wsserver/jsondesc.py:276-283 | make_req builds four fields. |
| JsonDesc.MakeReqRoundTrip | wsserver/jsondesc.py:276-283 | A request built with a known command and good params is accepted unchanged exactly when its id is not zero. |
| JsonDesc.GATTReadRoundTrip | wsserver/jsondesc.py:346-353 | make_GATTRead is accepted unchanged exactly when its id is not zero. |
| JsonDesc.GATTWriteRoundTrip | wsserver/jsondesc.py:326-334 | make_GATTWrite is accepted unchanged exactly when its id is not zero. |
| JsonDesc.GATTConnectRoundTrip | wsserver/jsondesc.py:359-364 | make_GATTConnect is accepted unchanged exactly when its id is not zero. |
| JsonDesc.GATTDisconnectRoundTrip | wsserver/jsondesc.py:366-371 | make_GATTDisconnect is accepted unchanged exactly when its id is not zero. |
| JsonDesc.ScanRoundTrip | wsserver/jsondesc.py:310-316 | make_Scan is accepted exactly when its id is non-zero and its timeout at most 2**32. |
| JsonDesc.RespRoundTrip | wsserver/jsondesc.py:292-299 | A response around make_error is accepted exactly when its id is not zero. |
| JsonDesc.UpdatesRejected | wsserver/jsondesc.py:301-308 | parse_obj rejects every update. |
| JsonDesc.ServerUpdatesRejected | wsserver/jsondesc.py:318-391 | The server's own connection-state, scan-result and error updates are rejected as input. |
| JsonDesc.DisconnectWithoutMacMessage | wsserver/jsondesc.py:237-242 | A GATTDisconnect without MAC is refused with GATTConnect's message. |
| WsServer.ErrorUpdate | src/wsserver/server.py:62-73 | An ExecutionError update with the echoed id and the error. |
| WsServer.ErrorUpdateOfInt | wsserver/jsondesc.py:383-391 | With an integer id it is exactly make_execution_error's update. |
| WsServer.ReportedEidSpec | src/wsserver/server.py:62-73 | A BLEException is reported with its own EID, anything else with 1000; leaf EIDs are 1..8. |
| WsServer.CatchAndReport | src/wsserver/server.py:42-73 | A returning handler's result and messages pass unchanged. A raising one ends with exactly one error update. |
| WsServer.AfterJoin | src/wsserver/server.py:215-226 | The client is registered and new connections are denied. |
| WsServer.AfterLeft | src/wsserver/server.py:228-252 | The client is removed. Connections are allowed, and BLE disconnected, exactly when none remain. |
| WsServer.LeftTwice | src/wsserver/server.py:228-252 | A second leave changes no clients, but disconnects BLE again once idle. |
| WsServer.JoinThenLeave | src/wsserver/server.py:215-252 | The only client joining and leaving restores the idle server, with BLE disconnected once. |
| WsServer.LeaveWithOthersPresent | src/wsserver/server.py:238-249 | While another client remains, connections stay denied and BLE is left alone. |
| WsServer.HandlerOf | src/wsserver/server.py:288-305 | A handler exists exactly for the six commands. |
| WsServer.HandlerOfInjective | src/wsserver/server.py:288-305 | Each command reaches its own handler. |
| WsServer.LookupAll | src/wsserver/server.py:288-305 | All params are found exactly when each key is present, and are passed in order. |
| WsServer.ArgsRequired | src/wsserver/server.py:288-305 | A handler's params are among those the validator demanded. |
| WsServer.DispatchRequests | src/wsserver/server.py:284-307 | parseCommand succeeds exactly on accepted requests. It calls the command's handler with the request's id and params. |
| WsServer.DispatchRejectsResponses | src/wsserver/server.py:284-286 | An accepted response fails at `cmd['params']` with KeyError. |
| WsServer.DispatchPassesParseErrors | src/wsserver/server.py:284-285 | Whatever parse_obj rejects escapes with parse_obj's own exception. |
| WsServer.CallsOf | src/wsserver/server.py:288-305 | A dispatch calls at most one handler. |
| WsServer.SyncWSServer.constructor | src/wsserver/server.py:85-99 | No clients, accepting, nothing sent. |
| WsServer.SyncWSServer.AddConn | src/wsserver/server.py:101-102 | Adds the id. |
| WsServer.SyncWSServer.RemConn | src/wsserver/server.py:105-106 | Removes the id; removing an absent id is not an error. |
| WsServer.SyncWSServer.NewClient | src/wsserver/server.py:215-226 | Joins the client, keeping the admission invariant. |
| WsServer.SyncWSServer.ClientLeft | src/wsserver/server.py:228-252 | Removes the client, keeping the admission invariant. |
| WsServer.SyncWSServer.SendJSON | src/wsserver/server.py:312-327 | Appends the message to the client's outbox. |
| WsServer.SyncWSServer.RunHandler | src/wsserver/server.py:42-73 | Records the call and sends what the decorated handler sends. |
| WsServer.SyncWSServer.ParseCommand | src/wsserver/server.py:284-307 | Returns the message exactly when dispatch succeeds; otherwise raises dispatch's error. Records and sends exactly what the dispatch does. |
| WsServer.SyncWSServer.SelectHandler | src/wsserver/server.py:288-305 | The chain of command tests picks HandlerOf's handler. |
| WsServer.SyncWSServer.CallHandler | src/wsserver/server.py:288-305 | Raises exactly when the argument lookups fail; records and sends exactly what the dispatch does. |
| WsServer.SyncWSServer.MessageReceived | src/wsserver/server.py:256-282 | A decode error is reported with id 0. A failed dispatch is reported with the message's `uid`, default 0. A non-dict message makes `cmd.get` itself raise. |
| WsServer.ParseFailureEchoesUid | src/wsserver/server.py:273-279 | The error echo reads `uid`, which requests never carry, so it always reports id 0. |

## Left out

- Threads and locks are not modelled: the scan threads, Thread start/join, the `synchronized_with_lock` decorator, and the executor's `TimeToExit` flag and one-second wait. Each operation is modelled as one atomic step, and blocking waits become preconditions or values passed in. QOpExecutor's background loop is BleOps.QOpManager.RunOps, a given number of rounds, each doNextOp running to completion on the single background thread before the next.
- The legacy Android client (ble/android/gattclient.py:7) and the legacy message layer (wsserver/jsondesc.py:6) import `GATTCState` from ble/gattclientinterface.py, but that module defines only `GATTCStates` (line 6), so as written both imports fail. The model uses the `GATTCState` enum of src/ble/gattclientinterface.py:12 in their place.
- BleOps.QOpManager.WrapIntoQOp: `newmethodwrapper` first calls the decorated method itself and prints "Wrapped ..." (ble/bleops.py:343-346). Neither is modelled: in every use that call only logs.
- Native Android and Java calls, and Bleak's coroutines, are not modelled. What they answer is a parameter: whether an operation was issued, the delivered callback arguments, the adapter's presence (to `Create`) and enabled flag, and what `is_connected`/`disconnect` raise.
- `repr()` and traceback text are an input `text`; the model does not reproduce Python's formatting.
- Clocks are integers, not floats; scan durations and times left are therefore integers.
- JSON text, `json.loads`/`json.dumps` and base64 are outside the model; messages are JSON values, and decoding is an input.
- JsonDesc.Describe: `str()` of floats, lists, dicts and bytes in error messages is shown by type name only.
- `\d` is modelled as ASCII digits only, not every Unicode decimal digit.
- AndroidGattClient.GATTClient.CharRead: requires that Android's value lies in 0..255, because the pyjnius byte conversion is not modelled.
- The legacy bridge's GATTCStates names are not tied to the client enum; only the Android code tables are.
- The isdir, `list_directory`, `/data` redirect and 301 branches of send_range_head, and `do_GET`/`do_HEAD` beyond storing the range, are not modelled; SimpleHTTPRequestHandler is foreign code.
- HttpServer.TranslatePath: `normpath` and `unquote` are given functions, and posix `splitdrive` (a no-op) is dropped.
- src/ble/uuidtype.py is not part of this model; `CHAR_UUID(...)` is treated as always succeeding.
- The bodies of the `do_*` handlers are inputs (what they send and whether they raise); only their dispatch and the error decorator are modelled.
- scanForDevices, `on_pause`, `on_resume`, `on_broadcast` and `_tobytes` are not modelled (platform glue without logic of its own).
- sendJSON's BrokenPipe handling and its logging are dropped: a send is an append to the outbox.
- BLEScanResult is a plain value; its platform device and record handles are opaque numbers.
- The async adapters (`async_wrap_async_into_QOp`, `async_*` methods) are not modelled; only the blocking `wrap_into_QOp` is.

## Findings

| source | as written | input that shows it | evidently intended | confidence | as-written member | corrected member |
|---|---|---|---|---|---|---|
| ble/bleops.py:159-174 | cancelQ calls `i.cancel(reason)`, but `cancel` (line 78) takes `(manager, reason)`, so the reason fills `manager` and `reason` is missing. The deque was already cleared, so every pending op is lost uncancelled and the semaphore is never lowered. | any cancelQ while one op is pending | cancel each pending op as `i.cancel(self, reason)` and lower the semaphore for each | not executed | BleOps.QOpManager.CancelQAsWritten | BleOps.QOpManager.CancelQ |
