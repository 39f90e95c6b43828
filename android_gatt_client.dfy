/**
 * The Android GATT session of ble/android/gattclient.py: the bodies that the
 * device's operation queue runs (_connect, _char_read, _char_write,
 * _disconnect) and the callback-style entry points that enqueue them.
 *
 * Native calls are recorded in `calls`; what Android answers (whether a call
 * is issued, the event its callback delivers, the discovered services) is
 * supplied by the caller.  Each blocking down() on a bridge semaphore is
 * modelled as: the native side delivers the awaited event through the bridge,
 * then the body takes the oldest event of that kind.
 */
module AndroidGattClient {
  import opened Wrappers
  import opened BleExceptions
  import opened PyBytes
  import opened GattTypes
  import Channels
  import Legacy = LegacyExceptions
  import Bridge = LegacyGattCallback
  import BleOps

  /** A BluetoothGattCharacteristic handle. */
  class NativeCharacteristic {
    const uuid: string
    var value: seq<byte>

    constructor (uuid: string)
      ensures this.uuid == uuid && value == []
    {
      this.uuid := uuid;
      value := [];
    }
  }

  datatype NativeCall =
    | ConnectGatt
    | DiscoverServices
    | GetServices
    | ReadCharacteristic(uuid: string)
    | SetValue(uuid: string, data: seq<byte>)
    | WriteCharacteristic(uuid: string)
    | Disconnect

  /** What Android's onCharacteristicRead / onCharacteristicWrite deliver. */
  datatype ReadReply = ReadReply(uuid: string, status: int, value: seq<int>)
  datatype WriteReply = WriteReply(uuid: string, status: int)

  /** The bodies the session queues, and what they return. */
  datatype SessionBody = ConnectBody | DisconnectBody | CharReadBody(uuid: string) | CharWriteBody(uuid: string, data: seq<byte>)
  datatype SessionValue =
    | StateValue(state: GATTCState)
    | ConnectionEvent(event: Bridge.ConnectionStateChange)
    | ReadEvent(read: Bridge.CharacteristicRead)
    | WriteEvent(write: Bridge.CharacteristicWrite)
    | NoneValue

  function Exc(c: Legacy.LegacyClass, msg: string): PyException
  {
    PyException(Legacy.Current(c), msg)
  }

  /** The tuple the bridge queues for a connection-state change. */
  function ConnEvent(status: int, state: int): Bridge.ConnectionStateChange
  {
    Bridge.ConnectionStateChange(Bridge.ConvertStatusToStr(status), Bridge.ConvertConnStateToStr(state))
  }

  /** The connection-state deque once the delivered event is in and the oldest is taken. */
  function ConnQueueAfter(q: seq<Bridge.ConnectionStateChange>, status: int, state: int): seq<Bridge.ConnectionStateChange>
  {
    Channels.DropOldest(Channels.Post(q, ConnEvent(status, state)))
  }

  const NoCharacteristics := Builtin("AttributeError", "'GATTClient' object has no attribute 'Characteristics'")

  // ------------------------------------------------- characteristic map

  /** Every characteristic of every service, in the order the loops visit them. */
  function Flatten(services: seq<seq<NativeCharacteristic>>): seq<NativeCharacteristic>
  {
    if services == [] then [] else Flatten(services[..|services| - 1]) + services[|services| - 1]
  }

  /** The map `d[c.uuid] = c` builds for each c in turn: a later handle replaces an earlier one. */
  function MapOf(cs: seq<NativeCharacteristic>): map<string, NativeCharacteristic>
  {
    if cs == [] then map[] else MapOf(cs[..|cs| - 1])[cs[|cs| - 1].uuid := cs[|cs| - 1]]
  }

  /**
   * The keys are exactly the UUIDs seen, and each maps to the last handle
   * carrying that UUID.
   */
  lemma {:induction false} MapOfSpec(cs: seq<NativeCharacteristic>, k: string)
    ensures k in MapOf(cs) <==> exists i :: 0 <= i < |cs| && cs[i].uuid == k
    ensures k in MapOf(cs) ==>
              exists i :: 0 <= i < |cs| && cs[i] == MapOf(cs)[k] && cs[i].uuid == k
                          && forall j :: i < j < |cs| ==> cs[j].uuid != k
    decreases |cs|
  {
    if cs != [] {
      var init := cs[..|cs| - 1];
      var last := cs[|cs| - 1];
      MapOfSpec(init, k);
      if last.uuid == k {
        assert cs[|cs| - 1] == MapOf(cs)[k];
      } else if k in MapOf(init) {
        var i :| 0 <= i < |init| && init[i] == MapOf(init)[k] && init[i].uuid == k
                 && forall j :: i < j < |init| ==> init[j].uuid != k;
        assert cs[i] == init[i];
        assert forall j :: i < j < |cs| ==> cs[j].uuid != k by {
          forall j | i < j < |cs| ensures cs[j].uuid != k {
            if j < |init| { assert cs[j] == init[j]; }
          }
        }
      } else {
        forall i | 0 <= i < |cs| ensures cs[i].uuid != k {
          if i < |init| { assert cs[i] == init[i]; }
        }
      }
    }
  }

  /** A characteristic of a discovered service has its UUID in the map. */
  lemma {:induction false} FlattenContains(services: seq<seq<NativeCharacteristic>>, s: nat, c: nat)
    requires s < |services| && c < |services[s]|
    ensures services[s][c] in Flatten(services)
    decreases |services|
  {
    if s < |services| - 1 {
      FlattenContains(services[..|services| - 1], s, c);
      assert services[..|services| - 1][s] == services[s];
    }
  }

  lemma EveryDiscoveredCharacteristicIsMapped(services: seq<seq<NativeCharacteristic>>, s: nat, c: nat)
    requires s < |services| && c < |services[s]|
    ensures services[s][c].uuid in MapOf(Flatten(services))
    ensures MapOf(Flatten(services))[services[s][c].uuid].uuid == services[s][c].uuid
  {
    var cs := Flatten(services);
    FlattenContains(services, s, c);
    var i :| 0 <= i < |cs| && cs[i] == services[s][c];
    MapOfSpec(cs, services[s][c].uuid);
  }

  // ----------------------------------------------------------- the client

  class GATTClient {
    const MAC: string
    /** Set to INIT by the constructor; no body shown updates it. */
    var State: GATTCState
    const QOpTimeout: nat
    /** Set by the first uncancelled connect. */
    var BluetoothGatt: bool
    /** Absent until service discovery has succeeded once. */
    var Characteristics: Option<map<string, NativeCharacteristic>>
    var calls: seq<NativeCall>
    const GATTCallback: Bridge.PyBluetoothGattCallback
    const Manager: BleOps.QOpManager<SessionBody, SessionValue>

    ghost predicate Valid()
      reads this, GATTCallback, Manager
    {
      GATTCallback.Valid() && Manager.Valid() && (Characteristics.Some? ==> BluetoothGatt)
    }

    function Handles(): set<NativeCharacteristic>
      reads this
    {
      if Characteristics.Some? then Characteristics.value.Values else {}
    }

    constructor (macaddress: string, manager: BleOps.QOpManager<SessionBody, SessionValue>)
      requires manager.Valid()
      ensures Valid() && fresh(GATTCallback)
      ensures MAC == macaddress && State == INIT && QOpTimeout == 30 && Manager == manager
      ensures !BluetoothGatt && Characteristics.None? && calls == []
      ensures GATTCallback.Fields() == Bridge.Channels7(0, [], 0, [], 0, [], 0, [], 0, [], 0, [], 0, [])
    {
      MAC := macaddress;
      State := INIT;
      Manager := manager;
      GATTCallback := new Bridge.PyBluetoothGattCallback();
      QOpTimeout := 30;
      BluetoothGatt := false;
      Characteristics := None;
      calls := [];
    }

    /** The nested loops over getServices() and getCharacteristics(). */
    method BuildCharacteristics(services: seq<seq<NativeCharacteristic>>) returns (m: map<string, NativeCharacteristic>)
      ensures m == MapOf(Flatten(services))
    {
      m := map[];
      var s := 0;
      while s < |services|
        invariant 0 <= s <= |services|
        invariant m == MapOf(Flatten(services[..s]))
      {
        var serv := services[s];
        var c := 0;
        assert Flatten(services[..s]) + serv[..c] == Flatten(services[..s]);
        while c < |serv|
          invariant 0 <= c <= |serv|
          invariant m == MapOf(Flatten(services[..s]) + serv[..c])
        {
          assert (Flatten(services[..s]) + serv[..c + 1])[..|Flatten(services[..s]) + serv[..c + 1]| - 1]
              == Flatten(services[..s]) + serv[..c];
          m := m[serv[c].uuid := serv[c]];
          c := c + 1;
        }
        assert serv[..c] == serv;
        assert services[..s + 1][..s] == services[..s];
        s := s + 1;
      }
      assert services[..s] == services;
    }

    /**
     * The native side delivers one connection-state event through the bridge;
     * then down() and pop() take the oldest such event.
     */
    method AwaitConnectionStateChange(status: int, state: int) returns (ev: Bridge.ConnectionStateChange)
      requires GATTCallback.Valid()
      modifies GATTCallback
      ensures GATTCallback.Valid()
      ensures ev == Channels.Oldest(Channels.Post(old(GATTCallback.QOnConnectionStateChange), ConnEvent(status, state)))
      ensures GATTCallback.Fields() == old(GATTCallback.Fields()).(
                QOnConnectionStateChange := Channels.DropOldest(Channels.Post(old(GATTCallback.QOnConnectionStateChange), ConnEvent(status, state))))
    {
      GATTCallback.OnConnectionStateChange(status, state);
      GATTCallback.SemaOnConnectionStateChange := GATTCallback.SemaOnConnectionStateChange - 1;
      ev := Channels.Oldest(GATTCallback.QOnConnectionStateChange);
      GATTCallback.QOnConnectionStateChange := Channels.DropOldest(GATTCallback.QOnConnectionStateChange);
    }

    /** As above for the services-discovered event, whose value _connect discards. */
    method AwaitServicesDiscovered(status: int)
      requires GATTCallback.Valid()
      modifies GATTCallback
      ensures GATTCallback.Valid()
      ensures GATTCallback.Fields() == old(GATTCallback.Fields()).(
                QOnServicesDiscovered := Channels.DropOldest(Channels.Post(old(GATTCallback.QOnServicesDiscovered), Bridge.ConvertStatusToStr(status))))
    {
      GATTCallback.OnServicesDiscovered(status);
      GATTCallback.SemaOnServicesDiscovered := GATTCallback.SemaOnServicesDiscovered - 1;
      GATTCallback.QOnServicesDiscovered := Channels.DropOldest(GATTCallback.QOnServicesDiscovered);
    }

    /**
     * _connect.  With a reason it returns CANCELLED and touches nothing.
     * Otherwise it calls connectGatt and takes one connection-state event;
     * only while Characteristics is absent does it also discover services
     * (raising BLECouldntDiscoverServices, with no map, if Android will not
     * start discovery) and take one services-discovered event.  It returns
     * the connection-state event it took.
     */
    method Connect(reason: Option<string>, connStatus: int, connState: int,
                   discoverIssued: bool, discoveredStatus: int, services: seq<seq<NativeCharacteristic>>)
      returns (o: Outcome<SessionValue, PyException>)
      requires Valid()
      modifies this, GATTCallback
      ensures Valid() && State == old(State)
      ensures reason.Some? ==>
                o == Returned(StateValue(CANCELLED)) && calls == old(calls)
                && Characteristics == old(Characteristics) && BluetoothGatt == old(BluetoothGatt)
                && GATTCallback.Fields() == old(GATTCallback.Fields())
      ensures reason.None? ==> BluetoothGatt
      ensures reason.None? && old(Characteristics).Some? ==>
                calls == old(calls) + [ConnectGatt] && Characteristics == old(Characteristics)
                && GATTCallback.Fields() == old(GATTCallback.Fields()).(
                     QOnConnectionStateChange := ConnQueueAfter(old(GATTCallback.QOnConnectionStateChange), connStatus, connState))
      ensures reason.None? && old(Characteristics).None? && !discoverIssued ==>
                o == Raised(Exc(Legacy.BLECouldntDiscoverServices, "Could not start remote service discovery"))
                && calls == old(calls) + [ConnectGatt, DiscoverServices] && Characteristics.None?
                && GATTCallback.Fields() == old(GATTCallback.Fields()).(
                     QOnConnectionStateChange := ConnQueueAfter(old(GATTCallback.QOnConnectionStateChange), connStatus, connState))
      ensures reason.None? && old(Characteristics).None? && discoverIssued ==>
                calls == old(calls) + [ConnectGatt, DiscoverServices, GetServices]
                && Characteristics == Some(MapOf(Flatten(services)))
                && GATTCallback.Fields() == old(GATTCallback.Fields()).(
                     QOnConnectionStateChange := ConnQueueAfter(old(GATTCallback.QOnConnectionStateChange), connStatus, connState),
                     QOnServicesDiscovered := Channels.DropOldest(Channels.Post(old(GATTCallback.QOnServicesDiscovered),
                                                Bridge.ConvertStatusToStr(discoveredStatus))))
      ensures reason.None? && (old(Characteristics).Some? || discoverIssued) ==>
                o == Returned(ConnectionEvent(Channels.Oldest(Channels.Post(old(GATTCallback.QOnConnectionStateChange),
                                                                             ConnEvent(connStatus, connState)))))
    {
      if reason.Some? {
        return Returned(StateValue(CANCELLED));
      }
      calls := calls + [ConnectGatt];
      BluetoothGatt := true;
      var result := AwaitConnectionStateChange(connStatus, connState);
      if Characteristics.None? {
        calls := calls + [DiscoverServices];
        if !discoverIssued {
          return Raised(Exc(Legacy.BLECouldntDiscoverServices, "Could not start remote service discovery"));
        }
        AwaitServicesDiscovered(discoveredStatus);
        calls := calls + [GetServices];
        var m := BuildCharacteristics(services);
        Characteristics := Some(m);
      }
      return Returned(ConnectionEvent(result));
    }

    /**
     * _char_read.  With a reason it returns None and touches nothing.  The
     * handle lookup can fail (no map yet, unknown UUID); a refused read
     * raises BLEOperationNotIssued at once with no event taken; an issued
     * read takes one characteristic-read event and returns it.  The wait
     * ends only if Android's value converts with bytearray().
     */
    method CharRead(uuid: string, reason: Option<string>, issued: bool, reply: ReadReply)
      returns (o: Outcome<SessionValue, PyException>)
      requires Valid()
      requires InByteRange(reply.value)
      modifies this, GATTCallback
      ensures Valid()
      ensures Characteristics == old(Characteristics) && BluetoothGatt == old(BluetoothGatt) && State == old(State)
      ensures reason.Some? ==> o == Returned(NoneValue)
      ensures reason.None? && Characteristics.None? ==> o == Raised(NoCharacteristics)
      ensures reason.None? && Characteristics.Some? && uuid !in Characteristics.value ==> o == Raised(Builtin("KeyError", uuid))
      ensures !(reason.None? && Characteristics.Some? && uuid in Characteristics.value) ==>
                calls == old(calls) && GATTCallback.Fields() == old(GATTCallback.Fields())
      ensures reason.None? && Characteristics.Some? && uuid in Characteristics.value ==>
                calls == old(calls) + [ReadCharacteristic(uuid)]
      ensures reason.None? && Characteristics.Some? && uuid in Characteristics.value && !issued ==>
                o == Raised(Exc(Legacy.BLEOperationNotIssued, "Android refused to issue read"))
                && GATTCallback.Fields() == old(GATTCallback.Fields())
      ensures reason.None? && Characteristics.Some? && uuid in Characteristics.value && issued ==>
                var ev := Bridge.CharacteristicRead(reply.uuid, Bridge.ConvertStatusToStr(reply.status), ByteArray(reply.value).value);
                && o == Returned(ReadEvent(Channels.Oldest(Channels.Post(old(GATTCallback.QOnCharacteristicRead), ev))))
                && GATTCallback.Fields() == old(GATTCallback.Fields()).(
                     QOnCharacteristicRead := Channels.DropOldest(Channels.Post(old(GATTCallback.QOnCharacteristicRead), ev)))
    {
      if reason.Some? {
        return Returned(NoneValue);
      }
      if Characteristics.None? {
        return Raised(NoCharacteristics);
      }
      if uuid !in Characteristics.value {
        return Raised(Builtin("KeyError", uuid));
      }
      calls := calls + [ReadCharacteristic(uuid)];
      if !issued {
        return Raised(Exc(Legacy.BLEOperationNotIssued, "Android refused to issue read"));
      }
      var _ := GATTCallback.OnCharacteristicRead(reply.uuid, reply.status, reply.value);
      GATTCallback.SemaOnCharacteristicRead := GATTCallback.SemaOnCharacteristicRead - 1;
      var result := Channels.Oldest(GATTCallback.QOnCharacteristicRead);
      GATTCallback.QOnCharacteristicRead := Channels.DropOldest(GATTCallback.QOnCharacteristicRead);
      return Returned(ReadEvent(result));
    }

    /**
     * _char_write: as _char_read, but the handle's value is set before the
     * write is issued, so a refused write still leaves the new value on it.
     */
    method CharWrite(uuid: string, databytes: seq<byte>, reason: Option<string>, issued: bool, reply: WriteReply)
      returns (o: Outcome<SessionValue, PyException>)
      requires Valid()
      modifies this, GATTCallback, Handles()
      ensures Valid()
      ensures Characteristics == old(Characteristics) && BluetoothGatt == old(BluetoothGatt) && State == old(State)
      ensures reason.Some? ==> o == Returned(NoneValue)
      ensures reason.None? && Characteristics.None? ==> o == Raised(NoCharacteristics)
      ensures reason.None? && Characteristics.Some? && uuid !in Characteristics.value ==> o == Raised(Builtin("KeyError", uuid))
      ensures !(reason.None? && Characteristics.Some? && uuid in Characteristics.value) ==>
                calls == old(calls) && GATTCallback.Fields() == old(GATTCallback.Fields())
                && forall h :: h in old(Handles()) ==> h.value == old(h.value)
      ensures reason.None? && Characteristics.Some? && uuid in Characteristics.value ==>
                && calls == old(calls) + [SetValue(uuid, databytes), WriteCharacteristic(uuid)]
                && Characteristics.value[uuid].value == databytes
                && forall h :: h in old(Handles()) && h != Characteristics.value[uuid] ==> h.value == old(h.value)
      ensures reason.None? && Characteristics.Some? && uuid in Characteristics.value && !issued ==>
                o == Raised(Exc(Legacy.BLEOperationNotIssued, "Android refused to issue write"))
                && GATTCallback.Fields() == old(GATTCallback.Fields())
      ensures reason.None? && Characteristics.Some? && uuid in Characteristics.value && issued ==>
                var ev := Bridge.CharacteristicWrite(reply.uuid, Bridge.ConvertStatusToStr(reply.status));
                && o == Returned(WriteEvent(Channels.Oldest(Channels.Post(old(GATTCallback.QOnCharacteristicWrite), ev))))
                && GATTCallback.Fields() == old(GATTCallback.Fields()).(
                     QOnCharacteristicWrite := Channels.DropOldest(Channels.Post(old(GATTCallback.QOnCharacteristicWrite), ev)))
    {
      if reason.Some? {
        return Returned(NoneValue);
      }
      if Characteristics.None? {
        return Raised(NoCharacteristics);
      }
      if uuid !in Characteristics.value {
        return Raised(Builtin("KeyError", uuid));
      }
      var handle := Characteristics.value[uuid];
      handle.value := databytes;
      calls := calls + [SetValue(uuid, databytes)];
      calls := calls + [WriteCharacteristic(uuid)];
      if !issued {
        return Raised(Exc(Legacy.BLEOperationNotIssued, "Android refused to issue write"));
      }
      GATTCallback.OnCharacteristicWrite(reply.uuid, reply.status);
      GATTCallback.SemaOnCharacteristicWrite := GATTCallback.SemaOnCharacteristicWrite - 1;
      var result := Channels.Oldest(GATTCallback.QOnCharacteristicWrite);
      GATTCallback.QOnCharacteristicWrite := Channels.DropOldest(GATTCallback.QOnCharacteristicWrite);
      return Returned(WriteEvent(result));
    }

    /** callback_char_read: queue one FIFO read op with the converted callback. */
    method CallbackCharRead(uuid: string, converted: BleOps.Callback)
      requires Valid()
      modifies Manager
      ensures Valid()
      ensures Manager.Q == [BleOps.QOp(CharReadBody(uuid), converted)] + old(Manager.Q)
      ensures Manager.OpDone == old(Manager.OpDone) && Manager.log == old(Manager.log)
    {
      Manager.AddFIFOOp(BleOps.QOp(CharReadBody(uuid), converted));
    }

    /** callback_char_write: queue one FIFO write op with the converted callback. */
    method CallbackCharWrite(uuid: string, data: seq<byte>, converted: BleOps.Callback)
      requires Valid()
      modifies Manager
      ensures Valid()
      ensures Manager.Q == [BleOps.QOp(CharWriteBody(uuid, data), converted)] + old(Manager.Q)
      ensures Manager.OpDone == old(Manager.OpDone) && Manager.log == old(Manager.log)
    {
      Manager.AddFIFOOp(BleOps.QOp(CharWriteBody(uuid, data), converted));
    }
  }

  /**
   * _disconnect(self) accepts no `manager` keyword, so running it as a queued
   * op fails before any native call, with the TypeError captured by do().
   */
  function DisconnectRun(): (r: BleOps.BodyRun<SessionBody, SessionValue>)
    ensures r.enqueues == [] && r.outcome.Raised? && r.outcome.error.cls == Other("TypeError")
  {
    BleOps.BodyRun(Raised(Builtin("TypeError", "_disconnect() got an unexpected keyword argument 'manager'")), [])
  }

  /** disconnect() therefore always reports that TypeError to its caller. */
  lemma DisconnectAlwaysFails()
    ensures BleOps.GetResult(BleOps.Capture(DisconnectRun().outcome)) == Raised(DisconnectRun().outcome.error)
  {
  }

  /** With no stale event pending, connect returns the event Android delivered for it. */
  lemma FreshConnectReturnsItsEvent(e: Bridge.ConnectionStateChange)
    ensures Channels.Oldest(Channels.Post([], e)) == e && Channels.DropOldest(Channels.Post([], e)) == []
  {
  }
}
