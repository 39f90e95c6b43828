/**
 * The typed native event bridge of src/ble/android/pybluetoothgattcallback.py.
 *
 * Android reports GATT events on its own thread through seven callbacks.  Each
 * callback converts its integer codes through the AndroidGATTStatus and
 * AndroidConnState enums (an unknown code raises ValueError before anything
 * is queued), appends one tuple on the left of its own deque and raises its
 * own counting semaphore.
 */
module AndroidGattCallback {
  import opened Wrappers
  import opened BleExceptions
  import opened PyBytes
  import GattTypes
  import Decimal
  import Channels

  // ------------------------------------------------------ AndroidGATTStatus

  datatype AndroidGATTStatus =
    | GATT_SUCCESS
    | GATT_READ_NOT_PERMITTED
    | GATT_WRITE_NOT_PERMITTED
    | GATT_INSUFFICIENT_AUTHENTICATION
    | GATT_REQUEST_NOT_SUPPORTED
    | GATT_INVALID_OFFSET
    | GATT_INVALID_ATTRIBUTE_LENGTH
    | GATT_INSUFFICIENT_ENCRYPTION
    | GATT_CONNECTION_CONGESTED
    | GATT_FAILURE

  /** The enum member's integer value. */
  function StatusCode(s: AndroidGATTStatus): int
  {
    match s
    case GATT_SUCCESS => 0
    case GATT_READ_NOT_PERMITTED => 2
    case GATT_WRITE_NOT_PERMITTED => 3
    case GATT_INSUFFICIENT_AUTHENTICATION => 5
    case GATT_REQUEST_NOT_SUPPORTED => 6
    case GATT_INVALID_OFFSET => 7
    case GATT_INVALID_ATTRIBUTE_LENGTH => 13
    case GATT_INSUFFICIENT_ENCRYPTION => 15
    case GATT_CONNECTION_CONGESTED => 143
    case GATT_FAILURE => 257
  }

  /** The enum member's name. */
  function StatusName(s: AndroidGATTStatus): string
  {
    match s
    case GATT_SUCCESS => "GATT_SUCCESS"
    case GATT_READ_NOT_PERMITTED => "GATT_READ_NOT_PERMITTED"
    case GATT_WRITE_NOT_PERMITTED => "GATT_WRITE_NOT_PERMITTED"
    case GATT_INSUFFICIENT_AUTHENTICATION => "GATT_INSUFFICIENT_AUTHENTICATION"
    case GATT_REQUEST_NOT_SUPPORTED => "GATT_REQUEST_NOT_SUPPORTED"
    case GATT_INVALID_OFFSET => "GATT_INVALID_OFFSET"
    case GATT_INVALID_ATTRIBUTE_LENGTH => "GATT_INVALID_ATTRIBUTE_LENGTH"
    case GATT_INSUFFICIENT_ENCRYPTION => "GATT_INSUFFICIENT_ENCRYPTION"
    case GATT_CONNECTION_CONGESTED => "GATT_CONNECTION_CONGESTED"
    case GATT_FAILURE => "GATT_FAILURE"
  }

  /** AndroidGATTStatus(i): the member with value i, None where Python raises ValueError. */
  function StatusFromInt(i: int): Option<AndroidGATTStatus>
  {
    if i == 0 then Some(GATT_SUCCESS)
    else if i == 2 then Some(GATT_READ_NOT_PERMITTED)
    else if i == 3 then Some(GATT_WRITE_NOT_PERMITTED)
    else if i == 5 then Some(GATT_INSUFFICIENT_AUTHENTICATION)
    else if i == 6 then Some(GATT_REQUEST_NOT_SUPPORTED)
    else if i == 7 then Some(GATT_INVALID_OFFSET)
    else if i == 13 then Some(GATT_INVALID_ATTRIBUTE_LENGTH)
    else if i == 15 then Some(GATT_INSUFFICIENT_ENCRYPTION)
    else if i == 143 then Some(GATT_CONNECTION_CONGESTED)
    else if i == 257 then Some(GATT_FAILURE)
    else None
  }

  /** The conversion accepts exactly the enum's values and inverts StatusCode. */
  lemma StatusFromIntInverse(i: int, s: AndroidGATTStatus)
    ensures StatusFromInt(i) == Some(s) <==> StatusCode(s) == i
  {
  }

  lemma StatusFromIntDomain(i: int)
    ensures StatusFromInt(i).Some? <==> i in {0, 2, 3, 5, 6, 7, 13, 15, 143, 257}
  {
  }

  /** `@enum.unique`: no two members share a value, and no two share a name. */
  lemma StatusUnique(s: AndroidGATTStatus, t: AndroidGATTStatus)
    ensures StatusCode(s) == StatusCode(t) <==> s == t
    ensures StatusName(s) == StatusName(t) <==> s == t
  {
  }

  // ------------------------------------------------------- AndroidConnState

  datatype AndroidConnState = STATE_DISCONNECTED | STATE_CONNECTING | STATE_CONNECTED | STATE_DISCONNECTING

  function ConnStateCode(s: AndroidConnState): int
  {
    match s
    case STATE_DISCONNECTED => 0
    case STATE_CONNECTING => 1
    case STATE_CONNECTED => 2
    case STATE_DISCONNECTING => 3
  }

  /** AndroidConnState(i), None where Python raises ValueError. */
  function ConnStateFromInt(i: int): Option<AndroidConnState>
  {
    if i == 0 then Some(STATE_DISCONNECTED)
    else if i == 1 then Some(STATE_CONNECTING)
    else if i == 2 then Some(STATE_CONNECTED)
    else if i == 3 then Some(STATE_DISCONNECTING)
    else None
  }

  lemma ConnStateFromIntInverse(i: int, s: AndroidConnState)
    ensures ConnStateFromInt(i) == Some(s) <==> ConnStateCode(s) == i
    ensures ConnStateFromInt(i).Some? <==> 0 <= i <= 3
  {
  }

  /** The AndroidConnStateCodes.StateFromInt table. */
  function StateFromInt(i: int): Option<string>
  {
    if i == 0 then Some("STATE_DISCONNECTED")
    else if i == 1 then Some("STATE_CONNECTING")
    else if i == 2 then Some("STATE_CONNECTED")
    else if i == 3 then Some("STATE_DISCONNECTING")
    else None
  }

  /** The ConversionFromACSToGCS table, keyed by Android's connection-state value. */
  function ConversionFromACSToGCS(i: int): Option<GattTypes.GATTCState>
  {
    if i == 0 then Some(GattTypes.DISCONNECTED)
    else if i == 1 then Some(GattTypes.CONNECTING)
    else if i == 2 then Some(GattTypes.CONNECTED)
    else if i == 3 then Some(GattTypes.DISCONNECTING)
    else None
  }

  /** asGATTCState: look the member's value up in ConversionFromACSToGCS (never a KeyError). */
  function AsGATTCState(s: AndroidConnState): GattTypes.GATTCState
  {
    ConversionFromACSToGCS(ConnStateCode(s)).value
  }

  /**
   * Every Android state maps to the client state of the same name, so the
   * mapping is one-to-one and never yields INIT or CANCELLED.
   */
  lemma AsGATTCStateSameName(s: AndroidConnState)
    ensures StateFromInt(ConnStateCode(s)) == Some("STATE_" + GattTypes.Name(AsGATTCState(s)))
    ensures AsGATTCState(s) !in {GattTypes.INIT, GattTypes.CANCELLED}
  {
    match s
    case STATE_DISCONNECTED => assert "STATE_" + "DISCONNECTED" == "STATE_DISCONNECTED";
    case STATE_CONNECTING => assert "STATE_" + "CONNECTING" == "STATE_CONNECTING";
    case STATE_CONNECTED => assert "STATE_" + "CONNECTED" == "STATE_CONNECTED";
    case STATE_DISCONNECTING => assert "STATE_" + "DISCONNECTING" == "STATE_DISCONNECTING";
  }

  lemma AsGATTCStateInjective(s: AndroidConnState, t: AndroidConnState)
    ensures AsGATTCState(s) == AsGATTCState(t) <==> s == t
  {
  }

  // ----------------------------------------------------------------- events

  datatype ConnectionStateChange = ConnectionStateChange(status: AndroidGATTStatus, newState: AndroidConnState)
  datatype CharacteristicChanged = CharacteristicChanged(uuid: string, value: seq<byte>)
  datatype CharacteristicRead = CharacteristicRead(uuid: string, status: AndroidGATTStatus, value: seq<byte>)
  datatype CharacteristicWrite = CharacteristicWrite(uuid: string, status: AndroidGATTStatus)
  datatype DescriptorRead = DescriptorRead(uuid: string, status: AndroidGATTStatus, value: seq<byte>)
  datatype DescriptorWrite = DescriptorWrite(uuid: string, status: AndroidGATTStatus)

  /** The bridge's fourteen fields at one moment. */
  datatype Channels7 = Channels7(
    SemaOnConnectionStateChange: int, QOnConnectionStateChange: seq<ConnectionStateChange>,
    SemaOnServicesDiscovered: int, QOnServicesDiscovered: seq<AndroidGATTStatus>,
    SemaOnCharacteristicChanged: int, QOnCharacteristicChanged: seq<CharacteristicChanged>,
    SemaOnCharacteristicRead: int, QOnCharacteristicRead: seq<CharacteristicRead>,
    SemaOnCharacteristicWrite: int, QOnCharacteristicWrite: seq<CharacteristicWrite>,
    SemaOnDescriptorRead: int, QOnDescriptorRead: seq<DescriptorRead>,
    SemaOnDescriptorWrite: int, QOnDescriptorWrite: seq<DescriptorWrite>)

  /** Each semaphore counts the tuples waiting in its deque. */
  predicate Balanced(c: Channels7)
  {
    && c.SemaOnConnectionStateChange == |c.QOnConnectionStateChange|
    && c.SemaOnServicesDiscovered == |c.QOnServicesDiscovered|
    && c.SemaOnCharacteristicChanged == |c.QOnCharacteristicChanged|
    && c.SemaOnCharacteristicRead == |c.QOnCharacteristicRead|
    && c.SemaOnCharacteristicWrite == |c.QOnCharacteristicWrite|
    && c.SemaOnDescriptorRead == |c.QOnDescriptorRead|
    && c.SemaOnDescriptorWrite == |c.QOnDescriptorWrite|
  }

  function ValueErrorFor(i: int, enumName: string): PyException
  {
    Builtin("ValueError", Decimal.ShowInt(i) + " is not a valid " + enumName)
  }

  /** The exception a failed status conversion raises, if any. */
  function StatusError(status: int): Option<PyException>
  {
    if StatusFromInt(status).None? then Some(ValueErrorFor(status, "AndroidGATTStatus")) else None
  }

  class PyBluetoothGattCallback {
    var SemaOnConnectionStateChange: int
    var SemaOnServicesDiscovered: int
    var SemaOnCharacteristicChanged: int
    var SemaOnCharacteristicRead: int
    var SemaOnCharacteristicWrite: int
    var SemaOnDescriptorRead: int
    var SemaOnDescriptorWrite: int

    var QOnConnectionStateChange: seq<ConnectionStateChange>
    var QOnServicesDiscovered: seq<AndroidGATTStatus>
    var QOnCharacteristicChanged: seq<CharacteristicChanged>
    var QOnCharacteristicRead: seq<CharacteristicRead>
    var QOnCharacteristicWrite: seq<CharacteristicWrite>
    var QOnDescriptorRead: seq<DescriptorRead>
    var QOnDescriptorWrite: seq<DescriptorWrite>

    function Fields(): Channels7
      reads this
    {
      Channels7(
        SemaOnConnectionStateChange, QOnConnectionStateChange,
        SemaOnServicesDiscovered, QOnServicesDiscovered,
        SemaOnCharacteristicChanged, QOnCharacteristicChanged,
        SemaOnCharacteristicRead, QOnCharacteristicRead,
        SemaOnCharacteristicWrite, QOnCharacteristicWrite,
        SemaOnDescriptorRead, QOnDescriptorRead,
        SemaOnDescriptorWrite, QOnDescriptorWrite)
    }

    ghost predicate Valid()
      reads this
    {
      Balanced(Fields())
    }

    /** All seven semaphores start at 0 and all seven deques start empty. */
    constructor ()
      ensures Valid()
      ensures Fields() == Channels7(0, [], 0, [], 0, [], 0, [], 0, [], 0, [], 0, [])
    {
      SemaOnConnectionStateChange := 0;
      SemaOnServicesDiscovered := 0;
      SemaOnCharacteristicChanged := 0;
      SemaOnCharacteristicRead := 0;
      SemaOnCharacteristicWrite := 0;
      SemaOnDescriptorRead := 0;
      SemaOnDescriptorWrite := 0;
      QOnConnectionStateChange := [];
      QOnServicesDiscovered := [];
      QOnCharacteristicChanged := [];
      QOnCharacteristicRead := [];
      QOnCharacteristicWrite := [];
      QOnDescriptorRead := [];
      QOnDescriptorWrite := [];
    }

    method OnConnectionStateChange(status: int, newState: int) returns (o: Outcome<(), PyException>)
      requires Valid()
      modifies this
      ensures Valid()
      ensures StatusFromInt(status).None? ==> o == Raised(ValueErrorFor(status, "AndroidGATTStatus")) && Fields() == old(Fields())
      ensures StatusFromInt(status).Some? && ConnStateFromInt(newState).None? ==>
                o == Raised(ValueErrorFor(newState, "AndroidConnState")) && Fields() == old(Fields())
      ensures StatusFromInt(status).Some? && ConnStateFromInt(newState).Some? ==>
                && o == Returned(())
                && Fields() == old(Fields()).(
                     QOnConnectionStateChange := Channels.Post(old(QOnConnectionStateChange),
                       ConnectionStateChange(StatusFromInt(status).value, ConnStateFromInt(newState).value)),
                     SemaOnConnectionStateChange := old(SemaOnConnectionStateChange) + 1)
    {
      var s := StatusFromInt(status);
      if s.None? {
        return Raised(ValueErrorFor(status, "AndroidGATTStatus"));
      }
      var n := ConnStateFromInt(newState);
      if n.None? {
        return Raised(ValueErrorFor(newState, "AndroidConnState"));
      }
      QOnConnectionStateChange := Channels.Post(QOnConnectionStateChange, ConnectionStateChange(s.value, n.value));
      SemaOnConnectionStateChange := SemaOnConnectionStateChange + 1;
      return Returned(());
    }

    method OnServicesDiscovered(status: int) returns (o: Outcome<(), PyException>)
      requires Valid()
      modifies this
      ensures Valid()
      ensures StatusFromInt(status).None? ==> o == Raised(ValueErrorFor(status, "AndroidGATTStatus")) && Fields() == old(Fields())
      ensures StatusFromInt(status).Some? ==>
                && o == Returned(())
                && Fields() == old(Fields()).(
                     QOnServicesDiscovered := Channels.Post(old(QOnServicesDiscovered), StatusFromInt(status).value),
                     SemaOnServicesDiscovered := old(SemaOnServicesDiscovered) + 1)
    {
      var s := StatusFromInt(status);
      if s.None? {
        return Raised(ValueErrorFor(status, "AndroidGATTStatus"));
      }
      QOnServicesDiscovered := Channels.Post(QOnServicesDiscovered, s.value);
      SemaOnServicesDiscovered := SemaOnServicesDiscovered + 1;
      return Returned(());
    }

    method OnCharacteristicChanged(uuid: string, value: seq<int>) returns (o: Outcome<(), PyException>)
      requires Valid()
      modifies this
      ensures Valid()
      ensures ByteArray(value).Raised? ==> o == Raised(ByteArray(value).error) && Fields() == old(Fields())
      ensures ByteArray(value).Returned? ==>
                && o == Returned(())
                && Fields() == old(Fields()).(
                     QOnCharacteristicChanged := Channels.Post(old(QOnCharacteristicChanged),
                       CharacteristicChanged(uuid, ByteArray(value).value)),
                     SemaOnCharacteristicChanged := old(SemaOnCharacteristicChanged) + 1)
    {
      var b := ByteArray(value);
      if b.Raised? {
        return Raised(b.error);
      }
      QOnCharacteristicChanged := Channels.Post(QOnCharacteristicChanged, CharacteristicChanged(uuid, b.value));
      SemaOnCharacteristicChanged := SemaOnCharacteristicChanged + 1;
      return Returned(());
    }

    method OnCharacteristicRead(uuid: string, status: int, value: seq<int>) returns (o: Outcome<(), PyException>)
      requires Valid()
      modifies this
      ensures Valid()
      ensures StatusFromInt(status).None? ==> o == Raised(ValueErrorFor(status, "AndroidGATTStatus")) && Fields() == old(Fields())
      ensures StatusFromInt(status).Some? && ByteArray(value).Raised? ==>
                o == Raised(ByteArray(value).error) && Fields() == old(Fields())
      ensures StatusFromInt(status).Some? && ByteArray(value).Returned? ==>
                && o == Returned(())
                && Fields() == old(Fields()).(
                     QOnCharacteristicRead := Channels.Post(old(QOnCharacteristicRead),
                       CharacteristicRead(uuid, StatusFromInt(status).value, ByteArray(value).value)),
                     SemaOnCharacteristicRead := old(SemaOnCharacteristicRead) + 1)
    {
      var s := StatusFromInt(status);
      if s.None? {
        return Raised(ValueErrorFor(status, "AndroidGATTStatus"));
      }
      var b := ByteArray(value);
      if b.Raised? {
        return Raised(b.error);
      }
      QOnCharacteristicRead := Channels.Post(QOnCharacteristicRead, CharacteristicRead(uuid, s.value, b.value));
      SemaOnCharacteristicRead := SemaOnCharacteristicRead + 1;
      return Returned(());
    }

    method OnCharacteristicWrite(uuid: string, status: int) returns (o: Outcome<(), PyException>)
      requires Valid()
      modifies this
      ensures Valid()
      ensures StatusFromInt(status).None? ==> o == Raised(ValueErrorFor(status, "AndroidGATTStatus")) && Fields() == old(Fields())
      ensures StatusFromInt(status).Some? ==>
                && o == Returned(())
                && Fields() == old(Fields()).(
                     QOnCharacteristicWrite := Channels.Post(old(QOnCharacteristicWrite),
                       CharacteristicWrite(uuid, StatusFromInt(status).value)),
                     SemaOnCharacteristicWrite := old(SemaOnCharacteristicWrite) + 1)
    {
      var s := StatusFromInt(status);
      if s.None? {
        return Raised(ValueErrorFor(status, "AndroidGATTStatus"));
      }
      QOnCharacteristicWrite := Channels.Post(QOnCharacteristicWrite, CharacteristicWrite(uuid, s.value));
      SemaOnCharacteristicWrite := SemaOnCharacteristicWrite + 1;
      return Returned(());
    }

    method OnDescriptorRead(uuid: string, status: int, value: seq<int>) returns (o: Outcome<(), PyException>)
      requires Valid()
      modifies this
      ensures Valid()
      ensures StatusFromInt(status).None? ==> o == Raised(ValueErrorFor(status, "AndroidGATTStatus")) && Fields() == old(Fields())
      ensures StatusFromInt(status).Some? && ByteArray(value).Raised? ==>
                o == Raised(ByteArray(value).error) && Fields() == old(Fields())
      ensures StatusFromInt(status).Some? && ByteArray(value).Returned? ==>
                && o == Returned(())
                && Fields() == old(Fields()).(
                     QOnDescriptorRead := Channels.Post(old(QOnDescriptorRead),
                       DescriptorRead(uuid, StatusFromInt(status).value, ByteArray(value).value)),
                     SemaOnDescriptorRead := old(SemaOnDescriptorRead) + 1)
    {
      var s := StatusFromInt(status);
      if s.None? {
        return Raised(ValueErrorFor(status, "AndroidGATTStatus"));
      }
      var b := ByteArray(value);
      if b.Raised? {
        return Raised(b.error);
      }
      QOnDescriptorRead := Channels.Post(QOnDescriptorRead, DescriptorRead(uuid, s.value, b.value));
      SemaOnDescriptorRead := SemaOnDescriptorRead + 1;
      return Returned(());
    }

    method OnDescriptorWrite(uuid: string, status: int) returns (o: Outcome<(), PyException>)
      requires Valid()
      modifies this
      ensures Valid()
      ensures StatusFromInt(status).None? ==> o == Raised(ValueErrorFor(status, "AndroidGATTStatus")) && Fields() == old(Fields())
      ensures StatusFromInt(status).Some? ==>
                && o == Returned(())
                && Fields() == old(Fields()).(
                     QOnDescriptorWrite := Channels.Post(old(QOnDescriptorWrite),
                       DescriptorWrite(uuid, StatusFromInt(status).value)),
                     SemaOnDescriptorWrite := old(SemaOnDescriptorWrite) + 1)
    {
      var s := StatusFromInt(status);
      if s.None? {
        return Raised(ValueErrorFor(status, "AndroidGATTStatus"));
      }
      QOnDescriptorWrite := Channels.Post(QOnDescriptorWrite, DescriptorWrite(uuid, s.value));
      SemaOnDescriptorWrite := SemaOnDescriptorWrite + 1;
      return Returned(());
    }
  }
}
