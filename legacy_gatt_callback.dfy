/**
 * The earlier native event bridge, ble/android/pybluetoothgattcallback.py,
 * which the Android GATT session uses.  Codes are turned into names through
 * lookup tables that fall back to "UnknownGATTStatus" / "UnknownConnState"
 * instead of raising.  onDescriptorRead stores the value Android handed over
 * as it is; the other value-carrying callbacks convert it with bytearray().
 */
module LegacyGattCallback {
  import opened Wrappers
  import opened BleExceptions
  import opened PyBytes
  import Channels
  import Typed = AndroidGattCallback

  /** The AndroidGATTCodes.StatusFromInt table. */
  function StatusFromInt(i: int): Option<string>
  {
    if i == 0 then Some("GATT_SUCCESS")
    else if i == 2 then Some("GATT_READ_NOT_PERMITTED")
    else if i == 3 then Some("GATT_WRITE_NOT_PERMITTED")
    else if i == 5 then Some("GATT_INSUFFICIENT_AUTHENTICATION")
    else if i == 6 then Some("GATT_REQUEST_NOT_SUPPORTED")
    else if i == 7 then Some("GATT_INVALID_OFFSET")
    else if i == 13 then Some("GATT_INVALID_ATTRIBUTE_LENGTH")
    else if i == 15 then Some("GATT_INSUFFICIENT_ENCRYPTION")
    else if i == 143 then Some("GATT_CONNECTION_CONGESTED")
    else if i == 257 then Some("GATT_FAILURE")
    else None
  }

  const UnknownGATTStatus := "UnknownGATTStatus"
  const UnknownConnState := "UnknownConnState"

  /** _convertStatusToStr */
  function ConvertStatusToStr(status: int): string
  {
    if StatusFromInt(status).Some? then StatusFromInt(status).value else UnknownGATTStatus
  }

  /** _convertConnStateToStr, over the AndroidConnStateCodes.StateFromInt table. */
  function ConvertConnStateToStr(state: int): string
  {
    if Typed.StateFromInt(state).Some? then Typed.StateFromInt(state).value else UnknownConnState
  }

  /**
   * A known code gets the name the typed enum gives it; every other code gets
   * "UnknownGATTStatus", which is no member's name.
   */
  lemma ConvertStatusAgreesWithEnum(status: int)
    ensures Typed.StatusFromInt(status).Some? ==>
              ConvertStatusToStr(status) == Typed.StatusName(Typed.StatusFromInt(status).value)
    ensures Typed.StatusFromInt(status).None? <==> ConvertStatusToStr(status) == UnknownGATTStatus
  {
  }

  /** Distinct known codes get distinct names. */
  lemma ConvertStatusInjective(i: int, j: int)
    requires ConvertStatusToStr(i) != UnknownGATTStatus
    ensures ConvertStatusToStr(i) == ConvertStatusToStr(j) <==> i == j
  {
  }

  /** STATE_* for 0..3, the typed enum's member name, and "UnknownConnState" otherwise. */
  lemma ConvertConnStateAgreesWithEnum(state: int)
    ensures 0 <= state <= 3 ==> Typed.ConnStateFromInt(state).Some?
    ensures 0 <= state <= 3 ==> ConvertConnStateToStr(state) == Typed.StateFromInt(state).value
    ensures !(0 <= state <= 3) <==> ConvertConnStateToStr(state) == UnknownConnState
  {
  }

  lemma ConvertConnStateInjective(i: int, j: int)
    requires ConvertConnStateToStr(i) != UnknownConnState
    ensures ConvertConnStateToStr(i) == ConvertConnStateToStr(j) <==> i == j
  {
  }

  // ----------------------------------------------------------------- events

  datatype ConnectionStateChange = ConnectionStateChange(status: string, newState: string)
  datatype CharacteristicChanged = CharacteristicChanged(uuid: string, value: seq<byte>)
  datatype CharacteristicRead = CharacteristicRead(uuid: string, status: string, value: seq<byte>)
  datatype CharacteristicWrite = CharacteristicWrite(uuid: string, status: string)
  /** The value is whatever Android passed in, not a bytearray. */
  datatype DescriptorRead = DescriptorRead(uuid: string, status: string, value: seq<int>)
  datatype DescriptorWrite = DescriptorWrite(uuid: string, status: string)

  datatype Channels7 = Channels7(
    SemaOnConnectionStateChange: int, QOnConnectionStateChange: seq<ConnectionStateChange>,
    SemaOnServicesDiscovered: int, QOnServicesDiscovered: seq<string>,
    SemaOnCharacteristicChanged: int, QOnCharacteristicChanged: seq<CharacteristicChanged>,
    SemaOnCharacteristicRead: int, QOnCharacteristicRead: seq<CharacteristicRead>,
    SemaOnCharacteristicWrite: int, QOnCharacteristicWrite: seq<CharacteristicWrite>,
    SemaOnDescriptorRead: int, QOnDescriptorRead: seq<DescriptorRead>,
    SemaOnDescriptorWrite: int, QOnDescriptorWrite: seq<DescriptorWrite>)

  predicate Balanced(c: Channels7)
  {
    && c.SemaOnConnectionStateChange == |c.QOnConnectionStateChange|
    && c.SemaOnServicesDiscovered == |c.QOnServicesDiscovered|
    && c.SemaOnCharacteristicChanged == |c.QOnCharacteristicChanged|
    && c.SemaOnCharacteristicRead == |c.QOnCharacteristicRead|
    && c.SemaOnCharacteristicWrite == |c.QOnCharacteristicWrite|
    && c.SemaOnDescriptorRead == |c.QOnDescriptorRead|
    && c.SemaOnDescriptorWrite == |c.QOnDescriptorWrite|
  }

  class PyBluetoothGattCallback {
    var SemaOnConnectionStateChange: int
    var SemaOnServicesDiscovered: int
    var SemaOnCharacteristicChanged: int
    var SemaOnCharacteristicRead: int
    var SemaOnCharacteristicWrite: int
    var SemaOnDescriptorRead: int
    var SemaOnDescriptorWrite: int

    var QOnConnectionStateChange: seq<ConnectionStateChange>
    var QOnServicesDiscovered: seq<string>
    var QOnCharacteristicChanged: seq<CharacteristicChanged>
    var QOnCharacteristicRead: seq<CharacteristicRead>
    var QOnCharacteristicWrite: seq<CharacteristicWrite>
    var QOnDescriptorRead: seq<DescriptorRead>
    var QOnDescriptorWrite: seq<DescriptorWrite>

    function Fields(): Channels7
      reads this
    {
      Channels7(
        SemaOnConnectionStateChange, QOnConnectionStateChange,
        SemaOnServicesDiscovered, QOnServicesDiscovered,
        SemaOnCharacteristicChanged, QOnCharacteristicChanged,
        SemaOnCharacteristicRead, QOnCharacteristicRead,
        SemaOnCharacteristicWrite, QOnCharacteristicWrite,
        SemaOnDescriptorRead, QOnDescriptorRead,
        SemaOnDescriptorWrite, QOnDescriptorWrite)
    }

    ghost predicate Valid()
      reads this
    {
      Balanced(Fields())
    }

    /** Semaphores start at 0 and deques start empty. */
    constructor ()
      ensures Valid()
      ensures Fields() == Channels7(0, [], 0, [], 0, [], 0, [], 0, [], 0, [], 0, [])
    {
      SemaOnConnectionStateChange := 0;
      SemaOnServicesDiscovered := 0;
      SemaOnCharacteristicChanged := 0;
      SemaOnCharacteristicRead := 0;
      SemaOnCharacteristicWrite := 0;
      SemaOnDescriptorRead := 0;
      SemaOnDescriptorWrite := 0;
      QOnConnectionStateChange := [];
      QOnServicesDiscovered := [];
      QOnCharacteristicChanged := [];
      QOnCharacteristicRead := [];
      QOnCharacteristicWrite := [];
      QOnDescriptorRead := [];
      QOnDescriptorWrite := [];
    }

    method OnConnectionStateChange(status: int, newState: int)
      requires Valid()
      modifies this
      ensures Valid()
      ensures Fields() == old(Fields()).(
                QOnConnectionStateChange := Channels.Post(old(QOnConnectionStateChange),
                  ConnectionStateChange(ConvertStatusToStr(status), ConvertConnStateToStr(newState))),
                SemaOnConnectionStateChange := old(SemaOnConnectionStateChange) + 1)
    {
      QOnConnectionStateChange := Channels.Post(QOnConnectionStateChange,
        ConnectionStateChange(ConvertStatusToStr(status), ConvertConnStateToStr(newState)));
      SemaOnConnectionStateChange := SemaOnConnectionStateChange + 1;
    }

    method OnServicesDiscovered(status: int)
      requires Valid()
      modifies this
      ensures Valid()
      ensures Fields() == old(Fields()).(
                QOnServicesDiscovered := Channels.Post(old(QOnServicesDiscovered), ConvertStatusToStr(status)),
                SemaOnServicesDiscovered := old(SemaOnServicesDiscovered) + 1)
    {
      QOnServicesDiscovered := Channels.Post(QOnServicesDiscovered, ConvertStatusToStr(status));
      SemaOnServicesDiscovered := SemaOnServicesDiscovered + 1;
    }

    method OnCharacteristicChanged(uuid: string, value: seq<int>) returns (o: Outcome<(), PyException>)
      requires Valid()
      modifies this
      ensures Valid()
      ensures ByteArray(value).Raised? ==> o == Raised(ByteArray(value).error) && Fields() == old(Fields())
      ensures ByteArray(value).Returned? ==>
                && o == Returned(())
                && Fields() == old(Fields()).(
                     QOnCharacteristicChanged := Channels.Post(old(QOnCharacteristicChanged),
                       CharacteristicChanged(uuid, ByteArray(value).value)),
                     SemaOnCharacteristicChanged := old(SemaOnCharacteristicChanged) + 1)
    {
      var b := ByteArray(value);
      if b.Raised? {
        return Raised(b.error);
      }
      QOnCharacteristicChanged := Channels.Post(QOnCharacteristicChanged, CharacteristicChanged(uuid, b.value));
      SemaOnCharacteristicChanged := SemaOnCharacteristicChanged + 1;
      return Returned(());
    }

    method OnCharacteristicRead(uuid: string, status: int, value: seq<int>) returns (o: Outcome<(), PyException>)
      requires Valid()
      modifies this
      ensures Valid()
      ensures ByteArray(value).Raised? ==> o == Raised(ByteArray(value).error) && Fields() == old(Fields())
      ensures ByteArray(value).Returned? ==>
                && o == Returned(())
                && Fields() == old(Fields()).(
                     QOnCharacteristicRead := Channels.Post(old(QOnCharacteristicRead),
                       CharacteristicRead(uuid, ConvertStatusToStr(status), ByteArray(value).value)),
                     SemaOnCharacteristicRead := old(SemaOnCharacteristicRead) + 1)
    {
      var s := ConvertStatusToStr(status);
      var b := ByteArray(value);
      if b.Raised? {
        return Raised(b.error);
      }
      QOnCharacteristicRead := Channels.Post(QOnCharacteristicRead, CharacteristicRead(uuid, s, b.value));
      SemaOnCharacteristicRead := SemaOnCharacteristicRead + 1;
      return Returned(());
    }

    method OnCharacteristicWrite(uuid: string, status: int)
      requires Valid()
      modifies this
      ensures Valid()
      ensures Fields() == old(Fields()).(
                QOnCharacteristicWrite := Channels.Post(old(QOnCharacteristicWrite),
                  CharacteristicWrite(uuid, ConvertStatusToStr(status))),
                SemaOnCharacteristicWrite := old(SemaOnCharacteristicWrite) + 1)
    {
      QOnCharacteristicWrite := Channels.Post(QOnCharacteristicWrite, CharacteristicWrite(uuid, ConvertStatusToStr(status)));
      SemaOnCharacteristicWrite := SemaOnCharacteristicWrite + 1;
    }

    /** Unlike the other readers this one never fails: the value is queued unconverted. */
    method OnDescriptorRead(uuid: string, status: int, value: seq<int>)
      requires Valid()
      modifies this
      ensures Valid()
      ensures Fields() == old(Fields()).(
                QOnDescriptorRead := Channels.Post(old(QOnDescriptorRead),
                  DescriptorRead(uuid, ConvertStatusToStr(status), value)),
                SemaOnDescriptorRead := old(SemaOnDescriptorRead) + 1)
    {
      QOnDescriptorRead := Channels.Post(QOnDescriptorRead, DescriptorRead(uuid, ConvertStatusToStr(status), value));
      SemaOnDescriptorRead := SemaOnDescriptorRead + 1;
    }

    method OnDescriptorWrite(uuid: string, status: int)
      requires Valid()
      modifies this
      ensures Valid()
      ensures Fields() == old(Fields()).(
                QOnDescriptorWrite := Channels.Post(old(QOnDescriptorWrite),
                  DescriptorWrite(uuid, ConvertStatusToStr(status))),
                SemaOnDescriptorWrite := old(SemaOnDescriptorWrite) + 1)
    {
      QOnDescriptorWrite := Channels.Post(QOnDescriptorWrite, DescriptorWrite(uuid, ConvertStatusToStr(status)));
      SemaOnDescriptorWrite := SemaOnDescriptorWrite + 1;
    }
  }
}
