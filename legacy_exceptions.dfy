/**
 * The earlier exception hierarchy (ble/bleexceptions.py), used by the
 * operation queue and the Android GATT client of the `ble` tree.  Its two
 * grouping classes define no EID, and it has no UnknownException,
 * MismatchedOperation or NoCallbackProvided.
 */
module LegacyExceptions {
  import opened Wrappers
  import BleExceptions

  datatype LegacyClass =
    | BLEException
    | BLEOpException
    | BLEOperationNotIssued
    | BLEOperationTimedOut
    | BLEScanException
    | BLEAlreadyScanning
    | BLECouldntDiscoverServices
    | BLEConnectionError

  function Base(c: LegacyClass): Option<LegacyClass>
  {
    match c
    case BLEException => None
    case BLEOpException => Some(BLEException)
    case BLEOperationNotIssued => Some(BLEOpException)
    case BLEOperationTimedOut => Some(BLEOpException)
    case BLEScanException => Some(BLEException)
    case BLEAlreadyScanning => Some(BLEScanException)
    case BLECouldntDiscoverServices => Some(BLEException)
    case BLEConnectionError => Some(BLEException)
  }

  /** The EID attribute, None for the classes that do not define one. */
  function Eid(c: LegacyClass): Option<int>
  {
    match c
    case BLEException => None
    case BLEOpException => None
    case BLEOperationNotIssued => Some(1)
    case BLEOperationTimedOut => Some(2)
    case BLEScanException => Some(3)
    case BLEAlreadyScanning => Some(4)
    case BLECouldntDiscoverServices => Some(5)
    case BLEConnectionError => Some(6)
  }

  /** The class of the same name in the current hierarchy. */
  function Current(c: LegacyClass): BleExceptions.ExcClass
  {
    match c
    case BLEException => BleExceptions.BLEException
    case BLEOpException => BleExceptions.BLEOpException
    case BLEOperationNotIssued => BleExceptions.BLEOperationNotIssued
    case BLEOperationTimedOut => BleExceptions.BLEOperationTimedOut
    case BLEScanException => BleExceptions.BLEScanException
    case BLEAlreadyScanning => BleExceptions.BLEAlreadyScanning
    case BLECouldntDiscoverServices => BleExceptions.BLECouldntDiscoverServices
    case BLEConnectionError => BleExceptions.BLEConnectionError
  }

  /** Exactly the two grouping classes lack an EID; the others have 1..6, pairwise distinct. */
  lemma EidsDefinedAndDistinct(c: LegacyClass, d: LegacyClass)
    ensures Eid(c).None? <==> c in {BLEException, BLEOpException}
    ensures Eid(c).Some? ==> 1 <= Eid(c).value <= 6
    ensures Eid(c).Some? && Eid(c) == Eid(d) ==> c == d
  {
  }

  /** Every legacy EID survives unchanged in the current hierarchy, and bases agree. */
  lemma AgreesWithCurrent(c: LegacyClass)
    ensures Eid(c).Some? ==> Eid(c).value == BleExceptions.Eid(Current(c))
    ensures Base(c).Some? ==> BleExceptions.Base(Current(c)) == Some(Current(Base(c).value))
    ensures Base(c).None? ==> BleExceptions.Base(Current(c)).None?
  {
  }
}
