/**
 * The exception hierarchy of the current tree (src/ble/bleexceptions.py) and
 * the exceptions the rest of the model raises.
 *
 * Every class of the hierarchy carries a class-level EID that the WebSocket
 * server copies into its wire error codes.  Python's built-in exceptions
 * (KeyError, TypeError, ...) and the parser's ParseException are not part of
 * the hierarchy; they are represented by `Other(name)`.
 */
module BleExceptions {
  import opened Wrappers

  datatype ExcClass =
    | UnknownException
    | BLEException
    | BLEOpException
    | BLEOperationNotIssued
    | BLEOperationTimedOut
    | BLEScanException
    | BLEAlreadyScanning
    | BLECouldntDiscoverServices
    | BLEConnectionError
    | BLEMismatchedOperation
    | BLENoCallbackProvided
    | Other(name: string)

  /** A raised Python exception: its class and the message it was built with. */
  datatype PyException = PyException(cls: ExcClass, msg: string)

  /** Convenience constructor for a built-in or foreign exception. */
  function Builtin(name: string, msg: string): PyException
  {
    PyException(Other(name), msg)
  }

  /** The direct base class, or None when the base is Python's own Exception. */
  function Base(c: ExcClass): Option<ExcClass>
  {
    match c
    case BLEOpException => Some(BLEException)
    case BLEOperationNotIssued => Some(BLEOpException)
    case BLEOperationTimedOut => Some(BLEOpException)
    case BLEScanException => Some(BLEException)
    case BLEAlreadyScanning => Some(BLEScanException)
    case BLECouldntDiscoverServices => Some(BLEException)
    case BLEConnectionError => Some(BLEException)
    case BLEMismatchedOperation => Some(BLEException)
    case BLENoCallbackProvided => Some(BLEException)
    case _ => None
  }

  /** Number of steps from `c` up to a class whose base is Exception. */
  function Depth(c: ExcClass): nat
  {
    match c
    case BLEOperationNotIssued => 2
    case BLEOperationTimedOut => 2
    case BLEAlreadyScanning => 2
    case BLEOpException => 1
    case BLEScanException => 1
    case BLECouldntDiscoverServices => 1
    case BLEConnectionError => 1
    case BLEMismatchedOperation => 1
    case BLENoCallbackProvided => 1
    case _ => 0
  }

  /** Python's issubclass(c, d), following Base. */
  predicate IsSubclass(c: ExcClass, d: ExcClass)
    decreases Depth(c)
  {
    c == d || (Base(c).Some? && Depth(Base(c).value) < Depth(c) && IsSubclass(Base(c).value, d))
  }

  /** `except BLEException` catches exactly these classes. */
  predicate IsBLEException(c: ExcClass)
  {
    IsSubclass(c, BLEException)
  }

  /** The class-level EID; defined on every class of the hierarchy. */
  function Eid(c: ExcClass): int
    requires !c.Other?
  {
    match c
    case UnknownException => 1000
    case BLEException => 20000
    case BLEOpException => 500
    case BLEOperationNotIssued => 1
    case BLEOperationTimedOut => 2
    case BLEScanException => 3
    case BLEAlreadyScanning => 4
    case BLECouldntDiscoverServices => 5
    case BLEConnectionError => 6
    case BLEMismatchedOperation => 7
    case BLENoCallbackProvided => 8
  }

  /** The leaf classes, whose EIDs 1..8 reach the wire. */
  predicate IsLeaf(c: ExcClass)
  {
    !c.Other? && c !in {UnknownException, BLEException, BLEOpException}
  }

  /** Leaf EIDs are 1..8 and the three non-leaves have 500, 1000 and 20000. */
  lemma LeafEidsAreSmall(c: ExcClass)
    requires !c.Other?
    ensures IsLeaf(c) <==> 1 <= Eid(c) <= 8
  {
  }

  /** No two classes of the hierarchy share an EID. */
  lemma EidsDistinct(c: ExcClass, d: ExcClass)
    requires !c.Other? && !d.Other?
    ensures Eid(c) == Eid(d) <==> c == d
  {
  }

  /** Every class except UnknownException (and foreign classes) is a BLEException. */
  lemma BLEExceptionMembers(c: ExcClass)
    ensures IsBLEException(c) <==> (!c.Other? && c != UnknownException)
  {
  }

  /** The intermediate classes that group the leaves. */
  lemma HierarchyShape()
    ensures IsSubclass(BLEOperationNotIssued, BLEOpException)
    ensures IsSubclass(BLEOperationTimedOut, BLEOpException)
    ensures IsSubclass(BLEAlreadyScanning, BLEScanException)
    ensures !IsSubclass(BLEAlreadyScanning, BLEOpException)
    ensures !IsSubclass(BLEOpException, BLEScanException)
    ensures !IsSubclass(UnknownException, BLEException)
  {
  }
}
