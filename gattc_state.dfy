/** The connection-state enum of a GATT client (src/ble/gattclientinterface.py). */
module GattTypes {

  datatype GATTCState = INIT | CONNECTED | DISCONNECTED | CANCELLED | CONNECTING | DISCONNECTING

  /** The enum's integer value. */
  function Value(s: GATTCState): int
  {
    match s
    case INIT => 0
    case CONNECTED => 1
    case DISCONNECTED => 2
    case CANCELLED => 3
    case CONNECTING => 4
    case DISCONNECTING => 5
  }

  /** The enum member's name, as `state.name` yields it. */
  function Name(s: GATTCState): string
  {
    match s
    case INIT => "INIT"
    case CONNECTED => "CONNECTED"
    case DISCONNECTED => "DISCONNECTED"
    case CANCELLED => "CANCELLED"
    case CONNECTING => "CONNECTING"
    case DISCONNECTING => "DISCONNECTING"
  }

  /** Distinct members have distinct values and distinct names. */
  lemma ValuesAndNamesDistinct(s: GATTCState, t: GATTCState)
    ensures Value(s) == Value(t) <==> s == t
    ensures Name(s) == Name(t) <==> s == t
  {
  }
}
