/**
 * The earlier Android BLE front end (ble/android/ble.py): the same client
 * registry and capability answers as the current one, without a
 * disconnect-all pass.  The adapter is an input as there.
 */
module LegacyAndroidBle {
  import opened Wrappers
  import opened BleExceptions
  import opened ClientRegistry

  datatype BleState = BleState(registry: Registry, tool: Option<Tool>, enableRequests: nat)

  /** cancelDiscovery() called on the None that getDefaultAdapter() gives without an adapter. */
  function NoAdapter(): PyException
  {
    Builtin("AttributeError", "'NoneType' object has no attribute 'cancelDiscovery'")
  }

  class BLE {
    var GATTClients: map<string, nat>
    var Order: seq<string>
    var ExecutorsMade: nat
    var BLEScanTool: Option<Tool>
    /** how many enable requests were shown to the user */
    var EnableRequests: nat

    function Registry(): Registry
      reads this
    {
      ClientRegistry.Registry(GATTClients, Order, ExecutorsMade)
    }

    function Fields(): BleState
      reads this
    {
      BleState(Registry(), BLEScanTool, EnableRequests)
    }

    ghost predicate Valid()
      reads this
    {
      ClientRegistry.Valid(Registry())
    }

    /** __init__ once getDefaultAdapter() has given an adapter. */
    constructor()
      ensures Fields() == BleState(Empty(), None, 0)
      ensures Valid()
    {
      GATTClients := map[];
      Order := [];
      ExecutorsMade := 0;
      BLEScanTool := None;
      EnableRequests := 0;
    }

    /**
     * __init__: it calls cancelDiscovery() on whatever getDefaultAdapter()
     * gave, so without an adapter no object is made and AttributeError
     * escapes.
     */
    static method Create(hasAdapter: bool) returns (r: Outcome<BLE, PyException>)
      ensures !hasAdapter ==> r == Raised(NoAdapter())
      ensures hasAdapter ==> r.Returned? && fresh(r.value) && r.value.Fields() == BleState(Empty(), None, 0) && r.value.Valid()
    {
      if !hasAdapter {
        return Raised(NoAdapter());
      }
      var ble := new BLE();
      return Returned(ble);
    }

    /** The given tool replaces whatever tool there was. */
    method SetScanTool(tool: nat)
      modifies this
      ensures Fields() == old(Fields()).(tool := Some(GivenTool(tool)))
    {
      BLEScanTool := Some(GivenTool(tool));
    }

    /** The adapter is not None: every object made has one. */
    method IsBLESupported() returns (r: bool)
      ensures r
    {
      return true;
    }

    /** Supported and the adapter's own enabled flag set. */
    method IsEnabled(adapterEnabled: bool) returns (r: bool)
      ensures r == adapterEnabled
    {
      var supported := IsBLESupported();
      return supported && adapterEnabled;
    }

    /** A request is shown, and true returned, exactly when the adapter is disabled. */
    method RequestBLEEnableIfRequired(adapterEnabled: bool) returns (r: bool)
      modifies this
      ensures r == !adapterEnabled
      ensures Fields() == old(Fields()).(enableRequests := old(EnableRequests) + if r then 1 else 0)
    {
      var supported := IsBLESupported();
      var enabled := IsEnabled(adapterEnabled);
      if supported && !enabled {
        EnableRequests := EnableRequests + 1;
        return true;
      }
      return false;
    }

    /** None while BLE is not enabled; otherwise the existing tool, or a new default one. */
    method GetBLEScanTool(adapterEnabled: bool) returns (t: Option<Tool>)
      modifies this
      ensures t.None? <==> !adapterEnabled
      ensures t.Some? ==> t == BLEScanTool
      ensures if t.Some? && old(BLEScanTool).None?
        then Fields() == old(Fields()).(tool := Some(DefaultTool))
        else Fields() == old(Fields())
    {
      var enabled := IsEnabled(adapterEnabled);
      if enabled {
        if BLEScanTool.None? {
          BLEScanTool := Some(DefaultTool);
        }
        return BLEScanTool;
      } else {
        return None;
      }
    }

    method GetGATTClient(macaddress: string) returns (gc: nat)
      requires Valid()
      modifies this
      ensures (Registry(), gc) == GetClient(old(Registry()), macaddress)
      ensures BLEScanTool == old(BLEScanTool) && EnableRequests == old(EnableRequests)
      ensures Valid()
    {
      GetClientValid(Registry(), macaddress);
      if macaddress in GATTClients {
        return GATTClients[macaddress];
      }
      gc := ExecutorsMade;
      ExecutorsMade := ExecutorsMade + 1;
      GATTClients := GATTClients[macaddress := gc];
      Order := Order + [macaddress];
    }
  }
}
