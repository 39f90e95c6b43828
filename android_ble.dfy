/**
 * The Android BLE front end (src/ble/android/ble.py).  The Bluetooth
 * adapter is an input: whether there is one decides whether the object can
 * be made at all, and whether it is enabled is read at each call.  Enable
 * requests sent to the user are counted.
 */
module AndroidBle {
  import opened Wrappers
  import opened BleExceptions
  import opened ClientRegistry

  /**
   * What leaves one client's visit in the disconnect-all pass: is_connected
   * is outside the try, so its exception escapes; the bare except swallows
   * anything disconnect raises.
   */
  function Escape(p: Probe): Outcome<(), PyException>
  {
    match p.isConnected
    case Raised(e) => Raised(e)
    case Returned(_) => Returned(())
  }

  /**
   * When every is_connected answers, the pass finishes normally and
   * disconnects exactly the connected clients, whatever disconnect raises.
   */
  lemma {:induction false} DisconnectSwallowsAll(macs: seq<string>, probe: string -> Probe)
    requires forall m :: m in macs ==> probe(m).isConnected.Returned?
    ensures RunPass(macs, probe, Escape) == Pass(Connected(macs, probe), Returned(()))
    decreases |macs|
  {
    if macs != [] {
      var init := macs[..|macs| - 1];
      assert forall m :: m in init ==> m in macs;
      DisconnectSwallowsAll(init, probe);
    }
  }

  /** An exception that escapes the pass came from some client's is_connected. */
  lemma {:induction false} DisconnectEscapesFromIsConnected(macs: seq<string>, probe: string -> Probe)
    ensures RunPass(macs, probe, Escape).outcome.Raised? ==>
      exists m :: m in macs && probe(m).isConnected == Raised(RunPass(macs, probe, Escape).outcome.error)
    decreases |macs|
  {
    if macs != [] {
      var init := macs[..|macs| - 1];
      DisconnectEscapesFromIsConnected(init, probe);
      assert forall m :: m in init ==> m in macs;
      assert macs[|macs| - 1] in macs;
    }
  }

  datatype BleState = BleState(registry: Registry, tool: Option<Tool>, enableRequests: nat, disconnects: seq<string>)

  /** cancelDiscovery() called on the None that getDefaultAdapter() gives without an adapter. */
  function NoAdapter(): PyException
  {
    Builtin("AttributeError", "'NoneType' object has no attribute 'cancelDiscovery'")
  }

  class BLE {
    var GATTClients: map<string, nat>
    var Order: seq<string>
    var ExecutorsMade: nat
    var BLEScanTool: Option<Tool>
    /** how many enable requests were shown to the user */
    var EnableRequests: nat
    /** the MACs disconnect() was called on, in order */
    var Disconnects: seq<string>

    function Registry(): Registry
      reads this
    {
      ClientRegistry.Registry(GATTClients, Order, ExecutorsMade)
    }

    function Fields(): BleState
      reads this
    {
      BleState(Registry(), BLEScanTool, EnableRequests, Disconnects)
    }

    ghost predicate Valid()
      reads this
    {
      ClientRegistry.Valid(Registry())
    }

    /** __init__ once getDefaultAdapter() has given an adapter. */
    constructor()
      ensures Fields() == BleState(Empty(), None, 0, [])
      ensures Valid()
    {
      GATTClients := map[];
      Order := [];
      ExecutorsMade := 0;
      BLEScanTool := None;
      EnableRequests := 0;
      Disconnects := [];
    }

    /**
     * __init__: it calls cancelDiscovery() on whatever getDefaultAdapter()
     * gave, so without an adapter no object is made and AttributeError
     * escapes.
     */
    static method Create(hasAdapter: bool) returns (r: Outcome<BLE, PyException>)
      ensures !hasAdapter ==> r == Raised(NoAdapter())
      ensures hasAdapter ==> r.Returned? && fresh(r.value) && r.value.Fields() == BleState(Empty(), None, 0, []) && r.value.Valid()
    {
      if !hasAdapter {
        return Raised(NoAdapter());
      }
      var ble := new BLE();
      return Returned(ble);
    }

    /** The given tool replaces whatever tool there was. */
    method SetScanTool(tool: nat)
      modifies this
      ensures Fields() == old(Fields()).(tool := Some(GivenTool(tool)))
    {
      BLEScanTool := Some(GivenTool(tool));
    }

    /** The adapter is not None: every object made has one. */
    method IsBLESupported() returns (r: bool)
      ensures r
    {
      return true;
    }

    /** Supported and the adapter's own enabled flag set. */
    method IsEnabled(adapterEnabled: bool) returns (r: bool)
      ensures r == adapterEnabled
    {
      var supported := IsBLESupported();
      return supported && adapterEnabled;
    }

    /** A request is shown, and true returned, exactly when the adapter is disabled. */
    method RequestBLEEnableIfRequired(adapterEnabled: bool) returns (r: bool)
      modifies this
      ensures r == !adapterEnabled
      ensures Fields() == old(Fields()).(enableRequests := old(EnableRequests) + if r then 1 else 0)
    {
      var supported := IsBLESupported();
      var enabled := IsEnabled(adapterEnabled);
      if supported && !enabled {
        EnableRequests := EnableRequests + 1;
        return true;
      }
      return false;
    }

    /** None while BLE is not enabled; otherwise the existing tool, or a new default one. */
    method GetBLEScanTool(adapterEnabled: bool) returns (t: Option<Tool>)
      modifies this
      ensures t.None? <==> !adapterEnabled
      ensures t.Some? ==> t == BLEScanTool
      ensures if t.Some? && old(BLEScanTool).None?
        then Fields() == old(Fields()).(tool := Some(DefaultTool))
        else Fields() == old(Fields())
    {
      var enabled := IsEnabled(adapterEnabled);
      if enabled {
        if BLEScanTool.None? {
          BLEScanTool := Some(DefaultTool);
        }
        return BLEScanTool;
      } else {
        return None;
      }
    }

    method GetGATTClient(macaddress: string) returns (gc: nat)
      requires Valid()
      modifies this
      ensures (Registry(), gc) == GetClient(old(Registry()), macaddress)
      ensures BLEScanTool == old(BLEScanTool) && EnableRequests == old(EnableRequests) && Disconnects == old(Disconnects)
      ensures Valid()
    {
      GetClientValid(Registry(), macaddress);
      if macaddress in GATTClients {
        return GATTClients[macaddress];
      }
      gc := ExecutorsMade;
      ExecutorsMade := ExecutorsMade + 1;
      GATTClients := GATTClients[macaddress := gc];
      Order := Order + [macaddress];
    }

    /** `probe` gives each client's answers during this pass. */
    method DisconnectAllClients(probe: string -> Probe) returns (r: Outcome<(), PyException>)
      modifies this
      ensures r == RunPass(Order, probe, Escape).outcome
      ensures Fields() == old(Fields()).(disconnects := old(Disconnects) + RunPass(Order, probe, Escape).calls)
    {
      var i := 0;
      while i < |Order|
        invariant 0 <= i <= |Order|
        invariant RunPass(Order[..i], probe, Escape).outcome.Returned?
        invariant Fields() == old(Fields()).(disconnects := old(Disconnects) + RunPass(Order[..i], probe, Escape).calls)
      {
        var mac := Order[i];
        assert Order[..i + 1][..i] == Order[..i];
        var p := probe(mac);
        if p.isConnected.Raised? {
          RaisedPassStops(Order, i + 1, probe, Escape);
          return Raised(p.isConnected.error);
        }
        if p.isConnected.value {
          // whatever disconnect raises is dropped by the bare except
          Disconnects := Disconnects + [mac];
        }
        i := i + 1;
      }
      assert Order[..i] == Order;
      return Returned(());
    }

    /** on_stop delegates to disconnectAllClients. */
    method OnStop(probe: string -> Probe) returns (r: Outcome<(), PyException>)
      modifies this
      ensures r == RunPass(Order, probe, Escape).outcome
      ensures Fields() == old(Fields()).(disconnects := old(Disconnects) + RunPass(Order, probe, Escape).calls)
    {
      r := DisconnectAllClients(probe);
    }
  }
}
