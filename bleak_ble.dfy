/**
 * The desktop (Bleak) BLE front end (src/ble/bleak/ble.py): the GATT
 * client registry, the lazily made scan tool, the capability answers, and
 * the disconnect-all pass that runs when the last WebSocket client leaves
 * or the app stops.
 */
module BleakBle {
  import opened Wrappers
  import opened BleExceptions
  import opened ClientRegistry

  /**
   * What leaves one client's visit in the disconnect-all pass: the try
   * covers both is_connected and disconnect, and only a BLEException is caught.
   */
  function Escape(p: Probe): Outcome<(), PyException>
  {
    match p.isConnected
    case Raised(e) => if IsBLEException(e.cls) then Returned(()) else Raised(e)
    case Returned(connected) =>
      if !connected then Returned(())
      else match p.disconnect
        case Returned(_) => Returned(())
        case Raised(e) => if IsBLEException(e.cls) then Returned(()) else Raised(e)
  }

  /** A client whose failures are all BLEExceptions. */
  predicate FailsOnlyWithBLE(p: Probe)
  {
    && (p.isConnected.Raised? ==> IsBLEException(p.isConnected.error.cls))
    && (p.isConnected == Returned(true) && p.disconnect.Raised? ==> IsBLEException(p.disconnect.error.cls))
  }

  /**
   * When every failure is a BLEException the pass finishes normally and
   * disconnects exactly the connected clients, in order.
   */
  lemma {:induction false} DisconnectSwallowsBLE(macs: seq<string>, probe: string -> Probe)
    requires forall m :: m in macs ==> FailsOnlyWithBLE(probe(m))
    ensures RunPass(macs, probe, Escape) == Pass(Connected(macs, probe), Returned(()))
    decreases |macs|
  {
    if macs != [] {
      var init := macs[..|macs| - 1];
      assert forall m :: m in init ==> m in macs;
      DisconnectSwallowsBLE(init, probe);
    }
  }

  /** What escapes the pass is never a BLEException. */
  lemma {:induction false} DisconnectEscapesNonBLE(macs: seq<string>, probe: string -> Probe)
    ensures RunPass(macs, probe, Escape).outcome.Raised? ==> !IsBLEException(RunPass(macs, probe, Escape).outcome.error.cls)
    decreases |macs|
  {
    if macs != [] {
      DisconnectEscapesNonBLE(macs[..|macs| - 1], probe);
    }
  }

  datatype BleState = BleState(registry: Registry, tool: Option<Tool>, disconnects: seq<string>)

  class BLE {
    var GATTClients: map<string, nat>
    var Order: seq<string>
    var ExecutorsMade: nat
    var BLEScanTool: Option<Tool>
    /** the MACs disconnect() was called on, in order */
    var Disconnects: seq<string>

    function Registry(): Registry
      reads this
    {
      ClientRegistry.Registry(GATTClients, Order, ExecutorsMade)
    }

    function Fields(): BleState
      reads this
    {
      BleState(Registry(), BLEScanTool, Disconnects)
    }

    ghost predicate Valid()
      reads this
    {
      ClientRegistry.Valid(Registry())
    }

    constructor()
      ensures Fields() == BleState(Empty(), None, [])
      ensures Valid()
    {
      GATTClients := map[];
      Order := [];
      ExecutorsMade := 0;
      BLEScanTool := None;
      Disconnects := [];
    }

    /** The given tool replaces whatever tool there was. */
    method SetScanTool(tool: nat)
      modifies this
      ensures Fields() == old(Fields()).(tool := Some(GivenTool(tool)))
    {
      BLEScanTool := Some(GivenTool(tool));
    }

    method IsBLESupported() returns (r: bool)
      ensures r
    {
      return true;
    }

    method IsEnabled() returns (r: bool)
      ensures r
    {
      var supported := IsBLESupported();
      if !supported {
        return false;
      }
      return true;
    }

    method RequestBLEEnableIfRequired() returns (r: bool)
      ensures r
    {
      return true;
    }

    /** BLE is always enabled here, so a tool is always returned: the existing one, or a new default one. */
    method GetBLEScanTool() returns (t: Option<Tool>)
      modifies this
      ensures t.Some? && t == BLEScanTool
      ensures old(BLEScanTool).Some? ==> Fields() == old(Fields())
      ensures old(BLEScanTool).None? ==> Fields() == old(Fields()).(tool := Some(DefaultTool))
    {
      var enabled := IsEnabled();
      if enabled {
        if BLEScanTool.None? {
          BLEScanTool := Some(DefaultTool);
        }
        return BLEScanTool;
      } else {
        return None;
      }
    }

    method GetGATTClient(macaddress: string) returns (gc: nat)
      requires Valid()
      modifies this
      ensures (Registry(), gc) == GetClient(old(Registry()), macaddress)
      ensures BLEScanTool == old(BLEScanTool) && Disconnects == old(Disconnects)
      ensures Valid()
    {
      GetClientValid(Registry(), macaddress);
      if macaddress in GATTClients {
        return GATTClients[macaddress];
      }
      gc := ExecutorsMade;
      ExecutorsMade := ExecutorsMade + 1;
      GATTClients := GATTClients[macaddress := gc];
      Order := Order + [macaddress];
    }

    /** `probe` gives each client's answers during this pass. */
    method DisconnectAllClients(probe: string -> Probe) returns (r: Outcome<(), PyException>)
      modifies this
      ensures r == RunPass(Order, probe, Escape).outcome
      ensures Fields() == old(Fields()).(disconnects := old(Disconnects) + RunPass(Order, probe, Escape).calls)
    {
      var i := 0;
      while i < |Order|
        invariant 0 <= i <= |Order|
        invariant RunPass(Order[..i], probe, Escape).outcome.Returned?
        invariant Fields() == old(Fields()).(disconnects := old(Disconnects) + RunPass(Order[..i], probe, Escape).calls)
      {
        var mac := Order[i];
        assert Order[..i + 1][..i] == Order[..i];
        var p := probe(mac);
        var escaped: Option<PyException> := None;
        if p.isConnected.Raised? {
          if !IsBLEException(p.isConnected.error.cls) {
            escaped := Some(p.isConnected.error);
          }
        } else if p.isConnected.value {
          Disconnects := Disconnects + [mac];
          if p.disconnect.Raised? && !IsBLEException(p.disconnect.error.cls) {
            escaped := Some(p.disconnect.error);
          }
        }
        if escaped.Some? {
          RaisedPassStops(Order, i + 1, probe, Escape);
          return Raised(escaped.value);
        }
        i := i + 1;
      }
      assert Order[..i] == Order;
      return Returned(());
    }

    /** on_stop is exactly a disconnect-all pass. */
    method OnStop(probe: string -> Probe) returns (r: Outcome<(), PyException>)
      modifies this
      ensures r == RunPass(Order, probe, Escape).outcome
      ensures Fields() == old(Fields()).(disconnects := old(Disconnects) + RunPass(Order, probe, Escape).calls)
    {
      r := DisconnectAllClients(probe);
    }
  }
}
