/**
 * The per-MAC GATT client registry that every BLE front end keeps
 * (src/ble/bleak/ble.py, src/ble/android/ble.py, ble/android/ble.py):
 * a dict from MAC address to client, filled on first lookup.  A client is
 * represented by the serial number of the executor made for it, so two
 * clients are the same object exactly when their numbers agree.
 */
module ClientRegistry {
  import opened Wrappers
  import opened BleExceptions

  /** The dict, its insertion order (Python's iteration order) and the executors made so far. */
  datatype Registry = Registry(clients: map<string, nat>, order: seq<string>, made: nat)

  /** Every client was made by this registry, no two MACs share one, and the order lists each key once. */
  ghost predicate Valid(r: Registry)
  {
    && (forall mac :: mac in r.clients <==> mac in r.order)
    && (forall i, j :: 0 <= i < j < |r.order| ==> r.order[i] != r.order[j])
    && (forall mac :: mac in r.clients ==> r.clients[mac] < r.made)
    && (forall a, b :: a in r.clients && b in r.clients && a != b ==> r.clients[a] != r.clients[b])
  }

  function Empty(): (r: Registry)
    ensures Valid(r)
  {
    Registry(map[], [], 0)
  }

  /** getGATTClient: the registered client if there is one, otherwise a new one with a new executor. */
  function GetClient(r: Registry, mac: string): (res: (Registry, nat))
  {
    if mac in r.clients then (r, r.clients[mac])
    else (Registry(r.clients[mac := r.made], r.order + [mac], r.made + 1), r.made)
  }

  /** A lookup keeps the registry valid, and registers the MAC under the client it returns. */
  lemma GetClientValid(r: Registry, mac: string)
    requires Valid(r)
    ensures Valid(GetClient(r, mac).0)
    ensures mac in GetClient(r, mac).0.clients && GetClient(r, mac).0.clients[mac] == GetClient(r, mac).1
  {
    if mac !in r.clients {
      var r' := GetClient(r, mac).0;
      forall i, j | 0 <= i < j < |r'.order|
        ensures r'.order[i] != r'.order[j]
      {
        if j == |r.order| {
          assert r'.order[i] == r.order[i];
        }
      }
    }
  }

  /** Asking again for the same MAC returns the same client and changes nothing. */
  lemma GetClientStable(r: Registry, mac: string)
    ensures var (r', gc) := GetClient(r, mac); GetClient(r', mac) == (r', gc)
  {
  }

  /** An existing client is returned as is; only an unknown MAC makes an executor. */
  lemma GetClientMakesOnlyForNewMac(r: Registry, mac: string)
    ensures GetClient(r, mac).0.made == r.made + (if mac in r.clients then 0 else 1)
    ensures mac in r.clients ==> GetClient(r, mac).0 == r
  {
  }

  /** A new MAC gets a client that no other MAC has; the others keep theirs. */
  lemma NewMacNewClient(r: Registry, mac: string)
    requires Valid(r) && mac !in r.clients
    ensures forall other :: other in r.clients ==> GetClient(r, mac).1 != r.clients[other]
    ensures forall other :: other in r.clients ==> GetClient(r, mac).0.clients[other] == r.clients[other]
  {
  }

  /** A front end's scan tool: the default one, made there at most once, or one handed in with setScanTool. */
  datatype Tool = DefaultTool | GivenTool(id: nat)

  // ------------------------------------------------ disconnecting all

  /**
   * What one client answers while everything is being disconnected:
   * is_connected(), then (if called) disconnect().
   */
  datatype Probe = Probe(isConnected: Outcome<bool, PyException>, disconnect: Outcome<(), PyException>)

  /** The MACs, in order, whose client reports being connected. */
  function Connected(macs: seq<string>, probe: string -> Probe): (c: seq<string>)
    ensures forall m :: m in c ==> m in macs && probe(m).isConnected == Returned(true)
    ensures forall m :: m in macs && probe(m).isConnected == Returned(true) ==> m in c
    decreases |macs|
  {
    if macs == [] then []
    else
      var rest := Connected(macs[..|macs| - 1], probe);
      var m := macs[|macs| - 1];
      assert forall x :: x in macs ==> x in macs[..|macs| - 1] || x == m;
      if probe(m).isConnected == Returned(true) then rest + [m] else rest
  }

  /** The result of a disconnect-all pass: the disconnect calls made and whether an exception escaped. */
  datatype Pass = Pass(calls: seq<string>, outcome: Outcome<(), PyException>)

  /** One client's visit adds a disconnect call exactly when is_connected answered True. */
  function StepCalls(calls: seq<string>, mac: string, p: Probe): seq<string>
  {
    if p.isConnected == Returned(true) then calls + [mac] else calls
  }

  /**
   * disconnectAllClients over the clients in iteration order.  `escape`
   * says what leaves one client's visit, which is where the front ends
   * differ; the first exception that escapes ends the pass.
   */
  function RunPass(macs: seq<string>, probe: string -> Probe, escape: Probe -> Outcome<(), PyException>): Pass
    decreases |macs|
  {
    if macs == [] then Pass([], Returned(()))
    else
      var prev := RunPass(macs[..|macs| - 1], probe, escape);
      var m := macs[|macs| - 1];
      if prev.outcome.Raised? then prev else Pass(StepCalls(prev.calls, m, probe(m)), escape(probe(m)))
  }

  /**
   * The pass visits a prefix of the clients (all of them when nothing
   * escapes) and calls disconnect on exactly the connected ones among
   * them, in order; so disconnect is only called on a connected client.
   */
  lemma {:induction false} PassDisconnectsConnected(macs: seq<string>, probe: string -> Probe,
                                                     escape: Probe -> Outcome<(), PyException>)
    ensures exists k :: 0 <= k <= |macs| && RunPass(macs, probe, escape).calls == Connected(macs[..k], probe)
                        && (RunPass(macs, probe, escape).outcome.Returned? ==> k == |macs|)
    ensures forall m :: m in RunPass(macs, probe, escape).calls ==> m in macs && probe(m).isConnected == Returned(true)
    decreases |macs|
  {
    if macs == [] {
      assert macs[..0] == [];
    } else {
      var init := macs[..|macs| - 1];
      PassDisconnectsConnected(init, probe, escape);
      var k :| 0 <= k <= |init| && RunPass(init, probe, escape).calls == Connected(init[..k], probe)
               && (RunPass(init, probe, escape).outcome.Returned? ==> k == |init|);
      if RunPass(init, probe, escape).outcome.Raised? {
        assert init[..k] == macs[..k];
        assert forall m :: m in macs[..k] ==> m in macs;
      } else {
        assert init[..k] == init && macs[..|macs|] == macs;
      }
    }
  }

  /** Once an exception escapes, the clients after it are not visited. */
  lemma {:induction false} RaisedPassStops(macs: seq<string>, k: nat, probe: string -> Probe,
                                           escape: Probe -> Outcome<(), PyException>)
    requires k <= |macs| && RunPass(macs[..k], probe, escape).outcome.Raised?
    ensures RunPass(macs, probe, escape) == RunPass(macs[..k], probe, escape)
    decreases |macs| - k
  {
    if k < |macs| {
      assert macs[..k + 1][..k] == macs[..k];
      RaisedPassStops(macs, k + 1, probe, escape);
    } else {
      assert macs[..k] == macs;
    }
  }
}
