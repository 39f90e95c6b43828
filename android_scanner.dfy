/**
 * The Android scan tool's bookkeeping (ble/android/blescanner.py).  It
 * keeps the same queue and dicts as the Bleak tool, but stops the native
 * scan itself once the duration is exceeded.  Clock readings are integers
 * supplied by the caller, and the calls made on the native
 * BluetoothLeScanner are recorded in order.
 */
module AndroidScanner {
  import opened Wrappers
  import opened BleExceptions
  import opened ScanResults
  import Legacy = LegacyExceptions

  datatype ScannerCall = NativeStopScan | NativeStartScan

  datatype ScanState = ScanState(
    scanQ: seq<BLEScanResult>,
    seen: map<string, BLEScanResult>,
    previous: map<string, BLEScanResult>,
    startTime: int,
    duration: int,
    scanning: bool,
    hasScanner: bool,
    calls: seq<ScannerCall>)

  /** What startScan raises while a scan is running. */
  function AlreadyScanning(): PyException
  {
    PyException(Legacy.Current(Legacy.BLEAlreadyScanning), "A BLE scan is already running")
  }

  /** _addEntry reaching self.BLEScanner before any startScan has set it. */
  function NoScanner(): PyException
  {
    Builtin("AttributeError", "'BLEScanTool' object has no attribute 'BLEScanner'")
  }

  class BLEScanTool {
    var ScanQ: seq<BLEScanResult>
    var Seen: map<string, BLEScanResult>
    var Previous: map<string, BLEScanResult>
    var StartTime: int
    var Duration: int
    var Scanning: bool
    /** whether startScan has set the BLEScanner attribute */
    var HasScanner: bool
    var NativeCalls: seq<ScannerCall>

    function Fields(): ScanState
      reads this
    {
      ScanState(ScanQ, Seen, Previous, StartTime, Duration, Scanning, HasScanner, NativeCalls)
    }

    constructor(now: int)
      ensures Fields() == ScanState([], map[], map[], now, 0, false, false, [])
    {
      ScanQ := [];
      Seen := map[];
      Previous := map[];
      StartTime := now;
      Duration := 0;
      Scanning := false;
      HasScanner := false;
      NativeCalls := [];
    }

    /** Empties the queue into Seen, oldest entry first, and returns Seen. */
    method GetSeenEntries() returns (s: map<string, BLEScanResult>)
      modifies this
      ensures Fields() == old(Fields()).(scanQ := [], seen := Drain(old(Seen), old(ScanQ)))
      ensures s == Seen
    {
      ghost var q0 := ScanQ;
      ghost var i := 0;
      while ScanQ != []
        invariant 0 <= i <= |q0| && ScanQ == q0[i..]
        invariant Seen == Drain(old(Seen), q0[..i])
        invariant Fields() == old(Fields()).(scanQ := ScanQ, seen := Seen)
        decreases |ScanQ|
      {
        var item := ScanQ[0];
        ScanQ := ScanQ[1..];
        assert q0[..i + 1][..i] == q0[..i];
        Seen := Seen[item.MAC := item];
        i := i + 1;
      }
      assert q0[..i] == q0;
      return Seen;
    }

    method IsScanning() returns (r: bool)
      ensures r == Scanning
    {
      return Scanning;
    }

    /** Time left in the current scan; 0 once it is over, never negative. */
    method ScanTimeLeft(now: int) returns (left: int)
      ensures left >= 0
      ensures Duration - (now - StartTime) > 0 ==> left == Duration - (now - StartTime)
      ensures Duration - (now - StartTime) <= 0 ==> left == 0
    {
      left := Duration - (now - StartTime);
      if left > 0 {
        return left;
      } else {
        return 0;
      }
    }

    method GetPreviousEntries() returns (p: map<string, BLEScanResult>)
      ensures p == Previous
    {
      return Previous;
    }

    /**
     * The scan callback's entry point: queue the entry; once the duration is
     * exceeded, stop the native scan and mark the scan over.
     */
    method AddEntry(entry: BLEScanResult, now: int) returns (r: Outcome<(), PyException>)
      modifies this
      ensures now - StartTime <= Duration ==> r == Returned(()) && Fields() == old(Fields()).(scanQ := old(ScanQ) + [entry])
      ensures now - StartTime > Duration && !HasScanner ==>
        r == Raised(NoScanner()) && Fields() == old(Fields()).(scanQ := old(ScanQ) + [entry])
      ensures now - StartTime > Duration && HasScanner ==>
        r == Returned(()) && Fields() == old(Fields()).(
          scanQ := old(ScanQ) + [entry], calls := old(NativeCalls) + [NativeStopScan], scanning := false)
    {
      ScanQ := ScanQ + [entry];
      var tdelta := now - StartTime;
      if tdelta > Duration {
        if !HasScanner {
          return Raised(NoScanner());
        }
        NativeCalls := NativeCalls + [NativeStopScan];
        Scanning := false;
      }
      return Returned(());
    }

    method ResetTimer(now: int)
      modifies this
      ensures Fields() == old(Fields()).(startTime := now)
    {
      StartTime := now;
    }

    /** Previous gains every entry of Seen, an entry of Seen replacing one for the same MAC. */
    method CarryOverSeen()
      modifies this
      ensures forall k :: k in Previous <==> k in old(Previous) || k in old(Seen)
      ensures forall k :: k in old(Seen) ==> Previous[k] == old(Seen)[k]
      ensures forall k :: k in old(Previous) && k !in old(Seen) ==> Previous[k] == old(Previous)[k]
      ensures Previous == old(Previous) + old(Seen)
      ensures Fields() == old(Fields()).(previous := Previous)
    {
      var keys := Seen.Keys;
      ghost var done: set<string> := {};
      while keys != {}
        invariant keys + done == Seen.Keys && keys !! done
        invariant forall k :: k in Previous <==> k in old(Previous) || k in done
        invariant forall k :: k in done ==> Previous[k] == Seen[k]
        invariant forall k :: k in old(Previous) && k !in done ==> Previous[k] == old(Previous)[k]
        invariant Fields() == old(Fields()).(previous := Previous)
        decreases keys
      {
        var k :| k in keys;
        Previous := Previous[k := Seen[k]];
        keys := keys - {k};
        done := done + {k};
      }
      assert Previous == old(Previous) + old(Seen);
    }

    /**
     * Starts a scan of `duration`: refused while one is running, otherwise
     * the previous results absorb the current ones, the current ones start
     * empty, and the native scan is stopped and restarted.
     */
    method StartScan(duration: int, now: int) returns (r: Outcome<(), PyException>)
      modifies this
      ensures old(Scanning) ==> r == Raised(AlreadyScanning()) && Fields() == old(Fields())
      ensures !old(Scanning) ==> r == Returned(()) && Fields() == old(Fields()).(
        seen := map[], previous := old(Previous) + old(Seen), startTime := now, duration := duration,
        scanning := true, hasScanner := true, calls := old(NativeCalls) + [NativeStopScan, NativeStartScan])
    {
      var running := IsScanning();
      if running {
        return Raised(AlreadyScanning());
      }
      Duration := duration;
      CarryOverSeen();
      Seen := map[];
      HasScanner := true;
      NativeCalls := NativeCalls + [NativeStopScan];
      NativeCalls := NativeCalls + [NativeStartScan];
      Scanning := true;
      ResetTimer(now);
      return Returned(());
    }
  }
}
