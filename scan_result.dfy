/**
 * One advertisement seen during a scan (ble/blescanresult.py), and the
 * bookkeeping both scan tools do with them: draining the queue filled by
 * the scan callback into the dict of entries seen, keyed by MAC.
 */
module ScanResults {
  /** `device` and `record` are platform handles, kept as opaque numbers. */
  datatype BLEScanResult = BLEScanResult(MAC: string, name: string, uuids: seq<string>, device: nat, record: nat)

  /** `seen` after storing each queued entry under its MAC, oldest first. */
  function Drain(seen: map<string, BLEScanResult>, q: seq<BLEScanResult>): map<string, BLEScanResult>
    decreases |q|
  {
    if q == [] then seen else Drain(seen, q[..|q| - 1])[q[|q| - 1].MAC := q[|q| - 1]]
  }

  /** The MACs afterwards are those seen before and those of the queued entries. */
  lemma {:induction false} DrainKeys(seen: map<string, BLEScanResult>, q: seq<BLEScanResult>)
    ensures Drain(seen, q).Keys == seen.Keys + (set e | e in q :: e.MAC)
    decreases |q|
  {
    if q != [] {
      var init := q[..|q| - 1];
      DrainKeys(seen, init);
      assert q == init + [q[|q| - 1]];
      assert (set e | e in q :: e.MAC) == (set e | e in init :: e.MAC) + {q[|q| - 1].MAC};
    }
  }

  /** A queued entry with no later entry for its MAC is the one stored: the latest entry wins. */
  lemma {:induction false} DrainLastWins(seen: map<string, BLEScanResult>, q: seq<BLEScanResult>, i: nat)
    requires i < |q|
    requires forall j :: i < j < |q| ==> q[j].MAC != q[i].MAC
    ensures q[i].MAC in Drain(seen, q) && Drain(seen, q)[q[i].MAC] == q[i]
    decreases |q|
  {
    if i < |q| - 1 {
      DrainLastWins(seen, q[..|q| - 1], i);
    }
  }

  /** A MAC with no queued entry keeps what it had before, or stays absent. */
  lemma {:induction false} DrainUntouched(seen: map<string, BLEScanResult>, q: seq<BLEScanResult>, mac: string)
    requires forall j :: 0 <= j < |q| ==> q[j].MAC != mac
    ensures mac in Drain(seen, q) <==> mac in seen
    ensures mac in seen ==> Drain(seen, q)[mac] == seen[mac]
    decreases |q|
  {
    if q != [] {
      DrainUntouched(seen, q[..|q| - 1], mac);
    }
  }

  /** Draining in two goes is draining once. */
  lemma {:induction false} DrainConcat(seen: map<string, BLEScanResult>, a: seq<BLEScanResult>, b: seq<BLEScanResult>)
    ensures Drain(Drain(seen, a), b) == Drain(seen, a + b)
    decreases |b|
  {
    if b != [] {
      assert (a + b)[..|a + b| - 1] == a + b[..|b| - 1];
      DrainConcat(seen, a, b[..|b| - 1]);
    } else {
      assert a + b == a;
    }
  }
}
