/**
 * The request-ID generator of the WebSocket test client
 * (tests/testwsinterface.py): a counter that wraps at 2^32 and skips 0,
 * since the protocol reserves id 0.
 */
module IdManager {
  const Wrap: int := 0x1_0000_0000

  /** The ID after `id`: one more, modulo 2^32, with 0 skipped. */
  function NextId(id: int): (n: int)
    ensures 0 < n < Wrap
    ensures 0 <= id < Wrap - 1 ==> n == id + 1
    ensures id == Wrap - 1 ==> n == 1
  {
    var v := (id + 1) % Wrap;
    if v == 0 then v + 1 else v
  }

  /** The ID held after `k` calls on a fresh manager. */
  function IdAfter(k: nat): int
  {
    if k == 0 then 0 else NextId(IdAfter(k - 1))
  }

  /**
   * The IDs handed out run 1, 2, ..., 2^32 - 1 and then start again at 1:
   * call number q * (2^32 - 1) + r + 1 returns r + 1, so within one round
   * every ID is handed out once.
   */
  lemma {:induction false} IdsCycle(q: nat, r: nat)
    requires r < Wrap - 1
    ensures IdAfter(q * (Wrap - 1) + r + 1) == r + 1
    decreases q * (Wrap - 1) + r
  {
    if r > 0 {
      IdsCycle(q, r - 1);
    } else if q > 0 {
      assert q * (Wrap - 1) == (q - 1) * (Wrap - 1) + (Wrap - 2) + 1;
      IdsCycle(q - 1, Wrap - 2);
    }
  }

  class IDManager {
    var ID: int

    constructor()
      ensures ID == IdAfter(0)
    {
      ID := 0;
    }

    method GetId() returns (n: int)
      modifies this
      ensures ID == NextId(old(ID)) && n == ID
    {
      ID := (ID + 1) % Wrap;
      if ID == 0 {
        ID := ID + 1;
      }
      return ID;
    }
  }
}
