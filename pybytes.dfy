/** Python's bytes/bytearray values, as far as the gateway uses them. */
module PyBytes {
  import opened Wrappers
  import opened BleExceptions

  newtype byte = x: int | 0 <= x < 256

  predicate InByteRange(v: seq<int>)
  {
    forall i :: 0 <= i < |v| ==> 0 <= v[i] < 256
  }

  /** bytearray(v) for an iterable of ints: every element must lie in range(0, 256). */
  function ByteArray(v: seq<int>): (r: Outcome<seq<byte>, PyException>)
    ensures r.Returned? <==> InByteRange(v)
    ensures r.Returned? ==> |r.value| == |v| && forall i :: 0 <= i < |v| ==> r.value[i] as int == v[i]
    ensures r.Raised? ==> r.error == Builtin("ValueError", "byte must be in range(0, 256)")
  {
    if v == [] then Returned([])
    else if !(0 <= v[0] < 256) then Raised(Builtin("ValueError", "byte must be in range(0, 256)"))
    else match ByteArray(v[1..])
      case Raised(e) => Raised(e)
      case Returned(rest) => Returned([v[0] as byte] + rest)
  }

  function Ints(b: seq<byte>): (v: seq<int>)
    ensures |v| == |b| && forall i :: 0 <= i < |b| ==> v[i] == b[i] as int
  {
    if b == [] then [] else [b[0] as int] + Ints(b[1..])
  }

  /** Converting values that are already bytes gives them back. */
  lemma ByteArrayOfBytes(b: seq<byte>)
    ensures ByteArray(Ints(b)) == Returned(b)
  {
    var r := ByteArray(Ints(b));
    assert r.Returned?;
    assert r.value == b;
  }
}
