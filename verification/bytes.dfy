/** Big-endian decoding of byte strings, as Go's `binary.BigEndian` does it. */
module BigEndian {
  import opened Prelude

  function Pow256(n: nat): (r: nat)
    ensures r > 0
  {
    if n == 0 then 1 else 256 * Pow256(n - 1)
  }

  /** The unsigned integer whose base-256 digits, most significant first, are `b`. */
  function Decode(b: seq<byte>): (r: nat)
    ensures r < Pow256(|b|)
  {
    if |b| == 0 then 0
    else
      var high := Decode(b[..|b| - 1]);
      assert high + 1 <= Pow256(|b| - 1);
      assert (high + 1) * 256 <= Pow256(|b| - 1) * 256;
      high * 256 + b[|b| - 1] as int
  }

  /** The `n` base-256 digits of `v`, most significant first. */
  function Encode(v: nat, n: nat): (r: seq<byte>)
    requires v < Pow256(n)
    ensures |r| == n
  {
    if n == 0 then []
    else Encode(v / 256, n - 1) + [(v % 256) as byte]
  }

  lemma {:induction false} DecodeEncode(v: nat, n: nat)
    requires v < Pow256(n)
    ensures Decode(Encode(v, n)) == v
    decreases n
  {
    if n > 0 {
      var e := Encode(v, n);
      assert e[..n - 1] == Encode(v / 256, n - 1);
      DecodeEncode(v / 256, n - 1);
    }
  }

  lemma {:induction false} EncodeDecode(b: seq<byte>)
    ensures Encode(Decode(b), |b|) == b
    decreases |b|
  {
    if |b| > 0 {
      var init := b[..|b| - 1];
      EncodeDecode(init);
      var v := Decode(b);
      assert v / 256 == Decode(init);
      assert (v % 256) as byte == b[|b| - 1];
      assert b == init + [b[|b| - 1]];
    }
  }

  /** `binary.BigEndian.Uint64`: the first eight bytes read most significant
      first (Go panics on a shorter slice). */
  function Uint64(b: seq<byte>): (r: uint64)
    requires |b| >= 8
    ensures Encode(r as nat, 8) == b[..8]
  {
    EncodeDecode(b[..8]);
    assert Pow256(8) == TwoTo64;
    Decode(b[..8]) as uint64
  }

  /** `binary.BigEndian.PutUint64`, the inverse of `Uint64`. */
  function PutUint64(v: uint64): (r: seq<byte>)
    ensures |r| == 8
    ensures Uint64(r) == v
  {
    assert Pow256(8) == TwoTo64;
    var r := Encode(v as nat, 8);
    DecodeEncode(v as nat, 8);
    assert r[..8] == r;
    r
  }
}
