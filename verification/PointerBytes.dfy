// Pointers as they lie in memory: little-endian byte sequences of fixed width.
module PointerBytes {
  type Byte = x: int | 0 <= x < 256

  function Pow256(w: nat): nat {
    if w == 0 then 1 else 256 * Pow256(w - 1)
  }

  function Encode(v: nat, w: nat): (b: seq<Byte>)
    ensures |b| == w
  {
    if w == 0 then [] else [v % 256] + Encode(v / 256, w - 1)
  }

  function Decode(b: seq<Byte>): nat {
    if b == [] then 0 else b[0] + 256 * Decode(b[1..])
  }

  /** Every address that fits in a pointer is read back as it was stored. */
  lemma {:induction false} RoundTrip(v: nat, w: nat)
    requires v < Pow256(w)
    ensures Decode(Encode(v, w)) == v
  {
    if w == 0 {
    } else {
      RoundTrip(v / 256, w - 1);
      assert Encode(v, w)[1..] == Encode(v / 256, w - 1);
    }
  }

  lemma SplitByte(low: Byte, high: nat)
    ensures (low + 256 * high) % 256 == low && (low + 256 * high) / 256 == high
  {
  }

  /** And every byte sequence is the stored form of the address it reads as. */
  lemma {:induction false} DecodeThenEncode(b: seq<Byte>)
    ensures Encode(Decode(b), |b|) == b
  {
    if b == [] {
    } else {
      DecodeThenEncode(b[1..]);
      SplitByte(b[0], Decode(b[1..]));
    }
  }

  /** `mem` with the bytes from `at` on overwritten by `b`. */
  function Write(mem: seq<Byte>, at: nat, b: seq<Byte>): (r: seq<Byte>)
    requires at + |b| <= |mem|
    ensures |r| == |mem|
    ensures r[at..at + |b|] == b
    ensures forall k :: 0 <= k < |mem| && !(at <= k < at + |b|) ==> r[k] == mem[k]
  {
    mem[..at] + b + mem[at + |b|..]
  }
}
