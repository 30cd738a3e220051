/** Bytes, 20-byte account addresses and the bulk copy both source files use to fill fixed buffers. */
module Bytes {

  type Byte = x: int | 0 <= x < 256

  /** A 20-byte account address (Rust `[u8; 20]`, the output of `arrayify` on a valid address). */
  type Address = b: seq<Byte> | |b| == 20 witness seq(20, _ => 0)

  function Zeros(n: nat): (z: seq<Byte>)
    ensures |z| == n
    ensures forall i :: 0 <= i < n ==> z[i] == 0
  {
    seq(n, _ => 0)
  }

  /** `buf` with `src` written over it starting at `offset`. */
  function Placed(buf: seq<Byte>, src: seq<Byte>, offset: nat): (r: seq<Byte>)
    requires offset + |src| <= |buf|
    ensures |r| == |buf|
    ensures forall i :: 0 <= i < |src| ==> r[offset + i] == src[i]
    ensures forall i :: 0 <= i < |buf| && !(offset <= i < offset + |src|) ==> r[i] == buf[i]
  {
    buf[..offset] + src + buf[offset + |src|..]
  }

  /**
   * The in-range case of `TypedArray.prototype.set(src, offset)` and of Rust's
   * `dst[offset..offset + src.len()].copy_from_slice(src)`: one bulk write into `target`.
   */
  method CopyInto(target: array<Byte>, src: seq<Byte>, offset: nat)
    requires offset + |src| <= target.Length
    modifies target
    ensures target[..] == Placed(old(target[..]), src, offset)
  {
    forall i | 0 <= i < |src| {
      target[offset + i] := src[i];
    }
  }

  /** Writing a 20-byte prefix and then a 12-byte suffix over 32 zero bytes leaves their concatenation. */
  lemma PlacedPair(prefix: seq<Byte>, suffix: seq<Byte>)
    requires |prefix| == 20 && |suffix| == 12
    ensures Placed(Placed(Zeros(32), prefix, 0), suffix, 20) == prefix + suffix
  {
    var r := Placed(Placed(Zeros(32), prefix, 0), suffix, 20);
    forall i | 0 <= i < 32 ensures r[i] == (prefix + suffix)[i] {
      if i >= 20 {
        assert r[20 + (i - 20)] == suffix[i - 20];
      }
    }
  }
}
