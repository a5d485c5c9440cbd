/**
 * Fixed-width unsigned integers and the byte layout of a 64-bit secret.
 *
 * `u64::to_ne_bytes` writes the integer in the byte order of the target;
 * every target this runtime is built for (wasm32, x86-64, aarch64) is
 * little-endian, so the model fixes little-endian order.
 */
module Bytes {

  /** Rust `u8`. */
  type u8 = x: int | 0 <= x < 0x100

  /** Rust `u64`. */
  type u64 = x: int | 0 <= x < 0x1_0000_0000_0000_0000

  /** 256 to the power `n`: the number of values `n` bytes can hold. */
  function Pow256(n: nat): nat {
    if n == 0 then 1 else 256 * Pow256(n - 1)
  }

  /** The `n` base-256 digits of `x`, least significant first. */
  function LeBytes(x: nat, n: nat): (bs: seq<u8>)
    ensures |bs| == n
  {
    if n == 0 then [] else [x % 256] + LeBytes(x / 256, n - 1)
  }

  /** The number whose base-256 digits, least significant first, are `bs`. */
  function FromLeBytes(bs: seq<u8>): (x: nat)
    ensures x < Pow256(|bs|)
  {
    if bs == [] then 0 else bs[0] + 256 * FromLeBytes(bs[1..])
  }

  /** Reading back the digits of a number that fits in `n` bytes gives the number. */
  lemma {:induction false} LeRoundTrip(x: nat, n: nat)
    requires x < Pow256(n)
    ensures FromLeBytes(LeBytes(x, n)) == x
  {
    if n > 0 {
      assert x / 256 < Pow256(n - 1);
      LeRoundTrip(x / 256, n - 1);
      assert LeBytes(x, n)[1..] == LeBytes(x / 256, n - 1);
    }
  }

  /** Writing the digits of a decoded byte string gives the byte string back. */
  lemma {:induction false} LeBytesOfFromLeBytes(bs: seq<u8>)
    ensures LeBytes(FromLeBytes(bs), |bs|) == bs
  {
    if bs != [] {
      var rest := FromLeBytes(bs[1..]);
      var x := bs[0] + 256 * rest;
      assert x % 256 == bs[0] && x / 256 == rest;
      LeBytesOfFromLeBytes(bs[1..]);
      assert LeBytes(x, |bs|) == [bs[0]] + LeBytes(rest, |bs| - 1);
      assert bs == [bs[0]] + bs[1..];
    }
  }

  /** `x.to_ne_bytes()` for a `u64` on a little-endian target. */
  function ToNeBytes(x: u64): (bs: seq<u8>)
    ensures |bs| == 8
    ensures FromLeBytes(bs) == x
  {
    assert Pow256(8) == 0x1_0000_0000_0000_0000;
    LeRoundTrip(x, 8);
    LeBytes(x, 8)
  }
}
