/** Fixed-width little-endian integers, as read by `u64::from_le_bytes`
    and written by `u64::to_le_bytes`. */
module LittleEndian {
  import opened Primitives

  /** 256^n: an n-byte field holds exactly the values below it. */
  function Pow256(n: nat): (p: nat)
    ensures p > 0
  {
    if n == 0 then 1 else 256 * Pow256(n - 1)
  }

  /** The value of a little-endian byte string: s[0] is the least significant byte. */
  function FromLe(s: seq<byte>): (x: nat)
    ensures x < Pow256(|s|)
  {
    if |s| == 0 then 0 else s[0] + 256 * FromLe(s[1..])
  }

  /** The n low-order bytes of x, least significant first. */
  function ToLe(x: nat, n: nat): (s: seq<byte>)
    ensures |s| == n
  {
    if n == 0 then []
    else
      var low: byte := x % 256;
      [low] + ToLe(x / 256, n - 1)
  }

  /** Writing a value that fits in n bytes and reading it back gives the value. */
  lemma {:induction false} FromLeToLe(x: nat, n: nat)
    requires x < Pow256(n)
    ensures FromLe(ToLe(x, n)) == x
  {
    if n > 0 {
      FromLeToLe(x / 256, n - 1);
      assert ToLe(x, n)[1..] == ToLe(x / 256, n - 1);
    }
  }

  /** Reading a byte string and writing the value back over as many bytes gives the string. */
  lemma {:induction false} ToLeFromLe(s: seq<byte>)
    ensures ToLe(FromLe(s), |s|) == s
  {
    if |s| > 0 {
      var x := FromLe(s);
      assert x % 256 == s[0] && x / 256 == FromLe(s[1..]);
      ToLeFromLe(s[1..]);
    }
  }

  /** Eight bytes hold exactly the values of a u64. */
  lemma Pow256Of8()
    ensures Pow256(8) == U64_MODULUS
  {
  }

  /** `u64::to_le_bytes`: eight bytes that read back as x. */
  function U64ToLe(x: u64): (s: seq<byte>)
    ensures |s| == 8 && FromLe(s) == x
  {
    Pow256Of8();
    FromLeToLe(x, 8);
    ToLe(x, 8)
  }

  /** `u64::from_le_bytes` on an eight-byte array: always a u64, and the bytes
      are exactly that value's encoding. */
  function U64FromLe(s: seq<byte>): (x: u64)
    requires |s| == 8
    ensures U64ToLe(x) == s
  {
    Pow256Of8();
    ToLeFromLe(s);
    FromLe(s)
  }
}
