/** Option/Result wrappers and the fixed-width values shared by the detector
    and the dispatcher. */
module Wrappers {
  datatype Option<+T> = None | Some(value: T)

  datatype Result<+R, +E> = Success(value: R) | Failure(error: E)
}

module Primitives {
  newtype byte = x: int | 0 <= x < 0x100
  newtype u16 = x: int | 0 <= x < 0x1_0000
  newtype u32 = x: int | 0 <= x < 0x1_0000_0000
  newtype u64 = x: int | 0 <= x < 0x1_0000_0000_0000_0000

  /** A 32-byte chain address (`Pubkey`) or reference hash (`Hash`). */
  type Bytes32 = s: seq<byte> | |s| == 32 witness seq(32, _ => 0 as byte)
  type Pubkey = Bytes32
  type Hash = Bytes32

  /** 256^k: the number of values that fit in k bytes. */
  function Pow256(k: nat): (p: nat)
    ensures p > 0
  {
    if k == 0 then 1 else 256 * Pow256(k - 1)
  }

  /** Little-endian encoding of `n` in exactly `width` bytes. */
  function EncodeLE(n: nat, width: nat): (bs: seq<byte>)
    requires n < Pow256(width)
    ensures |bs| == width
  {
    if width == 0 then []
    else [(n % 256) as byte] + EncodeLE(n / 256, width - 1)
  }

  /** The number a little-endian byte string denotes. */
  function DecodeLE(bs: seq<byte>): (n: nat)
    ensures n < Pow256(|bs|)
  {
    if |bs| == 0 then 0 else bs[0] as nat + 256 * DecodeLE(bs[1..])
  }

  lemma {:induction false} DecodeEncodeLE(n: nat, width: nat)
    requires n < Pow256(width)
    ensures DecodeLE(EncodeLE(n, width)) == n
  {
    if width > 0 {
      var bs := EncodeLE(n, width);
      assert bs[1..] == EncodeLE(n / 256, width - 1);
      DecodeEncodeLE(n / 256, width - 1);
    }
  }

  lemma {:induction false} EncodeDecodeLE(bs: seq<byte>)
    ensures EncodeLE(DecodeLE(bs), |bs|) == bs
  {
    if |bs| > 0 {
      var n := DecodeLE(bs);
      assert n % 256 == bs[0] as nat;
      assert n / 256 == DecodeLE(bs[1..]);
      EncodeDecodeLE(bs[1..]);
    }
  }
}
