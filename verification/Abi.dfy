/** Bytes, 32-byte words and the static ABI layout shared by the vault and the enclave.

Hashing is ideal: a cell is either a literal octet or the i-th octet of the hash of a
given preimage.  Two hashes are therefore equal exactly when their preimages are, and no
hash octet equals a literal one.  This is the usual symbolic reading of "keccak256 has no
collisions"; an injective function from byte strings to 32 literal bytes cannot exist. */
module Abi {
  const TWO64 := 0x1_0000_0000_0000_0000
  const TWO128 := 0x1_0000_0000_0000_0000_0000_0000_0000_0000
  const TWO160 := 0x1_0000_0000_0000_0000_0000_0000_0000_0000_0000_0000
  const TWO256 := 0x1_0000_0000_0000_0000_0000_0000_0000_0000_0000_0000_0000_0000_0000_0000_0000_0000

  type Octet = n: nat | n < 256
  type Uint64 = n: nat | n < TWO64
  type Uint128 = n: nat | n < TWO128
  type Address = n: nat | n < TWO160
  type Uint256 = n: nat | n < TWO256

  datatype Cell = Lit(value: Octet) | HashOf(preimage: seq<Cell>, index: nat)

  /** bytes32 */
  type Word = w: seq<Cell> | |w| == 32 witness seq(32, _ => Lit(0))

  // ---------------------------------------------------------------- big-endian numbers

  function Pow256(k: nat): nat {
    if k == 0 then 1 else 256 * Pow256(k - 1)
  }

  lemma Pow256Values()
    ensures Pow256(8) == TWO64 && Pow256(16) == TWO128
    ensures Pow256(20) == TWO160 && Pow256(32) == TWO256
  {
    assert Pow256(8) == TWO64;
    assert Pow256(16) == TWO128;
    assert Pow256(20) == TWO160;
    assert Pow256(32) == TWO256;
  }

  function BigEndian(n: nat, width: nat): (bs: seq<Octet>)
    ensures |bs| == width
  {
    if width == 0 then [] else BigEndian(n / 256, width - 1) + [n % 256]
  }

  function ValueOf(bs: seq<Octet>): (n: nat)
    ensures n < Pow256(|bs|)
  {
    if bs == [] then 0 else ValueOf(bs[..|bs| - 1]) * 256 + bs[|bs| - 1]
  }

  /** Writing a number that fits and reading it back is the identity. */
  lemma {:induction false} BigEndianRoundTrip(n: nat, width: nat)
    requires n < Pow256(width)
    ensures ValueOf(BigEndian(n, width)) == n
  {
    if width > 0 {
      BigEndianRoundTrip(n / 256, width - 1);
      assert BigEndian(n, width)[..width - 1] == BigEndian(n / 256, width - 1);
    }
  }

  /** Reading octets and writing the value back at the same width is the identity. */
  lemma {:induction false} ValueRoundTrip(bs: seq<Octet>)
    ensures BigEndian(ValueOf(bs), |bs|) == bs
  {
    if bs != [] {
      var init := bs[..|bs| - 1];
      ValueRoundTrip(init);
      assert ValueOf(bs) / 256 == ValueOf(init);
      assert bs == init + [bs[|bs| - 1]];
    }
  }

  /** The low octets of a wide encoding are the narrow encoding. */
  lemma {:induction false} BigEndianSuffix(n: nat, width: nat, low: nat)
    requires low <= width
    ensures BigEndian(n, width)[width - low..] == BigEndian(n, low)
  {
    if low > 0 {
      BigEndianSuffix(n / 256, width - 1, low - 1);
      var head := BigEndian(n / 256, width - 1);
      assert BigEndian(n, width)[width - low..] == head[width - low..] + [n % 256];
    }
  }

  // ---------------------------------------------------------------- words

  function Lift(bs: seq<Octet>): (cs: seq<Cell>)
    ensures |cs| == |bs|
  {
    seq(|bs|, i requires 0 <= i < |bs| => Lit(bs[i]))
  }

  lemma LiftInjective(a: seq<Octet>, b: seq<Octet>)
    requires Lift(a) == Lift(b)
    ensures a == b
  {
    assert |a| == |b|;
    forall i | 0 <= i < |a| ensures a[i] == b[i] {
      assert Lift(a)[i] == Lit(a[i]);
      assert Lift(b)[i] == Lit(b[i]);
    }
  }

  function UintWord(n: Uint256): Word {
    Lift(BigEndian(n, 32))
  }

  lemma UintWordInjective(a: Uint256, b: Uint256)
    requires UintWord(a) == UintWord(b)
    ensures a == b
  {
    LiftInjective(BigEndian(a, 32), BigEndian(b, 32));
    Pow256Values();
    BigEndianRoundTrip(a, 32);
    BigEndianRoundTrip(b, 32);
  }

  function ZeroWord(): Word { seq(32, _ => Lit(0)) }

  // ---------------------------------------------------------------- hashing

  function Keccak(preimage: seq<Cell>): Word {
    seq(32, i requires 0 <= i < 32 => HashOf(preimage, i))
  }

  lemma KeccakInjective(a: seq<Cell>, b: seq<Cell>)
    requires Keccak(a) == Keccak(b)
    ensures a == b
  {
    assert Keccak(a)[0] == HashOf(a, 0);
    assert Keccak(b)[0] == HashOf(b, 0);
  }

  function Ascii(s: string): seq<Cell> {
    seq(|s|, i requires 0 <= i < |s| => Lit((s[i] as int) % 256))
  }

  // ---------------------------------------------------------------- static tuples

  /** abi.encode of a tuple of static members: the words one after another. */
  function Tuple(ws: seq<Word>): (cs: seq<Cell>)
    ensures |cs| == 32 * |ws|
  {
    if ws == [] then [] else Tuple(ws[..|ws| - 1]) + ws[|ws| - 1]
  }

  /** Every member can be read back from its 32-byte slot. */
  lemma {:induction false} TupleSlot(ws: seq<Word>, i: nat)
    requires i < |ws|
    ensures Tuple(ws)[32 * i..32 * i + 32] == ws[i]
  {
    var init := ws[..|ws| - 1];
    if i < |init| {
      TupleSlot(init, i);
      assert Tuple(ws)[32 * i..32 * i + 32] == Tuple(init)[32 * i..32 * i + 32];
    }
  }

  lemma TupleInjective(a: seq<Word>, b: seq<Word>)
    requires Tuple(a) == Tuple(b)
    ensures a == b
  {
    assert |a| == |b|;
    forall i | 0 <= i < |a| ensures a[i] == b[i] {
      TupleSlot(a, i);
      TupleSlot(b, i);
    }
  }
}
