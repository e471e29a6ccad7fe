/** The shared segment as bytes: its layout (src/shmem.cpp:8-17), 64-bit
    integers stored in it, and stores that do not overlap. */
module Segment {

  type Byte = x: int | 0 <= x < 256
  type Int64 = x: int | -0x8000_0000_0000_0000 <= x < 0x8000_0000_0000_0000

  const TWO_TO_64 := 0x1_0000_0000_0000_0000

  const SEGMENT_SIZE := 4096
  const ALIGNMENT := 16
  const WORD := 8
  const EXIT_FLAG_OFF := 0
  const COUNTER_OFF := 8
  const FIRST_USER_OFF := Align(COUNTER_OFF + WORD)
  const STATUS_OFF := 2048
  const STATUS_SLOTS := SEGMENT_SIZE - STATUS_OFF
  /** sizeof(sem_t) with glibc on 64-bit Linux. */
  const SEM_SIZE := 32

  /** SHMEMALIGN: the least multiple of 16 that is not below `off`. */
  function Align(off: nat): (r: nat)
    ensures r % ALIGNMENT == 0
    ensures off <= r < off + ALIGNMENT
  {
    if off % ALIGNMENT == 0 then off else off + (ALIGNMENT - off % ALIGNMENT)
  }

  lemma AlignFromAligned(off: nat, size: nat)
    requires off % ALIGNMENT == 0
    ensures Align(off + size) == off + Align(size)
  {
    assert (off + size) % 16 == size % 16;
  }

  // ---------- integers as bytes ----------

  function Pow256(n: nat): nat {
    if n == 0 then 1 else 256 * Pow256(n - 1)
  }

  /** The `n` low bytes of `u`, least significant first. */
  function Digits(u: nat, n: nat): seq<Byte> {
    if n == 0 then [] else [u % 256] + Digits(u / 256, n - 1)
  }

  function Value(bs: seq<Byte>): nat {
    if bs == [] then 0 else bs[0] + 256 * Value(bs[1..])
  }

  lemma {:induction false} ValueOfDigits(u: nat, n: nat)
    requires u < Pow256(n)
    ensures |Digits(u, n)| == n && Value(Digits(u, n)) == u
  {
    if n > 0 {
      assert u / 256 < Pow256(n - 1);
      ValueOfDigits(u / 256, n - 1);
      assert Digits(u, n)[1..] == Digits(u / 256, n - 1);
    }
  }

  lemma {:induction false} DigitsOfValue(bs: seq<Byte>)
    ensures Value(bs) < Pow256(|bs|) && Digits(Value(bs), |bs|) == bs
  {
    if bs != [] {
      DigitsOfValue(bs[1..]);
      SplitDigit(bs[0], Value(bs[1..]));
    }
  }

  lemma SplitDigit(b: Byte, v: nat)
    ensures (b + 256 * v) % 256 == b && (b + 256 * v) / 256 == v
  {
  }

  lemma Pow256Of8()
    ensures Pow256(8) == TWO_TO_64
  {
    assert Pow256(4) == 0x1_0000_0000;
    assert Pow256(6) == 256 * (256 * Pow256(4));
    assert Pow256(8) == 256 * (256 * Pow256(6));
  }

  /** Two's complement. */
  function Unsigned(x: Int64): nat {
    if x < 0 then x + TWO_TO_64 else x
  }

  function Signed(u: nat): Int64
    requires u < TWO_TO_64
  {
    if u < 0x8000_0000_0000_0000 then u else u - TWO_TO_64
  }

  /** The 64-bit value that arithmetic on an atomic integer leaves. */
  function Wrap(n: int): Int64 {
    Signed(n % TWO_TO_64)
  }

  function Encode(x: Int64): (bs: seq<Byte>)
    ensures |bs| == WORD
    ensures bs[0] == x % 256  // least significant byte first
  {
    ValueOfDigits'(Unsigned(x));
    Digits(Unsigned(x), WORD)
  }

  lemma ValueOfDigits'(u: nat)
    requires u < TWO_TO_64
    ensures |Digits(u, WORD)| == WORD && Value(Digits(u, WORD)) == u
  {
    Pow256Of8();
    ValueOfDigits(u, WORD);
  }

  function Decode(bs: seq<Byte>): Int64
    requires |bs| == WORD
  {
    DigitsOfValue(bs);
    Pow256Of8();
    Signed(Value(bs))
  }

  lemma DecodeEncode(x: Int64)
    ensures Decode(Encode(x)) == x
  {
    ValueOfDigits'(Unsigned(x));
  }

  lemma EncodeDecode(bs: seq<Byte>)
    requires |bs| == WORD
    ensures Encode(Decode(bs)) == bs
  {
    DigitsOfValue(bs);
    Pow256Of8();
  }

  // ---------- memory ----------

  function Load(mem: seq<Byte>, off: nat, n: nat): seq<Byte>
    requires off + n <= |mem|
  {
    mem[off..off + n]
  }

  function Store(mem: seq<Byte>, off: nat, bs: seq<Byte>): (r: seq<Byte>)
    requires off + |bs| <= |mem|
    ensures |r| == |mem|
  {
    mem[..off] + bs + mem[off + |bs|..]
  }

  lemma LoadStored(mem: seq<Byte>, off: nat, bs: seq<Byte>)
    requires off + |bs| <= |mem|
    ensures Load(Store(mem, off, bs), off, |bs|) == bs
  {
  }

  /** A store leaves every range it does not overlap alone. */
  lemma LoadElsewhere(mem: seq<Byte>, off: nat, bs: seq<Byte>, at: nat, n: nat)
    requires off + |bs| <= |mem| && at + n <= |mem|
    requires at + n <= off || off + |bs| <= at
    ensures Load(Store(mem, off, bs), at, n) == Load(mem, at, n)
  {
    var m := Store(mem, off, bs);
    assert forall i :: at <= i < at + n ==> m[i] == mem[i];
  }
}
