/**
 * `crc32_update` of firmware/src/telemetry.cpp: the reflected CRC-32 of
 * IEEE 802.3 section 3.2.9 (generator polynomial 0x04C11DB7, processed
 * least-significant bit first, so shifted right with the reversed constant
 * 0xEDB88320), with the register inverted before and after.
 */
module Crc32 {
  import opened Common

  /** 0x04C11DB7 with its 32 bits reversed. */
  const POLY_REFLECTED: bv32 := 0xEDB88320
  const ALL_ONES: bv32 := 0xFFFF_FFFF

  /** One bit of the reflected shift register: shift out the low bit, and divide by the polynomial when it was set. */
  function ShiftBit(c: bv32): bv32
  {
    if c & 1 == 1 then (c >> 1) ^ POLY_REFLECTED else c >> 1
  }

  /** `n` register shifts. */
  function ShiftBits(c: bv32, n: nat): bv32
    decreases n
  {
    if n == 0 then c else ShiftBits(ShiftBit(c), n - 1)
  }

  /** One data byte folded into the (already inverted) register: xor into the low bits, then eight shifts. */
  function FoldByte(c: bv32, b: bv8): bv32
  {
    ShiftBits(c ^ (b as bv32), 8)
  }

  /** The register after the bytes of `data`, without the inversions. */
  function Register(c: bv32, data: seq<bv8>): bv32
    decreases |data|
  {
    if data == [] then c else Register(FoldByte(c, data[0]), data[1..])
  }

  /** The CRC of `data` continuing from a previous CRC value `crc` (0 to start). */
  function Crc32Update(crc: bv32, data: seq<bv8>): bv32
  {
    Register(crc ^ ALL_ONES, data) ^ ALL_ONES
  }

  /**
   * The branch-free step of the source: `mask = -(crc & 1)` is all ones when
   * the low bit is set and zero otherwise, so `(crc >> 1) ^ (poly & mask)`
   * is exactly one register shift.
   */
  lemma MaskedStepIsShift(c: bv32, mask: bv32)
    requires mask == 0 - (c & 1)
    ensures mask == (if c & 1 == 1 then ALL_ONES else 0)
    ensures (c >> 1) ^ (POLY_REFLECTED & mask) == ShiftBit(c)
  {
  }

  /** Shifting is iterated one bit at a time. */
  lemma {:induction false} ShiftBitsSucc(c: bv32, n: nat)
    ensures ShiftBits(c, n + 1) == ShiftBit(ShiftBits(c, n))
    decreases n
  {
    if n > 0 {
      ShiftBitsSucc(ShiftBit(c), n - 1);
    }
  }

  /** Folding a sequence is folding a prefix and then the rest. */
  lemma {:induction false} RegisterAppend(c: bv32, a: seq<bv8>, b: seq<bv8>)
    ensures Register(c, a + b) == Register(Register(c, a), b)
    decreases |a|
  {
    if a == [] {
      assert a + b == b;
    } else {
      assert (a + b)[1..] == a[1..] + b;
      RegisterAppend(FoldByte(c, a[0]), a[1..], b);
    }
  }

  lemma XorTwice(x: bv32)
    ensures (x ^ ALL_ONES) ^ ALL_ONES == x
  {
  }

  /** The empty buffer leaves a CRC unchanged: the two inversions cancel. */
  lemma CrcOfNothing(crc: bv32)
    ensures Crc32Update(crc, []) == crc
  {
  }

  /**
   * Because of the pre- and post-inversion, CRC updates chain: the CRC of a
   * concatenation is the CRC of the second part continued from the CRC of
   * the first.
   */
  lemma CrcChains(crc: bv32, a: seq<bv8>, b: seq<bv8>)
    ensures Crc32Update(Crc32Update(crc, a), b) == Crc32Update(crc, a + b)
  {
    var x := crc ^ ALL_ONES;
    var r := Register(x, a);
    var c1 := r ^ ALL_ONES;
    assert Crc32Update(crc, a) == c1;
    XorTwice(r);
    assert Crc32Update(c1, b) == Register(r, b) ^ ALL_ONES;
    RegisterAppend(x, a, b);
  }

  /** The ASCII bytes of "123456789". */
  const CHECK_INPUT: seq<bv8> := [0x31, 0x32, 0x33, 0x34, 0x35, 0x36, 0x37, 0x38, 0x39]

  /** A byte fold written out as its eight shifts. */
  lemma FoldByteUnrolled(c: bv32, b: bv8)
    ensures FoldByte(c, b) == ShiftBit(ShiftBit(ShiftBit(ShiftBit(ShiftBit(ShiftBit(ShiftBit(ShiftBit(c ^ (b as bv32)))))))))
  {
    var x := c ^ (b as bv32);
    assert ShiftBits(x, 8) == ShiftBits(ShiftBit(x), 7) == ShiftBits(ShiftBit(ShiftBit(x)), 6);
    assert ShiftBits(ShiftBit(ShiftBit(x)), 6) == ShiftBits(ShiftBit(ShiftBit(ShiftBit(x))), 5)
      == ShiftBits(ShiftBit(ShiftBit(ShiftBit(ShiftBit(x)))), 4);
    assert ShiftBits(ShiftBit(ShiftBit(ShiftBit(ShiftBit(x)))), 4)
      == ShiftBits(ShiftBit(ShiftBit(ShiftBit(ShiftBit(ShiftBit(x))))), 3)
      == ShiftBits(ShiftBit(ShiftBit(ShiftBit(ShiftBit(ShiftBit(ShiftBit(x)))))), 2);
    assert ShiftBits(ShiftBit(ShiftBit(ShiftBit(ShiftBit(ShiftBit(ShiftBit(x)))))), 2)
      == ShiftBits(ShiftBit(ShiftBit(ShiftBit(ShiftBit(ShiftBit(ShiftBit(ShiftBit(x))))))), 1)
      == ShiftBit(ShiftBit(ShiftBit(ShiftBit(ShiftBit(ShiftBit(ShiftBit(ShiftBit(x))))))));
  }

  /** The CRC-32 check value: the CRC of "123456789" is 0xCBF43926. */
  lemma CheckValue()
    ensures Crc32Update(0, CHECK_INPUT) == 0xCBF43926
  {
    assert CHECK_INPUT == CHECK_INPUT[0..];
    CheckHead();
    CheckMiddle();
    CheckTail();
    assert CHECK_INPUT[9..] == [];
  }

  /** The register over "123". */
  lemma CheckHead()
    ensures Register(ALL_ONES, CHECK_INPUT[0..]) == Register(0x77B79C2D, CHECK_INPUT[3..])
  {
    FoldByteUnrolled(ALL_ONES, CHECK_INPUT[0]);
    assert Register(ALL_ONES, CHECK_INPUT[0..]) == Register(0x7C231048, CHECK_INPUT[1..]);
    FoldByteUnrolled(0x7C231048, CHECK_INPUT[1]);
    assert Register(0x7C231048, CHECK_INPUT[1..]) == Register(0xB0ACBB32, CHECK_INPUT[2..]);
    FoldByteUnrolled(0xB0ACBB32, CHECK_INPUT[2]);
    assert Register(0xB0ACBB32, CHECK_INPUT[2..]) == Register(0x77B79C2D, CHECK_INPUT[3..]);
  }

  /** The register over "456". */
  lemma CheckMiddle()
    ensures Register(0x77B79C2D, CHECK_INPUT[3..]) == Register(0xF68D2C9E, CHECK_INPUT[6..])
  {
    FoldByteUnrolled(0x77B79C2D, CHECK_INPUT[3]);
    assert Register(0x77B79C2D, CHECK_INPUT[3..]) == Register(0x641C1F5C, CHECK_INPUT[4..]);
    FoldByteUnrolled(0x641C1F5C, CHECK_INPUT[4]);
    assert Register(0x641C1F5C, CHECK_INPUT[4..]) == Register(0x340AC5E3, CHECK_INPUT[5..]);
    FoldByteUnrolled(0x340AC5E3, CHECK_INPUT[5]);
    assert Register(0x340AC5E3, CHECK_INPUT[5..]) == Register(0xF68D2C9E, CHECK_INPUT[6..]);
  }

  /** The register over "789". */
  lemma CheckTail()
    ensures Register(0xF68D2C9E, CHECK_INPUT[6..]) == Register(0x340BC6D9, CHECK_INPUT[9..])
  {
    FoldByteUnrolled(0xF68D2C9E, CHECK_INPUT[6]);
    assert Register(0xF68D2C9E, CHECK_INPUT[6..]) == Register(0xAFFC9660, CHECK_INPUT[7..]);
    FoldByteUnrolled(0xAFFC9660, CHECK_INPUT[7]);
    assert Register(0xAFFC9660, CHECK_INPUT[7..]) == Register(0x651F2550, CHECK_INPUT[8..]);
    FoldByteUnrolled(0x651F2550, CHECK_INPUT[8]);
    assert Register(0x651F2550, CHECK_INPUT[8..]) == Register(0x340BC6D9, CHECK_INPUT[9..]);
  }

  /** The nested loops of `crc32_update`. */
  method Crc32UpdateLoop(crc0: bv32, data: seq<bv8>) returns (crc: bv32)
    ensures crc == Crc32Update(crc0, data)
  {
    crc := crc0 ^ ALL_ONES;
    var i := 0;
    while i < |data|
      invariant 0 <= i <= |data|
      invariant Register(crc0 ^ ALL_ONES, data) == Register(crc, data[i..])
    {
      var b := data[i];
      crc := crc ^ (b as bv32);
      var j := 0;
      ghost var start := crc;
      while j < 8
        invariant 0 <= j <= 8
        invariant crc == ShiftBits(start, j)
      {
        var mask: bv32 := 0 - (crc & 1);
        MaskedStepIsShift(crc, mask);
        ShiftBitsSucc(start, j);
        crc := (crc >> 1) ^ (POLY_REFLECTED & mask);
        j := j + 1;
      }
      assert data[i..][1..] == data[i + 1..];
      i := i + 1;
    }
    crc := crc ^ ALL_ONES;
  }
}
