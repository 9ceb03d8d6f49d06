/** The table-driven CRC-32 of `src/lib/zip.ts` against the bit-by-bit definition. A 32-bit word is the sequence of its
    bits, lowest first. */
module Crc32 {
  import IpCidr

  type Byte = x: int | 0 <= x < 256
  type Word = w: seq<bool> | |w| == 32 witness seq(32, i => false)

  // ---------------------------------------------------------------------------------------------
  // Words

  function ToBits(n: nat, k: nat): (bits: seq<bool>)
    ensures |bits| == k
    decreases k
  {
    if k == 0 then [] else [n % 2 == 1] + ToBits(n / 2, k - 1)
  }

  function Value(bits: seq<bool>): nat {
    if bits == [] then 0 else (if bits[0] then 1 else 0) + 2 * Value(bits[1..])
  }

  lemma {:induction false} ValueRoundTrip(bits: seq<bool>)
    ensures Value(bits) < IpCidr.Pow2(|bits|) && ToBits(Value(bits), |bits|) == bits
    decreases |bits|
  {
    if bits != [] {
      ValueRoundTrip(bits[1..]);
      var rest := Value(bits[1..]);
      assert ((if bits[0] then 1 else 0) + 2 * rest) / 2 == rest;
      assert bits == [bits[0]] + bits[1..];
    }
  }

  function Zeros(k: nat): seq<bool> {
    seq(k, i => false)
  }

  function Xor(a: Word, b: Word): Word {
    seq(32, i requires 0 <= i < 32 => a[i] != b[i])
  }

  /** `x >>> n`. */
  function ShiftRight(x: Word, n: nat): Word
    requires n <= 32
  {
    x[n..] + Zeros(n)
  }

  /** `x & 0xff`. */
  function LowByte(x: Word): Word {
    x[..8] + Zeros(24)
  }

  function Word32(n: nat): Word {
    ToBits(n, 32)
  }

  function Wide(b: Byte): Word {
    ToBits(b, 8) + Zeros(24)
  }

  // ---------------------------------------------------------------------------------------------
  // The definition

  /** One bit of the reflected division. */
  function Shift(x: Word): Word {
    if x[0] then Xor(Word32(0xEDB8_8320), ShiftRight(x, 1)) else ShiftRight(x, 1)
  }

  function Shifts(x: Word, n: nat): Word {
    if n == 0 then x else Shift(Shifts(x, n - 1))
  }

  /** The register after `data`, one bit at a time. */
  function Register(data: seq<Byte>): Word {
    if data == [] then Word32(0xFFFF_FFFF) else Shifts(Xor(Register(data[..|data| - 1]), Wide(data[|data| - 1])), 8)
  }

  function Checksum(data: seq<Byte>): nat {
    Value(Xor(Register(data), Word32(0xFFFF_FFFF)))
  }

  // ---------------------------------------------------------------------------------------------
  // The definition, bit by bit

  /** The exponents below 32 of the generator polynomial (section 8.1.1.6.2 of ITU-T V.42). */
  const EXPONENTS: set<nat> := {0, 1, 2, 4, 5, 7, 8, 10, 11, 12, 16, 22, 23, 26}

  lemma FourBits(n: nat, k: nat)
    requires k >= 4
    ensures ToBits(n, k) == [n % 2 == 1, n / 2 % 2 == 1, n / 4 % 2 == 1, n / 8 % 2 == 1] + ToBits(n / 16, k - 4)
  {
    assert n / 2 / 2 == n / 4 && n / 4 / 2 == n / 8 && n / 8 / 2 == n / 16;
    assert ToBits(n, k) == [n % 2 == 1] + ([n / 2 % 2 == 1] + ToBits(n / 4, k - 2));
    assert ToBits(n / 4, k - 2) == [n / 4 % 2 == 1] + ([n / 8 % 2 == 1] + ToBits(n / 16, k - 4));
  }

  lemma LowGeneratorBits()
    ensures Word32(0xEDB8_8320) == [false, false, false, false] + [false, true, false, false]
                                   + [true, true, false, false] + [false, false, false, true] + ToBits(0xEDB8, 16)
  {
    hide ToBits;
    FourBits(0xEDB8_8320, 32);
    FourBits(0xEDB_8832, 28);
    FourBits(0xED_B883, 24);
    FourBits(0xE_DB88, 20);
  }

  lemma HighGeneratorBits()
    ensures ToBits(0xEDB8, 16) == [false, false, false, true] + [true, true, false, true]
                                  + [true, false, true, true] + [false, true, true, true]
  {
    hide ToBits;
    FourBits(0xEDB8, 16);
    FourBits(0xEDB, 12);
    FourBits(0xED, 8);
    FourBits(0xE, 4);
  }

  lemma GeneratorBits()
    ensures forall i :: 0 <= i < 32 ==> (Word32(0xEDB8_8320)[i] <==> 31 - i in EXPONENTS)
  {
    LowGeneratorBits();
    HighGeneratorBits();
    hide ToBits;
    var low, high := Word32(0xEDB8_8320)[..16], ToBits(0xEDB8, 16);
    assert Word32(0xEDB8_8320) == low + high;
    forall i | 0 <= i < 32 ensures Word32(0xEDB8_8320)[i] <==> 31 - i in EXPONENTS {
      assert Word32(0xEDB8_8320)[i] == if i < 16 then low[i] else high[i - 16];
    }
  }

  lemma AllOnes()
    ensures forall i :: 0 <= i < 32 ==> Word32(0xFFFF_FFFF)[i]
  {
    hide ToBits;
    FourBits(0xFFFFFFFF, 32);
    FourBits(0xFFFFFFF, 28);
    FourBits(0xFFFFFF, 24);
    FourBits(0xFFFFF, 20);
    FourBits(0xFFFF, 16);
    FourBits(0xFFF, 12);
    FourBits(0xFF, 8);
    FourBits(0xF, 4);
  }

  /** The register starts with all bits set, a shift divides by the generator polynomial with the highest power in the
      lowest bit, and the result is the complement of the register. */
  lemma ChecksumDivides(x: Word, data: seq<Byte>, i: nat)
    requires i < 32
    ensures Register([])[i]
    ensures Shift(x)[i] == ((i < 31 && x[i + 1]) != (x[0] && 31 - i in EXPONENTS))
    ensures Word32(Checksum(data))[i] == !Register(data)[i]
  {
    GeneratorBits();
    AllOnes();
    ValueRoundTrip(Xor(Register(data), Word32(0xFFFF_FFFF)));
    hide ToBits;
  }

  // ---------------------------------------------------------------------------------------------
  // Why a table works

  lemma ShiftIsLinear(x: Word, y: Word)
    ensures Shift(Xor(x, y)) == Xor(Shift(x), Shift(y))
  {
    hide ToBits;
    forall i | 0 <= i < 32 ensures Shift(Xor(x, y))[i] == Xor(Shift(x), Shift(y))[i] {
    }
  }

  lemma {:induction false} ShiftsAreLinear(x: Word, y: Word, n: nat)
    ensures Shifts(Xor(x, y), n) == Xor(Shifts(x, n), Shifts(y, n))
  {
    hide Shift, Xor;
    if n > 0 {
      ShiftsAreLinear(x, y, n - 1);
      ShiftIsLinear(Shifts(x, n - 1), Shifts(y, n - 1));
    }
  }

  lemma ShiftOneMore(x: Word, n: nat)
    requires 0 < n <= 32
    ensures ShiftRight(ShiftRight(x, n - 1), 1) == ShiftRight(x, n) && ShiftRight(x, n - 1)[0] == x[n - 1]
  {
  }

  lemma OneMoreShift(x: Word, n: nat)
    requires n > 0
    ensures Shifts(x, n) == Shift(Shifts(x, n - 1))
  {
    hide Shift;
  }

  lemma NoShift(x: Word)
    ensures Shifts(x, 0) == x == ShiftRight(x, 0)
  {
    assert x[0..] + Zeros(0) == x;
  }

  lemma ZeroShifts(x: Word)
    ensures !x[0] ==> Shift(x) == ShiftRight(x, 1)
  {
  }

  /** Zero bits leave without touching the rest. */
  lemma {:induction false} ZerosShiftOut(x: Word, n: nat)
    requires n <= 32 && forall i :: 0 <= i < n ==> !x[i]
    ensures Shifts(x, n) == ShiftRight(x, n)
  {
    hide Shifts, Shift, ShiftRight;
    if n == 0 {
      NoShift(x);
    } else {
      ZerosShiftOut(x, n - 1);
      ShiftOneMore(x, n);
      OneMoreShift(x, n);
      ZeroShifts(ShiftRight(x, n - 1));
    }
  }

  /** Eight shifts need only the low byte; the rest moves down. */
  lemma LookupStep(x: Word)
    ensures Shifts(x, 8) == Xor(Shifts(LowByte(x), 8), ShiftRight(x, 8))
  {
    hide Shifts;
    var upper: Word := Zeros(8) + x[8..];
    assert x == Xor(LowByte(x), upper);
    ShiftsAreLinear(LowByte(x), upper, 8);
    ZerosShiftOut(upper, 8);
    assert ShiftRight(upper, 8) == ShiftRight(x, 8);
  }

  lemma ByteStaysLow(value: Word, b: Byte)
    ensures ShiftRight(Xor(value, Wide(b)), 8) == ShiftRight(value, 8)
  {
    hide ToBits;
  }

  // ---------------------------------------------------------------------------------------------
  // The code

  ghost predicate IsTable(table: seq<Word>) {
    |table| == 256 && forall i :: 0 <= i < 256 ==> table[i] == Shifts(Wide(i), 8)
  }

  /** `crcTable`. */
  method BuildTable() returns (table: seq<Word>)
    ensures IsTable(table)
  {
    hide ToBits, Zeros, Xor;
    table := [];
    for index := 0 to 256
      invariant |table| == index && forall i :: 0 <= i < index ==> table[i] == Shifts(Wide(i), 8)
    {
      var value := Wide(index);
      for bit := 0 to 8
        invariant value == Shifts(Wide(index), bit)
      {
        value := if value[0] then Xor(Word32(0xEDB8_8320), ShiftRight(value, 1)) else ShiftRight(value, 1);
      }
      table := table + [value];
    }
  }

  function TableIndex(x: Word): nat {
    Value(x[..8])
  }

  lemma IndexNamesLowByte(x: Word)
    ensures TableIndex(x) < 256 && Wide(TableIndex(x)) == LowByte(x)
  {
    ValueRoundTrip(x[..8]);
    assert IpCidr.Pow2(8) == 256;
  }

  lemma ChecksumIsWord(data: seq<Byte>)
    ensures Checksum(data) < 0x1_0000_0000
  {
    ValueRoundTrip(Xor(Register(data), Word32(0xFFFF_FFFF)));
    IpCidr.Pow2Of32();
  }

  /** `crc32`: the table loop computes the bitwise checksum. */
  method ComputeCrc32(table: seq<Word>, data: seq<Byte>) returns (crc: nat)
    requires IsTable(table)
    ensures crc == Checksum(data) && crc < 0x1_0000_0000
  {
    hide ToBits, Zeros, Xor, Shifts, ShiftRight, LowByte, Wide, TableIndex, Value;
    var value := Word32(0xFFFF_FFFF);
    for i := 0 to |data|
      invariant value == Register(data[..i])
    {
      var x := Xor(value, Wide(data[i]));
      LookupStep(x);
      ByteStaysLow(value, data[i]);
      IndexNamesLowByte(x);
      assert data[..i + 1][..i] == data[..i];
      value := Xor(table[TableIndex(x)], ShiftRight(value, 8));
    }
    assert data[..|data|] == data;
    crc := Value(Xor(value, Word32(0xFFFF_FFFF)));
    ChecksumIsWord(data);
  }
}
