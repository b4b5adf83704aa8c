/** CRC-64/WE as computed by `os::bootloader::CRC64WE`: polynomial
    0x42F0E1EBA9EA3693, not reflected, initial value and output xor all ones,
    check value 0x62EC59E3F1A4F00A. */
module Crc64We {
  import opened Outcomes

  const Poly: bv64 := 0x42F0_E1EB_A9EA_3693
  const Mask: bv64 := 1 << 63
  const AllOnes: bv64 := 0xFFFF_FFFF_FFFF_FFFF

  /** One bit of polynomial division, most significant bit first. */
  function ShiftStep(c: bv64): bv64 {
    if c & Mask != 0 then (c << 1) ^ Poly else c << 1
  }

  /** `n` iterations of the shift-and-xor loop. */
  function Shifts(c: bv64, n: nat): bv64 {
    if n == 0 then c else ShiftStep(Shifts(c, n - 1))
  }

  /** Feeding one byte: it is xored into bits 63..56, then eight bits are divided out. */
  function Step(crc: bv64, b: bv8): bv64 {
    Shifts(crc ^ ((b as bv64) << 56), 8)
  }

  /** The running state after feeding `s` in order, starting from `crc`. */
  function Fold(crc: bv64, s: seq<bv8>): bv64 {
    if s == [] then crc else Step(Fold(crc, s[..|s| - 1]), s[|s| - 1])
  }

  /** The digest of a byte string: fold from all ones, then complement. */
  function Digest(s: seq<bv8>): bv64 {
    Fold(AllOnes, s) ^ AllOnes
  }

  /** The unrolled byte update: the same conditional shift line written out
      eight times, innermost first. */
  function Unrolled(x: bv64): bv64 {
    ShiftStep(ShiftStep(ShiftStep(ShiftStep(ShiftStep(ShiftStep(ShiftStep(ShiftStep(x))))))))
  }

  /** The manual unrolling is the eight-iteration loop. */
  lemma UnrolledIsLoop(x: bv64)
    ensures Unrolled(x) == Shifts(x, 8)
  {
    assert Shifts(x, 0) == x;
    assert Shifts(x, 1) == ShiftStep(x);
    assert Shifts(x, 2) == ShiftStep(Shifts(x, 1));
    assert Shifts(x, 3) == ShiftStep(Shifts(x, 2));
    assert Shifts(x, 4) == ShiftStep(Shifts(x, 3));
    assert Shifts(x, 5) == ShiftStep(Shifts(x, 4));
    assert Shifts(x, 6) == ShiftStep(Shifts(x, 5));
    assert Shifts(x, 7) == ShiftStep(Shifts(x, 6));
  }

  /** Adding one more byte is one more step. */
  lemma FoldSnoc(crc: bv64, s: seq<bv8>, b: bv8)
    ensures Fold(crc, s + [b]) == Step(Fold(crc, s), b)
  {
    assert (s + [b])[..|s|] == s;
  }

  /** Feeding a buffer in two consecutive chunks equals feeding it in one. */
  lemma {:induction false} FoldAppend(crc: bv64, a: seq<bv8>, b: seq<bv8>)
    ensures Fold(crc, a + b) == Fold(Fold(crc, a), b)
  {
    if b == [] {
      assert a + b == a;
    } else {
      var n := |b| - 1;
      assert (a + b)[..|a + b| - 1] == a + b[..n];
      FoldAppend(crc, a, b[..n]);
    }
  }

  /** The empty input has digest zero. */
  lemma EmptyDigest()
    ensures Digest([]) == 0
  {
  }

  /** The ASCII bytes of "123456789". */
  const CheckInput: seq<bv8> := [0x31, 0x32, 0x33, 0x34, 0x35, 0x36, 0x37, 0x38, 0x39]

  /** One step from a known state, once the xored-in value is known. */
  lemma StepFrom(crc: bv64, b: bv8, x: bv64, r: bv64)
    requires crc ^ ((b as bv64) << 56) == x
    requires Shifts(x, 8) == r
    ensures Step(crc, b) == r
  {
  }

  /** The published check value of CRC-64/WE. */
  lemma CheckValue()
    ensures Digest(CheckInput) == 0x62EC_59E3_F1A4_F00A
  {
    var s := CheckInput;
    CheckValueFirst();
    CheckValueSecond();
    FoldAppend(AllOnes, s[..5], s[5..9]);
    assert s[..5] + s[5..9] == s;
  }

  lemma CheckValueFirst()
    ensures Fold(AllOnes, CheckInput[0..5]) == 0xfcf9_3a50_65c3_29f9
  {
    var s := CheckInput[0..5];
    var c: bv64 := AllOnes;
    assert Fold(AllOnes, s[..0]) == c;
    StepFrom(c, s[0], 0xceff_ffff_ffff_ffff, 0x8db4_7132_29b2_f2a5);
    FoldSnoc(AllOnes, s[..0], s[0]);
    assert s[..0] + [s[0]] == s[..1];
    c := 0x8db4_7132_29b2_f2a5;
    assert Fold(AllOnes, s[..1]) == c;
    StepFrom(c, s[1], 0xbfb4_7132_29b2_f2a5, 0xf488_d61a_961b_3128);
    FoldSnoc(AllOnes, s[..1], s[1]);
    assert s[..1] + [s[1]] == s[..2];
    c := 0xf488_d61a_961b_3128;
    assert Fold(AllOnes, s[..2]) == c;
    StepFrom(c, s[2], 0xc788_d61a_961b_3128, 0x2a0b_b93a_7813_ca88);
    FoldSnoc(AllOnes, s[..2], s[2]);
    assert s[..2] + [s[2]] == s[..3];
    c := 0x2a0b_b93a_7813_ca88;
    assert Fold(AllOnes, s[..3]) == c;
    StepFrom(c, s[3], 0x1e0b_b93a_7813_ca88, 0x3330_2b9f_c238_55a8);
    FoldSnoc(AllOnes, s[..3], s[3]);
    assert s[..3] + [s[3]] == s[..4];
    c := 0x3330_2b9f_c238_55a8;
    assert Fold(AllOnes, s[..4]) == c;
    StepFrom(c, s[4], 0x0630_2b9f_c238_55a8, 0xfcf9_3a50_65c3_29f9);
    FoldSnoc(AllOnes, s[..4], s[4]);
    assert s[..4] + [s[4]] == s[..5];
    c := 0xfcf9_3a50_65c3_29f9;
    assert Fold(AllOnes, s[..5]) == c;
    assert s[..5] == s;
  }

  lemma CheckValueSecond()
    ensures Fold(0xfcf9_3a50_65c3_29f9, CheckInput[5..9]) == 0x9d13_a61c_0e5b_0ff5
  {
    var s := CheckInput[5..9];
    var c: bv64 := 0xfcf9_3a50_65c3_29f9;
    assert Fold(0xfcf9_3a50_65c3_29f9, s[..0]) == c;
    StepFrom(c, s[0], 0xcaf9_3a50_65c3_29f9, 0xc242_b8ed_1b26_187a);
    FoldSnoc(0xfcf9_3a50_65c3_29f9, s[..0], s[0]);
    assert s[..0] + [s[0]] == s[..1];
    c := 0xc242_b8ed_1b26_187a;
    assert Fold(0xfcf9_3a50_65c3_29f9, s[..1]) == c;
    StepFrom(c, s[1], 0xf542_b8ed_1b26_187a, 0xcfc3_0460_a7cc_7b9f);
    FoldSnoc(0xfcf9_3a50_65c3_29f9, s[..1], s[1]);
    assert s[..1] + [s[1]] == s[..2];
    c := 0xcfc3_0460_a7cc_7b9f;
    assert Fold(0xfcf9_3a50_65c3_29f9, s[..2]) == c;
    StepFrom(c, s[2], 0xf7c3_0460_a7cc_7b9f, 0xcb9e_4a0b_1e7b_f3b9);
    FoldSnoc(0xfcf9_3a50_65c3_29f9, s[..2], s[2]);
    assert s[..2] + [s[2]] == s[..3];
    c := 0xcb9e_4a0b_1e7b_f3b9;
    assert Fold(0xfcf9_3a50_65c3_29f9, s[..3]) == c;
    StepFrom(c, s[3], 0xf29e_4a0b_1e7b_f3b9, 0x9d13_a61c_0e5b_0ff5);
    FoldSnoc(0xfcf9_3a50_65c3_29f9, s[..3], s[3]);
    assert s[..3] + [s[3]] == s[..4];
    c := 0x9d13_a61c_0e5b_0ff5;
    assert Fold(0xfcf9_3a50_65c3_29f9, s[..4]) == c;
    assert s[..4] == s;
  }

  /** The streaming accumulator; `crc` is the source's `crc_`, `fed` the bytes added so far. */
  class Accumulator {
    var crc: bv64
    ghost var fed: seq<bv8>

    ghost predicate Valid()
      reads this
    {
      crc == Fold(AllOnes, fed)
    }

    constructor ()
      ensures Valid() && fed == [] && crc == AllOnes
    {
      crc := AllOnes;
      fed := [];
    }

    /** `add(std::uint8_t)`: the byte is folded into the state with the unrolled step. */
    method Add(b: bv8)
      requires Valid()
      modifies this
      ensures Valid() && fed == old(fed) + [b]
      ensures crc == Step(old(crc), b)
    {
      crc := crc ^ ((b as bv64) << 56);
      ghost var x := crc;
      crc := ShiftStep(crc);
      crc := ShiftStep(crc);
      crc := ShiftStep(crc);
      crc := ShiftStep(crc);
      crc := ShiftStep(crc);
      crc := ShiftStep(crc);
      crc := ShiftStep(crc);
      crc := ShiftStep(crc);
      UnrolledIsLoop(x);
      FoldSnoc(AllOnes, old(fed), b);
      fed := fed + [b];
    }

    /** `add(const void*, unsigned)`: the null check fails whatever `len` is
        when assertions are compiled in; otherwise the first `len` bytes of
        `data` are added in order. With assertions compiled out a null buffer
        is only defined for `len == 0`. */
    method AddBuf(data: array?<bv8>, len: nat, assertsEnabled: bool) returns (r: Outcome<()>)
      requires Valid()
      requires data != null ==> len <= data.Length
      requires data == null && !assertsEnabled ==> len == 0
      modifies this
      ensures Valid()
      ensures r.AssertFailed? <==> data == null && assertsEnabled
      ensures r.AssertFailed? ==> r.expr == "bytes != nullptr"
      ensures !r.Halted?
      ensures data == null ==> crc == old(crc) && fed == old(fed)
      ensures data != null ==> fed == old(fed) + data[..len] && crc == Fold(old(crc), data[..len])
    {
      if data == null && assertsEnabled {
        return AssertFailed("bytes != nullptr");
      }
      if data == null {
        return Return(());
      }
      var remaining := len;
      var p := 0;
      while remaining > 0
        invariant p + remaining == len
        invariant Valid()
        invariant fed == old(fed) + data[..p]
        invariant crc == Fold(old(crc), data[..p])
      {
        remaining := remaining - 1;
        Add(data[p]);
        p := p + 1;
        assert data[..p] == data[..p - 1] + [data[p - 1]];
        assert data[..p][..p - 1] == data[..p - 1];
      }
      r := Return(());
    }

    /** `get()`: the digest of everything added so far. */
    function Get(): (d: bv64)
      reads this
      requires Valid()
      ensures d == Digest(fed)
    {
      crc ^ AllOnes
    }
  }

  /** A fresh accumulator fed "123456789" reports the published check value. */
  method CheckByAccumulator() returns (d: bv64)
    ensures d == 0x62EC_59E3_F1A4_F00A
  {
    var acc := new Accumulator();
    var data := new bv8[9](i requires 0 <= i < 9 => CheckInput[i]);
    var r := acc.AddBuf(data, 9, true);
    assert data[..9] == CheckInput;
    d := acc.Get();
    CheckValue();
  }

  /** Two independently constructed accumulators fed the same bytes agree. */
  lemma SameBytesSameDigest(a: Accumulator, b: Accumulator)
    requires a.Valid() && b.Valid() && a.fed == b.fed
    ensures a.Get() == b.Get()
  {
  }
}
