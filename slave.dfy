/**
 * The device simulator of slave.js: once a second the simulated load grows
 * by a random 50-150 kg up to 100 t, and the load in tens of kilograms is
 * written into two holding registers (a 4-byte buffer, big-endian).
 */
module Slave {
  import opened Js
  import ModbusManager

  const MaxLoadKg: real := 100000.0

  /** `Math.round` */
  function Round(x: real): (r: int)
    ensures x - 0.5 < r as real <= x + 0.5
  {
    (x + 0.5).Floor
  }

  /** The high register: bits 16 to 31 of the 32-bit pattern of v. */
  function HighWord(v: int): (r: int)
    ensures 0 <= r < 0x1_0000
  {
    DivBound(ToUint32(v), TwoTo32);
    ToUint32(v) / 0x1_0000
  }

  /** The low register: bits 0 to 15 of the 32-bit pattern of v. */
  function LowWord(v: int): (r: int)
    ensures 0 <= r < 0x1_0000
  {
    ToUint32(v) % 0x1_0000
  }

  /** The simulator's `(v >> 16) & 0xffff` is the high register. */
  lemma HighWordBits(v: int)
    ensures BitAnd(ShiftRight(v, 16), 0xffff) == HighWord(v)
  {
    MaskLow16(ShiftRight(v, 16));
    ShiftedHigh(v);
  }

  /** The low 16 bits of `v >> 16` are bits 16 to 31 of v. */
  lemma ShiftedHigh(v: int)
    ensures ToUint32(ShiftRight(v, 16)) % 0x1_0000 == HighWord(v)
  {
    Pow2Constants();
    var u := ToUint32(v);
    var q, r := u / 0x1_0000, u % 0x1_0000;
    DivBound(u, TwoTo32);
    assert u == 0x1_0000 * q + r;
    if u < TwoTo31 {
      assert ToInt32(v) == u;
      ModUnique(u, 0x1_0000, q, r);
      assert ShiftRight(v, 16) == q;
      ModUnique(q, TwoTo32, 0, q);
      ModUnique(q, 0x1_0000, 0, q);
    } else {
      assert ToInt32(v) == u - TwoTo32;
      ModUnique(u - TwoTo32, 0x1_0000, q - 0x1_0000, r);
      assert ShiftRight(v, 16) == q - 0x1_0000;
      ModUnique(q - 0x1_0000, TwoTo32, -1, q - 0x1_0000 + TwoTo32);
      ModUnique(q - 0x1_0000 + TwoTo32, 0x1_0000, 0xffff, q);
    }
  }

  /** The simulator's `v & 0xffff` is the low register. */
  lemma LowWordBits(v: int)
    ensures BitAnd(v, 0xffff) == LowWord(v)
  {
    MaskLow16(v);
  }

  /** Masking with 0xffff keeps the low 16 bits of the 32-bit pattern. */
  lemma MaskLow16(a: int)
    ensures BitAnd(a, 0xffff) == ToUint32(a) % 0x1_0000
  {
    Pow2Constants();
    OnesValue(16);
    AndMask(ToUint32(a), 16, 32);
  }

  /** For a non-negative int32 the two words are the quotient and remainder by 2^16. */
  lemma WordsOf(v: int)
    requires 0 <= v < TwoTo31
    ensures HighWord(v) == v / 0x1_0000 && LowWord(v) == v % 0x1_0000
  {
    ModUnique(v, TwoTo32, 0, v);
  }

  /** Dividing a value below 2^16 * 2^k by 2^16 leaves a value below 2^k. */
  lemma DivBound(v: int, bound: int)
    requires 0 <= v < bound && (bound == TwoTo31 || bound == TwoTo32)
    ensures 0 <= v / 0x1_0000 < bound / 0x1_0000
  {
    var q, r := v / 0x1_0000, v % 0x1_0000;
    assert v == 0x1_0000 * q + r;
    if q >= bound / 0x1_0000 {
      MulNonneg(0x1_0000, q - bound / 0x1_0000);
      assert false;
    }
  }

  /** The master's `(high << 16) | low` undoes the simulator's split for every non-negative int32. */
  lemma SplitRoundTrip(v: int)
    requires 0 <= v < TwoTo31
    ensures ModbusManager.Combine(HighWord(v) as u16, LowWord(v) as u16) == v
  {
    WordsOf(v);
    ModbusManager.CombineValue(HighWord(v) as u16, LowWord(v) as u16);
  }

  /** The simulator never needs the high word: a load of at most 100 t is at most 10000 counts. */
  lemma HighWordZero(kg: real)
    requires 0.0 <= kg <= MaxLoadKg
    ensures 0 <= Round(kg / 10.0) <= 10000
    ensures HighWord(Round(kg / 10.0)) == 0
  {
    WordsOf(Round(kg / 10.0));
  }

  /** What the master reads back is within 5 kg of the simulated load. */
  lemma ReadBackWithin5Kg(kg: real)
    requires 0.0 <= kg <= MaxLoadKg
    ensures
      var scaled := Round(kg / 10.0);
      var reading := ModbusManager.Decode(HighWord(scaled) as u16, LowWord(scaled) as u16);
      -5.0 <= reading.kg - kg <= 5.0
  {
    var scaled := Round(kg / 10.0);
    HighWordZero(kg);
    SplitRoundTrip(scaled);
    ModbusManager.DecodeCombines(HighWord(scaled) as u16, LowWord(scaled) as u16);
  }

  class Simulator {
    /** `testLoadKg` */
    var testLoadKg: real
    /** The `holding` Buffer the Modbus server serves. */
    const holding: array<int>

    predicate Valid()
      reads this, holding
    {
      && holding.Length == 4
      && 0.0 <= testLoadKg <= MaxLoadKg
      && forall i :: 0 <= i < 4 ==> 0 <= holding[i] < 0x100
    }

    /** Register i (0 or 1), read big-endian from the buffer. */
    function Register(i: nat): int
      requires Valid() && i < 2
      reads this, holding
    {
      holding[2 * i] * 0x100 + holding[2 * i + 1]
    }

    /** `Buffer.alloc(4)` and a zero load. */
    constructor()
      ensures Valid()
      ensures testLoadKg == 0.0
      ensures fresh(holding)
      ensures holding[..] == [0, 0, 0, 0]
    {
      testLoadKg := 0.0;
      holding := new int[4](_ => 0);
    }

    /** `holding.writeUInt16BE(value, offset)` at the start of register offset / 2. */
    method WriteUInt16BE(value: int, offset: nat)
      requires Valid() && 0 <= value < 0x1_0000 && (offset == 0 || offset == 2)
      modifies holding
      ensures Valid()
      ensures Register(offset / 2) == value
      ensures Register(1 - offset / 2) == old(Register(1 - offset / 2))
    {
      holding[offset] := value / 0x100;
      holding[offset + 1] := value % 0x100;
    }

    /**
     * One run of the interval body. `increment` is `Math.random() * 100 + 50`.
     * Below the maximum the load grows, is clamped, and both registers are
     * rewritten; at the maximum nothing happens.
     */
    method Tick(increment: real)
      requires Valid() && 50.0 <= increment < 150.0
      modifies this, holding
      ensures Valid()
      ensures old(testLoadKg) < MaxLoadKg ==>
        && testLoadKg == (if old(testLoadKg) + increment > MaxLoadKg then MaxLoadKg else old(testLoadKg) + increment)
        && Register(0) == HighWord(Round(testLoadKg / 10.0))
        && Register(1) == LowWord(Round(testLoadKg / 10.0))
      ensures old(testLoadKg) >= MaxLoadKg ==> testLoadKg == old(testLoadKg) && unchanged(holding)
      ensures old(testLoadKg) <= testLoadKg
    {
      if testLoadKg < MaxLoadKg {
        testLoadKg := testLoadKg + increment;
        if testLoadKg > MaxLoadKg {
          testLoadKg := MaxLoadKg;
        }
        var scaledLoad := Round(testLoadKg / 10.0);
        // `(scaledLoad >> 16) & 0xffff` and `scaledLoad & 0xffff`, by HighWordBits and LowWordBits
        var high, low := HighWord(scaledLoad), LowWord(scaledLoad);
        WriteUInt16BE(high, 0);
        WriteUInt16BE(low, 2);
        assert Register(0) == high && Register(1) == low;
      }
    }
  }
}
