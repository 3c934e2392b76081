/** Byte strings, the errors of the script engine, and fixed-width integers. */
module ScriptTypes {
  import opened Outcomes

  type Byte = b: int | 0 <= b < 256
  type Bytes = seq<Byte>

  const TWO_31: int := 0x8000_0000
  const TWO_63: int := 0x8000_0000_0000_0000
  const TWO_64: int := 0x1_0000_0000_0000_0000

  /** A 64-bit signed integer: a value of this type is proof that no overflow happened. */
  type I64 = x: int | -0x8000_0000_0000_0000 <= x < 0x8000_0000_0000_0000

  datatype Error =
    | NonMinimalPush
    | EarlyEndOfScript
    | NumericOverflow
    | IllegalOp
    | UnbalancedIfElse
    | NotEnoughElementsOnStack
    | InvalidOperand
    | VerifyFail
    | StackNotClean
    | PubkeyFormat
    | PushSize
    | PushOnly
    | StackSize
    | ScriptSize
    | PubkeyCount
    | SigCount
    | TimeLock
    | NullDummy

  type ScriptResult<+T> = Result<T, Error>
}

/**
 Numbers on the script stack: little-endian, sign bit in the last byte.

 The encoder is the loop of `build_scriptint`, the reader is the wrapping 64-bit fold of
 `read_scriptint_size`; both are related to one mathematical reading, `SignedMagnitude`.
 */
module ScriptNumbers {
  import opened Outcomes
  import opened ScriptTypes

  function Exp256(k: nat): (r: nat)
    ensures r > 0
  {
    if k == 0 then 1 else 256 * Exp256(k - 1)
  }

  /** Plain little-endian value. */
  function LittleEndian(v: Bytes): nat {
    if v == [] then 0 else v[0] + 256 * LittleEndian(v[1..])
  }

  /** Little-endian value with the sign bit (the top bit of the last byte) cleared. */
  function Magnitude(v: Bytes): nat {
    if v == [] then 0
    else if |v| == 1 then v[0] % 128
    else v[0] + 256 * Magnitude(v[1..])
  }

  predicate Negative(v: Bytes) {
    v != [] && v[|v| - 1] >= 128
  }

  /** What a byte string means as a number. */
  function SignedMagnitude(v: Bytes): int {
    if Negative(v) then 0 - Magnitude(v) else Magnitude(v)
  }

  /** The bytes of `abs` with sign `neg`. */
  function EncodeMagnitude(abs: nat, neg: bool): Bytes
    requires abs > 0
  {
    if abs > 0xFF then [abs % 256] + EncodeMagnitude(abs / 256, neg)
    else if abs >= 0x80 then [abs, if neg then 0x80 else 0]
    else [abs + if neg then 0x80 else 0]
  }

  function ScriptInt(n: int): Bytes {
    if n == 0 then [] else EncodeMagnitude(if n < 0 then -n else n, n < 0)
  }

  /** `build_scriptint`: negating `i64::MIN` overflows, so it is not an input. */
  method BuildScriptint(n: I64) returns (v: Bytes)
    requires n != -TWO_63
    ensures v == ScriptInt(n)
  {
    if n == 0 {
      return [];
    }
    var neg := n < 0;
    var abs: nat := if neg then -n else n;
    v := [];
    while abs > 0xFF
      invariant abs > 0
      invariant v + EncodeMagnitude(abs, neg) == ScriptInt(n)
    {
      assert EncodeMagnitude(abs, neg) == [abs % 256] + EncodeMagnitude(abs / 256, neg);
      v := v + [abs % 256];
      abs := abs / 256;
    }
    if abs >= 0x80 {
      v := v + [abs];
      v := v + [if neg then 0x80 else 0];
    } else {
      v := v + [abs + if neg then 0x80 else 0];
    }
  }

  // ----- encoding then reading back

  lemma {:induction false} EncodeMagnitudeReadsBack(abs: nat, neg: bool)
    requires abs > 0
    ensures EncodeMagnitude(abs, neg) != []
    ensures Magnitude(EncodeMagnitude(abs, neg)) == abs
    ensures Negative(EncodeMagnitude(abs, neg)) == neg
  {
    if abs > 0xFF {
      var v, tail := EncodeMagnitude(abs, neg), EncodeMagnitude(abs / 256, neg);
      EncodeMagnitudeReadsBack(abs / 256, neg);
      assert v == [abs % 256] + tail && v[1..] == tail;
      assert Magnitude(v) == abs % 256 + 256 * Magnitude(tail);
      assert v[|v| - 1] == tail[|tail| - 1];
    } else {
      var v := EncodeMagnitude(abs, neg);
      assert abs >= 0x80 ==> v[1..] == [if neg then 0x80 else 0];
    }
  }

  /** The encoding means the number it was made from, whatever its size. */
  lemma ScriptIntMeansItsNumber(n: int)
    ensures SignedMagnitude(ScriptInt(n)) == n
  {
    if n != 0 {
      EncodeMagnitudeReadsBack(if n < 0 then -n else n, n < 0);
    }
  }

  lemma {:induction false} EncodeMagnitudeLength(abs: nat, neg: bool, k: nat)
    requires abs > 0 && k > 0
    ensures |EncodeMagnitude(abs, neg)| <= k <==> abs < 128 * Exp256(k - 1)
  {
    if abs > 0xFF {
      if k == 1 {
        EncodeMagnitudeReadsBack(abs / 256, neg);
      } else {
        EncodeMagnitudeLength(abs / 256, neg, k - 1);
      }
    } else if k > 1 {
      assert Exp256(k - 1) == 256 * Exp256(k - 2);
    }
  }

  /** Exactly the numbers below 2^(8k-1) in absolute value fit in `k` bytes. */
  lemma ScriptIntLength(n: int, k: nat)
    requires k > 0
    ensures |ScriptInt(n)| <= k <==> -128 * Exp256(k - 1) < n < 128 * Exp256(k - 1)
  {
    if n != 0 {
      EncodeMagnitudeLength(if n < 0 then -n else n, n < 0, k);
    }
  }

  lemma {:induction false} MagnitudeBound(v: Bytes)
    requires v != []
    ensures Magnitude(v) < 128 * Exp256(|v| - 1)
  {
    if |v| > 1 {
      MagnitudeBound(v[1..]);
    }
  }

  /** No byte string for the same number is shorter than the one the encoder makes. */
  lemma ScriptIntIsShortest(v: Bytes)
    ensures |ScriptInt(SignedMagnitude(v))| <= |v|
  {
    if v == [] {
    } else {
      MagnitudeBound(v);
      ScriptIntLength(SignedMagnitude(v), |v|);
    }
  }

  // ----- the reader

  /** Two's-complement reduction to 64 bits. */
  function Wrap64(x: int): (r: I64)
    ensures (r - x) % TWO_64 == 0
  {
    (x + TWO_63) % TWO_64 - TWO_63
  }

  /** `(byte as i64) << (8 * k)`: bits beyond the width are lost. */
  function ShiftByte(b: Byte, k: nat): I64 {
    Wrap64(b * Exp256(k))
  }

  /** The fold of the reader, from accumulator `acc` and byte position `k`. */
  function FoldBytes(v: Bytes, acc: int, k: nat): int {
    if v == [] then acc else FoldBytes(v[1..], acc + ShiftByte(v[0], k), k + 1)
  }

  /** Every sum the fold forms fits in 64 bits. */
  predicate FoldFits(v: Bytes, acc: int, k: nat)
    decreases |v|
  {
    -TWO_63 <= acc < TWO_63 &&
    (v != [] ==> FoldFits(v[1..], acc + ShiftByte(v[0], k), k + 1))
  }

  /** `read_scriptint_size`. Masking with 2^m - 1 is the remainder modulo 2^m, also for negatives. */
  function ReadScriptintSize(v: Bytes, maxSize: nat): ScriptResult<int>
    requires maxSize <= 8
  {
    if v == [] then Ok(0)
    else if |v| > maxSize then Err(NumericOverflow)
    else
      var ret := FoldBytes(v, 0, 0);
      if v[|v| - 1] >= 0x80 then Ok(-(ret % (128 * Exp256(|v| - 1)))) else Ok(ret)
  }

  function ReadScriptint(v: Bytes): ScriptResult<int> {
    ReadScriptintSize(v, 4)
  }

  lemma Exp256Values()
    ensures Exp256(1) == 0x100 && Exp256(2) == 0x1_0000 && Exp256(3) == 0x100_0000
    ensures Exp256(4) == 0x1_0000_0000 && Exp256(5) == 0x100_0000_0000
    ensures Exp256(6) == 0x1_0000_0000_0000 && Exp256(7) == 0x100_0000_0000_0000
    ensures Exp256(8) == TWO_64
  {
    assert Exp256(3) == 256 * Exp256(2);
    assert Exp256(4) == 256 * Exp256(3);
    assert Exp256(5) == 256 * Exp256(4);
    assert Exp256(6) == 256 * Exp256(5);
    assert Exp256(7) == 256 * Exp256(6);
    assert Exp256(8) == 256 * Exp256(7);
  }

  lemma {:induction false} Exp256Monotone(j: nat, k: nat)
    requires j <= k
    ensures Exp256(j) <= Exp256(k)
  {
    if j < k {
      Exp256Monotone(j, k - 1);
    }
  }

  lemma ShiftByteValue(b: Byte, k: nat)
    requires k < 8
    ensures ShiftByte(b, k) == b * Exp256(k) - if k == 7 && b >= 128 then TWO_64 else 0
  {
    Exp256Values();
    if k < 7 {
      Exp256Monotone(k, 6);
      assert b * Exp256(k) <= 255 * Exp256(6);
    }
  }

  /** The sign bit the wrapping fold turns into a negative number. */
  function WrapLoss(v: Bytes, k: nat): int {
    if k + |v| == 8 && Negative(v) then TWO_64 else 0
  }

  lemma {:induction false} LittleEndianBound(v: Bytes)
    ensures LittleEndian(v) < Exp256(|v|)
  {
    if v != [] {
      LittleEndianBound(v[1..]);
    }
  }

  lemma {:induction false} FoldBytesValue(v: Bytes, acc: int, k: nat)
    requires k + |v| <= 8 && (v == [] ==> k < 8)
    requires 0 <= acc < Exp256(k)
    ensures FoldBytes(v, acc, k) == acc + LittleEndian(v) * Exp256(k) - WrapLoss(v, k)
    ensures FoldFits(v, acc, k)
  {
    Exp256Values();
    if v == [] {
      Exp256Monotone(k, 7);
    } else {
      ShiftByteValue(v[0], k);
      var acc' := acc + ShiftByte(v[0], k);
      Exp256Monotone(k, 7);
      if |v| == 1 {
        assert v[1..] == [];
        assert FoldBytes(v[1..], acc', k + 1) == acc';
        FoldLastStep(v[0], acc, k);
      } else {
        assert k < 7;
        MulBelow(v[0], Exp256(k), acc);
        FoldBytesValue(v[1..], acc', k + 1);
        assert LittleEndian(v) * Exp256(k) == v[0] * Exp256(k) + LittleEndian(v[1..]) * Exp256(k + 1) by {
          Rebase(v[0], LittleEndian(v[1..]), Exp256(k));
        }
        assert v[1..][|v[1..]| - 1] == v[|v| - 1];
      }
    }
  }

  lemma MulBelow(b: Byte, e: nat, acc: nat)
    requires acc < e
    ensures acc + b * e < 256 * e
  {
    assert b * e <= 255 * e;
  }

  lemma Rebase(b: int, rest: int, e: int)
    ensures (b + 256 * rest) * e == b * e + rest * (256 * e)
  {}

  /** The step that may reach the sign bit still stays inside 64 bits. */
  lemma FoldLastStep(b: Byte, acc: nat, k: nat)
    requires k < 8 && acc < Exp256(k)
    ensures -TWO_63 <= acc + ShiftByte(b, k) < TWO_63
  {
    Exp256Values();
    ShiftByteValue(b, k);
    if k < 7 {
      Exp256Monotone(k, 6);
      assert b * Exp256(k) <= 255 * Exp256(6);
    }
  }

  lemma {:induction false} LittleEndianSplitsSign(v: Bytes)
    requires v != []
    ensures LittleEndian(v) == Magnitude(v) + if Negative(v) then 128 * Exp256(|v| - 1) else 0
  {
    if |v| > 1 {
      LittleEndianSplitsSign(v[1..]);
      assert v[1..][|v[1..]| - 1] == v[|v| - 1];
    } else {
      assert v[1..] == [];
    }
  }

  /** Masking the folded value leaves the magnitude, wrapped or not. */
  lemma MaskedFold(v: Bytes)
    requires 0 < |v| <= 8 && Negative(v)
    ensures FoldBytes(v, 0, 0) % (128 * Exp256(|v| - 1)) == Magnitude(v)
  {
    var half := 128 * Exp256(|v| - 1);
    FoldBytesValue(v, 0, 0);
    LittleEndianSplitsSign(v);
    MagnitudeBound(v);
    ModuloHalf(Magnitude(v), half, |v| == 8);
    assert |v| == 8 ==> 2 * half == TWO_64 by { Exp256Values(); }
  }

  /**
   The wrapping reader returns the mathematical value of every string short enough, and refuses
   every longer one; none of its 64-bit sums overflows.
   */
  lemma ReadIsSignedMagnitude(v: Bytes, maxSize: nat)
    requires maxSize <= 8
    ensures ReadScriptintSize(v, maxSize) ==
            if |v| <= maxSize then Ok(SignedMagnitude(v)) else Err(NumericOverflow)
    ensures |v| <= maxSize ==> FoldFits(v, 0, 0)
  {
    if v != [] && |v| <= maxSize {
      FoldBytesValue(v, 0, 0);
      if Negative(v) {
        MaskedFold(v);
      } else {
        LittleEndianSplitsSign(v);
      }
    }
  }

  lemma ModuloHalf(m: nat, half: nat, wrapped: bool)
    requires m < half
    ensures (m + half - if wrapped then 2 * half else 0) % half == m
  {
    var x := m + half - if wrapped then 2 * half else 0;
    RemainderIs(x, half, if wrapped then -1 else 1, m);
  }

  lemma RemainderIs(x: int, d: nat, q: int, m: nat)
    requires m < d && x == d * q + m
    ensures x % d == m
  {
    var s := x / d - q;
    assert d * s == d * (x / d) - d * q;
    MultipleGrows(d, s);
  }

  lemma MultipleGrows(d: nat, s: int)
    ensures s >= 1 ==> d * s >= d
    ensures s <= -1 ==> d * s <= 0 - d
  {}

  /** The round trip: every 64-bit number the encoder accepts is read back by the 8-byte reader. */
  lemma ScriptIntRoundTrip(n: I64)
    requires n != -TWO_63
    ensures ReadScriptintSize(ScriptInt(n), 8) == Ok(n)
  {
    Exp256Values();
    ScriptIntMeansItsNumber(n);
    ScriptIntLength(n, 8);
    ReadIsSignedMagnitude(ScriptInt(n), 8);
  }

  /** The default reader accepts an encoding exactly when the number is below 2^31 in magnitude. */
  lemma ScriptIntFourByteReader(n: int)
    ensures ReadScriptint(ScriptInt(n)) ==
            if -TWO_31 < n < TWO_31 then Ok(n) else Err(NumericOverflow)
  {
    Exp256Values();
    ScriptIntMeansItsNumber(n);
    ScriptIntLength(n, 4);
    ReadIsSignedMagnitude(ScriptInt(n), 4);
  }

  /** A number read by the default reader is below 2^31 in magnitude. */
  lemma ReadScriptintRange(v: Bytes)
    ensures ReadScriptint(v).Ok? ==> -TWO_31 < ReadScriptint(v).value < TWO_31
  {
    ReadIsSignedMagnitude(v, 4);
    if v != [] && |v| <= 4 {
      MagnitudeBound(v);
      Exp256Values();
      Exp256Monotone(|v| - 1, 3);
    }
  }

  // ----- booleans

  /** `read_scriptbool`: false is the empty string, zeros, or zeros ending in the bare sign bit. */
  predicate ReadScriptbool(v: Bytes) {
    !(v == [] ||
      ((v[|v| - 1] == 0 || v[|v| - 1] == 0x80) &&
       forall i :: 0 <= i < |v| - 1 ==> v[i] == 0))
  }

  lemma {:induction false} MagnitudeZero(v: Bytes)
    requires v != []
    ensures Magnitude(v) == 0 <==>
            (v[|v| - 1] % 128 == 0 && forall i :: 0 <= i < |v| - 1 ==> v[i] == 0)
  {
    if |v| > 1 {
      var w := v[1..];
      MagnitudeZero(w);
      assert w[|w| - 1] == v[|v| - 1];
      forall i | 0 < i < |v| - 1 ensures w[i - 1] == v[i] {}
    }
  }

  /** Truth is "the number is not zero", with no limit on the length of the string. */
  lemma ReadScriptboolIsNonzero(v: Bytes)
    ensures ReadScriptbool(v) <==> SignedMagnitude(v) != 0
  {
    if v != [] {
      MagnitudeZero(v);
    }
  }
}
