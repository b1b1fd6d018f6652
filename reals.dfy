/**
 * The floating-point literal payloads of nom-sql/src/common.rs: `Float`
 * and `Double` with their bit-pattern equality and hashing (lines 202-242),
 * and the trimming step of `write_real` in `Display for Literal`
 * (lines 336-347).
 *
 * A float is held as its IEEE-754 bit pattern; the arithmetic value and
 * Rust's `{:.*}` formatting are not modelled, so `write_real` is modelled
 * from the already-formatted text onwards.
 */
module Reals {
  import opened ParseCore
  import opened Numeric

  /** `Float` (common.rs:202-206): an `f32` as its bits, and the digits to print after the point. */
  datatype Float = Float(value: bv32, precision: u8)

  /** `Double` (common.rs:223-227): an `f64` as its bits, and the digits to print after the point. */
  datatype Double = Double(value: bv64, precision: u8)

  /** `PartialEq for Float` (common.rs:208-212): same bits and same precision. */
  predicate FloatEq(a: Float, b: Float) {
    a.value == b.value && a.precision == b.precision
  }

  /** `PartialEq for Double` (common.rs:229-233). */
  predicate DoubleEq(a: Double, b: Double) {
    a.value == b.value && a.precision == b.precision
  }

  /** One call a `Hash` impl makes on the hasher. */
  datatype HashWrite = WriteU8(byte: u8) | WriteU32(word: bv32) | WriteU64(dword: bv64)

  /** `Hash for Float` (common.rs:216-221): the bits, then the precision. */
  function FloatHashWrites(a: Float): seq<HashWrite> {
    [WriteU32(a.value), WriteU8(a.precision)]
  }

  /** `Hash for Double` (common.rs:237-242): the bits, then the precision. */
  function DoubleHashWrites(a: Double): seq<HashWrite> {
    [WriteU64(a.value), WriteU8(a.precision)]
  }

  /**
   * Equality and hashing agree: two floats are equal exactly when the hasher
   * is fed the same calls, so any hasher gives equal floats equal hashes.
   */
  lemma {:induction false} FloatHashMatchesEq(a: Float, b: Float, hasher: seq<HashWrite> -> int)
    ensures FloatEq(a, b) <==> FloatHashWrites(a) == FloatHashWrites(b)
    ensures FloatEq(a, b) ==> hasher(FloatHashWrites(a)) == hasher(FloatHashWrites(b))
  {
    if FloatHashWrites(a) == FloatHashWrites(b) {
      assert FloatHashWrites(a)[0] == FloatHashWrites(b)[0];
      assert FloatHashWrites(a)[1] == FloatHashWrites(b)[1];
    }
  }

  /** As `FloatHashMatchesEq`, for doubles. */
  lemma {:induction false} DoubleHashMatchesEq(a: Double, b: Double, hasher: seq<HashWrite> -> int)
    ensures DoubleEq(a, b) <==> DoubleHashWrites(a) == DoubleHashWrites(b)
    ensures DoubleEq(a, b) ==> hasher(DoubleHashWrites(a)) == hasher(DoubleHashWrites(b))
  {
    if DoubleHashWrites(a) == DoubleHashWrites(b) {
      assert DoubleHashWrites(a)[0] == DoubleHashWrites(b)[0];
      assert DoubleHashWrites(a)[1] == DoubleHashWrites(b)[1];
    }
  }

  /** The bits of an `f64` NaN: all exponent bits set and a nonzero mantissa. */
  predicate IsNaN64(x: bv64) {
    (x >> 52) & 0x7FF == 0x7FF && x & 0xF_FFFF_FFFF_FFFF != 0
  }

  /** IEEE-754 equality of `f64` bit patterns: NaN equals nothing, and `0.0 == -0.0`. */
  predicate IeeeEq64(x: bv64, y: bv64) {
    !IsNaN64(x) && !IsNaN64(y) &&
    (x == y || (x & 0x7FFF_FFFF_FFFF_FFFF == 0 && y & 0x7FFF_FFFF_FFFF_FFFF == 0))
  }

  /** Bit equality is an equivalence, unlike IEEE equality: a NaN equals itself. */
  lemma {:induction false} DoubleEqIsEquivalence(a: Double, b: Double, c: Double)
    ensures DoubleEq(a, a)
    ensures DoubleEq(a, b) ==> DoubleEq(b, a)
    ensures DoubleEq(a, b) && DoubleEq(b, c) ==> DoubleEq(a, c)
  {
  }

  /** Where bit equality and IEEE equality part: NaN with itself, and the two zeros. */
  lemma {:induction false} DoubleEqIsNotIeee()
    ensures IsNaN64(0x7FF8_0000_0000_0000)
    ensures DoubleEq(Double(0x7FF8_0000_0000_0000, 1), Double(0x7FF8_0000_0000_0000, 1))
    ensures !IeeeEq64(0x7FF8_0000_0000_0000, 0x7FF8_0000_0000_0000)
    ensures IeeeEq64(0, 0x8000_0000_0000_0000)
    ensures !DoubleEq(Double(0, 1), Double(0x8000_0000_0000_0000, 1))
  {
  }

  // ---------------------------------------------------------------------
  // write_real

  /** The precision `write_real` formats with: at most 30 digits (common.rs:338). */
  function CapPrecision(p: u8): (c: nat)
    ensures c <= 30
    ensures c == p || (c == 30 && p > 30)
  {
    if p < 30 then p else 30
  }

  /** `trim_end_matches('0')`: the longest prefix not ending in `'0'` whose rest is all zeros. */
  function TrimZeros(s: string): (r: string)
    ensures |r| <= |s| && r == s[..|r|]
    ensures forall i :: |r| <= i < |s| ==> s[i] == '0'
    ensures |r| == 0 || r[|r| - 1] != '0'
  {
    if |s| > 0 && s[|s| - 1] == '0' then TrimZeros(s[..|s| - 1]) else s
  }

  /** `n` zero digits. */
  function Zeros(n: nat): (z: string)
    ensures |z| == n && forall i :: 0 <= i < n ==> z[i] == '0'
  {
    if n == 0 then "" else Zeros(n - 1) + "0"
  }

  /** Trimming removes exactly a run of trailing zeros from text that does not end in one. */
  lemma {:induction false} TrimZerosOf(d: string, n: nat)
    requires |d| == 0 || d[|d| - 1] != '0'
    ensures TrimZeros(d + Zeros(n)) == d
  {
    if n > 0 {
      assert (d + Zeros(n))[..|d + Zeros(n)| - 1] == d + Zeros(n - 1);
      TrimZerosOf(d, n - 1);
    } else {
      assert d + Zeros(0) == d;
    }
  }

  /**
   * The text `write_real` writes for formatted text `formatted`, as written
   * (common.rs:339-346): trailing zeros stripped, then `"0"` appended when the
   * result ends in a point. On text without a point it strips integer zeros.
   */
  function WriteRealAsWritten(formatted: string): (r: string)
    ensures |r| == 0 || r[|r| - 1] != '.'
  {
    var res := TrimZeros(formatted);
    if |res| > 0 && res[|res| - 1] == '.' then res + "0" else res
  }

  /**
   * With precision 0 the formatted text has no point, and the as-written
   * trimming changes the number: `10` (ten, precision 0) becomes `1`, and
   * `0` becomes the empty text.
   */
  lemma {:induction false} WriteRealAsWrittenDropsIntegerZeros()
    ensures WriteRealAsWritten("10") == "1"
    ensures WriteRealAsWritten("0") == ""
  {
    assert "10"[..1] == "1";
    assert "1"[..0] == "";
    assert "0"[..0] == "";
  }

  /**
   * `write_real` as evidently intended: only a fractional part loses its
   * trailing zeros, keeping at least one digit after the point.
   */
  function WriteReal(formatted: string): (r: string)
    ensures |r| == 0 || r[|r| - 1] != '.'
    ensures '.' !in formatted ==> r == formatted
  {
    if '.' in formatted then WriteRealAsWritten(formatted) else formatted
  }

  /** The fraction digits `write_real` keeps: trailing zeros dropped, at least one digit. */
  function TrimFraction(fp: string): string {
    if TrimZeros(fp) == "" then "0" else TrimZeros(fp)
  }

  function Pow10(n: nat): (p: nat)
    ensures 0 < p
  {
    if n == 0 then 1 else 10 * Pow10(n - 1)
  }

  /** A zero digit appended multiplies the value by ten. */
  lemma {:induction false} DigitsValueZero(d: string)
    requires AllDigits(d)
    ensures AllDigits(d + "0") && DigitsValue(d + "0") == 10 * DigitsValue(d)
  {
    assert (d + "0")[..|d|] == d;
  }

  lemma {:induction false} ScaleByTen(x: int, y: int, u: int, v: int)
    requires x * y == u * v
    ensures x * (10 * y) == (10 * u) * v
  {
  }

  /** Dropping trailing zeros from a fraction keeps its value: `t / 10^|t| == fp / 10^|fp|`. */
  lemma {:induction false} TrimZerosValue(fp: string)
    requires AllDigits(fp)
    ensures AllDigits(TrimZeros(fp))
    ensures DigitsValue(TrimZeros(fp)) * Pow10(|fp|) == DigitsValue(fp) * Pow10(|TrimZeros(fp)|)
    decreases |fp|
  {
    var t := TrimZeros(fp);
    if |fp| > 0 && fp[|fp| - 1] == '0' {
      var d := fp[..|fp| - 1];
      assert fp == d + "0";
      TrimZerosValue(d);
      DigitsValueZero(d);
      assert t == TrimZeros(d);
      ScaleByTen(DigitsValue(t), Pow10(|d|), DigitsValue(d), Pow10(|t|));
    }
  }

  /**
   * `write_real` on formatted text `ip.fp` (the integer part without a point,
   * the fraction digits) keeps the integer part, and writes a fraction with no
   * trailing zero, or the single digit `0`, that denotes the same value.
   */
  lemma {:induction false} WriteRealFraction(ip: string, fp: string)
    requires '.' !in ip && AllDigits(fp)
    ensures WriteReal(ip + "." + fp) == ip + "." + TrimFraction(fp)
    ensures AllDigits(TrimFraction(fp)) && 0 < |TrimFraction(fp)|
    ensures TrimFraction(fp) == "0" || TrimFraction(fp)[|TrimFraction(fp)| - 1] != '0'
    ensures DigitsValue(TrimFraction(fp)) * Pow10(|fp|) == DigitsValue(fp) * Pow10(|TrimFraction(fp)|)
  {
    var f := ip + "." + fp;
    assert f[|ip|] == '.';
    var t := TrimZeros(fp);
    TrimZerosValue(fp);
    TrimZerosOfParts(ip + ".", fp);
    if t == "" {
      assert TrimZeros(f) == ip + ".";
      assert DigitsValue("0") == 0;
      assert DigitsValue(fp) == 0 by {
        assert DigitsValue(t) * Pow10(|fp|) == DigitsValue(fp) * Pow10(0);
      }
    } else {
      assert TrimZeros(f) == ip + "." + t;
    }
  }

  /** Trimming `p + q` when `p` ends in a non-zero: only `q`'s trailing zeros go. */
  lemma {:induction false} TrimZerosOfParts(p: string, q: string)
    requires 0 < |p| && p[|p| - 1] != '0'
    ensures TrimZeros(p + q) == p + TrimZeros(q)
    decreases |q|
  {
    if |q| > 0 && q[|q| - 1] == '0' {
      assert (p + q)[..|p + q| - 1] == p + q[..|q| - 1];
      TrimZerosOfParts(p, q[..|q| - 1]);
    } else {
      assert q == [] || (p + q)[|p + q| - 1] != '0';
    }
  }

  /** The tests' cases: `1.5` formatted to 30 digits prints `1.5`. */
  lemma {:induction false} WriteRealOneAndAHalf()
    ensures WriteReal("1." + "5" + Zeros(29)) == "1.5"
  {
    var fp := "5" + Zeros(29);
    assert AllDigits(fp) by {
      forall i | 0 <= i < |fp| ensures IsDigit(fp[i]) {
        if i > 0 { assert fp[i] == Zeros(29)[i - 1]; }
      }
    }
    assert "1." + "5" + Zeros(29) == "1" + "." + fp;
    WriteRealFraction("1", fp);
    TrimZerosOf("5", 29);
    assert TrimFraction(fp) == "5";
  }

  /** The tests' cases: `0.0` formatted to 30 digits prints `0.0`. */
  lemma {:induction false} WriteRealZero()
    ensures WriteReal("0." + Zeros(30)) == "0.0"
  {
    assert AllDigits(Zeros(30));
    assert "0." + Zeros(30) == "0" + "." + Zeros(30);
    WriteRealFraction("0", Zeros(30));
    TrimZerosOf("", 30);
    assert "" + Zeros(30) == Zeros(30);
    assert TrimFraction(Zeros(30)) == "0";
  }
}
