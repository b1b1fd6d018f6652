/**
 * `ItemPlaceholder` and `Literal` of nom-sql/src/common.rs (lines 244-290)
 * and their canonical text (`ItemPlaceholder::to_string`, lines 251-259;
 * `Display for Literal`, lines 334-389).
 *
 * The float formatting `{:.*}` and the `rust_decimal` rendering of
 * `Literal::Numeric` are outside the model; the renderer takes them as a
 * `RealFormat` parameter.
 */
module Literals {
  import opened ParseCore
  import opened Numeric
  import Reals

  type i128 = n: int | -0x8000_0000_0000_0000_0000_0000_0000_0000 <= n < 0x8000_0000_0000_0000_0000_0000_0000_0000

  /** `ItemPlaceholder` (common.rs:244-249): `?`, `$n` or `:n`. */
  datatype ItemPlaceholder = QuestionMark | DollarNumber(dollar: u32) | ColonNumber(colon: u32)

  /** `Literal` (common.rs:261-290). */
  datatype Literal =
    | Null
    | Boolean(flag: bool)
    | Integer(int64: i64)
    | Float(float: Reals.Float)
    | Double(double: Reals.Double)
    | Numeric(mantissa: i128, scale: u32)
    | String(text: string)
    | Blob(blob: seq<u8>)
    | CurrentTime
    | CurrentDate
    | CurrentTimestamp
    | ByteArray(bytes: seq<u8>)
    | Placeholder(item: ItemPlaceholder)
    | BitVector(bits: seq<u8>)

  /** `ItemPlaceholder::to_string` (common.rs:251-259). */
  function PlaceholderText(p: ItemPlaceholder): string {
    match p
    case QuestionMark => "?"
    case DollarNumber(n) => "$" + NatText(n)
    case ColonNumber(n) => ":" + NatText(n)
  }

  /** Different placeholders never render alike. */
  lemma {:induction false} PlaceholderTextInjective(p: ItemPlaceholder, q: ItemPlaceholder)
    requires PlaceholderText(p) == PlaceholderText(q)
    ensures p == q
  {
    var t := PlaceholderText(p);
    assert t[0] == PlaceholderText(q)[0];
    match p
    case QuestionMark =>
    case DollarNumber(n) =>
      assert t[1..] == NatText(n) == NatText(q.dollar);
      NatTextInjective(n, q.dollar);
    case ColonNumber(n) =>
      assert t[1..] == NatText(n) == NatText(q.colon);
      NatTextInjective(n, q.colon);
  }

  // ---------------------------------------------------------------------
  // Strings

  /** `str::replace(c, r)`: every `c` replaced by `r`, everything else kept. */
  function Replace(s: string, c: char, r: string): string {
    if |s| == 0 then "" else (if s[0] == c then r else [s[0]]) + Replace(s[1..], c, r)
  }

  /** The body of a rendered string literal (common.rs:359-361): quotes doubled, then backslashes doubled. */
  function StringBody(s: string): string {
    Replace(Replace(s, '\'', "''"), '\\', "\\\\")
  }

  /** One pass over `s`, doubling each quote and each backslash and keeping every other character. */
  function Escape(s: string): (e: string)
    ensures |s| <= |e|
  {
    if |s| == 0 then ""
    else (if s[0] == '\'' then "''" else if s[0] == '\\' then "\\\\" else [s[0]]) + Escape(s[1..])
  }

  /** Reading an escaped body back: a doubled quote or backslash is one character. */
  function Unescape(e: string): string
    decreases |e|
  {
    if |e| == 0 then ""
    else if |e| >= 2 && e[0] == '\'' && e[1] == '\'' then "'" + Unescape(e[2..])
    else if |e| >= 2 && e[0] == '\\' && e[1] == '\\' then "\\" + Unescape(e[2..])
    else [e[0]] + Unescape(e[1..])
  }

  lemma {:induction false} ReplaceAppend(a: string, b: string, c: char, r: string)
    ensures Replace(a + b, c, r) == Replace(a, c, r) + Replace(b, c, r)
    decreases |a|
  {
    if |a| > 0 {
      assert (a + b)[1..] == a[1..] + b;
      ReplaceAppend(a[1..], b, c, r);
    } else {
      assert a + b == b;
    }
  }

  /**
   * The two `replace` calls of the renderer are one escaping pass: the first
   * introduces no backslash, so the second doubles exactly the original ones.
   */
  lemma {:induction false} StringBodyIsEscape(s: string)
    ensures StringBody(s) == Escape(s)
    decreases |s|
  {
    if |s| > 0 {
      StringBodyIsEscape(s[1..]);
      var head := if s[0] == '\'' then "''" else [s[0]];
      assert Replace(s, '\'', "''") == head + Replace(s[1..], '\'', "''");
      ReplaceAppend(head, Replace(s[1..], '\'', "''"), '\\', "\\\\");
      if s[0] == '\'' {
        assert Replace(head, '\\', "\\\\") == "''" by {
          assert head[1..] == "'";
          assert head[1..][1..] == "";
        }
      } else {
        assert Replace(head, '\\', "\\\\") == (if s[0] == '\\' then "\\\\" else [s[0]]) by {
          assert head[1..] == "";
        }
      }
    }
  }

  lemma {:induction false} UnescapeEscape(s: string)
    ensures Unescape(Escape(s)) == s
    decreases |s|
  {
    if |s| > 0 {
      UnescapeEscape(s[1..]);
      var e := Escape(s);
      if s[0] == '\'' {
        assert e == "''" + Escape(s[1..]);
        assert e[2..] == Escape(s[1..]);
      } else if s[0] == '\\' {
        assert e == "\\\\" + Escape(s[1..]);
        assert e[2..] == Escape(s[1..]);
      } else {
        assert e == [s[0]] + Escape(s[1..]);
        assert e[1..] == Escape(s[1..]);
      }
    }
  }

  /**
   * String rendering loses nothing: its body reads back to the original
   * string, so different strings render differently.
   */
  lemma {:induction false} StringBodyInvertible(s: string, t: string)
    ensures Unescape(StringBody(s)) == s
    ensures StringBody(s) == StringBody(t) ==> s == t
  {
    StringBodyIsEscape(s);
    StringBodyIsEscape(t);
    UnescapeEscape(s);
    UnescapeEscape(t);
  }

  /** A string without quotes or backslashes is written unchanged. */
  lemma {:induction false} StringBodyPlain(s: string)
    requires '\'' !in s && '\\' !in s
    ensures StringBody(s) == s
    decreases |s|
  {
    StringBodyIsEscape(s);
    if |s| > 0 {
      assert '\'' !in s[1..] && '\\' !in s[1..] by {
        forall c | c in s[1..] ensures c in s { }
      }
      StringBodyPlain(s[1..]);
      StringBodyIsEscape(s[1..]);
      assert s == [s[0]] + s[1..];
    }
  }

  // ---------------------------------------------------------------------
  // Bytes

  function HexDigit(k: nat): char
    requires k < 16
  {
    "0123456789abcdef"[k]
  }

  /** `format!("{:x}", b)`: lower-case hex without padding. */
  function HexByte(b: u8): (t: string)
    ensures 1 <= |t| <= 2
  {
    if b < 16 then [HexDigit(b)] else [HexDigit(b / 16), HexDigit(b % 16)]
  }

  /** Blob text (common.rs:362-369): the bytes in hex, separated by spaces. */
  function BlobText(bs: seq<u8>): string {
    if |bs| == 0 then "" else if |bs| == 1 then HexByte(bs[0]) else HexByte(bs[0]) + " " + BlobText(bs[1..])
  }

  /** The hex digits of a byte array (common.rs:373-375), joined with nothing between them. */
  function HexConcat(bs: seq<u8>): string {
    if |bs| == 0 then "" else HexByte(bs[0]) + HexConcat(bs[1..])
  }

  /** Without padding or separators, byte-array text does not determine the bytes. */
  lemma {:induction false} ByteArrayTextAmbiguous()
    ensures HexConcat([0x01, 0x23]) == HexConcat([0x12, 0x03]) == "123"
    ensures BlobText([0x01, 0x23]) == "1 23" && BlobText([0x12, 0x03]) == "12 3"
  {
    assert [0x01, 0x23][1..] == [0x23];
    assert [0x12, 0x03][1..] == [0x03];
    assert HexByte(0x01) == "1" && HexByte(0x23) == "23";
    assert HexByte(0x12) == "12" && HexByte(0x03) == "3";
  }

  function Pow2(n: nat): (p: nat)
    ensures 0 < p
  {
    if n == 0 then 1 else 2 * Pow2(n - 1)
  }

  /** A text of binary digits only. */
  predicate Binary(t: string) {
    forall i :: 0 <= i < |t| ==> t[i] == '0' || t[i] == '1'
  }

  /** The low `n` bits of `b`, most significant first. */
  function Bits(b: nat, n: nat): (t: string)
    ensures |t| == n && Binary(t)
  {
    if n == 0 then "" else Bits(b / 2, n - 1) + [if b % 2 == 1 then '1' else '0']
  }

  /** The eight bits of a byte, most significant first, as `BitVec::from_bytes` iterates them. */
  function ByteBits(b: u8): (t: string)
    ensures |t| == 8 && Binary(t)
  {
    Bits(b, 8)
  }

  /** The number a text of binary digits denotes (any character other than `1` reads as 0). */
  function BinValue(t: string): nat {
    if |t| == 0 then 0 else 2 * BinValue(t[..|t| - 1]) + (if t[|t| - 1] == '1' then 1 else 0)
  }

  /** The bits of a number below `2^n` read back as that number. */
  lemma {:induction false} BitsValue(b: nat, n: nat)
    requires b < Pow2(n)
    ensures BinValue(Bits(b, n)) == b
  {
    if n > 0 {
      BitsValue(b / 2, n - 1);
      var t := Bits(b, n);
      assert t[..|t| - 1] == Bits(b / 2, n - 1);
    }
  }

  /** Each byte's bit text reads back as the byte. */
  lemma {:induction false} ByteBitsValue(b: u8)
    ensures BinValue(ByteBits(b)) == b
  {
    assert Pow2(8) == 256;
    BitsValue(b, 8);
  }

  /** Bit-vector text (common.rs:377-386): each byte's bits in order. */
  function BitsText(bs: seq<u8>): (t: string)
    ensures |t| == 8 * |bs| && Binary(t)
  {
    if |bs| == 0 then "" else ByteBits(bs[0]) + BitsText(bs[1..])
  }

  // ---------------------------------------------------------------------
  // Display for Literal

  /**
   * The formatting the renderer delegates: `{:.*}` for `f32` and `f64` at a
   * given precision, and `rust_decimal`'s text for a mantissa and scale.
   */
  datatype RealFormat = RealFormat(
    f32: (bv32, nat) -> string,
    f64: (bv64, nat) -> string,
    decimal: (i128, u32) -> string)

  /** `Display for Literal` (common.rs:334-389). */
  function LiteralText(l: Literal, fmt: RealFormat): string {
    match l
    case Null => "NULL"
    case Boolean(b) => if b then "TRUE" else "FALSE"
    case Integer(i) => IntText(i)
    case Float(f) => Reals.WriteRealAsWritten(fmt.f32(f.value, Reals.CapPrecision(f.precision)))
    case Double(d) => Reals.WriteRealAsWritten(fmt.f64(d.value, Reals.CapPrecision(d.precision)))
    case Numeric(m, sc) => fmt.decimal(m, sc)
    case String(s) => "'" + StringBody(s) + "'"
    case Blob(bs) => BlobText(bs)
    case CurrentTime => "CURRENT_TIME"
    case CurrentDate => "CURRENT_DATE"
    case CurrentTimestamp => "CURRENT_TIMESTAMP"
    case ByteArray(bs) => "E'\\x" + HexConcat(bs) + "'"
    case Placeholder(p) => PlaceholderText(p)
    case BitVector(bs) => "B'" + BitsText(bs) + "'"
  }
}
