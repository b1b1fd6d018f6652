/**
 * Fixed-width integers, decimal text, and the length/precision parsers of
 * nom-sql/src/common.rs (`digit_as_u16`, `digit_as_u8`, `precision`,
 * `numeric_precision`, `delim_digit`, `delim_u16`, `opt_signed`).
 */
module Numeric {
  import opened ParseCore

  type u8 = n: int | 0 <= n < 0x100
  type u16 = n: int | 0 <= n < 0x1_0000
  type u32 = n: int | 0 <= n < 0x1_0000_0000
  type u64 = n: int | 0 <= n < 0x1_0000_0000_0000_0000
  type i64 = n: int | -0x8000_0000_0000_0000 <= n < 0x8000_0000_0000_0000

  predicate AllDigits(d: seq<char>) {
    forall i :: 0 <= i < |d| ==> IsDigit(d[i])
  }

  /** The number a string of decimal digits denotes (leading zeros allowed). */
  function DigitsValue(d: seq<char>): nat
    requires AllDigits(d)
  {
    if |d| == 0 then 0 else DigitsValue(d[..|d| - 1]) * 10 + (d[|d| - 1] as int - '0' as int)
  }

  function DigitChar(k: nat): char
    requires k < 10
  {
    ('0' as int + k) as char
  }

  /** Rust's `{}` rendering of a non-negative integer: no leading zeros, "0" for zero. */
  function NatText(n: nat): (t: string)
    ensures 0 < |t| && AllDigits(t)
  {
    if n < 10 then [DigitChar(n)] else NatText(n / 10) + [DigitChar(n % 10)]
  }

  /** Rust's `{}` rendering of an integer: a minus sign before negative values. */
  function IntText(i: int): (t: string)
    ensures 0 < |t|
  {
    if i < 0 then "-" + NatText(-i) else NatText(i)
  }

  /** Decimal digits read back as the number rendered. */
  lemma {:induction false} NatTextValue(n: nat)
    ensures DigitsValue(NatText(n)) == n
  {
    if n >= 10 {
      var t := NatText(n);
      assert t[..|t| - 1] == NatText(n / 10);
      NatTextValue(n / 10);
    }
  }

  /** Rendering is injective: different numbers never share a decimal text. */
  lemma {:induction false} NatTextInjective(m: nat, n: nat)
    requires NatText(m) == NatText(n)
    ensures m == n
  {
    NatTextValue(m);
    NatTextValue(n);
  }

  /**
   * Rust's `from_str` for unsigned integers: an optional `+`, then one or
   * more decimal digits; `None` when the text has any other shape.
   */
  function UnsignedValue(s: seq<char>): (o: Option<nat>)
    ensures AllDigits(s) && 0 < |s| ==> o == Some(DigitsValue(s))
  {
    var d := if 0 < |s| && s[0] == '+' then s[1..] else s;
    if 0 < |d| && AllDigits(d) then Some(DigitsValue(d)) else None
  }

  /**
   * `digit_as_u16` (common.rs:767-781): the text as a `u16`, an error when it
   * is not a number or does not fit. On success the whole input is handed
   * back as remainder, so nothing is consumed.
   */
  function DigitAsU16(d: seq<char>): (r: ParseResult<u16>)
    ensures Fits(r, d)
    ensures r.Done? <==> exists v :: UnsignedValue(d) == Some(v) && v < 0x1_0000
    ensures r.Done? ==> UnsignedValue(d) == Some(r.value as nat) && r.used == 0
  {
    match UnsignedValue(d)
    case Some(v) => if v < 0x1_0000 then Done(v, 0) else Fail
    case None => Fail
  }

  /** `digit_as_u8` (common.rs:783-797): the text as a `u8`, like `DigitAsU16`. */
  function DigitAsU8(d: seq<char>): (r: ParseResult<u8>)
    ensures Fits(r, d)
    ensures r.Done? <==> exists v :: UnsignedValue(d) == Some(v) && v < 0x100
    ensures r.Done? ==> UnsignedValue(d) == Some(r.value as nat) && r.used == 0
  {
    match UnsignedValue(d)
    case Some(v) => if v < 0x100 then Done(v, 0) else Fail
    case None => Fail
  }

  /** The decimal text of any `u16` converts back to it; a larger number is refused. */
  lemma {:induction false} DigitAsU16Text(n: nat)
    ensures n < 0x1_0000 ==> DigitAsU16(NatText(n)) == Done(n, 0)
    ensures 0x1_0000 <= n ==> DigitAsU16(NatText(n)).Fail?
  {
    NatTextValue(n);
  }

  /** The decimal text of any `u8` converts back to it; a larger number is refused. */
  lemma {:induction false} DigitAsU8Text(n: nat)
    ensures n < 0x100 ==> DigitAsU8(NatText(n)) == Done(n, 0)
    ensures 0x100 <= n ==> DigitAsU8(NatText(n)).Fail?
  {
    NatTextValue(n);
  }

  /** `preceded(tag(","), preceded(whitespace0, digit1))`. */
  function CommaDigits(s: seq<char>): (r: ParseResult<seq<char>>)
    ensures Fits(r, s)
  {
    var (_, a) :- Char(',', s);
    var b := Whitespace0(s[a..]);
    var (d, c) :- Digit1(s[a + b..]);
    Done(d, a + b + c)
  }

  /** An optional digit text converted to `u8`; a conversion error is an error of the whole. */
  function OptU8(d: Option<seq<char>>): (r: ParseResult<Option<u8>>)
    ensures d.None? ==> r == Done(None, 0)
    ensures d.Some? ==> (r.Done? <==> DigitAsU8(d.value).Done?)
    ensures d.Some? && r.Done? ==> r.value == Some(DigitAsU8(d.value).value)
  {
    match d
    case None => Done(None, 0)
    case Some(t) =>
      var (v, _) :- DigitAsU8(t);
      Done(Some(v), 0)
  }

  /** `precision_helper` (common.rs:823-838): `digit1 [ "," ws digit1 ]`, both `u8`. */
  function PrecisionHelper(s: seq<char>): (r: ParseResult<(u8, Option<u8>)>)
    ensures Fits(r, s)
    ensures r.Done? ==> 0 < r.used && IsDigit(s[0])
    ensures r.Done? ==> UnsignedValue(Digit1(s).value) == Some(r.value.0 as nat)
    ensures Digit1(s).Done? ==> UnsignedValue(Digit1(s).value).Some? && 0x100 <= UnsignedValue(Digit1(s).value).value ==> r.Fail?
    ensures r.Done? && r.value.1.None? ==>
      CommaDigits(s[Digit1(s).used..]).Fail? && r.used == Digit1(s).used
    ensures r.Done? && r.value.1.Some? ==>
      var c := CommaDigits(s[Digit1(s).used..]);
      c.Done? && UnsignedValue(c.value) == Some(r.value.1.value as nat) && r.used == Digit1(s).used + c.used
  {
    var (m, a) :- Digit1(s);
    var (d, b) := Opt(CommaDigits(s[a..]));
    var (mv, _) :- DigitAsU8(m);
    var (dv, _) :- OptU8(d);
    Done((mv, dv), a + b)
  }

  /** `precision` (common.rs:840-842): a parenthesised `precision_helper`. */
  function Precision(s: seq<char>): (r: ParseResult<(u8, Option<u8>)>)
    ensures Fits(r, s)
  {
    var (_, a) :- Char('(', s);
    var (v, b) :- PrecisionHelper(s[a..]);
    var (_, c) :- Char(')', s[a + b..]);
    Done(v, a + b + c)
  }

  /** `numeric_precision_inner` (common.rs:848-859): `digit1 ws [ "," ws digit1 ]`, as `u16` and `u8`. */
  function NumericPrecisionInner(s: seq<char>): (r: ParseResult<(u16, Option<u8>)>)
    ensures Fits(r, s)
  {
    var (m, a) :- Digit1(s);
    var b := Whitespace0(s[a..]);
    var (d, c) := Opt(CommaDigits(s[a + b..]));
    var (mv, _) :- DigitAsU16(m);
    var (dv, _) :- OptU8(d);
    Done((mv, dv), a + b + c)
  }

  /** `numeric_precision` (common.rs:844-846): a parenthesised `numeric_precision_inner`. */
  function NumericPrecision(s: seq<char>): (r: ParseResult<(u16, Option<u8>)>)
    ensures Fits(r, s)
  {
    var (_, a) :- Char('(', s);
    var (v, b) :- NumericPrecisionInner(s[a..]);
    var (_, c) :- Char(')', s[a + b..]);
    Done(v, a + b + c)
  }

  /** `Sign` (common.rs:743-746). */
  datatype Sign = Unsigned | Signed

  /** `opt_signed` (common.rs:861-866): `unsigned` is tried before `signed`. */
  function OptSigned(s: seq<char>): (o: (Option<Sign>, nat))
    ensures o.1 <= |s|
    ensures StartsNoCase(s, "unsigned") ==> o == (Some(Unsigned), 8)
    ensures !StartsNoCase(s, "unsigned") && StartsNoCase(s, "signed") ==> o == (Some(Signed), 6)
    ensures !StartsNoCase(s, "unsigned") && !StartsNoCase(s, "signed") ==> o == (None, 0)
  {
    if TagNoCase("unsigned", s).Done? then (Some(Unsigned), 8)
    else if TagNoCase("signed", s).Done? then (Some(Signed), 6)
    else (None, 0)
  }

  /** `delim_digit` (common.rs:868-870): digits in parentheses. */
  function DelimDigit(s: seq<char>): (r: ParseResult<seq<char>>)
    ensures Fits(r, s)
    ensures r.Done? ==> 0 < |r.value| && AllDigits(r.value)
  {
    var (_, a) :- Char('(', s);
    var (d, b) :- Digit1(s[a..]);
    var (_, c) :- Char(')', s[a + b..]);
    Done(d, a + b + c)
  }

  /** `delim_digit` reads `(`, the whole run of digits after it and `)`; the value is that run. */
  lemma {:induction false} DelimDigitReads(s: seq<char>)
    ensures DelimDigit(s).Done? <==> At(s, '(') && Digit1(s[1..]).Done? && At(s[1 + Digit1(s[1..]).used..], ')')
    ensures DelimDigit(s).Done? ==>
      var r := DelimDigit(s);
      r.used == |r.value| + 2 && s[..r.used] == "(" + r.value + ")" && r.value == Digit1(s[1..]).value
  {
    if DelimDigit(s).Done? {
      var d := Digit1(s[1..]).value;
      assert s[..|d| + 2] == "(" + d + ")";
    }
  }

  /** `delim_u16` (common.rs:872-874): `delim_digit`, its digits read as a `u16`. */
  function DelimU16(s: seq<char>): (r: ParseResult<u16>)
    ensures Fits(r, s)
    ensures r.Done? <==> DelimDigit(s).Done? && DigitsValue(DelimDigit(s).value) < 0x1_0000
    ensures r.Done? ==> r.value as nat == DigitsValue(DelimDigit(s).value) && r.used == DelimDigit(s).used
  {
    var (d, a) :- DelimDigit(s);
    var (v, _) :- DigitAsU16(d);
    Done(v, a)
  }

  // ---------------------------------------------------------------------
  // Reading rendered lengths and precisions back

  /** What may follow a number without being read as part of it. */
  predicate NoDigitNext(rest: seq<char>) {
    |rest| == 0 || !IsDigit(rest[0])
  }

  /** `digit1` reads a rendered number followed by a non-digit as exactly that number's text. */
  lemma {:induction false} Digit1Text(n: nat, rest: seq<char>)
    requires NoDigitNext(rest)
    ensures Digit1(NatText(n) + rest) == Done(NatText(n), |NatText(n)|)
  {
    Digit1Of(NatText(n), rest);
  }

  /** `delim_digit` on `(n)` followed by anything. */
  lemma {:induction false} DelimDigitText(n: nat, rest: seq<char>)
    ensures DelimDigit("(" + NatText(n) + ")" + rest) == Done(NatText(n), |NatText(n)| + 2)
  {
    var s := "(" + NatText(n) + ")" + rest;
    assert s[1..] == NatText(n) + (")" + rest);
    Digit1Text(n, ")" + rest);
    assert s[1 + |NatText(n)|..] == ")" + rest;
  }

  /** `delim_u16` reads back `(n)` for every `u16` and refuses a larger `n`. */
  lemma {:induction false} DelimU16Text(n: nat, rest: seq<char>)
    ensures n < 0x1_0000 ==> DelimU16("(" + NatText(n) + ")" + rest) == Done(n, |NatText(n)| + 2)
    ensures 0x1_0000 <= n ==> DelimU16("(" + NatText(n) + ")" + rest).Fail?
  {
    DelimDigitText(n, rest);
    NatTextValue(n);
  }

  /** The text `Display` writes for a precision: `(m)` or `(m, d)`. */
  function PrecisionText(m: nat, d: Option<u8>): string {
    match d
    case None => "(" + NatText(m) + ")"
    case Some(dv) => "(" + NatText(m) + ", " + NatText(dv) + ")"
  }

  /** `, d` followed by a non-digit is read as the digits of `d`. */
  lemma {:induction false} CommaDigitsText(d: nat, rest: seq<char>)
    requires NoDigitNext(rest)
    ensures CommaDigits(", " + NatText(d) + rest) == Done(NatText(d), |NatText(d)| + 2)
  {
    var s := ", " + NatText(d) + rest;
    assert s[1..] == " " + (NatText(d) + rest);
    Whitespace0Of(" ", NatText(d) + rest);
    assert s[2..] == NatText(d) + rest;
    Digit1Text(d, rest);
  }

  /** `precision_helper` on `m` alone, closed by `)`. */
  lemma {:induction false} PrecisionHelperOne(m: u8, rest: seq<char>)
    requires At(rest, ')')
    ensures PrecisionHelper(NatText(m) + rest) == Done((m, None), |NatText(m)|)
  {
    Digit1Text(m, rest);
    DigitAsU8Text(m);
    assert (NatText(m) + rest)[|NatText(m)|..] == rest;
  }

  /** `precision_helper` on `m, d`, closed by `)`. */
  lemma {:induction false} PrecisionHelperTwo(m: u8, d: u8, rest: seq<char>)
    requires At(rest, ')')
    ensures PrecisionHelper(NatText(m) + ", " + NatText(d) + rest)
      == Done((m, Some(d)), |NatText(m)| + 2 + |NatText(d)|)
  {
    var s := NatText(m) + ", " + NatText(d) + rest;
    assert s == NatText(m) + (", " + NatText(d) + rest);
    Digit1Text(m, ", " + NatText(d) + rest);
    DigitAsU8Text(m);
    DigitAsU8Text(d);
    assert s[|NatText(m)|..] == ", " + NatText(d) + rest;
    CommaDigitsText(d, rest);
  }

  /** How the text of `(x, y)` followed by `rest` splits up. */
  lemma {:induction false} PairShape(x: string, y: string, rest: string)
    ensures "(" + x + ", " + y + ")" + rest == "(" + (x + ", " + y + (")" + rest))
    ensures (x + ", " + y + (")" + rest))[|x| + 2 + |y|..] == ")" + rest
  {
    var t := x + ", " + y + (")" + rest);
    assert t == x + (", " + y + (")" + rest));
    assert t[|x|..] == ", " + y + (")" + rest);
    assert t[|x|..][2..] == y + (")" + rest);
  }

  /** `(` inner `)`: `precision` succeeds exactly as `precision_helper` does on the inner text. */
  lemma {:induction false} PrecisionParens(t: seq<char>, k: nat, v: (u8, Option<u8>))
    requires PrecisionHelper(t) == Done(v, k) && At(t[k..], ')')
    ensures Precision("(" + t) == Done(v, k + 2)
  {
    var s := "(" + t;
    assert Char('(', s) == Done((), 1);
    assert s[1..] == t;
    assert s[1 + k..] == t[k..];
  }

  lemma {:induction false} PrecisionTextOne(m: u8, rest: seq<char>)
    ensures Precision(PrecisionText(m, None) + rest) == Done((m, None), |PrecisionText(m, None)|)
  {
    var t := NatText(m) + (")" + rest);
    assert PrecisionText(m, None) + rest == "(" + t;
    assert At(t[|NatText(m)|..], ')') by {
      assert t[|NatText(m)|..] == ")" + rest;
    }
    assert PrecisionHelper(t) == Done((m, None), |NatText(m)|) by {
      PrecisionHelperOne(m, ")" + rest);
    }
    PrecisionParens(t, |NatText(m)|, (m, None));
  }

  lemma {:induction false} PrecisionPairParsed(m: u8, dv: u8, rest: seq<char>)
    ensures Precision("(" + (NatText(m) + ", " + NatText(dv) + (")" + rest)))
      == Done((m, Some(dv)), |NatText(m)| + 2 + |NatText(dv)| + 2)
  {
    var t := NatText(m) + ", " + NatText(dv) + (")" + rest);
    var k := |NatText(m)| + 2 + |NatText(dv)|;
    PairShape(NatText(m), NatText(dv), rest);
    assert At(t[k..], ')');
    PrecisionHelperTwo(m, dv, ")" + rest);
    PrecisionParens(t, k, (m, Some(dv)));
  }

  lemma {:induction false} PrecisionTextTwo(m: u8, dv: u8, rest: seq<char>)
    ensures Precision(PrecisionText(m, Some(dv)) + rest) == Done((m, Some(dv)), |PrecisionText(m, Some(dv))|)
  {
    PrecisionPairParsed(m, dv, rest);
    PairShape(NatText(m), NatText(dv), rest);
  }

  /** `precision` reads back a rendered `(m)` / `(m, d)` of `u8`s, whatever follows. */
  lemma {:induction false} PrecisionRoundTrip(m: u8, d: Option<u8>, rest: seq<char>)
    ensures Precision(PrecisionText(m, d) + rest) == Done((m, d), |PrecisionText(m, d)|)
  {
    match d
    case None => PrecisionTextOne(m, rest);
    case Some(dv) => PrecisionTextTwo(m, dv, rest);
  }


  /** `precision` refuses a first number that does not fit a `u8`. */
  lemma {:induction false} PrecisionOverflow(m: nat, rest: seq<char>)
    requires 0x100 <= m
    ensures Precision("(" + NatText(m) + ")" + rest).Fail?
  {
    var s := "(" + NatText(m) + ")" + rest;
    assert s[1..] == NatText(m) + (")" + rest);
    Digit1Text(m, ")" + rest);
    DigitAsU8Text(m);
  }

  /** `precision` refuses a scale that does not fit a `u8`, even when the precision does. */
  lemma {:induction false} PrecisionScaleOverflow(m: u8, d: nat, rest: seq<char>)
    requires 0x100 <= d
    ensures Precision("(" + NatText(m) + ", " + NatText(d) + ")" + rest).Fail?
  {
    var t := NatText(m) + ", " + NatText(d) + (")" + rest);
    PairShape(NatText(m), NatText(d), rest);
    HelperScaleOverflow(m, d, rest, t);
    HelperFails("(" + t, t);
  }

  /** The scale overflows inside the parentheses. */
  lemma {:induction false} HelperScaleOverflow(m: u8, d: nat, rest: seq<char>, t: seq<char>)
    requires 0x100 <= d && t == NatText(m) + ", " + NatText(d) + (")" + rest)
    ensures PrecisionHelper(t).Fail?
  {
    assert t == NatText(m) + (", " + NatText(d) + (")" + rest));
    Digit1Text(m, ", " + NatText(d) + (")" + rest));
    assert t[|NatText(m)|..] == ", " + NatText(d) + (")" + rest);
    CommaDigitsText(d, ")" + rest);
    DigitAsU8Text(d);
  }

  /** When `precision_helper` fails inside the parenthesis, so does `precision`. */
  lemma {:induction false} HelperFails(s: seq<char>, t: seq<char>)
    requires s == "(" + t && PrecisionHelper(t).Fail?
    ensures Precision(s).Fail?
  {
    assert s[1..] == t;
  }

  /** `numeric_precision` refuses a precision that does not fit a `u16`. */
  lemma {:induction false} NumericPrecisionOverflow(p: nat, rest: seq<char>)
    requires 0x1_0000 <= p
    ensures NumericPrecision("(" + NatText(p) + ")" + rest).Fail?
  {
    var s := "(" + NatText(p) + ")" + rest;
    assert s[1..] == NatText(p) + (")" + rest);
    Digit1Text(p, ")" + rest);
    DigitAsU16Text(p);
  }

  /** `numeric_precision_inner` on `p` alone, closed by `)`. */
  lemma {:induction false} NumericInnerOne(p: u16, rest: seq<char>)
    requires At(rest, ')')
    ensures NumericPrecisionInner(NatText(p) + rest) == Done((p, None), |NatText(p)|)
  {
    Digit1Text(p, rest);
    DigitAsU16Text(p);
    assert (NatText(p) + rest)[|NatText(p)|..] == rest;
    Whitespace0Of([], rest);
  }

  /** `numeric_precision_inner` on `p, s`, closed by `)`. */
  lemma {:induction false} NumericInnerTwo(p: u16, d: u8, rest: seq<char>)
    requires At(rest, ')')
    ensures NumericPrecisionInner(NatText(p) + ", " + NatText(d) + rest)
      == Done((p, Some(d)), |NatText(p)| + 2 + |NatText(d)|)
  {
    var s := NatText(p) + ", " + NatText(d) + rest;
    assert s == NatText(p) + (", " + NatText(d) + rest);
    Digit1Text(p, ", " + NatText(d) + rest);
    DigitAsU16Text(p);
    DigitAsU8Text(d);
    assert s[|NatText(p)|..] == ", " + NatText(d) + rest;
    Whitespace0Of([], ", " + NatText(d) + rest);
    CommaDigitsText(d, rest);
  }

  /** `(` inner `)`: `numeric_precision` succeeds exactly as its inner parser does. */
  lemma {:induction false} NumericParens(t: seq<char>, k: nat, v: (u16, Option<u8>))
    requires NumericPrecisionInner(t) == Done(v, k) && At(t[k..], ')')
    ensures NumericPrecision("(" + t) == Done(v, k + 2)
  {
    var s := "(" + t;
    assert Char('(', s) == Done((), 1);
    assert s[1..] == t;
    assert s[1 + k..] == t[k..];
  }

  lemma {:induction false} NumericPrecisionTextOne(p: u16, rest: seq<char>)
    ensures NumericPrecision(PrecisionText(p, None) + rest) == Done((p, None), |PrecisionText(p, None)|)
  {
    var t := NatText(p) + (")" + rest);
    assert PrecisionText(p, None) + rest == "(" + t;
    assert At(t[|NatText(p)|..], ')') by {
      assert t[|NatText(p)|..] == ")" + rest;
    }
    assert NumericPrecisionInner(t) == Done((p, None), |NatText(p)|) by {
      NumericInnerOne(p, ")" + rest);
    }
    NumericParens(t, |NatText(p)|, (p, None));
  }

  lemma {:induction false} NumericPrecisionPairParsed(p: u16, dv: u8, rest: seq<char>)
    ensures NumericPrecision("(" + (NatText(p) + ", " + NatText(dv) + (")" + rest)))
      == Done((p, Some(dv)), |NatText(p)| + 2 + |NatText(dv)| + 2)
  {
    var t := NatText(p) + ", " + NatText(dv) + (")" + rest);
    var k := |NatText(p)| + 2 + |NatText(dv)|;
    PairShape(NatText(p), NatText(dv), rest);
    assert At(t[k..], ')');
    NumericInnerTwo(p, dv, ")" + rest);
    NumericParens(t, k, (p, Some(dv)));
  }

  lemma {:induction false} NumericPrecisionTextTwo(p: u16, dv: u8, rest: seq<char>)
    ensures NumericPrecision(PrecisionText(p, Some(dv)) + rest) == Done((p, Some(dv)), |PrecisionText(p, Some(dv))|)
  {
    NumericPrecisionPairParsed(p, dv, rest);
    PairShape(NatText(p), NatText(dv), rest);
  }

  /** `numeric_precision` reads back a rendered `(p)` / `(p, s)` for a `u16` and a `u8`. */
  lemma {:induction false} NumericPrecisionRoundTrip(p: u16, sc: Option<u8>, rest: seq<char>)
    ensures NumericPrecision(PrecisionText(p, sc) + rest) == Done((p, sc), |PrecisionText(p, sc)|)
  {
    match sc
    case None => NumericPrecisionTextOne(p, rest);
    case Some(dv) => NumericPrecisionTextTwo(p, dv, rest);
  }

}
