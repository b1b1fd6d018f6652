/**
 * Reading a rendered type back: `type_identifier` (nom-sql/src/common.rs:1099-1107)
 * parses the text `Display for SqlType` (lines 108-189) writes for every
 * type but `ENUM`, and consumes exactly that text.
 *
 * Each alternative is first evaluated on a rendered text on its own; the
 * keyword facts of `SqlTypeFacts` then say it is the alternative
 * `type_identifier` chooses.
 */
module TypeReading {
  import opened ParseCore
  import opened Numeric
  import L = Literals
  import opened Ast
  import opened SqlTypes
  import opened SqlTypeFacts

  // ---------------------------------------------------------------------
  // What follows a rendered type

  /** A `Delim` text starts no length, no whitespace and no letter. */
  lemma {:induction false} DelimRest(rest: seq<char>)
    requires Delim(rest)
    ensures NotLetter(rest) && !At(rest, '(')
    ensures Whitespace0(rest) == 0 && Whitespace1(rest).Fail?
  {
  }

  /** Nor a sign. */
  lemma {:induction false} DelimNoSign(rest: seq<char>)
    requires Delim(rest)
    ensures OptSigned(rest) == (None, 0)
  {
    if |rest| > 0 {
      assert Lower(rest[0]) != 'u' && Lower(rest[0]) != 's';
    }
  }

  /** Nor a precision. */
  lemma {:induction false} DelimNoPrecision(rest: seq<char>)
    requires Delim(rest)
    ensures Precision(rest).Fail? && NumericPrecision(rest).Fail?
  {
  }

  /** Nor a word after whitespace. */
  lemma {:induction false} DelimNoPhrase(words: seq<string>, rest: seq<char>)
    requires Delim(rest)
    ensures SpacedPhrase(words, rest).Fail?
  {
  }

  /** An optional length in parentheses is read back by `opt(delim_u16)`. */
  lemma {:induction false} LenRead(len: Option<u16>, rest: seq<char>)
    requires NotLetter(rest) && !At(rest, '(')
    ensures OptLen(LenText(len) + rest) == (len, |LenText(len)|)
    ensures (LenText(len) + rest)[|LenText(len)|..] == rest
    ensures NotLetter(LenText(len) + rest)
  {
    match len
    case None =>
      assert LenText(len) + rest == rest;
    case Some(n) =>
      DelimU16Text(n, rest);
      assert LenText(len) + rest == "(" + NatText(n) + ")" + rest;
  }

  /** One more word of a phrase: the word, whitespace, and the remaining words. */
  /** The tail of a two-word phrase. */
  lemma {:induction false} TailOfTwo(a: string, b: string)
    ensures [a, b][1..] == [b]
  {
  }

  /** The tail of a three-word phrase. */
  lemma {:induction false} TailOfThree(a: string, b: string, c: string)
    ensures [a, b, c][1..] == [b, c]
  {
  }

  /** A phrase of several words: the first word, blanks, then the other words. */
  lemma {:induction false} PhraseStep(words: seq<string>, ws: seq<string>, s: seq<char>, k: nat, c: nat)
    requires 1 < |words| && words[1..] == ws && StartsNoCase(s, words[0])
    requires Whitespace1(s[|words[0]|..]) == Done((), k)
    requires Phrase(ws, s[|words[0]| + k..]) == Done((), c)
    ensures Phrase(words, s) == Done((), |words[0]| + k + c)
  {
    var a := |words[0]|;
    assert TagNoCase(words[0], s) == Done((), a);
    assert Whitespace1(s[a..]) == Done((), k);
    assert Phrase(words[1..], s[a + k..]) == Done((), c);
  }

  /** A phrase of one word is that word. */
  lemma {:induction false} PhraseOne(w: string, s: seq<char>)
    requires StartsNoCase(s, w)
    ensures Phrase([w], s) == Done((), |w|)
  {
  }

  /** Exactly one space before a letter. */
  lemma {:induction false} OneSpace(s: seq<char>)
    requires |s| > 1 && s[0] == ' ' && IsAlpha(s[1])
    ensures Whitespace0(s) == 1 && Whitespace1(s) == Done((), 1)
  {
    assert IsSpace(s[0]) && !IsSpace(s[1]);
  }

  // ---------------------------------------------------------------------
  // Each alternative on its own text

  /** The keyword step of `int_type`: a keyword in any case, then the tail. */
  lemma {:induction false} IntTypeOf(kw: string, kind: IntKind, head: seq<char>, u: seq<char>, t: SqlType, k: nat)
    requires |head| == |kw| && KwPrefix(head, kw) && IntTail(kind, u) == (t, k)
    ensures IntType(kw, kind, head + u) == Done(t, |kw| + k)
  {
    KwOpens(head, u, kw);
    assert (head + u)[|kw|..] == u;
  }

  lemma {:induction false} LenReadAt(len: Option<u16>, x: seq<char>, u: seq<char>)
    requires NotLetter(x) && !At(x, '(') && u == LenText(len) + x
    ensures OptLen(u) == (len, |LenText(len)|) && |LenText(len)| <= |u| && u[|LenText(len)|..] == x
  {
    LenRead(len, x);
  }

  lemma {:induction false} IntTailAt(kind: IntKind, u: seq<char>, len: Option<u16>, b: nat, x: seq<char>, sign: Option<Sign>, c: nat)
    requires OptLen(u) == (len, b) && b <= |u| && u[b..] == x && SignTail(x) == (sign, c)
    ensures IntTail(kind, u) == (IntOf(kind, sign == Some(Unsigned), len), b + c)
  {
  }

  /** No sign: nothing is consumed. */
  lemma {:induction false} SignTailNone(rest: seq<char>)
    requires Delim(rest)
    ensures SignTail(rest) == (None, 0) && NotLetter(rest) && !At(rest, '(')
  {
    DelimRest(rest);
    DelimNoSign(rest);
  }

  lemma {:induction false} SignTailUnsigned(rest: seq<char>)
    ensures SignTail(" UNSIGNED" + rest) == (Some(Unsigned), 9)
  {
    var v := " UNSIGNED" + rest;
    OneSpace(v);
    assert v[1..] == "UNSIGNED" + rest;
    UnsignedWord(rest);
  }

  lemma {:induction false} SignTailSigned(rest: seq<char>)
    ensures SignTail(" SIGNED" + rest) == (Some(Signed), 7)
  {
    var v := " SIGNED" + rest;
    OneSpace(v);
    assert v[1..] == "SIGNED" + rest;
    SignedWord(rest);
  }

  /** `int_type` reads `KW(n)` back as the signed type. */
  lemma {:induction false} IntRead(kw: string, kind: IntKind, head: seq<char>, len: Option<u16>, rest: seq<char>, t: SqlType)
    requires |head| == |kw| && KwPrefix(head, kw) && Delim(rest) && t == IntOf(kind, false, len)
    ensures IntType(kw, kind, head + (LenText(len) + rest)) == Done(t, |head| + |LenText(len)|)
  {
    SignTailNone(rest);
    var u := LenText(len) + rest;
    LenReadAt(len, rest, u);
    IntTailAt(kind, u, len, |LenText(len)|, rest, None, 0);
    IntTypeOf(kw, kind, head, u, t, |LenText(len)|);
  }

  /** `int_type` reads `KW(n) UNSIGNED` back as the unsigned type. */
  lemma {:induction false} IntUnsignedRead(kw: string, kind: IntKind, head: seq<char>, len: Option<u16>, rest: seq<char>, t: SqlType)
    requires |head| == |kw| && KwPrefix(head, kw) && t == IntOf(kind, true, len)
    ensures IntType(kw, kind, head + (LenText(len) + (" UNSIGNED" + rest)))
      == Done(t, |head + LenText(len) + " UNSIGNED"|)
  {
    var x := " UNSIGNED" + rest;
    SignTailUnsigned(rest);
    var u := LenText(len) + x;
    LenReadAt(len, x, u);
    IntTailAt(kind, u, len, |LenText(len)|, x, Some(Unsigned), 9);
    IntTypeOf(kw, kind, head, u, t, |LenText(len)| + 9);
  }

  /** `int_type` reads `KW(n) SIGNED` back as the signed type. */
  lemma {:induction false} IntSignedRead(kw: string, kind: IntKind, head: seq<char>, len: Option<u16>, rest: seq<char>, t: SqlType)
    requires |head| == |kw| && KwPrefix(head, kw) && t == IntOf(kind, false, len)
    ensures IntType(kw, kind, head + (LenText(len) + (" SIGNED" + rest)))
      == Done(t, |head + LenText(len) + " SIGNED"|)
  {
    var x := " SIGNED" + rest;
    SignTailSigned(rest);
    var u := LenText(len) + x;
    LenReadAt(len, x, u);
    IntTailAt(kind, u, len, |LenText(len)|, x, Some(Signed), 7);
    IntTypeOf(kw, kind, head, u, t, |LenText(len)| + 7);
  }

  lemma {:induction false} UnsignedWord(rest: seq<char>)
    ensures StartsNoCase("UNSIGNED" + rest, "unsigned")
  {
    KwOpens("UNSIGNED", rest, "unsigned");
  }

  /** `SIGNED` is not `UNSIGNED`, so `opt_signed` reaches its second keyword. */
  lemma {:induction false} SignedWord(rest: seq<char>)
    ensures OptSigned("SIGNED" + rest) == (Some(Signed), 6)
  {
    KwOpens("SIGNED", rest, "signed");
    KwBlocked("SIGNED", rest[..0], "unsigned");
    assert ("SIGNED" + rest)[0] == 'S';
  }

  lemma {:induction false} BoolRead(rest: seq<char>)
    requires Delim(rest)
    ensures BoolType("BOOL" + rest) == Done(Bool, 4)
  {
    KwOpens("BOOL", rest, "bool");
    DelimRest(rest);
    KwBlocked("BOOL", rest, "boolean");
  }

  lemma {:induction false} DoubleRead(rest: seq<char>)
    requires Delim(rest)
    ensures DoubleType("DOUBLE" + rest) == Done(Double, 6)
  {
    KwOpens("DOUBLE", rest, "double");
    assert ("DOUBLE" + rest)[6..] == rest;
    DelimRest(rest);
  }

  lemma {:induction false} FloatRead(rest: seq<char>)
    requires Delim(rest)
    ensures FloatType("FLOAT" + rest) == Done(Float, 5)
  {
    KwOpens("FLOAT", rest, "float");
    assert ("FLOAT" + rest)[5..] == rest;
    DelimRest(rest);
  }

  lemma {:induction false} RealRead(rest: seq<char>)
    requires Delim(rest)
    ensures RealType("REAL" + rest) == Done(Real, 4)
  {
    KwOpens("REAL", rest, "real");
    assert ("REAL" + rest)[4..] == rest;
    DelimRest(rest);
  }

  lemma {:induction false} DateTimeRead(len: Option<u16>, rest: seq<char>)
    requires Delim(rest)
    ensures DateTimeType("DATETIME" + (LenText(len) + rest)) == Done(DateTime(len), 8 + |LenText(len)|)
  {
    KwOpens("DATETIME", LenText(len) + rest, "datetime");
    assert ("DATETIME" + (LenText(len) + rest))[8..] == LenText(len) + rest;
    DelimRest(rest);
    LenRead(len, rest);
  }

  lemma {:induction false} NumericRead(rest: seq<char>)
    requires Delim(rest)
    ensures NumericType("NUMERIC" + rest) == Done(Numeric(None), 7)
  {
    KwOpens("NUMERIC", rest, "numeric");
    assert ("NUMERIC" + rest)[7..] == rest;
    DelimRest(rest);
  }

  lemma {:induction false} NumericPrecisionRead(p: u16, sc: Option<u8>, rest: seq<char>)
    ensures NumericType("NUMERIC" + (PrecisionText(p, sc) + rest))
      == Done(Numeric(Some((p, sc))), 7 + |PrecisionText(p, sc)|)
  {
    var t := PrecisionText(p, sc) + rest;
    KwOpens("NUMERIC", t, "numeric");
    assert ("NUMERIC" + t)[7..] == t;
    assert Whitespace0(t) == 0 by { assert t[0] == '('; }
    NumericPrecisionRoundTrip(p, sc, rest);
    assert Opt(NumericPrecision(t)) == (Some((p, sc)), |PrecisionText(p, sc)|);
  }

  /** The plain `TIMESTAMP` text: the time-zone alternative needs whitespace and fails. */
  lemma {:induction false} TimestampRead(rest: seq<char>)
    requires Delim(rest)
    ensures TimestampTzType("TIMESTAMP" + rest).Fail?
    ensures TimestampType("TIMESTAMP" + rest) == Done(Timestamp, 9)
  {
    KwOpens("TIMESTAMP", rest, "timestamp");
    assert ("TIMESTAMP" + rest)[9..] == rest;
    DelimRest(rest);
  }

  lemma {:induction false} ZoneRead(rest: seq<char>)
    ensures Phrase(["zone"], "ZONE" + rest) == Done((), 4)
  {
    KwOpens("ZONE", rest, "zone");
    PhraseOne("zone", "ZONE" + rest);
  }

  lemma {:induction false} TimeZoneRead(rest: seq<char>)
    ensures Phrase(["time", "zone"], "TIME ZONE" + rest) == Done((), 9)
  {
    var v := "ZONE" + rest;
    var u := "TIME" + (" " + v);
    assert "TIME ZONE" + rest == u;
    ZoneRead(rest);
    KwOpens("TIME", " " + v, "time");
    OneSpace(" " + v);
    SliceShift("TIME", " " + v, 1);
    TailOfTwo("time", "zone");
    PhraseStep(["time", "zone"], ["zone"], u, 1, 4);
  }

  /** `with time zone` after the keyword. */
  lemma {:induction false} WithTimeZoneRead(rest: seq<char>)
    ensures SpacedPhrase(["with", "time", "zone"], " WITH TIME ZONE" + rest) == Done((), 15)
  {
    var u := "TIME ZONE" + rest;
    var t := "WITH" + (" " + u);
    var s := " " + t;
    assert " WITH TIME ZONE" + rest == s;
    TimeZoneRead(rest);
    KwOpens("WITH", " " + u, "with");
    OneSpace(" " + u);
    SliceShift("WITH", " " + u, 1);
    TailOfThree("with", "time", "zone");
    PhraseStep(["with", "time", "zone"], ["time", "zone"], t, 1, 9);
    OneSpace(s);
  }

  lemma {:induction false} TimestampTzRead(rest: seq<char>)
    requires Delim(rest)
    ensures TimestampTzType("TIMESTAMP" + (" WITH TIME ZONE" + rest)) == Done(TimestampTz, 24)
  {
    var t := " WITH TIME ZONE" + rest;
    var s := "TIMESTAMP" + t;
    KwOpens("TIMESTAMP", t, "timestamp");
    assert s[9..] == t;
    assert OptTimestampPrecision(t) == 0 by {
      OneSpace(t);
      assert t[1..][0] == 'W';
    }
    WithTimeZoneRead(rest);
  }

  lemma {:induction false} VarcharRead(len: Option<u16>, rest: seq<char>)
    requires Delim(rest)
    ensures VarcharType("VARCHAR" + (LenText(len) + rest)) == Done(Varchar(len), 7 + |LenText(len)|)
  {
    var t := LenText(len) + rest;
    var s := "VARCHAR" + t;
    KwOpens("VARCHAR", t, "varchar");
    assert s[7..] == t;
    DelimRest(rest);
    LenRead(len, rest);
    assert Whitespace0(t) == 0 by {
      if len.Some? { assert t[0] == '('; } else { DelimRest(rest); }
    }
    assert VarcharWord(s) == Done((), 7);
    assert s[7 + |LenText(len)|..] == rest;
    DelimRest(rest);
  }

  lemma {:induction false} CharRead(len: Option<u16>, rest: seq<char>)
    requires Delim(rest)
    ensures CharType("CHAR" + (LenText(len) + rest)) == Done(Char(len), 4 + |LenText(len)|)
  {
    var t := LenText(len) + rest;
    var s := "CHAR" + t;
    KwOpens("CHAR", t, "char");
    assert s[4..] == t;
    DelimRest(rest);
    LenRead(len, rest);
    assert s[4 + |LenText(len)|..] == rest;
    DelimRest(rest);
  }

  lemma {:induction false} TimeRead(rest: seq<char>)
    requires Delim(rest)
    ensures TimeType("TIME" + rest) == Done(Time, 4)
  {
    KwOpens("TIME", rest, "time");
    assert ("TIME" + rest)[4..] == rest;
    DelimRest(rest);
  }

  lemma {:induction false} DecimalRead(m: u8, d: u8, rest: seq<char>)
    requires Delim(rest)
    ensures DecimalOrNumeric("DECIMAL" + (PrecisionText(m, Some(d)) + rest))
      == Done(Decimal(m, d), 7 + |PrecisionText(m, Some(d))|)
  {
    var t := PrecisionText(m, Some(d)) + rest;
    var s := "DECIMAL" + t;
    KwOpens("DECIMAL", t, "decimal");
    assert s[7..] == t;
    DecimalOn(s, t);
    DecimalTailPrecision(m, Some(d), rest);
  }

  /** `decimal_or_numeric` on a text opening with `decimal`: the keyword, then the tail. */
  lemma {:induction false} DecimalOn(s: seq<char>, t: seq<char>)
    requires StartsNoCase(s, "decimal") && 7 <= |s| && s[7..] == t
    ensures DecimalOrNumeric(s) == Done(DecimalTail(t).0, 7 + DecimalTail(t).1)
  {
    assert TagNoCase("decimal", s).Done?;
  }

  /** The tail reads a rendered precision back. */
  lemma {:induction false} DecimalTailPrecision(m: u8, d: Option<u8>, rest: seq<char>)
    requires Delim(rest)
    ensures DecimalTail(PrecisionText(m, d) + rest) == (Decimal(m, if d.Some? then d.value else 0), |PrecisionText(m, d)|)
  {
    var t := PrecisionText(m, d) + rest;
    PrecisionRoundTrip(m, d, rest);
    SliceShift(PrecisionText(m, d), rest, 0);
    DelimRest(rest);
    DecimalTailOf(t, m, d, |PrecisionText(m, d)|, rest);
  }

  /** A precision the tail reads, followed by no whitespace. */
  lemma {:induction false} DecimalTailOf(t: seq<char>, m: u8, d: Option<u8>, n: nat, rest: seq<char>)
    requires Precision(t) == Done((m, d), n) && n <= |t| && t[n..] == rest && Whitespace0(rest) == 0
    ensures DecimalTail(t) == (Decimal(m, if d.Some? then d.value else 0), n)
  {
  }

  lemma {:induction false} BinaryRead(len: Option<u16>, rest: seq<char>)
    requires Delim(rest)
    ensures BinaryType("BINARY" + (LenText(len) + rest)) == Done(Binary(len), 6 + |LenText(len)|)
  {
    var t := LenText(len) + rest;
    var s := "BINARY" + t;
    KwOpens("BINARY", t, "binary");
    assert s[6..] == t;
    DelimRest(rest);
    LenRead(len, rest);
    assert s[6 + |LenText(len)|..] == rest;
    DelimRest(rest);
  }

  lemma {:induction false} VarbinaryRead(n: u16, rest: seq<char>)
    requires Delim(rest)
    ensures VarbinaryType("VARBINARY" + ("(" + NatText(n) + ")" + rest)) == Done(Varbinary(n), 11 + |NatText(n)|)
  {
    var t := "(" + NatText(n) + ")" + rest;
    var s := "VARBINARY" + t;
    KwOpens("VARBINARY", t, "varbinary");
    assert s[9..] == t;
    DelimU16Text(n, rest);
    assert t[|NatText(n)| + 2..] == rest;
    DelimRest(rest);
    VarbinaryTypeAt(s, t, n, |NatText(n)| + 2, rest);
  }

  lemma {:induction false} VarbinaryTypeAt(s: seq<char>, t: seq<char>, n: u16, b: nat, rest: seq<char>)
    requires StartsNoCase(s, "varbinary") && s[9..] == t
    requires DelimU16(t) == Done(n, b) && t[b..] == rest && Whitespace0(rest) == 0
    ensures VarbinaryType(s) == Done(Varbinary(n), 9 + b)
  {
    DropDrop(s, 9, b);
  }

  lemma {:induction false} VarbitRead(len: Option<u16>, rest: seq<char>)
    requires Delim(rest)
    ensures VarbitType("VARBIT" + (LenText(len) + rest)) == Done(Varbit(len), 6 + |LenText(len)|)
  {
    var t := LenText(len) + rest;
    var s := "VARBIT" + t;
    KwOpens("VARBIT", t, "varbit");
    assert s[6..] == t;
    DelimRest(rest);
    LenRead(len, rest);
    assert Whitespace0(t) == 0 by {
      if len.Some? { assert t[0] == '('; } else { DelimRest(rest); }
    }
    assert VarbitWord(s) == Done((), 6);
  }

  /** `BIT(n)`: the `bit varying` spelling of the earlier alternative needs whitespace and fails. */
  lemma {:induction false} BitRead(len: Option<u16>, rest: seq<char>)
    requires Delim(rest)
    ensures VarbitType("BIT" + (LenText(len) + rest)).Fail?
    ensures BitType("BIT" + (LenText(len) + rest)) == Done(Bit(len), 3 + |LenText(len)|)
  {
    var t := LenText(len) + rest;
    var s := "BIT" + t;
    KwOpens("BIT", t, "bit");
    KwBlocked("BIT", t, "varbit");
    assert s[3..] == t;
    DelimRest(rest);
    LenRead(len, rest);
    assert Whitespace1(t).Fail? by {
      if len.Some? { assert t[0] == '('; } else { DelimRest(rest); }
    }
    assert ["bit", "varying"][1..] == ["varying"];
    assert Phrase(["bit", "varying"], s).Fail?;
  }
}
