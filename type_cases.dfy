/**
 * The cases of `type_identifier` (nom-sql/src/common.rs:861-1107) that the
 * source's comments and tests single out: the sign of the integer types,
 * the orderings of the alternatives, the `TIMESTAMP` variants and the
 * `DECIMAL` / `NUMERIC` precisions, in any mix of upper and lower case.
 */
module TypeCases {
  import opened ParseCore
  import opened Numeric
  import opened Ast
  import opened SqlTypes
  import opened SqlTypeFacts
  import opened TypeReading
  import opened TypeRoundTrip

  // ---------------------------------------------------------------------
  // Head words in any case

  /** `head` is the keyword `kw` in any mix of upper and lower case. */
  predicate SameWord(head: seq<char>, kw: string) {
    |head| == |kw| && StartsNoCase(head, kw)
  }

  lemma {:induction false} SameWordBlocks(head: seq<char>, word: string, kw: string)
    requires SameWord(head, word) && Blocks(word, kw)
    ensures Blocks(head, kw)
  {
    if i: nat :| i < |word| && DiffersAt(word, kw, i) {
      assert DiffersAt(head, kw, i);
    }
  }

  lemma {:induction false} SameWordBlocksFrom(head: seq<char>, word: string, kws: seq<string>, k: nat)
    requires SameWord(head, word) && BlocksFrom(word, kws, k)
    ensures BlocksFrom(head, kws, k)
    decreases |kws| - k
  {
    if k < |kws| {
      SameWordBlocks(head, word, kws[k]);
      SameWordBlocksFrom(head, word, kws, k + 1);
    }
  }

  /** Whether a keyword is blocked does not depend on the case of the head word. */
  lemma {:induction false} SameWordFirstBlocked(head: seq<char>, word: string, j: nat)
    requires SameWord(head, word) && FirstBlockedBefore(word, j)
    ensures FirstBlockedBefore(head, j)
  {
    forall i | 0 <= i < j ensures BlocksFrom(head, FirstKeywords(i), 0) {
      SameWordBlocksFrom(head, word, FirstKeywords(i), 0);
    }
  }

  lemma {:induction false} SameWordSecondBlocked(head: seq<char>, word: string, j: nat)
    requires SameWord(head, word) && SecondBlockedBefore(word, j)
    ensures SecondBlockedBefore(head, j)
  {
    forall i | 0 <= i < j ensures BlocksFrom(head, SecondKeywords(i), 0) {
      SameWordBlocksFrom(head, word, SecondKeywords(i), 0);
    }
  }

  /** A head word opens its keyword, and what follows it is the tail. */
  lemma {:induction false} SameWordOpens(head: seq<char>, kw: string, tail: seq<char>)
    requires SameWord(head, kw)
    ensures KwPrefix(head, kw) && StartsNoCase(head + tail, kw) && (head + tail)[|kw|..] == tail
  {
    MatchFromAll(head, kw, 0);
    KwOpens(head, tail, kw);
  }

  lemma {:induction false} FirstIsIntegerArm(lex: Lexicon)
    ensures FirstArm(2, lex) == IntegerArm
  {
  }

  // ---------------------------------------------------------------------
  // int_type (common.rs:876-894)

  /** The sign words `opt_signed` accepts, as written after a type. */
  function SignText(sign: Option<Sign>): string {
    match sign
    case None => ""
    case Some(Unsigned) => " UNSIGNED"
    case Some(Signed) => " SIGNED"
  }

  /**
   * `int_type` gives the unsigned constructor exactly when `UNSIGNED`
   * follows, the signed one after `SIGNED` or no sign, and keeps the length.
   */
  lemma {:induction false} IntTypeSign(kw: string, kind: IntKind, head: seq<char>, len: Option<u16>, sign: Option<Sign>, rest: seq<char>)
    requires SameWord(head, kw) && Delim(rest)
    ensures IntType(kw, kind, head + (LenText(len) + (SignText(sign) + rest)))
      == Done(IntOf(kind, sign == Some(Unsigned), len), |head| + |LenText(len)| + |SignText(sign)|)
  {
    SameWordOpens(head, kw, []);
    match sign
    case None =>
      assert SignText(sign) + rest == rest;
      IntRead(kw, kind, head, len, rest, IntOf(kind, false, len));
    case Some(Unsigned) =>
      IntUnsignedRead(kw, kind, head, len, rest, IntOf(kind, true, len));
    case Some(Signed) =>
      IntSignedRead(kw, kind, head, len, rest, IntOf(kind, false, len));
  }

  /** The four unsigned integer types. */
  predicate UnsignedInt(t: SqlType) {
    t.UnsignedTinyint? || t.UnsignedSmallint? || t.UnsignedInt? || t.UnsignedBigint?
  }

  /** Where `int_type` looks for its sign: after the keyword, the optional length and whitespace. */
  function SignAt(kw: string, s: seq<char>): (x: seq<char>)
    requires |kw| <= |s|
  {
    var u := s[|kw|..];
    var v := u[OptLen(u).1..];
    v[Whitespace0(v)..]
  }

  /** On any input, `int_type`'s type is unsigned exactly when the sign word there is `unsigned`. */
  lemma {:induction false} IntTypeUnsignedIff(kw: string, kind: IntKind, s: seq<char>)
    requires IntType(kw, kind, s).Done?
    ensures UnsignedInt(IntType(kw, kind, s).value) <==> StartsNoCase(SignAt(kw, s), "unsigned")
  {
    var u := s[|kw|..];
    var v := u[OptLen(u).1..];
    var x := SignAt(kw, s);
    IntTypeValue(kw, kind, s);
    SignTailSign(v);
    var sign := SignTail(v).0;
    IntTailValue(kind, u);
    UnsignedIntOf(kind, sign == Some(Unsigned), OptLen(u).0);
    OptSignedUnsigned(x);
  }

  lemma {:induction false} IntTypeValue(kw: string, kind: IntKind, s: seq<char>)
    requires IntType(kw, kind, s).Done?
    ensures |kw| <= |s| && IntType(kw, kind, s).value == IntTail(kind, s[|kw|..]).0
  {
  }

  lemma {:induction false} IntTailValue(kind: IntKind, u: seq<char>)
    ensures IntTail(kind, u).0 == IntOf(kind, SignTail(u[OptLen(u).1..]).0 == Some(Unsigned), OptLen(u).0)
  {
  }

  lemma {:induction false} SignTailSign(v: seq<char>)
    ensures SignTail(v).0 == OptSigned(v[Whitespace0(v)..]).0
  {
  }

  lemma {:induction false} OptSignedUnsigned(x: seq<char>)
    ensures OptSigned(x).0 == Some(Unsigned) <==> StartsNoCase(x, "unsigned")
  {
  }

  lemma {:induction false} UnsignedIntOf(kind: IntKind, unsigned: bool, len: Option<u16>)
    ensures UnsignedInt(IntOf(kind, unsigned, len)) == unsigned
  {
  }

  // ---------------------------------------------------------------------
  // integer before int (common.rs:932-936)

  /** `int` alone would stop after three letters of `integer`. */
  lemma {:induction false} IntStopsInInteger(head: seq<char>, tail: seq<char>)
    requires SameWord(head, "integer")
    ensures IntArm(head + tail) == Done(Int(None), 3)
  {
    var s := head + tail;
    assert StartsNoCase(s, "int") by { SameWordOpens(head, "integer", tail); }
    assert Lower(s[3]) == 'e';
    assert s[3..][0] == s[3];
  }

  /**
   * `integer` is tried before `int`: `INTEGER(n)` is read whole as `Int`,
   * where the `int` alternative would read three letters and leave the rest.
   */
  lemma {:induction false} IntegerBeforeInt(lex: Lexicon, head: seq<char>, len: Option<u16>, rest: seq<char>)
    requires SameWord(head, "integer") && Delim(rest)
    ensures TypeIdentifier(lex, head + (LenText(len) + rest)) == Done(Int(len), 7 + |LenText(len)|)
    ensures IntArm(head + (LenText(len) + rest)) == Done(Int(None), 3)
  {
    var tail := LenText(len) + rest;
    assert IntegerArm(head + tail) == Done(Int(len), 7 + |LenText(len)|) by {
      IntTypeSign("integer", IntegerKind, head, len, None, rest);
      assert SignText(None) + rest == rest;
    }
    assert NotLetter(tail) by {
      DelimRest(rest);
      LenRead(len, rest);
    }
    assert FirstBlockedBefore(head, 2) by {
      IntegerWordBlocksFirst2();
      SameWordFirstBlocked(head, "integer", 2);
    }
    FirstIsIntegerArm(lex);
    FirstWins(lex, 2, head, tail);
    IntStopsInInteger(head, tail);
  }

  /** `integer(16)` is `Int(Some(16))`, consuming the whole input (common.rs:1607-1624). */
  lemma {:induction false} IntegerSixteen(lex: Lexicon)
    ensures TypeIdentifier(lex, "integer(16)") == Done(Int(Some(16)), 11)
  {
    assert NatText(16) == "16";
    assert "integer(16)" == "integer" + (LenText(Some(16)) + "");
    IntegerBeforeInt(lex, "integer", Some(16), "");
  }

  // ---------------------------------------------------------------------
  // boolean before bool (common.rs:937)

  /** `BOOL` alone: `boolean` does not match, `bool` does. */
  lemma {:induction false} BoolTest(lex: Lexicon)
    ensures TypeIdentifier(lex, "bool") == Done(Bool, 4)
  {
    assert "bool" + [] == "bool";
    assert BoolArm("bool" + []) == Done(Bool, 4);
    BoolWordBlocksFirst5();
    FirstIsBoolArm(lex);
    FirstWins(lex, 5, "bool", []);
  }

  /**
   * `boolean` is tried before `bool`: `BOOLEAN` is read whole, where
   * `bool`, which also matches, would leave `EAN`.
   */
  lemma {:induction false} BooleanBeforeBool(lex: Lexicon, head: seq<char>, rest: seq<char>)
    requires SameWord(head, "boolean") && Delim(rest)
    ensures TypeIdentifier(lex, head + rest) == Done(Bool, 7)
    ensures TagNoCase("bool", head + rest) == Done((), 4)
  {
    SameWordOpens(head, "boolean", rest);
    assert BoolArm(head + rest) == Done(Bool, 7);
    assert FirstBlockedBefore(head, 5) by {
      BooleanWordBlocksFirst5();
      SameWordFirstBlocked(head, "boolean", 5);
    }
    DelimRest(rest);
    FirstIsBoolArm(lex);
    FirstWins(lex, 5, head, rest);
  }

  // ---------------------------------------------------------------------
  // datetime before date (common.rs:940-943)

  lemma {:induction false} DateTimeArmOn(head: seq<char>, len: Option<u16>, rest: seq<char>)
    requires SameWord(head, "datetime") && Delim(rest)
    ensures DateTimeArm(head + (LenText(len) + rest)) == Done(DateTime(len), 8 + |LenText(len)|)
    ensures DateArm(head + (LenText(len) + rest)) == Done(Date, 4)
  {
    var tail := LenText(len) + rest;
    SameWordOpens(head, "datetime", tail);
    DelimRest(rest);
    LenRead(len, rest);
  }

  /**
   * `datetime` is tried before `date`: `DATETIME(n)` is read whole as
   * `DateTime`, where `date`, which also matches, would read four letters.
   */
  lemma {:induction false} DateTimeBeforeDate(lex: Lexicon, head: seq<char>, len: Option<u16>, rest: seq<char>)
    requires SameWord(head, "datetime") && Delim(rest)
    ensures TypeIdentifier(lex, head + (LenText(len) + rest)) == Done(DateTime(len), 8 + |LenText(len)|)
    ensures DateArm(head + (LenText(len) + rest)) == Done(Date, 4)
  {
    var tail := LenText(len) + rest;
    DateTimeArmOn(head, len, rest);
    assert NotLetter(tail) by {
      DelimRest(rest);
      LenRead(len, rest);
    }
    assert FirstBlockedBefore(head, 6) by {
      DatetimeWordBlocksFirst6();
      SameWordFirstBlocked(head, "datetime", 6);
    }
    FirstIsDateTimeArm(lex);
    FirstWins(lex, 6, head, tail);
  }

  /** `datetime(16)` is `DateTime(Some(16))`, consuming the whole input. */
  lemma {:induction false} DateTimeSixteen(lex: Lexicon)
    ensures TypeIdentifier(lex, "datetime(16)") == Done(DateTime(Some(16)), 12)
  {
    assert NatText(16) == "16";
    assert "datetime(16)" == "datetime" + (LenText(Some(16)) + "");
    DateTimeBeforeDate(lex, "datetime", Some(16), "");
  }

  /** `boolean` is `Bool`, consuming the whole input (common.rs:1626-1630). */
  lemma {:induction false} BooleanTest(lex: Lexicon)
    ensures TypeIdentifier(lex, "boolean") == Done(Bool, 7)
  {
    assert "boolean" == "boolean" + "";
    BooleanBeforeBool(lex, "boolean", "");
  }

  /** `bool`, `integer(16)` and `datetime(16)` (common.rs:1607-1624). */
  lemma {:induction false} SqlTypesTest(lex: Lexicon)
    ensures TypeIdentifier(lex, "bool") == Done(Bool, 4)
    ensures TypeIdentifier(lex, "integer(16)") == Done(Int(Some(16)), 11)
    ensures TypeIdentifier(lex, "datetime(16)") == Done(DateTime(Some(16)), 12)
  {
    BoolTest(lex);
    IntegerSixteen(lex);
    DateTimeSixteen(lex);
  }

  // ---------------------------------------------------------------------
  // TIMESTAMP (common.rs:913-927, 984-1007)

  /** What follows the keyword and the optional precision reads as `with time zone`. */
  predicate WithTimeZone(tail: seq<char>) {
    SpacedPhrase(["with", "time", "zone"], tail[OptTimestampPrecision(tail)..]).Done?
  }

  /** The two `timestamp` alternatives on a head word in any case. */
  lemma {:induction false} TimestampArmsOn(head: seq<char>, tail: seq<char>)
    requires SameWord(head, "timestamp")
    ensures var p := OptTimestampPrecision(tail);
      TimestampTzArm(head + tail) ==
        (if WithTimeZone(tail) then Done(TimestampTz, 9 + p + SpacedPhrase(["with", "time", "zone"], tail[p..]).used) else Fail)
    ensures TimestampArm(head + tail) == Done(Timestamp, 9 + OptTimestampPrecision(tail) + OptWithoutTimeZone(tail[OptTimestampPrecision(tail)..]))
  {
    SameWordOpens(head, "timestamp", tail);
    TimestampTzOn(head + tail, tail);
    TimestampOn(head + tail, tail);
  }

  lemma {:induction false} TimestampTzOn(s: seq<char>, tail: seq<char>)
    requires StartsNoCase(s, "timestamp") && s[9..] == tail
    ensures var p := OptTimestampPrecision(tail);
      TimestampTzType(s) ==
        (if WithTimeZone(tail) then Done(TimestampTz, 9 + p + SpacedPhrase(["with", "time", "zone"], tail[p..]).used) else Fail)
  {
    TimestampTzAt(s, tail);
  }

  lemma {:induction false} TimestampTzAt(s: seq<char>, tail: seq<char>)
    requires StartsNoCase(s, "timestamp") && s[9..] == tail
    ensures var w := TimestampTzTail(tail);
      TimestampTzType(s) == (if w.Done? then Done(TimestampTz, 9 + w.used) else Fail)
  {
    assert TagNoCase("timestamp", s) == Done((), 9);
  }

  lemma {:induction false} TimestampOn(s: seq<char>, tail: seq<char>)
    requires StartsNoCase(s, "timestamp") && s[9..] == tail
    ensures TimestampType(s) == Done(Timestamp, 9 + OptTimestampPrecision(tail) + OptWithoutTimeZone(tail[OptTimestampPrecision(tail)..]))
  {
    TimestampAt(s, tail);
  }

  lemma {:induction false} TimestampAt(s: seq<char>, tail: seq<char>)
    requires StartsNoCase(s, "timestamp") && s[9..] == tail
    ensures TimestampType(s) == Done(Timestamp, 9 + TimestampTail(tail))
  {
    assert TagNoCase("timestamp", s) == Done((), 9);
  }

  /**
   * `timestamp [(n)] with time zone` is `TimestampTz` and any other
   * `timestamp [(n)] ...` is `Timestamp`, consuming an optional
   * `without time zone`; the precision `n` is read and discarded.
   */
  lemma {:induction false} TimestampVariants(lex: Lexicon, head: seq<char>, tail: seq<char>)
    requires SameWord(head, "timestamp") && NotLetter(tail)
    ensures var p := OptTimestampPrecision(tail);
      TypeIdentifier(lex, head + tail) ==
        if WithTimeZone(tail)
        then Done(TimestampTz, 9 + p + SpacedPhrase(["with", "time", "zone"], tail[p..]).used)
        else Done(Timestamp, 9 + p + OptWithoutTimeZone(tail[p..]))
  {
    TimestampArmsOn(head, tail);
    assert FirstBlockedBefore(head, 14) by {
      TimestampWordBlocksFirst14();
      SameWordFirstBlocked(head, "timestamp", 14);
    }
    FirstIsTimestampTzArm(lex);
    FirstIsTimestampArm(lex);
    if WithTimeZone(tail) {
      FirstWins(lex, 14, head, tail);
    } else {
      FirstWinsPast(lex, 15, head, tail);
    }
  }

  /** A run of blanks, as the source's tests put between words. */
  predicate Blanks(sp: seq<char>) {
    forall i :: 0 <= i < |sp| ==> sp[i] == ' '
  }

  lemma {:induction false} BlanksSkipped(sp: seq<char>, w: seq<char>)
    requires Blanks(sp) && 0 < |w| && IsAlpha(w[0])
    ensures Whitespace0(sp + w) == |sp| && (sp + w)[|sp|..] == w
  {
    assert !IsSpace(w[0]);
    Whitespace0Of(sp, w);
  }

  lemma {:induction false} TimeZoneWords(rest: seq<char>)
    ensures Phrase(["time", "zone"], "time zone" + rest) == Done((), 9)
  {
    var v := "zone" + rest;
    var u := "time" + (" " + v);
    assert "time zone" + rest == u;
    KwOpens("zone", rest, "zone");
    PhraseOne("zone", v);
    KwOpens("time", " " + v, "time");
    OneSpace(" " + v);
    SliceShift("time", " " + v, 1);
    TailOfTwo("time", "zone");
    PhraseStep(["time", "zone"], ["zone"], u, 1, 4);
  }

  /** `with time zone` after blanks. */
  lemma {:induction false} WithTimeZoneWords(sp: seq<char>, rest: seq<char>)
    requires 0 < |sp| && Blanks(sp)
    ensures SpacedPhrase(["with", "time", "zone"], sp + ("with time zone" + rest)) == Done((), |sp| + 14)
  {
    var u := "time zone" + rest;
    var t := "with" + (" " + u);
    assert "with time zone" + rest == t;
    TimeZoneWords(rest);
    KwOpens("with", " " + u, "with");
    OneSpace(" " + u);
    SliceShift("with", " " + u, 1);
    TailOfThree("with", "time", "zone");
    PhraseStep(["with", "time", "zone"], ["time", "zone"], t, 1, 9);
    BlanksSkipped(sp, t);
  }

  /** `without time zone` after blanks. */
  lemma {:induction false} WithoutTimeZoneWords(sp: seq<char>, rest: seq<char>)
    requires 0 < |sp| && Blanks(sp)
    ensures SpacedPhrase(["without", "time", "zone"], sp + ("without time zone" + rest)) == Done((), |sp| + 17)
  {
    var u := "time zone" + rest;
    var t := "without" + (" " + u);
    assert "without time zone" + rest == t;
    TimeZoneWords(rest);
    KwOpens("without", " " + u, "without");
    OneSpace(" " + u);
    SliceShift("without", " " + u, 1);
    TailOfThree("without", "time", "zone");
    PhraseStep(["without", "time", "zone"], ["time", "zone"], t, 1, 9);
    BlanksSkipped(sp, t);
  }

  /** `with` is a prefix of `without`, but the phrase `with time zone` then finds no blank after it. */
  lemma {:induction false} WithoutIsNotWith(sp: seq<char>, rest: seq<char>)
    requires 0 < |sp| && Blanks(sp)
    ensures SpacedPhrase(["with", "time", "zone"], sp + ("without time zone" + rest)).Fail?
  {
    var v := "out time zone" + rest;
    var t := "with" + v;
    WithoutText(rest, v, t);
    KwOpens("with", v, "with");
    SliceShift("with", v, 0);
    NoBlankAfter(v);
    PhraseStopsAfterFirst(["with", "time", "zone"], t, 4);
    BlanksSkipped(sp, t);
    SpacedPhraseFails(["with", "time", "zone"], sp, t);
  }

  lemma {:induction false} WithoutText(rest: seq<char>, v: seq<char>, t: seq<char>)
    requires v == "out time zone" + rest && t == "with" + v
    ensures "without time zone" + rest == t && 0 < |t| && IsAlpha(t[0])
  {
    assert "without time zone" == "with" + "out time zone";
  }

  lemma {:induction false} NoBlankAfter(v: seq<char>)
    requires 0 < |v| && v[0] == 'o'
    ensures Whitespace1(v).Fail?
  {
  }

  /** A phrase of several words fails when no blank follows its first word. */
  lemma {:induction false} PhraseStopsAfterFirst(words: seq<string>, t: seq<char>, a: nat)
    requires 1 < |words| && a == |words[0]| && a <= |t| && StartsNoCase(t, words[0])
    requires Whitespace1(t[a..]).Fail?
    ensures Phrase(words, t).Fail?
  {
  }

  /** A phrase after blanks fails when the phrase itself fails there. */
  lemma {:induction false} SpacedPhraseFails(words: seq<string>, sp: seq<char>, t: seq<char>)
    requires 0 < |sp| && sp[0] == ' '
    requires Whitespace0(sp + t) == |sp| && (sp + t)[|sp|..] == t
    requires Phrase(words, t).Fail?
    ensures SpacedPhrase(words, sp + t).Fail?
  {
    assert (sp + t)[0] == ' ';
  }

  /** No precision before a word. */
  lemma {:induction false} NoPrecisionBeforeWord(sp: seq<char>, w: seq<char>)
    requires Blanks(sp) && 0 < |w| && IsAlpha(w[0])
    ensures OptTimestampPrecision(sp + w) == 0
  {
    BlanksSkipped(sp, w);
  }

  /** `timestamp`, a precision of `p` characters, and `with time zone` in `k` characters. */
  lemma {:induction false} TimestampTzOf(lex: Lexicon, tail: seq<char>, p: nat, k: nat)
    requires NotLetter(tail) && p <= |tail| && OptTimestampPrecision(tail) == p
    requires SpacedPhrase(["with", "time", "zone"], tail[p..]) == Done((), k)
    ensures TypeIdentifier(lex, "timestamp" + tail) == Done(TimestampTz, 9 + p + k)
  {
    TimestampVariants(lex, "timestamp", tail);
  }

  /** `timestamp`, a precision of `p` characters, and no `with time zone`. */
  lemma {:induction false} TimestampOf(lex: Lexicon, tail: seq<char>, p: nat, k: nat)
    requires NotLetter(tail) && p <= |tail| && OptTimestampPrecision(tail) == p
    requires SpacedPhrase(["with", "time", "zone"], tail[p..]).Fail? && OptWithoutTimeZone(tail[p..]) == k
    ensures TypeIdentifier(lex, "timestamp" + tail) == Done(Timestamp, 9 + p + k)
  {
    TimestampVariants(lex, "timestamp", tail);
  }

  /** Regrouping a text of four pieces. */
  lemma {:induction false} Regroup4(a: seq<char>, b: seq<char>, c: seq<char>, d: seq<char>)
    ensures a + b + c + d == a + (b + (c + d))
  {
  }

  /** A rendered precision opens with a parenthesis. */
  lemma {:induction false} PrecisionTextOpens(m: nat, d: Option<u8>, rest: seq<char>)
    ensures NotLetter(PrecisionText(m, d) + rest) && At(PrecisionText(m, d) + rest, '(')
  {
    var t := PrecisionText(m, d) + rest;
    assert t[0] == '(';
  }

  /** Regrouping a text of five pieces. */
  lemma {:induction false} Regroup(a: seq<char>, b: seq<char>, c: seq<char>, d: seq<char>, e: seq<char>)
    ensures a + b + c + d + e == a + (b + (c + (d + e)))
  {
  }

  /** The precision `(n)` after optional blanks, as the tests write it. */
  function PrecisionTail(sp: seq<char>, n: nat): seq<char> {
    sp + ("(" + NatText(n) + ")")
  }

  /** `opt(preceded(whitespace0, delim_digit))` reads the blanks and `(n)`. */
  lemma {:induction false} PrecisionTailRead(sp: seq<char>, n: nat, rest: seq<char>)
    requires Blanks(sp)
    ensures OptTimestampPrecision(PrecisionTail(sp, n) + rest) == |PrecisionTail(sp, n)|
    ensures (PrecisionTail(sp, n) + rest)[|PrecisionTail(sp, n)|..] == rest
    ensures NotLetter(PrecisionTail(sp, n) + rest)
  {
    var t := "(" + NatText(n) + ")" + rest;
    assert PrecisionTail(sp, n) + rest == sp + t;
    assert !IsSpace(t[0]);
    Whitespace0Of(sp, t);
    assert (sp + t)[|sp|..] == t;
    DelimDigitText(n, rest);
  }

  /** `timestamp` alone is `Timestamp`, consuming the whole input (common.rs:1986-1990). */
  lemma {:induction false} TimestampTest(lex: Lexicon)
    ensures TypeIdentifier(lex, "timestamp") == Done(Timestamp, 9)
  {
    assert "timestamp" == "timestamp" + "";
    TimestampOf(lex, "", 0, 0);
  }

  /**
   * `timestamp (5)` is `Timestamp`, consuming the whole input
   * (common.rs:1992-1996, with one blank and `n` = 5), for any blanks and
   * any precision and whatever follows that is not a word.
   */
  lemma {:induction false} TimestampPrecisionTest(lex: Lexicon, sp: seq<char>, n: nat, rest: seq<char>)
    requires Blanks(sp) && Delim(rest)
    ensures TypeIdentifier(lex, "timestamp" + PrecisionTail(sp, n) + rest) == Done(Timestamp, 9 + |PrecisionTail(sp, n)|)
  {
    var tail := PrecisionTail(sp, n) + rest;
    PrecisionTailRead(sp, n, rest);
    DelimRest(rest);
    assert "timestamp" + PrecisionTail(sp, n) + rest == "timestamp" + tail;
    TimestampOf(lex, tail, |PrecisionTail(sp, n)|, 0);
  }

  /**
   * `timestamp without time zone` is `Timestamp`, consuming the whole
   * input (common.rs:1998-2005, with one blank), for any blanks.
   */
  lemma {:induction false} TimestampWithoutTest(lex: Lexicon, sp: seq<char>, rest: seq<char>)
    requires 0 < |sp| && Blanks(sp)
    ensures TypeIdentifier(lex, "timestamp" + sp + "without time zone" + rest) == Done(Timestamp, 26 + |sp|)
  {
    var tail := sp + ("without time zone" + rest);
    NoPrecisionBeforeWord(sp, "without time zone" + rest);
    WithoutIsNotWith(sp, rest);
    WithoutTimeZoneWords(sp, rest);
    Regroup4("timestamp", sp, "without time zone", rest);
    TimestampOf(lex, tail, 0, |sp| + 17);
  }

  /** What follows `timestamp` in `timestamp (n) without time zone`. */
  lemma {:induction false} PrecisionWithoutTail(sp0: seq<char>, n: nat, sp: seq<char>, rest: seq<char>)
    requires Blanks(sp0) && 0 < |sp| && Blanks(sp)
    ensures var p := PrecisionTail(sp0, n); var tail := p + (sp + ("without time zone" + rest));
      NotLetter(tail) && |p| <= |tail| && OptTimestampPrecision(tail) == |p| &&
      SpacedPhrase(["with", "time", "zone"], tail[|p|..]).Fail? && OptWithoutTimeZone(tail[|p|..]) == |sp| + 17
  {
    PrecisionTailRead(sp0, n, sp + ("without time zone" + rest));
    WithoutIsNotWith(sp, rest);
    WithoutTimeZoneWords(sp, rest);
  }

  /**
   * `timestamp (5)   without time zone` is `Timestamp`, consuming the
   * whole input (common.rs:2007-2014), for any blanks and any precision.
   */
  lemma {:induction false} TimestampPrecisionWithoutTest(lex: Lexicon, sp0: seq<char>, n: nat, sp: seq<char>, rest: seq<char>)
    requires Blanks(sp0) && 0 < |sp| && Blanks(sp)
    ensures var p := PrecisionTail(sp0, n);
      TypeIdentifier(lex, "timestamp" + p + sp + "without time zone" + rest) == Done(Timestamp, 26 + |p| + |sp|)
  {
    var p := PrecisionTail(sp0, n);
    var tail := p + (sp + ("without time zone" + rest));
    PrecisionWithoutTail(sp0, n, sp, rest);
    Regroup("timestamp", p, sp, "without time zone", rest);
    TimestampOf(lex, tail, |p|, |sp| + 17);
  }

  /**
   * `timestamp with time zone` is `TimestampTz`, consuming the whole
   * input (common.rs:2016-2023, with one blank), for any blanks.
   */
  lemma {:induction false} TimestampTzTest(lex: Lexicon, sp: seq<char>, rest: seq<char>)
    requires 0 < |sp| && Blanks(sp)
    ensures TypeIdentifier(lex, "timestamp" + sp + "with time zone" + rest) == Done(TimestampTz, 23 + |sp|)
  {
    var tail := sp + ("with time zone" + rest);
    NoPrecisionBeforeWord(sp, "with time zone" + rest);
    WithTimeZoneWords(sp, rest);
    Regroup4("timestamp", sp, "with time zone", rest);
    TimestampTzOf(lex, tail, 0, |sp| + 14);
  }

  /** What follows `timestamp` in `timestamp (n) with time zone`. */
  lemma {:induction false} PrecisionWithTail(sp0: seq<char>, n: nat, sp: seq<char>, rest: seq<char>)
    requires Blanks(sp0) && 0 < |sp| && Blanks(sp)
    ensures var p := PrecisionTail(sp0, n); var tail := p + (sp + ("with time zone" + rest));
      NotLetter(tail) && |p| <= |tail| && OptTimestampPrecision(tail) == |p| &&
      SpacedPhrase(["with", "time", "zone"], tail[|p|..]) == Done((), |sp| + 14)
  {
    PrecisionTailRead(sp0, n, sp + ("with time zone" + rest));
    WithTimeZoneWords(sp, rest);
  }

  /**
   * `timestamp (5)    with time zone` is `TimestampTz`, consuming the
   * whole input (common.rs:2025-2032), for any blanks and any precision.
   */
  lemma {:induction false} TimestampTzPrecisionTest(lex: Lexicon, sp0: seq<char>, n: nat, sp: seq<char>, rest: seq<char>)
    requires Blanks(sp0) && 0 < |sp| && Blanks(sp)
    ensures var p := PrecisionTail(sp0, n);
      TypeIdentifier(lex, "timestamp" + p + sp + "with time zone" + rest) == Done(TimestampTz, 23 + |p| + |sp|)
  {
    var p := PrecisionTail(sp0, n);
    var tail := p + (sp + ("with time zone" + rest));
    PrecisionWithTail(sp0, n, sp, rest);
    Regroup("timestamp", p, sp, "with time zone", rest);
    TimestampTzOf(lex, tail, |p|, |sp| + 14);
  }

  // ---------------------------------------------------------------------
  // DECIMAL (common.rs:899-911, 1047)

  /** `decimal` with nothing after it that begins a precision. */
  lemma {:induction false} DecimalArmDefault(head: seq<char>, rest: seq<char>)
    requires SameWord(head, "decimal") && Delim(rest)
    ensures DecimalOrNumeric(head + rest) == Done(Decimal(32, 0), 7)
  {
    SameWordOpens(head, "decimal", rest);
    DecimalOn(head + rest, rest);
    DelimNoPrecision(rest);
    DelimRest(rest);
  }

  /** `decimal(m)` and `decimal(m, d)`. */
  lemma {:induction false} DecimalArmPrecision(head: seq<char>, m: u8, d: Option<u8>, rest: seq<char>)
    requires SameWord(head, "decimal") && Delim(rest)
    ensures DecimalOrNumeric(head + (PrecisionText(m, d) + rest))
      == Done(Decimal(m, if d.Some? then d.value else 0), 7 + |PrecisionText(m, d)|)
  {
    var t := PrecisionText(m, d) + rest;
    SameWordOpens(head, "decimal", t);
    DecimalOn(head + t, t);
    DecimalTailPrecision(m, d, rest);
  }

  /** A precision that does not fit a `u8` is not read: `opt(precision)` gives up. */
  lemma {:induction false} DecimalArmOverflow(head: seq<char>, m: nat, rest: seq<char>)
    requires SameWord(head, "decimal") && 0x100 <= m
    ensures DecimalOrNumeric(head + ("(" + NatText(m) + ")" + rest)) == Done(Decimal(32, 0), 7)
  {
    var t := "(" + NatText(m) + ")" + rest;
    SameWordOpens(head, "decimal", t);
    DecimalOn(head + t, t);
    PrecisionOverflow(m, rest);
    DecimalTailNone(t);
  }

  /** Nor is a scale that does not fit a `u8`. */
  lemma {:induction false} DecimalArmScaleOverflow(head: seq<char>, m: u8, d: nat, rest: seq<char>)
    requires SameWord(head, "decimal") && 0x100 <= d
    ensures DecimalOrNumeric(head + ("(" + NatText(m) + ", " + NatText(d) + ")" + rest)) == Done(Decimal(32, 0), 7)
  {
    var t := "(" + NatText(m) + ", " + NatText(d) + ")" + rest;
    SameWordOpens(head, "decimal", t);
    DecimalOn(head + t, t);
    PrecisionScaleOverflow(m, d, rest);
    DecimalTailNone(t);
  }

  /** A parenthesis that does not open a precision leaves the tail unread. */
  lemma {:induction false} DecimalTailNone(t: seq<char>)
    requires At(t, '(') && Precision(t).Fail?
    ensures DecimalTail(t) == (Decimal(32, 0), 0)
  {
    assert Whitespace0(t) == 0 by { assert t[0] == '('; }
  }

  /** What the `decimal` alternative reads, `type_identifier` reads: no keyword before it matches. */
  lemma {:induction false} DecimalOf(lex: Lexicon, head: seq<char>, tail: seq<char>, t: SqlType, n: nat)
    requires SameWord(head, "decimal") && NotLetter(tail)
    requires DecimalOrNumeric(head + tail) == Done(t, n)
    ensures TypeIdentifier(lex, head + tail) == Done(t, n)
  {
    assert FirstBlockedBefore(head, 18) by {
      DecimalWordPassesFirstHalf();
      SameWordFirstBlocked(head, "decimal", 18);
    }
    assert SecondBlockedBefore(head, 1) by {
      DecimalWordBlocksSecond1();
      SameWordSecondBlocked(head, "decimal", 1);
    }
    SecondIsDecimalArm();
    assert DecimalArm(head + tail) == DecimalOrNumeric(head + tail);
    SecondWins(lex, 1, head, tail);
  }

  /** `decimal` alone is `Decimal(32, 0)`. */
  lemma {:induction false} DecimalDefault(lex: Lexicon, head: seq<char>, rest: seq<char>)
    requires SameWord(head, "decimal") && Delim(rest)
    ensures TypeIdentifier(lex, head + rest) == Done(Decimal(32, 0), 7)
  {
    DecimalArmDefault(head, rest);
    DelimRest(rest);
    DecimalOf(lex, head, rest, Decimal(32, 0), 7);
  }

  /** `decimal(m)` is `Decimal(m, 0)` and `decimal(m, d)` is `Decimal(m, d)`, each read whole. */
  lemma {:induction false} DecimalWithPrecision(lex: Lexicon, head: seq<char>, m: u8, d: Option<u8>, rest: seq<char>)
    requires SameWord(head, "decimal") && Delim(rest)
    ensures d.None? ==> TypeIdentifier(lex, head + PrecisionText(m, d) + rest) == Done(Decimal(m, 0), 7 + |PrecisionText(m, d)|)
    ensures d.Some? ==> TypeIdentifier(lex, head + PrecisionText(m, d) + rest) == Done(Decimal(m, d.value), 7 + |PrecisionText(m, d)|)
  {
    var tail := PrecisionText(m, d) + rest;
    DecimalArmPrecision(head, m, d, rest);
    PrecisionTextOpens(m, d, rest);
    Assoc3(head, PrecisionText(m, d), rest);
    DecimalOf(lex, head, tail, Decimal(m, if d.Some? then d.value else 0), 7 + |PrecisionText(m, d)|);
  }

  /**
   * `decimal(m)` with `m` too large for a `u8` is still `Decimal(32, 0)`:
   * only the keyword is read, and `(m)` is left for the caller.
   */
  lemma {:induction false} DecimalOverflow(lex: Lexicon, head: seq<char>, m: nat, rest: seq<char>)
    requires SameWord(head, "decimal") && 0x100 <= m
    ensures TypeIdentifier(lex, head + ("(" + NatText(m) + ")" + rest)) == Done(Decimal(32, 0), 7)
  {
    var tail := "(" + NatText(m) + ")" + rest;
    DecimalArmOverflow(head, m, rest);
    assert NotLetter(tail) by { assert tail[0] == '('; }
    DecimalOf(lex, head, tail, Decimal(32, 0), 7);
  }

  /** The same for a scale too large for a `u8`. */
  lemma {:induction false} DecimalScaleOverflow(lex: Lexicon, head: seq<char>, m: u8, d: nat, rest: seq<char>)
    requires SameWord(head, "decimal") && 0x100 <= d
    ensures TypeIdentifier(lex, head + ("(" + NatText(m) + ", " + NatText(d) + ")" + rest)) == Done(Decimal(32, 0), 7)
  {
    var tail := "(" + NatText(m) + ", " + NatText(d) + ")" + rest;
    DecimalArmScaleOverflow(head, m, d, rest);
    assert NotLetter(tail) by { assert tail[0] == '('; }
    DecimalOf(lex, head, tail, Decimal(32, 0), 7);
  }

  // ---------------------------------------------------------------------
  // NUMERIC (common.rs:955-958, 901)

  /** `numeric` with nothing after it that begins a precision. */
  lemma {:induction false} NumericArmPlain(head: seq<char>, rest: seq<char>)
    requires SameWord(head, "numeric") && Delim(rest)
    ensures NumericType(head + rest) == Done(Numeric(None), 7)
  {
    SameWordOpens(head, "numeric", rest);
    DelimNoPrecision(rest);
    DelimRest(rest);
  }

  /** `numeric(p)` and `numeric(p, s)`. */
  lemma {:induction false} NumericArmPrecision(head: seq<char>, p: u16, sc: Option<u8>, rest: seq<char>)
    requires SameWord(head, "numeric")
    ensures NumericType(head + (PrecisionText(p, sc) + rest)) == Done(Numeric(Some((p, sc))), 7 + |PrecisionText(p, sc)|)
  {
    var t := PrecisionText(p, sc) + rest;
    SameWordOpens(head, "numeric", t);
    assert Whitespace0(t) == 0 by { assert t[0] == '('; }
    NumericPrecisionRoundTrip(p, sc, rest);
    assert Opt(NumericPrecision(t)) == (Some((p, sc)), |PrecisionText(p, sc)|);
  }

  /** A precision too large for a `u16` is not read: `opt(numeric_precision)` gives up. */
  lemma {:induction false} NumericArmOverflow(head: seq<char>, p: nat, rest: seq<char>)
    requires SameWord(head, "numeric") && 0x1_0000 <= p
    ensures NumericType(head + ("(" + NatText(p) + ")" + rest)) == Done(Numeric(None), 7)
  {
    var t := "(" + NatText(p) + ")" + rest;
    SameWordOpens(head, "numeric", t);
    assert Whitespace0(t) == 0 by { assert t[0] == '('; }
    NumericPrecisionOverflow(p, rest);
    assert Opt(NumericPrecision(t)) == (None, 0);
  }

  /** What the `numeric` alternative reads, `type_identifier` reads. */
  lemma {:induction false} NumericOf(lex: Lexicon, head: seq<char>, tail: seq<char>, t: SqlType, n: nat)
    requires SameWord(head, "numeric") && NotLetter(tail)
    requires NumericType(head + tail) == Done(t, n)
    ensures TypeIdentifier(lex, head + tail) == Done(t, n)
  {
    assert FirstBlockedBefore(head, 9) by {
      NumericWordBlocksFirst9();
      SameWordFirstBlocked(head, "numeric", 9);
    }
    FirstIsNumericArm(lex);
    assert NumericArm(head + tail) == NumericType(head + tail);
    FirstWins(lex, 9, head, tail);
  }

  /**
   * `numeric` is tried in the first half, so the `numeric` keyword of
   * `decimal_or_numeric` in the second half is never reached: the result is
   * a `Numeric`, where that alternative would have made a `Decimal`.
   */
  lemma {:induction false} NumericShadowsDecimal(lex: Lexicon, head: seq<char>, tail: seq<char>)
    requires SameWord(head, "numeric") && NotLetter(tail)
    ensures TypeIdentifier(lex, head + tail) == NumericType(head + tail)
    ensures TypeIdentifier(lex, head + tail).Done? && TypeIdentifier(lex, head + tail).value.Numeric?
    ensures DecimalOrNumeric(head + tail).Done? && DecimalOrNumeric(head + tail).value.Decimal?
  {
    SameWordOpens(head, "numeric", tail);
    var r := NumericType(head + tail);
    NumericOf(lex, head, tail, r.value, r.used);
  }

  /** `numeric` alone is `Numeric(None)`. */
  lemma {:induction false} NumericPlain(lex: Lexicon, head: seq<char>, rest: seq<char>)
    requires SameWord(head, "numeric") && Delim(rest)
    ensures TypeIdentifier(lex, head + rest) == Done(Numeric(None), 7)
  {
    NumericArmPlain(head, rest);
    DelimRest(rest);
    NumericOf(lex, head, rest, Numeric(None), 7);
  }

  /** `numeric(p)` is `Numeric(Some((p, None)))` and `numeric(p, s)` is `Numeric(Some((p, Some(s))))`, each read whole. */
  lemma {:induction false} NumericWithPrecision(lex: Lexicon, head: seq<char>, p: u16, sc: Option<u8>, rest: seq<char>)
    requires SameWord(head, "numeric")
    ensures TypeIdentifier(lex, head + PrecisionText(p, sc) + rest) == Done(Numeric(Some((p, sc))), 7 + |PrecisionText(p, sc)|)
  {
    var tail := PrecisionText(p, sc) + rest;
    NumericArmPrecision(head, p, sc, rest);
    assert NotLetter(tail) by { assert tail[0] == '('; }
    assert head + PrecisionText(p, sc) + rest == head + tail;
    NumericOf(lex, head, tail, Numeric(Some((p, sc))), 7 + |PrecisionText(p, sc)|);
  }

  /** `numeric(p)` with `p` too large for a `u16` is `Numeric(None)`, and `(p)` is left unread. */
  lemma {:induction false} NumericOverflow(lex: Lexicon, head: seq<char>, p: nat, rest: seq<char>)
    requires SameWord(head, "numeric") && 0x1_0000 <= p
    ensures TypeIdentifier(lex, head + ("(" + NatText(p) + ")" + rest)) == Done(Numeric(None), 7)
  {
    var tail := "(" + NatText(p) + ")" + rest;
    NumericArmOverflow(head, p, rest);
    assert NotLetter(tail) by { assert tail[0] == '('; }
    NumericOf(lex, head, tail, Numeric(None), 7);
  }

  /** `NUMERIC` is `Numeric(None)` (common.rs:1908-1914). */
  lemma {:induction false} NumericTest(lex: Lexicon)
    ensures TypeIdentifier(lex, "NUMERIC") == Done(Numeric(None), 7)
  {
    assert "NUMERIC" == "NUMERIC" + "";
    NumericPlain(lex, "NUMERIC", "");
  }

  /** `NUMERIC(10)` is `Numeric(Some((10, None)))` (common.rs:1916-1922). */
  lemma {:induction false} NumericPrecisionTest(lex: Lexicon)
    ensures TypeIdentifier(lex, "NUMERIC(10)") == Done(Numeric(Some((10, None))), 11)
  {
    assert PrecisionText(10, None) == "(10)" by { assert NatText(10) == "10"; }
    assert "NUMERIC(10)" == "NUMERIC" + PrecisionText(10, None) + "";
    NumericWithPrecision(lex, "NUMERIC", 10, None, "");
  }

  /** `NUMERIC(10, 20)` is `Numeric(Some((10, Some(20))))` (common.rs:1924-1930). */
  lemma {:induction false} NumericScaleTest(lex: Lexicon)
    ensures TypeIdentifier(lex, "NUMERIC(10, 20)") == Done(Numeric(Some((10, Some(20)))), 15)
  {
    assert PrecisionText(10, Some(20)) == "(10, 20)" by {
      assert NatText(10) == "10";
      assert NatText(20) == "20";
    }
    assert "NUMERIC(10, 20)" == "NUMERIC" + PrecisionText(10, Some(20)) + "";
    NumericWithPrecision(lex, "NUMERIC", 10, Some(20), "");
  }

  // ---------------------------------------------------------------------
  // jsonb before json (common.rs:1069-1070)

  /** `json` on a head word in any case. */
  lemma {:induction false} JsonWord(lex: Lexicon, head: seq<char>, rest: seq<char>)
    requires SameWord(head, "json") && Delim(rest)
    ensures TypeIdentifier(lex, head + rest) == Done(Json, 4)
  {
    SameWordOpens(head, "json", rest);
    assert FirstBlockedBefore(head, 18) by {
      JsonWordPassesFirstHalf();
      SameWordFirstBlocked(head, "json", 18);
    }
    assert SecondBlockedBefore(head, 16) by {
      JsonWordBlocksSecond16();
      SameWordSecondBlocked(head, "json", 16);
    }
    DelimRest(rest);
    SecondIsJsonArm();
    SecondWins(lex, 16, head, rest);
  }

  /**
   * `jsonb` is tried before `json`: `JSONB` is read whole as `Jsonb`,
   * where `json`, which also matches, would leave the `b`.
   */
  lemma {:induction false} JsonbBeforeJson(lex: Lexicon, head: seq<char>, rest: seq<char>)
    requires SameWord(head, "jsonb") && Delim(rest)
    ensures TypeIdentifier(lex, head + rest) == Done(Jsonb, 5)
    ensures KeywordType("json", Json, head + rest) == Done(Json, 4)
  {
    SameWordOpens(head, "jsonb", rest);
    assert FirstBlockedBefore(head, 18) by {
      JsonbWordPassesFirstHalf();
      SameWordFirstBlocked(head, "jsonb", 18);
    }
    assert SecondBlockedBefore(head, 15) by {
      JsonbWordBlocksSecond15();
      SameWordSecondBlocked(head, "jsonb", 15);
    }
    DelimRest(rest);
    SecondIsJsonbArm();
    SecondWins(lex, 15, head, rest);
  }

  /** `json` is `Json`, consuming the whole input (common.rs:1950-1954). */
  lemma {:induction false} JsonTest(lex: Lexicon)
    ensures TypeIdentifier(lex, "json") == Done(Json, 4)
  {
    assert "json" == "json" + "";
    JsonWord(lex, "json", "");
  }

  /** `jsonb` is `Jsonb`, consuming the whole input (common.rs:1956-1960). */
  lemma {:induction false} JsonbTest(lex: Lexicon)
    ensures TypeIdentifier(lex, "jsonb") == Done(Jsonb, 5)
  {
    assert "jsonb" == "jsonb" + "";
    JsonbBeforeJson(lex, "jsonb", "");
  }

  // ---------------------------------------------------------------------
  // varbit and bit varying before bit (common.rs:1071-1093)

  /** The words `bit varying`, any blanks between them, in any case. */
  lemma {:induction false} BitVaryingWords(head: seq<char>, sp: seq<char>, w: seq<char>, rest: seq<char>)
    requires SameWord(head, "bit") && 0 < |sp| && Blanks(sp) && |w| == 7 && KwPrefix(w, "varying")
    ensures Phrase(["bit", "varying"], head + (sp + (w + rest))) == Done((), 3 + |sp| + 7)
  {
    var v := w + rest;
    var s := head + (sp + v);
    SameWordOpens(head, "bit", sp + v);
    assert IsAlpha(v[0]) by { MatchFromAll(w, "varying", 0); assert Lower(v[0]) == 'v'; }
    BlanksSkipped(sp, v);
    KwOpens(w, rest, "varying");
    PhraseOne("varying", v);
    assert s[3 + |sp|..] == v;
    TailOfTwo("bit", "varying");
    PhraseStep(["bit", "varying"], ["varying"], s, |sp|, 7);
  }

  /** `varbit_word` reads `bit varying` and no blank after it when a length or a delimiter follows. */
  lemma {:induction false} BitVaryingWord(head: seq<char>, sp: seq<char>, len: Option<u16>, rest: seq<char>)
    requires SameWord(head, "bit") && 0 < |sp| && Blanks(sp) && Delim(rest)
    ensures var s := head + (sp + ("varying" + (LenText(len) + rest)));
      VarbitWord(s) == Done((), 10 + |sp|) && s[10 + |sp|..] == LenText(len) + rest
  {
    var u := LenText(len) + rest;
    var s := head + (sp + ("varying" + u));
    BitVaryingWords(head, sp, "varying", u);
    assert !StartsNoCase(s, "varbit") by { assert Lower(s[0]) == 'b'; }
    assert s[10 + |sp|..] == u;
    assert Whitespace0(u) == 0 by {
      DelimRest(rest);
      if len.Some? { assert u[0] == '('; }
    }
  }

  /** `bit varying(n)` read by the `varbit` alternative. */
  lemma {:induction false} BitVaryingVarbitArm(head: seq<char>, sp: seq<char>, len: Option<u16>, rest: seq<char>)
    requires SameWord(head, "bit") && 0 < |sp| && Blanks(sp) && Delim(rest)
    ensures VarbitType(head + (sp + ("varying" + (LenText(len) + rest)))) == Done(Varbit(len), 10 + |sp| + |LenText(len)|)
  {
    var s := head + (sp + ("varying" + (LenText(len) + rest)));
    BitVaryingWord(head, sp, len, rest);
    DelimRest(rest);
    LenReadAt(len, rest, s[10 + |sp|..]);
    VarbitTypeAt(s, 10 + |sp|, len, |LenText(len)|);
  }

  lemma {:induction false} VarbitTypeAt(s: seq<char>, a: nat, len: Option<u16>, b: nat)
    requires VarbitWord(s) == Done((), a) && OptLen(s[a..]) == (len, b)
    ensures VarbitType(s) == Done(Varbit(len), a + b)
  {
  }

  /** `bit varying(n)` read by the `bit` alternative: three letters and no length. */
  lemma {:induction false} BitVaryingBitArm(head: seq<char>, sp: seq<char>, len: Option<u16>, rest: seq<char>)
    requires SameWord(head, "bit") && 0 < |sp| && Blanks(sp)
    ensures BitType(head + (sp + ("varying" + (LenText(len) + rest)))) == Done(Bit(None), 3)
  {
    var tail := sp + ("varying" + (LenText(len) + rest));
    SameWordOpens(head, "bit", tail);
    assert OptLen(tail) == (None, 0) by { assert tail[0] == ' '; }
  }

  /**
   * `varbit` and `bit varying` are tried before `bit`: `bit varying(n)` is
   * `Varbit(n)`, read whole, where `bit`, which also matches, would read
   * three letters and give `Bit(None)`.
   */
  lemma {:induction false} BitVaryingBeforeBit(lex: Lexicon, head: seq<char>, sp: seq<char>, len: Option<u16>, rest: seq<char>)
    requires SameWord(head, "bit") && 0 < |sp| && Blanks(sp) && Delim(rest)
    ensures var s := head + (sp + ("varying" + (LenText(len) + rest)));
      TypeIdentifier(lex, s) == Done(Varbit(len), 10 + |sp| + |LenText(len)|) && BitType(s) == Done(Bit(None), 3)
  {
    var tail := sp + ("varying" + (LenText(len) + rest));
    BitVaryingVarbitArm(head, sp, len, rest);
    BitVaryingBitArm(head, sp, len, rest);
    assert FirstBlockedBefore(head, 18) by {
      BitWordPassesFirstHalf();
      SameWordFirstBlocked(head, "bit", 18);
    }
    assert SecondBlockedBefore(head, 17) by {
      BitWordBlocksSecond17();
      SameWordSecondBlocked(head, "bit", 17);
    }
    assert NotLetter(tail) by { assert tail[0] == ' '; }
    SecondIsVarbitArm();
    SecondWins(lex, 17, head, tail);
  }

  /** `bit(n)` and `bit` alone: `bit varying` does not match and `bit` is read with its length. */
  lemma {:induction false} BitArmsOn(head: seq<char>, len: Option<u16>, rest: seq<char>)
    requires SameWord(head, "bit") && Delim(rest)
    ensures var s := head + (LenText(len) + rest);
      VarbitType(s).Fail? && BitType(s) == Done(Bit(len), 3 + |LenText(len)|)
  {
    var tail := LenText(len) + rest;
    var s := head + tail;
    SameWordOpens(head, "bit", tail);
    assert !StartsNoCase(s, "varbit") by { assert Lower(s[0]) == 'b'; }
    DelimRest(rest);
    LenRead(len, rest);
    assert Whitespace1(tail).Fail? by {
      if len.Some? { assert tail[0] == '('; }
    }
    var words := ["bit", "varying"];
    assert words[0] == "bit" && |words| == 2;
  }

  /** `bit` with an optional length is `Bit(len)`, read whole. */
  lemma {:induction false} BitWord(lex: Lexicon, head: seq<char>, len: Option<u16>, rest: seq<char>)
    requires SameWord(head, "bit") && Delim(rest)
    ensures TypeIdentifier(lex, head + (LenText(len) + rest)) == Done(Bit(len), 3 + |LenText(len)|)
  {
    var tail := LenText(len) + rest;
    BitArmsOn(head, len, rest);
    assert FirstBlockedBefore(head, 18) by {
      BitWordPassesFirstHalf();
      SameWordFirstBlocked(head, "bit", 18);
    }
    assert SecondBlockedBefore(head, 17) by {
      BitWordBlocksSecond17();
      SameWordSecondBlocked(head, "bit", 17);
    }
    assert NotLetter(tail) by {
      DelimRest(rest);
      LenRead(len, rest);
    }
    SecondIsVarbitArm();
    SecondIsBitArm();
    SecondWinsPast(lex, 18, head, tail);
  }

  /** `bit` is `Bit(None)`, consuming the whole input (common.rs:1962-1966). */
  lemma {:induction false} BitTest(lex: Lexicon)
    ensures TypeIdentifier(lex, "bit") == Done(Bit(None), 3)
  {
    assert "bit" == "bit" + (LenText(None) + "");
    BitWord(lex, "bit", None, "");
  }

  /** `bit(10)` is `Bit(Some(10))`, consuming the whole input (common.rs:1968-1972). */
  lemma {:induction false} BitLengthTest(lex: Lexicon)
    ensures TypeIdentifier(lex, "bit(10)") == Done(Bit(Some(10)), 7)
  {
    assert NatText(10) == "10";
    assert "bit(10)" == "bit" + (LenText(Some(10)) + "");
    BitWord(lex, "bit", Some(10), "");
  }

  /** `bit varying` is `Varbit(None)`, consuming the whole input (common.rs:1974-1978). */
  lemma {:induction false} BitVaryingTest(lex: Lexicon)
    ensures TypeIdentifier(lex, "bit varying") == Done(Varbit(None), 11)
  {
    assert "bit varying" == "bit" + (" " + ("varying" + (LenText(None) + "")));
    BitVaryingBeforeBit(lex, "bit", " ", None, "");
  }

  /** `bit varying(10)` is `Varbit(Some(10))`, consuming the whole input (common.rs:1980-1984). */
  lemma {:induction false} BitVaryingLengthTest(lex: Lexicon)
    ensures TypeIdentifier(lex, "bit varying(10)") == Done(Varbit(Some(10)), 15)
  {
    assert NatText(10) == "10";
    assert "bit varying(10)" == "bit" + (" " + ("varying" + (LenText(Some(10)) + "")));
    BitVaryingBeforeBit(lex, "bit", " ", Some(10), "");
  }

  // ---------------------------------------------------------------------
  // Keywords before their alternatives, lower case

  /** `integer` is no keyword of the first half's alternatives before number 2. */
  lemma {:induction false} IntegerWordBlocksFirst2()
    ensures FirstBlockedBefore("integer", 2)
  {
    forall i | 0 <= i < 2 ensures BlocksFrom("integer", FirstKeywords(i), 0) {
      if i == 0 {
        assert DiffersAt("integer", "tinyint", 0);
      } else {
        assert DiffersAt("integer", "smallint", 0);
      }
    }
  }

  /** `boolean` is no keyword of the first half's alternatives before number 5. */
  lemma {:induction false} BooleanWordBlocksFirst5()
    ensures FirstBlockedBefore("boolean", 5)
  {
    forall i | 0 <= i < 5 ensures BlocksFrom("boolean", FirstKeywords(i), 0) {
      if i == 0 {
        assert DiffersAt("boolean", "tinyint", 0);
      } else if i == 1 {
        assert DiffersAt("boolean", "smallint", 0);
      } else if i == 2 {
        assert DiffersAt("boolean", "integer", 0);
      } else if i == 3 {
        assert DiffersAt("boolean", "int", 0);
      } else {
        assert DiffersAt("boolean", "bigint", 1);
      }
    }
  }

  /** `bool` is no keyword of the first half's alternatives before number 5. */
  lemma {:induction false} BoolWordBlocksFirst5()
    ensures FirstBlockedBefore("bool", 5)
  {
    forall i | 0 <= i < 5 ensures BlocksFrom("bool", FirstKeywords(i), 0) {
      if i == 0 {
        assert DiffersAt("bool", "tinyint", 0);
      } else if i == 1 {
        assert DiffersAt("bool", "smallint", 0);
      } else if i == 2 {
        assert DiffersAt("bool", "integer", 0);
      } else if i == 3 {
        assert DiffersAt("bool", "int", 0);
      } else {
        assert DiffersAt("bool", "bigint", 1);
      }
    }
  }

  /** `datetime` is no keyword of the first half's alternatives before number 6. */
  lemma {:induction false} DatetimeWordBlocksFirst6()
    ensures FirstBlockedBefore("datetime", 6)
  {
    forall i | 0 <= i < 6 ensures BlocksFrom("datetime", FirstKeywords(i), 0) {
      if i == 0 {
        assert DiffersAt("datetime", "tinyint", 0);
      } else if i == 1 {
        assert DiffersAt("datetime", "smallint", 0);
      } else if i == 2 {
        assert DiffersAt("datetime", "integer", 0);
      } else if i == 3 {
        assert DiffersAt("datetime", "int", 0);
      } else if i == 4 {
        assert DiffersAt("datetime", "bigint", 0);
      } else {
        assert DiffersAt("datetime", "boolean", 0);
        assert DiffersAt("datetime", "bool", 0);
      }
    }
  }

  /** `numeric` is no keyword of the first half's alternatives before number 9. */
  lemma {:induction false} NumericWordBlocksFirst9()
    ensures FirstBlockedBefore("numeric", 9)
  {
    forall i | 0 <= i < 9 ensures BlocksFrom("numeric", FirstKeywords(i), 0) {
      if i == 0 {
        assert DiffersAt("numeric", "tinyint", 0);
      } else if i == 1 {
        assert DiffersAt("numeric", "smallint", 0);
      } else if i == 2 {
        assert DiffersAt("numeric", "integer", 0);
      } else if i == 3 {
        assert DiffersAt("numeric", "int", 0);
      } else if i == 4 {
        assert DiffersAt("numeric", "bigint", 0);
      } else if i == 5 {
        assert DiffersAt("numeric", "boolean", 0);
        assert DiffersAt("numeric", "bool", 0);
      } else if i == 6 {
        assert DiffersAt("numeric", "datetime", 0);
      } else if i == 7 {
        assert DiffersAt("numeric", "date", 0);
      } else {
        assert DiffersAt("numeric", "double", 0);
      }
    }
  }

  /** `timestamp` is no keyword of the first half's alternatives before number 14. */
  lemma {:induction false} TimestampWordBlocksFirst14()
    ensures FirstBlockedBefore("timestamp", 14)
  {
    forall i | 0 <= i < 14 ensures BlocksFrom("timestamp", FirstKeywords(i), 0) {
      if i == 0 {
        assert DiffersAt("timestamp", "tinyint", 2);
      } else if i == 1 {
        assert DiffersAt("timestamp", "smallint", 0);
      } else if i == 2 {
        assert DiffersAt("timestamp", "integer", 0);
      } else if i == 3 {
        assert DiffersAt("timestamp", "int", 0);
      } else if i == 4 {
        assert DiffersAt("timestamp", "bigint", 0);
      } else if i == 5 {
        assert DiffersAt("timestamp", "boolean", 0);
        assert DiffersAt("timestamp", "bool", 0);
      } else if i == 6 {
        assert DiffersAt("timestamp", "datetime", 0);
      } else if i == 7 {
        assert DiffersAt("timestamp", "date", 0);
      } else if i == 8 {
        assert DiffersAt("timestamp", "double", 0);
      } else if i == 9 {
        assert DiffersAt("timestamp", "numeric", 0);
      } else if i == 10 {
        assert DiffersAt("timestamp", "enum", 0);
      } else if i == 11 {
        assert DiffersAt("timestamp", "float", 0);
      } else if i == 12 {
        assert DiffersAt("timestamp", "real", 0);
      } else {
        assert DiffersAt("timestamp", "text", 1);
      }
    }
  }

  /** `character` is no keyword of the first half's alternatives before number 16. */
  lemma {:induction false} CharacterWordBlocksFirst16()
    ensures FirstBlockedBefore("character", 16)
  {
    forall i | 0 <= i < 16 ensures BlocksFrom("character", FirstKeywords(i), 0) {
      if i == 0 {
        assert DiffersAt("character", "tinyint", 0);
      } else if i == 1 {
        assert DiffersAt("character", "smallint", 0);
      } else if i == 2 {
        assert DiffersAt("character", "integer", 0);
      } else if i == 3 {
        assert DiffersAt("character", "int", 0);
      } else if i == 4 {
        assert DiffersAt("character", "bigint", 0);
      } else if i == 5 {
        assert DiffersAt("character", "boolean", 0);
        assert DiffersAt("character", "bool", 0);
      } else if i == 6 {
        assert DiffersAt("character", "datetime", 0);
      } else if i == 7 {
        assert DiffersAt("character", "date", 0);
      } else if i == 8 {
        assert DiffersAt("character", "double", 0);
      } else if i == 9 {
        assert DiffersAt("character", "numeric", 0);
      } else if i == 10 {
        assert DiffersAt("character", "enum", 0);
      } else if i == 11 {
        assert DiffersAt("character", "float", 0);
      } else if i == 12 {
        assert DiffersAt("character", "real", 0);
      } else if i == 13 {
        assert DiffersAt("character", "text", 0);
      } else if i == 14 {
        assert DiffersAt("character", "timestamp", 0);
      } else {
        assert DiffersAt("character", "timestamp", 0);
      }
    }
  }

  /** `varchar` is no keyword of the first half's alternatives before number 16. */
  lemma {:induction false} VarcharWordBlocksFirst16()
    ensures FirstBlockedBefore("varchar", 16)
  {
    forall i | 0 <= i < 16 ensures BlocksFrom("varchar", FirstKeywords(i), 0) {
      if i == 0 {
        assert DiffersAt("varchar", "tinyint", 0);
      } else if i == 1 {
        assert DiffersAt("varchar", "smallint", 0);
      } else if i == 2 {
        assert DiffersAt("varchar", "integer", 0);
      } else if i == 3 {
        assert DiffersAt("varchar", "int", 0);
      } else if i == 4 {
        assert DiffersAt("varchar", "bigint", 0);
      } else if i == 5 {
        assert DiffersAt("varchar", "boolean", 0);
        assert DiffersAt("varchar", "bool", 0);
      } else if i == 6 {
        assert DiffersAt("varchar", "datetime", 0);
      } else if i == 7 {
        assert DiffersAt("varchar", "date", 0);
      } else if i == 8 {
        assert DiffersAt("varchar", "double", 0);
      } else if i == 9 {
        assert DiffersAt("varchar", "numeric", 0);
      } else if i == 10 {
        assert DiffersAt("varchar", "enum", 0);
      } else if i == 11 {
        assert DiffersAt("varchar", "float", 0);
      } else if i == 12 {
        assert DiffersAt("varchar", "real", 0);
      } else if i == 13 {
        assert DiffersAt("varchar", "text", 0);
      } else if i == 14 {
        assert DiffersAt("varchar", "timestamp", 0);
      } else {
        assert DiffersAt("varchar", "timestamp", 0);
      }
    }
  }

  /** `time` is no keyword of the first half of `type_identifier`. */
  lemma {:induction false} TimeWordPassesFirstHalf()
    ensures FirstBlockedBefore("time", 18)
  {
    forall i | 0 <= i < 18 ensures BlocksFrom("time", FirstKeywords(i), 0) {
      if i == 0 {
        assert DiffersAt("time", "tinyint", 2);
      } else if i == 1 {
        assert DiffersAt("time", "smallint", 0);
      } else if i == 2 {
        assert DiffersAt("time", "integer", 0);
      } else if i == 3 {
        assert DiffersAt("time", "int", 0);
      } else if i == 4 {
        assert DiffersAt("time", "bigint", 0);
      } else if i == 5 {
        assert DiffersAt("time", "boolean", 0);
        assert DiffersAt("time", "bool", 0);
      } else if i == 6 {
        assert DiffersAt("time", "datetime", 0);
      } else if i == 7 {
        assert DiffersAt("time", "date", 0);
      } else if i == 8 {
        assert DiffersAt("time", "double", 0);
      } else if i == 9 {
        assert DiffersAt("time", "numeric", 0);
      } else if i == 10 {
        assert DiffersAt("time", "enum", 0);
      } else if i == 11 {
        assert DiffersAt("time", "float", 0);
      } else if i == 12 {
        assert DiffersAt("time", "real", 0);
      } else if i == 13 {
        assert DiffersAt("time", "text", 1);
      } else if i == 14 {
        // each keyword runs on past the head word with a letter
      } else if i == 15 {
        // each keyword runs on past the head word with a letter
      } else if i == 16 {
        assert DiffersAt("time", "varchar", 0);
        assert DiffersAt("time", "character", 0);
      } else {
        assert DiffersAt("time", "char", 0);
      }
    }
  }

  /** `decimal` is no keyword of the first half of `type_identifier`. */
  lemma {:induction false} DecimalWordPassesFirstHalf()
    ensures FirstBlockedBefore("decimal", 18)
  {
    forall i | 0 <= i < 18 ensures BlocksFrom("decimal", FirstKeywords(i), 0) {
      if i == 0 {
        assert DiffersAt("decimal", "tinyint", 0);
      } else if i == 1 {
        assert DiffersAt("decimal", "smallint", 0);
      } else if i == 2 {
        assert DiffersAt("decimal", "integer", 0);
      } else if i == 3 {
        assert DiffersAt("decimal", "int", 0);
      } else if i == 4 {
        assert DiffersAt("decimal", "bigint", 0);
      } else if i == 5 {
        assert DiffersAt("decimal", "boolean", 0);
        assert DiffersAt("decimal", "bool", 0);
      } else if i == 6 {
        assert DiffersAt("decimal", "datetime", 1);
      } else if i == 7 {
        assert DiffersAt("decimal", "date", 1);
      } else if i == 8 {
        assert DiffersAt("decimal", "double", 1);
      } else if i == 9 {
        assert DiffersAt("decimal", "numeric", 0);
      } else if i == 10 {
        assert DiffersAt("decimal", "enum", 0);
      } else if i == 11 {
        assert DiffersAt("decimal", "float", 0);
      } else if i == 12 {
        assert DiffersAt("decimal", "real", 0);
      } else if i == 13 {
        assert DiffersAt("decimal", "text", 0);
      } else if i == 14 {
        assert DiffersAt("decimal", "timestamp", 0);
      } else if i == 15 {
        assert DiffersAt("decimal", "timestamp", 0);
      } else if i == 16 {
        assert DiffersAt("decimal", "varchar", 0);
        assert DiffersAt("decimal", "character", 0);
      } else {
        assert DiffersAt("decimal", "char", 0);
      }
    }
  }

  /** `decimal` is no keyword of the second half's alternatives before number 1. */
  lemma {:induction false} DecimalWordBlocksSecond1()
    ensures SecondBlockedBefore("decimal", 1)
  {
    forall i | 0 <= i < 1 ensures BlocksFrom("decimal", SecondKeywords(i), 0) {
      assert DiffersAt("decimal", "time", 0);
    }
  }

  /** `bit` is no keyword of the first half of `type_identifier`. */
  lemma {:induction false} BitWordPassesFirstHalf()
    ensures FirstBlockedBefore("bit", 18)
  {
    forall i | 0 <= i < 18 ensures BlocksFrom("bit", FirstKeywords(i), 0) {
      if i == 0 {
        assert DiffersAt("bit", "tinyint", 0);
      } else if i == 1 {
        assert DiffersAt("bit", "smallint", 0);
      } else if i == 2 {
        assert DiffersAt("bit", "integer", 0);
      } else if i == 3 {
        assert DiffersAt("bit", "int", 0);
      } else if i == 4 {
        assert DiffersAt("bit", "bigint", 2);
      } else if i == 5 {
        assert DiffersAt("bit", "boolean", 1);
        assert DiffersAt("bit", "bool", 1);
      } else if i == 6 {
        assert DiffersAt("bit", "datetime", 0);
      } else if i == 7 {
        assert DiffersAt("bit", "date", 0);
      } else if i == 8 {
        assert DiffersAt("bit", "double", 0);
      } else if i == 9 {
        assert DiffersAt("bit", "numeric", 0);
      } else if i == 10 {
        assert DiffersAt("bit", "enum", 0);
      } else if i == 11 {
        assert DiffersAt("bit", "float", 0);
      } else if i == 12 {
        assert DiffersAt("bit", "real", 0);
      } else if i == 13 {
        assert DiffersAt("bit", "text", 0);
      } else if i == 14 {
        assert DiffersAt("bit", "timestamp", 0);
      } else if i == 15 {
        assert DiffersAt("bit", "timestamp", 0);
      } else if i == 16 {
        assert DiffersAt("bit", "varchar", 0);
        assert DiffersAt("bit", "character", 0);
      } else {
        assert DiffersAt("bit", "char", 0);
      }
    }
  }

  /** `bit` is no keyword of the second half's alternatives before number 17. */
  lemma {:induction false} BitWordBlocksSecond17()
    ensures SecondBlockedBefore("bit", 17)
  {
    forall i | 0 <= i < 17 ensures BlocksFrom("bit", SecondKeywords(i), 0) {
      if i == 0 {
        assert DiffersAt("bit", "time", 0);
      } else if i == 1 {
        assert DiffersAt("bit", "decimal", 0);
        assert DiffersAt("bit", "numeric", 0);
      } else if i == 2 {
        assert DiffersAt("bit", "binary", 2);
      } else if i == 3 {
        assert DiffersAt("bit", "blob", 1);
      } else if i == 4 {
        assert DiffersAt("bit", "longblob", 0);
      } else if i == 5 {
        assert DiffersAt("bit", "mediumblob", 0);
      } else if i == 6 {
        assert DiffersAt("bit", "mediumtext", 0);
      } else if i == 7 {
        assert DiffersAt("bit", "longtext", 0);
      } else if i == 8 {
        assert DiffersAt("bit", "tinyblob", 0);
      } else if i == 9 {
        assert DiffersAt("bit", "tinytext", 0);
      } else if i == 10 {
        assert DiffersAt("bit", "varbinary", 0);
      } else if i == 11 {
        assert DiffersAt("bit", "bytea", 1);
      } else if i == 12 {
        assert DiffersAt("bit", "macaddr", 0);
      } else if i == 13 {
        assert DiffersAt("bit", "inet", 0);
      } else if i == 14 {
        assert DiffersAt("bit", "uuid", 0);
      } else if i == 15 {
        assert DiffersAt("bit", "jsonb", 0);
      } else {
        assert DiffersAt("bit", "json", 0);
      }
    }
  }

  /** `json` is no keyword of the first half of `type_identifier`. */
  lemma {:induction false} JsonWordPassesFirstHalf()
    ensures FirstBlockedBefore("json", 18)
  {
    forall i | 0 <= i < 18 ensures BlocksFrom("json", FirstKeywords(i), 0) {
      if i == 0 {
        assert DiffersAt("json", "tinyint", 0);
      } else if i == 1 {
        assert DiffersAt("json", "smallint", 0);
      } else if i == 2 {
        assert DiffersAt("json", "integer", 0);
      } else if i == 3 {
        assert DiffersAt("json", "int", 0);
      } else if i == 4 {
        assert DiffersAt("json", "bigint", 0);
      } else if i == 5 {
        assert DiffersAt("json", "boolean", 0);
        assert DiffersAt("json", "bool", 0);
      } else if i == 6 {
        assert DiffersAt("json", "datetime", 0);
      } else if i == 7 {
        assert DiffersAt("json", "date", 0);
      } else if i == 8 {
        assert DiffersAt("json", "double", 0);
      } else if i == 9 {
        assert DiffersAt("json", "numeric", 0);
      } else if i == 10 {
        assert DiffersAt("json", "enum", 0);
      } else if i == 11 {
        assert DiffersAt("json", "float", 0);
      } else if i == 12 {
        assert DiffersAt("json", "real", 0);
      } else if i == 13 {
        assert DiffersAt("json", "text", 0);
      } else if i == 14 {
        assert DiffersAt("json", "timestamp", 0);
      } else if i == 15 {
        assert DiffersAt("json", "timestamp", 0);
      } else if i == 16 {
        assert DiffersAt("json", "varchar", 0);
        assert DiffersAt("json", "character", 0);
      } else {
        assert DiffersAt("json", "char", 0);
      }
    }
  }

  /** `json` is no keyword of the second half's alternatives before number 16. */
  lemma {:induction false} JsonWordBlocksSecond16()
    ensures SecondBlockedBefore("json", 16)
  {
    forall i | 0 <= i < 16 ensures BlocksFrom("json", SecondKeywords(i), 0) {
      if i == 0 {
        assert DiffersAt("json", "time", 0);
      } else if i == 1 {
        assert DiffersAt("json", "decimal", 0);
        assert DiffersAt("json", "numeric", 0);
      } else if i == 2 {
        assert DiffersAt("json", "binary", 0);
      } else if i == 3 {
        assert DiffersAt("json", "blob", 0);
      } else if i == 4 {
        assert DiffersAt("json", "longblob", 0);
      } else if i == 5 {
        assert DiffersAt("json", "mediumblob", 0);
      } else if i == 6 {
        assert DiffersAt("json", "mediumtext", 0);
      } else if i == 7 {
        assert DiffersAt("json", "longtext", 0);
      } else if i == 8 {
        assert DiffersAt("json", "tinyblob", 0);
      } else if i == 9 {
        assert DiffersAt("json", "tinytext", 0);
      } else if i == 10 {
        assert DiffersAt("json", "varbinary", 0);
      } else if i == 11 {
        assert DiffersAt("json", "bytea", 0);
      } else if i == 12 {
        assert DiffersAt("json", "macaddr", 0);
      } else if i == 13 {
        assert DiffersAt("json", "inet", 0);
      } else if i == 14 {
        assert DiffersAt("json", "uuid", 0);
      } else {
        // each keyword runs on past the head word with a letter
      }
    }
  }

  /** `jsonb` is no keyword of the first half of `type_identifier`. */
  lemma {:induction false} JsonbWordPassesFirstHalf()
    ensures FirstBlockedBefore("jsonb", 18)
  {
    forall i | 0 <= i < 18 ensures BlocksFrom("jsonb", FirstKeywords(i), 0) {
      if i == 0 {
        assert DiffersAt("jsonb", "tinyint", 0);
      } else if i == 1 {
        assert DiffersAt("jsonb", "smallint", 0);
      } else if i == 2 {
        assert DiffersAt("jsonb", "integer", 0);
      } else if i == 3 {
        assert DiffersAt("jsonb", "int", 0);
      } else if i == 4 {
        assert DiffersAt("jsonb", "bigint", 0);
      } else if i == 5 {
        assert DiffersAt("jsonb", "boolean", 0);
        assert DiffersAt("jsonb", "bool", 0);
      } else if i == 6 {
        assert DiffersAt("jsonb", "datetime", 0);
      } else if i == 7 {
        assert DiffersAt("jsonb", "date", 0);
      } else if i == 8 {
        assert DiffersAt("jsonb", "double", 0);
      } else if i == 9 {
        assert DiffersAt("jsonb", "numeric", 0);
      } else if i == 10 {
        assert DiffersAt("jsonb", "enum", 0);
      } else if i == 11 {
        assert DiffersAt("jsonb", "float", 0);
      } else if i == 12 {
        assert DiffersAt("jsonb", "real", 0);
      } else if i == 13 {
        assert DiffersAt("jsonb", "text", 0);
      } else if i == 14 {
        assert DiffersAt("jsonb", "timestamp", 0);
      } else if i == 15 {
        assert DiffersAt("jsonb", "timestamp", 0);
      } else if i == 16 {
        assert DiffersAt("jsonb", "varchar", 0);
        assert DiffersAt("jsonb", "character", 0);
      } else {
        assert DiffersAt("jsonb", "char", 0);
      }
    }
  }

  /** `jsonb` is no keyword of the second half's alternatives before number 15. */
  lemma {:induction false} JsonbWordBlocksSecond15()
    ensures SecondBlockedBefore("jsonb", 15)
  {
    forall i | 0 <= i < 15 ensures BlocksFrom("jsonb", SecondKeywords(i), 0) {
      if i == 0 {
        assert DiffersAt("jsonb", "time", 0);
      } else if i == 1 {
        assert DiffersAt("jsonb", "decimal", 0);
        assert DiffersAt("jsonb", "numeric", 0);
      } else if i == 2 {
        assert DiffersAt("jsonb", "binary", 0);
      } else if i == 3 {
        assert DiffersAt("jsonb", "blob", 0);
      } else if i == 4 {
        assert DiffersAt("jsonb", "longblob", 0);
      } else if i == 5 {
        assert DiffersAt("jsonb", "mediumblob", 0);
      } else if i == 6 {
        assert DiffersAt("jsonb", "mediumtext", 0);
      } else if i == 7 {
        assert DiffersAt("jsonb", "longtext", 0);
      } else if i == 8 {
        assert DiffersAt("jsonb", "tinyblob", 0);
      } else if i == 9 {
        assert DiffersAt("jsonb", "tinytext", 0);
      } else if i == 10 {
        assert DiffersAt("jsonb", "varbinary", 0);
      } else if i == 11 {
        assert DiffersAt("jsonb", "bytea", 0);
      } else if i == 12 {
        assert DiffersAt("jsonb", "macaddr", 0);
      } else if i == 13 {
        assert DiffersAt("jsonb", "inet", 0);
      } else {
        assert DiffersAt("jsonb", "uuid", 0);
      }
    }
  }
}
