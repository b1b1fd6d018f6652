/**
 * What the literal grammar promises about the text `Display for Literal`
 * writes: the round trip of common.rs:1752-1770, the precision of parsed
 * reals, and case-insensitive keywords.
 */
module LiteralFacts {
  import opened ParseCore
  import opened Numeric
  import opened Literals
  import opened Ast
  import opened LiteralGrammar
  import Reals

  /** Text after a literal that cannot extend it: no digit, letter, `_` or `.`. */
  predicate Delimits(rest: seq<char>) {
    |rest| == 0 || !(IsDigit(rest[0]) || IsAlpha(rest[0]) || rest[0] == '_' || rest[0] == '.')
  }

  /** The literals whose text the grammar reads back without the dialect's quoted forms. */
  predicate Unquoted(l: Literal) {
    l.Null? || l.Boolean? || l.Integer? || l.CurrentTime? || l.CurrentDate? || l.CurrentTimestamp? || l.Placeholder?
  }

  // ---------------------------------------------------------------------
  // Numbers

  lemma {:induction false} NoSign(s: seq<char>)
    requires 0 < |s| && s[0] != '-'
    ensures Opt(Char('-', s)) == (None, 0)
  {
  }

  lemma {:induction false} Sign(s: seq<char>, t: seq<char>)
    requires s == "-" + t
    ensures Opt(Char('-', s)) == (Some(()), 1)
    ensures s[1..] == t
  {
  }

  /** Digits after the sign, followed by neither a digit nor `.`, are not a real. */
  lemma {:induction false} DigitsAfterSign(lex: Lexicon, s: seq<char>, a: nat, d: seq<char>, rest: seq<char>)
    requires 0 < |d| && AllDigits(d) && Delimits(rest)
    requires Opt(Char('-', s)).1 == a && a <= |s| && s[a..] == d + rest
    ensures FloatLiteral(lex, s).Fail?
    ensures Digit1(s[a..]) == Done(d, |d|)
  {
    Digit1Of(d, rest);
    assert s[a..][|d|..] == rest;
  }

  lemma {:induction false} NonNegativeText(lex: Lexicon, n: nat, rest: seq<char>)
    requires Delimits(rest)
    ensures var s := NatText(n) + rest;
      FloatLiteral(lex, s).Fail? && Opt(Char('-', s)) == (None, 0) &&
      Digit1(s) == Done(NatText(n), |NatText(n)|)
  {
    var s := NatText(n) + rest;
    assert s[0] == NatText(n)[0];
    NoSign(s);
    DigitsAfterSign(lex, s, 0, NatText(n), rest);
  }

  lemma {:induction false} NegativeText(lex: Lexicon, m: nat, rest: seq<char>)
    requires Delimits(rest)
    ensures var s := "-" + NatText(m) + rest;
      FloatLiteral(lex, s).Fail? && Opt(Char('-', s)) == (Some(()), 1) &&
      Digit1(s[1..]) == Done(NatText(m), |NatText(m)|)
  {
    var s := "-" + NatText(m) + rest;
    Sign(s, NatText(m) + rest);
    DigitsAfterSign(lex, s, 1, NatText(m), rest);
  }

  /** Every `i64` reads back from its text, `i64::MIN` included, and the text is not read as a real. */
  lemma {:induction false} IntegerRoundTrip(lex: Lexicon, i: i64, rest: seq<char>)
    requires Delimits(rest)
    ensures FloatLiteral(lex, IntText(i) + rest).Fail?
    ensures IntegerLiteral(IntText(i) + rest) == Done(Integer(i), |IntText(i)|)
  {
    if i < 0 {
      NegativeRoundTrip(lex, i, rest);
    } else {
      NonNegativeText(lex, i, rest);
      NatTextValue(i);
    }
  }

  lemma {:induction false} NegativeRoundTrip(lex: Lexicon, i: i64, rest: seq<char>)
    requires Delimits(rest) && i < 0
    ensures FloatLiteral(lex, IntText(i) + rest).Fail?
    ensures IntegerLiteral(IntText(i) + rest) == Done(Integer(i), |IntText(i)|)
  {
    var m: nat := -(i as int);
    NegativeText(lex, m, rest);
    NatTextValue(m);
    assert IntText(i) + rest == "-" + NatText(m) + rest;
  }

  /** The two integer alternatives differ only where the corrected one reads `i64::MIN`. */
  lemma {:induction false} IntegerLiteralFix(s: seq<char>)
    ensures IntegerLiteralAsWritten(s) != IntegerLiteral(s) <==>
      IntegerLiteral(s).Done? && IntegerLiteral(s).value == Integer(I64Min)
  {
  }

  lemma {:induction false} Fraction(t: seq<char>, f: seq<char>, rest: seq<char>)
    requires 0 < |f| && AllDigits(f)
    requires |rest| == 0 || !IsDigit(rest[0])
    requires t == "." + f + rest
    ensures Char('.', t) == Done((), 1)
    ensures Digit1(t[1..]) == Done(f, |f|)
  {
    assert t[1..] == f + rest;
    Digit1Of(f, rest);
  }

  lemma {:induction false} Unsigned(t: seq<char>, w: seq<char>, f: seq<char>, rest: seq<char>)
    requires 0 < |w| && AllDigits(w) && 0 < |f| && AllDigits(f)
    requires |rest| == 0 || !IsDigit(rest[0])
    requires t == w + ("." + f + rest)
    ensures UnsignedFloat(t) == Done((w, f), |w| + 1 + |f|)
  {
    Digit1Of(w, "." + f + rest);
    Fraction(t[|w|..], f, rest);
  }

  lemma {:induction false} RealShape(s: seq<char>, m: Option<()>, a: nat, w: seq<char>, f: seq<char>, rest: seq<char>)
    requires 0 < |w| && AllDigits(w) && 0 < |f| && AllDigits(f)
    requires |rest| == 0 || !IsDigit(rest[0])
    requires Opt(Char('-', s)) == (m, a)
    requires a <= |s| && s[a..] == w + ("." + f + rest)
    ensures FloatShape(s) == Done(FloatParts(m.Some?, w, f), a + |w| + 1 + |f|)
  {
    Unsigned(s[a..], w, f, rest);
  }

  /** A real's precision is the number of its fraction digits, wrapped to a `u8`. */
  lemma {:induction false} FloatPrecision(lex: Lexicon, minus: bool, w: seq<char>, f: seq<char>, rest: seq<char>)
    requires 0 < |w| && AllDigits(w) && 0 < |f| && AllDigits(f)
    requires |rest| == 0 || !IsDigit(rest[0])
    ensures var t := (if minus then "-" else "") + w + "." + f;
      var r := LiteralParser(lex, t + rest);
      r.Done? && r.value.Double? && r.value.double.precision == |f| % 256 && r.used == |t|
    ensures var t := (if minus then "-" else "") + w + "." + f;
      QuotedLiteralsNeedQuotes(lex) ==> LiteralParserAsWritten(lex, t + rest) == LiteralParser(lex, t + rest)
  {
    var t := (if minus then "-" else "") + w + "." + f;
    var s := t + rest;
    if minus {
      assert s == "-" + (w + ("." + f + rest));
      Sign(s, w + ("." + f + rest));
      RealShape(s, Some(()), 1, w, f, rest);
    } else {
      assert s == w + ("." + f + rest);
      assert s[0] == w[0];
      NoSign(s);
      RealShape(s, None, 0, w, f, rest);
    }
    if QuotedLiteralsNeedQuotes(lex) {
      LiteralFix(lex, s);
    }
  }

  /** 256 fraction digits wrap the precision to 0. */
  lemma {:induction false} FloatPrecisionWraps(lex: Lexicon, f: seq<char>)
    requires |f| == 256 && AllDigits(f)
    ensures var r := LiteralParser(lex, "0." + f);
      r.Done? && r.value.Double? && r.value.double.precision == 0
    ensures QuotedLiteralsNeedQuotes(lex) ==> LiteralParserAsWritten(lex, "0." + f) == LiteralParser(lex, "0." + f)
  {
    FloatPrecision(lex, false, "0", f, "");
    assert "" + "0" + "." + f + "" == "0." + f;
  }

  // ---------------------------------------------------------------------
  // Keywords and placeholders

  /** Text that starts with neither a digit, a `-` nor a quote reaches the keyword alternatives. */
  lemma {:induction false} ToKeywords(lex: Lexicon, s: seq<char>)
    requires QuotedLiteralsNeedQuotes(lex)
    requires 0 < |s| && !IsDigit(s[0]) && s[0] != '-' && !OpensQuote(s)
    ensures LiteralParser(lex, s) == KeywordLiteral(s)
    ensures LiteralParserAsWritten(lex, s) == KeywordLiteral(s)
  {
  }

  /** Text that starts with neither `n` nor `c` in any case passes the named keywords. */
  lemma {:induction false} ToPlaceholders(s: seq<char>)
    requires 0 < |s| && Lower(s[0]) != 'n' && Lower(s[0]) != 'c'
    ensures KeywordLiteral(s) == PlaceholderLiteral(s)
  {
  }

  /** Text that starts with no placeholder character is read by `boolean_literal`. */
  lemma {:induction false} ToBoolean(s: seq<char>)
    requires 0 < |s| && s[0] != '?' && s[0] != ':' && s[0] != '$'
    ensures PlaceholderLiteral(s) == BooleanLiteral(s)
  {
  }

  lemma {:induction false} TrueText(t: seq<char>, rest: seq<char>)
    requires |t| == 4 && StartsNoCase(t, "true")
    ensures BooleanLiteral(t + rest) == Done(Boolean(true), 4)
  {
    StartsNoCaseAppend(t, "true", rest);
  }

  lemma {:induction false} FalseText(t: seq<char>, rest: seq<char>)
    requires |t| == 5 && StartsNoCase(t, "false")
    ensures BooleanLiteral(t + rest) == Done(Boolean(false), 5)
  {
    assert (t + rest)[0] == t[0];
    assert Lower((t + rest)[0]) != 't';
    StartsNoCaseAppend(t, "false", rest);
  }

  /** `true` in any case is the literal `TRUE`, whatever follows it, in both variants of `literal`. */
  lemma {:induction false} TrueLiteral(lex: Lexicon, t: seq<char>, rest: seq<char>)
    requires QuotedLiteralsNeedQuotes(lex)
    requires |t| == 4 && StartsNoCase(t, "true")
    ensures LiteralParserAsWritten(lex, t + rest) == Done(Boolean(true), 4)
    ensures LiteralParser(lex, t + rest) == Done(Boolean(true), 4)
  {
    var s := t + rest;
    assert s[0] == t[0] && s[1] == t[1];
    ToKeywords(lex, s);
    ToPlaceholders(s);
    ToBoolean(s);
    TrueText(t, rest);
  }

  /** `false` in any case is the literal `FALSE`, whatever follows it, in both variants of `literal`. */
  lemma {:induction false} FalseLiteral(lex: Lexicon, t: seq<char>, rest: seq<char>)
    requires QuotedLiteralsNeedQuotes(lex)
    requires |t| == 5 && StartsNoCase(t, "false")
    ensures LiteralParserAsWritten(lex, t + rest) == Done(Boolean(false), 5)
    ensures LiteralParser(lex, t + rest) == Done(Boolean(false), 5)
  {
    var s := t + rest;
    assert s[0] == t[0] && s[1] == t[1];
    ToKeywords(lex, s);
    ToPlaceholders(s);
    ToBoolean(s);
    FalseText(t, rest);
  }

  lemma {:induction false} NullLiteral(lex: Lexicon, rest: seq<char>)
    requires QuotedLiteralsNeedQuotes(lex)
    ensures LiteralParser(lex, "NULL" + rest) == Done(Null, 4)
  {
    var s := "NULL" + rest;
    assert s[0] == 'N' && s[1] == 'U';
    ToKeywords(lex, s);
    assert StartsNoCase("NULL", "null");
    StartsNoCaseAppend("NULL", "null", rest);
  }

  lemma {:induction false} CurrentTimestampKeyword(rest: seq<char>)
    ensures KeywordLiteral("CURRENT_TIMESTAMP" + rest) == Done(CurrentTimestamp, 17)
  {
    var s := "CURRENT_TIMESTAMP" + rest;
    assert Lower(s[0]) != 'n';
    assert StartsNoCase("CURRENT_TIMESTAMP", "current_timestamp");
    StartsNoCaseAppend("CURRENT_TIMESTAMP", "current_timestamp", rest);
  }

  lemma {:induction false} CurrentDateKeyword(rest: seq<char>)
    ensures KeywordLiteral("CURRENT_DATE" + rest) == Done(CurrentDate, 12)
  {
    var s := "CURRENT_DATE" + rest;
    assert Lower(s[0]) != 'n';
    assert Lower(s[8]) != 't';
    assert StartsNoCase("CURRENT_DATE", "current_date");
    StartsNoCaseAppend("CURRENT_DATE", "current_date", rest);
  }

  /** `CURRENT_TIME` is not read as `CURRENT_TIMESTAMP` when no letter follows it. */
  lemma {:induction false} CurrentTimeKeyword(rest: seq<char>)
    requires Delimits(rest)
    ensures KeywordLiteral("CURRENT_TIME" + rest) == Done(CurrentTime, 12)
  {
    var s := "CURRENT_TIME" + rest;
    assert Lower(s[0]) != 'n';
    assert Lower(s[8]) != 'd';
    if |s| >= 17 {
      assert s[12] == rest[0];
      assert Lower(s[12]) != 's';
    }
    assert StartsNoCase("CURRENT_TIME", "current_time");
    StartsNoCaseAppend("CURRENT_TIME", "current_time", rest);
  }

  /** Text that starts with `CU` reaches the keyword alternatives. */
  lemma {:induction false} CurrentToKeywords(lex: Lexicon, k: seq<char>, rest: seq<char>)
    requires QuotedLiteralsNeedQuotes(lex)
    requires |k| >= 2 && k[0] == 'C' && k[1] == 'U'
    ensures LiteralParser(lex, k + rest) == KeywordLiteral(k + rest)
  {
    var s := k + rest;
    assert s[0] == 'C' && s[1] == 'U';
    ToKeywords(lex, s);
  }

  /** A `u32` after a placeholder's lead character reads back. */
  lemma {:induction false} NumberedRoundTrip(lead: char, n: u32, rest: seq<char>)
    requires Delimits(rest)
    ensures NumberedPlaceholder(lead, [lead] + NatText(n) + rest) == Done(n, 1 + |NatText(n)|)
  {
    var s := [lead] + NatText(n) + rest;
    assert s[1..] == NatText(n) + rest;
    Digit1Of(NatText(n), rest);
    NatTextValue(n);
  }

  lemma {:induction false} QuestionMarkLiteral(lex: Lexicon, rest: seq<char>)
    requires QuotedLiteralsNeedQuotes(lex)
    ensures LiteralParser(lex, PlaceholderText(QuestionMark) + rest) == Done(Placeholder(QuestionMark), 1)
  {
    var s := PlaceholderText(QuestionMark) + rest;
    assert s[0] == '?';
    ToKeywords(lex, s);
    ToPlaceholders(s);
  }

  lemma {:induction false} ColonLiteral(lex: Lexicon, n: u32, rest: seq<char>)
    requires QuotedLiteralsNeedQuotes(lex) && Delimits(rest)
    ensures LiteralParser(lex, PlaceholderText(ColonNumber(n)) + rest)
      == Done(Placeholder(ColonNumber(n)), |PlaceholderText(ColonNumber(n))|)
  {
    var s := PlaceholderText(ColonNumber(n)) + rest;
    assert s == [':'] + NatText(n) + rest;
    assert s[0] == ':' && s[1] == NatText(n)[0];
    ToKeywords(lex, s);
    ToPlaceholders(s);
    NumberedRoundTrip(':', n, rest);
  }

  lemma {:induction false} DollarLiteral(lex: Lexicon, n: u32, rest: seq<char>)
    requires QuotedLiteralsNeedQuotes(lex) && Delimits(rest)
    ensures LiteralParser(lex, PlaceholderText(DollarNumber(n)) + rest)
      == Done(Placeholder(DollarNumber(n)), |PlaceholderText(DollarNumber(n))|)
  {
    var s := PlaceholderText(DollarNumber(n)) + rest;
    assert s == ['$'] + NatText(n) + rest;
    assert s[0] == '$' && s[1] == NatText(n)[0];
    ToKeywords(lex, s);
    ToPlaceholders(s);
    NumberedRoundTrip('$', n, rest);
  }

  lemma {:induction false} RealFirst(lex: Lexicon, s: seq<char>)
    requires FloatLiteral(lex, s).Fail?
    ensures LiteralParser(lex, s) == LiteralArms(lex, s, IntegerLiteral(s))
    ensures IntegerLiteral(s).Done? ==> LiteralParser(lex, s) == IntegerLiteral(s)
  {
  }

  // ---------------------------------------------------------------------
  // The round trip

  lemma {:induction false} NullRoundTrip(lex: Lexicon, fmt: RealFormat, rest: seq<char>)
    requires QuotedLiteralsNeedQuotes(lex)
    ensures LiteralParser(lex, LiteralText(Null, fmt) + rest) == Done(Null, |LiteralText(Null, fmt)|)
  {
    assert LiteralText(Null, fmt) == "NULL";
    NullLiteral(lex, rest);
  }

  lemma {:induction false} BooleanRoundTrip(lex: Lexicon, fmt: RealFormat, b: bool, rest: seq<char>)
    requires QuotedLiteralsNeedQuotes(lex)
    ensures LiteralParser(lex, LiteralText(Boolean(b), fmt) + rest) == Done(Boolean(b), |LiteralText(Boolean(b), fmt)|)
  {
    if b {
      assert LiteralText(Boolean(b), fmt) == "TRUE";
      assert StartsNoCase("TRUE", "true");
      TrueLiteral(lex, "TRUE", rest);
    } else {
      assert LiteralText(Boolean(b), fmt) == "FALSE";
      assert StartsNoCase("FALSE", "false");
      FalseLiteral(lex, "FALSE", rest);
    }
  }

  lemma {:induction false} IntegerLiteralRoundTrip(lex: Lexicon, fmt: RealFormat, i: i64, rest: seq<char>)
    requires Delimits(rest)
    ensures LiteralParser(lex, LiteralText(Integer(i), fmt) + rest) == Done(Integer(i), |LiteralText(Integer(i), fmt)|)
  {
    assert LiteralText(Integer(i), fmt) == IntText(i);
    IntegerRoundTrip(lex, i, rest);
    RealFirst(lex, IntText(i) + rest);
  }

  lemma {:induction false} CurrentTimeRoundTrip(lex: Lexicon, fmt: RealFormat, rest: seq<char>)
    requires QuotedLiteralsNeedQuotes(lex) && Delimits(rest)
    ensures LiteralParser(lex, LiteralText(CurrentTime, fmt) + rest) == Done(CurrentTime, |LiteralText(CurrentTime, fmt)|)
  {
    assert LiteralText(CurrentTime, fmt) == "CURRENT_TIME";
    CurrentToKeywords(lex, "CURRENT_TIME", rest);
    CurrentTimeKeyword(rest);
  }

  lemma {:induction false} CurrentDateRoundTrip(lex: Lexicon, fmt: RealFormat, rest: seq<char>)
    requires QuotedLiteralsNeedQuotes(lex)
    ensures LiteralParser(lex, LiteralText(CurrentDate, fmt) + rest) == Done(CurrentDate, |LiteralText(CurrentDate, fmt)|)
  {
    assert LiteralText(CurrentDate, fmt) == "CURRENT_DATE";
    CurrentToKeywords(lex, "CURRENT_DATE", rest);
    CurrentDateKeyword(rest);
  }

  lemma {:induction false} CurrentTimestampRoundTrip(lex: Lexicon, fmt: RealFormat, rest: seq<char>)
    requires QuotedLiteralsNeedQuotes(lex)
    ensures LiteralParser(lex, LiteralText(CurrentTimestamp, fmt) + rest)
      == Done(CurrentTimestamp, |LiteralText(CurrentTimestamp, fmt)|)
  {
    assert LiteralText(CurrentTimestamp, fmt) == "CURRENT_TIMESTAMP";
    CurrentToKeywords(lex, "CURRENT_TIMESTAMP", rest);
    CurrentTimestampKeyword(rest);
  }

  lemma {:induction false} PlaceholderRoundTrip(lex: Lexicon, fmt: RealFormat, p: ItemPlaceholder, rest: seq<char>)
    requires QuotedLiteralsNeedQuotes(lex) && Delimits(rest)
    ensures LiteralParser(lex, LiteralText(Placeholder(p), fmt) + rest)
      == Done(Placeholder(p), |LiteralText(Placeholder(p), fmt)|)
  {
    assert LiteralText(Placeholder(p), fmt) == PlaceholderText(p);
    match p
    case QuestionMark => QuestionMarkLiteral(lex, rest);
    case ColonNumber(n) => ColonLiteral(lex, n, rest);
    case DollarNumber(n) => DollarLiteral(lex, n, rest);
  }

  /**
   * `literal` with the corrected integer rule reads back every unquoted
   * literal from the text `Display` writes for it, whatever delimiter
   * follows, in any dialect whose quoted forms need a quote
   * (common.rs:1752-1770).
   */
  lemma {:induction false} LiteralRoundTrip(lex: Lexicon, fmt: RealFormat, l: Literal, rest: seq<char>)
    requires QuotedLiteralsNeedQuotes(lex) && Unquoted(l) && Delimits(rest)
    ensures LiteralParser(lex, LiteralText(l, fmt) + rest) == Done(l, |LiteralText(l, fmt)|)
  {
    match l
    case Null => NullRoundTrip(lex, fmt, rest);
    case Boolean(b) => BooleanRoundTrip(lex, fmt, b, rest);
    case Integer(i) => IntegerLiteralRoundTrip(lex, fmt, i, rest);
    case CurrentTime => CurrentTimeRoundTrip(lex, fmt, rest);
    case CurrentDate => CurrentDateRoundTrip(lex, fmt, rest);
    case CurrentTimestamp => CurrentTimestampRoundTrip(lex, fmt, rest);
    case Placeholder(p) => PlaceholderRoundTrip(lex, fmt, p, rest);
  }

  /** Text that starts with `-` is no keyword, placeholder or boolean. */
  lemma {:induction false} DashNotKeyword(t: seq<char>)
    requires 0 < |t| && t[0] == '-'
    ensures KeywordLiteral(t).Fail?
  {
    ToPlaceholders(t);
    ToBoolean(t);
    assert Lower(t[0]) != 't' && Lower(t[0]) != 'f';
  }

  /** The negated text of a number beyond `i64::MAX` is read by no alternative of `literal` as written. */
  lemma {:induction false} BeyondMaxRefused(lex: Lexicon, m: nat, t: seq<char>)
    requires QuotedLiteralsNeedQuotes(lex)
    requires m > I64Max && t == "-" + NatText(m)
    ensures LiteralParserAsWritten(lex, t).Fail?
  {
    assert t + "" == t;
    NegativeText(lex, m, "");
    NatTextValue(m);
    assert !OpensQuote(t);
    DashNotKeyword(t);
  }

  /** As written, the round trip fails on `i64::MIN`. */
  lemma {:induction false} LiteralMinRoundTripFails(lex: Lexicon, fmt: RealFormat)
    requires QuotedLiteralsNeedQuotes(lex)
    ensures LiteralParserAsWritten(lex, LiteralText(Integer(I64Min), fmt)).Fail?
  {
    assert LiteralText(Integer(I64Min), fmt) == IntText(I64Min);
    BeyondMaxRefused(lex, -I64Min, LiteralText(Integer(I64Min), fmt));
  }

  /**
   * The two variants of `literal` differ exactly where the corrected one
   * reads `i64::MIN`; there the one as written fails.
   */
  lemma {:induction false} LiteralFix(lex: Lexicon, s: seq<char>)
    requires QuotedLiteralsNeedQuotes(lex)
    ensures LiteralParserAsWritten(lex, s) != LiteralParser(lex, s) <==>
      LiteralParser(lex, s).Done? && LiteralParser(lex, s).value == Integer(I64Min)
    ensures LiteralParserAsWritten(lex, s) != LiteralParser(lex, s) ==> LiteralParserAsWritten(lex, s).Fail?
  {
    IntegerLiteralFix(s);
    if IntegerLiteralAsWritten(s) != IntegerLiteral(s) && FloatLiteral(lex, s).Fail? {
      assert IntegerLiteral(s).value == Integer(I64Min);
      assert At(s, '-');
      assert !OpensQuote(s);
      DashNotKeyword(s);
    }
  }

  /**
   * `literal` as written reads back every unquoted literal but
   * `Integer(i64::MIN)` from the text `Display` writes for it: the
   * property of common.rs:1752-1770 for the program's own rule.
   */
  lemma {:induction false} LiteralRoundTripAsWritten(lex: Lexicon, fmt: RealFormat, l: Literal, rest: seq<char>)
    requires QuotedLiteralsNeedQuotes(lex) && Unquoted(l) && Delimits(rest)
    requires l != Integer(I64Min)
    ensures LiteralParserAsWritten(lex, LiteralText(l, fmt) + rest) == Done(l, |LiteralText(l, fmt)|)
  {
    LiteralRoundTrip(lex, fmt, l, rest);
    LiteralFix(lex, LiteralText(l, fmt) + rest);
  }

  /** `boolean_literals` (common.rs:1781-1816): the program's `literal` reads the keywords in any case. */
  lemma {:induction false} BooleanAnyCase(lex: Lexicon)
    requires QuotedLiteralsNeedQuotes(lex)
    ensures LiteralParserAsWritten(lex, "true") == Done(Boolean(true), 4)
    ensures LiteralParserAsWritten(lex, "True") == Done(Boolean(true), 4)
    ensures LiteralParserAsWritten(lex, "TruE") == Done(Boolean(true), 4)
    ensures LiteralParserAsWritten(lex, "TRUE") == Done(Boolean(true), 4)
    ensures LiteralParserAsWritten(lex, "false") == Done(Boolean(false), 5)
    ensures LiteralParserAsWritten(lex, "False") == Done(Boolean(false), 5)
    ensures LiteralParserAsWritten(lex, "FalsE") == Done(Boolean(false), 5)
    ensures LiteralParserAsWritten(lex, "FALSE") == Done(Boolean(false), 5)
  {
    TrueSpellings(lex);
    FalseSpellings(lex);
  }

  lemma {:induction false} TrueSpellings(lex: Lexicon)
    requires QuotedLiteralsNeedQuotes(lex)
    ensures LiteralParserAsWritten(lex, "true") == Done(Boolean(true), 4)
    ensures LiteralParserAsWritten(lex, "True") == Done(Boolean(true), 4)
    ensures LiteralParserAsWritten(lex, "TruE") == Done(Boolean(true), 4)
    ensures LiteralParserAsWritten(lex, "TRUE") == Done(Boolean(true), 4)
  {
    assert StartsNoCase("true", "true") && StartsNoCase("True", "true");
    assert StartsNoCase("TruE", "true") && StartsNoCase("TRUE", "true");
    TrueSpelling(lex, "true");
    TrueSpelling(lex, "True");
    TrueSpelling(lex, "TruE");
    TrueSpelling(lex, "TRUE");
  }

  lemma {:induction false} FalseSpellings(lex: Lexicon)
    requires QuotedLiteralsNeedQuotes(lex)
    ensures LiteralParserAsWritten(lex, "false") == Done(Boolean(false), 5)
    ensures LiteralParserAsWritten(lex, "False") == Done(Boolean(false), 5)
    ensures LiteralParserAsWritten(lex, "FalsE") == Done(Boolean(false), 5)
    ensures LiteralParserAsWritten(lex, "FALSE") == Done(Boolean(false), 5)
  {
    assert StartsNoCase("false", "false") && StartsNoCase("False", "false");
    assert StartsNoCase("FalsE", "false") && StartsNoCase("FALSE", "false");
    FalseSpelling(lex, "false");
    FalseSpelling(lex, "False");
    FalseSpelling(lex, "FalsE");
    FalseSpelling(lex, "FALSE");
  }

  lemma {:induction false} TrueSpelling(lex: Lexicon, t: seq<char>)
    requires QuotedLiteralsNeedQuotes(lex)
    requires |t| == 4 && StartsNoCase(t, "true")
    ensures LiteralParserAsWritten(lex, t) == Done(Boolean(true), 4)
  {
    TrueLiteral(lex, t, "");
    assert t + "" == t;
  }

  lemma {:induction false} FalseSpelling(lex: Lexicon, t: seq<char>)
    requires QuotedLiteralsNeedQuotes(lex)
    requires |t| == 5 && StartsNoCase(t, "false")
    ensures LiteralParserAsWritten(lex, t) == Done(Boolean(false), 5)
  {
    FalseLiteral(lex, t, "");
    assert t + "" == t;
  }

  // ---------------------------------------------------------------------
  // value_list

  /** The texts `Display` writes for a sequence of literals. */
  function LiteralTexts(ls: seq<Literal>, fmt: RealFormat): (xs: seq<seq<char>>)
    ensures |xs| == |ls| && forall i :: 0 <= i < |ls| ==> xs[i] == LiteralText(ls[i], fmt)
  {
    seq(|ls|, i requires 0 <= i < |ls| => LiteralText(ls[i], fmt))
  }

  /** Literals `literal` as written reads back from their own text. */
  predicate ReadableAsWritten(ls: seq<Literal>) {
    forall i :: 0 <= i < |ls| ==> Unquoted(ls[i]) && ls[i] != Integer(I64Min)
  }

  /** The text of an unquoted literal is never empty and never opens with whitespace. */
  lemma {:induction false} UnquotedTextStarts(l: Literal, fmt: RealFormat)
    requires Unquoted(l)
    ensures 0 < |LiteralText(l, fmt)| && !IsSpace(LiteralText(l, fmt)[0])
  {
    if l.Integer? {
      var n: int := l.int64;
      var t := NatText(if n < 0 then -n else n);
      assert IsDigit(t[0]);
    } else if l.Placeholder? {
      match l.item
      case QuestionMark =>
      case DollarNumber(n) =>
      case ColonNumber(n) =>
    }
  }

  /** Each literal text, followed by `, ` and the next ones, is read as its literal. */
  lemma {:induction false} LiteralsReadAsWritten(lex: Lexicon, fmt: RealFormat, ls: seq<Literal>, tail: seq<char>)
    requires QuotedLiteralsNeedQuotes(lex) && ReadableAsWritten(ls) && Delimits(tail)
    ensures ReadsItems(LiteralParserOf(lex), LiteralTexts(ls, fmt), ls, tail)
    decreases |ls|
  {
    var xs := LiteralTexts(ls, fmt);
    if 0 < |ls| {
      assert xs[1..] == LiteralTexts(ls[1..], fmt);
      assert ReadableAsWritten(ls[1..]) by {
        forall i | 0 <= i < |ls[1..]| ensures Unquoted(ls[1..][i]) && ls[1..][i] != Integer(I64Min) {
          assert ls[1..][i] == ls[i + 1];
        }
      }
      LiteralsReadAsWritten(lex, fmt, ls[1..], tail);
      UnquotedTextStarts(ls[0], fmt);
      var more := CommaSpacePrefixed(xs[1..]) + tail;
      assert Delimits(more) by {
        if 0 < |xs[1..]| {
          PrefixedText(xs[1..], tail);
          assert more[0] == ',';
        } else {
          assert more == tail;
        }
      }
      LiteralRoundTripAsWritten(lex, fmt, ls[0], more);
    }
  }

  /**
   * `value_list` (common.rs:1456-1459) reads literals written by `Display`
   * and separated by `, ` back as those literals, in order, when no comma
   * follows the last.
   */
  lemma {:induction false} ValueListRoundTrip(lex: Lexicon, fmt: RealFormat, ls: seq<Literal>, tail: seq<char>)
    requires QuotedLiteralsNeedQuotes(lex) && 0 < |ls| && ReadableAsWritten(ls)
    requires Delimits(tail) && WsSepComma(tail).Fail?
    ensures ValueList(lex, CommaJoined(LiteralTexts(ls, fmt)) + tail) ==
      Done(ls, |CommaJoined(LiteralTexts(ls, fmt))|)
  {
    LiteralsReadAsWritten(lex, fmt, ls, tail);
    CommaListReads(LiteralParserOf(lex), LiteralTexts(ls, fmt), ls, tail);
  }
}
