/**
 * The literal grammar of nom-sql/src/common.rs: `integer_literal`
 * (lines 1365-1380), `float` and `float_literal` (1382-1403),
 * `boolean_literal` (1405-1410), `literal` (1412-1454) and `value_list`
 * (1456-1459), with the round trip from `Display for Literal`.
 */
module LiteralGrammar {
  import opened ParseCore
  import opened Numeric
  import opened Literals
  import opened Ast
  import Reals

  const I64Max: nat := 0x7FFF_FFFF_FFFF_FFFF
  const I64Min: int := -0x8000_0000_0000_0000

  /**
   * `integer_literal` (common.rs:1365-1380) as written: an optional `-`, then
   * digits read as an `i64` and only then negated. The digits must fit an
   * `i64` on their own, so the text of `i64::MIN` is refused.
   */
  function IntegerLiteralAsWritten(s: seq<char>): (r: ParseResult<Literal>)
    ensures Fits(r, s)
    ensures r.Done? ==> r.value.Integer? && r.value.int64 != I64Min
    ensures r.Done? ==> r == IntegerLiteral(s)
    ensures r.Fail? && IntegerLiteral(s).Done? ==> IntegerLiteral(s).value == Integer(I64Min)
  {
    var (minus, a) := Opt(Char('-', s));
    var (d, b) :- Digit1(s[a..]);
    var v: int := DigitsValue(d);
    if v > I64Max then Fail
    else Done(Integer(if minus.Some? then -v else v), a + b)
  }

  /**
   * `integer_literal` as evidently intended: the signed value must fit an
   * `i64`, so every `i64` reads back from its own text.
   */
  function IntegerLiteral(s: seq<char>): (r: ParseResult<Literal>)
    ensures Fits(r, s)
    ensures r.Done? ==> r.value.Integer?
  {
    var (minus, a) := Opt(Char('-', s));
    var (d, b) :- Digit1(s[a..]);
    var v: int := DigitsValue(d);
    var n := if minus.Some? then -v else v;
    if n < I64Min || n > I64Max then Fail else Done(Integer(n), a + b)
  }

  /** The parts `float` (common.rs:1382-1385) matches: sign, integer digits, fraction digits. */
  datatype FloatParts = FloatParts(minus: bool, whole: seq<char>, frac: seq<char>)

  /** The unsigned part of `float`: `digits . digits`, as the two digit runs and the length. */
  function UnsignedFloat(s: seq<char>): (r: ParseResult<(seq<char>, seq<char>)>)
    ensures Fits(r, s)
  {
    var (w, b) :- Digit1(s);
    var (_, c) :- Char('.', s[b..]);
    var (f, d) :- Digit1(s[b + c..]);
    Done((w, f), b + c + d)
  }

  /** `float`: `[-] digits . digits`. */
  function FloatShape(s: seq<char>): (r: ParseResult<FloatParts>)
    ensures Fits(r, s)
  {
    var (minus, a) := Opt(Char('-', s));
    var (wf, n) :- UnsignedFloat(s[a..]);
    Done(FloatParts(minus.Some?, wf.0, wf.1), a + n)
  }

  /**
   * `float_literal` (common.rs:1387-1403): the matched text converted by
   * `f64::from_str`, with the number of fraction digits as precision. The
   * count is cast to `u8`, so it wraps modulo 256.
   */
  function FloatLiteral(lex: Lexicon, s: seq<char>): (r: ParseResult<Literal>)
    ensures Fits(r, s)
    ensures r.Done? ==> r.value.Double? && FloatShape(s).Done? && r.used == FloatShape(s).used
    ensures r.Done? ==> r.value.double.precision == |FloatShape(s).value.frac| % 256
  {
    var (parts, n) :- FloatShape(s);
    Done(Double(Reals.Double(lex.parseF64(s[..n]), |parts.frac| % 256)), n)
  }

  /** `boolean_literal` (common.rs:1405-1410). */
  function BooleanLiteral(s: seq<char>): (r: ParseResult<Literal>)
    ensures Fits(r, s)
    ensures r.Done? <==> StartsNoCase(s, "true") || StartsNoCase(s, "false")
    ensures r.Done? ==> r.value == Boolean(StartsNoCase(s, "true"))
  {
    if TagNoCase("true", s).Done? then Done(Boolean(true), 4)
    else if TagNoCase("false", s).Done? then Done(Boolean(false), 5)
    else Fail
  }

  /** Digits read as a `u32` (`u32::from_str` on a `digit1` match). */
  function DigitsU32(s: seq<char>): (r: ParseResult<u32>)
    ensures Fits(r, s)
    ensures r.Done? ==> Digit1(s).Done? && r.used == Digit1(s).used && r.value == DigitsValue(Digit1(s).value)
  {
    var (d, n) :- Digit1(s);
    var v := DigitsValue(d);
    if v < 0x1_0000_0000 then Done(v, n) else Fail
  }

  /** An item placeholder after its lead character: `:n` or `$n`. */
  function NumberedPlaceholder(lead: char, s: seq<char>): (r: ParseResult<u32>)
    ensures Fits(r, s)
  {
    var (_, a) :- Char(lead, s);
    var (n, b) :- DigitsU32(s[a..]);
    Done(n, a + b)
  }

  /** The arms of `literal` after the dialect's quoted forms, in order. */
  function KeywordLiteral(s: seq<char>): (r: ParseResult<Literal>)
    ensures Fits(r, s)
  {
    if TagNoCase("null", s).Done? then Done(Null, 4)
    else if TagNoCase("current_timestamp", s).Done? then Done(CurrentTimestamp, 17)
    else if TagNoCase("current_date", s).Done? then Done(CurrentDate, 12)
    else if TagNoCase("current_time", s).Done? then Done(CurrentTime, 12)
    else PlaceholderLiteral(s)
  }

  /** The placeholder arms `?`, `:n` and `$n`, then `boolean_literal`. */
  function PlaceholderLiteral(s: seq<char>): (r: ParseResult<Literal>)
    ensures Fits(r, s)
  {
    if Char('?', s).Done? then Done(Placeholder(QuestionMark), 1)
    else match NumberedPlaceholder(':', s)
      case Done(n, k) => Done(Placeholder(ColonNumber(n)), k)
      case Fail =>
        match NumberedPlaceholder('$', s)
        case Done(n, k) => Done(Placeholder(DollarNumber(n)), k)
        case Fail => BooleanLiteral(s)
  }

  /** The dialect's quoted forms: a string (a blob when not UTF-8), a byte array, a bit vector. */
  function QuotedLiteral(lex: Lexicon, s: seq<char>): (r: ParseResult<Literal>)
    ensures Fits(r, s)
    ensures !OpensQuote(s) && QuotedLiteralsNeedQuotes(lex) ==> r.Fail?
  {
    match lex.stringLiteral(s)
    case Done(bytes, n) =>
      (match lex.utf8(bytes)
       case Some(t) => Done(String(t), n)
       case None => Done(Blob(bytes), n))
    case Fail =>
      match lex.bytesLiteral(s)
      case Done(bytes, n) => Done(ByteArray(bytes), n)
      case Fail =>
        match lex.bitvecLiteral(s)
        case Done(bytes, n) => Done(BitVector(bytes), n)
        case Fail => Fail
  }

  /**
   * The alternatives of `literal` (common.rs:1412-1454) in their source
   * order, given the result of the integer alternative.
   */
  function LiteralArms(lex: Lexicon, s: seq<char>, integer: ParseResult<Literal>): (r: ParseResult<Literal>)
    requires Fits(integer, s)
    ensures Fits(r, s)
  {
    var f := FloatLiteral(lex, s);
    if f.Done? then f
    else if integer.Done? then integer
    else
      var q := QuotedLiteral(lex, s);
      if q.Done? then q else KeywordLiteral(s)
  }

  /** `literal` as written. */
  function LiteralParserAsWritten(lex: Lexicon, s: seq<char>): (r: ParseResult<Literal>)
    ensures Fits(r, s)
  {
    LiteralArms(lex, s, IntegerLiteralAsWritten(s))
  }

  /** `literal` with the corrected integer alternative. */
  function LiteralParser(lex: Lexicon, s: seq<char>): (r: ParseResult<Literal>)
    ensures Fits(r, s)
  {
    LiteralArms(lex, s, IntegerLiteral(s))
  }

  /**
   * `value_list` (common.rs:1456-1459): literals, read by `literal` as
   * written, separated by commas. It never fails; without a literal at
   * the start it is the empty list.
   */
  function ValueList(lex: Lexicon, s: seq<char>): (r: ParseResult<seq<Literal>>)
    ensures Fits(r, s)
    ensures r.Done?
    ensures LiteralParserAsWritten(lex, s).Fail? ==> r == Done([], 0)
  {
    CommaListsSucceed(LiteralParserOf(lex), s);
    SeparatedList0(CommaSeparator, LiteralParserOf(lex), s)
  }

  /** `literal` as written, as a parser. */
  function LiteralParserOf(lex: Lexicon): Parser<Literal> {
    s => LiteralParserAsWritten(lex, s)
  }
}
