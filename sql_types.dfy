/**
 * `SqlType` of nom-sql/src/common.rs (lines 36-88), its canonical text
 * (`Display for SqlType`, lines 108-189), the type grammar
 * `type_identifier` with its two halves and helpers (lines 861-1107) and
 * `FromStr for SqlType` (lines 191-200).
 *
 * Each `alt((...))` of the source is a list of parsers in source order,
 * tried by `Alt`.
 */
module SqlTypes {
  import opened ParseCore
  import opened Numeric
  import L = Literals
  import opened Ast
  import LG = LiteralGrammar

  /** `SqlType` (common.rs:36-88). Lengths are `u16`, `DECIMAL` takes two `u8`s. */
  datatype SqlType =
    | Bool
    | Char(charLen: Option<u16>)
    | Varchar(varcharLen: Option<u16>)
    | Int(intLen: Option<u16>)
    | UnsignedInt(uintLen: Option<u16>)
    | Bigint(bigintLen: Option<u16>)
    | UnsignedBigint(ubigintLen: Option<u16>)
    | Tinyint(tinyintLen: Option<u16>)
    | UnsignedTinyint(utinyintLen: Option<u16>)
    | Smallint(smallintLen: Option<u16>)
    | UnsignedSmallint(usmallintLen: Option<u16>)
    | Blob
    | Longblob
    | Mediumblob
    | Tinyblob
    | Double
    | Float
    | Real
    | Numeric(numericPrecision: Option<(u16, Option<u8>)>)
    | Tinytext
    | Mediumtext
    | Longtext
    | Text
    | Date
    | DateTime(fsp: Option<u16>)
    | Time
    | Timestamp
    | TimestampTz
    | Binary(binaryLen: Option<u16>)
    | Varbinary(varbinaryLen: u16)
    | Enum(variants: seq<L.Literal>)
    | Decimal(m: u8, d: u8)
    | Json
    | Jsonb
    | ByteArray
    | MacAddr
    | Inet
    | Uuid
    | Bit(bitLen: Option<u16>)
    | Varbit(varbitLen: Option<u16>)
    | Serial
    | BigSerial

  // ---------------------------------------------------------------------
  // Display for SqlType (common.rs:108-189)

  /** An optional length in parentheses, as `write_with_len` writes it. */
  function LenText(len: Option<u16>): string {
    match len
    case None => ""
    case Some(n) => "(" + NatText(n) + ")"
  }

  /** Literals joined by `", "` (`variants.iter().join(", ")`). */
  function JoinLiterals(vs: seq<L.Literal>, fmt: L.RealFormat): string {
    if |vs| == 0 then ""
    else if |vs| == 1 then L.LiteralText(vs[0], fmt)
    else L.LiteralText(vs[0], fmt) + ", " + JoinLiterals(vs[1..], fmt)
  }

  /** `Display for SqlType`. */
  function TypeText(t: SqlType, fmt: L.RealFormat): string {
    match t
    case Bool => "BOOL"
    case Char(len) => "CHAR" + LenText(len)
    case Varchar(len) => "VARCHAR" + LenText(len)
    case Int(len) => "INT" + LenText(len)
    case UnsignedInt(len) => "INT" + LenText(len) + " UNSIGNED"
    case Bigint(len) => "BIGINT" + LenText(len)
    case UnsignedBigint(len) => "BIGINT" + LenText(len) + " UNSIGNED"
    case Tinyint(len) => "TINYINT" + LenText(len)
    case UnsignedTinyint(len) => "TINYINT" + LenText(len) + " UNSIGNED"
    case Smallint(len) => "SMALLINT" + LenText(len)
    case UnsignedSmallint(len) => "SMALLINT" + LenText(len) + " UNSIGNED"
    case Blob => "BLOB"
    case Longblob => "LONGBLOB"
    case Mediumblob => "MEDIUMBLOB"
    case Tinyblob => "TINYBLOB"
    case Double => "DOUBLE"
    case Float => "FLOAT"
    case Real => "REAL"
    case Numeric(p) =>
      (match p
       case Some((prec, scale)) => "NUMERIC" + PrecisionText(prec, scale)
       case None => "NUMERIC")
    case Tinytext => "TINYTEXT"
    case Mediumtext => "MEDIUMTEXT"
    case Longtext => "LONGTEXT"
    case Text => "TEXT"
    case Date => "DATE"
    case DateTime(len) => "DATETIME" + LenText(len)
    case Time => "TIME"
    case Timestamp => "TIMESTAMP"
    case TimestampTz => "TIMESTAMP WITH TIME ZONE"
    case Binary(len) => "BINARY" + LenText(len)
    case Varbinary(len) => "VARBINARY(" + NatText(len) + ")"
    case Enum(vs) => "ENUM(" + JoinLiterals(vs, fmt) + ")"
    case Decimal(m, d) => "DECIMAL" + PrecisionText(m, Some(d))
    case Json => "JSON"
    case Jsonb => "JSONB"
    case ByteArray => "BYTEA"
    case MacAddr => "MACADDR"
    case Inet => "INET"
    case Uuid => "UUID"
    case Bit(len) => "BIT" + LenText(len)
    case Varbit(len) => "VARBIT" + LenText(len)
    case Serial => "SERIAL"
    case BigSerial => "BIGSERIAL"
  }

  // ---------------------------------------------------------------------
  // Helpers

  /** `opt(delim_u16)`. */
  function OptLen(s: seq<char>): (o: (Option<u16>, nat))
    ensures o.1 <= |s|
  {
    Opt(DelimU16(s))
  }

  /** Keywords separated by `whitespace1`, as `tuple((tag_no_case(w1), whitespace1, tag_no_case(w2), ...))`. */
  function Phrase(words: seq<string>, s: seq<char>): (r: ParseResult<()>)
    ensures Fits(r, s)
    decreases |words|
  {
    if |words| == 0 then Done((), 0)
    else
      var (_, a) :- TagNoCase(words[0], s);
      if |words| == 1 then Done((), a)
      else
        var (_, b) :- Whitespace1(s[a..]);
        var (_, c) :- Phrase(words[1..], s[a + b..]);
        Done((), a + b + c)
  }

  /** `preceded(whitespace1, phrase)`. */
  function SpacedPhrase(words: seq<string>, s: seq<char>): (r: ParseResult<()>)
    ensures Fits(r, s)
  {
    var (_, a) :- Whitespace1(s);
    var (_, b) :- Phrase(words, s[a..]);
    Done((), a + b)
  }

  /** `opt_without_time_zone` (common.rs:913-927): the number of characters it consumes. */
  function OptWithoutTimeZone(s: seq<char>): (n: nat)
    ensures n <= |s|
  {
    Opt(SpacedPhrase(["without", "time", "zone"], s)).1
  }

  /** `opt(preceded(whitespace0, delim_digit))`: a fractional-seconds precision, discarded. */
  function OptTimestampPrecision(s: seq<char>): (n: nat)
    ensures n <= |s|
  {
    var a := Whitespace0(s);
    match DelimDigit(s[a..])
    case Done(_, b) => a + b
    case Fail => 0
  }

  /** The four integer families of `int_type`. */
  datatype IntKind = TinyKind | SmallKind | IntegerKind | BigKind

  /** The constructor `int_type` applies: `mk_unsigned` exactly when the sign is `UNSIGNED`. */
  function IntOf(kind: IntKind, unsigned: bool, len: Option<u16>): SqlType {
    match kind
    case TinyKind => if unsigned then UnsignedTinyint(len) else Tinyint(len)
    case SmallKind => if unsigned then UnsignedSmallint(len) else Smallint(len)
    case IntegerKind => if unsigned then UnsignedInt(len) else Int(len)
    case BigKind => if unsigned then UnsignedBigint(len) else Bigint(len)
  }

  /** `int_type` (common.rs:876-894): keyword, optional length, whitespace, optional sign. */
  function IntType(kw: string, kind: IntKind, s: seq<char>): (r: ParseResult<SqlType>)
    ensures Fits(r, s)
    ensures r.Done? <==> StartsNoCase(s, kw)
  {
    var (_, a) :- TagNoCase(kw, s);
    var (t, b) := IntTail(kind, s[a..]);
    Done(t, a + b)
  }

  /** What follows the keyword of `int_type`: the optional length, then `SignTail`. */
  function IntTail(kind: IntKind, u: seq<char>): (o: (SqlType, nat))
    ensures o.1 <= |u|
  {
    var (len, b) := OptLen(u);
    var (sign, c) := SignTail(u[b..]);
    (IntOf(kind, sign == Some(Unsigned), len), b + c)
  }

  /** `whitespace0` and `opt_signed`. */
  function SignTail(v: seq<char>): (o: (Option<Sign>, nat))
    ensures o.1 <= |v|
  {
    var c := Whitespace0(v);
    var (sign, d) := OptSigned(v[c..]);
    (sign, c + d)
  }

  /** A keyword alone, mapped to a type. */
  function KeywordType(kw: string, t: SqlType, s: seq<char>): (r: ParseResult<SqlType>)
    ensures Fits(r, s)
    ensures r.Done? <==> StartsNoCase(s, kw)
    ensures r.Done? ==> r == Done(t, |kw|)
  {
    if TagNoCase(kw, s).Done? then Done(t, |kw|) else Fail
  }

  // ---------------------------------------------------------------------
  // The arms of type_identifier_first_half (common.rs:929-1041)

  function BoolType(s: seq<char>): (r: ParseResult<SqlType>)
    ensures Fits(r, s)
    ensures r.Done? <==> StartsNoCase(s, "boolean") || StartsNoCase(s, "bool")
  {
    if TagNoCase("boolean", s).Done? then Done(Bool, 7)
    else if TagNoCase("bool", s).Done? then Done(Bool, 4)
    else Fail
  }

  function DateTimeType(s: seq<char>): (r: ParseResult<SqlType>)
    ensures Fits(r, s)
    ensures r.Done? <==> StartsNoCase(s, "datetime")
  {
    var (_, a) :- TagNoCase("datetime", s);
    var (fsp, b) := OptLen(s[a..]);
    Done(DateTime(fsp), a + b)
  }

  /** `opt(preceded(whitespace1, tag_no_case("precision")))`. */
  function OptPrecisionWord(s: seq<char>): (n: nat)
    ensures n <= |s|
  {
    Opt(SpacedPhrase(["precision"], s)).1
  }

  /** `double [precision] [(m[, d])] [signed|unsigned]`: the lengths and sign are discarded. */
  function DoubleType(s: seq<char>): (r: ParseResult<SqlType>)
    ensures Fits(r, s)
    ensures r.Done? <==> StartsNoCase(s, "double")
  {
    var (_, a) :- TagNoCase("double", s);
    var b := OptPrecisionWord(s[a..]);
    var c := Whitespace0(s[a + b..]);
    var (_, d) := Opt(Precision(s[a + b + c..]));
    var e := Whitespace0(s[a + b + c + d..]);
    var (_, f) := OptSigned(s[a + b + c + d + e..]);
    Done(Double, a + b + c + d + e + f)
  }

  /** `numeric [(p[, s])]`. */
  function NumericType(s: seq<char>): (r: ParseResult<SqlType>)
    ensures Fits(r, s)
    ensures r.Done? <==> StartsNoCase(s, "numeric")
  {
    var (_, a) :- TagNoCase("numeric", s);
    var b := Whitespace0(s[a..]);
    var (p, c) := Opt(NumericPrecision(s[a + b..]));
    Done(Numeric(p), a + b + c)
  }

  /** `enum(v1, v2, ...)` over the dialect's `value_list`. */
  function EnumType(lex: Lexicon, s: seq<char>): (r: ParseResult<SqlType>)
    ensures Fits(r, s)
    ensures r.Done? ==> StartsNoCase(s, "enum")
  {
    var (_, a) :- TagNoCase("enum", s);
    var (_, b) :- ParseCore.Char('(', s[a..]);
    var list := LG.ValueList(lex, s[a + b..]);
    var (vs, c) := (list.value, list.used);
    var (_, d) :- ParseCore.Char(')', s[a + b + c..]);
    var e := Whitespace0(s[a + b + c + d..]);
    Done(Enum(vs), a + b + c + d + e)
  }

  function FloatType(s: seq<char>): (r: ParseResult<SqlType>)
    ensures Fits(r, s)
    ensures r.Done? <==> StartsNoCase(s, "float")
  {
    var (_, a) :- TagNoCase("float", s);
    var b := Whitespace0(s[a..]);
    var (_, c) := Opt(Precision(s[a + b..]));
    var d := Whitespace0(s[a + b + c..]);
    Done(Float, a + b + c + d)
  }

  function RealType(s: seq<char>): (r: ParseResult<SqlType>)
    ensures Fits(r, s)
    ensures r.Done? <==> StartsNoCase(s, "real")
  {
    var (_, a) :- TagNoCase("real", s);
    var b := Whitespace0(s[a..]);
    var (_, c) := OptSigned(s[a + b..]);
    Done(Real, a + b + c)
  }

  /** `timestamp [(n)] with time zone`. */
  function TimestampTzType(s: seq<char>): (r: ParseResult<SqlType>)
    ensures Fits(r, s)
    ensures r.Done? ==> StartsNoCase(s, "timestamp")
  {
    var (_, a) :- TagNoCase("timestamp", s);
    var (_, b) :- TimestampTzTail(s[a..]);
    Done(TimestampTz, a + b)
  }

  /** What follows `timestamp` in `timestamp [(n)] with time zone`. */
  function TimestampTzTail(s: seq<char>): (r: ParseResult<()>)
    ensures Fits(r, s)
  {
    var b := OptTimestampPrecision(s);
    var (_, c) :- SpacedPhrase(["with", "time", "zone"], s[b..]);
    Done((), b + c)
  }

  /** `timestamp [(n)] [without time zone]`. */
  function TimestampType(s: seq<char>): (r: ParseResult<SqlType>)
    ensures Fits(r, s)
    ensures r.Done? <==> StartsNoCase(s, "timestamp")
  {
    var (_, a) :- TagNoCase("timestamp", s);
    var b := TimestampTail(s[a..]);
    Done(Timestamp, a + b)
  }

  /** What follows `timestamp` in `timestamp [(n)] [without time zone]`: the characters consumed. */
  function TimestampTail(s: seq<char>): (n: nat)
    ensures n <= |s|
  {
    var b := OptTimestampPrecision(s);
    b + OptWithoutTimeZone(s[b..])
  }

  /** The two spellings of `VARCHAR`: `varchar` and `character varying`. */
  function VarcharWord(s: seq<char>): (r: ParseResult<()>)
    ensures Fits(r, s)
    ensures r.Done? ==> StartsNoCase(s, "varchar") || StartsNoCase(s, "character")
    ensures StartsNoCase(s, "varchar") ==> r.Done?
  {
    if TagNoCase("varchar", s).Done? then Done((), 7 + Whitespace0(s[7..]))
    else Phrase(["character", "varying"], s)
  }

  /** `varchar [(n)] [binary]` or `character varying [(n)] [binary]`. */
  function VarcharType(s: seq<char>): (r: ParseResult<SqlType>)
    ensures Fits(r, s)
    ensures r.Done? ==> StartsNoCase(s, "varchar") || StartsNoCase(s, "character")
    ensures StartsNoCase(s, "varchar") ==> r.Done?
  {
    var (_, a) :- VarcharWord(s);
    var (len, b) := OptLen(s[a..]);
    var c := Whitespace0(s[a + b..]);
    var (_, d) := Opt(TagNoCase("binary", s[a + b + c..]));
    Done(Varchar(len), a + b + c + d)
  }

  /** `char [(n)] [binary]`. */
  function CharType(s: seq<char>): (r: ParseResult<SqlType>)
    ensures Fits(r, s)
    ensures r.Done? <==> StartsNoCase(s, "char")
  {
    var (_, a) :- TagNoCase("char", s);
    var (len, b) := OptLen(s[a..]);
    var c := Whitespace0(s[a + b..]);
    var (_, d) := Opt(TagNoCase("binary", s[a + b + c..]));
    Done(Char(len), a + b + c + d)
  }

  // The alternatives of `type_identifier` as parsers.
  const TinyintArm: (seq<char> -> ParseResult<SqlType>) := s => IntType("tinyint", TinyKind, s)
  const SmallintArm: (seq<char> -> ParseResult<SqlType>) := s => IntType("smallint", SmallKind, s)
  const IntegerArm: (seq<char> -> ParseResult<SqlType>) := s => IntType("integer", IntegerKind, s)
  const IntArm: (seq<char> -> ParseResult<SqlType>) := s => IntType("int", IntegerKind, s)
  const BigintArm: (seq<char> -> ParseResult<SqlType>) := s => IntType("bigint", BigKind, s)
  const DateArm: (seq<char> -> ParseResult<SqlType>) := s => KeywordType("date", Date, s)
  const TextArm: (seq<char> -> ParseResult<SqlType>) := s => KeywordType("text", Text, s)

  function EnumArm(lex: Lexicon): (seq<char> -> ParseResult<SqlType>) {
    s => EnumType(lex, s)
  }

  const BoolArm: (seq<char> -> ParseResult<SqlType>) := s => BoolType(s)
  const DateTimeArm: (seq<char> -> ParseResult<SqlType>) := s => DateTimeType(s)
  const DoubleArm: (seq<char> -> ParseResult<SqlType>) := s => DoubleType(s)
  const NumericArm: (seq<char> -> ParseResult<SqlType>) := s => NumericType(s)
  const FloatArm: (seq<char> -> ParseResult<SqlType>) := s => FloatType(s)
  const RealArm: (seq<char> -> ParseResult<SqlType>) := s => RealType(s)
  const TimestampTzArm: (seq<char> -> ParseResult<SqlType>) := s => TimestampTzType(s)
  const TimestampArm: (seq<char> -> ParseResult<SqlType>) := s => TimestampType(s)
  const VarcharArm: (seq<char> -> ParseResult<SqlType>) := s => VarcharType(s)
  const CharArm: (seq<char> -> ParseResult<SqlType>) := s => CharType(s)

  /** Alternative `j` of `type_identifier_first_half`, in source order. */
  function FirstArm(j: nat, lex: Lexicon): seq<char> -> ParseResult<SqlType>
    requires j < 18
  {
    match j
    case 0 => TinyintArm
    case 1 => SmallintArm
    case 2 => IntegerArm
    case 3 => IntArm
    case 4 => BigintArm
    case 5 => BoolArm
    case 6 => DateTimeArm
    case 7 => DateArm
    case 8 => DoubleArm
    case 9 => NumericArm
    case 10 => EnumArm(lex)
    case 11 => FloatArm
    case 12 => RealArm
    case 13 => TextArm
    case 14 => TimestampTzArm
    case 15 => TimestampArm
    case 16 => VarcharArm
    case 17 => CharArm
  }

  /** The alternatives of `type_identifier_first_half`. */
  function FirstHalfArms(lex: Lexicon): (ps: seq<seq<char> -> ParseResult<SqlType>>)
    ensures |ps| == 18
    ensures forall j :: 0 <= j < 18 ==> ps[j] == FirstArm(j, lex)
  {
    seq(18, j requires 0 <= j < 18 => FirstArm(j, lex))
  }

  /** `type_identifier_first_half` (common.rs:929-1041). */
  function FirstHalf(lex: Lexicon, s: seq<char>): (r: ParseResult<SqlType>)
    ensures Fits(r, s)
  {
    var ps := FirstHalfArms(lex);
    assert forall i :: 0 <= i < |ps| ==> Fits(ps[i](s), s) by {
      forall i | 0 <= i < |ps| ensures Fits(FirstArm(i, lex)(s), s) {
        if i == 10 { assert Fits(EnumType(lex, s), s); }
      }
    }
    AltFits(ps, s);
    Alt(ps, s)
  }

  // ---------------------------------------------------------------------
  // The arms of type_identifier_second_half (common.rs:1043-1097)

  function TimeType(s: seq<char>): (r: ParseResult<SqlType>)
    ensures Fits(r, s)
    ensures r.Done? <==> StartsNoCase(s, "time")
  {
    var (_, a) :- TagNoCase("time", s);
    Done(Time, a + OptWithoutTimeZone(s[a..]))
  }

  /**
   * `decimal_or_numeric` (common.rs:896-911): `DECIMAL` without a precision
   * is `Decimal(32, 0)`, without a scale `Decimal(m, 0)`.
   */
  function DecimalOrNumeric(s: seq<char>): (r: ParseResult<SqlType>)
    ensures Fits(r, s)
    ensures r.Done? <==> StartsNoCase(s, "decimal") || StartsNoCase(s, "numeric")
    ensures r.Done? ==> r.value.Decimal?
  {
    var a := if TagNoCase("decimal", s).Done? then 7 else if TagNoCase("numeric", s).Done? then 7 else 0;
    if a == 0 then Fail
    else
      var (t, b) := DecimalTail(s[a..]);
      Done(t, a + b)
  }

  /** What follows the keyword of `decimal_or_numeric`: an optional precision, then whitespace. */
  function DecimalTail(s: seq<char>): (o: (SqlType, nat))
    ensures o.1 <= |s| && o.0.Decimal?
  {
    var (p, b) := Opt(Precision(s));
    var c := Whitespace0(s[b..]);
    if p.None? then (Decimal(32, 0), b + c)
    else
      var (m, d) := p.value;
      (Decimal(m, if d.Some? then d.value else 0), b + c)
  }

  function BinaryType(s: seq<char>): (r: ParseResult<SqlType>)
    ensures Fits(r, s)
    ensures r.Done? <==> StartsNoCase(s, "binary")
  {
    var (_, a) :- TagNoCase("binary", s);
    var (len, b) := OptLen(s[a..]);
    Done(Binary(len), a + b + Whitespace0(s[a + b..]))
  }

  /** `varbinary(n)`: the length is required. */
  function VarbinaryType(s: seq<char>): (r: ParseResult<SqlType>)
    ensures Fits(r, s)
    ensures r.Done? ==> StartsNoCase(s, "varbinary")
  {
    var (_, a) :- TagNoCase("varbinary", s);
    var (len, b) :- DelimU16(s[a..]);
    Done(Varbinary(len), a + b + Whitespace0(s[a + b..]))
  }

  /** The two spellings of `VARBIT`: `varbit` and `bit varying`, each with trailing whitespace. */
  function VarbitWord(s: seq<char>): (r: ParseResult<()>)
    ensures Fits(r, s)
    ensures r.Done? ==> StartsNoCase(s, "varbit") || StartsNoCase(s, "bit")
  {
    if TagNoCase("varbit", s).Done? then Done((), 6 + Whitespace0(s[6..]))
    else
      var (_, a) :- Phrase(["bit", "varying"], s);
      Done((), a + Whitespace0(s[a..]))
  }

  function VarbitType(s: seq<char>): (r: ParseResult<SqlType>)
    ensures Fits(r, s)
    ensures r.Done? ==> StartsNoCase(s, "varbit") || StartsNoCase(s, "bit")
  {
    var (_, a) :- VarbitWord(s);
    var (len, b) := OptLen(s[a..]);
    Done(Varbit(len), a + b)
  }

  function BitType(s: seq<char>): (r: ParseResult<SqlType>)
    ensures Fits(r, s)
    ensures r.Done? <==> StartsNoCase(s, "bit")
  {
    var (_, a) :- TagNoCase("bit", s);
    var (len, b) := OptLen(s[a..]);
    Done(Bit(len), a + b)
  }

  const BlobArm: (seq<char> -> ParseResult<SqlType>) := s => KeywordType("blob", Blob, s)
  const LongblobArm: (seq<char> -> ParseResult<SqlType>) := s => KeywordType("longblob", Longblob, s)
  const MediumblobArm: (seq<char> -> ParseResult<SqlType>) := s => KeywordType("mediumblob", Mediumblob, s)
  const MediumtextArm: (seq<char> -> ParseResult<SqlType>) := s => KeywordType("mediumtext", Mediumtext, s)
  const LongtextArm: (seq<char> -> ParseResult<SqlType>) := s => KeywordType("longtext", Longtext, s)
  const TinyblobArm: (seq<char> -> ParseResult<SqlType>) := s => KeywordType("tinyblob", Tinyblob, s)
  const TinytextArm: (seq<char> -> ParseResult<SqlType>) := s => KeywordType("tinytext", Tinytext, s)
  const ByteArrayArm: (seq<char> -> ParseResult<SqlType>) := s => KeywordType("bytea", ByteArray, s)
  const MacAddrArm: (seq<char> -> ParseResult<SqlType>) := s => KeywordType("macaddr", MacAddr, s)
  const InetArm: (seq<char> -> ParseResult<SqlType>) := s => KeywordType("inet", Inet, s)
  const UuidArm: (seq<char> -> ParseResult<SqlType>) := s => KeywordType("uuid", Uuid, s)
  const JsonbArm: (seq<char> -> ParseResult<SqlType>) := s => KeywordType("jsonb", Jsonb, s)
  const JsonArm: (seq<char> -> ParseResult<SqlType>) := s => KeywordType("json", Json, s)
  const SerialArm: (seq<char> -> ParseResult<SqlType>) := s => KeywordType("serial", Serial, s)
  const BigSerialArm: (seq<char> -> ParseResult<SqlType>) := s => KeywordType("bigserial", BigSerial, s)
  const TimeArm: (seq<char> -> ParseResult<SqlType>) := s => TimeType(s)
  const DecimalArm: (seq<char> -> ParseResult<SqlType>) := s => DecimalOrNumeric(s)
  const BinaryArm: (seq<char> -> ParseResult<SqlType>) := s => BinaryType(s)
  const VarbinaryArm: (seq<char> -> ParseResult<SqlType>) := s => VarbinaryType(s)
  const VarbitArm: (seq<char> -> ParseResult<SqlType>) := s => VarbitType(s)
  const BitArm: (seq<char> -> ParseResult<SqlType>) := s => BitType(s)

  /** Alternative `j` of `type_identifier_second_half`, in source order. */
  function SecondArm(j: nat): seq<char> -> ParseResult<SqlType>
    requires j < 21
  {
    match j
    case 0 => TimeArm
    case 1 => DecimalArm
    case 2 => BinaryArm
    case 3 => BlobArm
    case 4 => LongblobArm
    case 5 => MediumblobArm
    case 6 => MediumtextArm
    case 7 => LongtextArm
    case 8 => TinyblobArm
    case 9 => TinytextArm
    case 10 => VarbinaryArm
    case 11 => ByteArrayArm
    case 12 => MacAddrArm
    case 13 => InetArm
    case 14 => UuidArm
    case 15 => JsonbArm
    case 16 => JsonArm
    case 17 => VarbitArm
    case 18 => BitArm
    case 19 => SerialArm
    case 20 => BigSerialArm
  }

  /** The alternatives of `type_identifier_second_half`. */
  function SecondHalfArms(): (ps: seq<seq<char> -> ParseResult<SqlType>>)
    ensures |ps| == 21
    ensures forall j :: 0 <= j < 21 ==> ps[j] == SecondArm(j)
  {
    seq(21, j requires 0 <= j < 21 => SecondArm(j))
  }

  /** `type_identifier_second_half` (common.rs:1043-1097). */
  function SecondHalf(s: seq<char>): (r: ParseResult<SqlType>)
    ensures Fits(r, s)
  {
    var ps := SecondHalfArms();
    assert forall i :: 0 <= i < |ps| ==> Fits(ps[i](s), s) by {
      forall i | 0 <= i < |ps| ensures Fits(SecondArm(i)(s), s) { }
    }
    AltFits(ps, s);
    Alt(ps, s)
  }

  /** `type_identifier` (common.rs:1099-1107): the first half, then the second. */
  function TypeIdentifier(lex: Lexicon, s: seq<char>): (r: ParseResult<SqlType>)
    ensures Fits(r, s)
    ensures FirstHalf(lex, s).Done? ==> r == FirstHalf(lex, s)
    ensures FirstHalf(lex, s).Fail? ==> r == SecondHalf(s)
  {
    var f := FirstHalf(lex, s);
    if f.Done? then f else SecondHalf(s)
  }

  datatype Result<T> = Ok(value: T) | Err(error: string)

  /**
   * `FromStr for SqlType` (common.rs:191-200): `type_identifier` in the
   * MySQL dialect; anything after the type is ignored, and any failure is
   * the one message "failed to parse".
   */
  function FromStr(mysql: Lexicon, s: string): (r: Result<SqlType>)
    requires mysql.dialect == MySQL
    ensures r.Ok? <==> TypeIdentifier(mysql, s).Done?
    ensures r.Ok? ==> r.value == TypeIdentifier(mysql, s).value
    ensures r.Err? ==> r.error == "failed to parse"
  {
    match TypeIdentifier(mysql, s)
    case Done(t, _) => Ok(t)
    case Fail => Err("failed to parse")
  }
}
