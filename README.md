# nom-sql common grammar, modelled in Dafny

This project models `nom-sql/src/common.rs` of ReadySet's SQL parser. That
file holds the reusable pieces of the SQL grammar: SQL types, lengths and
precisions, literals, column and table references, field lists, function
calls and a few clause parsers. It also holds the canonical renderers
(`Display`) for SQL types, literals and table constraints.

Every nom parser is modelled as a pure function from the input text to a
`ParseResult`: `Fail`, or `Done(value, used)` where `used` is the number of
characters consumed. The remainder nom hands back is the suffix after those
characters. Every parser's contract carries `Fits`: it never consumes more
than its input, which is nom's "the remainder is a suffix of the input". One
character of input stands for one input byte.

The rules the core calls but does not define are fields of a `Lexicon`
parameter:

- the dialect's identifier, function name, string, byte-array and bit-vector
  literal rules;
- the expression grammar;
- `String::from_utf8` and `f64::from_str`.

Lemmas about texts that pass through those rules say, in their `requires`,
what the rule reads from the text at hand. An example is "the dialect reads
`x` as the column `x`".

Modules, in dependency order:

- `ParseCore`: results, `tag`, `tag_no_case`, `digit1`, whitespace,
  `separated_list0/1`, `alt` and `opt_delimited`.
- `Numeric`: fixed-width integers, decimal text, `digit_as_u16/u8`,
  `precision`, `numeric_precision`, `delim_u16` and `opt_signed`.
- `Reals`: `Float`/`Double` equality and hashing, and `write_real`.
- `Literals`: `ItemPlaceholder` and `Display for Literal`.
- `LiteralGrammar` and `LiteralFacts`: `literal` and its round trip.
- `SqlTypes`: `SqlType`, its `Display`, `type_identifier` and `FromStr`.
- `SqlTypeFacts`, `TypeReading`, `TypeCases` and `TypeRoundTrip`: the order
  of the alternatives, the source's type tests, and the round trip
  `type_identifier(Display(t)) == t`.
- `Ast`, `References`, `Functions`, `FunctionFacts` and `Clauses`:
  references, field lists, `column_function`, `statement_terminator`,
  `if_not_exists` and `parse_comment`.
- `CoalesceCases`: the `coalesce` calls of the test at lines 1643-1663 whose
  arguments have whitespace around a comma.
- `TableKeys`: `Display` for `IndexType`, `ReferentialAction` and `TableKey`,
  and what can be read back from that text.

## Model

| member | source | states |
|---|---|---|
| ParseCore.TagNoCase | nom-sql/src/common.rs:16 | `tag_no_case(t)` succeeds exactly when the input starts with `t` in any ASCII case, and then consumes `\|t\|` characters |
| ParseCore.Whitespace0 | nom-sql/src/common.rs:33 | skips exactly the leading run of whitespace: every skipped character is whitespace, and the next one is not |
| ParseCore.Whitespace1 | nom-sql/src/common.rs:33 | succeeds exactly when the input starts with whitespace, and then consumes as much as `whitespace0` |
| ParseCore.Eof | nom-sql/src/common.rs:1238-1244 | succeeds exactly at the end of the input, and consumes nothing |
| ParseCore.LineEnding | nom-sql/src/common.rs:1249 | succeeds exactly on `\n` or `\r\n` |
| ParseCore.WsSepComma | nom-sql/src/common.rs:1289-1292 | succeeds exactly when a comma follows the leading whitespace, and always consumes something |
| ParseCore.WsSepEquals | nom-sql/src/common.rs:1294-1316 | succeeds exactly when `=` follows the leading whitespace, and always consumes something |
| ParseCore.SeparatedList0 | nom-sql/src/common.rs:20 | an empty list, consuming nothing, when the first element fails |
| ParseCore.SeparatedList1 | nom-sql/src/common.rs:1321 | fails when the first element fails; otherwise the list is nonempty and starts with that element |
| ParseCore.CommaListsSucceed | nom-sql/src/common.rs:1318-1327 | with `ws_sep_comma` between the elements, `separated_list1` succeeds exactly when its first element does, and `separated_list0` never fails |
| ParseCore.CommaListReads | nom-sql/src/common.rs:1318-1327 | items, each read whole by the element parser, joined by `, ` and followed by text that is not a comma, are read back as the list of their values, consuming exactly the joined text |
| ParseCore.OptDelimited | nom-sql/src/common.rs:799-821 | whenever `second` alone succeeds, that is the result; otherwise it succeeds exactly when `first`, `second` and `third` succeed in turn, giving `second`'s value and consuming all three |
| ParseCore.AltPicks | nom-sql/src/common.rs:1100-1107 | in `alt`, the first alternative that succeeds decides the result, and later ones are never consulted |
| ParseCore.AltFromFails | nom-sql/src/common.rs:1100-1107 | `alt` fails exactly when every alternative fails |
| ParseCore.AltFromChooses | nom-sql/src/common.rs:1100-1107 | a successful `alt` is the result of some alternative, and every earlier one failed |
| Numeric.NatTextValue | nom-sql/src/common.rs:353 | the decimal text Rust writes for a number reads back as that number |
| Numeric.NatTextInjective | nom-sql/src/common.rs:353 | different numbers never share a decimal text |
| Numeric.DigitAsU16 | nom-sql/src/common.rs:767-781 | gives the value exactly when the text is a `u16` in Rust's `from_str` syntax, and an error otherwise |
| Numeric.DigitAsU8 | nom-sql/src/common.rs:783-797 | the same for `u8` |
| Numeric.DigitAsU16Text | nom-sql/src/common.rs:767-781 | the text of any `u16` converts back to it, and a larger number is refused rather than wrapped |
| Numeric.DigitAsU8Text | nom-sql/src/common.rs:783-797 | the text of any `u8` converts back to it, and a larger number is refused |
| Numeric.PrecisionHelper | nom-sql/src/common.rs:823-838 | on success, the first number is the value of the leading digits, and a first number of 256 or more fails; the scale is absent exactly when no `, digits` follows, and otherwise is the value of those digits, everything read being consumed |
| Numeric.Precision | nom-sql/src/common.rs:840-842 | never consumes more than its input; what it reads is stated by `Numeric.PrecisionRoundTrip` and the two overflow lemmas |
| Numeric.NumericPrecision | nom-sql/src/common.rs:844-859 | never consumes more than its input; what it reads is stated by `Numeric.NumericPrecisionRoundTrip` and `Numeric.NumericPrecisionOverflow` |
| Numeric.PrecisionRoundTrip | nom-sql/src/common.rs:823-842 | `precision` reads back a rendered `(m)` or `(m, d)` of `u8`s, whatever follows |
| Numeric.PrecisionOverflow | nom-sql/src/common.rs:829 | `precision` fails when the first number does not fit a `u8` |
| Numeric.PrecisionScaleOverflow | nom-sql/src/common.rs:832-835 | `precision` fails when the scale does not fit a `u8`, even when the precision does |
| Numeric.NumericPrecisionRoundTrip | nom-sql/src/common.rs:844-859 | `numeric_precision` reads back a rendered `(p)` or `(p, s)` for a `u16` and a `u8` |
| Numeric.NumericPrecisionOverflow | nom-sql/src/common.rs:855 | `numeric_precision` fails when the precision does not fit a `u16` |
| Numeric.OptSigned | nom-sql/src/common.rs:861-866 | `UNSIGNED` when the input starts with it in any case, `SIGNED` when it starts with that instead, and nothing consumed otherwise |
| Numeric.DelimDigit | nom-sql/src/common.rs:868-870 | on success, the digits read are nonempty and all decimal digits |
| Numeric.DelimDigitReads | nom-sql/src/common.rs:868-870 | succeeds exactly when `(`, a run of digits and `)` open the input, and then gives that run and consumes the parenthesised text |
| Numeric.DelimU16 | nom-sql/src/common.rs:872-874 | on success, the value is the number the parenthesised digits denote, and it fits a `u16` |
| Numeric.DelimU16Text | nom-sql/src/common.rs:872-874 | `(n)` reads back as `n` for every `u16`, and a larger `n` is refused |
| Reals.FloatHashMatchesEq | nom-sql/src/common.rs:208-221 | two `Float`s are equal exactly when the hasher is fed the same writes, so equal floats hash alike under any hasher |
| Reals.DoubleHashMatchesEq | nom-sql/src/common.rs:229-242 | the same for `Double`s, the property of the test at lines 1747-1750 |
| Reals.DoubleEqIsEquivalence | nom-sql/src/common.rs:229-235 | equality on bit patterns is reflexive, symmetric and transitive, which `impl Eq` relies on |
| Reals.DoubleEqIsNotIeee | nom-sql/src/common.rs:229-233 | where this equality and IEEE equality part: a NaN equals itself, and `0.0` differs from `-0.0` |
| Reals.CapPrecision | nom-sql/src/common.rs:338 | the precision used is the given one, but at most 30 |
| Reals.TrimZeros | nom-sql/src/common.rs:341 | `trim_end_matches('0')`: the result does not end in `0`, and only zeros were removed |
| Reals.WriteReal | nom-sql/src/common.rs:336-347 | (corrected) the text never ends in `.`; an integer text is kept as it is |
| Reals.WriteRealFraction | nom-sql/src/common.rs:336-347 | for `ip.fp`, the integer part is kept, and the fraction keeps at least one digit and ends in no `0` unless it is `0`; the value is unchanged (`t / 10^\|t\| == fp / 10^\|fp\|`) |
| Reals.WriteRealOneAndAHalf | nom-sql/src/common.rs:1716-1723 | `1.5` formatted to 30 digits prints `1.5` |
| Reals.WriteRealZero | nom-sql/src/common.rs:1725-1732 | `0.0` formatted to 30 digits prints `0.0` |
| Reals.WriteRealAsWritten | nom-sql/src/common.rs:336-347 | (as written) the text never ends in `.` |
| Reals.WriteRealAsWrittenDropsIntegerZeros | nom-sql/src/common.rs:338-346 | as written, precision 0 turns ten (`10`) into `1`, and zero into the empty text |
| Literals.PlaceholderTextInjective | nom-sql/src/common.rs:251-259 | different placeholders never render alike |
| Literals.StringBodyIsEscape | nom-sql/src/common.rs:359-361 | the two `replace` calls are one escaping pass that doubles each quote and each backslash and keeps every other character |
| Literals.StringBodyInvertible | nom-sql/src/common.rs:359-361 | the rendered body reads back to the original string, so different strings render differently |
| Literals.StringBodyPlain | nom-sql/src/common.rs:359-361 | a string without quotes or backslashes is written unchanged |
| Literals.ByteArrayTextAmbiguous | nom-sql/src/common.rs:362-375 | `[0x01, 0x23]` and `[0x12, 0x03]` render to the same byte-array hex `123` and to different blob texts |
| Literals.BitsValue | nom-sql/src/common.rs:377-386 | the bits of a number below `2^n`, most significant first, read back as that number |
| Literals.ByteBitsValue | nom-sql/src/common.rs:377-386 | each byte's eight bits read back as the byte |
| Literals.BitsText | nom-sql/src/common.rs:377-386 | a bit-vector text has eight characters per byte, each `0` or `1` |
| LiteralGrammar.IntegerLiteralAsWritten | nom-sql/src/common.rs:1365-1380 | (as written) on success, an `Integer`, never `i64::MIN`, and the corrected rule's result; it fails where the corrected rule succeeds only on `i64::MIN` |
| LiteralGrammar.IntegerLiteral | nom-sql/src/common.rs:1365-1380 | (corrected) on success, an `Integer`; which texts it reads is stated by `LiteralFacts.IntegerRoundTrip` and `LiteralFacts.IntegerLiteralFix` |
| LiteralGrammar.FloatLiteral | nom-sql/src/common.rs:1382-1403 | on success, a `Double` read over exactly the `[-] digits . digits` text of `float`, whose precision is the number of fraction digits, wrapped to a `u8` |
| LiteralGrammar.BooleanLiteral | nom-sql/src/common.rs:1405-1410 | succeeds exactly when the input starts with `true` or `false` in any case, and the value is `true` exactly for `true` |
| LiteralGrammar.ValueList | nom-sql/src/common.rs:1456-1459 | (as written) `value_list` never fails, and is empty, consuming nothing, when the first literal fails |
| LiteralFacts.IntegerRoundTrip | nom-sql/src/common.rs:1365-1380 | (corrected) every `i64` reads back from its text, `i64::MIN` included, and that text is not read as a real |
| LiteralFacts.IntegerLiteralFix | nom-sql/src/common.rs:1365-1380 | the corrected and the as-written integer rule differ exactly where the corrected one reads `i64::MIN` |
| LiteralFacts.FloatPrecision | nom-sql/src/common.rs:1389-1403 | `literal` reads `[-] w . f` as a `Double` whose precision is `\|f\|` wrapped to a `u8`, consuming exactly that text; in a dialect whose quoted forms need a quote, the as-written and the corrected `literal` agree there |
| LiteralFacts.FloatPrecisionWraps | nom-sql/src/common.rs:1399 | 256 fraction digits give precision 0, under the as-written `literal` as well in a dialect whose quoted forms need a quote |
| LiteralFacts.TrueLiteral | nom-sql/src/common.rs:1405-1410 | `true` in any case is `Boolean(true)` under both the as-written and the corrected `literal`, whatever follows |
| LiteralFacts.FalseLiteral | nom-sql/src/common.rs:1405-1410 | `false` in any case is `Boolean(false)` under both the as-written and the corrected `literal`, whatever follows |
| LiteralFacts.CurrentTimeKeyword | nom-sql/src/common.rs:1429-1433 | `CURRENT_TIME` is not taken for `CURRENT_TIMESTAMP` when no letter follows it |
| LiteralFacts.NumberedRoundTrip | nom-sql/src/common.rs:1437-1450 | a `u32` after `:` or `$` reads back |
| LiteralFacts.LiteralRoundTrip | nom-sql/src/common.rs:1752-1770 | (corrected) `literal` reads back `NULL`, booleans, every `i64`, `CURRENT_*` and every placeholder from the text `Display` writes, consuming exactly that text, in any dialect whose quoted forms need a quote |
| LiteralFacts.LiteralRoundTripAsWritten | nom-sql/src/common.rs:1752-1770 | (as written) `literal` reads back the same literals from their text, for every one but `Integer(i64::MIN)` |
| LiteralFacts.LiteralFix | nom-sql/src/common.rs:1365-1380 | the as-written and the corrected `literal` differ on a text exactly when the corrected one reads `i64::MIN` there, and then the as-written one fails |
| LiteralFacts.ValueListRoundTrip | nom-sql/src/common.rs:1456-1459 | (as written) the texts of a nonempty list of literals other than `i64::MIN`, joined by `, `, read back as that list, consuming exactly the joined text |
| LiteralFacts.LiteralMinRoundTripFails | nom-sql/src/common.rs:1365-1380 | as written, `literal` refuses the text of `i64::MIN` |
| LiteralFacts.BeyondMaxRefused | nom-sql/src/common.rs:1370 | as written, a negated number beyond `i64::MAX` is read by no alternative of `literal` |
| LiteralFacts.BooleanAnyCase | nom-sql/src/common.rs:1781-1816 | (as written) `true`, `True`, `TruE`, `TRUE` and the four matching spellings of `false` are read whole as the booleans |
| SqlTypes.OptWithoutTimeZone | nom-sql/src/common.rs:913-927 | never consumes more than its input; what it reads is stated by `TypeCases.TimestampVariants` |
| SqlTypes.IntType | nom-sql/src/common.rs:876-894 | succeeds exactly when the input starts with the keyword in any case |
| SqlTypes.DecimalOrNumeric | nom-sql/src/common.rs:899-911 | on success, the input starts with `decimal` or `numeric`, and the result is a `Decimal` |
| SqlTypes.DecimalTail | nom-sql/src/common.rs:900-910 | the result after the keyword is always a `Decimal` |
| SqlTypes.VarbinaryType | nom-sql/src/common.rs:1061-1064 | on success, the input starts with `varbinary` in any case |
| SqlTypes.BitType | nom-sql/src/common.rs:1091-1093 | succeeds exactly when the input starts with `bit` |
| SqlTypes.FirstHalf | nom-sql/src/common.rs:929-1041 | never consumes more than its input; which alternative reads a text is stated by `SqlTypeFacts.FirstWins` |
| SqlTypes.SecondHalf | nom-sql/src/common.rs:1043-1097 | never consumes more than its input; which alternative reads a text is stated by `SqlTypeFacts.SecondWins` |
| SqlTypes.TypeIdentifier | nom-sql/src/common.rs:1099-1107 | the first half's result when it succeeds, else the second half's |
| SqlTypes.FromStr | nom-sql/src/common.rs:191-200 | the MySQL `type_identifier`'s type when it succeeds, and an error otherwise; trailing text is ignored |
| SqlTypeFacts.AltWins | nom-sql/src/common.rs:931-1039 | when the word blocks every earlier alternative, alternative `j` decides `alt` |
| SqlTypeFacts.AltBlocked | nom-sql/src/common.rs:931-1039 | when the word blocks every alternative, `alt` fails |
| SqlTypeFacts.FirstGuarded | nom-sql/src/common.rs:931-1039 | each alternative of the first half succeeds only on input that starts with one of its keywords |
| SqlTypeFacts.SecondGuarded | nom-sql/src/common.rs:1044-1096 | the same for the second half |
| SqlTypeFacts.FirstWins | nom-sql/src/common.rs:929-1041 | a word that blocks the first half's alternatives before `j`, where `j` succeeds, is read by `j` |
| SqlTypeFacts.SecondWins | nom-sql/src/common.rs:1043-1107 | a word that blocks the whole first half and the second half's alternatives before `j` is read by `j` |
| TypeCases.IntTypeSign | nom-sql/src/common.rs:876-894 | `int_type` gives the unsigned constructor exactly when `UNSIGNED` follows and the signed one after `SIGNED` or no sign, and keeps the length |
| TypeCases.IntTypeUnsignedIff | nom-sql/src/common.rs:887-893 | on any input, the type is unsigned exactly when the sign word there is `unsigned` |
| TypeCases.IntegerBeforeInt | nom-sql/src/common.rs:934-935 | `INTEGER(n)` is read whole as `Int`, where the `int` alternative would stop after three letters |
| TypeCases.IntegerSixteen | nom-sql/src/common.rs:1607-1624 | `integer(16)` is `Int(Some(16))`, consuming the whole input |
| TypeCases.BooleanBeforeBool | nom-sql/src/common.rs:937 | `BOOLEAN` is read whole, where `bool`, which also matches, would leave `EAN` |
| TypeCases.DateTimeBeforeDate | nom-sql/src/common.rs:940-943 | `DATETIME(n)` is read whole as `DateTime`, where `date` would also match |
| TypeCases.SqlTypesTest | nom-sql/src/common.rs:1607-1624 | `bool`, `integer(16)` and `datetime(16)` give `Bool`, `Int(Some(16))` and `DateTime(Some(16))` |
| TypeCases.BooleanTest | nom-sql/src/common.rs:1626-1630 | `boolean` is `Bool` |
| TypeCases.TimestampVariants | nom-sql/src/common.rs:983-1007 | `timestamp [(n)] with time zone` is `TimestampTz`, and any other `timestamp [(n)] …` is `Timestamp`; the precision is discarded |
| TypeCases.WithoutIsNotWith | nom-sql/src/common.rs:987-996 | `with` is a prefix of `without`, but the `with time zone` phrase then finds no blank after it |
| TypeCases.TimestampTest | nom-sql/src/common.rs:1986-1990 | `timestamp` is `Timestamp`, read whole |
| TypeCases.TimestampPrecisionTest | nom-sql/src/common.rs:1992-1996 | `timestamp`, optional blanks and `(n)` is `Timestamp`, read whole |
| TypeCases.TimestampWithoutTest | nom-sql/src/common.rs:1998-2005 | `timestamp`, blanks and `without time zone` is `Timestamp`, read whole |
| TypeCases.TimestampPrecisionWithoutTest | nom-sql/src/common.rs:2007-2014 | `timestamp (n)`, blanks and `without time zone` is `Timestamp`, read whole |
| TypeCases.TimestampTzTest | nom-sql/src/common.rs:2016-2023 | `timestamp`, blanks and `with time zone` is `TimestampTz`, read whole |
| TypeCases.TimestampTzPrecisionTest | nom-sql/src/common.rs:2025-2032 | `timestamp (n)`, blanks and `with time zone` is `TimestampTz`, read whole |
| TypeCases.DecimalDefault | nom-sql/src/common.rs:896-911 | `decimal` alone is `Decimal(32, 0)` |
| TypeCases.DecimalWithPrecision | nom-sql/src/common.rs:896-911 | `decimal(m)` is `Decimal(m, 0)` and `decimal(m, d)` is `Decimal(m, d)`, each read whole |
| TypeCases.DecimalOverflow | nom-sql/src/common.rs:900-907 | with `m` too large for a `u8`, `decimal(m)` is still `Decimal(32, 0)`: only the keyword is read, and `(m)` is left |
| TypeCases.DecimalScaleOverflow | nom-sql/src/common.rs:900-907 | the same for a scale too large for a `u8` |
| TypeCases.NumericShadowsDecimal | nom-sql/src/common.rs:955-958 | `numeric` is read in the first half, so the `numeric` keyword of `decimal_or_numeric` is never reached |
| TypeCases.NumericPlain | nom-sql/src/common.rs:955-958 | `numeric` alone is `Numeric(None)` |
| TypeCases.NumericWithPrecision | nom-sql/src/common.rs:955-958 | `numeric(p)` is `Numeric(Some((p, None)))` and `numeric(p, s)` is `Numeric(Some((p, Some(s))))`; the scale is not checked against the precision |
| TypeCases.NumericOverflow | nom-sql/src/common.rs:956 | with `p` too large for a `u16`, `numeric(p)` is `Numeric(None)`, and `(p)` is left unread |
| TypeCases.NumericTest | nom-sql/src/common.rs:1908-1914 | `NUMERIC` is `Numeric(None)` |
| TypeCases.NumericPrecisionTest | nom-sql/src/common.rs:1916-1922 | `NUMERIC(10)` is `Numeric(Some((10, None)))` |
| TypeCases.NumericScaleTest | nom-sql/src/common.rs:1924-1930 | `NUMERIC(10, 20)` is `Numeric(Some((10, Some(20))))` |
| TypeCases.JsonbBeforeJson | nom-sql/src/common.rs:1069-1070 | `JSONB` is read whole as `Jsonb`, where `json` would leave the `b` |
| TypeCases.JsonTest | nom-sql/src/common.rs:1950-1954 | `json` is `Json` |
| TypeCases.JsonbTest | nom-sql/src/common.rs:1956-1960 | `jsonb` is `Jsonb` |
| TypeCases.BitVaryingBeforeBit | nom-sql/src/common.rs:1071-1093 | `bit varying(n)` is `Varbit(n)`, read whole, where `bit`, which also matches, would read three letters and give `Bit(None)` |
| TypeCases.BitTest | nom-sql/src/common.rs:1962-1966 | `bit` is `Bit(None)` |
| TypeCases.BitLengthTest | nom-sql/src/common.rs:1968-1972 | `bit(10)` is `Bit(Some(10))` |
| TypeCases.BitVaryingTest | nom-sql/src/common.rs:1974-1978 | `bit varying` is `Varbit(None)` |
| TypeCases.BitVaryingLengthTest | nom-sql/src/common.rs:1980-1984 | `bit varying(10)` is `Varbit(Some(10))` |
| TypeRoundTrip.TypeTextRoundTrip | nom-sql/src/common.rs:112-189 | `type_identifier` reads back the text `Display for SqlType` writes for every type but `ENUM`, consuming exactly that text, whatever delimiter follows |
| TypeRoundTrip.FromStrReadsDisplay | nom-sql/src/common.rs:191-200 | `FromStr` gives back every type but `ENUM` from the text `Display` writes, alone or followed by a delimiter |
| References.ColumnIdentifierNoAlias | nom-sql/src/common.rs:1227-1236 | fails whenever the dialect's identifier rule fails on the input; what it reads is stated by `References.QualifiedColumn` and `References.UnqualifiedColumn` |
| References.QualifiedColumn | nom-sql/src/common.rs:1227-1236 | `table . name`, with any whitespace around the dot, is the column `name` of `table` |
| References.UnqualifiedColumn | nom-sql/src/common.rs:1227-1236 | a name not followed by a dot is an unqualified column |
| References.QualifiedColumnWithSpaces | nom-sql/src/common.rs:1576-1585 | `foo . bar` is column `bar` of table `foo` |
| References.AsAlias | nom-sql/src/common.rs:1265-1277 | on success, the input starts with whitespace |
| References.AliasWithAs | nom-sql/src/common.rs:1264-1277 | `AS` in any case, with whitespace around it, then the alias |
| References.AliasWithoutAs | nom-sql/src/common.rs:1264-1277 | whitespace, then the alias without `AS` |
| References.TableReference | nom-sql/src/common.rs:1513-1524 | succeeds exactly when the dialect's identifier rule does, never sets a schema, names the table by that identifier, and has an alias exactly when `as_alias` reads one after it |
| References.SchemaTableReferenceNoAlias | nom-sql/src/common.rs:1480-1496 | on success, no alias is set |
| References.SchemaQualifiedTable | nom-sql/src/common.rs:1462-1477 | `schema.table` is read as a schema-qualified table |
| References.SchemaNeedsAdjacentDot | nom-sql/src/common.rs:1466 | a schema must be followed directly by the dot: a name followed by anything else is the table itself |
| References.TableWithAlias | nom-sql/src/common.rs:1513-1524 | a table followed by ` AS alias` keeps the alias |
| References.TableList | nom-sql/src/common.rs:1361-1364 | succeeds exactly when the first table does, and the list starts with it |
| References.TableListReads | nom-sql/src/common.rs:1361-1364 | tables, each read whole, joined by `, ` are read as that list, consuming exactly the joined text |
| References.FieldList | nom-sql/src/common.rs:1325-1327 | never fails, and is empty when the identifier rule fails on the input |
| References.FieldListReads | nom-sql/src/common.rs:1325-1327 | columns, each read whole, joined by `, ` are read as that list |
| References.AssignmentExpr | nom-sql/src/common.rs:1279-1288 | succeeds only when the column does, and pairs that column with the expression |
| References.AssignmentReads | nom-sql/src/common.rs:1279-1288 | `column = expression`, with any whitespace around `=`, is read as the pair |
| References.AssignmentExprList | nom-sql/src/common.rs:1318-1322 | succeeds exactly when the first assignment does, and the list starts with it |
| References.AssignmentListReads | nom-sql/src/common.rs:1318-1322 | assignments, each read whole, joined by `, ` are read as that list of pairs |
| References.FieldDefinition | nom-sql/src/common.rs:1340-1359 | `*` is `All`; otherwise `table.*` is tried before an expression field, and decides the result when it succeeds |
| References.FieldDefinitionExpr | nom-sql/src/common.rs:1340-1359 | never fails |
| References.FieldDefinitionsRead | nom-sql/src/common.rs:1340-1359 | fields, each read whole, joined by `, ` are read as that list, consuming exactly the joined text |
| References.StarField | nom-sql/src/common.rs:1340-1359 | `*` alone is the one field `All` |
| References.StarTrailingComma | nom-sql/src/common.rs:1355 | a trailing comma is consumed with no field after it |
| References.AllInTableRoundTrip | nom-sql/src/common.rs:719-735 | a rendered `` `t`.* `` reads back as `AllInTable(t)` |
| References.ExpressionFieldRoundTrip | nom-sql/src/common.rs:719-735 | a rendered expression field with an alias reads back as that field |
| References.FieldReference | nom-sql/src/common.rs:1540-1555 | in PostgreSQL, a result is always an expression reference; the MySQL positions are stated by `References.NumericReferenceRoundTrip` and `References.NumericOverflowIsExpression` |
| References.FieldReferenceList | nom-sql/src/common.rs:1557-1561 | never fails |
| References.FieldReferenceListReads | nom-sql/src/common.rs:1557-1561 | field references, each read whole, joined by `, ` are read as that list |
| References.NumericReferenceRoundTrip | nom-sql/src/common.rs:1540-1555 | in MySQL a rendered position reads back as that position |
| References.NumericOverflowIsExpression | nom-sql/src/common.rs:1546-1552 | a number too large for a `u64` is not a position: MySQL hands it to the expression grammar |
| References.PostgresNumberIsExpression | nom-sql/src/common.rs:1543 | in PostgreSQL the same number is never a position |
| Functions.AggFunctionArguments | nom-sql/src/common.rs:1109-1119 | the flag is set exactly when `DISTINCT` and whitespace open the arguments |
| Functions.AggFxArgs | nom-sql/src/common.rs:1146-1148 | on success, the text opens with `(` and the consumed text ends with `)` |
| Functions.GroupConcatFxHelper | nom-sql/src/common.rs:1121-1135 | succeeds exactly when `SEPARATOR`, in any case, follows the leading whitespace |
| Functions.GroupConcatFx | nom-sql/src/common.rs:1137-1144 | succeeds exactly when the column does |
| Functions.DelimFxArgs | nom-sql/src/common.rs:1150-1161 | on success, the text opens with `(` and the consumed text ends with `)` |
| Functions.GroupConcatArm | nom-sql/src/common.rs:1193-1210 | on success, a `GroupConcat` of a column |
| Functions.GenericCall | nom-sql/src/common.rs:1211-1221 | on success, a call whose name is the one the dialect's function-name rule read |
| Functions.ColumnFunction | nom-sql/src/common.rs:1163-1225 | `count(*)` in any case is `CountStar`, consuming eight characters |
| FunctionFacts.AggregateReads | nom-sql/src/common.rs:1166-1192 | an aggregate name directly followed by its arguments is that aggregate, whatever the dialect's function names are |
| FunctionFacts.DistinctAggregate | nom-sql/src/common.rs:1111-1119 | `DISTINCT` is read by every aggregate, and kept by `COUNT`, `SUM` and `AVG` |
| FunctionFacts.MaxMinDropDistinct | nom-sql/src/common.rs:1187-1192 | `max(distinct x)` is `max(x)`, and the same for `min` |
| FunctionFacts.NestedFunctionCall | nom-sql/src/common.rs:1665-1674 | `max(min(foo))` is `MAX` of the call `MIN(foo)` |
| FunctionFacts.GroupConcatDefaultSeparator | nom-sql/src/common.rs:1199-1204 | without a separator clause the separator is `,` |
| FunctionFacts.GroupConcatExplicitSeparator | nom-sql/src/common.rs:1121-1135 | an explicit separator is the literal's text |
| FunctionFacts.GroupConcatBareSeparator | nom-sql/src/common.rs:1124-1133 | `SEPARATOR` with no literal after it gives the empty separator, not the default comma |
| FunctionFacts.GroupConcatExample | nom-sql/src/common.rs:1632-1641 | `group_concat(x separator ', ')` is `GroupConcat(x, ", ")` |
| FunctionFacts.DelimFxArgsOf | nom-sql/src/common.rs:1150-1161 | parenthesised argument texts are read as their expressions, in order |
| FunctionFacts.GenericCallOf | nom-sql/src/common.rs:1211-1221 | a function name, optional whitespace and its arguments are read as the generic call |
| FunctionFacts.SpacedCountIsGenericCall | nom-sql/src/common.rs:1163-1224 | `count` followed by whitespace before `(` is not the `COUNT` aggregate; the generic call reads it |
| FunctionFacts.CoalesceExample | nom-sql/src/common.rs:1643-1663 | `coalesce(a,b,c)` and `coalesce (a,b,c)` are the call of `coalesce` on the three columns |
| CoalesceCases.CoalesceCall | nom-sql/src/common.rs:1163-1225 | `coalesce`, whitespace and parenthesised arguments are not one of the named aggregates, and are read as the generic call of `coalesce` on those arguments |
| CoalesceCases.CoalesceSpaceBeforeComma | nom-sql/src/common.rs:1643-1663 | `coalesce(a ,b,c)`, with any whitespace before the parenthesis, is the call of `coalesce` on the three columns |
| CoalesceCases.CoalesceSpaceAfterComma | nom-sql/src/common.rs:1643-1663 | `coalesce(a, b,c)`, with any whitespace before the parenthesis, is the call of `coalesce` on the three columns |
| Clauses.StatementTerminator | nom-sql/src/common.rs:1246-1252 | never consumes more than its input; what it accepts is stated by `Clauses.StatementTerminatorAccepts` |
| Clauses.StatementTerminatorAccepts | nom-sql/src/common.rs:1246-1252 | succeeds exactly when only whitespace is left or `;` follows it, and then consumes the whitespace after it too |
| Clauses.TerminatedWithStatementTerminator | nom-sql/src/common.rs:1254-1263 | succeeds exactly when the parser does and a terminator follows it; the value is the parser's, and the terminator is consumed too |
| Clauses.SemicolonNewlineTerminates | nom-sql/src/common.rs:1246-1252 | `;` then a newline ends a statement, leaving what follows |
| Clauses.SpacedSemicolonTerminates | nom-sql/src/common.rs:1246-1252 | `;` with whitespace on both sides is a terminator that consumes the whole text |
| Clauses.TerminatedBySemicolon | nom-sql/src/common.rs:1711-1714 | `   ;  ` is terminated, consuming all six characters |
| Clauses.NewlineAloneDoesNotTerminate | nom-sql/src/common.rs:1249 | a newline that more text follows does not end a statement |
| Clauses.IfNotExists | nom-sql/src/common.rs:1498-1511 | nothing is consumed when the phrase is absent; when present, the text starts with `if` and at least nine characters are consumed |
| Clauses.IfNotExistsReads | nom-sql/src/common.rs:1498-1511 | `IF NOT EXISTS` in any case, with any whitespace between and after the words, is read |
| Clauses.IfNotExistsUpperCase | nom-sql/src/common.rs:1498-1511 | `IF NOT EXISTS ` is read |
| Clauses.IfNotExistsNeedsTrailingSpace | nom-sql/src/common.rs:1505 | at the very end of the input the phrase is not recognised, and nothing is consumed |
| Clauses.ParseComment | nom-sql/src/common.rs:1527-1538 | on success, at least ten characters are consumed, the last of them a quote |
| Clauses.CommentReads | nom-sql/src/common.rs:1527-1538 | `COMMENT 'body'` gives the decoded body and stops after the quote |
| Clauses.UnterminatedComment | nom-sql/src/common.rs:1532 | a comment without a closing quote does not parse |
| TableKeys.KeyBodyRoundTrip | nom-sql/src/common.rs:572-629 | the body of a key reads back to its name, column names and index type, when no name holds a backtick |
| TableKeys.UniqueKeyRoundTrip | nom-sql/src/common.rs:572-629 | unique and plain keys keep their name, column names and index type in the text |
| TableKeys.PrimaryKeyRoundTrip | nom-sql/src/common.rs:557-609 | primary and fulltext keys keep their name and column names in the text |
| TableKeys.QuotedListAmbiguous | nom-sql/src/common.rs:565-569 | one column named ``a`, `b`` renders like the two columns `a` and `b` |
| TableKeys.ActionsRoundTrip | nom-sql/src/common.rs:651-656 | `ON DELETE` and `ON UPDATE` both read back, in that order |
| TableKeys.ForeignKeyActions | nom-sql/src/common.rs:630-658 | a foreign key's text ends with its actions, which read back |
| TableKeys.UnnamedForeignKey | nom-sql/src/common.rs:639-643 | a foreign key without a name still writes ``CONSTRAINT `` `` |
| TableKeys.CheckEnforcement | nom-sql/src/common.rs:659-679 | a check ends with ` NOT ENFORCED` exactly when it is marked not enforced, and with ` ENFORCED` exactly when it is marked either way |

## Left out

- `whitespace.rs`, `dialect.rs`, `expression.rs`, `column.rs` and `table.rs` are not part of this model. The rules of the last four are `Lexicon` parameters.
- ParseCore.Whitespace0 and ParseCore.Whitespace1: `whitespace0`/`whitespace1` are imported from `whitespace.rs` (common.rs:33), which is not part of this model. They are modelled on the assumption that they behave as nom's `multispace0`/`multispace1`, skipping space, tab, CR and LF. If `whitespace.rs` skips a different set (comments, say), the following state less than they claim, because each names whitespace by that set: `ParseCore.WsSepComma`, `ParseCore.WsSepEquals`, `ParseCore.CommaListReads` and every `*Reads` list lemma of `References`, `References.QualifiedColumn`, `References.AliasWithAs`, `References.AliasWithoutAs`, `References.AssignmentReads`, `FunctionFacts.GenericCallOf`, `FunctionFacts.SpacedCountIsGenericCall`, the `CoalesceCases` lemmas, `Clauses.StatementTerminatorAccepts` and the terminator lemmas, `Clauses.IfNotExistsReads` and `Clauses.IfNotExistsNeedsTrailingSpace`, and the `TypeCases` lemmas about `timestamp … time zone` and `bit varying`.
- Float formatting (`{:.*}` for `f32`/`f64`) and the `rust_decimal` rendering of `Literal::Numeric` are parameters (`RealFormat`). `write_real` is modelled from the formatted text on. `f64::from_str` in `float_literal` is a `Lexicon` parameter.
- `BitVec` is not modelled as a library. Bit-vector text is modelled over the bytes, most significant bit first, which is how `BitVec::from_bytes` iterates them.
- `String::from_utf8` is a parameter. The literal round trip excludes strings, blobs, byte arrays and bit vectors, because those texts go through the dialect's quoting rules.
- The proptest strategies (`arbitrary_numeric_type`, `Literal::arbitrary_with_type`), serde derives and the concrete `Hasher` are not modelled. The hash is the list of writes the `Hash` impls make.
- The remaining `From` conversions (lines 292-332, 696-717) and `FieldDefinitionExpression::default` are plain constructors, so they are not modelled.
- Only nom's recoverable `Error` is modelled. This core raises no `Failure`, and `Incomplete` does not occur on complete byte slices.
- `nested_cast`, `generic_function_with_int_literal` and the MySQL/PostgreSQL `cast` tests need the expression grammar, which is a parameter here.
- The type tests for `serial`, `bigserial`, `macaddr`, `inet`, `uuid` and `varchar` (lines 1933-1949, 2035-2051) are not separate lemmas. `TypeRoundTrip.TypeTextRoundTrip` covers the same types, read from the upper-case text `Display` writes. The tests `double_with_lens`, `character_varying`, `character_varying_with_length` and `time_without_time_zone` (lines 1860-1865, 2053-2075) are not stated.
- `float_lots_of_zeros` (lines 1735-1745) checks the value `f64::from_str` gives, which is a parameter here.
- `ENUM`: `type_identifier` reads it through the dialect's literal rules, so `TypeRoundTrip.TypeTextRoundTrip` excludes it.
- Numeric.Precision: its own contract says only that it never consumes more than its input. What it reads is stated by `Numeric.PrecisionRoundTrip`, `Numeric.PrecisionOverflow` and `Numeric.PrecisionScaleOverflow`.
- Numeric.NumericPrecision: its own contract says only that it never consumes more than its input. What it reads is stated by `Numeric.NumericPrecisionRoundTrip` and `Numeric.NumericPrecisionOverflow`.
- LiteralGrammar.IntegerLiteral: its own contract says only that the result is an `Integer`. Which texts it reads is stated by `LiteralFacts.IntegerRoundTrip` and `LiteralFacts.IntegerLiteralFix`.
- SqlTypes.OptWithoutTimeZone: its own contract bounds only what it consumes. What it reads is stated by `TypeCases.TimestampVariants` and the timestamp test lemmas.
- SqlTypes.FirstHalf: its own contract bounds only what it consumes. Which alternative reads a text is stated by `SqlTypeFacts.FirstWins` and the `TypeCases` lemmas.
- SqlTypes.SecondHalf: its own contract bounds only what it consumes. Which alternative reads a text is stated by `SqlTypeFacts.SecondWins` and the `TypeCases` lemmas.
- References.ColumnIdentifierNoAlias: its own contract states only its failure. What it reads is stated by `References.QualifiedColumn` and `References.UnqualifiedColumn`.
- References.FieldReference: its own contract covers only PostgreSQL. The MySQL positions are stated by `References.NumericReferenceRoundTrip` and `References.NumericOverflowIsExpression`.
- Clauses.StatementTerminator: its own contract bounds only what it consumes. What it accepts is stated by `Clauses.StatementTerminatorAccepts`.
- The `Display` renderers (`SqlTypes.TypeText`, `Literals.LiteralText`, `Literals.PlaceholderText`, `TableKeys.TableKeyText`, `References.FieldDefinitionText`) carry no contract of their own. Each is stated by the round-trip lemmas that read its text back.
- Functions.ColumnFunction: its own contract covers only `count(*)`. The other alternatives are stated by the `FunctionFacts` lemmas, for texts whose names and expressions the dialect reads as stated.
- Clauses.ParseComment: `str::from_utf8` of the quoted bytes is the `decode` parameter.
- ParseCore.OptDelimited: its contract relates the result to the three parsers, not to a text. The texts `precision` and `numeric_precision` read through it are stated by `Numeric.PrecisionRoundTrip` and `Numeric.NumericPrecisionRoundTrip`.
- Numeric.PrecisionHelper: its contract gives the numbers in terms of `digit1`. Which rendered texts it reads is stated by `Numeric.PrecisionRoundTrip`, `Numeric.PrecisionOverflow` and `Numeric.PrecisionScaleOverflow`.
- Numeric.DelimDigit: its own contract states only the shape of the digits read. What it reads and consumes is stated by `Numeric.DelimDigitReads`.
- LiteralGrammar.IntegerLiteralAsWritten: its own contract relates it to the corrected rule. Which texts it reads is stated by `LiteralFacts.IntegerRoundTrip`, `LiteralFacts.IntegerLiteralFix` and `LiteralFacts.LiteralMinRoundTripFails`.
- LiteralGrammar.ValueList: its own contract covers only the empty list. The lists it reads back are stated by `LiteralFacts.ValueListRoundTrip`, for literals whose text needs no dialect quoting and other than `i64::MIN`.
- SqlTypes.IntType: its own contract states only when it succeeds. The constructor and the sign are stated by `TypeCases.IntTypeSign` and `TypeCases.IntTypeUnsignedIff`.
- SqlTypes.DecimalOrNumeric: its own contract states only the keyword and the constructor. The precision and scale are stated by `TypeCases.DecimalDefault`, `TypeCases.DecimalWithPrecision`, `TypeCases.DecimalOverflow` and `TypeCases.DecimalScaleOverflow`.
- SqlTypes.DecimalTail: the same lemmas as `SqlTypes.DecimalOrNumeric` state the precision and scale it gives.
- SqlTypes.VarbinaryType: its own contract states only the keyword. The length it reads is stated by `TypeRoundTrip.TypeTextRoundTrip`.
- SqlTypes.BitType: its own contract states only when it succeeds. The length is stated by `TypeCases.BitTest`, `TypeCases.BitLengthTest` and `TypeCases.BitVaryingBeforeBit`.
- References.AsAlias: its own contract states only the leading whitespace. The alias it reads is stated by `References.AliasWithAs` and `References.AliasWithoutAs`.
- References.SchemaTableReferenceNoAlias: its own contract states only that no alias is set. The schema and table are stated by `References.SchemaQualifiedTable` and `References.SchemaNeedsAdjacentDot`.
- References.TableList: its own contract states only the first element. The whole list is stated by `References.TableListReads`.
- References.FieldList: its own contract covers only the empty list. The whole list is stated by `References.FieldListReads`.
- References.AssignmentExpr: its own contract states only the column. The `=` and the expression are stated by `References.AssignmentReads`.
- References.AssignmentExprList: its own contract states only the first element. The whole list is stated by `References.AssignmentListReads`.
- References.FieldDefinitionExpr: its own contract states only that it never fails. The fields it reads are stated by `References.FieldDefinitionsRead`, `References.StarField` and `References.StarTrailingComma`.
- References.FieldReferenceList: its own contract states only that it never fails. The whole list is stated by `References.FieldReferenceListReads`.
- Functions.AggFunctionArguments: its own contract states only the `DISTINCT` flag. The expression read is stated by `FunctionFacts.AggregateReads` and `FunctionFacts.DistinctAggregate`.
- Functions.AggFxArgs: its own contract states only the parentheses. The arguments read are stated by `FunctionFacts.AggregateReads` and `FunctionFacts.DistinctAggregate`.
- Functions.GroupConcatFxHelper: its own contract states only when it succeeds. The separator it gives is stated by `FunctionFacts.GroupConcatExplicitSeparator` and `FunctionFacts.GroupConcatBareSeparator`.
- Functions.GroupConcatFx: its own contract states only when it succeeds. The separator is stated by `FunctionFacts.GroupConcatDefaultSeparator`, `FunctionFacts.GroupConcatExplicitSeparator` and `FunctionFacts.GroupConcatBareSeparator`.
- Functions.DelimFxArgs: its own contract states only the parentheses. The arguments read are stated by `FunctionFacts.DelimFxArgsOf`.
- Functions.GroupConcatArm: its own contract states only the constructor. The whole call is stated by `FunctionFacts.GroupConcatExample` and the separator lemmas.
- Functions.GenericCall: its own contract states only the name. The arguments are stated by `FunctionFacts.GenericCallOf` and `CoalesceCases.CoalesceCall`.
- Clauses.IfNotExists: its own contract states only the shape of what it consumes. The texts it reads are stated by `Clauses.IfNotExistsReads` and `Clauses.IfNotExistsNeedsTrailingSpace`.
- Clauses.ParseComment: its own contract states only the shape of what it consumes. The body it gives is stated by `Clauses.CommentReads` and `Clauses.UnterminatedComment`.

Observations:

- The `line_ending` alternative of `statement_terminator` is unreachable. The `whitespace0` before it has already consumed every line ending.
- `if_not_exists` needs whitespace after `EXISTS`. At the very end of the input the phrase is not recognised.
- In `group_concat`, `SEPARATOR` with no literal gives the empty separator.
- An unnamed foreign key renders as ``CONSTRAINT `` `` with empty backticks.
- Names inside backticks are not escaped.
- `MAX` and `MIN` drop `DISTINCT`.
- `count (x)`, with a space before the parenthesis, is read as a generic call.

## Findings

| source | as written | input that shows it | evidently intended | confidence | as-written member | corrected member |
|---|---|---|---|---|---|---|
| nom-sql/src/common.rs:338-346 | `trim_end_matches('0')` also strips zeros of the integer part when the formatted text has no point (precision 0) | `Double { value: 10.0, precision: 0 }` is formatted as `10` and printed as `1` | strip only fraction zeros, keeping one digit after the point | not executed | Reals.WriteRealAsWrittenDropsIntegerZeros | Reals.WriteRealFraction |
| nom-sql/src/common.rs:1365-1380 | the magnitude is read as an `i64` before it is negated | `-9223372036854775808`, the text of `Literal::Integer(i64::MIN)`, is refused, so the round trip of lines 1752-1770 fails on it | read the signed value, so that every `i64` reads back | not executed | LiteralFacts.LiteralMinRoundTripFails | LiteralFacts.IntegerRoundTrip |
