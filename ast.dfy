/**
 * The syntax-tree values that nom-sql/src/common.rs builds or renders, and
 * the dialect-specific rules it calls but does not define.
 *
 * `Column`, `Table` and `Expression` are defined elsewhere in the crate
 * (column.rs, table.rs, expression.rs are not part of this model); they are
 * kept here with the fields this core reads and writes. An expression the
 * core does not construct itself is `Other`, carrying its SQL text.
 */
module Ast {
  import opened ParseCore
  import opened Numeric
  import opened Literals

  /** A possibly table-qualified column name. */
  datatype Column = Column(name: string, table: Option<string>)

  /** A possibly schema-qualified table name with an optional alias. */
  datatype Table = Table(name: string, alias: Option<string>, schema: Option<string>)

  datatype Expression =
    | ColumnExpr(column: Column)
    | LiteralExpr(literal: Literal)
    | CallExpr(call: FunctionExpression)
    | Other(sql: string)

  /** The function calls `column_function` recognises (expression.rs is not part of this model). */
  datatype FunctionExpression =
    | CountStar
    | Count(expr: Expression, distinct: bool, countNulls: bool)
    | Sum(expr: Expression, distinct: bool)
    | Avg(expr: Expression, distinct: bool)
    | Max(expr: Expression)
    | Min(expr: Expression)
    | GroupConcat(expr: Expression, separator: string)
    | Call(fname: string, arguments: seq<Expression>)

  /** `FieldDefinitionExpression` (common.rs:684-692). */
  datatype FieldDefinitionExpression =
    | All
    | AllInTable(tableName: string)
    | ExpressionField(fieldExpr: Expression, fieldAlias: Option<string>)

  /** `FieldReference` (common.rs:750-756): a 1-based position in the select list, or an expression. */
  datatype FieldReference = NumericRef(position: u64) | ExpressionRef(refExpr: Expression)

  datatype Dialect = MySQL | PostgreSQL

  /** A name in backticks, as the renderers write identifiers; nothing inside is escaped. */
  function Quoted(n: string): string {
    "`" + n + "`"
  }

  /**
   * A dialect's lexical rules, which the core calls but which are defined in
   * dialect.rs and expression.rs (not part of this model), plus the two
   * standard-library conversions the literal grammar applies:
   * `String::from_utf8` (`None` on invalid UTF-8) and `f64::from_str`.
   * Every parser keeps to the suffix contract of `Parser`.
   */
  datatype Lexicon = Lexicon(
    dialect: Dialect,
    identifier: Parser<string>,
    functionIdentifier: Parser<string>,
    stringLiteral: Parser<seq<u8>>,
    bytesLiteral: Parser<seq<u8>>,
    bitvecLiteral: Parser<seq<u8>>,
    expression: Parser<Expression>,
    utf8: seq<u8> -> Option<string>,
    parseF64: string -> bv64)

  /** Text that opens a quoted literal: a quote, or one letter and a quote (`X'`, `B'`, `E'`, `N'`). */
  predicate OpensQuote(s: seq<char>) {
    (|s| > 0 && (s[0] == '\'' || s[0] == '"')) || (|s| > 1 && IsAlpha(s[0]) && s[1] == '\'')
  }

  /** The dialect's quoted-literal rules fail on text that does not open a quote. */
  ghost predicate QuotedLiteralsNeedQuotes(lex: Lexicon) {
    forall s :: !OpensQuote(s) ==>
      lex.stringLiteral(s).Fail? && lex.bytesLiteral(s).Fail? && lex.bitvecLiteral(s).Fail?
  }
}
