/**
 * The function-call grammar of nom-sql/src/common.rs:
 * `agg_function_arguments` (lines 1108-1119), `group_concat_fx_helper`
 * (1121-1135), `group_concat_fx` (1137-1144), `agg_fx_args` (1146-1148),
 * `delim_fx_args` (1150-1161) and `column_function` (1163-1225).
 *
 * Expressions, string literals and function names are read by the dialect
 * (`Lexicon`); the lemmas state what they need of it for the text at hand.
 */
module Functions {
  import opened ParseCore
  import opened Ast
  import opened Clauses
  import opened References
  import opened Numeric

  // ---------------------------------------------------------------------
  // Arguments

  /**
   * `agg_function_arguments` (common.rs:1108-1119): an optional `DISTINCT`
   * and whitespace, then an expression; the flag says whether `DISTINCT`
   * was there.
   */
  function AggFunctionArguments(lex: Lexicon, s: seq<char>): (r: ParseResult<(Expression, bool)>)
    ensures Fits(r, s)
    ensures r.Done? ==> (r.value.1 <==> Word1("distinct", s).Done?)
  {
    var (d, a) := Opt(Word1("distinct", s));
    var (e, b) :- lex.expression(s[a..]);
    Done((e, d.Some?), a + b)
  }

  /** `agg_fx_args` (common.rs:1146-1148): the aggregate's arguments in parentheses. */
  function AggFxArgs(lex: Lexicon, s: seq<char>): (r: ParseResult<(Expression, bool)>)
    ensures Fits(r, s)
    ensures r.Done? ==> At(s, '(') && 2 <= r.used && s[r.used - 1] == ')'
  {
    var (_, a) :- Char('(', s);
    var (args, b) :- AggFunctionArguments(lex, s[a..]);
    var (_, c) :- Char(')', s[a + b..]);
    Done(args, a + b + c)
  }

  /** The dialect's string literal, decoded as UTF-8 (`map_res(string_literal, String::from_utf8)`). */
  function Utf8StringLiteral(lex: Lexicon, s: seq<char>): (r: ParseResult<string>)
    ensures Fits(r, s)
  {
    var (bytes, a) :- lex.stringLiteral(s);
    match lex.utf8(bytes)
    case Some(t) => Done(t, a)
    case None => Fail
  }

  /**
   * `group_concat_fx_helper` (common.rs:1121-1135): `SEPARATOR` with
   * optional whitespace around it, then an optional string literal. A
   * missing (or undecodable) literal gives the empty separator.
   */
  function GroupConcatFxHelper(lex: Lexicon, s: seq<char>): (r: ParseResult<string>)
    ensures Fits(r, s)
    ensures r.Done? <==> StartsNoCase(s[Whitespace0(s)..], "separator")
  {
    var a := Whitespace0(s);
    var (_, b) :- TagNoCase("separator", s[a..]);
    var (sep, c) := SeparatorLiteral(lex, s[a + b..]);
    Done(if sep.Some? then sep.value else "", a + b + c)
  }

  /** The optional literal after `SEPARATOR`, with the whitespace around it. */
  function SeparatorLiteral(lex: Lexicon, s: seq<char>): (o: (Option<string>, nat))
    ensures o.1 <= |s|
  {
    var a := Whitespace0(s);
    var (sep, b) := Opt(Utf8StringLiteral(lex, s[a..]));
    var c := Whitespace0(s[a + b..]);
    (sep, a + b + c)
  }

  /** `group_concat_fx` (common.rs:1137-1144): a column and an optional separator clause. */
  function GroupConcatFx(lex: Lexicon, s: seq<char>): (r: ParseResult<(Column, Option<string>)>)
    ensures Fits(r, s)
    ensures r.Done? <==> ColumnIdentifierNoAlias(lex, s).Done?
  {
    var (c, a) :- ColumnIdentifierNoAlias(lex, s);
    var (sep, b) := Opt(GroupConcatFxHelper(lex, s[a..]));
    Done((c, sep), a + b)
  }

  /** `tag(",")`. */
  const CommaTag: Parser<()> := s => Char(',', s)

  /** `delimited(whitespace0, expression, whitespace0)`. */
  function PaddedExpression(lex: Lexicon, s: seq<char>): (r: ParseResult<Expression>)
    ensures Fits(r, s)
  {
    var a := Whitespace0(s);
    var (e, b) :- lex.expression(s[a..]);
    var c := Whitespace0(s[a + b..]);
    Done(e, a + b + c)
  }

  function PaddedExpressionOf(lex: Lexicon): Parser<Expression> {
    s => PaddedExpression(lex, s)
  }

  /**
   * `delim_fx_args` (common.rs:1150-1161): zero or more expressions,
   * separated by bare commas and padded with whitespace, in parentheses.
   */
  function DelimFxArgs(lex: Lexicon, s: seq<char>): (r: ParseResult<seq<Expression>>)
    ensures Fits(r, s)
    ensures r.Done? ==> At(s, '(') && 2 <= r.used && s[r.used - 1] == ')'
  {
    var (_, a) :- Char('(', s);
    var (args, b) :- SeparatedList0(CommaTag, PaddedExpressionOf(lex), s[a..]);
    var (_, c) :- Char(')', s[a + b..]);
    Done(args, a + b + c)
  }

  // ---------------------------------------------------------------------
  // column_function

  /** The aggregates `column_function` names, in the order it tries them. */
  datatype AggregateKind = CountAgg | SumAgg | AvgAgg | MaxAgg | MinAgg

  function AggregateName(k: AggregateKind): string {
    match k
    case CountAgg => "count"
    case SumAgg => "sum"
    case AvgAgg => "avg"
    case MaxAgg => "max"
    case MinAgg => "min"
  }

  /**
   * What each aggregate builds from its arguments: `COUNT` never counts
   * nulls, and `MAX` and `MIN` keep no `DISTINCT` flag.
   */
  function MakeAggregate(k: AggregateKind, e: Expression, distinct: bool): FunctionExpression {
    match k
    case CountAgg => Count(e, distinct, false)
    case SumAgg => Sum(e, distinct)
    case AvgAgg => Avg(e, distinct)
    case MaxAgg => Max(e)
    case MinAgg => Min(e)
  }

  /** One aggregate alternative: its name in any case, directly followed by `agg_fx_args`. */
  function AggregateArm(k: AggregateKind, lex: Lexicon, s: seq<char>): (r: ParseResult<FunctionExpression>)
    ensures Fits(r, s)
  {
    var (_, a) :- TagNoCase(AggregateName(k), s);
    var ((e, d), b) :- AggFxArgs(lex, s[a..]);
    Done(MakeAggregate(k, e, d), a + b)
  }

  /** The `count`, `sum`, `avg`, `max` and `min` alternatives of `column_function`, in that order. */
  function NamedAggregate(lex: Lexicon, s: seq<char>): (r: ParseResult<FunctionExpression>)
    ensures Fits(r, s)
  {
    var c := AggregateArm(CountAgg, lex, s);
    if c.Done? then c
    else
      var su := AggregateArm(SumAgg, lex, s);
      if su.Done? then su
      else
        var av := AggregateArm(AvgAgg, lex, s);
        if av.Done? then av
        else
          var mx := AggregateArm(MaxAgg, lex, s);
          if mx.Done? then mx else AggregateArm(MinAgg, lex, s)
  }

  /**
   * The `group_concat` alternative: the column becomes the expression, and
   * the separator is `","` when there is no separator clause.
   */
  function GroupConcatArm(lex: Lexicon, s: seq<char>): (r: ParseResult<FunctionExpression>)
    ensures Fits(r, s)
    ensures r.Done? ==> r.value.GroupConcat? && r.value.expr.ColumnExpr?
  {
    var (_, a) :- TagNoCase("group_concat", s);
    var ((c, sep), b) :- GroupConcatParens(lex, s[a..]);
    Done(GroupConcat(ColumnExpr(c), if sep.Some? then sep.value else ","), a + b)
  }

  /** `delimited(tag("("), group_concat_fx, tag(")"))`. */
  function GroupConcatParens(lex: Lexicon, s: seq<char>): (r: ParseResult<(Column, Option<string>)>)
    ensures Fits(r, s)
    ensures r.Done? ==> At(s, '(') && 2 <= r.used && s[r.used - 1] == ')'
  {
    var (_, a) :- Char('(', s);
    var (spec, b) :- GroupConcatFx(lex, s[a..]);
    var (_, c) :- Char(')', s[a + b..]);
    Done(spec, a + b + c)
  }

  /** The last alternative: any function name, optional whitespace, `delim_fx_args`. */
  function GenericCall(lex: Lexicon, s: seq<char>): (r: ParseResult<FunctionExpression>)
    ensures Fits(r, s)
    ensures r.Done? ==> r.value.Call? && lex.functionIdentifier(s).Done? && r.value.fname == lex.functionIdentifier(s).value
  {
    var (name, a) :- lex.functionIdentifier(s);
    var (args, b) :- SpacedFxArgs(lex, s[a..]);
    Done(Call(name, args), a + b)
  }

  /** `whitespace0` and `delim_fx_args`, the generic call's tail. */
  function SpacedFxArgs(lex: Lexicon, s: seq<char>): (r: ParseResult<seq<Expression>>)
    ensures Fits(r, s)
  {
    var a := Whitespace0(s);
    var (args, b) :- DelimFxArgs(lex, s[a..]);
    Done(args, a + b)
  }

  /** `column_function` (common.rs:1163-1225): the first of its eight alternatives that succeeds. */
  function ColumnFunction(lex: Lexicon, s: seq<char>): (r: ParseResult<FunctionExpression>)
    ensures Fits(r, s)
    ensures StartsNoCase(s, "count(*)") ==> r == Done(CountStar, 8)
  {
    if StartsNoCase(s, "count(*)") then Done(CountStar, 8)
    else
      var n := NamedAggregate(lex, s);
      if n.Done? then n
      else
        var g := GroupConcatArm(lex, s);
        if g.Done? then g else GenericCall(lex, s)
  }
}
