/**
 * Column, table and field references of nom-sql/src/common.rs:
 * `column_identifier_no_alias` (lines 1227-1236), `as_alias` (1266-1277),
 * `assignment_expr` (1279-1288), `assignment_expr_list` (1318-1323),
 * `field_list` (1325-1327), `expression_field` (1329-1338),
 * `field_definition_expr` (1340-1359), `table_list` (1361-1364),
 * `schema_table_reference` (1461-1478),
 * `schema_table_reference_no_alias` (1480-1496), `table_reference`
 * (1513-1525), `field_reference` (1540-1555) and `field_reference_list`
 * (1557-1561), with `Display` for field definitions (719-735) and field
 * references (758-765).
 *
 * Identifiers and expressions are read by the dialect (`Lexicon`); the
 * lemmas state what they need of it for the text at hand.
 */
module References {
  import opened ParseCore
  import opened Numeric
  import opened Ast
  import opened Clauses

  /** Text made of whitespace only. */
  predicate Blank(w: seq<char>) {
    forall i :: 0 <= i < |w| ==> IsSpace(w[i])
  }

  /** Text that is empty or does not start with whitespace. */
  predicate NoSpaceNext(s: seq<char>) {
    |s| == 0 || !IsSpace(s[0])
  }

  // ---------------------------------------------------------------------
  // Columns

  /** `delimited(whitespace0, tag("."), whitespace0)`. */
  function WsSepDot(s: seq<char>): (r: ParseResult<()>)
    ensures Fits(r, s)
    ensures r.Done? <==> At(s[Whitespace0(s)..], '.')
  {
    var a := Whitespace0(s);
    var (_, b) :- Char('.', s[a..]);
    var c := Whitespace0(s[a + b..]);
    Done((), a + b + c)
  }

  /** The table a column is qualified with: an identifier and a dot, with optional whitespace around the dot. */
  function TableQualifier(lex: Lexicon, s: seq<char>): (r: ParseResult<string>)
    ensures Fits(r, s)
  {
    var (t, a) :- lex.identifier(s);
    var (_, b) :- WsSepDot(s[a..]);
    Done(t, a + b)
  }

  /** `column_identifier_no_alias` (common.rs:1227-1236): `[table .] name`. */
  function ColumnIdentifierNoAlias(lex: Lexicon, s: seq<char>): (r: ParseResult<Column>)
    ensures Fits(r, s)
    ensures lex.identifier(s).Fail? ==> r.Fail?
  {
    var (table, a) := Opt(TableQualifier(lex, s));
    var (name, b) :- lex.identifier(s[a..]);
    Done(Column(name, table), a + b)
  }

  lemma {:induction false} WsSepDotOf(w1: seq<char>, w2: seq<char>, tail: seq<char>)
    requires Blank(w1) && Blank(w2) && NoSpaceNext(tail)
    ensures WsSepDot(w1 + ("." + (w2 + tail))) == Done((), |w1| + 1 + |w2|)
  {
    var s := w1 + ("." + (w2 + tail));
    Whitespace0Of(w1, "." + (w2 + tail));
    assert s[|w1|..] == "." + (w2 + tail);
    assert s[|w1| + 1..] == w2 + tail;
    Whitespace0Of(w2, tail);
  }

  lemma {:induction false} TableQualifierOf(lex: Lexicon, t: seq<char>, w1: seq<char>, w2: seq<char>, tail: seq<char>, tv: string)
    requires lex.identifier(t + (w1 + ("." + (w2 + tail)))) == Done(tv, |t|)
    requires Blank(w1) && Blank(w2) && NoSpaceNext(tail)
    ensures TableQualifier(lex, t + (w1 + ("." + (w2 + tail)))) == Done(tv, |t| + |w1| + 1 + |w2|)
  {
    var s := t + (w1 + ("." + (w2 + tail)));
    assert s[|t|..] == w1 + ("." + (w2 + tail));
    WsSepDotOf(w1, w2, tail);
  }

  /**
   * A qualified column is read as table and name, with any whitespace
   * around the dot (the `foo . bar` case of common.rs:1576-1585).
   */
  lemma {:induction false} QualifiedColumn(lex: Lexicon, t: seq<char>, w1: seq<char>, w2: seq<char>, n: seq<char>, rest: seq<char>,
                        tv: string, nv: string)
    requires lex.identifier(t + (w1 + ("." + (w2 + (n + rest))))) == Done(tv, |t|)
    requires lex.identifier(n + rest) == Done(nv, |n|)
    requires Blank(w1) && Blank(w2) && 0 < |n| && !IsSpace(n[0])
    ensures ColumnIdentifierNoAlias(lex, t + (w1 + ("." + (w2 + (n + rest)))))
         == Done(Column(nv, Some(tv)), |t| + |w1| + 1 + |w2| + |n|)
  {
    QualifiedColumnIn(lex, t, w1, w2, n, rest, tv, nv, t + (w1 + ("." + (w2 + (n + rest)))));
  }

  lemma {:induction false} QualifiedColumnIn(lex: Lexicon, t: seq<char>, w1: seq<char>, w2: seq<char>, n: seq<char>, rest: seq<char>,
                          tv: string, nv: string, s: seq<char>)
    requires s == t + (w1 + ("." + (w2 + (n + rest))))
    requires lex.identifier(s) == Done(tv, |t|)
    requires lex.identifier(n + rest) == Done(nv, |n|)
    requires Blank(w1) && Blank(w2) && 0 < |n| && !IsSpace(n[0])
    ensures ColumnIdentifierNoAlias(lex, s) == Done(Column(nv, Some(tv)), |t| + |w1| + 1 + |w2| + |n|)
  {
    TableQualifierOf(lex, t, w1, w2, n + rest, tv);
    DotText(t, w1, w2, n + rest, s);
    QualifiedColumnAt(lex, s, |t| + |w1| + 1 + |w2|, tv, nv, |n|);
  }

  lemma {:induction false} DotText(t: seq<char>, w1: seq<char>, w2: seq<char>, u: seq<char>, s: seq<char>)
    requires s == t + (w1 + ("." + (w2 + u)))
    ensures s[|t| + |w1| + 1 + |w2|..] == u
  {
    assert s == (t + w1 + "." + w2) + u;
  }

  lemma {:induction false} QualifiedColumnAt(lex: Lexicon, s: seq<char>, a: nat, tv: string, nv: string, b: nat)
    requires TableQualifier(lex, s) == Done(tv, a) && a <= |s| && lex.identifier(s[a..]) == Done(nv, b)
    ensures ColumnIdentifierNoAlias(lex, s) == Done(Column(nv, Some(tv)), a + b)
  {
  }

  /** A name not followed by a dot is an unqualified column. */
  lemma {:induction false} UnqualifiedColumn(lex: Lexicon, n: seq<char>, rest: seq<char>, nv: string)
    requires lex.identifier(n + rest) == Done(nv, |n|)
    requires !At(rest[Whitespace0(rest)..], '.')
    ensures ColumnIdentifierNoAlias(lex, n + rest) == Done(Column(nv, None), |n|)
  {
    assert (n + rest)[|n|..] == rest;
  }

  /** The source's own example: `foo . bar` is column `bar` of table `foo`. */
  lemma {:induction false} QualifiedColumnWithSpaces(lex: Lexicon)
    requires lex.identifier("foo . bar") == Done("foo", 3)
    requires lex.identifier("bar") == Done("bar", 3)
    ensures ColumnIdentifierNoAlias(lex, "foo . bar") == Done(Column("bar", Some("foo")), 9)
  {
    var t, w, n: seq<char> := "foo", " ", "bar";
    var s := t + (w + ("." + (w + (n + []))));
    assert s == "foo . bar";
    assert n + [] == "bar";
    QualifiedColumn(lex, t, w, w, n, [], "foo", "bar");
  }

  // ---------------------------------------------------------------------
  // Aliases and tables

  /** `as_alias` (common.rs:1266-1277): whitespace, an optional `AS` and whitespace, then an identifier. */
  function AsAlias(lex: Lexicon, s: seq<char>): (r: ParseResult<string>)
    ensures Fits(r, s)
    ensures r.Done? ==> 0 < |s| && IsSpace(s[0])
  {
    var (_, a) :- Whitespace1(s);
    var (_, b) := Opt(Word1("as", s[a..]));
    var (n, c) :- lex.identifier(s[a + b..]);
    Done(n, a + b + c)
  }

  /** An alias introduced by `AS`, in any case and with any whitespace around it. */
  lemma {:induction false} AliasWithAs(lex: Lexicon, w1: seq<char>, kw: seq<char>, w2: seq<char>, n: seq<char>, rest: seq<char>, nv: string)
    requires 0 < |w1| && Blank(w1) && |kw| == 2 && StartsNoCase(kw, "as")
    requires 0 < |w2| && Blank(w2) && 0 < |n| && !IsSpace(n[0])
    requires lex.identifier(n + rest) == Done(nv, |n|)
    ensures AsAlias(lex, w1 + (kw + (w2 + (n + rest)))) == Done(nv, |w1| + 2 + |w2| + |n|)
  {
    var s := w1 + (kw + (w2 + (n + rest)));
    assert Whitespace1(s) == Done((), |w1|) by {
      assert !IsSpace(kw[0]);
      Whitespace0Of(w1, kw + (w2 + (n + rest)));
    }
    AliasText(w1, kw, w2, n + rest, s);
    Word1Reads("as", kw, w2, n + rest);
    AliasAt(lex, s, |w1|, 2 + |w2|, |n|, nv);
  }

  lemma {:induction false} AliasText(w1: seq<char>, kw: seq<char>, w2: seq<char>, u: seq<char>, s: seq<char>)
    requires s == w1 + (kw + (w2 + u))
    ensures s[|w1|..] == kw + w2 + u && s[|w1|..][|kw| + |w2|..] == u
  {
    assert s[|w1|..] == kw + (w2 + u);
  }

  lemma {:induction false} AliasAt(lex: Lexicon, s: seq<char>, a: nat, b: nat, c: nat, nv: string)
    requires a <= |s| && Whitespace1(s) == Done((), a) && Word1("as", s[a..]) == Done((), b)
    requires a + b <= |s| && lex.identifier(s[a..][b..]) == Done(nv, c)
    ensures AsAlias(lex, s) == Done(nv, a + b + c)
  {
    DropDrop(s, a, b);
  }

  /** An alias without `AS`: whitespace, then the identifier. */
  lemma {:induction false} AliasWithoutAs(lex: Lexicon, w: seq<char>, n: seq<char>, rest: seq<char>, nv: string)
    requires 0 < |w| && Blank(w) && 0 < |n| && !IsSpace(n[0])
    requires Word1("as", n + rest).Fail?
    requires lex.identifier(n + rest) == Done(nv, |n|)
    ensures AsAlias(lex, w + (n + rest)) == Done(nv, |w| + |n|)
  {
    var s := w + (n + rest);
    Whitespace0Of(w, n + rest);
    assert s[|w|..] == n + rest;
  }

  /** `table_reference` (common.rs:1513-1525): a table name and an optional alias, never a schema. */
  function TableReference(lex: Lexicon, s: seq<char>): (r: ParseResult<Table>)
    ensures Fits(r, s)
    ensures r.Done? ==> r.value.schema.None?
    ensures r.Done? <==> lex.identifier(s).Done?
    ensures r.Done? ==> r.value.name == lex.identifier(s).value
    ensures r.Done? ==>
      var a := lex.identifier(s).used;
      (r.value.alias.Some? <==> AsAlias(lex, s[a..]).Done?) &&
      (r.value.alias.Some? ==> r.value.alias.value == AsAlias(lex, s[a..]).value)
  {
    var (name, a) :- lex.identifier(s);
    var (alias, b) := Opt(AsAlias(lex, s[a..]));
    Done(Table(name, alias, None), a + b)
  }

  /** `opt(pair(identifier, tag(".")))`: a schema name directly followed by a dot. */
  function SchemaQualifier(lex: Lexicon, s: seq<char>): (r: ParseResult<string>)
    ensures Fits(r, s)
  {
    var (sc, a) :- lex.identifier(s);
    var (_, b) :- Char('.', s[a..]);
    Done(sc, a + b)
  }

  /** `schema_table_reference_no_alias` (common.rs:1480-1496): `[schema.]table`, no whitespace around the dot. */
  function SchemaTableReferenceNoAlias(lex: Lexicon, s: seq<char>): (r: ParseResult<Table>)
    ensures Fits(r, s)
    ensures r.Done? ==> r.value.alias.None?
  {
    var (schema, a) := Opt(SchemaQualifier(lex, s));
    var (name, b) :- lex.identifier(s[a..]);
    Done(Table(name, None, schema), a + b)
  }

  /**
   * `schema_table_reference` (common.rs:1461-1478): the same schema and
   * table, then an optional alias.
   */
  function SchemaTableReference(lex: Lexicon, s: seq<char>): (r: ParseResult<Table>)
    ensures Fits(r, s)
    ensures r.Done? <==> SchemaTableReferenceNoAlias(lex, s).Done?
    ensures r.Done? ==>
      r.value.name == SchemaTableReferenceNoAlias(lex, s).value.name &&
      r.value.schema == SchemaTableReferenceNoAlias(lex, s).value.schema
  {
    var (t, a) :- SchemaTableReferenceNoAlias(lex, s);
    var (alias, b) := Opt(AsAlias(lex, s[a..]));
    Done(t.(alias := alias), a + b)
  }

  /** `schema.table` is read as a schema-qualified table. */
  lemma {:induction false} SchemaQualifiedTable(lex: Lexicon, sc: seq<char>, n: seq<char>, rest: seq<char>, scv: string, nv: string)
    requires lex.identifier(sc + ("." + (n + rest))) == Done(scv, |sc|)
    requires lex.identifier(n + rest) == Done(nv, |n|)
    ensures SchemaTableReferenceNoAlias(lex, sc + ("." + (n + rest))) == Done(Table(nv, None, Some(scv)), |sc| + 1 + |n|)
  {
    var s := sc + ("." + (n + rest));
    assert s[|sc|..] == "." + (n + rest);
    assert s[|sc| + 1..] == n + rest;
  }

  /**
   * Unlike a column's table, a schema must be followed directly by the dot:
   * a name followed by anything else is the table itself.
   */
  lemma {:induction false} SchemaNeedsAdjacentDot(lex: Lexicon, n: seq<char>, rest: seq<char>, nv: string)
    requires lex.identifier(n + rest) == Done(nv, |n|)
    requires !At(rest, '.')
    ensures SchemaTableReferenceNoAlias(lex, n + rest) == Done(Table(nv, None, None), |n|)
  {
    assert (n + rest)[|n|..] == rest;
  }

  /** A table followed by `AS alias`. */
  lemma {:induction false} TableWithAlias(lex: Lexicon, n: seq<char>, a: seq<char>, rest: seq<char>, nv: string, av: string)
    requires lex.identifier(n + (" AS " + (a + rest))) == Done(nv, |n|)
    requires lex.identifier(a + rest) == Done(av, |a|)
    requires 0 < |a| && !IsSpace(a[0])
    ensures TableReference(lex, n + (" AS " + (a + rest))) == Done(Table(nv, Some(av), None), |n| + 4 + |a|)
  {
    var s := n + (" AS " + (a + rest));
    assert s[|n|..] == " " + ("AS" + (" " + (a + rest)));
    AliasWithAs(lex, " ", "AS", " ", a, rest, av);
  }

  function SchemaTableReferenceOf(lex: Lexicon): Parser<Table> {
    s => SchemaTableReference(lex, s)
  }

  /** `table_list` (common.rs:1361-1364): one or more tables separated by commas. */
  function TableList(lex: Lexicon, s: seq<char>): (r: ParseResult<seq<Table>>)
    ensures Fits(r, s)
    ensures r.Done? <==> SchemaTableReference(lex, s).Done?
    ensures r.Done? ==> 0 < |r.value| && r.value[0] == SchemaTableReference(lex, s).value
  {
    CommaListsSucceed(SchemaTableReferenceOf(lex), s);
    SeparatedList1(CommaSeparator, SchemaTableReferenceOf(lex), s)
  }

  function ColumnIdentifierNoAliasOf(lex: Lexicon): Parser<Column> {
    s => ColumnIdentifierNoAlias(lex, s)
  }

  /** `field_list` (common.rs:1325-1327): zero or more columns separated by commas; it never fails. */
  function FieldList(lex: Lexicon, s: seq<char>): (r: ParseResult<seq<Column>>)
    ensures Fits(r, s)
    ensures r.Done?
    ensures lex.identifier(s).Fail? ==> r == Done([], 0)
  {
    CommaListsSucceed(ColumnIdentifierNoAliasOf(lex), s);
    SeparatedList0(CommaSeparator, ColumnIdentifierNoAliasOf(lex), s)
  }

  // ---------------------------------------------------------------------
  // Assignments

  /** `assignment_expr` (common.rs:1279-1288): `column = expression`. */
  function AssignmentExpr(lex: Lexicon, s: seq<char>): (r: ParseResult<(Column, Expression)>)
    ensures Fits(r, s)
    ensures r.Done? ==> ColumnIdentifierNoAlias(lex, s).Done? && r.value.0 == ColumnIdentifierNoAlias(lex, s).value
  {
    var (c, a) :- ColumnIdentifierNoAlias(lex, s);
    var (e, b) :- AssignmentTail(lex, s[a..]);
    Done((c, e), a + b)
  }

  /** What follows the column of an assignment: `ws_sep_equals`, then the expression. */
  function AssignmentTail(lex: Lexicon, s: seq<char>): (r: ParseResult<Expression>)
    ensures Fits(r, s)
  {
    var (_, b) :- WsSepEquals(s);
    var (e, d) :- lex.expression(s[b..]);
    Done(e, b + d)
  }

  lemma {:induction false} WsSepEqualsOf(w1: seq<char>, w2: seq<char>, tail: seq<char>)
    requires Blank(w1) && Blank(w2) && NoSpaceNext(tail)
    ensures WsSepEquals(w1 + ("=" + (w2 + tail))) == Done((), |w1| + 1 + |w2|)
  {
    var s := w1 + ("=" + (w2 + tail));
    Whitespace0Of(w1, "=" + (w2 + tail));
    assert s[|w1|..] == "=" + (w2 + tail);
    assert s[|w1| + 1..] == w2 + tail;
    Whitespace0Of(w2, tail);
  }

  lemma {:induction false} AssignmentSteps(lex: Lexicon, s: seq<char>, a: nat, k: nat, cv: Column, ev: Expression)
    requires ColumnIdentifierNoAlias(lex, s) == Done(cv, a)
    requires a <= |s| && AssignmentTail(lex, s[a..]) == Done(ev, k)
    ensures AssignmentExpr(lex, s) == Done((cv, ev), a + k)
  {
  }

  lemma {:induction false} AssignmentTailOf(lex: Lexicon, u: seq<char>, b: nat, ev: Expression, d: nat)
    requires b <= |u| && WsSepEquals(u) == Done((), b) && lex.expression(u[b..]) == Done(ev, d)
    ensures AssignmentTail(lex, u) == Done(ev, b + d)
  {
  }

  /** `column = expression`, with any whitespace around the sign, is read as the pair. */
  lemma {:induction false} AssignmentReads(lex: Lexicon, c: seq<char>, w1: seq<char>, w2: seq<char>, e: seq<char>, rest: seq<char>,
                        cv: Column, ev: Expression)
    requires ColumnIdentifierNoAlias(lex, c + (w1 + ("=" + (w2 + (e + rest))))) == Done(cv, |c|)
    requires lex.expression(e + rest) == Done(ev, |e|)
    requires Blank(w1) && Blank(w2) && 0 < |e| && !IsSpace(e[0])
    ensures AssignmentExpr(lex, c + (w1 + ("=" + (w2 + (e + rest))))) == Done((cv, ev), |c| + |w1| + 1 + |w2| + |e|)
  {
    var u := w1 + ("=" + (w2 + (e + rest)));
    var s := c + u;
    SliceShift(c, u, 0);
    AssignmentTailReads(lex, w1, w2, e, rest, ev, u);
    AssignmentSteps(lex, s, |c|, |w1| + 1 + |w2| + |e|, cv, ev);
  }

  lemma {:induction false} AssignmentTailReads(lex: Lexicon, w1: seq<char>, w2: seq<char>, e: seq<char>, rest: seq<char>,
                            ev: Expression, u: seq<char>)
    requires u == w1 + ("=" + (w2 + (e + rest)))
    requires lex.expression(e + rest) == Done(ev, |e|)
    requires Blank(w1) && Blank(w2) && 0 < |e| && !IsSpace(e[0])
    ensures AssignmentTail(lex, u) == Done(ev, |w1| + 1 + |w2| + |e|)
  {
    WsSepEqualsOf(w1, w2, e + rest);
    EqualsText(w1, w2, e + rest, u);
    AssignmentTailOf(lex, u, |w1| + 1 + |w2|, ev, |e|);
  }

  lemma {:induction false} EqualsText(w1: seq<char>, w2: seq<char>, t: seq<char>, u: seq<char>)
    requires u == w1 + ("=" + (w2 + t))
    ensures u[|w1| + 1 + |w2|..] == t
  {
    assert u == (w1 + "=" + w2) + t;
  }

  function AssignmentExprOf(lex: Lexicon): Parser<(Column, Expression)> {
    s => AssignmentExpr(lex, s)
  }

  /** `assignment_expr_list` (common.rs:1318-1323): one or more assignments separated by commas. */
  function AssignmentExprList(lex: Lexicon, s: seq<char>): (r: ParseResult<seq<(Column, Expression)>>)
    ensures Fits(r, s)
    ensures r.Done? <==> AssignmentExpr(lex, s).Done?
    ensures r.Done? ==> 0 < |r.value| && r.value[0] == AssignmentExpr(lex, s).value
  {
    CommaListsSucceed(AssignmentExprOf(lex), s);
    SeparatedList1(CommaSeparator, AssignmentExprOf(lex), s)
  }

  // ---------------------------------------------------------------------
  // Field definitions

  /** `expression_field` (common.rs:1329-1338): an expression and an optional alias. */
  function ExpressionField(lex: Lexicon, s: seq<char>): (r: ParseResult<FieldDefinitionExpression>)
    ensures Fits(r, s)
    ensures r.Done? <==> lex.expression(s).Done?
    ensures r.Done? ==> r.value.ExpressionField? && r.value.fieldExpr == lex.expression(s).value
  {
    var (e, a) :- lex.expression(s);
    var (alias, b) := Opt(AsAlias(lex, s[a..]));
    Done(FieldDefinitionExpression.ExpressionField(e, alias), a + b)
  }

  /** The second alternative: a table name and `.*`. */
  function AllInTableField(lex: Lexicon, s: seq<char>): (r: ParseResult<FieldDefinitionExpression>)
    ensures Fits(r, s)
    ensures r.Done? ==> r.value.AllInTable?
  {
    var (t, a) :- TableReference(lex, s);
    var (_, b) :- Tag(".*", s[a..]);
    Done(AllInTable(t.name), a + b)
  }

  /** The `alt` inside `field_definition_expr` (common.rs:1347-1353): `*`, then `table.*`, then an expression. */
  function FieldDefinition(lex: Lexicon, s: seq<char>): (r: ParseResult<FieldDefinitionExpression>)
    ensures Fits(r, s)
    ensures At(s, '*') ==> r == Done(All, 1)
    ensures !At(s, '*') && AllInTableField(lex, s).Done? ==> r == AllInTableField(lex, s)
    ensures !At(s, '*') && AllInTableField(lex, s).Fail? ==> r == ExpressionField(lex, s)
  {
    if At(s, '*') then Done(All, 1)
    else match AllInTableField(lex, s)
      case Done(f, a) => Done(f, a)
      case Fail => ExpressionField(lex, s)
  }

  function FieldDefinitionOf(lex: Lexicon): Parser<FieldDefinitionExpression> {
    s => FieldDefinition(lex, s)
  }

  /**
   * `field_definition_expr` (common.rs:1340-1359): fields separated by
   * commas, then an optional trailing comma. It never fails.
   */
  function FieldDefinitionExpr(lex: Lexicon, s: seq<char>): (r: ParseResult<seq<FieldDefinitionExpression>>)
    ensures Fits(r, s)
    ensures r.Done?
  {
    CommaListsSucceed(FieldDefinitionOf(lex), s);
    var fs := SeparatedList0(CommaSeparator, FieldDefinitionOf(lex), s);
    var (_, b) := Opt(WsSepComma(s[fs.used..]));
    Done(fs.value, fs.used + b)
  }

  /** `Display for FieldDefinitionExpression` (common.rs:719-735); expressions are rendered by `exprText`. */
  function FieldDefinitionText(f: FieldDefinitionExpression, exprText: Expression -> string): string {
    match f
    case All => "*"
    case AllInTable(t) => Quoted(t) + ".*"
    case ExpressionField(e, alias) =>
      exprText(e) + (match alias case None => "" case Some(a) => " AS " + Quoted(a))
  }

  /** The list is over when no comma follows. */
  lemma {:induction false} NoCommaEndsList<T>(p: Parser<T>, s: seq<char>)
    requires !At(s[Whitespace0(s)..], ',')
    ensures ListTail(CommaSeparator, p, s) == Done([], 0)
    ensures Opt(WsSepComma(s)) == (None, 0)
  {
  }

  /** A list that starts with `*` and has no comma after it. */
  lemma {:induction false} StarList(lex: Lexicon, s: seq<char>)
    requires At(s, '*') && !At(s[1..][Whitespace0(s[1..])..], ',')
    ensures SeparatedList0(CommaSeparator, FieldDefinitionOf(lex), s) == Done([All], 1)
  {
    assert FieldDefinitionOf(lex)(s) == Done(All, 1);
    NoCommaEndsList(FieldDefinitionOf(lex), s[1..]);
    assert [All] + [] == [All];
  }

  /** `*` alone is the one field `All`. */
  lemma {:induction false} StarField(lex: Lexicon)
    ensures FieldDefinitionExpr(lex, "*") == Done([All], 1)
  {
    var s := "*";
    assert s[1..] == [];
    StarList(lex, s);
  }

  /**
   * A trailing comma is consumed without a field after it, for a dialect
   * that reads nothing from empty text.
   */
  lemma {:induction false} StarTrailingComma(lex: Lexicon)
    requires lex.identifier([]).Fail? && lex.expression([]).Fail?
    ensures FieldDefinitionExpr(lex, "*, ") == Done([All], 3)
  {
    var s := "*, ";
    assert s[1..] == ", ";
    CommaSpaceRead();
    TrailingCommaTail(lex);
    StarThenTail(lex, s, ", ");
    FieldDefinitionExprAt(lex, s, [All], 1, 2);
  }

  lemma {:induction false} CommaSpaceRead()
    ensures WsSepComma(", ") == Done((), 2)
  {
    assert ", "[1..] == " ";
    assert " "[1..] == [];
    assert Whitespace0(" ") == 1;
  }

  /** After `*`, the comma is not taken by the list when no field follows it. */
  lemma {:induction false} TrailingCommaTail(lex: Lexicon)
    requires lex.identifier([]).Fail? && lex.expression([]).Fail?
    ensures ListTail(CommaSeparator, FieldDefinitionOf(lex), ", ") == Done([], 0)
  {
    CommaSpaceRead();
    assert ", "[2..] == [];
    assert FieldDefinitionOf(lex)([]).Fail?;
  }

  lemma {:induction false} StarThenTail(lex: Lexicon, s: seq<char>, tail: seq<char>)
    requires At(s, '*') && s[1..] == tail
    requires ListTail(CommaSeparator, FieldDefinitionOf(lex), tail) == Done([], 0)
    ensures SeparatedList0(CommaSeparator, FieldDefinitionOf(lex), s) == Done([All], 1)
  {
    assert FieldDefinitionOf(lex)(s) == Done(All, 1);
    assert [All] + [] == [All];
  }

  lemma {:induction false} FieldDefinitionExprAt(lex: Lexicon, s: seq<char>, fs: seq<FieldDefinitionExpression>, n: nat, b: nat)
    requires SeparatedList0(CommaSeparator, FieldDefinitionOf(lex), s) == Done(fs, n)
    requires WsSepComma(s[n..]) == Done((), b)
    ensures FieldDefinitionExpr(lex, s) == Done(fs, n + b)
  {
  }

  /** `` `t`.* `` is one field `AllInTable(t)`, when the dialect reads `` `t` `` as `t`. */
  lemma {:induction false} AllInTableFieldOf(lex: Lexicon, t: string, rest: seq<char>)
    requires lex.identifier(Quoted(t) + (".*" + rest)) == Done(t, |t| + 2)
    ensures FieldDefinition(lex, Quoted(t) + (".*" + rest)) == Done(AllInTable(t), |t| + 4)
  {
    var s := Quoted(t) + (".*" + rest);
    assert s[0] == '`';
    assert s[|t| + 2..] == ".*" + rest;
    assert AsAlias(lex, s[|t| + 2..]).Fail?;
    assert TableReference(lex, s) == Done(Table(t, None, None), |t| + 2);
    assert StartsWith(s[|t| + 2..], ".*");
  }

  /** A rendered `` `t`.* `` reads back as `AllInTable(t)`, when the dialect reads `` `t` `` as `t`. */
  lemma {:induction false} AllInTableRoundTrip(lex: Lexicon, t: string, rest: seq<char>)
    requires lex.identifier(Quoted(t) + (".*" + rest)) == Done(t, |t| + 2)
    requires !At(rest[Whitespace0(rest)..], ',')
    ensures FieldDefinitionExpr(lex, FieldDefinitionText(AllInTable(t), x => "") + rest)
         == Done([AllInTable(t)], |t| + 4)
  {
    var s := Quoted(t) + (".*" + rest);
    var p := FieldDefinitionOf(lex);
    assert FieldDefinitionText(AllInTable(t), x => "") + rest == s;
    AllInTableFieldOf(lex, t, rest);
    assert p(s) == Done(AllInTable(t), |t| + 4);
    assert s[|t| + 4..] == rest;
    NoCommaEndsList(p, rest);
    assert [AllInTable(t)] + [] == [AllInTable(t)];
    assert SeparatedList0(CommaSeparator, p, s) == Done([AllInTable(t)], |t| + 4);
    assert Opt(WsSepComma(s[|t| + 4..])) == (None, 0);
  }

  /**
   * A rendered expression field with an alias reads back as that field,
   * when the dialect reads the expression's text as the expression and
   * `` `a` `` as `a`.
   */
  lemma {:induction false} ExpressionFieldRoundTrip(lex: Lexicon, e: Expression, a: string, exprText: Expression -> string, rest: seq<char>)
    requires lex.expression(exprText(e) + (" AS " + (Quoted(a) + rest))) == Done(e, |exprText(e)|)
    requires lex.identifier(Quoted(a) + rest) == Done(a, |a| + 2)
    ensures var f := FieldDefinitionExpression.ExpressionField(e, Some(a));
      ExpressionField(lex, FieldDefinitionText(f, exprText) + rest) == Done(f, |FieldDefinitionText(f, exprText)|)
  {
    var x := exprText(e);
    var s := x + (" AS " + (Quoted(a) + rest));
    assert FieldDefinitionText(FieldDefinitionExpression.ExpressionField(e, Some(a)), exprText) + rest == s;
    assert s[|x|..] == " " + ("AS" + (" " + (Quoted(a) + rest)));
    AliasWithAs(lex, " ", "AS", " ", Quoted(a), rest, a);
  }

  // ---------------------------------------------------------------------
  // Field references

  /** A position in the select list: digits read as a `u64` (`u64::from_str` on a `digit1` match). */
  function NumericFieldReference(s: seq<char>): (r: ParseResult<FieldReference>)
    ensures Fits(r, s)
    ensures r.Done? ==> r.value.NumericRef? && 0 < r.used
  {
    var (d, a) :- Digit1(s);
    match UnsignedValue(d)
    case Some(v) => if v < 0x1_0000_0000_0000_0000 then Done(NumericRef(v), a) else Fail
    case None => Fail
  }

  function AsExpressionRef(r: ParseResult<Expression>): ParseResult<FieldReference> {
    match r
    case Fail => Fail
    case Done(e, n) => Done(ExpressionRef(e), n)
  }

  /**
   * `field_reference` (common.rs:1540-1555): in PostgreSQL always an
   * expression; in MySQL a position when the text starts with a number that
   * fits a `u64`, an expression otherwise.
   */
  function FieldReference(lex: Lexicon, s: seq<char>): (r: ParseResult<FieldReference>)
    ensures Fits(r, s)
    ensures lex.dialect.PostgreSQL? && r.Done? ==> r.value.ExpressionRef?
  {
    match lex.dialect
    case PostgreSQL => AsExpressionRef(lex.expression(s))
    case MySQL =>
      match NumericFieldReference(s)
      case Done(v, n) => Done(v, n)
      case Fail => AsExpressionRef(lex.expression(s))
  }

  function FieldReferenceOf(lex: Lexicon): Parser<FieldReference> {
    s => FieldReference(lex, s)
  }

  /** `field_reference_list` (common.rs:1557-1561): zero or more references separated by commas; it never fails. */
  function FieldReferenceList(lex: Lexicon, s: seq<char>): (r: ParseResult<seq<FieldReference>>)
    ensures Fits(r, s)
    ensures r.Done?
  {
    CommaListsSucceed(FieldReferenceOf(lex), s);
    SeparatedList0(CommaSeparator, FieldReferenceOf(lex), s)
  }

  /** `Display for FieldReference` (common.rs:758-765). */
  function FieldReferenceText(f: FieldReference, exprText: Expression -> string): string {
    match f
    case NumericRef(n) => NatText(n)
    case ExpressionRef(e) => exprText(e)
  }

  /** In MySQL a rendered position reads back as that position, whatever the expression grammar does. */
  lemma {:induction false} NumericReferenceRoundTrip(lex: Lexicon, n: u64, exprText: Expression -> string, rest: seq<char>)
    requires lex.dialect == MySQL && NoDigitNext(rest)
    ensures FieldReference(lex, FieldReferenceText(NumericRef(n), exprText) + rest) == Done(NumericRef(n), |NatText(n)|)
  {
    Digit1Of(NatText(n), rest);
    NatTextValue(n);
  }

  /** A number too large for a `u64` is not a position: MySQL hands it to the expression grammar. */
  lemma {:induction false} NumericOverflowIsExpression(lex: Lexicon, d: seq<char>, rest: seq<char>)
    requires lex.dialect == MySQL && 0 < |d| && AllDigits(d) && NoDigitNext(rest)
    requires DigitsValue(d) >= 0x1_0000_0000_0000_0000
    ensures FieldReference(lex, d + rest) == AsExpressionRef(lex.expression(d + rest))
  {
    Digit1Of(d, rest);
  }

  /** In PostgreSQL the same number is never a position. */
  lemma {:induction false} PostgresNumberIsExpression(lex: Lexicon, n: u64, rest: seq<char>)
    requires lex.dialect == PostgreSQL
    ensures FieldReference(lex, NatText(n) + rest) == AsExpressionRef(lex.expression(NatText(n) + rest))
  {
  }

  // ---------------------------------------------------------------------
  // Reading lists back

  /** `table_list` reads tables written one after another, separated by `, `, as those tables. */
  lemma {:induction false} TableListReads(lex: Lexicon, xs: seq<seq<char>>, ts: seq<Table>, tail: seq<char>)
    requires 0 < |xs| && ReadsItems(SchemaTableReferenceOf(lex), xs, ts, tail) && WsSepComma(tail).Fail?
    ensures TableList(lex, CommaJoined(xs) + tail) == Done(ts, |CommaJoined(xs)|)
  {
    CommaListReads(SchemaTableReferenceOf(lex), xs, ts, tail);
  }

  /** `field_list` reads columns written one after another, separated by `, `, as those columns. */
  lemma {:induction false} FieldListReads(lex: Lexicon, xs: seq<seq<char>>, cs: seq<Column>, tail: seq<char>)
    requires 0 < |xs| && ReadsItems(ColumnIdentifierNoAliasOf(lex), xs, cs, tail) && WsSepComma(tail).Fail?
    ensures FieldList(lex, CommaJoined(xs) + tail) == Done(cs, |CommaJoined(xs)|)
  {
    CommaListReads(ColumnIdentifierNoAliasOf(lex), xs, cs, tail);
  }

  /** `assignment_expr_list` reads assignments separated by `, ` as those pairs, in order. */
  lemma {:induction false} AssignmentListReads(lex: Lexicon, xs: seq<seq<char>>, ps: seq<(Column, Expression)>, tail: seq<char>)
    requires 0 < |xs| && ReadsItems(AssignmentExprOf(lex), xs, ps, tail) && WsSepComma(tail).Fail?
    ensures AssignmentExprList(lex, CommaJoined(xs) + tail) == Done(ps, |CommaJoined(xs)|)
  {
    CommaListReads(AssignmentExprOf(lex), xs, ps, tail);
  }

  /** `field_reference_list` reads references separated by `, ` as those references, in order. */
  lemma {:induction false} FieldReferenceListReads(lex: Lexicon, xs: seq<seq<char>>, fs: seq<FieldReference>, tail: seq<char>)
    requires 0 < |xs| && ReadsItems(FieldReferenceOf(lex), xs, fs, tail) && WsSepComma(tail).Fail?
    ensures FieldReferenceList(lex, CommaJoined(xs) + tail) == Done(fs, |CommaJoined(xs)|)
  {
    CommaListReads(FieldReferenceOf(lex), xs, fs, tail);
  }

  /**
   * `field_definition_expr` reads fields separated by `, ` as those fields,
   * in order, when no comma follows the last.
   */
  lemma {:induction false} FieldDefinitionsRead(lex: Lexicon, xs: seq<seq<char>>, fs: seq<FieldDefinitionExpression>, tail: seq<char>)
    requires 0 < |xs| && ReadsItems(FieldDefinitionOf(lex), xs, fs, tail) && WsSepComma(tail).Fail?
    ensures FieldDefinitionExpr(lex, CommaJoined(xs) + tail) == Done(fs, |CommaJoined(xs)|)
  {
    var s := CommaJoined(xs) + tail;
    CommaListReads(FieldDefinitionOf(lex), xs, fs, tail);
    assert s[|CommaJoined(xs)|..] == tail;
  }
}
