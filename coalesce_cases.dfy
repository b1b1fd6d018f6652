/**
 * The source's generic-call examples whose arguments carry whitespace,
 * read through the argument lemmas of `FunctionFacts`.
 */
module CoalesceCases {
  import opened ParseCore
  import opened Ast
  import opened Functions
  import opened FunctionFacts
  import opened References

  /**
   * `coalesce`, optional whitespace and arguments the dialect reads: the
   * call of `coalesce` on them, whatever follows the parenthesis.
   */
  lemma {:induction false} CoalesceCall(lex: Lexicon, w: seq<char>, xs: seq<seq<char>>, vs: seq<Expression>, rest: seq<char>, s: seq<char>)
    requires s == "coalesce" + (w + ("(" + (ArgsText(xs) + (")" + rest))))
    requires lex.functionIdentifier(s) == Done("coalesce", 8)
    requires Blank(w) && 0 < |xs| && ReadsArgs(lex, xs, vs, ")" + rest)
    ensures ColumnFunction(lex, s) == Done(Call("coalesce", vs), 8 + |w| + |ArgsText(xs)| + 2)
  {
    assert 8 <= |s| && s[..8] == "coalesce";
    CoalesceFallsThrough(lex, s);
    GenericCallOf(lex, "coalesce", w, xs, vs, rest, "coalesce", s);
  }

  /** The argument texts of the two spaced examples, taken apart. */
  lemma {:induction false} SpacedArgTexts()
    ensures "c" + ")" == "c)"
    ensures "a " + ("," + ("b" + ("," + ("c" + ")")))) == "a ,b,c)" && "b" + ("," + ("c" + ")")) == "b,c)"
    ensures "a " + ("," + ("b" + ("," + "c"))) == "a ,b,c"
    ensures "a" + ("," + (" b" + ("," + ("c" + ")")))) == "a, b,c)" && " b" + ("," + ("c" + ")")) == " b,c)"
    ensures "a" + ("," + (" b" + ("," + "c"))) == "a, b,c"
    ensures "(" + ("a ,b,c" + ")") == "(a ,b,c)" && "(" + ("a, b,c" + ")") == "(a, b,c)"
  {
  }

  /** `a` with a space after it, then a comma: the padding is consumed. */
  lemma {:induction false} TrailingSpaceArg(lex: Lexicon, t: seq<char>, vx: Expression)
    requires t == "a ,b,c)" && lex.expression(t) == Done(vx, 1)
    ensures PaddedExpression(lex, t) == Done(vx, 2)
  {
    assert t[1..] == " " + ",b,c)" && t[0..] == t;
    Whitespace0Of(" ", ",b,c)");
    PaddedRead(lex, t, vx, 0, 1, 1);
  }

  /** `b` with a space before it: the padding is consumed. */
  lemma {:induction false} LeadingSpaceArg(lex: Lexicon, t: seq<char>, vy: Expression)
    requires t == " b,c)" && lex.expression("b,c)") == Done(vy, 1)
    ensures PaddedExpression(lex, t) == Done(vy, 2)
  {
    assert t == " " + "b,c)" && t[1..] == "b,c)" && t[2..] == ",c)";
    Whitespace0Of(" ", "b,c)");
    assert Whitespace0(t[2..]) == 0;
    PaddedRead(lex, t, vy, 1, 1, 0);
  }

  /** `b` and `c`, with nothing around them, are read by the padded-expression rule as they are. */
  lemma {:induction false} UnspacedArgs(lex: Lexicon, vy: Expression, vz: Expression)
    requires lex.expression("b,c)") == Done(vy, 1) && lex.expression("c)") == Done(vz, 1)
    ensures PaddedExpression(lex, "b,c)") == Done(vy, 1) && PaddedExpression(lex, "c)") == Done(vz, 1)
  {
    PaddedAt(lex, "b,c)", vy, 1);
    PaddedAt(lex, "c)", vz, 1);
  }

  /** `a` and `c`, with nothing around them, are read by the padded-expression rule as they are. */
  lemma {:induction false} UnspacedEnds(lex: Lexicon, vx: Expression, vz: Expression)
    requires lex.expression("a, b,c)") == Done(vx, 1) && lex.expression("c)") == Done(vz, 1)
    ensures PaddedExpression(lex, "a, b,c)") == Done(vx, 1) && PaddedExpression(lex, "c)") == Done(vz, 1)
  {
    PaddedAt(lex, "a, b,c)", vx, 1);
    PaddedAt(lex, "c)", vz, 1);
  }

  /** The three argument texts of `coalesce(a ,b,c)`, each read by `p`, are read as a list. */
  lemma {:induction false} SpaceBeforeCommaItems<T>(p: Parser<T>, vx: T, vy: T, vz: T, xs: seq<seq<char>>, tail: seq<char>)
    requires xs == ["a ", "b", "c"] && tail == ")"
    requires p("a ,b,c)") == Done(vx, 2) && p("b,c)") == Done(vy, 1) && p("c)") == Done(vz, 1)
    ensures ReadsEach(p, xs, [vx, vy, vz], tail) && ArgsText(xs) == "a ,b,c"
  {
    SpacedArgTexts();
    ThreeItems(p, "a ", "b", "c", vx, vy, vz, "a ,b,c)", "b,c)");
  }

  /** The three argument texts of `coalesce(a, b,c)`, each read by `p`, are read as a list. */
  lemma {:induction false} SpaceAfterCommaItems<T>(p: Parser<T>, vx: T, vy: T, vz: T, xs: seq<seq<char>>, tail: seq<char>)
    requires xs == ["a", " b", "c"] && tail == ")"
    requires p("a, b,c)") == Done(vx, 1) && p(" b,c)") == Done(vy, 2) && p("c)") == Done(vz, 1)
    ensures ReadsEach(p, xs, [vx, vy, vz], tail) && ArgsText(xs) == "a, b,c"
  {
    SpacedArgTexts();
    ThreeItems(p, "a", " b", "c", vx, vy, vz, "a, b,c)", " b,c)");
  }

  /** The arguments of `coalesce(a ,b,c)`: the first carries a space after it. */
  lemma {:induction false} SpaceBeforeCommaArgs(lex: Lexicon, vx: Expression, vy: Expression, vz: Expression, xs: seq<seq<char>>, tail: seq<char>)
    requires xs == ["a ", "b", "c"] && tail == ")"
    requires lex.expression("a ,b,c)") == Done(vx, 1)
    requires lex.expression("b,c)") == Done(vy, 1)
    requires lex.expression("c)") == Done(vz, 1)
    ensures ReadsArgs(lex, xs, [vx, vy, vz], tail) && ArgsText(xs) == "a ,b,c"
  {
    TrailingSpaceArg(lex, "a ,b,c)", vx);
    UnspacedArgs(lex, vy, vz);
    SpaceBeforeCommaItems(PaddedExpressionOf(lex), vx, vy, vz, xs, tail);
  }

  /** The arguments of `coalesce(a, b,c)`: the second carries a space before it. */
  lemma {:induction false} SpaceAfterCommaArgs(lex: Lexicon, vx: Expression, vy: Expression, vz: Expression, xs: seq<seq<char>>, tail: seq<char>)
    requires xs == ["a", " b", "c"] && tail == ")"
    requires lex.expression("a, b,c)") == Done(vx, 1)
    requires lex.expression("b,c)") == Done(vy, 1)
    requires lex.expression("c)") == Done(vz, 1)
    ensures ReadsArgs(lex, xs, [vx, vy, vz], tail) && ArgsText(xs) == "a, b,c"
  {
    LeadingSpaceArg(lex, " b,c)", vy);
    UnspacedEnds(lex, vx, vz);
    SpaceAfterCommaItems(PaddedExpressionOf(lex), vx, vy, vz, xs, tail);
  }

  /**
   * The source's generic-call example with a space before the first comma:
   * `coalesce(a ,b,c)` is the call of `coalesce` on the three columns,
   * and so it stays with whitespace before the parenthesis.
   */
  lemma {:induction false} CoalesceSpaceBeforeComma(lex: Lexicon, w: seq<char>, s: seq<char>)
    requires Blank(w) && s == "coalesce" + (w + "(a ,b,c)")
    requires lex.functionIdentifier(s) == Done("coalesce", 8)
    requires lex.expression("a ,b,c)") == Done(ColumnExpr(Column("a", None)), 1)
    requires lex.expression("b,c)") == Done(ColumnExpr(Column("b", None)), 1)
    requires lex.expression("c)") == Done(ColumnExpr(Column("c", None)), 1)
    ensures ColumnFunction(lex, s)
         == Done(Call("coalesce", [ColumnExpr(Column("a", None)), ColumnExpr(Column("b", None)), ColumnExpr(Column("c", None))]), |s|)
  {
    var vx, vy, vz := ColumnExpr(Column("a", None)), ColumnExpr(Column("b", None)), ColumnExpr(Column("c", None));
    var xs: seq<seq<char>> := ["a ", "b", "c"];
    var rest: seq<char> := [];
    assert ")" + rest == ")";
    SpaceBeforeCommaArgs(lex, vx, vy, vz, xs, ")" + rest);
    assert s == "coalesce" + (w + ("(" + (ArgsText(xs) + (")" + rest)))) by {
      SpacedArgTexts();
    }
    CoalesceCall(lex, w, xs, [vx, vy, vz], rest, s);
  }

  /**
   * The source's generic-call example with a space after the first comma:
   * `coalesce(a, b,c)` is the call of `coalesce` on the three columns,
   * and so it stays with whitespace before the parenthesis.
   */
  lemma {:induction false} CoalesceSpaceAfterComma(lex: Lexicon, w: seq<char>, s: seq<char>)
    requires Blank(w) && s == "coalesce" + (w + "(a, b,c)")
    requires lex.functionIdentifier(s) == Done("coalesce", 8)
    requires lex.expression("a, b,c)") == Done(ColumnExpr(Column("a", None)), 1)
    requires lex.expression("b,c)") == Done(ColumnExpr(Column("b", None)), 1)
    requires lex.expression("c)") == Done(ColumnExpr(Column("c", None)), 1)
    ensures ColumnFunction(lex, s)
         == Done(Call("coalesce", [ColumnExpr(Column("a", None)), ColumnExpr(Column("b", None)), ColumnExpr(Column("c", None))]), |s|)
  {
    var vx, vy, vz := ColumnExpr(Column("a", None)), ColumnExpr(Column("b", None)), ColumnExpr(Column("c", None));
    var xs: seq<seq<char>> := ["a", " b", "c"];
    var rest: seq<char> := [];
    assert ")" + rest == ")";
    SpaceAfterCommaArgs(lex, vx, vy, vz, xs, ")" + rest);
    assert s == "coalesce" + (w + ("(" + (ArgsText(xs) + (")" + rest)))) by {
      SpacedArgTexts();
    }
    CoalesceCall(lex, w, xs, [vx, vy, vz], rest, s);
  }
}
