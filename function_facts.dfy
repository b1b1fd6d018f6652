/**
 * What `column_function` and its argument parsers read, for texts whose
 * names, expressions and literals the dialect reads as stated.
 */
module FunctionFacts {
  import opened ParseCore
  import opened Ast
  import opened Clauses
  import opened References
  import opened Numeric
  import opened Functions

  // ---------------------------------------------------------------------
  // Reading aggregates

  /** Aggregate arguments without `DISTINCT`. */
  lemma {:induction false} AggFxArgsOf(lex: Lexicon, x: seq<char>, rest: seq<char>, ev: Expression)
    requires Word1("distinct", x + (")" + rest)).Fail?
    requires lex.expression(x + (")" + rest)) == Done(ev, |x|)
    ensures AggFxArgs(lex, "(" + (x + (")" + rest))) == Done((ev, false), |x| + 2)
  {
    var s := "(" + (x + (")" + rest));
    assert s[1..] == x + (")" + rest);
    assert AggFunctionArguments(lex, s[1..]) == Done((ev, false), |x|);
    assert s[1 + |x|..] == ")" + rest;
  }

  /** Aggregate arguments after `DISTINCT`, in any case, and whitespace. */
  lemma {:induction false} AggFxArgsDistinctOf(lex: Lexicon, kw: seq<char>, w: seq<char>, x: seq<char>, rest: seq<char>, ev: Expression)
    requires |kw| == 8 && StartsNoCase(kw, "distinct")
    requires Spaced(w, x + (")" + rest))
    requires lex.expression(x + (")" + rest)) == Done(ev, |x|)
    ensures AggFxArgs(lex, "(" + (kw + (w + (x + (")" + rest))))) == Done((ev, true), |kw| + |w| + |x| + 2)
  {
    var t := kw + (w + (x + (")" + rest)));
    DistinctArgsRead(lex, kw, w, x, rest, ev, t);
    ParenthesisedArgs(lex, t, (ev, true), 8 + |w| + |x|);
  }

  /** Arguments read inside the parentheses give `agg_fx_args` over the parenthesised text. */
  lemma {:induction false} ParenthesisedArgs(lex: Lexicon, t: seq<char>, v: (Expression, bool), n: nat)
    requires AggFunctionArguments(lex, t) == Done(v, n) && n < |t| && t[n] == ')'
    ensures AggFxArgs(lex, "(" + t) == Done(v, n + 2)
  {
    SliceShift("(", t, 0);
    AggFxArgsAt(lex, "(" + t, t, v, n);
  }

  /** The arguments inside the parentheses: `DISTINCT`, whitespace, the expression. */
  lemma {:induction false} DistinctArgsRead(lex: Lexicon, kw: seq<char>, w: seq<char>, x: seq<char>, rest: seq<char>, ev: Expression,
                           t: seq<char>)
    requires |kw| == 8 && StartsNoCase(kw, "distinct")
    requires Spaced(w, x + (")" + rest))
    requires lex.expression(x + (")" + rest)) == Done(ev, |x|)
    requires t == kw + (w + (x + (")" + rest)))
    ensures AggFunctionArguments(lex, t) == Done((ev, true), 8 + |w| + |x|)
    ensures 8 + |w| + |x| < |t| && t[8 + |w| + |x|] == ')'
  {
    DistinctText(kw, w, x, rest, t);
    Word1Reads("distinct", kw, w, x + (")" + rest));
    AggArgsDistinctAt(lex, t, 8 + |w|, ev, |x|);
  }

  lemma {:induction false} DistinctText(kw: seq<char>, w: seq<char>, x: seq<char>, rest: seq<char>, t: seq<char>)
    requires |kw| == 8 && t == kw + (w + (x + (")" + rest)))
    ensures t == kw + w + (x + (")" + rest)) && t[8 + |w|..] == x + (")" + rest)
    ensures 8 + |w| + |x| < |t| && t[8 + |w| + |x|] == ')'
  {
    assert t == (kw + w) + (x + (")" + rest));
    assert t == (kw + w + x) + (")" + rest);
  }

  /** `DISTINCT` read, then the expression. */
  lemma {:induction false} AggArgsDistinctAt(lex: Lexicon, t: seq<char>, a: nat, ev: Expression, c: nat)
    requires a <= |t| && Word1("distinct", t) == Done((), a) && lex.expression(t[a..]) == Done(ev, c)
    ensures AggFunctionArguments(lex, t) == Done((ev, true), a + c)
  {
  }

  /** `agg_fx_args` when the arguments inside the parentheses read. */
  lemma {:induction false} AggFxArgsAt(lex: Lexicon, s: seq<char>, t: seq<char>, v: (Expression, bool), n: nat)
    requires 0 < |s| && s[0] == '(' && s[1..] == t
    requires AggFunctionArguments(lex, t) == Done(v, n) && n < |t| && t[n] == ')'
    ensures AggFxArgs(lex, s) == Done(v, n + 2)
  {
    DropDrop(s, 1, n);
  }

  /** Two different aggregate names never start the same text. */
  lemma {:induction false} NamesDiffer(k: AggregateKind, j: AggregateKind, t: seq<char>)
    requires k != j
    ensures !StartsNoCase(AggregateName(k) + t, AggregateName(j))
  {
    var s := AggregateName(k) + t;
    if {k, j} == {MaxAgg, MinAgg} {
      assert Lower(s[1]) != Lower(AggregateName(j)[1]);
    } else {
      assert Lower(s[0]) != Lower(AggregateName(j)[0]);
    }
  }

  /** The other aggregates fail on text that starts with one aggregate's name. */
  lemma {:induction false} OthersFail(k: AggregateKind, lex: Lexicon, t: seq<char>)
    ensures forall j :: j != k ==> AggregateArm(j, lex, AggregateName(k) + t).Fail?
  {
    forall j | j != k ensures AggregateArm(j, lex, AggregateName(k) + t).Fail? {
      NamesDiffer(k, j, t);
    }
  }

  /** The named alternatives pick the one aggregate that succeeds. */
  lemma {:induction false} NamedAggregatePicks(k: AggregateKind, lex: Lexicon, s: seq<char>)
    requires forall j :: j != k ==> AggregateArm(j, lex, s).Fail?
    ensures NamedAggregate(lex, s) == AggregateArm(k, lex, s)
  {
    assert k == CountAgg || AggregateArm(CountAgg, lex, s).Fail?;
    assert k == SumAgg || AggregateArm(SumAgg, lex, s).Fail?;
    assert k == AvgAgg || AggregateArm(AvgAgg, lex, s).Fail?;
    assert k == MaxAgg || AggregateArm(MaxAgg, lex, s).Fail?;
    assert k == MinAgg || AggregateArm(MinAgg, lex, s).Fail?;
  }

  /** The named alternative reads its own name and arguments. */
  lemma {:induction false} AggregateArmOf(k: AggregateKind, lex: Lexicon, args: seq<char>, rest: seq<char>, e: Expression, d: bool)
    requires AggFxArgs(lex, args + rest) == Done((e, d), |args|)
    ensures AggregateArm(k, lex, AggregateName(k) + (args + rest)) == Done(MakeAggregate(k, e, d), |AggregateName(k)| + |args|)
  {
    var n := AggregateName(k);
    StartsNoCaseSelf(n, args + rest);
    assert (n + (args + rest))[|n|..] == args + rest;
  }

  /** Only `count` followed by `(*)` is `count(*)`. */
  lemma {:induction false} NotCountStar(k: AggregateKind, t: seq<char>)
    requires k == CountAgg ==> !StartsNoCase(t, "(*)")
    ensures !StartsNoCase(AggregateName(k) + t, "count(*)")
  {
    var s := AggregateName(k) + t;
    if k == CountAgg {
      if StartsNoCase(s, "count(*)") {
        forall i | 0 <= i < 3 ensures Lower(t[i]) == Lower("(*)"[i]) {
          assert s[5 + i] == t[i];
        }
        assert false;
      }
    } else {
      assert Lower(s[0]) != 'c';
    }
  }

  /**
   * An aggregate name directly followed by its arguments is that aggregate,
   * whatever a dialect's function names are: the named alternatives come
   * before the generic call. `count(*)` alone is `CountStar`.
   */
  lemma {:induction false} AggregateReads(k: AggregateKind, lex: Lexicon, args: seq<char>, rest: seq<char>, e: Expression, d: bool)
    requires AggFxArgs(lex, args + rest) == Done((e, d), |args|)
    requires k == CountAgg ==> !StartsNoCase(args + rest, "(*)")
    ensures ColumnFunction(lex, AggregateName(k) + (args + rest))
         == Done(MakeAggregate(k, e, d), |AggregateName(k)| + |args|)
  {
    var s := AggregateName(k) + (args + rest);
    AggregateArmOf(k, lex, args, rest, e, d);
    OthersFail(k, lex, args + rest);
    NamedAggregatePicks(k, lex, s);
    NotCountStar(k, args + rest);
  }

  /** Arguments `(DISTINCT x)`, with the text after them. */
  lemma {:induction false} DistinctArgsOf(lex: Lexicon, w: seq<char>, x: seq<char>, rest: seq<char>, ev: Expression)
    requires Spaced(w, x + (")" + rest))
    requires lex.expression(x + (")" + rest)) == Done(ev, |x|)
    ensures var args := "(" + ("distinct" + (w + (x + ")")));
      AggFxArgs(lex, args + rest) == Done((ev, true), |args|) && !StartsNoCase(args + rest, "(*)")
  {
    var kw := "distinct";
    var args := "(" + (kw + (w + (x + ")")));
    DistinctArgsText(kw, w, x, rest, args);
    StartsNoCaseSelf(kw, []);
    assert kw + [] == kw;
    AggFxArgsDistinctOf(lex, kw, w, x, rest, ev);
  }

  lemma {:induction false} DistinctArgsText(kw: seq<char>, w: seq<char>, x: seq<char>, rest: seq<char>, args: seq<char>)
    requires kw == "distinct" && args == "(" + (kw + (w + (x + ")")))
    ensures args + rest == "(" + (kw + (w + (x + (")" + rest))))
    ensures !StartsNoCase(args + rest, "(*)")
  {
    assert (args + rest)[1] == 'd';
  }

  /** `DISTINCT` is read by every aggregate, and kept by `COUNT`, `SUM` and `AVG`. */
  lemma {:induction false} DistinctAggregate(k: AggregateKind, lex: Lexicon, w: seq<char>, x: seq<char>, rest: seq<char>, ev: Expression)
    requires Spaced(w, x + (")" + rest))
    requires lex.expression(x + (")" + rest)) == Done(ev, |x|)
    ensures var args := "(" + ("distinct" + (w + (x + ")")));
      ColumnFunction(lex, AggregateName(k) + (args + rest)) == Done(MakeAggregate(k, ev, true), |AggregateName(k)| + |args|)
  {
    var args := "(" + ("distinct" + (w + (x + ")")));
    DistinctArgsOf(lex, w, x, rest, ev);
    AggregateReads(k, lex, args, rest, ev, true);
  }

  /** `MAX` and `MIN` drop the flag: `max(distinct x)` is `max(x)`. */
  lemma {:induction false} MaxMinDropDistinct(k: AggregateKind, lex: Lexicon, w: seq<char>, x: seq<char>, rest: seq<char>, ev: Expression)
    requires k == MaxAgg || k == MinAgg
    requires Spaced(w, x + (")" + rest))
    requires lex.expression(x + (")" + rest)) == Done(ev, |x|)
    requires Word1("distinct", x + (")" + rest)).Fail?
    ensures var withDistinct := ColumnFunction(lex, AggregateName(k) + ("(" + ("distinct" + (w + (x + ")"))) + rest));
      var without := ColumnFunction(lex, AggregateName(k) + ("(" + (x + ")") + rest));
      withDistinct.Done? && without.Done? && withDistinct.value == without.value
  {
    DistinctAggregate(k, lex, w, x, rest, ev);
    var plain := "(" + (x + ")");
    assert plain + rest == "(" + (x + (")" + rest));
    AggFxArgsOf(lex, x, rest, ev);
    AggregateReads(k, lex, plain, rest, ev, false);
  }

  /**
   * The source's nested example: in a dialect whose expression grammar
   * reads `min(foo)` as the call `MIN(foo)`, `max(min(foo))` is `MAX` of it.
   */
  lemma {:induction false} NestedFunctionCall(lex: Lexicon)
    requires lex.expression("min(foo))") == Done(CallExpr(Min(ColumnExpr(Column("foo", None)))), 8)
    ensures ColumnFunction(lex, "max(min(foo))") == Done(Max(CallExpr(Min(ColumnExpr(Column("foo", None))))), 13)
  {
    var e := CallExpr(Min(ColumnExpr(Column("foo", None))));
    var x, rest: seq<char> := "min(foo)", [];
    var args := "(" + (x + ")");
    assert AggregateName(MaxAgg) + (args + rest) == "max(min(foo))";
    assert x + (")" + rest) == "min(foo))";
    assert Word1("distinct", x + (")" + rest)).Fail? by {
      assert Lower((x + (")" + rest))[0]) != Lower("distinct"[0]);
    }
    AggFxArgsOf(lex, x, rest, e);
    assert args + rest == "(" + (x + (")" + rest));
    AggregateReads(MaxAgg, lex, args, rest, e, false);
  }

  // ---------------------------------------------------------------------
  // Reading group_concat

  /** An aggregate alternative fails on text whose first letter is not its name's. */
  lemma {:induction false} ArmFailsAt(k: AggregateKind, lex: Lexicon, s: seq<char>)
    requires 0 < |s| && Lower(s[0]) != Lower(AggregateName(k)[0])
    ensures AggregateArm(k, lex, s).Fail?
  {
    assert !StartsNoCase(s, AggregateName(k));
  }

  /** Text starting with `g` is read by the `group_concat` alternative or the generic call. */
  lemma {:induction false} StartsWithG(lex: Lexicon, s: seq<char>)
    requires 0 < |s| && Lower(s[0]) == 'g'
    ensures ColumnFunction(lex, s) == (if GroupConcatArm(lex, s).Done? then GroupConcatArm(lex, s) else GenericCall(lex, s))
  {
    ArmFailsAt(CountAgg, lex, s);
    ArmFailsAt(SumAgg, lex, s);
    ArmFailsAt(AvgAgg, lex, s);
    ArmFailsAt(MaxAgg, lex, s);
    ArmFailsAt(MinAgg, lex, s);
    assert !StartsNoCase(s, "count(*)");
  }

  /** The parentheses around what `group_concat_fx` reads. */
  lemma {:induction false} GroupConcatParensAt(lex: Lexicon, t: seq<char>, n: nat, spec: (Column, Option<string>))
    requires At(t, '(') && n + 2 <= |t| && GroupConcatFx(lex, t[1..]) == Done(spec, n) && t[n + 1] == ')'
    ensures GroupConcatParens(lex, t) == Done(spec, n + 2)
  {
  }

  lemma {:induction false} GroupConcatParensOf(lex: Lexicon, body: seq<char>, rest: seq<char>, cv: Column, sep: Option<string>)
    requires GroupConcatFx(lex, body + (")" + rest)) == Done((cv, sep), |body|)
    ensures GroupConcatParens(lex, "(" + (body + (")" + rest))) == Done((cv, sep), |body| + 2)
  {
    var t := "(" + (body + (")" + rest));
    assert t[1..] == body + (")" + rest);
    assert t[|body| + 1] == ')';
    GroupConcatParensAt(lex, t, |body|, (cv, sep));
  }

  /** The `group_concat` alternative reads the name, the parentheses and what `group_concat_fx` reads between them. */
  lemma {:induction false} GroupConcatArmReads(lex: Lexicon, body: seq<char>, rest: seq<char>, cv: Column, sep: Option<string>)
    requires GroupConcatFx(lex, body + (")" + rest)) == Done((cv, sep), |body|)
    ensures GroupConcatArm(lex, "group_concat(" + (body + (")" + rest)))
         == Done(GroupConcat(ColumnExpr(cv), if sep.Some? then sep.value else ","), 14 + |body|)
  {
    var kw := "group_concat";
    var t := "(" + (body + (")" + rest));
    var s := kw + t;
    assert s == "group_concat(" + (body + (")" + rest));
    StartsNoCaseSelf(kw, t);
    assert s[12..] == t;
    GroupConcatParensOf(lex, body, rest, cv, sep);
  }

  lemma {:induction false} GroupConcatArmOf(lex: Lexicon, body: seq<char>, rest: seq<char>, cv: Column, sep: Option<string>)
    requires GroupConcatFx(lex, body + (")" + rest)) == Done((cv, sep), |body|)
    ensures ColumnFunction(lex, "group_concat(" + (body + (")" + rest)))
         == Done(GroupConcat(ColumnExpr(cv), if sep.Some? then sep.value else ","), 14 + |body|)
  {
    GroupConcatArmReads(lex, body, rest, cv, sep);
    StartsWithG(lex, "group_concat(" + (body + (")" + rest)));
  }

  /** Without a separator clause the separator is a comma. */
  lemma {:induction false} GroupConcatDefaultSeparator(lex: Lexicon, c: seq<char>, rest: seq<char>, cv: Column)
    requires ColumnIdentifierNoAlias(lex, c + (")" + rest)) == Done(cv, |c|)
    ensures ColumnFunction(lex, "group_concat(" + (c + (")" + rest))) == Done(GroupConcat(ColumnExpr(cv), ","), 14 + |c|)
  {
    assert (c + (")" + rest))[|c|..] == ")" + rest;
    assert GroupConcatFxHelper(lex, ")" + rest).Fail?;
    GroupConcatArmOf(lex, c, rest, cv, None);
  }

  /** ` separator <literal>` reads as the literal's text. */
  lemma {:induction false} SeparatorClauseOf(lex: Lexicon, lit: seq<char>, rest: seq<char>, bytes: seq<u8>, sep: string)
    requires 0 < |lit| && !IsSpace(lit[0])
    requires lex.stringLiteral(lit + (")" + rest)) == Done(bytes, |lit|) && lex.utf8(bytes) == Some(sep)
    ensures GroupConcatFxHelper(lex, " separator " + (lit + (")" + rest))) == Done(sep, 11 + |lit|)
  {
    var t := lit + (")" + rest);
    var kw := "separator";
    var s := " " + (kw + (" " + t));
    assert s == " separator " + (lit + (")" + rest));
    Whitespace0Of(" ", kw + (" " + t));
    assert s[1..] == kw + (" " + t);
    StartsNoCaseSelf(kw, " " + t);
    assert s[10..] == " " + t;
    Whitespace0Of(" ", t);
    assert s[11..] == t;
    assert Utf8StringLiteral(lex, t) == Done(sep, |lit|);
    assert s[11 + |lit|..] == ")" + rest;
  }

  /** A column followed by a separator clause. */
  lemma {:induction false} GroupConcatFxOf(lex: Lexicon, c: seq<char>, u: seq<char>, tail: seq<char>, cv: Column, sep: string)
    requires ColumnIdentifierNoAlias(lex, c + (u + tail)) == Done(cv, |c|)
    requires GroupConcatFxHelper(lex, u + tail) == Done(sep, |u|)
    ensures GroupConcatFx(lex, (c + u) + tail) == Done((cv, Some(sep)), |c| + |u|)
  {
    Assoc3(c, u, tail);
    SliceShift(c, u + tail, 0);
    GroupConcatFxAt(lex, c + (u + tail), |c|, |u|, cv, sep);
  }

  /** `group_concat_fx` when both the column and the separator clause read. */
  lemma {:induction false} GroupConcatFxAt(lex: Lexicon, s: seq<char>, a: nat, b: nat, cv: Column, sep: string)
    requires a <= |s| && ColumnIdentifierNoAlias(lex, s) == Done(cv, a)
    requires GroupConcatFxHelper(lex, s[a..]) == Done(sep, b)
    ensures GroupConcatFx(lex, s) == Done((cv, Some(sep)), a + b)
  {
  }

  /**
   * An explicit separator is the literal's text (the source's example
   * `group_concat(x separator ', ')` gives `", "`).
   */
  lemma {:induction false} GroupConcatExplicitSeparator(lex: Lexicon, c: seq<char>, lit: seq<char>, rest: seq<char>, cv: Column,
                                     bytes: seq<u8>, sep: string)
    requires ColumnIdentifierNoAlias(lex, c + (" separator " + (lit + (")" + rest)))) == Done(cv, |c|)
    requires 0 < |lit| && !IsSpace(lit[0])
    requires lex.stringLiteral(lit + (")" + rest)) == Done(bytes, |lit|) && lex.utf8(bytes) == Some(sep)
    ensures ColumnFunction(lex, "group_concat(" + ((c + (" separator " + lit)) + (")" + rest)))
         == Done(GroupConcat(ColumnExpr(cv), sep), 25 + |c| + |lit|)
  {
    var u := " separator " + lit;
    var tail := ")" + rest;
    assert GroupConcatFxHelper(lex, u + tail) == Done(sep, |u|) by {
      Assoc3(" separator ", lit, ")" + rest);
      SeparatorClauseOf(lex, lit, rest, bytes, sep);
    }
    assert GroupConcatFx(lex, (c + u) + tail) == Done((cv, Some(sep)), |c + u|) by {
      Assoc3(" separator ", lit, ")" + rest);
      GroupConcatFxOf(lex, c, u, tail, cv, sep);
    }
    GroupConcatArmOf(lex, c + u, rest, cv, Some(sep));
  }

  /** `SEPARATOR` followed by text that is no string literal. */
  lemma {:induction false} BareSeparatorClauseOf(lex: Lexicon, t: seq<char>, tail: seq<char>)
    requires t == " separator" + tail
    requires !At(tail, ' ') && !At(tail, '\t') && !At(tail, '\r') && !At(tail, '\n')
    requires lex.stringLiteral(tail).Fail?
    ensures GroupConcatFxHelper(lex, t) == Done("", 10)
  {
    var kw := "separator";
    assert t == " " + (kw + tail);
    Whitespace0Of(" ", kw + tail);
    assert t[1..] == kw + tail;
    StartsNoCaseSelf(kw, tail);
    assert t[10..] == tail;
    assert Whitespace0(tail) == 0;
    assert tail[0..] == tail;
    assert SeparatorLiteral(lex, tail) == (None, 0);
  }

  /** `SEPARATOR` with no literal after it gives the empty separator, not the default comma. */
  lemma {:induction false} GroupConcatBareSeparator(lex: Lexicon, c: seq<char>, rest: seq<char>, cv: Column)
    requires ColumnIdentifierNoAlias(lex, c + (" separator" + (")" + rest))) == Done(cv, |c|)
    requires lex.stringLiteral(")" + rest).Fail?
    ensures ColumnFunction(lex, "group_concat(" + ((c + " separator") + (")" + rest)))
         == Done(GroupConcat(ColumnExpr(cv), ""), 24 + |c|)
  {
    BareSeparatorClauseOf(lex, " separator" + (")" + rest), ")" + rest);
    GroupConcatFxOf(lex, c, " separator", ")" + rest, cv, "");
    GroupConcatArmOf(lex, c + " separator", rest, cv, Some(""));
  }

  /** The texts of the source's example, taken apart. */
  lemma {:induction false} GroupConcatExampleText(c: seq<char>, lit: seq<char>, rest: seq<char>)
    requires c == "x" && lit == "', '" && rest == []
    ensures c + (" separator " + (lit + (")" + rest))) == "x separator ', ')"
    ensures lit + (")" + rest) == "', ')"
    ensures "group_concat(" + ((c + (" separator " + lit)) + (")" + rest)) == "group_concat(x separator ', ')"
  {
  }

  /** In the example, the column is `x` alone: a space and `separator` follow it. */
  lemma {:induction false} ExampleColumn(lex: Lexicon, c: seq<char>, u: seq<char>)
    requires c == "x" && u == " separator ', ')"
    requires lex.identifier(c + u) == Done("x", 1)
    ensures ColumnIdentifierNoAlias(lex, c + u) == Done(Column("x", None), 1)
  {
    assert Whitespace0(u) == 1 by {
      Whitespace0Of(" ", u[1..]);
      assert u == " " + u[1..];
    }
    assert u[1] == 's';
    UnqualifiedColumn(lex, c, u, "x");
  }

  /** The source's own example, for a dialect that reads `x` and `', '` as MySQL does. */
  lemma {:induction false} GroupConcatExample(lex: Lexicon, bytes: seq<u8>)
    requires lex.identifier("x separator ', ')") == Done("x", 1)
    requires lex.stringLiteral("', ')") == Done(bytes, 4) && lex.utf8(bytes) == Some(", ")
    ensures ColumnFunction(lex, "group_concat(x separator ', ')") == Done(GroupConcat(ColumnExpr(Column("x", None)), ", "), 30)
  {
    var c, lit, rest: seq<char> := "x", "', '", [];
    GroupConcatExampleText(c, lit, rest);
    ExampleColumn(lex, c, " separator " + (lit + (")" + rest)));
    GroupConcatExplicitSeparator(lex, c, lit, rest, Column("x", None), bytes, ", ");
  }

  // ---------------------------------------------------------------------
  // Reading generic calls

  /** Argument texts, each preceded by a comma. */
  function CommaPrefixed(xs: seq<seq<char>>): (t: seq<char>)
    ensures |t| >= |xs|
  {
    if |xs| == 0 then [] else "," + (xs[0] + CommaPrefixed(xs[1..]))
  }

  /** Argument texts joined by commas. */
  function ArgsText(xs: seq<seq<char>>): seq<char> {
    if |xs| == 0 then [] else xs[0] + CommaPrefixed(xs[1..])
  }

  /**
   * `p` reads each argument text as the value at the same position, and
   * stops at the comma after it or at `tail`.
   */
  ghost predicate ReadsEach<T>(p: Parser<T>, xs: seq<seq<char>>, vs: seq<T>, tail: seq<char>)
    decreases |xs|
  {
    |xs| == |vs| &&
    (0 < |xs| ==>
      p(xs[0] + (CommaPrefixed(xs[1..]) + tail)) == Done(vs[0], |xs[0]|) &&
      ReadsEach(p, xs[1..], vs[1..], tail))
  }

  /** The dialect reads each argument text, padding included, as the expression at the same position. */
  ghost predicate ReadsArgs(lex: Lexicon, xs: seq<seq<char>>, vs: seq<Expression>, tail: seq<char>) {
    ReadsEach(PaddedExpressionOf(lex), xs, vs, tail)
  }

  /** One round of the argument loop: a comma, then an argument. */
  lemma {:induction false} ArgsStep<T>(p: Parser<T>, s: seq<char>, x: seq<char>, more: seq<char>, v: T, vs: seq<T>, m: nat)
    requires s == "," + (x + more)
    requires p(x + more) == Done(v, |x|)
    requires ListTail(CommaTag, p, more) == Done(vs, m)
    ensures ListTail(CommaTag, p, s) == Done([v] + vs, 1 + |x| + m)
  {
    assert CommaTag(s) == Done((), 1);
    assert s[1..] == x + more;
    assert s[1 + |x|..] == more;
    ListTailStep(CommaTag, p, s, 1, v, |x|, vs, m);
  }

  /** The loop after the first argument reads every further argument, and stops at the parenthesis. */
  lemma {:induction false} ArgsTailOf<T>(p: Parser<T>, xs: seq<seq<char>>, vs: seq<T>, tail: seq<char>)
    requires ReadsEach(p, xs, vs, tail) && At(tail, ')')
    ensures ListTail(CommaTag, p, CommaPrefixed(xs) + tail) == Done(vs, |CommaPrefixed(xs)|)
    decreases |xs|
  {
    if |xs| == 0 {
      assert CommaPrefixed(xs) + tail == tail;
      assert CommaTag(tail).Fail?;
    } else {
      var more := CommaPrefixed(xs[1..]) + tail;
      var s := CommaPrefixed(xs) + tail;
      assert s == "," + (xs[0] + more);
      ArgsTailOf(p, xs[1..], vs[1..], tail);
      ArgsStep(p, s, xs[0], more, vs[0], vs[1..], |CommaPrefixed(xs[1..])|);
      assert [vs[0]] + vs[1..] == vs;
    }
  }

  /** `separated_list0` reads every argument text. */
  lemma {:induction false} ArgsListOf<T>(p: Parser<T>, xs: seq<seq<char>>, vs: seq<T>, tail: seq<char>)
    requires 0 < |xs| && ReadsEach(p, xs, vs, tail) && At(tail, ')')
    ensures SeparatedList0(CommaTag, p, ArgsText(xs) + tail) == Done(vs, |ArgsText(xs)|)
  {
    var more := CommaPrefixed(xs[1..]) + tail;
    var t := ArgsText(xs) + tail;
    assert t == xs[0] + more;
    assert t[|xs[0]|..] == more;
    ArgsTailOf(p, xs[1..], vs[1..], tail);
    SeparatedList0Step(CommaTag, p, t, vs[0], |xs[0]|, vs[1..], |CommaPrefixed(xs[1..])|);
    assert [vs[0]] + vs[1..] == vs;
  }

  /** `delim_fx_args`, by position. */
  lemma {:induction false} DelimFxArgsAt(lex: Lexicon, t: seq<char>, n: nat, vs: seq<Expression>)
    requires At(t, '(') && n + 2 <= |t| && t[n + 1] == ')'
    requires SeparatedList0(CommaTag, PaddedExpressionOf(lex), t[1..]) == Done(vs, n)
    ensures DelimFxArgs(lex, t) == Done(vs, n + 2)
  {
    assert t[1 + n..][0] == ')';
  }

  /** `delim_fx_args` reads the parenthesised argument texts as their expressions. */
  lemma {:induction false} DelimFxArgsOf(lex: Lexicon, xs: seq<seq<char>>, vs: seq<Expression>, rest: seq<char>, s: seq<char>)
    requires 0 < |xs| && ReadsArgs(lex, xs, vs, ")" + rest)
    requires s == "(" + (ArgsText(xs) + (")" + rest))
    ensures DelimFxArgs(lex, s) == Done(vs, |ArgsText(xs)| + 2)
  {
    ArgsListOf(PaddedExpressionOf(lex), xs, vs, ")" + rest);
    assert s[1..] == ArgsText(xs) + (")" + rest);
    assert s[|ArgsText(xs)| + 1] == ')';
    DelimFxArgsAt(lex, s, |ArgsText(xs)|, vs);
  }

  /** A function name followed by what the generic call's tail reads. */
  lemma {:induction false} GenericCallAt(lex: Lexicon, s: seq<char>, a: nat, vs: seq<Expression>, d: nat, name: string)
    requires a <= |s| && lex.functionIdentifier(s) == Done(name, a) && SpacedFxArgs(lex, s[a..]) == Done(vs, d)
    ensures GenericCall(lex, s) == Done(Call(name, vs), a + d)
  {
  }

  /** Whitespace, measured, then arguments `delim_fx_args` reads. */
  lemma {:induction false} SpacedFxArgsAt(lex: Lexicon, tail: seq<char>, b: nat, args: seq<char>, vs: seq<Expression>, c: nat)
    requires b <= |tail| && Whitespace0(tail) == b && tail[b..] == args && DelimFxArgs(lex, args) == Done(vs, c)
    ensures SpacedFxArgs(lex, tail) == Done(vs, b + c)
  {
  }

  /** A function name, optional whitespace and its arguments read as the generic call. */
  lemma {:induction false} GenericCallOf(lex: Lexicon, n: seq<char>, w: seq<char>, xs: seq<seq<char>>, vs: seq<Expression>, rest: seq<char>,
                      name: string, s: seq<char>)
    requires s == n + (w + ("(" + (ArgsText(xs) + (")" + rest))))
    requires lex.functionIdentifier(s) == Done(name, |n|)
    requires Blank(w) && 0 < |xs| && ReadsArgs(lex, xs, vs, ")" + rest)
    ensures GenericCall(lex, s) == Done(Call(name, vs), |n| + |w| + |ArgsText(xs)| + 2)
  {
    var args := "(" + (ArgsText(xs) + (")" + rest));
    var c := |ArgsText(xs)| + 2;
    assert DelimFxArgs(lex, args) == Done(vs, c) by {
      DelimFxArgsOf(lex, xs, vs, rest, args);
    }
    GenericCallAfter(lex, n, w, args, vs, c, name, s);
  }

  /** Blank text, then arguments `delim_fx_args` reads: the blank text is skipped before them. */
  lemma {:induction false} BlankThenArgs(lex: Lexicon, w: seq<char>, args: seq<char>, vs: seq<Expression>, c: nat)
    requires Blank(w) && At(args, '(') && DelimFxArgs(lex, args) == Done(vs, c)
    ensures SpacedFxArgs(lex, w + args) == Done(vs, |w| + c)
  {
    Whitespace0Of(w, args);
    assert (w + args)[|w|..] == args;
    SpacedFxArgsAt(lex, w + args, |w|, args, vs, c);
  }

  /** A function name, blank text and arguments `delim_fx_args` reads, as the generic call. */
  lemma {:induction false} GenericCallAfter(lex: Lexicon, n: seq<char>, w: seq<char>, args: seq<char>, vs: seq<Expression>, c: nat,
                           name: string, s: seq<char>)
    requires s == n + (w + args) && Blank(w) && At(args, '(')
    requires lex.functionIdentifier(s) == Done(name, |n|) && DelimFxArgs(lex, args) == Done(vs, c)
    ensures GenericCall(lex, s) == Done(Call(name, vs), |n| + |w| + c)
  {
    assert |n| <= |s| && SpacedFxArgs(lex, s[|n|..]) == Done(vs, |w| + c) by {
      assert s[|n|..] == w + args;
      BlankThenArgs(lex, w, args, vs, c);
    }
    GenericCallAt(lex, s, |n|, vs, |w| + c, name);
  }

  /**
   * `count` followed by whitespace before its parenthesis is not the `COUNT`
   * aggregate: the generic call reads it, as a dialect's function name.
   */
  lemma {:induction false} SpacedCountIsGenericCall(lex: Lexicon, w: seq<char>, xs: seq<seq<char>>, vs: seq<Expression>, rest: seq<char>,
                                 name: string, s: seq<char>)
    requires s == "count" + (w + ("(" + (ArgsText(xs) + (")" + rest))))
    requires lex.functionIdentifier(s) == Done(name, 5)
    requires 0 < |w| && Blank(w) && 0 < |xs| && ReadsArgs(lex, xs, vs, ")" + rest)
    ensures ColumnFunction(lex, s) == Done(Call(name, vs), 5 + |w| + |ArgsText(xs)| + 2)
  {
    SpacedCountFallsThrough(lex, w, "(" + (ArgsText(xs) + (")" + rest)), s);
    GenericCallOf(lex, "count", w, xs, vs, rest, name, s);
  }

  /** When no earlier alternative applies, `column_function` is the generic call. */
  lemma {:induction false} FallsThrough(lex: Lexicon, s: seq<char>)
    requires !StartsNoCase(s, "count(*)") && NamedAggregate(lex, s).Fail? && !StartsNoCase(s, "group_concat")
    ensures ColumnFunction(lex, s) == GenericCall(lex, s)
  {
  }

  /** `count` and a space: the `COUNT` alternative needs the parenthesis right after the name. */
  lemma {:induction false} SpacedCountArmFails(lex: Lexicon, s: seq<char>)
    requires 5 < |s| && StartsNoCase(s, "count") && IsSpace(s[5])
    ensures AggregateArm(CountAgg, lex, s).Fail? && !StartsNoCase(s, "count(*)")
  {
    assert s[5..][0] == s[5];
    assert AggFxArgs(lex, s[5..]).Fail?;
  }

  /** Only the generic call can read `count` followed by whitespace. */
  lemma {:induction false} SpacedCountFallsThrough(lex: Lexicon, w: seq<char>, args: seq<char>, s: seq<char>)
    requires s == "count" + (w + args)
    requires 0 < |w| && Blank(w)
    ensures ColumnFunction(lex, s) == GenericCall(lex, s)
  {
    StartsNoCaseSelf("count", w + args);
    assert s[5] == w[0];
    SpacedCountArmFails(lex, s);
    assert Lower(s[0]) == 'c';
    ArmFailsAt(SumAgg, lex, s);
    ArmFailsAt(AvgAgg, lex, s);
    ArmFailsAt(MaxAgg, lex, s);
    ArmFailsAt(MinAgg, lex, s);
    assert !StartsNoCase(s, "group_concat");
    FallsThrough(lex, s);
  }

  /** An expression with no whitespace before it or after it is read alone by the padded parser. */
  lemma {:induction false} PaddedAt(lex: Lexicon, t: seq<char>, v: Expression, n: nat)
    requires 0 < n < |t| && !IsSpace(t[0]) && !IsSpace(t[n])
    requires lex.expression(t) == Done(v, n)
    ensures PaddedExpression(lex, t) == Done(v, n)
  {
    assert Whitespace0(t) == 0;
    assert t[0..] == t;
    assert Whitespace0(t[n..]) == 0;
  }

  /** One more argument in front of a list that `p` reads. */
  lemma {:induction false} ReadsEachCons<T>(p: Parser<T>, x: seq<char>, xs: seq<seq<char>>, v: T, vs: seq<T>, tail: seq<char>)
    requires p(x + (CommaPrefixed(xs) + tail)) == Done(v, |x|) && ReadsEach(p, xs, vs, tail)
    ensures ReadsEach(p, [x] + xs, [v] + vs, tail)
    ensures CommaPrefixed([x] + xs) == "," + (x + CommaPrefixed(xs))
  {
    assert ([x] + xs)[1..] == xs;
    assert ([v] + vs)[1..] == vs;
  }

  /** An argument text that starts with no whitespace. */
  predicate Unpadded(x: seq<char>) {
    0 < |x| && !IsSpace(x[0])
  }

  /** The last argument before the closing parenthesis. */
  lemma {:induction false} LastArg(lex: Lexicon, z: seq<char>, vz: Expression)
    requires Unpadded(z) && lex.expression(z + ")") == Done(vz, |z|)
    ensures ReadsArgs(lex, [z], [vz], ")") && CommaPrefixed([z]) == "," + z
  {
    var none: seq<seq<char>> := [];
    assert z + (CommaPrefixed(none) + ")") == z + ")";
    assert (z + ")")[|z|] == ')';
    PaddedAt(lex, z + ")", vz, |z|);
    ReadsEachCons(PaddedExpressionOf(lex), z, none, vz, [], ")");
    assert [vz] + [] == [vz] && [z] + none == [z];
    assert z + CommaPrefixed(none) == z;
  }

  /** Two arguments before the closing parenthesis. */
  lemma {:induction false} TwoArgs(lex: Lexicon, y: seq<char>, z: seq<char>, vy: Expression, vz: Expression)
    requires Unpadded(y) && lex.expression(y + ("," + (z + ")"))) == Done(vy, |y|)
    requires Unpadded(z) && lex.expression(z + ")") == Done(vz, |z|)
    ensures ReadsArgs(lex, [y, z], [vy, vz], ")") && CommaPrefixed([y, z]) == "," + (y + ("," + z))
  {
    LastArg(lex, z, vz);
    var t := y + ("," + (z + ")"));
    assert y + (CommaPrefixed([z]) + ")") == t;
    assert t[|y|] == ',';
    PaddedAt(lex, t, vy, |y|);
    ReadsEachCons(PaddedExpressionOf(lex), y, [z], vy, [vz], ")");
    assert [vy] + [vz] == [vy, vz] && [y] + [z] == [y, z];
  }

  /** Three arguments before the closing parenthesis. */
  lemma {:induction false} ThreeArgs(lex: Lexicon, x: seq<char>, y: seq<char>, z: seq<char>, vx: Expression, vy: Expression, vz: Expression)
    requires Unpadded(x) && lex.expression(x + ("," + (y + ("," + (z + ")"))))) == Done(vx, |x|)
    requires Unpadded(y) && lex.expression(y + ("," + (z + ")"))) == Done(vy, |y|)
    requires Unpadded(z) && lex.expression(z + ")") == Done(vz, |z|)
    ensures ReadsArgs(lex, [x, y, z], [vx, vy, vz], ")") && ArgsText([x, y, z]) == x + ("," + (y + ("," + z)))
  {
    TwoArgs(lex, y, z, vy, vz);
    var t := x + ("," + (y + ("," + (z + ")"))));
    assert x + (CommaPrefixed([y, z]) + ")") == t;
    assert t[|x|] == ',';
    PaddedAt(lex, t, vx, |x|);
    ReadsEachCons(PaddedExpressionOf(lex), x, [y, z], vx, [vy, vz], ")");
    assert [vx] + [vy, vz] == [vx, vy, vz] && [x] + [y, z] == [x, y, z];
    assert [x, y, z][1..] == [y, z];
  }

  /** `coalesce` shares no prefix with the names the earlier alternatives want. */
  lemma {:induction false} CoalesceFallsThrough(lex: Lexicon, s: seq<char>)
    requires 8 <= |s| && s[..8] == "coalesce"
    ensures ColumnFunction(lex, s) == GenericCall(lex, s)
  {
    assert s[0] == 'c' && s[2] == 'a';
    assert !StartsNoCase(s, "count");
    assert AggregateArm(CountAgg, lex, s).Fail?;
    ArmFailsAt(SumAgg, lex, s);
    ArmFailsAt(AvgAgg, lex, s);
    ArmFailsAt(MaxAgg, lex, s);
    ArmFailsAt(MinAgg, lex, s);
    assert !StartsNoCase(s, "count(*)");
    assert !StartsNoCase(s, "group_concat");
    FallsThrough(lex, s);
  }

  /**
   * The source's generic-call example: `coalesce(a,b,c)`, with or without
   * whitespace before the parenthesis, is the call of `coalesce` on the
   * three columns, in a dialect that reads the name and the columns as
   * MySQL does.
   */
  lemma {:induction false} CoalesceExample(lex: Lexicon, w: seq<char>, s: seq<char>)
    requires Blank(w) && s == "coalesce" + (w + "(a,b,c)")
    requires lex.functionIdentifier(s) == Done("coalesce", 8)
    requires lex.expression("a,b,c)") == Done(ColumnExpr(Column("a", None)), 1)
    requires lex.expression("b,c)") == Done(ColumnExpr(Column("b", None)), 1)
    requires lex.expression("c)") == Done(ColumnExpr(Column("c", None)), 1)
    ensures ColumnFunction(lex, s)
         == Done(Call("coalesce", [ColumnExpr(Column("a", None)), ColumnExpr(Column("b", None)), ColumnExpr(Column("c", None))]), |s|)
  {
    var x, y, z, rest: seq<char> := "a", "b", "c", [];
    var vx, vy, vz := ColumnExpr(Column("a", None)), ColumnExpr(Column("b", None)), ColumnExpr(Column("c", None));
    CoalesceTexts(x, y, z, rest, w, s);
    ThreeArgs(lex, x, y, z, vx, vy, vz);
    CoalesceFallsThrough(lex, s);
    CoalesceArgsText(x, y, z, rest, w, s);
    GenericCallOf(lex, "coalesce", w, [x, y, z], [vx, vy, vz], rest, "coalesce", s);
  }

  /** The texts of the generic-call example, taken apart. */
  lemma {:induction false} CoalesceTexts(x: seq<char>, y: seq<char>, z: seq<char>, rest: seq<char>, w: seq<char>, s: seq<char>)
    requires x == "a" && y == "b" && z == "c" && rest == [] && s == "coalesce" + (w + "(a,b,c)")
    ensures x + ("," + (y + ("," + (z + ")")))) == "a,b,c)" && y + ("," + (z + ")")) == "b,c)" && z + ")" == "c)"
    ensures Unpadded(x) && Unpadded(y) && Unpadded(z) && ")" + rest == ")"
    ensures 8 <= |s| && s[..8] == "coalesce" && |s| == 8 + |w| + 7
  {
  }

  lemma {:induction false} CoalesceArgsText(x: seq<char>, y: seq<char>, z: seq<char>, rest: seq<char>, w: seq<char>, s: seq<char>)
    requires x == "a" && y == "b" && z == "c" && rest == [] && s == "coalesce" + (w + "(a,b,c)")
    requires ArgsText([x, y, z]) == x + ("," + (y + ("," + z)))
    ensures s == "coalesce" + (w + ("(" + (ArgsText([x, y, z]) + (")" + rest))))
  {
    assert "(a,b,c)" == "(" + ((x + ("," + (y + ("," + z)))) + (")" + rest));
  }

  /** One argument before the closing parenthesis. */
  lemma {:induction false} OneItem<T>(p: Parser<T>, z: seq<char>, vz: T)
    requires p(z + ")") == Done(vz, |z|)
    ensures ReadsEach(p, [z], [vz], ")") && CommaPrefixed([z]) == "," + z
  {
    var none: seq<seq<char>> := [];
    assert z + (CommaPrefixed(none) + ")") == z + ")";
    ReadsEachCons(p, z, none, vz, [], ")");
    assert [vz] + [] == [vz] && [z] + none == [z] && z + CommaPrefixed(none) == z;
  }

  /** Two arguments before the closing parenthesis. */
  lemma {:induction false} TwoItems<T>(p: Parser<T>, y: seq<char>, z: seq<char>, vy: T, vz: T, t: seq<char>)
    requires t == y + ("," + (z + ")"))
    requires p(t) == Done(vy, |y|)
    requires p(z + ")") == Done(vz, |z|)
    ensures ReadsEach(p, [y, z], [vy, vz], ")") && CommaPrefixed([y, z]) == "," + (y + ("," + z))
  {
    OneItem(p, z, vz);
    assert y + (CommaPrefixed([z]) + ")") == t;
    ReadsEachCons(p, y, [z], vy, [vz], ")");
    assert [vy] + [vz] == [vy, vz] && [y] + [z] == [y, z];
  }

  /**
   * Three arguments before the closing parenthesis. The parser is left
   * abstract, so that the padding rule's body stays out of the proof.
   */
  lemma {:induction false} ThreeItems<T>(p: Parser<T>, x: seq<char>, y: seq<char>, z: seq<char>, vx: T, vy: T, vz: T,
                          t: seq<char>, u: seq<char>)
    requires t == x + ("," + u) && u == y + ("," + (z + ")"))
    requires p(t) == Done(vx, |x|)
    requires p(u) == Done(vy, |y|)
    requires p(z + ")") == Done(vz, |z|)
    ensures ReadsEach(p, [x, y, z], [vx, vy, vz], ")") && ArgsText([x, y, z]) == x + ("," + (y + ("," + z)))
  {
    TwoItems(p, y, z, vy, vz, u);
    assert x + (CommaPrefixed([y, z]) + ")") == t;
    ReadsEachCons(p, x, [y, z], vx, [vy, vz], ")");
    assert [vx] + [vy, vz] == [vx, vy, vz] && [x] + [y, z] == [x, y, z];
    assert [x, y, z][1..] == [y, z];
  }

  /** `whitespace0`, an expression and `whitespace0`, measured piece by piece. */
  lemma {:induction false} PaddedRead(lex: Lexicon, t: seq<char>, v: Expression, a: nat, n: nat, b: nat)
    requires a + n <= |t| && Whitespace0(t) == a && lex.expression(t[a..]) == Done(v, n) && Whitespace0(t[a + n..]) == b
    ensures PaddedExpression(lex, t) == Done(v, a + n + b)
  {
  }
}
