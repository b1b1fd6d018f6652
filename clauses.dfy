/**
 * Small clause parsers of nom-sql/src/common.rs that stand on their own:
 * `statement_terminator` and `terminated_with_statement_terminator`
 * (lines 1246-1262), `if_not_exists` (lines 1498-1511) and
 * `parse_comment` (lines 1527-1538).
 */
module Clauses {
  import opened ParseCore

  // ---------------------------------------------------------------------
  // statement_terminator

  /** `alt((tag(";"), line_ending, eof))`: what may end a statement. */
  function TerminatorToken(s: seq<char>): (r: ParseResult<()>)
    ensures Fits(r, s)
  {
    if Char(';', s).Done? then Done((), 1)
    else
      var l := LineEnding(s);
      if l.Done? then l else Eof(s)
  }

  /** `statement_terminator` (common.rs:1246-1252): whitespace, a terminator, whitespace. */
  function StatementTerminator(s: seq<char>): (r: ParseResult<()>)
    ensures Fits(r, s)
  {
    var a := Whitespace0(s);
    var (_, b) :- TerminatorToken(s[a..]);
    var c := Whitespace0(s[a + b..]);
    Done((), a + b + c)
  }

  /**
   * The leading `whitespace0` already swallows every line ending, so the
   * `line_ending` alternative never sees one: a statement ends exactly where
   * the text after the whitespace is empty or starts with `;`, and the
   * terminator consumes that `;` and the whitespace around it.
   */
  lemma {:induction false} StatementTerminatorAccepts(s: seq<char>)
    ensures var t := s[Whitespace0(s)..];
      StatementTerminator(s).Done? <==> (|t| == 0 || t[0] == ';')
    ensures var t := s[Whitespace0(s)..];
      |t| == 0 ==> StatementTerminator(s) == Done((), |s|)
    ensures var t := s[Whitespace0(s)..];
      |t| > 0 && t[0] == ';' ==> StatementTerminator(s) == Done((), Whitespace0(s) + 1 + Whitespace0(t[1..]))
  {
    var a := Whitespace0(s);
    var t := s[a..];
    assert LineEnding(t).Fail? by {
      if |t| > 0 { assert !IsSpace(s[a]); assert t[0] == s[a]; }
    }
    if |t| > 0 && t[0] == ';' {
      assert s[a + 1..] == t[1..];
    }
  }

  /** `terminated_with_statement_terminator` (common.rs:1254-1262): a parser, then a terminator. */
  function TerminatedWithStatementTerminator<T>(p: Parser<T>, s: seq<char>): (r: ParseResult<T>)
    ensures Fits(r, s)
    ensures r.Done? <==> p(s).Done? && StatementTerminator(s[p(s).used..]).Done?
    ensures r.Done? ==> r.value == p(s).value && r.used == p(s).used + StatementTerminator(s[p(s).used..]).used
  {
    var (v, a) :- p(s);
    var (_, b) :- StatementTerminator(s[a..]);
    Done(v, a + b)
  }

  /** A statement followed by `;` and a newline is terminated there, leaving what follows. */
  lemma {:induction false} SemicolonNewlineTerminates(rest: seq<char>)
    requires |rest| == 0 || !IsSpace(rest[0])
    ensures StatementTerminator(";\n" + rest) == Done((), 2)
  {
    var s := ";\n" + rest;
    assert Whitespace0(s) == 0;
    StatementTerminatorAccepts(s);
    assert s[1..] == "\n" + rest;
    Whitespace0Of("\n", rest);
  }

  /** `;` between runs of whitespace is a terminator that consumes the whole text. */
  lemma {:induction false} SpacedSemicolonTerminates(w: seq<char>, v: seq<char>)
    requires forall i :: 0 <= i < |w| ==> IsSpace(w[i])
    requires forall i :: 0 <= i < |v| ==> IsSpace(v[i])
    ensures StatementTerminator(w + (";" + v)) == Done((), |w| + 1 + |v|)
  {
    var s := w + (";" + v);
    Whitespace0Of(w, ";" + v);
    StatementTerminatorAccepts(s);
    assert s[|w|..] == ";" + v;
    assert (";" + v)[1..] == v + [];
    Whitespace0Of(v, []);
  }

  /** The test at common.rs:1711-1714: `   ;  ` is terminated, consuming all six characters. */
  lemma TerminatedBySemicolon()
    ensures StatementTerminator("   ;  ") == Done((), 6)
  {
    SpacedSemicolonTerminates("   ", "  ");
    assert "   " + (";" + "  ") == "   ;  ";
  }

  /** A newline alone does not end a statement that more text follows. */
  lemma {:induction false} NewlineAloneDoesNotTerminate(rest: seq<char>)
    requires |rest| > 0 && !IsSpace(rest[0]) && rest[0] != ';'
    ensures StatementTerminator("\n" + rest).Fail?
  {
    var s := "\n" + rest;
    Whitespace0Of("\n", rest);
    StatementTerminatorAccepts(s);
    assert s[1..] == rest;
  }

  // ---------------------------------------------------------------------
  // if_not_exists

  /** The keyword `kw` followed by at least one whitespace character. */
  function Word1(kw: string, s: seq<char>): (r: ParseResult<()>)
    ensures Fits(r, s)
  {
    var (_, a) :- TagNoCase(kw, s);
    var (_, b) :- Whitespace1(s[a..]);
    Done((), a + b)
  }

  /** `IF NOT EXISTS`, each word followed by whitespace. */
  function IfNotExistsPhrase(s: seq<char>): (r: ParseResult<()>)
    ensures Fits(r, s)
  {
    var (_, a) :- Word1("if", s);
    var (_, b) :- Word1("not", s[a..]);
    var (_, c) :- Word1("exists", s[a + b..]);
    Done((), a + b + c)
  }

  /**
   * `if_not_exists` (common.rs:1498-1511): whether the phrase is present,
   * and how much it consumed; when it is absent nothing is consumed.
   */
  function IfNotExists(s: seq<char>): (o: (bool, nat))
    ensures o.1 <= |s|
    ensures !o.0 ==> o.1 == 0
    ensures o.0 ==> StartsNoCase(s, "if") && 9 <= o.1
  {
    var (m, n) := Opt(IfNotExistsPhrase(s));
    (m.Some?, n)
  }

  /** Whitespace followed by a non-space. */
  predicate Spaced(w: seq<char>, rest: seq<char>) {
    0 < |w| && (forall i :: 0 <= i < |w| ==> IsSpace(w[i])) && (|rest| == 0 || !IsSpace(rest[0]))
  }

  /** A keyword written in any case, then whitespace, is read as one word. */
  lemma {:induction false} Word1Reads(kw: string, head: seq<char>, w: seq<char>, rest: seq<char>)
    requires |head| == |kw| && StartsNoCase(head, kw) && Spaced(w, rest)
    ensures Word1(kw, head + w + rest) == Done((), |head| + |w|)
  {
    var s := head + w + rest;
    assert StartsNoCase(s, kw) by {
      forall i | 0 <= i < |kw| ensures Lower(s[i]) == Lower(kw[i]) {
        assert s[i] == head[i];
      }
    }
    assert s[|head|..] == w + rest;
    Whitespace0Of(w, rest);
  }

  /** The three words of the phrase, read one after another. */
  lemma {:induction false} IfNotExistsSteps(s: seq<char>, a: nat, b: nat, c: nat)
    requires a <= |s| && Word1("if", s) == Done((), a)
    requires b <= |s[a..]| && Word1("not", s[a..]) == Done((), b)
    requires Word1("exists", s[a..][b..]) == Done((), c)
    ensures IfNotExists(s) == (true, a + b + c)
  {
    PhraseSteps(s, a, b, c);
  }

  lemma {:induction false} PhraseSteps(s: seq<char>, a: nat, b: nat, c: nat)
    requires a <= |s| && Word1("if", s) == Done((), a)
    requires b <= |s[a..]| && Word1("not", s[a..]) == Done((), b)
    requires Word1("exists", s[a..][b..]) == Done((), c)
    ensures IfNotExistsPhrase(s) == Done((), a + b + c)
  {
    assert s[a..][b..] == s[a + b..];
  }

  /** `NOT EXISTS` and the whitespace after each word. */
  lemma {:induction false} NotExistsReads(n: seq<char>, w2: seq<char>, e: seq<char>, w3: seq<char>, rest: seq<char>)
    requires |n| == 3 && StartsNoCase(n, "not")
    requires |e| == 6 && StartsNoCase(e, "exists")
    requires Spaced(w2, e) && Spaced(w3, rest)
    ensures var t := n + w2 + (e + w3 + rest);
      3 + |w2| <= |t| && Word1("not", t) == Done((), 3 + |w2|) &&
      Word1("exists", t[3 + |w2|..]) == Done((), 6 + |w3|)
  {
    var tail3 := e + w3 + rest;
    assert Spaced(w2, tail3) by { assert tail3[0] == e[0]; }
    Word1Reads("not", n, w2, tail3);
    assert (n + w2 + tail3)[3 + |w2|..] == tail3;
    Word1Reads("exists", e, w3, rest);
  }

  /** `IF NOT EXISTS`, in any case and with any whitespace between and after the words, is read. */
  lemma {:induction false} IfNotExistsReads(i: seq<char>, w1: seq<char>, n: seq<char>, w2: seq<char>, e: seq<char>, w3: seq<char>, rest: seq<char>)
    requires |i| == 2 && StartsNoCase(i, "if")
    requires |n| == 3 && StartsNoCase(n, "not")
    requires |e| == 6 && StartsNoCase(e, "exists")
    requires Spaced(w1, n) && Spaced(w2, e) && Spaced(w3, rest)
    ensures IfNotExists(i + w1 + (n + w2 + (e + w3 + rest))) == (true, 11 + |w1| + |w2| + |w3|)
  {
    var tail2 := n + w2 + (e + w3 + rest);
    var s := i + w1 + tail2;
    IfReads(i, w1, n, tail2);
    NotExistsReads(n, w2, e, w3, rest);
    IfNotExistsSteps(s, 2 + |w1|, 3 + |w2|, 6 + |w3|);
  }

  lemma {:induction false} IfReads(i: seq<char>, w1: seq<char>, n: seq<char>, tail2: seq<char>)
    requires |i| == 2 && StartsNoCase(i, "if")
    requires Spaced(w1, n) && |n| > 0 && |tail2| > 0 && tail2[0] == n[0]
    ensures Word1("if", i + w1 + tail2) == Done((), 2 + |w1|)
    ensures (i + w1 + tail2)[2 + |w1|..] == tail2
  {
    Word1Reads("if", i, w1, tail2);
  }

  /** The source's own spelling. */
  lemma {:induction false} IfNotExistsUpperCase(rest: seq<char>)
    requires |rest| == 0 || !IsSpace(rest[0])
    ensures IfNotExists("IF NOT EXISTS " + rest) == (true, 14)
  {
    assert "IF NOT EXISTS " + rest == "IF" + " " + ("NOT" + " " + ("EXISTS" + " " + rest));
    assert StartsNoCase("IF", "if") && StartsNoCase("NOT", "not") && StartsNoCase("EXISTS", "exists");
    IfNotExistsReads("IF", " ", "NOT", " ", "EXISTS", " ", rest);
  }

  /**
   * Every word must be followed by whitespace, the last one too: at the very
   * end of the input the phrase is not recognised and nothing is consumed.
   */
  lemma {:induction false} IfNotExistsNeedsTrailingSpace()
    ensures IfNotExists("IF NOT EXISTS") == (false, 0)
  {
    var s := "IF NOT EXISTS";
    IfWordReads(s);
    NotWordReads(s);
    ExistsAtEnd(s);
    PhraseStopsAtThird(s, 3, 4);
  }

  lemma {:induction false} IfWordReads(s: seq<char>)
    requires s == "IF NOT EXISTS"
    ensures Word1("if", s) == Done((), 3)
  {
    assert StartsNoCase("IF", "if");
    assert s == "IF" + " " + "NOT EXISTS";
    Word1Reads("if", "IF", " ", "NOT EXISTS");
  }

  lemma {:induction false} NotWordReads(s: seq<char>)
    requires s == "IF NOT EXISTS"
    ensures 3 <= |s| && Word1("not", s[3..]) == Done((), 4)
  {
    assert StartsNoCase("NOT", "not");
    assert s[3..] == "NOT" + " " + "EXISTS";
    Word1Reads("not", "NOT", " ", "EXISTS");
  }

  /** Nothing follows the last word, so `multispace1` after it fails. */
  lemma {:induction false} ExistsAtEnd(s: seq<char>)
    requires s == "IF NOT EXISTS"
    ensures 7 <= |s| && Word1("exists", s[3 + 4..]).Fail?
  {
    assert s[7..] == "EXISTS";
    assert "EXISTS"[6..] == [];
  }

  /** The phrase fails when its third word does not read. */
  lemma {:induction false} PhraseStopsAtThird(s: seq<char>, a: nat, b: nat)
    requires a + b <= |s| && Word1("if", s) == Done((), a) && Word1("not", s[a..]) == Done((), b)
    requires Word1("exists", s[a + b..]).Fail?
    ensures IfNotExistsPhrase(s).Fail?
  {
    DropDrop(s, a, b);
  }

  // ---------------------------------------------------------------------
  // parse_comment

  /** `delimited(tag("'"), take_until("'"), tag("'"))`: a quoted text without escapes. */
  function QuotedText(s: seq<char>): (r: ParseResult<seq<char>>)
    ensures Fits(r, s)
    ensures r.Done? <==> At(s, '\'') && '\'' in s[1..]
    ensures r.Done? ==> r.used == |r.value| + 2 && s[..r.used] == "'" + r.value + "'" && '\'' !in r.value
    ensures r.Done? ==> s[r.used - 1] == '\''
  {
    var (_, a) :- Char('\'', s);
    var (body, b) :- TakeUntil('\'', s[a..]);
    // `take_until` stopped at a quote, so the closing `tag` always matches it.
    Done(body, a + b + 1)
  }

  /** `delimited(whitespace0, tag_no_case("comment"), whitespace1)`. */
  function CommentHead(s: seq<char>): (r: ParseResult<()>)
    ensures Fits(r, s)
    ensures r.Done? ==> 8 <= r.used
  {
    var a := Whitespace0(s);
    var (_, b) :- TagNoCase("comment", s[a..]);
    var (_, c) :- Whitespace1(s[a + b..]);
    Done((), a + b + c)
  }

  /**
   * `parse_comment` (common.rs:1527-1538): `COMMENT`, whitespace, then a
   * single-quoted text without escapes. `decode` is `str::from_utf8` on the
   * quoted bytes; a text it refuses makes the parse fail.
   */
  function ParseComment(decode: seq<char> -> Option<string>, s: seq<char>): (r: ParseResult<string>)
    ensures Fits(r, s)
    ensures r.Done? ==> 10 <= r.used && s[r.used - 1] == '\''
  {
    var (_, a) :- CommentHead(s);
    var (body, b) :- QuotedText(s[a..]);
    match decode(body)
    case None => Fail
    case Some(text) => Done(text, a + b)
  }

  /** A quote-free text between quotes is read up to its closing quote. */
  lemma {:induction false} QuotedTextOf(body: seq<char>, rest: seq<char>)
    requires '\'' !in body
    ensures QuotedText("'" + body + "'" + rest) == Done(body, |body| + 2)
  {
    var s := "'" + body + "'" + rest;
    assert s[1..] == body + "'" + rest;
    TakeUntilOf('\'', body, rest);
    assert s[1 + |body|..] == "'" + rest;
  }

  /** `COMMENT` and one space. */
  lemma {:induction false} CommentHeadOf(q: seq<char>)
    requires |q| == 0 || !IsSpace(q[0])
    ensures CommentHead("COMMENT " + q) == Done((), 8)
  {
    var s := "COMMENT " + q;
    assert Whitespace0(s) == 0 && StartsNoCase(s, "comment");
    assert s[0..] == s;
    assert s[7..] == " " + q;
    Whitespace0Of(" ", q);
  }

  /** Reading a written comment: `COMMENT 'body'` gives the decoded body and stops after the quote. */
  lemma {:induction false} CommentReads(decode: seq<char> -> Option<string>, body: seq<char>, text: string, rest: seq<char>)
    requires '\'' !in body && decode(body) == Some(text)
    ensures ParseComment(decode, "COMMENT '" + body + "'" + rest) == Done(text, 10 + |body|)
  {
    var q := "'" + body + "'" + rest;
    assert "COMMENT '" + body + "'" + rest == "COMMENT " + q;
    CommentHeadOf(q);
    assert ("COMMENT " + q)[8..] == q;
    QuotedTextOf(body, rest);
  }

  /** A comment whose closing quote is missing does not parse. */
  lemma {:induction false} UnterminatedComment(decode: seq<char> -> Option<string>, body: seq<char>)
    requires '\'' !in body
    ensures ParseComment(decode, "COMMENT '" + body).Fail?
  {
    var q := "'" + body;
    assert "COMMENT '" + body == "COMMENT " + q;
    CommentHeadOf(q);
    assert ("COMMENT " + q)[8..] == q;
    assert q[1..] == body;
  }
}
