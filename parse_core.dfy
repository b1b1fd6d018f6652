/**
 * Parse results and the character-level primitives that the grammar of
 * nom-sql/src/common.rs is assembled from: nom's `tag`, `tag_no_case`,
 * `digit1`, `line_ending`, `opt`, `separated_list0`/`separated_list1`,
 * the crate's `whitespace0`/`whitespace1`, and `opt_delimited`.
 *
 * The input is a sequence of characters, each standing for one input byte.
 * A successful parse reports how many characters it consumed; the
 * remainder a nom parser returns is the suffix after them. "The remainder
 * is a suffix of the input" therefore becomes "a parser never consumes
 * more than its input" (predicate `Fits`), which every parser here states.
 */
module ParseCore {

  datatype Option<+T> = None | Some(value: T)

  /** `Done(v, n)`: value `v`, with the first `n` characters consumed. */
  datatype ParseResult<+T> = Fail | Done(value: T, used: nat) {
    predicate IsFailure() { Fail? }

    function PropagateFailure<U>(): ParseResult<U>
      requires Fail?
    {
      Fail
    }

    function Extract(): (T, nat)
      requires Done?
    {
      (value, used)
    }
  }

  /** The parse consumed no more than its input, so its remainder is a suffix of it. */
  predicate Fits<T>(r: ParseResult<T>, s: seq<char>) {
    r.Done? ==> r.used <= |s|
  }

  /** The parse succeeded and consumed the whole input. */
  predicate Complete<T>(r: ParseResult<T>, s: seq<char>) {
    r.Done? && r.used == |s|
  }

  /**
   * A parser supplied from outside the core (a dialect's lexical rule, the
   * expression grammar): any function from input to result that keeps to
   * the suffix contract.
   */
  type Parser<!T> = p: seq<char> -> ParseResult<T> | forall s :: Fits(p(s), s)
    witness (s: seq<char>) => Fail

  /** nom's `opt`: a failure becomes `None` with nothing consumed. */
  function Opt<T>(r: ParseResult<T>): (o: (Option<T>, nat))
    ensures r.Done? ==> o == (Some(r.value), r.used)
    ensures r.Fail? ==> o == (None, 0)
  {
    if r.Done? then (Some(r.value), r.used) else (None, 0)
  }

  // ---------------------------------------------------------------------
  // Keywords

  /** ASCII lower-casing, as nom's `tag_no_case` compares bytes. */
  function Lower(c: char): char {
    if 'A' <= c <= 'Z' then (c as int + 32) as char else c
  }

  /** `s` starts with `t`, ignoring ASCII case. */
  predicate StartsNoCase(s: seq<char>, t: seq<char>) {
    |t| <= |s| && forall i :: 0 <= i < |t| ==> Lower(s[i]) == Lower(t[i])
  }

  /** `s` starts with `t`, exactly. */
  predicate StartsWith(s: seq<char>, t: seq<char>) {
    |t| <= |s| && forall i :: 0 <= i < |t| ==> s[i] == t[i]
  }

  /** A keyword followed by anything still starts with that keyword. */
  lemma {:induction false} StartsNoCaseAppend(u: seq<char>, t: seq<char>, rest: seq<char>)
    requires StartsNoCase(u, t)
    ensures StartsNoCase(u + rest, t)
  {
    forall i | 0 <= i < |t| ensures Lower((u + rest)[i]) == Lower(t[i]) {
      assert (u + rest)[i] == u[i];
    }
  }

  /** An input that begins with `t` itself always starts with `t`, ignoring case. */
  lemma {:induction false} StartsNoCaseSelf(t: seq<char>, rest: seq<char>)
    ensures StartsNoCase(t + rest, t)
  {
    StartsNoCaseAppend(t, t, rest);
  }

  /** `tag_no_case(t)`. */
  function TagNoCase(t: string, s: seq<char>): (r: ParseResult<()>)
    ensures Fits(r, s)
    ensures r.Done? <==> StartsNoCase(s, t)
    ensures r.Done? ==> r.used == |t|
  {
    if StartsNoCase(s, t) then Done((), |t|) else Fail
  }

  /** `tag(t)`. */
  function Tag(t: string, s: seq<char>): (r: ParseResult<()>)
    ensures Fits(r, s)
    ensures r.Done? <==> StartsWith(s, t)
    ensures r.Done? ==> r.used == |t|
  {
    if StartsWith(s, t) then Done((), |t|) else Fail
  }

  /** The input begins with character `c`. */
  predicate At(s: seq<char>, c: char) { |s| > 0 && s[0] == c }

  /** `tag` of a single character. */
  function Char(c: char, s: seq<char>): (r: ParseResult<()>)
    ensures Fits(r, s)
    ensures r.Done? <==> At(s, c)
    ensures r.Done? ==> r.used == 1
  {
    if At(s, c) then Done((), 1) else Fail
  }

  // ---------------------------------------------------------------------
  // Digits and whitespace

  predicate IsDigit(c: char) { '0' <= c <= '9' }

  predicate IsAlpha(c: char) { 'a' <= c <= 'z' || 'A' <= c <= 'Z' }

  /** Length of the longest prefix of `s` made of `p`-characters. */
  function DigitLen(s: seq<char>): (n: nat)
    ensures n <= |s|
    ensures forall i :: 0 <= i < n ==> IsDigit(s[i])
    ensures n < |s| ==> !IsDigit(s[n])
  {
    if |s| > 0 && IsDigit(s[0]) then 1 + DigitLen(s[1..]) else 0
  }

  /** `digit1`: one or more ASCII digits, as the matched text. */
  function Digit1(s: seq<char>): (r: ParseResult<seq<char>>)
    ensures Fits(r, s)
    ensures r.Done? ==> 0 < r.used && r.value == s[..r.used]
    ensures r.Done? ==> forall i :: 0 <= i < |r.value| ==> IsDigit(r.value[i])
    ensures r.Done? <==> |s| > 0 && IsDigit(s[0])
  {
    var n := DigitLen(s);
    if n == 0 then Fail else Done(s[..n], n)
  }

  /** A run of digits followed by something else is read as exactly that run. */
  lemma {:induction false} DigitLenOf(d: seq<char>, rest: seq<char>)
    requires forall i :: 0 <= i < |d| ==> IsDigit(d[i])
    requires |rest| == 0 || !IsDigit(rest[0])
    ensures DigitLen(d + rest) == |d|
    decreases |d|
  {
    if |d| > 0 {
      assert (d + rest)[1..] == d[1..] + rest;
      DigitLenOf(d[1..], rest);
    }
  }

  /** `digit1` on a nonempty digit run followed by a non-digit. */
  lemma {:induction false} Digit1Of(d: seq<char>, rest: seq<char>)
    requires 0 < |d| && forall i :: 0 <= i < |d| ==> IsDigit(d[i])
    requires |rest| == 0 || !IsDigit(rest[0])
    ensures Digit1(d + rest) == Done(d, |d|)
  {
    DigitLenOf(d, rest);
    assert (d + rest)[..|d|] == d;
  }

  /** The whitespace characters of nom's `multispace`. */
  predicate IsSpace(c: char) { c == ' ' || c == '\t' || c == '\r' || c == '\n' }

  /** `whitespace0`: the number of leading whitespace characters, all skipped. */
  function Whitespace0(s: seq<char>): (n: nat)
    ensures n <= |s|
    ensures forall i :: 0 <= i < n ==> IsSpace(s[i])
    ensures n < |s| ==> !IsSpace(s[n])
  {
    if |s| > 0 && IsSpace(s[0]) then 1 + Whitespace0(s[1..]) else 0
  }

  /** `whitespace1`: like `whitespace0`, but at least one character is required. */
  function Whitespace1(s: seq<char>): (r: ParseResult<()>)
    ensures Fits(r, s)
    ensures r.Done? <==> |s| > 0 && IsSpace(s[0])
    ensures r.Done? ==> r.used == Whitespace0(s)
  {
    var n := Whitespace0(s);
    if n == 0 then Fail else Done((), n)
  }

  /** Whitespace followed by a non-space is skipped exactly. */
  lemma {:induction false} Whitespace0Of(w: seq<char>, rest: seq<char>)
    requires forall i :: 0 <= i < |w| ==> IsSpace(w[i])
    requires |rest| == 0 || !IsSpace(rest[0])
    ensures Whitespace0(w + rest) == |w|
    decreases |w|
  {
    if |w| > 0 {
      assert (w + rest)[1..] == w[1..] + rest;
      Whitespace0Of(w[1..], rest);
    }
  }

  /** `line_ending`: `\n` or `\r\n`. */
  function LineEnding(s: seq<char>): (r: ParseResult<()>)
    ensures Fits(r, s)
    ensures r.Done? <==> StartsWith(s, "\n") || StartsWith(s, "\r\n")
  {
    if StartsWith(s, "\n") then Done((), 1)
    else if StartsWith(s, "\r\n") then Done((), 2)
    else Fail
  }

  /** `eof` (common.rs:1238-1244): succeeds, consuming nothing, exactly at the end of input. */
  function Eof(s: seq<char>): (r: ParseResult<()>)
    ensures Fits(r, s)
    ensures r.Done? <==> |s| == 0
    ensures r.Done? ==> r.used == 0
  {
    if |s| == 0 then Done((), 0) else Fail
  }

  /** `take_until(c)`: the text before the first `c`; an error when there is none. */
  function TakeUntil(c: char, s: seq<char>): (r: ParseResult<seq<char>>)
    ensures Fits(r, s)
    ensures r.Done? <==> c in s
    ensures r.Done? ==> r.value == s[..r.used] && c !in r.value && r.used < |s| && s[r.used] == c
  {
    if |s| == 0 then Fail
    else if s[0] == c then Done([], 0)
    else
      var (v, n) :- TakeUntil(c, s[1..]);
      assert s[1..][..n] == s[1..n + 1];
      Done([s[0]] + v, n + 1)
  }

  /** `take_until(c)` stops at the first `c` after a text without one. */
  lemma {:induction false} TakeUntilOf(c: char, body: seq<char>, rest: seq<char>)
    requires c !in body
    ensures TakeUntil(c, body + [c] + rest) == Done(body, |body|)
    decreases |body|
  {
    if |body| > 0 {
      assert (body + [c] + rest)[1..] == body[1..] + [c] + rest;
      assert c !in body[1..] by {
        forall x | x in body[1..] ensures x in body { }
      }
      TakeUntilOf(c, body[1..], rest);
      assert body[0] != c by { assert body[0] in body; }
      assert [body[0]] + body[1..] == body;
    } else {
      assert body + [c] + rest == [c] + rest;
    }
  }

  // ---------------------------------------------------------------------
  // Lists

  /** `ws_sep_comma` (common.rs:1290-1292): a comma with optional whitespace around it. */
  function WsSepComma(s: seq<char>): (r: ParseResult<()>)
    ensures Fits(r, s)
    ensures r.Done? ==> 0 < r.used
    ensures r.Done? <==> At(s[Whitespace0(s)..], ',')
  {
    var a := Whitespace0(s);
    var (_, b) :- Char(',', s[a..]);
    var c := Whitespace0(s[a + b..]);
    Done((), a + b + c)
  }

  /** `ws_sep_equals` (common.rs:1294-1316): an equals sign with optional whitespace around it. */
  function WsSepEquals(s: seq<char>): (r: ParseResult<()>)
    ensures Fits(r, s)
    ensures r.Done? ==> 0 < r.used
    ensures r.Done? <==> At(s[Whitespace0(s)..], '=')
  {
    var a := Whitespace0(s);
    var (_, b) :- Char('=', s[a..]);
    var c := Whitespace0(s[a + b..]);
    Done((), a + b + c)
  }

  const CommaSeparator: Parser<()> := s => WsSepComma(s)

  /**
   * The loop of nom's `separated_list0`/`separated_list1` after the first
   * element: repeatedly a separator and an element. A separator that
   * consumes nothing is an error (nom's infinite-loop guard); a missing
   * separator or element ends the list before the separator.
   */
  function ListTail<T, U>(sep: Parser<U>, p: Parser<T>, s: seq<char>): (r: ParseResult<seq<T>>)
    ensures Fits(r, s)
    decreases |s|
  {
    match sep(s)
    case Fail => Done([], 0)
    case Done(_, a) =>
      if a == 0 then Fail
      else match p(s[a..])
        case Fail => Done([], 0)
        case Done(v, b) =>
          ListComposite(v, ListTail(sep, p, s[a + b..]), a + b)
  }

  /** One more element in front of a list parse. */
  function ListComposite<T>(v: T, r: ParseResult<seq<T>>, n: nat): ParseResult<seq<T>> {
    match r
    case Fail => Fail
    case Done(vs, c) => Done([v] + vs, n + c)
  }

  /** `separated_list0(sep, p)`: zero or more `p`s separated by `sep`. */
  function SeparatedList0<T, U>(sep: Parser<U>, p: Parser<T>, s: seq<char>): (r: ParseResult<seq<T>>)
    ensures Fits(r, s)
    ensures p(s).Fail? ==> r == Done([], 0)
  {
    match p(s)
    case Fail => Done([], 0)
    case Done(v, a) =>
      var (vs, b) :- ListTail(sep, p, s[a..]);
      Done([v] + vs, a + b)
  }

  /** `separated_list1(sep, p)`: one or more `p`s separated by `sep`. */
  function SeparatedList1<T, U>(sep: Parser<U>, p: Parser<T>, s: seq<char>): (r: ParseResult<seq<T>>)
    ensures Fits(r, s)
    ensures r.Done? ==> p(s).Done? && |r.value| > 0 && r.value[0] == p(s).value
    ensures p(s).Fail? ==> r.Fail?
  {
    match p(s)
    case Fail => Fail
    case Done(v, a) =>
      var (vs, b) :- ListTail(sep, p, s[a..]);
      Done([v] + vs, a + b)
  }

  /** One round of the loop: a separator that consumes, then an element. */
  lemma {:induction false} ListTailStep<T, U>(sep: Parser<U>, p: Parser<T>, s: seq<char>, a: nat, v: T, b: nat, vs: seq<T>, c: nat)
    requires sep(s).Done? && sep(s).used == a && 0 < a && a + b <= |s| && p(s[a..]) == Done(v, b)
    requires ListTail(sep, p, s[a + b..]) == Done(vs, c)
    ensures ListTail(sep, p, s) == Done([v] + vs, a + b + c)
  {
  }

  /** A first element, then the loop. */
  lemma {:induction false} SeparatedList0Step<T, U>(sep: Parser<U>, p: Parser<T>, s: seq<char>, v: T, a: nat, vs: seq<T>, b: nat)
    requires a <= |s| && p(s) == Done(v, a) && ListTail(sep, p, s[a..]) == Done(vs, b)
    ensures SeparatedList0(sep, p, s) == Done([v] + vs, a + b)
  {
  }

  /** A separator that consumes whenever it succeeds. */
  ghost predicate Consuming<U>(sep: Parser<U>) {
    forall s :: sep(s).Done? ==> 0 < sep(s).used
  }

  /** With a separator that always consumes, the loop never fails. */
  lemma {:induction false} ListTailNeverFails<T, U>(sep: Parser<U>, p: Parser<T>, s: seq<char>)
    requires Consuming(sep)
    ensures ListTail(sep, p, s).Done?
    decreases |s|
  {
    var c := sep(s);
    if c.Done? {
      var a := c.used;
      var e := p(s[a..]);
      if e.Done? {
        ListTailNeverFails(sep, p, s[a + e.used..]);
        ListTailGoesOn(sep, p, s, a, e.value, e.used);
      }
    }
  }

  lemma {:induction false} CommaConsuming()
    ensures Consuming(CommaSeparator)
  {
    forall s ensures CommaSeparator(s).Done? ==> 0 < CommaSeparator(s).used {
      assert CommaSeparator(s) == WsSepComma(s);
    }
  }

  /** A consuming separator and an element, then a list that does not fail. */
  lemma {:induction false} ListTailGoesOn<T, U>(sep: Parser<U>, p: Parser<T>, s: seq<char>, a: nat, v: T, b: nat)
    requires sep(s).Done? && sep(s).used == a && 0 < a && a + b <= |s| && p(s[a..]) == Done(v, b)
    requires ListTail(sep, p, s[a + b..]).Done?
    ensures ListTail(sep, p, s).Done?
  {
  }

  /**
   * Comma-separated lists: `separated_list1` succeeds exactly when its first
   * element does, and `separated_list0` always succeeds.
   */
  lemma {:induction false} CommaListsSucceed<T>(p: Parser<T>, s: seq<char>)
    ensures SeparatedList1(CommaSeparator, p, s).Done? <==> p(s).Done?
    ensures SeparatedList0(CommaSeparator, p, s).Done?
  {
    if p(s).Done? {
      CommaConsuming();
      ListTailNeverFails(CommaSeparator, p, s[p(s).used..]);
    }
  }

  // ---------------------------------------------------------------------
  // Reading comma lists back

  /** Item texts, each preceded by `, `, the separator written between list items. */
  function CommaSpacePrefixed(xs: seq<seq<char>>): (t: seq<char>)
    ensures |t| >= 2 * |xs|
  {
    if |xs| == 0 then [] else ", " + (xs[0] + CommaSpacePrefixed(xs[1..]))
  }

  /** Item texts joined by `, `. */
  function CommaJoined(xs: seq<seq<char>>): seq<char> {
    if |xs| == 0 then [] else xs[0] + CommaSpacePrefixed(xs[1..])
  }

  /**
   * `p` reads each item text as the value at the same position, stopping
   * at the comma after it or at `tail`; no item text starts with
   * whitespace.
   */
  ghost predicate ReadsItems<T>(p: Parser<T>, xs: seq<seq<char>>, vs: seq<T>, tail: seq<char>)
    decreases |xs|
  {
    |xs| == |vs| &&
    (0 < |xs| ==>
      0 < |xs[0]| && !IsSpace(xs[0][0]) &&
      p(xs[0] + (CommaSpacePrefixed(xs[1..]) + tail)) == Done(vs[0], |xs[0]|) &&
      ReadsItems(p, xs[1..], vs[1..], tail))
  }

  /** `ws_sep_comma` reads `, ` before an item that does not start with whitespace. */
  lemma {:induction false} CommaSpaceBefore(x: seq<char>, more: seq<char>)
    requires 0 < |x| && !IsSpace(x[0])
    ensures WsSepComma(", " + (x + more)) == Done((), 2)
  {
    var s := ", " + (x + more);
    assert s[1..] == " " + (x + more);
    Whitespace0Of(" ", x + more);
    assert s[2..] == x + more;
  }

  /** One round of the loop: `, `, then an item. */
  lemma {:induction false} ItemStep<T>(p: Parser<T>, s: seq<char>, x: seq<char>, more: seq<char>, v: T, vs: seq<T>, m: nat)
    requires s == ", " + (x + more) && 0 < |x| && !IsSpace(x[0])
    requires p(x + more) == Done(v, |x|)
    requires ListTail(CommaSeparator, p, more) == Done(vs, m)
    ensures ListTail(CommaSeparator, p, s) == Done([v] + vs, 2 + |x| + m)
  {
    CommaSpaceBefore(x, more);
    assert CommaSeparator(s) == Done((), 2);
    assert s[2..] == x + more;
    assert s[2 + |x|..] == more;
    ListTailStep(CommaSeparator, p, s, 2, v, |x|, vs, m);
  }

  /** The loop after the first item reads every further item and stops before `tail`. */
  lemma {:induction false} ItemsTailOf<T>(p: Parser<T>, xs: seq<seq<char>>, vs: seq<T>, tail: seq<char>, s: seq<char>)
    requires ReadsItems(p, xs, vs, tail) && WsSepComma(tail).Fail?
    requires s == CommaSpacePrefixed(xs) + tail
    ensures ListTail(CommaSeparator, p, s) == Done(vs, |CommaSpacePrefixed(xs)|)
    decreases |xs|
  {
    if |xs| == 0 {
      assert s == tail;
      NoCommaEnds(p, tail);
    } else {
      var more := CommaSpacePrefixed(xs[1..]) + tail;
      ItemsTailOf(p, xs[1..], vs[1..], tail, more);
      PrefixedText(xs, tail);
      ItemStep(p, s, xs[0], more, vs[0], vs[1..], |CommaSpacePrefixed(xs[1..])|);
      assert [vs[0]] + vs[1..] == vs;
    }
  }

  lemma {:induction false} PrefixedText(xs: seq<seq<char>>, tail: seq<char>)
    requires 0 < |xs|
    ensures CommaSpacePrefixed(xs) + tail == ", " + (xs[0] + (CommaSpacePrefixed(xs[1..]) + tail))
    ensures |CommaSpacePrefixed(xs)| == 2 + |xs[0]| + |CommaSpacePrefixed(xs[1..])|
  {
  }

  /** Without a comma the loop is over. */
  lemma {:induction false} NoCommaEnds<T>(p: Parser<T>, tail: seq<char>)
    requires WsSepComma(tail).Fail?
    ensures ListTail(CommaSeparator, p, tail) == Done([], 0)
  {
    assert CommaSeparator(tail).Fail?;
  }

  /**
   * Item texts joined by `, ` are read back as the list of their values,
   * by both `separated_list0` and `separated_list1` with `ws_sep_comma`,
   * when no further comma follows.
   */
  lemma {:induction false} CommaListReads<T>(p: Parser<T>, xs: seq<seq<char>>, vs: seq<T>, tail: seq<char>)
    requires 0 < |xs| && ReadsItems(p, xs, vs, tail) && WsSepComma(tail).Fail?
    ensures SeparatedList0(CommaSeparator, p, CommaJoined(xs) + tail) == Done(vs, |CommaJoined(xs)|)
    ensures SeparatedList1(CommaSeparator, p, CommaJoined(xs) + tail) == Done(vs, |CommaJoined(xs)|)
  {
    var more := CommaSpacePrefixed(xs[1..]) + tail;
    var s := CommaJoined(xs) + tail;
    assert s == xs[0] + more;
    assert s[|xs[0]|..] == more;
    ItemsTailOf(p, xs[1..], vs[1..], tail, more);
    SeparatedList0Step(CommaSeparator, p, s, vs[0], |xs[0]|, vs[1..], |CommaSpacePrefixed(xs[1..])|);
    assert [vs[0]] + vs[1..] == vs;
  }

  /**
   * `opt_delimited(first, second, third)` (common.rs:799-821): `second`
   * alone, or else `second` between `first` and `third`.
   */
  function OptDelimited<A, B, C>(first: Parser<A>, second: Parser<B>, third: Parser<C>, s: seq<char>)
    : (r: ParseResult<B>)
    ensures Fits(r, s)
    ensures second(s).Done? ==> r == second(s)
    ensures second(s).Fail? ==>
      (r.Done? <==>
        first(s).Done? && second(s[first(s).used..]).Done? &&
        third(s[first(s).used + second(s[first(s).used..]).used..]).Done?)
    ensures second(s).Fail? && r.Done? ==>
      r.value == second(s[first(s).used..]).value &&
      r.used == first(s).used + second(s[first(s).used..]).used +
        third(s[first(s).used + second(s[first(s).used..]).used..]).used
  {
    match second(s)
    case Done(v, n) => Done(v, n)
    case Fail =>
      var (_, a) :- first(s);
      var (v, b) :- second(s[a..]);
      var (_, c) :- third(s[a + b..]);
      Done(v, a + b + c)
  }

  // ---------------------------------------------------------------------
  // Ordered choice

  /**
   * nom's `alt` over a list of parsers, trying them from index `j` on: the
   * first that succeeds. The alternatives are plain functions here, so that
   * Fits is stated once for a whole list (`AltFits`).
   */
  function AltFrom<T>(ps: seq<seq<char> -> ParseResult<T>>, j: nat, s: seq<char>): ParseResult<T>
    decreases |ps| - j
  {
    if j >= |ps| then Fail
    else
      var r := ps[j](s);
      if r.Done? then r else AltFrom(ps, j + 1, s)
  }

  /** nom's `alt`. */
  function Alt<T>(ps: seq<seq<char> -> ParseResult<T>>, s: seq<char>): ParseResult<T> {
    AltFrom(ps, 0, s)
  }

  /** Alternatives that fail are passed over. */
  lemma {:induction false} AltFromSkips<T>(ps: seq<seq<char> -> ParseResult<T>>, j: nat, k: nat, s: seq<char>)
    requires j <= k <= |ps|
    requires forall i :: j <= i < k ==> ps[i](s).Fail?
    ensures AltFrom(ps, j, s) == AltFrom(ps, k, s)
    decreases k - j
  {
    if j < k {
      AltFromSkips(ps, j + 1, k, s);
    }
  }

  /** The first alternative that succeeds decides the result; later ones are never consulted. */
  lemma {:induction false} AltPicks<T>(ps: seq<seq<char> -> ParseResult<T>>, j: nat, s: seq<char>)
    requires j < |ps|
    requires forall i :: 0 <= i < j ==> ps[i](s).Fail?
    requires ps[j](s).Done?
    ensures Alt(ps, s) == ps[j](s)
  {
    AltFromSkips(ps, 0, j, s);
  }

  /** `alt` fails exactly when every alternative fails. */
  lemma {:induction false} AltFromFails<T>(ps: seq<seq<char> -> ParseResult<T>>, j: nat, s: seq<char>)
    ensures AltFrom(ps, j, s).Fail? <==> forall i :: j <= i < |ps| ==> ps[i](s).Fail?
    decreases |ps| - j
  {
    if j < |ps| {
      AltFromFails(ps, j + 1, s);
    }
  }

  /** A successful `alt` is the result of some alternative, all earlier ones having failed. */
  lemma {:induction false} AltFromChooses<T>(ps: seq<seq<char> -> ParseResult<T>>, j: nat, s: seq<char>)
    requires AltFrom(ps, j, s).Done?
    ensures exists k :: j <= k < |ps| && AltFrom(ps, j, s) == ps[k](s) && forall i :: j <= i < k ==> ps[i](s).Fail?
    decreases |ps| - j
  {
    if ps[j](s).Fail? {
      AltFromChooses(ps, j + 1, s);
      var k :| j + 1 <= k < |ps| && AltFrom(ps, j + 1, s) == ps[k](s) && forall i :: j + 1 <= i < k ==> ps[i](s).Fail?;
      assert j <= k < |ps| && AltFrom(ps, j, s) == ps[k](s) && forall i :: j <= i < k ==> ps[i](s).Fail?;
    } else {
      assert j <= j < |ps| && AltFrom(ps, j, s) == ps[j](s);
    }
  }

  /** `alt` keeps to the suffix contract when each of its alternatives does on this input. */
  lemma {:induction false} AltFits<T>(ps: seq<seq<char> -> ParseResult<T>>, s: seq<char>)
    requires forall i :: 0 <= i < |ps| ==> Fits(ps[i](s), s)
    ensures Fits(Alt(ps, s), s)
  {
    if Alt(ps, s).Done? {
      AltFromChooses(ps, 0, s);
    }
  }

  /** Dropping a prefix and then `k` more characters. */
  lemma {:induction false} SliceShift<T>(x: seq<T>, y: seq<T>, k: nat)
    requires k <= |y|
    ensures (x + y)[|x| + k..] == y[k..]
  {
  }

  /** Two drops are one drop. */
  lemma {:induction false} DropDrop<T>(s: seq<T>, a: nat, b: nat)
    requires a + b <= |s|
    ensures s[a..][b..] == s[a + b..]
  {
  }

  /** Concatenation regroups. */
  lemma {:induction false} Assoc3<T>(a: seq<T>, b: seq<T>, c: seq<T>)
    ensures a + b + c == a + (b + c)
  {
  }
}
