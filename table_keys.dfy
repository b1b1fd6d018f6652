/**
 * The table-constraint model of nom-sql/src/common.rs and its canonical
 * text: `IndexType` (lines 478-491), `ReferentialAction` (lines 493-516)
 * and `TableKey` (lines 518-682).
 *
 * `Display for Table` and `Display for Expression` are defined in table.rs
 * and expression.rs, which are not part of this model; the renderer takes
 * them as parameters. Beside the renderer stand readers that recover what
 * the text keeps, so that each lemma says what rendering preserves.
 */
module TableKeys {
  import opened ParseCore
  import opened Ast

  /** `IndexType` (common.rs:478-482). */
  datatype IndexType = BTree | Hash

  /** `ReferentialAction` (common.rs:493-500). */
  datatype ReferentialAction = Cascade | SetNull | Restrict | NoAction | SetDefault

  /** `TableKey` (common.rs:518-552). */
  datatype TableKey =
    | PrimaryKey(name: Option<string>, columns: seq<Column>)
    | UniqueKey(name: Option<string>, columns: seq<Column>, indexType: Option<IndexType>)
    | FulltextKey(name: Option<string>, columns: seq<Column>)
    | Key(keyName: string, columns: seq<Column>, indexType: Option<IndexType>)
    | ForeignKey(name: Option<string>, indexName: Option<string>, columns: seq<Column>,
                 targetTable: Table, targetColumns: seq<Column>,
                 onDelete: Option<ReferentialAction>, onUpdate: Option<ReferentialAction>)
    | CheckConstraint(name: Option<string>, expr: Expression, enforced: Option<bool>)

  /** `Display for IndexType` (common.rs:484-491). */
  function IndexTypeText(t: IndexType): string {
    match t
    case BTree => "BTREE"
    case Hash => "HASH"
  }

  /** `Display for ReferentialAction` (common.rs:502-516). */
  function ReferentialActionText(a: ReferentialAction): string {
    match a
    case Cascade => "CASCADE"
    case SetNull => "SET NULL"
    case Restrict => "RESTRICT"
    case NoAction => "NO ACTION"
    case SetDefault => "SET DEFAULT"
  }

  // ---------------------------------------------------------------------
  // Display for TableKey (common.rs:554-682)

  /** The names of a column list; the table a column is qualified with is not rendered. */
  function Names(cols: seq<Column>): (ns: seq<string>)
    ensures |ns| == |cols| && forall i :: 0 <= i < |cols| ==> ns[i] == cols[i].name
  {
    if |cols| == 0 then [] else [cols[0].name] + Names(cols[1..])
  }

  /** Names in backticks, joined by `", "`. */
  function QuotedList(ns: seq<string>): string {
    if |ns| == 0 then ""
    else if |ns| == 1 then Quoted(ns[0])
    else Quoted(ns[0]) + ", " + QuotedList(ns[1..])
  }

  /** `` `name` `` and a space, when there is a name. */
  function NamePart(name: Option<string>): string {
    match name
    case None => ""
    case Some(n) => Quoted(n) + " "
  }

  /** ` USING <index type>`, when there is one. */
  function UsingPart(t: Option<IndexType>): string {
    match t
    case None => ""
    case Some(it) => " USING " + IndexTypeText(it)
  }

  /** What primary, unique, fulltext and plain keys write after their keywords. */
  function KeyBodyText(name: Option<string>, ns: seq<string>, t: Option<IndexType>): string {
    NamePart(name) + ("(" + (QuotedList(ns) + (")" + UsingPart(t))))
  }

  /** The `ON DELETE` / `ON UPDATE` clauses of a foreign key, in that order. */
  function ActionsText(onDelete: Option<ReferentialAction>, onUpdate: Option<ReferentialAction>): string {
    (match onDelete case None => "" case Some(a) => " ON DELETE " + ReferentialActionText(a)) +
    (match onUpdate case None => "" case Some(a) => " ON UPDATE " + ReferentialActionText(a))
  }

  /** `CONSTRAINT`, the name when there is one, and `CHECK`. */
  function CheckHead(name: Option<string>): (h: string)
    ensures |h| > 0 && h[|h| - 1] == ' '
  {
    "CONSTRAINT" + (match name case None => "" case Some(n) => " " + Quoted(n)) + " CHECK "
  }

  /** ` ENFORCED` or ` NOT ENFORCED`, when the constraint states either. */
  function EnforcedText(enforced: Option<bool>): string {
    match enforced
    case None => ""
    case Some(true) => " ENFORCED"
    case Some(false) => " NOT ENFORCED"
  }

  function Unwrap(o: Option<string>): string {
    match o
    case None => ""
    case Some(v) => v
  }

  /** `Display for TableKey` (common.rs:554-682). */
  function TableKeyText(k: TableKey, tableText: Table -> string, exprText: Expression -> string): string {
    match k
    case PrimaryKey(name, cols) => "PRIMARY KEY " + KeyBodyText(name, Names(cols), None)
    case UniqueKey(name, cols, t) => "UNIQUE KEY " + KeyBodyText(name, Names(cols), t)
    case FulltextKey(name, cols) => "FULLTEXT KEY " + KeyBodyText(name, Names(cols), None)
    case Key(name, cols, t) => "KEY " + KeyBodyText(Some(name), Names(cols), t)
    case ForeignKey(name, index, cols, target, targetCols, onDelete, onUpdate) =>
      "CONSTRAINT " + Quoted(Unwrap(name)) + " FOREIGN KEY " + Unwrap(index)
      + "(" + QuotedList(Names(cols)) + ") REFERENCES " + tableText(target)
      + " (" + QuotedList(Names(targetCols)) + ")" + ActionsText(onDelete, onUpdate)
    case CheckConstraint(name, e, enforced) =>
      CheckHead(name) + exprText(e) + EnforcedText(enforced)
  }

  // ---------------------------------------------------------------------
  // Reading the text back

  predicate NoBacktick(n: string) { '`' !in n }

  predicate AllNoBacktick(ns: seq<string>) {
    forall i :: 0 <= i < |ns| ==> NoBacktick(ns[i])
  }

  /** A backtick-quoted name. */
  function ReadQuoted(s: seq<char>): (r: ParseResult<string>)
    ensures Fits(r, s)
    ensures r.Done? ==> r.used == |r.value| + 2
  {
    var (_, a) :- Char('`', s);
    var (n, b) :- TakeUntil('`', s[a..]);
    Done(n, a + b + 1)
  }

  /** One or more quoted names separated by `", "`. */
  function ReadNames(s: seq<char>): (r: ParseResult<seq<string>>)
    ensures Fits(r, s)
    decreases |s|
  {
    var (n, a) :- ReadQuoted(s);
    if StartsWith(s[a..], ", ") then
      var (ns, b) :- ReadNames(s[a + 2..]);
      Done([n] + ns, a + 2 + b)
    else Done([n], a)
  }

  /** A parenthesised, possibly empty, list of quoted names. */
  function ReadColumnList(s: seq<char>): (r: ParseResult<seq<string>>)
    ensures Fits(r, s)
  {
    if !At(s, '(') then Fail
    else
      var t := s[1..];
      if At(t, ')') then Done([], 2)
      else
        var (ns, b) :- ReadNames(t);
        var (_, c) :- Char(')', t[b..]);
        Done(ns, 1 + b + c)
  }

  /** The index type named at the start of the text. */
  function ReadIndexType(s: seq<char>): (r: ParseResult<IndexType>)
    ensures Fits(r, s)
  {
    if StartsWith(s, "BTREE") then Done(BTree, 5)
    else if StartsWith(s, "HASH") then Done(Hash, 4)
    else Fail
  }

  /** The referential action named at the start of the text. */
  function ReadAction(s: seq<char>): (r: ParseResult<ReferentialAction>)
    ensures Fits(r, s)
  {
    if StartsWith(s, "CASCADE") then Done(Cascade, 7)
    else if StartsWith(s, "SET NULL") then Done(SetNull, 8)
    else if StartsWith(s, "RESTRICT") then Done(Restrict, 8)
    else if StartsWith(s, "NO ACTION") then Done(NoAction, 9)
    else if StartsWith(s, "SET DEFAULT") then Done(SetDefault, 11)
    else Fail
  }

  /** `kw` followed by what `p` reads, or nothing at all when the text does not start with `kw`. */
  function OptClause<T>(kw: string, p: Parser<T>, s: seq<char>): (r: ParseResult<Option<T>>)
    ensures Fits(r, s)
  {
    if StartsWith(s, kw) then
      var (v, a) :- p(s[|kw|..]);
      assert Fits(p(s[|kw|..]), s[|kw|..]);
      Done(Some(v), |kw| + a)
    else Done(None, 0)
  }

  /** The optional name of a key: a quoted name and one space. */
  function ReadKeyName(s: seq<char>): (r: ParseResult<Option<string>>)
    ensures Fits(r, s)
  {
    if At(s, '`') then
      var (n, a) :- ReadQuoted(s);
      var (_, b) :- Char(' ', s[a..]);
      Done(Some(n), a + b)
    else Done(None, 0)
  }

  /** A column list and an optional index type, read to the end of the text. */
  function ReadIndexedColumns(s: seq<char>): (r: Option<(seq<string>, Option<IndexType>)>) {
    match ReadColumnList(s)
    case Fail => None
    case Done(ns, a) =>
      match OptClause(" USING ", ReadIndexType, s[a..])
      case Fail => None
      case Done(t, b) => if a + b == |s| then Some((ns, t)) else None
  }

  /** The body of a primary, unique, fulltext or plain key, read to the end of the text. */
  function ReadKeyBody(s: seq<char>): (r: Option<(Option<string>, seq<string>, Option<IndexType>)>) {
    match ReadKeyName(s)
    case Fail => None
    case Done(name, a) =>
      match ReadIndexedColumns(s[a..])
      case None => None
      case Some((ns, t)) => Some((name, ns, t))
  }

  /** The referential actions of a foreign key, read to the end of the text. */
  function ReadActions(s: seq<char>): (r: Option<(Option<ReferentialAction>, Option<ReferentialAction>)>) {
    match OptClause(" ON DELETE ", ReadAction, s)
    case Fail => None
    case Done(d, a) =>
      match OptClause(" ON UPDATE ", ReadAction, s[a..])
      case Fail => None
      case Done(u, b) => if a + b == |s| then Some((d, u)) else None
  }

  // ---------------------------------------------------------------------
  // What the text keeps

  lemma {:induction false} StartsWithAppend(u: seq<char>, t: seq<char>, rest: seq<char>)
    requires StartsWith(u, t)
    ensures StartsWith(u + rest, t)
  {
    assert forall i :: 0 <= i < |t| ==> (u + rest)[i] == u[i];
  }

  /** A quoted name without backticks is read back, whatever follows it. */
  lemma {:induction false} ReadQuotedOf(n: string, rest: seq<char>)
    requires NoBacktick(n)
    ensures ReadQuoted(Quoted(n) + rest) == Done(n, |n| + 2)
  {
    var s := Quoted(n) + rest;
    assert s[1..] == n + "`" + rest;
    TakeUntilOf('`', n, rest);
  }

  /** A nonempty list of quoted names is read back, up to the closing parenthesis. */
  lemma {:induction false} ReadNamesOf(ns: seq<string>, rest: seq<char>)
    requires 0 < |ns| && AllNoBacktick(ns) && At(rest, ')')
    ensures ReadNames(QuotedList(ns) + rest) == Done(ns, |QuotedList(ns)|)
    decreases |ns|
  {
    if |ns| == 1 {
      ReadOneName(ns, rest);
    } else {
      ReadNamesOf(ns[1..], rest);
      assert NoBacktick(ns[0]);
      ReadNamesStep(ns, rest, QuotedList(ns[1..]) + rest, QuotedList(ns) + rest);
    }
  }

  lemma {:induction false} ReadOneName(ns: seq<string>, rest: seq<char>)
    requires |ns| == 1 && AllNoBacktick(ns) && At(rest, ')')
    ensures ReadNames(QuotedList(ns) + rest) == Done(ns, |QuotedList(ns)|)
  {
    var q := Quoted(ns[0]);
    assert QuotedList(ns) == q && [ns[0]] == ns;
    ReadQuotedOf(ns[0], rest);
    assert (q + rest)[|ns[0]| + 2..] == rest;
    assert !StartsWith(rest, ", ");
  }

  lemma {:induction false} ReadNamesStep(ns: seq<string>, rest: seq<char>, tail: seq<char>, s: seq<char>)
    requires 1 < |ns| && NoBacktick(ns[0])
    requires tail == QuotedList(ns[1..]) + rest && s == QuotedList(ns) + rest
    requires ReadNames(tail) == Done(ns[1..], |QuotedList(ns[1..])|)
    ensures ReadNames(s) == Done(ns, |QuotedList(ns)|)
  {
    ReadNamesText(ns, rest, tail, s);
    ReadNamesAfter(ns[0], ns[1..], tail, s, |QuotedList(ns[1..])|);
    HeadTail(ns);
  }

  lemma {:induction false} ReadNamesText(ns: seq<string>, rest: seq<char>, tail: seq<char>, s: seq<char>)
    requires 1 < |ns| && tail == QuotedList(ns[1..]) + rest && s == QuotedList(ns) + rest
    ensures s == Quoted(ns[0]) + (", " + tail) && |QuotedList(ns)| == |Quoted(ns[0])| + 2 + |QuotedList(ns[1..])|
  {
    QuotedListCons(ns);
    ConsText(Quoted(ns[0]), QuotedList(ns[1..]), QuotedList(ns), rest, tail, s);
  }

  lemma {:induction false} HeadTail<T>(xs: seq<T>)
    requires 0 < |xs|
    ensures [xs[0]] + xs[1..] == xs
  {
  }

  lemma {:induction false} QuotedListCons(ns: seq<string>)
    requires 1 < |ns|
    ensures QuotedList(ns) == Quoted(ns[0]) + ", " + QuotedList(ns[1..])
  {
  }

  /** `q + rest`, with `q` a name, `", "` and `ql`, is that name, `", "` and `ql + rest`. */
  lemma {:induction false} ConsText(q0: string, ql: string, q: string, rest: seq<char>, tail: seq<char>, s: seq<char>)
    requires tail == ql + rest && s == q + rest && q == q0 + ", " + ql
    ensures s == q0 + (", " + tail) && |q| == |q0| + 2 + |ql|
  {
  }

  lemma {:induction false} ReadNamesAfter(n: string, ns: seq<string>, tail: seq<char>, s: seq<char>, b: nat)
    requires NoBacktick(n) && s == Quoted(n) + (", " + tail)
    requires ReadNames(tail) == Done(ns, b)
    ensures ReadNames(s) == Done([n] + ns, |Quoted(n)| + 2 + b)
  {
    ReadQuotedOf(n, ", " + tail);
    assert s[|Quoted(n)|..] == ", " + tail;
    ReadNamesCons(s, n, |Quoted(n)|, tail, ns, b);
  }

  /** A name, `", "` and more names. */
  lemma {:induction false} ReadNamesCons(s: seq<char>, n: string, a: nat, tail: seq<char>, ns: seq<string>, b: nat)
    requires ReadQuoted(s) == Done(n, a) && a <= |s| && s[a..] == ", " + tail
    requires ReadNames(tail) == Done(ns, b)
    ensures ReadNames(s) == Done([n] + ns, a + 2 + b)
  {
    assert StartsWith(s[a..], ", ");
    assert s[a + 2..] == tail;
  }

  /** A rendered column list is read back as the names of its columns. */
  lemma {:induction false} ReadColumnListOf(ns: seq<string>, rest: seq<char>)
    requires AllNoBacktick(ns)
    ensures ReadColumnList("(" + (QuotedList(ns) + (")" + rest))) == Done(ns, |QuotedList(ns)| + 2)
  {
    var q := QuotedList(ns);
    var s := "(" + (q + (")" + rest));
    var t := q + (")" + rest);
    assert s[1..] == t;
    if |ns| != 0 {
      assert q[0] == '`';
      ReadNamesOf(ns, ")" + rest);
      assert t[|q|..] == ")" + rest;
    }
  }

  lemma {:induction false} ReadIndexTypeOf(t: IndexType, rest: seq<char>)
    ensures ReadIndexType(IndexTypeText(t) + rest) == Done(t, |IndexTypeText(t)|)
  {
    var s := IndexTypeText(t) + rest;
    StartsWithAppend(IndexTypeText(t), IndexTypeText(t), rest);
    if t == Hash {
      assert s[0] == 'H';
    }
  }

  lemma {:induction false} ReadUsingOf(t: Option<IndexType>)
    ensures OptClause(" USING ", ReadIndexType, UsingPart(t)) == Done(t, |UsingPart(t)|)
  {
    match t
    case None =>
    case Some(it) =>
      var s := UsingPart(t);
      StartsWithAppend(" USING ", " USING ", IndexTypeText(it));
      assert s[7..] == IndexTypeText(it) + [];
      ReadIndexTypeOf(it, []);
  }

  lemma {:induction false} ReadKeyNameOf(name: Option<string>, ns: seq<string>, rest: seq<char>)
    requires name.Some? ==> NoBacktick(name.value)
    ensures ReadKeyName(NamePart(name) + ("(" + rest)) == Done(name, |NamePart(name)|)
  {
    match name
    case None =>
      assert !At(NamePart(name) + ("(" + rest), '`');
    case Some(n) =>
      var s := NamePart(name) + ("(" + rest);
      assert s == Quoted(n) + (" (" + rest);
      ReadQuotedOf(n, " (" + rest);
      assert s[|n| + 2..] == " (" + rest;
  }

  lemma {:induction false} ReadIndexedColumnsOf(ns: seq<string>, t: Option<IndexType>)
    requires AllNoBacktick(ns)
    ensures ReadIndexedColumns("(" + (QuotedList(ns) + (")" + UsingPart(t)))) == Some((ns, t))
  {
    var s := "(" + (QuotedList(ns) + (")" + UsingPart(t)));
    ReadColumnListOf(ns, UsingPart(t));
    assert s[|QuotedList(ns)| + 2..] == UsingPart(t);
    ReadUsingOf(t);
  }

  /**
   * The body of a primary, unique, fulltext or plain key reads back to its
   * name, the names of its columns and its index type, as long as no name
   * holds a backtick.
   */
  lemma {:induction false} KeyBodyRoundTrip(name: Option<string>, ns: seq<string>, t: Option<IndexType>)
    requires name.Some? ==> NoBacktick(name.value)
    requires AllNoBacktick(ns)
    ensures ReadKeyBody(KeyBodyText(name, ns, t)) == Some((name, ns, t))
  {
    var body := "(" + (QuotedList(ns) + (")" + UsingPart(t)));
    var s := KeyBodyText(name, ns, t);
    ReadKeyNameOf(name, ns, QuotedList(ns) + (")" + UsingPart(t)));
    assert s[|NamePart(name)|..] == body;
    ReadIndexedColumnsOf(ns, t);
  }

  /**
   * Unique and plain keys keep their name, their column names and their
   * index type in the text (common.rs:572-629); only the tables the columns
   * are qualified with are lost.
   */
  lemma {:induction false} UniqueKeyRoundTrip(k: TableKey, tableText: Table -> string, exprText: Expression -> string)
    requires k.UniqueKey? || k.Key?
    requires k.UniqueKey? && k.name.Some? ==> NoBacktick(k.name.value)
    requires k.Key? ==> NoBacktick(k.keyName)
    requires AllNoBacktick(Names(k.columns))
    ensures var text := TableKeyText(k, tableText, exprText);
      var head := if k.UniqueKey? then "UNIQUE KEY " else "KEY ";
      var name := if k.UniqueKey? then k.name else Some(k.keyName);
      StartsWith(text, head) && ReadKeyBody(text[|head|..]) == Some((name, Names(k.columns), k.indexType))
  {
    var name := if k.UniqueKey? then k.name else Some(k.keyName);
    var head := if k.UniqueKey? then "UNIQUE KEY " else "KEY ";
    var body := KeyBodyText(name, Names(k.columns), k.indexType);
    assert TableKeyText(k, tableText, exprText) == head + body;
    StartsWithAppend(head, head, body);
    assert (head + body)[|head|..] == body;
    KeyBodyRoundTrip(name, Names(k.columns), k.indexType);
  }

  /** Primary and fulltext keys keep their name and their column names (common.rs:557-571, 595-609). */
  lemma {:induction false} PrimaryKeyRoundTrip(k: TableKey, tableText: Table -> string, exprText: Expression -> string)
    requires k.PrimaryKey? || k.FulltextKey?
    requires k.name.Some? ==> NoBacktick(k.name.value)
    requires AllNoBacktick(Names(k.columns))
    ensures var text := TableKeyText(k, tableText, exprText);
      var head := if k.PrimaryKey? then "PRIMARY KEY " else "FULLTEXT KEY ";
      StartsWith(text, head) && ReadKeyBody(text[|head|..]) == Some((k.name, Names(k.columns), None))
  {
    var head := if k.PrimaryKey? then "PRIMARY KEY " else "FULLTEXT KEY ";
    var body := KeyBodyText(k.name, Names(k.columns), None);
    assert TableKeyText(k, tableText, exprText) == head + body;
    StartsWithAppend(head, head, body);
    assert (head + body)[|head|..] == body;
    KeyBodyRoundTrip(k.name, Names(k.columns), None);
  }

  /**
   * Nothing is escaped inside backticks, so a name holding one makes the
   * column list ambiguous: one column named ``a`, `b`` renders like the two
   * columns `a` and `b`.
   */
  lemma {:induction false} QuotedListAmbiguous()
    ensures QuotedList(["a`, `b"]) == QuotedList(["a", "b"]) == "`a`, `b`"
  {
    assert ["a", "b"][1..] == ["b"];
  }

  lemma {:induction false} ReadActionOf(a: ReferentialAction, rest: seq<char>)
    ensures ReadAction(ReferentialActionText(a) + rest) == Done(a, |ReferentialActionText(a)|)
  {
    var t := ReferentialActionText(a);
    StartsWithAppend(t, t, rest);
    var s := t + rest;
    assert s[0] == t[0] && s[4] == t[4];
    match a
    case Cascade =>
    case SetNull =>
    case Restrict =>
    case NoAction =>
    case SetDefault =>
  }

  /** One optional `kw action` clause. */
  lemma {:induction false} ReadActionClauseOf(kw: string, a: Option<ReferentialAction>, rest: seq<char>)
    requires kw == " ON DELETE " || kw == " ON UPDATE "
    requires !StartsWith(rest, kw)
    ensures var text := match a case None => "" case Some(x) => kw + ReferentialActionText(x);
      OptClause(kw, ReadAction, text + rest) == Done(a, |text|)
  {
    match a
    case None => assert [] + rest == rest;
    case Some(x) =>
      var s := kw + ReferentialActionText(x) + rest;
      StartsWithAppend(kw, kw, ReferentialActionText(x) + rest);
      assert s == kw + (ReferentialActionText(x) + rest);
      assert s[|kw|..] == ReferentialActionText(x) + rest;
      ReadActionOf(x, rest);
  }

  /**
   * The referential actions of a foreign key (common.rs:651-656) are written
   * so that both can be read back: `ON DELETE` first, then `ON UPDATE`.
   */
  lemma {:induction false} ActionsRoundTrip(onDelete: Option<ReferentialAction>, onUpdate: Option<ReferentialAction>)
    ensures ReadActions(ActionsText(onDelete, onUpdate)) == Some((onDelete, onUpdate))
  {
    var u := match onUpdate case None => "" case Some(x) => " ON UPDATE " + ReferentialActionText(x);
    var d := match onDelete case None => "" case Some(x) => " ON DELETE " + ReferentialActionText(x);
    assert ActionsText(onDelete, onUpdate) == d + u;
    assert !StartsWith(u, " ON DELETE ") by {
      if |u| > 0 { assert u[4] == 'U'; }
    }
    ReadActionClauseOf(" ON DELETE ", onDelete, u);
    assert (d + u)[|d|..] == u;
    ReadActionClauseOf(" ON UPDATE ", onUpdate, []);
    assert u + [] == u;
  }

  /** A foreign key's text ends with its referential actions, which read back. */
  lemma {:induction false} ForeignKeyActions(k: TableKey, tableText: Table -> string, exprText: Expression -> string)
    requires k.ForeignKey?
    ensures var text := TableKeyText(k, tableText, exprText);
      var n := |ActionsText(k.onDelete, k.onUpdate)|;
      n <= |text| && ReadActions(text[|text| - n..]) == Some((k.onDelete, k.onUpdate))
  {
    var text := TableKeyText(k, tableText, exprText);
    var acts := ActionsText(k.onDelete, k.onUpdate);
    var head := "CONSTRAINT " + Quoted(Unwrap(k.name)) + " FOREIGN KEY " + Unwrap(k.indexName)
      + "(" + QuotedList(Names(k.columns)) + ") REFERENCES " + tableText(k.targetTable)
      + " (" + QuotedList(Names(k.targetColumns)) + ")";
    assert text == head + acts;
    assert text[|text| - |acts|..] == acts;
    ActionsRoundTrip(k.onDelete, k.onUpdate);
  }

  /**
   * A foreign key without a name still writes the backticks around it
   * (common.rs:639-642): the text starts with ``CONSTRAINT `` FOREIGN KEY``.
   */
  lemma {:induction false} UnnamedForeignKey(k: TableKey, tableText: Table -> string, exprText: Expression -> string)
    requires k.ForeignKey? && k.name.None? && k.indexName.None?
    ensures StartsWith(TableKeyText(k, tableText, exprText), "CONSTRAINT `` FOREIGN KEY (")
  {
    var p := "CONSTRAINT `` FOREIGN KEY (";
    var h := "CONSTRAINT " + Quoted(Unwrap(k.name)) + " FOREIGN KEY " + Unwrap(k.indexName) + "(";
    assert h == p;
    assert StartsWith(h, p);
    var a1 := h + QuotedList(Names(k.columns));
    StartsWithAppend(h, p, QuotedList(Names(k.columns)));
    var a2 := a1 + ") REFERENCES ";
    StartsWithAppend(a1, p, ") REFERENCES ");
    var a3 := a2 + tableText(k.targetTable);
    StartsWithAppend(a2, p, tableText(k.targetTable));
    var a4 := a3 + " (";
    StartsWithAppend(a3, p, " (");
    var a5 := a4 + QuotedList(Names(k.targetColumns));
    StartsWithAppend(a4, p, QuotedList(Names(k.targetColumns)));
    var a6 := a5 + ")";
    StartsWithAppend(a5, p, ")");
    StartsWithAppend(a6, p, ActionsText(k.onDelete, k.onUpdate));
  }

  predicate EndsWith(s: seq<char>, t: seq<char>) {
    |t| <= |s| && s[|s| - |t|..] == t
  }

  /** Text that ends with `a + b` ends with `b`, and before it with `a`. */
  lemma {:induction false} EndsWithSplit(s: seq<char>, a: seq<char>, b: seq<char>)
    requires EndsWith(s, a + b)
    ensures EndsWith(s, b) && EndsWith(s[..|s| - |b|], a)
  {
    assert s[|s| - |b|..] == (a + b)[|a|..];
    assert s[..|s| - |b|][|s| - |b| - |a|..] == (a + b)[..|a|];
  }

  /** A suffix longer than `e` reaches the space that ends `head`. */
  lemma {:induction false} SpaceInsideSuffix(head: seq<char>, e: seq<char>, w: seq<char>)
    requires |head| > 0 && head[|head| - 1] == ' '
    requires EndsWith(head + e, w) && |e| < |w|
    ensures ' ' in w
  {
    var s := head + e;
    assert s[|head| - 1] == w[|w| - |e| - 1];
  }

  /**
   * A word without spaces that ends text written as `head + e`, where
   * `head` ends with a space, lies wholly inside `e`.
   */
  lemma {:induction false} WordEndsAfterSpace(head: seq<char>, e: seq<char>, w: seq<char>)
    requires |head| > 0 && head[|head| - 1] == ' ' && ' ' !in w
    requires EndsWith(head + e, w)
    ensures EndsWith(e, w)
  {
    var s := head + e;
    if |e| < |w| {
      SpaceInsideSuffix(head, e, w);
      assert false;
    }
    assert s[|s| - |w|..] == e[|e| - |w|..];
  }

  /** The text of a check that is not marked ends in neither word. */
  lemma {:induction false} NoEnforcedSuffix(head: seq<char>, e: seq<char>)
    requires |head| > 0 && head[|head| - 1] == ' '
    requires !EndsWith(e, "ENFORCED")
    ensures !EndsWith(head + e, " ENFORCED") && !EndsWith(head + e, " NOT ENFORCED")
  {
    var text := head + e;
    if EndsWith(text, " ENFORCED") {
      EndsWithSplit(text, " ", "ENFORCED");
      WordEndsAfterSpace(head, e, "ENFORCED");
    }
    if EndsWith(text, " NOT ENFORCED") {
      EndsWithSplit(text, " NOT", " ENFORCED");
    }
  }

  /** A check marked enforced does not end with ` NOT ENFORCED`. */
  lemma {:induction false} EnforcedSuffix(head: seq<char>, e: seq<char>)
    requires |head| > 0 && head[|head| - 1] == ' '
    requires !EndsWith(e, "NOT")
    ensures EndsWith(head + e + " ENFORCED", " ENFORCED")
    ensures !EndsWith(head + e + " ENFORCED", " NOT ENFORCED")
  {
    var pre := head + e;
    var text := pre + " ENFORCED";
    assert text[|text| - 9..] == " ENFORCED";
    if EndsWith(text, " NOT ENFORCED") {
      EndsWithSplit(text, " NOT", " ENFORCED");
      assert text[..|text| - 9] == pre;
      EndsWithSplit(pre, " ", "NOT");
      WordEndsAfterSpace(head, e, "NOT");
    }
  }

  /** A check marked not enforced ends with both. */
  lemma {:induction false} NotEnforcedSuffix(pre: seq<char>)
    ensures EndsWith(pre + " NOT ENFORCED", " NOT ENFORCED")
    ensures EndsWith(pre + " NOT ENFORCED", " ENFORCED")
  {
    var text := pre + " NOT ENFORCED";
    assert text[|text| - 13..] == " NOT ENFORCED";
    EndsWithSplit(text, " NOT", " ENFORCED");
  }

  /**
   * A check constraint (common.rs:659-679) ends with ` NOT ENFORCED` exactly
   * when it is marked not enforced, and with ` ENFORCED` exactly when it is
   * marked either way, provided the expression's own text does not end in
   * either word.
   */
  lemma {:induction false} CheckEnforcement(k: TableKey, tableText: Table -> string, exprText: Expression -> string)
    requires k.CheckConstraint?
    requires !EndsWith(exprText(k.expr), "ENFORCED") && !EndsWith(exprText(k.expr), "NOT")
    ensures var text := TableKeyText(k, tableText, exprText);
      (EndsWith(text, " NOT ENFORCED") <==> k.enforced == Some(false)) &&
      (EndsWith(text, " ENFORCED") <==> k.enforced.Some?)
  {
    var head := CheckHead(k.name);
    var e := exprText(k.expr);
    match k.enforced
    case None =>
      assert TableKeyText(k, tableText, exprText) == head + e + [];
      assert head + e + [] == head + e;
      NoEnforcedSuffix(head, e);
    case Some(true) =>
      EnforcedSuffix(head, e);
    case Some(false) =>
      NotEnforcedSuffix(head + e);
  }
}
