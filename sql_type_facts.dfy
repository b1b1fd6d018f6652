/**
 * What the ordered choice of `type_identifier` (nom-sql/src/common.rs:929-1107)
 * guarantees: the keyword each alternative needs, that an alternative is
 * only reached when none before it applies, and from these the round trip
 * from `Display for SqlType` and the orderings the source relies on.
 *
 * A type's text is treated as a head word of letters followed by a tail
 * that does not start with a letter. Whether an alternative's keyword can
 * match then depends on the head alone (`KwAfterHead`), and the head is a
 * literal, so the keyword tables below can be checked by evaluation.
 */
module SqlTypeFacts {
  import opened ParseCore
  import opened Numeric
  import L = Literals
  import opened Ast
  import opened SqlTypes

  // ---------------------------------------------------------------------
  // Keywords against a head word

  /** From index `i` on, `head` agrees with `kw`, ignoring ASCII case. */
  predicate MatchFrom(head: seq<char>, kw: string, i: nat)
    requires |kw| <= |head|
    decreases |kw| - i
  {
    i >= |kw| || (Lower(head[i]) == Lower(kw[i]) && MatchFrom(head, kw, i + 1))
  }

  /** `kw` is a prefix of `head`, ignoring ASCII case; evaluated index by index on literals. */
  predicate KwPrefix(head: seq<char>, kw: string) {
    |kw| <= |head| && MatchFrom(head, kw, 0)
  }

  /** Position `i` is inside both the head word and `kw`, and they differ there, ignoring ASCII case. */
  predicate DiffersAt(head: seq<char>, kw: string, i: nat) {
    i < |head| && i < |kw| && Lower(head[i]) != Lower(kw[i])
  }

  /**
   * `kw` cannot match a head word followed by a non-letter: the two differ
   * at some position, or `kw` runs past the head word with a letter.
   */
  predicate Blocks(head: seq<char>, kw: string) {
    (exists i: nat | i < |head| :: DiffersAt(head, kw, i)) || (|head| < |kw| && IsAlpha(kw[|head|]))
  }

  /** `Blocks` for every keyword of `kws` from index `k` on. */
  predicate BlocksFrom(head: seq<char>, kws: seq<string>, k: nat)
    decreases |kws| - k
  {
    k >= |kws| || (Blocks(head, kws[k]) && BlocksFrom(head, kws, k + 1))
  }

  /** The input starts with some keyword of `kws` from index `k` on (what the arm's `tag_no_case` tests). */
  predicate StartsFrom(s: seq<char>, kws: seq<string>, k: nat)
    decreases |kws| - k
  {
    k < |kws| && (StartsNoCase(s, kws[k]) || StartsFrom(s, kws, k + 1))
  }

  predicate StartsAny(s: seq<char>, kws: seq<string>) {
    StartsFrom(s, kws, 0)
  }

  /** What may follow a head word: nothing, or a character that is not a letter. */
  predicate NotLetter(tail: seq<char>) {
    |tail| == 0 || !IsAlpha(tail[0])
  }

  lemma {:induction false} MatchFromAll(head: seq<char>, kw: string, i: nat)
    requires |kw| <= |head|
    ensures MatchFrom(head, kw, i) <==> forall j :: i <= j < |kw| ==> Lower(head[j]) == Lower(kw[j])
    decreases |kw| - i
  {
    if i < |kw| {
      MatchFromAll(head, kw, i + 1);
    }
  }

  /** A keyword that is a prefix of the head word matches whatever follows. */
  lemma {:induction false} KwOpens(head: seq<char>, tail: seq<char>, kw: string)
    requires KwPrefix(head, kw)
    ensures StartsNoCase(head + tail, kw)
  {
    MatchFromAll(head, kw, 0);
    forall i | 0 <= i < |kw| ensures (head + tail)[i] == head[i] { }
  }

  /** A blocked keyword does not match a head word followed by a non-letter. */
  lemma {:induction false} KwBlocked(head: seq<char>, tail: seq<char>, kw: string)
    requires Blocks(head, kw) && NotLetter(tail)
    ensures !StartsNoCase(head + tail, kw)
  {
    var s := head + tail;
    if i: nat :| i < |head| && DiffersAt(head, kw, i) {
      assert s[i] == head[i];
    } else if |kw| <= |s| {
      var n := |head|;
      assert s[n] == tail[0];
      assert Lower(s[n]) == s[n];
    }
  }

  lemma {:induction false} BlockedStartsNone(head: seq<char>, tail: seq<char>, kws: seq<string>, k: nat)
    requires BlocksFrom(head, kws, k) && NotLetter(tail)
    ensures !StartsFrom(head + tail, kws, k)
    decreases |kws| - k
  {
    if k < |kws| {
      KwBlocked(head, tail, kws[k]);
      BlockedStartsNone(head, tail, kws, k + 1);
    }
  }

  // ---------------------------------------------------------------------
  // Ordered choice guarded by keywords

  /** Each alternative in `[j, k)` succeeds only on input that starts with one of its keywords. */
  ghost predicate NeedKeywords<T>(ps: seq<seq<char> -> ParseResult<T>>, table: seq<seq<string>>, j: nat, k: nat) {
    |ps| == |table| && k <= |ps| &&
    forall i, s :: j <= i < k && ps[i](s).Done? ==> StartsAny(s, table[i])
  }

  /** Every alternative in `[j, k)` is blocked by the head word. */
  predicate BlockedIn(table: seq<seq<string>>, head: seq<char>, j: nat, k: nat)
    decreases k - j
  {
    j >= k || (j < |table| && BlocksFrom(head, table[j], 0) && BlockedIn(table, head, j + 1, k))
  }

  lemma {:induction false} BlockedArmsFail<T>(ps: seq<seq<char> -> ParseResult<T>>, table: seq<seq<string>>, j: nat, k: nat, head: seq<char>, tail: seq<char>)
    requires NeedKeywords(ps, table, 0, |ps|) && j <= k <= |ps|
    requires BlockedIn(table, head, j, k) && NotLetter(tail)
    ensures forall i :: j <= i < k ==> ps[i](head + tail).Fail?
    decreases k - j
  {
    if j < k {
      BlockedStartsNone(head, tail, table[j], 0);
      BlockedArmsFail(ps, table, j + 1, k, head, tail);
    }
  }

  /** When the head word blocks every earlier alternative, alternative `j` decides `alt`. */
  lemma {:induction false} AltWins<T>(ps: seq<seq<char> -> ParseResult<T>>, table: seq<seq<string>>, j: nat, head: seq<char>, tail: seq<char>)
    requires NeedKeywords(ps, table, 0, |ps|) && j < |ps|
    requires BlockedIn(table, head, 0, j) && NotLetter(tail)
    requires ps[j](head + tail).Done?
    ensures Alt(ps, head + tail) == ps[j](head + tail)
  {
    BlockedArmsFail(ps, table, 0, j, head, tail);
    AltPicks(ps, j, head + tail);
  }

  /** As `AltWins`, where alternative `j - 1` is not blocked by the head word but fails. */
  lemma {:induction false} AltWinsPast<T>(ps: seq<seq<char> -> ParseResult<T>>, table: seq<seq<string>>, j: nat, head: seq<char>, tail: seq<char>)
    requires NeedKeywords(ps, table, 0, |ps|) && 0 < j < |ps|
    requires BlockedIn(table, head, 0, j - 1) && NotLetter(tail)
    requires ps[j - 1](head + tail).Fail? && ps[j](head + tail).Done?
    ensures Alt(ps, head + tail) == ps[j](head + tail)
  {
    BlockedArmsFail(ps, table, 0, j - 1, head, tail);
    AltPicks(ps, j, head + tail);
  }

  /** When the head word blocks every alternative, `alt` fails. */
  lemma {:induction false} AltBlocked<T>(ps: seq<seq<char> -> ParseResult<T>>, table: seq<seq<string>>, head: seq<char>, tail: seq<char>)
    requires NeedKeywords(ps, table, 0, |ps|)
    requires BlockedIn(table, head, 0, |ps|) && NotLetter(tail)
    ensures Alt(ps, head + tail).Fail?
  {
    BlockedArmsFail(ps, table, 0, |ps|, head, tail);
    AltFromFails(ps, 0, head + tail);
  }

  // ---------------------------------------------------------------------
  // The keywords of type_identifier

  /** For each alternative of the first half, the keywords one of which it needs. */
  function FirstKeywords(j: nat): seq<string>
    requires j < 18
  {
    match j
    case 0 => ["tinyint"]
    case 1 => ["smallint"]
    case 2 => ["integer"]
    case 3 => ["int"]
    case 4 => ["bigint"]
    case 5 => ["boolean", "bool"]
    case 6 => ["datetime"]
    case 7 => ["date"]
    case 8 => ["double"]
    case 9 => ["numeric"]
    case 10 => ["enum"]
    case 11 => ["float"]
    case 12 => ["real"]
    case 13 => ["text"]
    case 14 => ["timestamp"]
    case 15 => ["timestamp"]
    case 16 => ["varchar", "character"]
    case _ => ["char"]
  }

  function FirstTable(): (t: seq<seq<string>>)
    ensures |t| == 18 && forall j :: 0 <= j < 18 ==> t[j] == FirstKeywords(j)
  {
    seq(18, j requires 0 <= j < 18 => FirstKeywords(j))
  }

  /** For each alternative of the second half, the keywords one of which it needs. */
  function SecondKeywords(j: nat): seq<string>
    requires j < 21
  {
    match j
    case 0 => ["time"]
    case 1 => ["decimal", "numeric"]
    case 2 => ["binary"]
    case 3 => ["blob"]
    case 4 => ["longblob"]
    case 5 => ["mediumblob"]
    case 6 => ["mediumtext"]
    case 7 => ["longtext"]
    case 8 => ["tinyblob"]
    case 9 => ["tinytext"]
    case 10 => ["varbinary"]
    case 11 => ["bytea"]
    case 12 => ["macaddr"]
    case 13 => ["inet"]
    case 14 => ["uuid"]
    case 15 => ["jsonb"]
    case 16 => ["json"]
    case 17 => ["varbit", "bit"]
    case 18 => ["bit"]
    case 19 => ["serial"]
    case _ => ["bigserial"]
  }

  function SecondTable(): (t: seq<seq<string>>)
    ensures |t| == 21 && forall j :: 0 <= j < 21 ==> t[j] == SecondKeywords(j)
  {
    seq(21, j requires 0 <= j < 21 => SecondKeywords(j))
  }

  lemma {:induction false} BlockedInAll(table: seq<seq<string>>, head: seq<char>, j: nat, k: nat)
    requires k <= |table|
    requires forall i :: j <= i < k ==> BlocksFrom(head, table[i], 0)
    ensures BlockedIn(table, head, j, k)
    decreases k - j
  {
    if j < k {
      BlockedInAll(table, head, j + 1, k);
    }
  }

  lemma {:induction false} FirstNeeds0(lex: Lexicon, s: seq<char>)
    ensures FirstArm(0, lex)(s).Done? ==> StartsAny(s, FirstKeywords(0))
  { }

  lemma {:induction false} FirstNeeds1(lex: Lexicon, s: seq<char>)
    ensures FirstArm(1, lex)(s).Done? ==> StartsAny(s, FirstKeywords(1))
  { }

  lemma {:induction false} FirstNeeds2(lex: Lexicon, s: seq<char>)
    ensures FirstArm(2, lex)(s).Done? ==> StartsAny(s, FirstKeywords(2))
  { }

  lemma {:induction false} FirstNeeds3(lex: Lexicon, s: seq<char>)
    ensures FirstArm(3, lex)(s).Done? ==> StartsAny(s, FirstKeywords(3))
  { }

  lemma {:induction false} FirstNeeds4(lex: Lexicon, s: seq<char>)
    ensures FirstArm(4, lex)(s).Done? ==> StartsAny(s, FirstKeywords(4))
  { }

  lemma {:induction false} FirstNeeds5(lex: Lexicon, s: seq<char>)
    ensures FirstArm(5, lex)(s).Done? ==> StartsAny(s, FirstKeywords(5))
  { }

  lemma {:induction false} FirstNeeds6(lex: Lexicon, s: seq<char>)
    ensures FirstArm(6, lex)(s).Done? ==> StartsAny(s, FirstKeywords(6))
  { }

  lemma {:induction false} FirstNeeds7(lex: Lexicon, s: seq<char>)
    ensures FirstArm(7, lex)(s).Done? ==> StartsAny(s, FirstKeywords(7))
  { }

  lemma {:induction false} FirstNeeds8(lex: Lexicon, s: seq<char>)
    ensures FirstArm(8, lex)(s).Done? ==> StartsAny(s, FirstKeywords(8))
  { }

  lemma {:induction false} FirstNeeds9(lex: Lexicon, s: seq<char>)
    ensures FirstArm(9, lex)(s).Done? ==> StartsAny(s, FirstKeywords(9))
  { }

  lemma {:induction false} FirstNeeds10(lex: Lexicon, s: seq<char>)
    ensures FirstArm(10, lex)(s).Done? ==> StartsAny(s, FirstKeywords(10))
  { }

  lemma {:induction false} FirstNeeds11(lex: Lexicon, s: seq<char>)
    ensures FirstArm(11, lex)(s).Done? ==> StartsAny(s, FirstKeywords(11))
  { }

  lemma {:induction false} FirstNeeds12(lex: Lexicon, s: seq<char>)
    ensures FirstArm(12, lex)(s).Done? ==> StartsAny(s, FirstKeywords(12))
  { }

  lemma {:induction false} FirstNeeds13(lex: Lexicon, s: seq<char>)
    ensures FirstArm(13, lex)(s).Done? ==> StartsAny(s, FirstKeywords(13))
  { }

  lemma {:induction false} FirstNeeds14(lex: Lexicon, s: seq<char>)
    ensures FirstArm(14, lex)(s).Done? ==> StartsAny(s, FirstKeywords(14))
  { }

  lemma {:induction false} FirstNeeds15(lex: Lexicon, s: seq<char>)
    ensures FirstArm(15, lex)(s).Done? ==> StartsAny(s, FirstKeywords(15))
  { }

  lemma {:induction false} FirstNeeds16(lex: Lexicon, s: seq<char>)
    ensures FirstArm(16, lex)(s).Done? ==> StartsAny(s, FirstKeywords(16))
  { }

  lemma {:induction false} FirstNeeds17(lex: Lexicon, s: seq<char>)
    ensures FirstArm(17, lex)(s).Done? ==> StartsAny(s, FirstKeywords(17))
  { }

  lemma {:induction false} SecondNeeds0(s: seq<char>)
    ensures SecondArm(0)(s).Done? ==> StartsAny(s, SecondKeywords(0))
  { }

  lemma {:induction false} SecondNeeds1(s: seq<char>)
    ensures SecondArm(1)(s).Done? ==> StartsAny(s, SecondKeywords(1))
  { }

  lemma {:induction false} SecondNeeds2(s: seq<char>)
    ensures SecondArm(2)(s).Done? ==> StartsAny(s, SecondKeywords(2))
  { }

  lemma {:induction false} SecondNeeds3(s: seq<char>)
    ensures SecondArm(3)(s).Done? ==> StartsAny(s, SecondKeywords(3))
  { }

  lemma {:induction false} SecondNeeds4(s: seq<char>)
    ensures SecondArm(4)(s).Done? ==> StartsAny(s, SecondKeywords(4))
  { }

  lemma {:induction false} SecondNeeds5(s: seq<char>)
    ensures SecondArm(5)(s).Done? ==> StartsAny(s, SecondKeywords(5))
  { }

  lemma {:induction false} SecondNeeds6(s: seq<char>)
    ensures SecondArm(6)(s).Done? ==> StartsAny(s, SecondKeywords(6))
  { }

  lemma {:induction false} SecondNeeds7(s: seq<char>)
    ensures SecondArm(7)(s).Done? ==> StartsAny(s, SecondKeywords(7))
  { }

  lemma {:induction false} SecondNeeds8(s: seq<char>)
    ensures SecondArm(8)(s).Done? ==> StartsAny(s, SecondKeywords(8))
  { }

  lemma {:induction false} SecondNeeds9(s: seq<char>)
    ensures SecondArm(9)(s).Done? ==> StartsAny(s, SecondKeywords(9))
  { }

  lemma {:induction false} SecondNeeds10(s: seq<char>)
    ensures SecondArm(10)(s).Done? ==> StartsAny(s, SecondKeywords(10))
  { }

  lemma {:induction false} SecondNeeds11(s: seq<char>)
    ensures SecondArm(11)(s).Done? ==> StartsAny(s, SecondKeywords(11))
  { }

  lemma {:induction false} SecondNeeds12(s: seq<char>)
    ensures SecondArm(12)(s).Done? ==> StartsAny(s, SecondKeywords(12))
  { }

  lemma {:induction false} SecondNeeds13(s: seq<char>)
    ensures SecondArm(13)(s).Done? ==> StartsAny(s, SecondKeywords(13))
  { }

  lemma {:induction false} SecondNeeds14(s: seq<char>)
    ensures SecondArm(14)(s).Done? ==> StartsAny(s, SecondKeywords(14))
  { }

  lemma {:induction false} SecondNeeds15(s: seq<char>)
    ensures SecondArm(15)(s).Done? ==> StartsAny(s, SecondKeywords(15))
  { }

  lemma {:induction false} SecondNeeds16(s: seq<char>)
    ensures SecondArm(16)(s).Done? ==> StartsAny(s, SecondKeywords(16))
  { }

  lemma {:induction false} SecondNeeds17(s: seq<char>)
    ensures SecondArm(17)(s).Done? ==> StartsAny(s, SecondKeywords(17))
  { }

  lemma {:induction false} SecondNeeds18(s: seq<char>)
    ensures SecondArm(18)(s).Done? ==> StartsAny(s, SecondKeywords(18))
  { }

  lemma {:induction false} SecondNeeds19(s: seq<char>)
    ensures SecondArm(19)(s).Done? ==> StartsAny(s, SecondKeywords(19))
  { }

  lemma {:induction false} SecondNeeds20(s: seq<char>)
    ensures SecondArm(20)(s).Done? ==> StartsAny(s, SecondKeywords(20))
  { }


  /** Every alternative of the first half needs one of its keywords. */
  lemma {:induction false} FirstGuarded(lex: Lexicon)
    ensures NeedKeywords(FirstHalfArms(lex), FirstTable(), 0, 18)
  {
    var ps := FirstHalfArms(lex);
    forall i, s | 0 <= i < 18 && ps[i](s).Done? ensures StartsAny(s, FirstTable()[i]) {
      if i == 0 {
        FirstNeeds0(lex, s);
      } else if i == 1 {
        FirstNeeds1(lex, s);
      } else if i == 2 {
        FirstNeeds2(lex, s);
      } else if i == 3 {
        FirstNeeds3(lex, s);
      } else if i == 4 {
        FirstNeeds4(lex, s);
      } else if i == 5 {
        FirstNeeds5(lex, s);
      } else if i == 6 {
        FirstNeeds6(lex, s);
      } else if i == 7 {
        FirstNeeds7(lex, s);
      } else if i == 8 {
        FirstNeeds8(lex, s);
      } else if i == 9 {
        FirstNeeds9(lex, s);
      } else if i == 10 {
        FirstNeeds10(lex, s);
      } else if i == 11 {
        FirstNeeds11(lex, s);
      } else if i == 12 {
        FirstNeeds12(lex, s);
      } else if i == 13 {
        FirstNeeds13(lex, s);
      } else if i == 14 {
        FirstNeeds14(lex, s);
      } else if i == 15 {
        FirstNeeds15(lex, s);
      } else if i == 16 {
        FirstNeeds16(lex, s);
      } else {
        FirstNeeds17(lex, s);
      }
    }
  }

  /** Every alternative of the second half needs one of its keywords. */
  lemma {:induction false} SecondGuarded()
    ensures NeedKeywords(SecondHalfArms(), SecondTable(), 0, 21)
  {
    var ps := SecondHalfArms();
    forall i, s | 0 <= i < 21 && ps[i](s).Done? ensures StartsAny(s, SecondTable()[i]) {
      if i == 0 {
        SecondNeeds0(s);
      } else if i == 1 {
        SecondNeeds1(s);
      } else if i == 2 {
        SecondNeeds2(s);
      } else if i == 3 {
        SecondNeeds3(s);
      } else if i == 4 {
        SecondNeeds4(s);
      } else if i == 5 {
        SecondNeeds5(s);
      } else if i == 6 {
        SecondNeeds6(s);
      } else if i == 7 {
        SecondNeeds7(s);
      } else if i == 8 {
        SecondNeeds8(s);
      } else if i == 9 {
        SecondNeeds9(s);
      } else if i == 10 {
        SecondNeeds10(s);
      } else if i == 11 {
        SecondNeeds11(s);
      } else if i == 12 {
        SecondNeeds12(s);
      } else if i == 13 {
        SecondNeeds13(s);
      } else if i == 14 {
        SecondNeeds14(s);
      } else if i == 15 {
        SecondNeeds15(s);
      } else if i == 16 {
        SecondNeeds16(s);
      } else if i == 17 {
        SecondNeeds17(s);
      } else if i == 18 {
        SecondNeeds18(s);
      } else if i == 19 {
        SecondNeeds19(s);
      } else {
        SecondNeeds20(s);
      }
    }
  }


  // ---------------------------------------------------------------------
  // Which alternative of type_identifier decides a head word

  /** Every alternative of the first half before `j` is blocked by `head`. */
  predicate FirstBlockedBefore(head: seq<char>, j: nat) {
    j <= 18 && forall i :: 0 <= i < j ==> BlocksFrom(head, FirstKeywords(i), 0)
  }

  /** Every alternative of the second half before `j` is blocked by `head`. */
  predicate SecondBlockedBefore(head: seq<char>, j: nat) {
    j <= 21 && forall i :: 0 <= i < j ==> BlocksFrom(head, SecondKeywords(i), 0)
  }

  lemma {:induction false} FirstBlockedIn(head: seq<char>, j: nat)
    requires FirstBlockedBefore(head, j)
    ensures BlockedIn(FirstTable(), head, 0, j)
  {
    forall i | 0 <= i < j ensures BlocksFrom(head, FirstTable()[i], 0) { }
    BlockedInAll(FirstTable(), head, 0, j);
  }

  lemma {:induction false} SecondBlockedIn(head: seq<char>, j: nat)
    requires SecondBlockedBefore(head, j)
    ensures BlockedIn(SecondTable(), head, 0, j)
  {
    forall i | 0 <= i < j ensures BlocksFrom(head, SecondTable()[i], 0) { }
    BlockedInAll(SecondTable(), head, 0, j);
  }

  /** A head word that blocks the first half's alternatives before `j`, where `j` succeeds, is read by alternative `j`. */
  lemma {:induction false} FirstWins(lex: Lexicon, j: nat, head: seq<char>, tail: seq<char>)
    requires j < 18 && FirstBlockedBefore(head, j) && NotLetter(tail)
    requires FirstArm(j, lex)(head + tail).Done?
    ensures TypeIdentifier(lex, head + tail) == FirstArm(j, lex)(head + tail)
  {
    FirstGuarded(lex);
    FirstBlockedIn(head, j);
    AltWins(FirstHalfArms(lex), FirstTable(), j, head, tail);
  }

  /** A head word that blocks the whole first half and the second half's alternatives before `j`, where `j` succeeds. */
  lemma {:induction false} SecondWins(lex: Lexicon, j: nat, head: seq<char>, tail: seq<char>)
    requires j < 21 && FirstBlockedBefore(head, 18) && SecondBlockedBefore(head, j) && NotLetter(tail)
    requires SecondArm(j)(head + tail).Done?
    ensures TypeIdentifier(lex, head + tail) == SecondArm(j)(head + tail)
  {
    FirstGuarded(lex);
    FirstBlockedIn(head, 18);
    AltBlocked(FirstHalfArms(lex), FirstTable(), head, tail);
    SecondGuarded();
    SecondBlockedIn(head, j);
    AltWins(SecondHalfArms(), SecondTable(), j, head, tail);
  }

  /** What may follow a type's text: nothing, or a character that can extend none of its parts. */
  predicate Delim(rest: seq<char>) {
    |rest| == 0 || !(IsAlpha(rest[0]) || IsSpace(rest[0]) || rest[0] == '(')
  }

  /** As `FirstWins`, where alternative `j - 1` is not blocked but fails. */
  lemma {:induction false} FirstWinsPast(lex: Lexicon, j: nat, head: seq<char>, tail: seq<char>)
    requires 0 < j < 18 && FirstBlockedBefore(head, j - 1) && NotLetter(tail)
    requires FirstArm(j - 1, lex)(head + tail).Fail? && FirstArm(j, lex)(head + tail).Done?
    ensures TypeIdentifier(lex, head + tail) == FirstArm(j, lex)(head + tail)
  {
    FirstGuarded(lex);
    FirstBlockedIn(head, j - 1);
    AltWinsPast(FirstHalfArms(lex), FirstTable(), j, head, tail);
  }

  /** As `SecondWins`, where alternative `j - 1` is not blocked but fails. */
  lemma {:induction false} SecondWinsPast(lex: Lexicon, j: nat, head: seq<char>, tail: seq<char>)
    requires 0 < j < 21 && FirstBlockedBefore(head, 18) && SecondBlockedBefore(head, j - 1) && NotLetter(tail)
    requires SecondArm(j - 1)(head + tail).Fail? && SecondArm(j)(head + tail).Done?
    ensures TypeIdentifier(lex, head + tail) == SecondArm(j)(head + tail)
  {
    FirstGuarded(lex);
    FirstBlockedIn(head, 18);
    AltBlocked(FirstHalfArms(lex), FirstTable(), head, tail);
    SecondGuarded();
    SecondBlockedIn(head, j - 1);
    AltWinsPast(SecondHalfArms(), SecondTable(), j, head, tail);
  }
}
