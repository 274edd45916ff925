/** Characters, trimming, splitting and phrase matching on strings, as the
    program's JavaScript string methods and regular expressions treat them.
    Case folding and the word characters of `\b` are ASCII. */
module Text {

  // ---------------------------------------------------------------------
  // Character classes
  // ---------------------------------------------------------------------

  /** The characters `\s` matches, which are also those `String.prototype.trim` removes. */
  predicate IsSpace(c: char) {
    || c == ' ' || c == '\t' || c == '\n' || c == '\U{000B}' || c == '\U{000C}' || c == '\r'
    || c == '\U{00A0}' || c == '\U{1680}' || ('\U{2000}' <= c <= '\U{200A}')
    || c == '\U{2028}' || c == '\U{2029}' || c == '\U{202F}' || c == '\U{205F}'
    || c == '\U{3000}' || c == '\U{FEFF}'
  }

  /** The characters of `\w`. */
  predicate IsWordChar(c: char) {
    ('a' <= c <= 'z') || ('A' <= c <= 'Z') || ('0' <= c <= '9') || c == '_'
  }

  /** The characters of `\d`. */
  predicate IsDigit(c: char) {
    '0' <= c <= '9'
  }

  /** The characters of the class `[.!?]`. */
  predicate IsSentenceEnd(c: char) {
    c == '.' || c == '!' || c == '?'
  }

  function LowerChar(c: char): char {
    if 'A' <= c <= 'Z' then (c as int + 32) as char else c
  }

  /** `toLowerCase()`, on the ASCII letters. */
  function ToLower(s: string): string {
    seq(|s|, i requires 0 <= i < |s| => LowerChar(s[i]))
  }

  /** Lower-casing keeps the length, leaves no capital letter, changes no
      other character, and changes nothing the second time. */
  lemma ToLowerProperties(s: string)
    ensures |ToLower(s)| == |s|
    ensures forall i | 0 <= i < |s| :: !('A' <= ToLower(s)[i] <= 'Z')
    ensures forall i | 0 <= i < |s| :: !('A' <= s[i] <= 'Z') ==> ToLower(s)[i] == s[i]
    ensures forall i | 0 <= i < |s| :: 'A' <= s[i] <= 'Z' ==> ToLower(s)[i] as int == s[i] as int + 32
    ensures ToLower(ToLower(s)) == ToLower(s)
  {
  }

  /** `(s.match(/c/g) || []).length` for a single character `c`. */
  function CountChar(s: string, c: char): nat {
    if s == [] then 0 else (if s[0] == c then 1 else 0) + CountChar(s[1..], c)
  }

  lemma {:induction false} CountCharAppend(a: string, b: string, c: char)
    ensures CountChar(a + b, c) == CountChar(a, c) + CountChar(b, c)
  {
    if a == [] {
      assert a + b == b;
    } else {
      assert (a + b)[1..] == a[1..] + b;
      CountCharAppend(a[1..], b, c);
    }
  }

  // ---------------------------------------------------------------------
  // Scanning
  // ---------------------------------------------------------------------

  /** The first index at or after `i` whose character does not satisfy `p`, or `|s|`. */
  function Skip(s: string, p: char -> bool, i: nat): (j: nat)
    requires i <= |s|
    ensures i <= j <= |s|
    ensures forall k :: i <= k < j ==> p(s[k])
    ensures j < |s| ==> !p(s[j])
    decreases |s| - i
  {
    if i == |s| || !p(s[i]) then i else Skip(s, p, i + 1)
  }

  /** The first index at or after `i` whose character satisfies `p`, or `|s|`. */
  function Find(s: string, p: char -> bool, i: nat): (j: nat)
    requires i <= |s|
    ensures i <= j <= |s|
    ensures forall k :: i <= k < j ==> !p(s[k])
    ensures j < |s| ==> p(s[j])
    decreases |s| - i
  {
    if i == |s| || p(s[i]) then i else Find(s, p, i + 1)
  }

  /** `Skip` is the only index with its two properties. */
  lemma SkipIs(s: string, p: char -> bool, i: nat, j: nat)
    requires i <= j <= |s|
    requires forall k :: i <= k < j ==> p(s[k])
    requires j < |s| ==> !p(s[j])
    ensures Skip(s, p, i) == j
    decreases j - i
  {
    if i < j {
      SkipIs(s, p, i + 1, j);
    }
  }

  /** `Find` is the only index with its two properties. */
  lemma FindIs(s: string, p: char -> bool, i: nat, j: nat)
    requires i <= j <= |s|
    requires forall k :: i <= k < j ==> !p(s[k])
    requires j < |s| ==> p(s[j])
    ensures Find(s, p, i) == j
    decreases j - i
  {
    if i < j {
      FindIs(s, p, i + 1, j);
    }
  }

  /** Scanning a suffix is scanning the whole string from further on. */
  lemma SkipShift(s: string, p: char -> bool, d: nat, i: nat)
    requires d + i <= |s|
    ensures Skip(s[d..], p, i) + d == Skip(s, p, d + i)
    decreases |s| - d - i
  {
    if d + i < |s| {
      assert s[d..][i] == s[d + i];
      SkipShift(s, p, d, i + 1);
    }
  }

  lemma FindShift(s: string, p: char -> bool, d: nat, i: nat)
    requires d + i <= |s|
    ensures Find(s[d..], p, i) + d == Find(s, p, d + i)
    decreases |s| - d - i
  {
    if d + i < |s| {
      assert s[d..][i] == s[d + i];
      FindShift(s, p, d, i + 1);
    }
  }

  // ---------------------------------------------------------------------
  // Trimming
  // ---------------------------------------------------------------------

  /** The end of `s[..j]` once trailing white space is dropped. */
  function TrimEndIndex(s: string, j: nat): (k: nat)
    requires j <= |s|
    ensures k <= j
    ensures forall i :: k <= i < j ==> IsSpace(s[i])
    ensures k > 0 ==> !IsSpace(s[k - 1])
  {
    if j == 0 || !IsSpace(s[j - 1]) then j else TrimEndIndex(s, j - 1)
  }

  function TrimStart(s: string): string {
    s[Skip(s, IsSpace, 0)..]
  }

  function TrimEnd(s: string): string {
    s[..TrimEndIndex(s, |s|)]
  }

  /** `s.trim()`: the text with the white space at both ends removed. */
  function Trim(s: string): (r: string)
    ensures r == [] || (!IsSpace(r[0]) && !IsSpace(r[|r| - 1]))
    ensures exists a, b :: 0 <= a <= b <= |s| && r == s[a..b] && AllSpace(s[..a]) && AllSpace(s[b..])
  {
    var a := Skip(s, IsSpace, 0);
    var t := TrimStart(s);
    var e := TrimEndIndex(t, |t|);
    assert e > 0 ==> t[0] == t[..e][0];
    assert t[..e] == s[a..a + e];
    assert AllSpace(s[..a]) by {
      forall i | 0 <= i < a ensures IsSpace(s[..a][i]) {
        assert s[..a][i] == s[i];
      }
    }
    var tail := s[a + e..];
    assert AllSpace(tail) by {
      forall i | 0 <= i < |tail| ensures IsSpace(tail[i]) {
        assert tail[i] == t[e + i];
      }
    }
    TrimEnd(t)
  }

  /** `!s.trim()`, `s.trim().length === 0`. */
  predicate IsBlank(s: string) {
    Trim(s) == ""
  }

  predicate AllSpace(s: string) {
    forall i :: 0 <= i < |s| ==> IsSpace(s[i])
  }

  lemma BlankIffAllSpace(s: string)
    ensures IsBlank(s) <==> AllSpace(s)
  {
    var a := Skip(s, IsSpace, 0);
    var t := s[a..];
    if AllSpace(s) {
      SkipIs(s, IsSpace, 0, |s|);
    } else {
      assert a < |s|;
      assert !IsSpace(t[0]);
      assert TrimEndIndex(t, |t|) > 0;
    }
  }

  // ---------------------------------------------------------------------
  // Splitting
  // ---------------------------------------------------------------------

  /** `s.split(/[sep]+/)`: the pieces between maximal runs of separator
      characters, with an empty piece before a leading run and after a
      trailing one. */
  function SplitRuns(s: string, sep: char -> bool): (r: seq<string>)
    ensures |r| >= 1
  {
    PiecesFrom(s, sep, 0)
  }

  /** The pieces of `s[i..]` between maximal runs of `sep`. */
  function PiecesFrom(s: string, sep: char -> bool, i: nat): (r: seq<string>)
    requires i <= |s|
    ensures |r| >= 1
    decreases |s| - i
  {
    var k := Find(s, sep, i);
    if k == |s| then [s[i..]] else [s[i..k]] + PiecesFrom(s, sep, Skip(s, sep, k))
  }

  /** `s.split(c)` for a one-character separator: every occurrence separates. */
  function SplitOnChar(s: string, c: char): (r: seq<string>)
    ensures |r| >= 1
    decreases |s|
  {
    var i := CharIndex(s, c, 0);
    if i == |s| then [s] else [s[..i]] + SplitOnChar(s[i + 1..], c)
  }

  /** The first index at or after `i` holding `c`, or `|s|`. */
  function CharIndex(s: string, c: char, i: nat): (j: nat)
    requires i <= |s|
    ensures i <= j <= |s|
    ensures forall k :: i <= k < j ==> s[k] != c
    ensures j < |s| ==> s[j] == c
    decreases |s| - i
  {
    if i == |s| || s[i] == c then i else CharIndex(s, c, i + 1)
  }

  /** `.filter(w => w.length > 0)`. */
  function NonEmpty(pieces: seq<string>): (r: seq<string>)
    ensures |r| <= |pieces|
  {
    if pieces == [] then []
    else (if |pieces[0]| > 0 then [pieces[0]] else []) + NonEmpty(pieces[1..])
  }

  /** `.filter(s => s.trim().length > 0)`. */
  function NonBlank(pieces: seq<string>): (r: seq<string>)
    ensures |r| <= |pieces|
  {
    if pieces == [] then []
    else (if !IsBlank(pieces[0]) then [pieces[0]] else []) + NonBlank(pieces[1..])
  }

  lemma NonEmptyCons(p: string, rest: seq<string>)
    ensures NonEmpty([p] + rest) == (if |p| > 0 then [p] else []) + NonEmpty(rest)
  {
    assert ([p] + rest)[1..] == rest;
  }

  lemma NonBlankCons(p: string, rest: seq<string>)
    ensures NonBlank([p] + rest) == (if !IsBlank(p) then [p] else []) + NonBlank(rest)
  {
    assert ([p] + rest)[1..] == rest;
  }

  /** One piece more than there are separators: `s.split(' ').length`. */
  lemma {:induction false} SplitOnCharLength(s: string, c: char)
    ensures |SplitOnChar(s, c)| == CountChar(s, c) + 1
    decreases |s|
  {
    var i := CharIndex(s, c, 0);
    if i == |s| {
      CountCharNone(s, c);
    } else {
      assert s == s[..i] + ([s[i]] + s[i + 1..]);
      CountCharAppend(s[..i], [s[i]] + s[i + 1..], c);
      CountCharAppend([s[i]], s[i + 1..], c);
      CountCharNone(s[..i], c);
      assert CountChar([s[i]], c) == 1;
      SplitOnCharLength(s[i + 1..], c);
    }
  }

  lemma {:induction false} CountCharNone(s: string, c: char)
    requires forall k :: 0 <= k < |s| ==> s[k] != c
    ensures CountChar(s, c) == 0
  {
    if s != [] {
      CountCharNone(s[1..], c);
    }
  }

  // ---------------------------------------------------------------------
  // Words: the maximal runs of non-space characters
  // ---------------------------------------------------------------------

  /** The maximal runs of non-white-space characters of `s`, left to right. */
  function Words(s: string): seq<string> {
    WordsFrom(s, 0)
  }

  /** The words of `s[i..]`. */
  function WordsFrom(s: string, i: nat): seq<string>
    requires i <= |s|
    decreases |s| - i
  {
    var a := Skip(s, IsSpace, i);
    if a == |s| then [] else var b := Find(s, IsSpace, a); [s[a..b]] + WordsFrom(s, b)
  }

  /** Every word is non-empty and holds no white space. */
  lemma {:induction false} WordsShape(s: string, i: nat)
    requires i <= |s|
    ensures forall k :: 0 <= k < |WordsFrom(s, i)| ==> WordShaped(WordsFrom(s, i)[k])
    decreases |s| - i
  {
    var a := Skip(s, IsSpace, i);
    if a < |s| {
      var b := Find(s, IsSpace, a);
      WordsShape(s, b);
      var w := WordsFrom(s, i);
      assert w == [s[a..b]] + WordsFrom(s, b);
      assert WordShaped(s[a..b]);
      forall k | 0 < k < |w|
        ensures WordShaped(w[k])
      {
        assert w[k] == WordsFrom(s, b)[k - 1];
      }
    }
  }

  predicate WordShaped(w: string) {
    |w| > 0 && forall i :: 0 <= i < |w| ==> !IsSpace(w[i])
  }

  /** Scanning on from the end of leading white space changes nothing. */
  lemma WordsSkip(s: string, i: nat)
    requires i <= |s|
    ensures WordsFrom(s, i) == WordsFrom(s, Skip(s, IsSpace, i))
  {
    var a := Skip(s, IsSpace, i);
    SkipIs(s, IsSpace, a, a);
  }

  /** The words of a suffix are those of the whole from the same position. */
  lemma {:induction false} WordsShift(s: string, d: nat, i: nat)
    requires d + i <= |s|
    ensures WordsFrom(s[d..], i) == WordsFrom(s, d + i)
    decreases |s| - d - i
  {
    var t := s[d..];
    var a := Skip(t, IsSpace, i);
    SkipShift(s, IsSpace, d, i);
    if a < |t| {
      var b := Find(t, IsSpace, a);
      FindShift(s, IsSpace, d, a);
      SliceOfSuffix(s, d, a, b);
      WordsShift(s, d, b);
      ShiftCombine(s, d, i, a, b);
    } else {
      WordsNone(t, i);
      WordsNone(s, d + i);
    }
  }

  lemma WordsNone(s: string, i: nat)
    requires i <= |s| && Skip(s, IsSpace, i) == |s|
    ensures WordsFrom(s, i) == []
  {
  }

  lemma ShiftCombine(s: string, d: nat, i: nat, a: nat, b: nat)
    requires d + i <= |s| && a == Skip(s[d..], IsSpace, i) < |s| - d && b == Find(s[d..], IsSpace, a)
    requires a + d == Skip(s, IsSpace, d + i) && b + d == Find(s, IsSpace, d + a)
    requires s[d..][a..b] == s[d + a..d + b]
    requires WordsFrom(s[d..], b) == WordsFrom(s, d + b)
    ensures WordsFrom(s[d..], i) == WordsFrom(s, d + i)
  {
    var t := s[d..];
    WordsUnfold(t, i, a, b);
    WordsUnfold(s, d + i, d + a, d + b);
    ConsCongruence(WordsFrom(t, i), WordsFrom(s, d + i), t[a..b], s[d + a..d + b],
                   WordsFrom(t, b), WordsFrom(s, d + b));
  }

  lemma ConsCongruence<T>(x: seq<T>, y: seq<T>, v: T, w: T, p: seq<T>, q: seq<T>)
    requires x == [v] + p && y == [w] + q && v == w && p == q
    ensures x == y
  {
  }

  lemma WordsUnfold(s: string, i: nat, a: nat, b: nat)
    requires i <= |s| && a == Skip(s, IsSpace, i) < |s| && b == Find(s, IsSpace, a)
    ensures WordsFrom(s, i) == [s[a..b]] + WordsFrom(s, b)
  {
  }

  lemma SliceOfSuffix(s: string, d: nat, a: nat, b: nat)
    requires d + a <= d + b <= |s|
    ensures s[d..][a..b] == s[d + a..d + b]
  {
    forall m | 0 <= m < b - a
      ensures s[d..][a..b][m] == s[d + a..d + b][m]
    {
    }
  }

  /** Cutting off trailing white space at `e` changes no word. */
  lemma {:induction false} WordsPrefix(t: string, e: nat, i: nat)
    requires i <= e <= |t|
    requires forall k :: e <= k < |t| ==> IsSpace(t[k])
    ensures WordsFrom(t[..e], i) == WordsFrom(t, i)
    decreases e - i
  {
    if e == |t| {
      assert t[..e] == t;
    } else {
      var a := Skip(t, IsSpace, i);
      PrefixSkip(t, e, i, a);
      if a < e {
        var b := Find(t, IsSpace, a);
        PrefixFind(t, e, a, b);
        assert t[..e][a..b] == t[a..b];
        WordsPrefix(t, e, b);
      }
    }
  }

  lemma PrefixSkip(t: string, e: nat, i: nat, a: nat)
    requires i <= e < |t| && a == Skip(t, IsSpace, i)
    requires forall k :: e <= k < |t| ==> IsSpace(t[k])
    ensures a >= e ==> a == |t| && Skip(t[..e], IsSpace, i) == e
    ensures a < e ==> Skip(t[..e], IsSpace, i) == a
  {
    var u := t[..e];
    var m := if a < e then a else e;
    forall k | i <= k < m
      ensures IsSpace(u[k])
    {
      assert u[k] == t[k];
    }
    SkipIs(u, IsSpace, i, m);
  }

  lemma PrefixFind(t: string, e: nat, a: nat, b: nat)
    requires a < e < |t| && IsSpace(t[e]) && !IsSpace(t[a]) && b == Find(t, IsSpace, a)
    ensures a < b <= e && Find(t[..e], IsSpace, a) == b
  {
    var u := t[..e];
    forall k | a <= k < b
      ensures !IsSpace(u[k])
    {
      assert u[k] == t[k];
    }
    FindIs(u, IsSpace, a, b);
  }

  /** Trimming does not change the words. */
  lemma WordsOfTrim(s: string)
    ensures Words(Trim(s)) == Words(s)
  {
    var a := Skip(s, IsSpace, 0);
    var t := s[a..];
    var e := TrimEndIndex(t, |t|);
    WordsPrefix(t, e, 0);
    WordsShift(s, a, 0);
    WordsSkip(s, 0);
  }

  /** The non-empty pieces of a split on white-space runs are the words. */
  lemma {:induction false} SplitRunsWords(s: string, i: nat)
    requires i <= |s|
    ensures NonEmpty(PiecesFrom(s, IsSpace, i)) == WordsFrom(s, i)
    decreases |s| - i
  {
    var k := Find(s, IsSpace, i);
    if k == |s| {
      NonEmptyCons(s[i..], []);
      if i < |s| {
        SkipIs(s, IsSpace, i, i);
        assert s[i..|s|] == s[i..];
      }
    } else {
      var j := Skip(s, IsSpace, k);
      NonEmptyCons(s[i..k], PiecesFrom(s, IsSpace, j));
      SplitRunsWords(s, j);
      WordsSkip(s, k);
      if k == i {
        WordsSkip(s, i);
      } else {
        SkipIs(s, IsSpace, i, i);
      }
    }
  }

  /** Between a non-space first and last character, a split on white-space
      runs has no empty piece. */
  lemma {:induction false} TrimmedPiecesNonEmpty(t: string, i: nat)
    requires i < |t| && !IsSpace(t[i]) && !IsSpace(t[|t| - 1])
    ensures NonEmpty(PiecesFrom(t, IsSpace, i)) == PiecesFrom(t, IsSpace, i)
    decreases |t| - i
  {
    var k := Find(t, IsSpace, i);
    if k == |t| {
      NonEmptyCons(t[i..], []);
    } else {
      var j := Skip(t, IsSpace, k);
      NonEmptyCons(t[i..k], PiecesFrom(t, IsSpace, j));
      TrimmedPiecesNonEmpty(t, j);
    }
  }

  /** `s.trim().split(/\s+/)` is the list of words of a non-blank text. */
  lemma TrimmedSplitIsWords(s: string)
    requires !IsBlank(s)
    ensures SplitRuns(Trim(s), IsSpace) == Words(s)
  {
    var t := Trim(s);
    TrimmedPiecesNonEmpty(t, 0);
    SplitRunsWords(t, 0);
    WordsOfTrim(s);
  }

  /** A text is blank exactly when it has no words. */
  lemma WordsEmptyIffBlank(s: string)
    ensures Words(s) == [] <==> IsBlank(s)
  {
    BlankIffAllSpace(s);
    if AllSpace(s) {
      SkipIs(s, IsSpace, 0, |s|);
    }
  }

  // ---------------------------------------------------------------------
  // Sentences: the non-blank pieces between runs of `.`, `!` and `?`
  // ---------------------------------------------------------------------

  predicate SpaceOrSentenceEnd(s: string) {
    forall i :: 0 <= i < |s| ==> IsSpace(s[i]) || IsSentenceEnd(s[i])
  }

  /** A text has no sentence exactly when it holds only white space and delimiters. */
  lemma NoSentencesIff(s: string)
    ensures NonBlank(SplitRuns(s, IsSentenceEnd)) == [] <==> SpaceOrSentenceEnd(s)
  {
    NoSentencesFrom(s, 0);
    assert SpaceOrEndFrom(s, 0) <==> SpaceOrSentenceEnd(s);
  }

  lemma {:induction false} NoSentencesFrom(s: string, i: nat)
    requires i <= |s|
    ensures NonBlank(PiecesFrom(s, IsSentenceEnd, i)) == [] <==> SpaceOrEndFrom(s, i)
    decreases |s| - i
  {
    var k := Find(s, IsSentenceEnd, i);
    LastPieceBlank(s, i, k);
    if k < |s| {
      var j := Skip(s, IsSentenceEnd, k);
      NoSentencesFrom(s, j);
      NonBlankCons(s[i..k], PiecesFrom(s, IsSentenceEnd, j));
      SpaceOrEndSplit(s, i, k, j);
    } else {
      NonBlankCons(s[i..], []);
      assert s[i..|s|] == s[i..];
    }
  }

  /** From `i` on, only white space and sentence delimiters. */
  predicate SpaceOrEndFrom(s: string, i: nat) {
    forall k :: i <= k < |s| ==> IsSpace(s[k]) || IsSentenceEnd(s[k])
  }

  /** A piece without delimiters is blank exactly when its characters are all white space. */
  lemma LastPieceBlank(s: string, i: nat, k: nat)
    requires i <= |s| && k == Find(s, IsSentenceEnd, i)
    ensures IsBlank(s[i..k]) <==> SpaceOrEndFrom(s[..k], i)
  {
    BlankIffAllSpace(s[i..k]);
    PieceChars(s, i, k);
    forall m | i <= m < k
      ensures s[..k][m] == s[m]
    {
    }
  }

  lemma SpaceOrEndSplit(s: string, i: nat, k: nat, j: nat)
    requires i <= k < |s| && k == Find(s, IsSentenceEnd, i) && j == Skip(s, IsSentenceEnd, k)
    ensures SpaceOrEndFrom(s, i) <==> SpaceOrEndFrom(s[..k], i) && SpaceOrEndFrom(s, j)
  {
    if SpaceOrEndFrom(s[..k], i) && SpaceOrEndFrom(s, j) {
      forall m | i <= m < |s|
        ensures IsSpace(s[m]) || IsSentenceEnd(s[m])
      {
        if m < k {
          assert s[..k][m] == s[m];
        }
      }
    }
    if SpaceOrEndFrom(s, i) {
      forall m | i <= m < k
        ensures IsSpace(s[..k][m]) || IsSentenceEnd(s[..k][m])
      {
        assert s[..k][m] == s[m];
      }
    }
  }

  /** The characters of a piece are those of the text at the same offset. */
  lemma PieceChars(s: string, i: nat, k: nat)
    requires i <= k <= |s|
    ensures forall m :: 0 <= m < k - i ==> s[i..k][m] == s[i + m]
  {
  }

  // ---------------------------------------------------------------------
  // Phrase matching: `\b(w1|w2|...)\b`
  // ---------------------------------------------------------------------

  /** The alternatives of a group `(w1|w2|...)`, in their order; none is empty. */
  type Vocabulary = v: seq<string> | forall k :: 0 <= k < |v| ==> |v[k]| > 0

  /** `\b` at position `i`: a word character on exactly one side. */
  predicate Boundary(s: string, i: nat)
    requires i <= |s|
  {
    (0 < i && IsWordChar(s[i - 1])) != (i < |s| && IsWordChar(s[i]))
  }

  /** `\bw\b` matches at position `i`. */
  predicate PhraseAt(s: string, i: nat, w: string)
    requires i <= |s|
  {
    i + |w| <= |s| && s[i..i + |w|] == w && Boundary(s, i) && Boundary(s, i + |w|)
  }

  /** The first alternative from `k` on that matches at `i` (the regex
      engine tries them in order), or `|v|` when none does. */
  function FirstMatch(s: string, i: nat, v: Vocabulary, k: nat): (m: nat)
    requires i <= |s| && k <= |v|
    ensures k <= m <= |v|
    ensures m < |v| ==> PhraseAt(s, i, v[m])
    ensures forall j :: k <= j < m ==> !PhraseAt(s, i, v[j])
    decreases |v| - k
  {
    if k == |v| then |v| else if PhraseAt(s, i, v[k]) then k else FirstMatch(s, i, v, k + 1)
  }

  predicate MatchAt(s: string, i: nat, v: Vocabulary)
    requires i <= |s|
  {
    FirstMatch(s, i, v, 0) < |v|
  }

  /** The number of matches of the global regex `/\b(v)\b/g` from `i`:
      leftmost first, and the scan resumes after each match. */
  function CountFrom(s: string, v: Vocabulary, i: nat): nat
    requires i <= |s|
    decreases |s| - i
  {
    if i == |s| then 0
    else
      var m := FirstMatch(s, i, v, 0);
      if m < |v| then 1 + CountFrom(s, v, i + |v[m]|) else CountFrom(s, v, i + 1)
  }

  /** `(s.match(/\b(v)\b/g) || []).length`. */
  function CountMatches(s: string, v: Vocabulary): nat {
    CountFrom(s, v, 0)
  }

  /** `/\b(v)\b/.test(s)`. */
  predicate Test(s: string, v: Vocabulary) {
    exists i | 0 <= i < |s| :: MatchAt(s, i, v)
  }

  lemma {:induction false} CountFromPositive(s: string, v: Vocabulary, i: nat)
    requires i <= |s|
    ensures CountFrom(s, v, i) > 0 <==> exists p | i <= p < |s| :: MatchAt(s, p, v)
    decreases |s| - i
  {
    if i < |s| {
      CountFromPositive(s, v, i + 1);
      CountStep(s, v, i);
      MatchExistsStep(s, v, i);
    }
  }

  /** The count from `i` is positive when a match starts at `i` or one is counted later. */
  lemma CountStep(s: string, v: Vocabulary, i: nat)
    requires i < |s|
    ensures CountFrom(s, v, i) > 0 <==> MatchAt(s, i, v) || CountFrom(s, v, i + 1) > 0
  {
  }

  lemma MatchExistsStep(s: string, v: Vocabulary, i: nat)
    requires i < |s|
    ensures (exists p | i <= p < |s| :: MatchAt(s, p, v))
            <==> MatchAt(s, i, v) || exists p | i + 1 <= p < |s| :: MatchAt(s, p, v)
  {
  }

  /** The global count is positive exactly when the pattern occurs. */
  lemma CountPositiveIffTest(s: string, v: Vocabulary)
    ensures CountMatches(s, v) > 0 <==> Test(s, v)
  {
    CountFromPositive(s, v, 0);
  }

  /** A pattern whose alternatives all belong to a second one matches only
      where the second one does. */
  lemma TestWithin(s: string, v: Vocabulary, u: Vocabulary)
    requires forall k :: 0 <= k < |v| ==> v[k] in u
    ensures Test(s, v) ==> Test(s, u)
  {
    if Test(s, v) {
      var i :| 0 <= i < |s| && MatchAt(s, i, v);
      var k :| 0 <= k < |u| && u[k] == v[FirstMatch(s, i, v, 0)];
      assert PhraseAt(s, i, u[k]);
      assert FirstMatch(s, i, u, 0) <= k;
      assert MatchAt(s, i, u);
    }
  }

  /** `s.includes(w)`. */
  predicate Contains(s: string, w: string) {
    exists i | 0 <= i <= |s| - |w| :: SubstringAt(s, i, w)
  }

  predicate SubstringAt(s: string, i: int, w: string) {
    0 <= i && i + |w| <= |s| && s[i..i + |w|] == w
  }
}
