/**
 The editor-rule glob matcher: an iterative wildcard match that remembers only
 the last star it passed.

 `Matches` is the declarative meaning of a pattern. `MatchGlob` is the loop of
 the program. The loop is right because `/` is matched by nothing but a literal
 `/`: when the matcher moves past a star, no earlier alternative can reach a
 text position that the newer star cannot reach too (`NewestStarSuffices`).
 */
module Glob {

  /** `char::to_lowercase`: one character lowers to a short run of characters. */
  type CaseFold = char -> seq<char>

  /** Of all characters only `/` lowers to what `/` lowers to, as in Unicode. */
  ghost predicate FoldKeepsSlash(fold: CaseFold) {
    forall c: char :: fold(c) == fold('/') ==> c == '/'
  }

  /** A single pattern character other than `*` against one text character. */
  predicate MatchesOne(fold: CaseFold, p: char, c: char) {
    if p == '?' then c != '/' else p != '*' && fold(p) == fold(c)
  }

  ghost predicate NoSlash(text: seq<char>) {
    '/' !in text
  }

  /** The declarative meaning: `*` stands for any run without `/`. */
  ghost predicate Matches(fold: CaseFold, pattern: seq<char>, text: seq<char>)
    decreases |pattern|
  {
    if pattern == [] then text == []
    else if pattern[0] == '*' then
      exists k | 0 <= k <= |text| :: NoSlash(text[..k]) && Matches(fold, pattern[1..], text[k..])
    else
      text != [] && MatchesOne(fold, pattern[0], text[0]) && Matches(fold, pattern[1..], text[1..])
  }

  /** What is left to decide at pattern position `i` and text position `j`. */
  ghost predicate Rest(fold: CaseFold, pattern: seq<char>, text: seq<char>, i: nat, j: nat)
    requires i <= |pattern| && j <= |text|
  {
    Matches(fold, pattern[i..], text[j..])
  }

  lemma RestUnfold(fold: CaseFold, pattern: seq<char>, text: seq<char>, i: nat, j: nat)
    requires i < |pattern| && j <= |text| && pattern[i] != '*'
    ensures Rest(fold, pattern, text, i, j) <==>
            j < |text| && MatchesOne(fold, pattern[i], text[j]) && Rest(fold, pattern, text, i + 1, j + 1)
  {
  }

  lemma RestStar(fold: CaseFold, pattern: seq<char>, text: seq<char>, i: nat, j: nat)
    requires i < |pattern| && j <= |text| && pattern[i] == '*'
    ensures Rest(fold, pattern, text, i, j) <==>
            exists k | j <= k <= |text| :: NoSlash(text[j..k]) && Rest(fold, pattern, text, i + 1, k)
  {
    var p, t := pattern[i..], text[j..];
    assert p[1..] == pattern[i + 1..];
    if Rest(fold, pattern, text, i, j) {
      var n :| 0 <= n <= |t| && NoSlash(t[..n]) && Matches(fold, p[1..], t[n..]);
      assert t[..n] == text[j..j + n] && t[n..] == text[j + n..];
      assert Rest(fold, pattern, text, i + 1, j + n);
    }
    if k :| j <= k <= |text| && NoSlash(text[j..k]) && Rest(fold, pattern, text, i + 1, k) {
      assert t[..k - j] == text[j..k] && t[k - j..] == text[k..];
    }
  }

  // ----- the search, over the set of positions from which the rest matches -----

  /** A matching problem with its good positions: `(i, j)` if `pattern[i..]` matches `text[j..]`. */
  datatype Problem = Problem(fold: CaseFold, pattern: seq<char>, text: seq<char>, good: set<(nat, nat)>)

  ghost function Solve(fold: CaseFold, pattern: seq<char>, text: seq<char>): Problem {
    Problem(fold, pattern, text,
            set i: nat, j: nat | i <= |pattern| && j <= |text| && Rest(fold, pattern, text, i, j) :: (i, j))
  }

  /** A single text character matches and the rest after both does. */
  ghost predicate PlainLaw(g: Problem, i: nat, j: nat) {
    i < |g.pattern| && j <= |g.text| && g.pattern[i] != '*' ==>
      ((i, j) in g.good <==>
         j < |g.text| && MatchesOne(g.fold, g.pattern[i], g.text[j]) && (i + 1, j + 1) in g.good)
  }

  /** Some run without a slash can be skipped. */
  ghost predicate StarLaw(g: Problem, i: nat, j: nat) {
    i < |g.pattern| && j <= |g.text| && g.pattern[i] == '*' ==>
      ((i, j) in g.good <==> exists k | j <= k <= |g.text| :: NoSlash(g.text[j..k]) && (i + 1, k) in g.good)
  }

  /** Past the pattern nothing may be left. */
  ghost predicate EndLaw(g: Problem, j: nat) {
    j <= |g.text| ==> ((|g.pattern|, j) in g.good <==> j == |g.text|)
  }

  ghost predicate Lawful(g: Problem) {
    && (forall i: nat, j: nat :: PlainLaw(g, i, j))
    && (forall i: nat, j: nat :: StarLaw(g, i, j))
    && (forall j: nat :: EndLaw(g, j))
  }

  /** The good positions obey the three laws, and the whole text matches iff the start is good. */
  lemma SolvedIsLawful(fold: CaseFold, pattern: seq<char>, text: seq<char>)
    ensures Lawful(Solve(fold, pattern, text))
    ensures (0, 0) in Solve(fold, pattern, text).good <==> Matches(fold, pattern, text)
  {
    var g := Solve(fold, pattern, text);
    forall i: nat, j: nat
      ensures PlainLaw(g, i, j) && StarLaw(g, i, j)
    {
      if i < |pattern| && j <= |text| {
        SolvedAt(fold, pattern, text, i, j);
      }
    }
    forall j: nat
      ensures EndLaw(g, j)
    {
      if j <= |text| {
        assert pattern[|pattern|..] == [] && (text[j..] == [] <==> j == |text|);
      }
    }
    assert pattern[0..] == pattern && text[0..] == text;
  }

  lemma SolvedAt(fold: CaseFold, pattern: seq<char>, text: seq<char>, i: nat, j: nat)
    requires i < |pattern| && j <= |text|
    ensures PlainLaw(Solve(fold, pattern, text), i, j) && StarLaw(Solve(fold, pattern, text), i, j)
  {
    if pattern[i] == '*' {
      RestStar(fold, pattern, text, i, j);
    } else {
      RestUnfold(fold, pattern, text, i, j);
    }
  }

  /** `pattern[i..i + n]` matches `text[j..j + n]` character by character. */
  ghost predicate Aligned(g: Problem, i: nat, j: nat, n: nat) {
    && i + n <= |g.pattern|
    && j + n <= |g.text|
    && forall m | i <= m < i + n :: MatchesOne(g.fold, g.pattern[m], g.text[m - i + j])
  }

  /** A run of plain pattern characters consumes exactly as many text characters. */
  lemma {:induction false} PlainRun(g: Problem, i: nat, j: nat, n: nat)
    requires Lawful(g) && i + n <= |g.pattern| && j <= |g.text|
    requires forall m | i <= m < i + n :: g.pattern[m] != '*'
    requires (i, j) in g.good
    ensures Aligned(g, i, j, n) && (i + n, j + n) in g.good
    decreases n
  {
    if n > 0 {
      assert PlainLaw(g, i, j);
      PlainRun(g, i + 1, j + 1, n - 1);
    }
  }

  /**
   A segment aligned both at `j` and at a later `k` that is reachable from `j`
   without crossing a slash covers no slash after `j + n`: each slash under the
   later copy forces one further left, down to the slash-free gap.
   */
  lemma {:induction false} NoSlashBehind(g: Problem, i: nat, j: nat, k: nat, n: nat, q: nat)
    requires FoldKeepsSlash(g.fold)
    requires Aligned(g, i, j, n) && Aligned(g, i, k, n)
    requires j < k && NoSlash(g.text[j..k])
    requires j <= q < k + n
    ensures g.text[q] != '/'
    decreases q
  {
    if q < k {
      assert g.text[q] == g.text[j..k][q - j];
    } else {
      var m := q - k;
      assert MatchesOne(g.fold, g.pattern[i + m], g.text[q]) && MatchesOne(g.fold, g.pattern[i + m], g.text[j + m]);
      NoSlashBehind(g, i, j, k, n, j + m);
    }
  }

  /** So the newer star can stretch from `j + n` to whatever the older alternative reached. */
  lemma NoSlashUpTo(g: Problem, i: nat, j: nat, k: nat, n: nat, e: nat)
    requires FoldKeepsSlash(g.fold)
    requires Aligned(g, i, j, n) && Aligned(g, i, k, n)
    requires j < k && NoSlash(g.text[j..k])
    requires k + n <= e <= |g.text| && NoSlash(g.text[k + n..e])
    ensures NoSlash(g.text[j + n..e])
  {
    forall q | j + n <= q < e
      ensures g.text[q] != '/'
    {
      if q < k + n {
        NoSlashBehind(g, i, j, k, n, q);
      } else {
        assert g.text[q] == g.text[k + n..e][q - (k + n)];
      }
    }
  }

  /** Passing a star makes every older backtrack point redundant. */
  lemma NewestStarSuffices(g: Problem, i: nat, j: nat, k: nat, n: nat)
    requires FoldKeepsSlash(g.fold) && Lawful(g) && Aligned(g, i, j, n)
    requires i + n < |g.pattern| && g.pattern[i + n] == '*'
    requires j < k <= |g.text| && NoSlash(g.text[j..k]) && (i, k) in g.good
    ensures (i + n, j + n) in g.good
  {
    PlainRun(g, i, k, n);
    assert StarLaw(g, i + n, k + n) && StarLaw(g, i + n, j + n);
    var e :| k + n <= e <= |g.text| && NoSlash(g.text[k + n..e]) && (i + n + 1, e) in g.good;
    NoSlashUpTo(g, i, j, k, n, e);
  }

  /** At the end of the text only stars may remain. */
  lemma {:induction false} GoodAtEnd(g: Problem, i: nat)
    requires Lawful(g) && i <= |g.pattern|
    ensures (i, |g.text|) in g.good <==> forall m | i <= m < |g.pattern| :: g.pattern[m] == '*'
    decreases |g.pattern| - i
  {
    if i == |g.pattern| {
      assert EndLaw(g, |g.text|);
    } else {
      GoodAtEnd(g, i + 1);
      assert PlainLaw(g, i, |g.text|) && StarLaw(g, i, |g.text|);
      assert NoSlash(g.text[|g.text|..|g.text|]);
    }
  }

  // ----- one backtrack point -----

  /** The last star, if any. */
  datatype Backtrack = NoStar | Star(pattern: nat)

  /** The four positions the loop moves; `starText` is how far the star's run reached when it last advanced. */
  datatype Cursor = Cursor(patternIndex: nat, textIndex: nat, star: Backtrack, starText: nat)

  /** Some longer run of the star at `star` leads to a match. */
  ghost predicate LongerRunWorks(g: Problem, star: nat, starText: nat) {
    exists k | starText < k <= |g.text| :: NoSlash(g.text[starText..k]) && (star + 1, k) in g.good
  }

  lemma LongerRunShrinks(g: Problem, star: nat, starText: nat)
    requires starText < |g.text| && LongerRunWorks(g, star, starText)
    ensures g.text[starText] != '/'
    ensures (star + 1, starText + 1) in g.good || LongerRunWorks(g, star, starText + 1)
  {
    var k :| starText < k <= |g.text| && NoSlash(g.text[starText..k]) && (star + 1, k) in g.good;
    assert g.text[starText] == g.text[starText..k][0];
    if k > starText + 1 {
      assert g.text[starText + 1..k] == g.text[starText..k][1..];
    }
  }

  lemma LongerRunGrows(g: Problem, star: nat, starText: nat)
    requires starText < |g.text| && g.text[starText] != '/'
    requires (star + 1, starText + 1) in g.good || LongerRunWorks(g, star, starText + 1)
    ensures LongerRunWorks(g, star, starText)
  {
    if (star + 1, starText + 1) in g.good {
      assert g.text[starText..starText + 1] == [g.text[starText]];
    } else {
      var k :| starText + 1 < k <= |g.text| && NoSlash(g.text[starText + 1..k]) && (star + 1, k) in g.good;
      assert g.text[starText..k] == [g.text[starText]] + g.text[starText + 1..k];
    }
  }

  /** Entering a star: the runs of length zero and more are exactly the two alternatives left open. */
  lemma StarSplits(g: Problem, i: nat, j: nat)
    requires Lawful(g) && i < |g.pattern| && j <= |g.text| && g.pattern[i] == '*'
    ensures (i, j) in g.good <==> (i + 1, j) in g.good || LongerRunWorks(g, i, j)
  {
    assert StarLaw(g, i, j);
    assert NoSlash(g.text[j..j]);
  }

  ghost predicate BacktrackWorks(g: Problem, c: Cursor) {
    c.star.Star? && LongerRunWorks(g, c.star.pattern, c.starText)
  }

  /** Since the star at `i`, pattern and text have moved on in step. */
  ghost predicate Reached(g: Problem, i: nat, c: Cursor) {
    && i < c.patternIndex <= |g.pattern| && g.pattern[i] == '*'
    && c.starText <= c.textIndex
    && c.patternIndex - (i + 1) == c.textIndex - c.starText
    && Aligned(g, i + 1, c.starText, c.textIndex - c.starText)
  }

  /** The loop invariant: the text matches iff the current attempt or a longer run of the last star does. */
  ghost predicate Undecided(g: Problem, c: Cursor) {
    && c.patternIndex <= |g.pattern| && c.textIndex <= |g.text|
    && (c.star.NoStar? ==> c.starText == 0)
    && (c.star.Star? ==> Reached(g, c.star.pattern, c))
    && (((0, 0) in g.good) == ((c.patternIndex, c.textIndex) in g.good || BacktrackWorks(g, c)))
  }

  function AfterStar(c: Cursor): Cursor {
    Cursor(c.patternIndex + 1, c.textIndex, Star(c.patternIndex), c.textIndex)
  }

  function AfterPlain(c: Cursor): Cursor {
    Cursor(c.patternIndex + 1, c.textIndex + 1, c.star, c.starText)
  }

  function AfterFall(c: Cursor): Cursor
    requires c.star.Star?
  {
    Cursor(c.star.pattern + 1, c.starText + 1, c.star, c.starText + 1)
  }

  /** The run of the last star can take one more character. */
  predicate CanStretch(text: seq<char>, c: Cursor) {
    c.star.Star? && c.starText < |text| && text[c.starText] != '/'
  }

  lemma PassStar(g: Problem, c: Cursor)
    requires FoldKeepsSlash(g.fold) && Lawful(g) && Undecided(g, c)
    requires c.patternIndex < |g.pattern| && g.pattern[c.patternIndex] == '*'
    ensures Undecided(g, AfterStar(c))
  {
    StarSplits(g, c.patternIndex, c.textIndex);
    if BacktrackWorks(g, c) {
      var i, n := c.star.pattern + 1, c.textIndex - c.starText;
      var k :| c.starText < k <= |g.text| && NoSlash(g.text[c.starText..k]) && (i, k) in g.good;
      NewestStarSuffices(g, i, c.starText, k, n);
    }
  }

  lemma PassPlain(g: Problem, c: Cursor)
    requires Lawful(g) && Undecided(g, c)
    requires c.patternIndex < |g.pattern| && c.textIndex < |g.text|
    requires MatchesOne(g.fold, g.pattern[c.patternIndex], g.text[c.textIndex])
    ensures Undecided(g, AfterPlain(c))
  {
    assert PlainLaw(g, c.patternIndex, c.textIndex);
  }

  lemma Fall(g: Problem, c: Cursor)
    requires Lawful(g) && Undecided(g, c) && c.textIndex < |g.text|
    requires c.patternIndex < |g.pattern| ==>
               g.pattern[c.patternIndex] != '*' && !MatchesOne(g.fold, g.pattern[c.patternIndex], g.text[c.textIndex])
    ensures !CanStretch(g.text, c) ==> (0, 0) !in g.good
    ensures CanStretch(g.text, c) ==> Undecided(g, AfterFall(c))
  {
    if c.patternIndex < |g.pattern| {
      assert PlainLaw(g, c.patternIndex, c.textIndex);
    } else {
      assert EndLaw(g, c.textIndex);
    }
    if BacktrackWorks(g, c) {
      LongerRunShrinks(g, c.star.pattern, c.starText);
    } else if CanStretch(g.text, c) && (AfterFall(c).patternIndex, AfterFall(c).textIndex) in g.good {
      LongerRunGrows(g, c.star.pattern, c.starText);
    } else if CanStretch(g.text, c) && LongerRunWorks(g, c.star.pattern, c.starText + 1) {
      LongerRunGrows(g, c.star.pattern, c.starText);
    }
  }

  /** With the text used up, a longer run of the star would need more text than there is. */
  lemma TextUsedUp(g: Problem, c: Cursor)
    requires Lawful(g) && Undecided(g, c) && c.textIndex == |g.text|
    ensures (0, 0) in g.good <==> forall m | c.patternIndex <= m < |g.pattern| :: g.pattern[m] == '*'
  {
    GoodAtEnd(g, c.patternIndex);
    if BacktrackWorks(g, c) {
      var k :| c.starText < k <= |g.text| && NoSlash(g.text[c.starText..k]) && (c.star.pattern + 1, k) in g.good;
      PlainRun(g, c.star.pattern + 1, k, |g.text| - c.starText);
    }
  }

  /** Position in the search, one pattern length per text position of the star: it rises with every turn. */
  ghost function Progress(pattern: seq<char>, patternIndex: nat, starText: nat): nat {
    if starText == 0 then patternIndex else |pattern| + 1 + Progress(pattern, patternIndex, starText - 1)
  }

  lemma {:induction false} ProgressIs(pattern: seq<char>, patternIndex: nat, starText: nat)
    ensures Progress(pattern, patternIndex, starText) == starText * (|pattern| + 1) + patternIndex
  {
    if starText > 0 {
      ProgressIs(pattern, patternIndex, starText - 1);
      assert starText * (|pattern| + 1) == (starText - 1) * (|pattern| + 1) + |pattern| + 1;
    }
  }

  /** Every turn moves on, and there is room for (|text|+1)(|pattern|+1) turns. */
  lemma ProgressRises(pattern: seq<char>, text: seq<char>, patternIndex: nat, starText: nat,
                      nextPattern: nat, nextStar: nat)
    requires patternIndex <= |pattern| && nextPattern <= |pattern| && nextStar <= |text|
    requires (starText <= nextStar && patternIndex < nextPattern) || starText < nextStar
    ensures Progress(pattern, patternIndex, starText) < Progress(pattern, nextPattern, nextStar)
    ensures Progress(pattern, nextPattern, nextStar) < (|text| + 1) * (|pattern| + 1)
  {
    ProgressIs(pattern, patternIndex, starText);
    ProgressIs(pattern, nextPattern, nextStar);
    var w := |pattern| + 1;
    Scaled(starText, nextStar, w);
    Scaled(nextStar, |text|, w);
  }

  lemma Scaled(a: nat, b: nat, w: nat)
    requires a <= b
    ensures a * w <= b * w && (a < b ==> a * w + w <= b * w) && (b + 1) * w == b * w + w
  {
    assert b * w == a * w + (b - a) * w;
    if a < b {
      assert (b - a) * w == w + (b - a - 1) * w;
    }
  }

  ghost function ProgressAt(pattern: seq<char>, c: Cursor): nat {
    Progress(pattern, c.patternIndex, c.starText)
  }

  /** From `c` the search has moved on to `next` with the question still open. */
  ghost predicate Turned(g: Problem, c: Cursor, next: Cursor) {
    && Undecided(g, next)
    && ProgressAt(g.pattern, c) < ProgressAt(g.pattern, next) < (|g.text| + 1) * (|g.pattern| + 1)
  }

  lemma Turn(g: Problem, c: Cursor, next: Cursor)
    requires Undecided(g, c) && Undecided(g, next)
    requires (c.starText <= next.starText && c.patternIndex < next.patternIndex) || c.starText < next.starText
    ensures Turned(g, c, next)
  {
    ProgressRises(g.pattern, g.text, c.patternIndex, c.starText, next.patternIndex, next.starText);
  }

  /** One turn of the loop: pass a star, match a character, or fall back to the last star. */
  method Advance(fold: CaseFold, pattern: seq<char>, text: seq<char>, c: Cursor, ghost g: Problem)
    returns (failed: bool, next: Cursor)
    requires FoldKeepsSlash(fold) && Lawful(g) && g == Problem(fold, pattern, text, g.good)
    requires Undecided(g, c) && c.textIndex < |text|
    ensures failed ==> (0, 0) !in g.good
    ensures !failed ==> Turned(g, c, next)
  {
    if c.patternIndex < |pattern| && pattern[c.patternIndex] == '*' {
      PassStar(g, c);
      Turn(g, c, AfterStar(c));
      return false, AfterStar(c);
    }
    if c.patternIndex < |pattern|
       && ((pattern[c.patternIndex] == '?' && text[c.textIndex] != '/')
           || (pattern[c.patternIndex] != '?' && fold(pattern[c.patternIndex]) == fold(text[c.textIndex]))) {
      PassPlain(g, c);
      Turn(g, c, AfterPlain(c));
      return false, AfterPlain(c);
    }
    Fall(g, c);
    if c.star.NoStar? || text[c.starText] == '/' {
      return true, c;
    }
    Turn(g, c, AfterFall(c));
    return false, AfterFall(c);
  }

  /** The matcher decides the declarative meaning, in at most (|text|+1)(|pattern|+1) turns. */
  method MatchGlob(fold: CaseFold, pattern: seq<char>, text: seq<char>) returns (matched: bool, ghost turns: nat)
    requires FoldKeepsSlash(fold)
    ensures matched <==> Matches(fold, pattern, text)
    ensures turns <= (|text| + 1) * (|pattern| + 1)
  {
    ghost var g := Solve(fold, pattern, text);
    SolvedIsLawful(fold, pattern, text);
    var c := Cursor(0, 0, NoStar, 0);
    turns := 0;
    ghost var room := (|text| + 1) * (|pattern| + 1);
    while c.textIndex < |text|
      invariant Undecided(g, c)
      invariant turns <= ProgressAt(pattern, c) < room
      decreases room - ProgressAt(pattern, c)
    {
      turns := turns + 1;
      var failed;
      failed, c := Advance(fold, pattern, text, c, g);
      if failed {
        return false, turns;
      }
    }
    TextUsedUp(g, c);
    var patternIndex := c.patternIndex;
    while patternIndex < |pattern| && pattern[patternIndex] == '*'
      invariant c.patternIndex <= patternIndex <= |pattern|
      invariant forall m | c.patternIndex <= m < patternIndex :: pattern[m] == '*'
    {
      patternIndex := patternIndex + 1;
    }
    matched := patternIndex == |pattern|;
  }
}
