/** The complexity score of `HybridAgent._assess_complexity`, as a pure
    specification. Every weight of the source is a multiple of 0.1, so the
    score is counted here in tenths: 10, 15, 20 or 25 per pattern match, 1 per
    word, 2 per special character, 15 per tool category, capped at 100 (the
    source's 10.0); the dispatch threshold 3.0 is 30. */
module Complexity {
  import opened PyValues
  import opened Text

  /** A piece of a regular expression of the operations table: a literal
      string, or `\s+` (one or more whitespace characters, taken greedily). */
  datatype Token = Lit(text: string) | Spaces

  /** One alternative of a `|`-separated regular expression. */
  type Alternative = seq<Token>

  /** One row of the operations table: the alternatives of its regular
      expression in source order, and its weight in tenths. */
  datatype Row = Row(alternatives: seq<Alternative>, weight: nat)

  const Operations: seq<Row> := [
    Row([[Lit("calculate")], [Lit("compute")], [Lit("evaluate")]], 10),
    Row([[Lit("search")], [Lit("find")], [Lit("look up")]], 10),
    Row([[Lit("count"), Spaces, Lit("text")], [Lit("process"), Spaces, Lit("text")],
         [Lit("analyze"), Spaces, Lit("text")], [Lit("transform"), Spaces, Lit("text")]], 10),
    Row([[Lit("run"), Spaces, Lit("code")], [Lit("execute")]], 15),
    Row([[Lit("compare")], [Lit("contrast")], [Lit("evaluate")]], 20),
    Row([[Lit("optimize")], [Lit("improve")], [Lit("enhance")]], 25),
    Row([[Lit("and")], [Lit("then")], [Lit("after")], [Lit("before")]], 10),
    Row([[Lit("if")], [Lit("when")], [Lit("unless")], [Lit("otherwise")]], 15),
    Row([[Lit("all")], [Lit("every")], [Lit("each")]], 10),
    Row([[Lit("most")], [Lit("best")], [Lit("optimal")]], 15)
  ]

  /** The keyword lists of the four tool categories: calculator, search,
      text and code. */
  const ToolKeywords: seq<seq<string>> := [
    ["calculate", "compute", "evaluate", "math"],
    ["search", "find", "look up", "query"],
    ["text", "string", "characters", "words"],
    ["code", "execute", "run", "python"]
  ]

  const WordWeight: nat := 1
  const SpecialWeight: nat := 2
  const CategoryWeight: nat := 15
  const MaxScore: nat := 100
  /** Scores below this go to single-agent mode. */
  const Threshold: nat := 30

  /** No alternative is empty and no literal is the empty string, so every
      match consumes at least one character. */
  predicate WellFormedTokens(toks: seq<Token>) {
    forall k :: 0 <= k < |toks| ==> toks[k] != Lit("")
  }

  predicate WellFormed(alts: seq<Alternative>) {
    forall k :: 0 <= k < |alts| ==> alts[k] != [] && WellFormedTokens(alts[k])
  }

  predicate WellFormedTable(rows: seq<Row>) {
    forall k :: 0 <= k < |rows| ==> WellFormed(rows[k].alternatives)
  }

  /** End of the maximal run of whitespace of `s` that starts at `i`. */
  function SpaceRun(s: string, i: nat): (j: nat)
    requires i <= |s|
    ensures i <= j <= |s|
    ensures forall k :: i <= k < j ==> IsSpace(s[k])
    ensures j < |s| ==> !IsSpace(s[j])
    decreases |s| - i
  {
    if i < |s| && IsSpace(s[i]) then SpaceRun(s, i + 1) else i
  }

  /** Matches the token sequence against `s` from index `i`; the end of the
      match, or None. */
  function MatchTokens(toks: seq<Token>, s: string, i: nat): (r: Option<nat>)
    requires i <= |s|
    ensures r.Some? ==> i <= r.value <= |s|
    ensures r.Some? && toks != [] && WellFormedTokens(toks) ==> i < r.value
    decreases |toks|
  {
    if toks == [] then Some(i)
    else
      match toks[0]
      case Lit(w) =>
        if OccursAt(w, s, i) then MatchTokens(toks[1..], s, i + |w|) else None
      case Spaces =>
        var j := SpaceRun(s, i);
        if i < j then MatchTokens(toks[1..], s, j) else None
  }

  /** The end of the match of the first alternative, in order, that matches
      at index `i`: how a regular expression `a|b|c` chooses. */
  function MatchAt(alts: seq<Alternative>, s: string, i: nat): (r: Option<nat>)
    requires i <= |s|
    ensures r.Some? ==> i <= r.value <= |s|
    ensures r.Some? && WellFormed(alts) ==> i < r.value
  {
    if alts == [] then None
    else
      match MatchTokens(alts[0], s, i)
      case Some(j) => Some(j)
      case None => MatchAt(alts[1..], s, i)
  }

  /** Number of non-overlapping matches found by scanning `s` left to right
      from `i`, resuming after each match: `len(re.findall(...))`. */
  function CountFrom(alts: seq<Alternative>, s: string, i: nat): nat
    requires WellFormed(alts)
    requires i <= |s|
    decreases |s| - i
  {
    if i == |s| then 0
    else
      match MatchAt(alts, s, i)
      case Some(j) => 1 + CountFrom(alts, s, j)
      case None => CountFrom(alts, s, i + 1)
  }

  function Matches(alts: seq<Alternative>, s: string): nat
    requires WellFormed(alts)
  {
    CountFrom(alts, s, 0)
  }

  /** Sum over the rows of weight times number of matches in `s`. */
  function PatternScore(rows: seq<Row>, s: string): nat
    requires WellFormedTable(rows)
  {
    if rows == [] then 0
    else
      var last := rows[|rows| - 1];
      PatternScore(rows[..|rows| - 1], s) + last.weight * Matches(last.alternatives, s)
  }

  /** Every match consumes at least one character, so a scan from `i`
      finds at most `|s| - i` matches. */
  lemma {:induction false} CountFromBound(alts: seq<Alternative>, s: string, i: nat)
    requires WellFormed(alts)
    requires i <= |s|
    ensures CountFrom(alts, s, i) <= |s| - i
    decreases |s| - i
  {
    if i < |s| {
      match MatchAt(alts, s, i)
      case Some(j) => CountFromBound(alts, s, j);
      case None => CountFromBound(alts, s, i + 1);
    }
  }

  /** The pattern matches at `i` as soon as one of its alternatives does. */
  lemma {:induction false} AlternativeMatches(alts: seq<Alternative>, s: string, i: nat, k: nat)
    requires i <= |s|
    requires k < |alts|
    requires MatchTokens(alts[k], s, i).Some?
    ensures MatchAt(alts, s, i).Some?
  {
    if k > 0 && MatchTokens(alts[0], s, i).None? {
      AlternativeMatches(alts[1..], s, i, k - 1);
    }
  }

  /** A match at the start of the scan is counted. */
  lemma MatchIsCounted(alts: seq<Alternative>, s: string, i: nat)
    requires WellFormed(alts)
    requires i < |s|
    requires MatchAt(alts, s, i).Some?
    ensures CountFrom(alts, s, i) >= 1
  {
  }

  /** Positions where no alternative matches add nothing: the scan moves
      over them. */
  lemma {:induction false} NoMatchSkips(alts: seq<Alternative>, s: string, i: nat, j: nat)
    requires WellFormed(alts)
    requires i <= j <= |s|
    requires forall k: nat :: i <= k < j ==> MatchAt(alts, s, k).None?
    ensures CountFrom(alts, s, i) == CountFrom(alts, s, j)
    decreases j - i
  {
    if i < j {
      assert MatchAt(alts, s, i).None?;
      NoMatchSkips(alts, s, i + 1, j);
    }
  }

  /** The leftmost match from the scan position is counted once, and the scan
      resumes at its end. */
  lemma FirstMatchCounted(alts: seq<Alternative>, s: string, i: nat, k: nat)
    requires WellFormed(alts)
    requires i <= k < |s|
    requires forall m: nat :: i <= m < k ==> MatchAt(alts, s, m).None?
    requires MatchAt(alts, s, k).Some?
    ensures CountFrom(alts, s, i) == 1 + CountFrom(alts, s, MatchAt(alts, s, k).value)
  {
    NoMatchSkips(alts, s, i, k);
  }

  /** Rows are scored independently: every row contributes its weight times
      its own number of matches, even when two rows match the same text. */
  lemma {:induction false} RowsContribute(rows: seq<Row>, s: string, j: nat, k: nat)
    requires WellFormedTable(rows)
    requires j < k < |rows|
    ensures PatternScore(rows, s)
      >= rows[j].weight * Matches(rows[j].alternatives, s) + rows[k].weight * Matches(rows[k].alternatives, s)
  {
    var init := rows[..|rows| - 1];
    assert forall m :: 0 <= m < |init| ==> init[m] == rows[m];
    if k < |rows| - 1 {
      RowsContribute(init, s, j, k);
    } else {
      RowContributes(init, s, j);
    }
  }

  lemma {:induction false} RowContributes(rows: seq<Row>, s: string, j: nat)
    requires WellFormedTable(rows)
    requires j < |rows|
    ensures PatternScore(rows, s) >= rows[j].weight * Matches(rows[j].alternatives, s)
  {
    var init := rows[..|rows| - 1];
    assert forall m :: 0 <= m < |init| ==> init[m] == rows[m];
    if j < |rows| - 1 {
      RowContributes(init, s, j);
    }
  }

  /** "evaluate" is an alternative of the first row (weight 1.0) and of the
      fifth (weight 2.0), so a task that starts with it scores at least 3.0
      from the pattern table alone. */
  lemma EvaluateCountsTwice(s: string)
    requires "evaluate" <= s
    ensures PatternScore(Operations, s) >= 30
  {
    OperationsWellFormed();
    var row1 := Operations[0].alternatives;
    var row5 := Operations[4].alternatives;
    assert OccursAt("evaluate", s, 0);
    assert MatchTokens(row1[2], s, 0) == Some(8);
    AlternativeMatches(row1, s, 0, 2);
    MatchIsCounted(row1, s, 0);
    assert MatchTokens(row5[2], s, 0) == Some(8);
    AlternativeMatches(row5, s, 0, 2);
    MatchIsCounted(row5, s, 0);
    RowsContribute(Operations, s, 0, 4);
  }

  /** A character that is neither alphanumeric nor whitespace. */
  predicate IsSpecial(c: char) {
    !IsAlnum(c) && !IsSpace(c)
  }

  function SpecialCount(s: string): nat {
    if s == [] then 0 else (if IsSpecial(s[0]) then 1 else 0) + SpecialCount(s[1..])
  }

  /** `any(kw in s for kw in keywords)` */
  function AnyKeyword(keywords: seq<string>, s: string): bool {
    keywords != [] && (IsSubstring(keywords[0], s) || AnyKeyword(keywords[1..], s))
  }

  /** Number of categories with at least one keyword in `s`. */
  function CategoryHits(categories: seq<seq<string>>, s: string): nat {
    if categories == [] then 0
    else
      CategoryHits(categories[..|categories| - 1], s)
      + (if AnyKeyword(categories[|categories| - 1], s) then 1 else 0)
  }

  lemma OperationsWellFormed()
    ensures WellFormedTable(Operations)
  {
  }

  /** The score before the cap. */
  function RawScore(task: string): nat {
    OperationsWellFormed();
    PatternScore(Operations, Lower(task))
    + WordWeight * |Split(task)|
    + SpecialWeight * SpecialCount(task)
    + CategoryWeight * CategoryHits(ToolKeywords, Lower(task))
  }

  /** `_assess_complexity(task)`, in tenths. */
  function Score(task: string): nat {
    if RawScore(task) < MaxScore then RawScore(task) else MaxScore
  }

  /** The score lies between 0.0 and 10.0. */
  lemma ScoreInRange(task: string)
    ensures 0 <= Score(task) <= MaxScore
    ensures RawScore(task) <= MaxScore ==> Score(task) == RawScore(task)
  {
  }

  lemma {:induction false} NothingMatchesEmpty(rows: seq<Row>)
    requires WellFormedTable(rows)
    ensures PatternScore(rows, "") == 0
  {
    if rows != [] {
      NothingMatchesEmpty(rows[..|rows| - 1]);
    }
  }

  lemma {:induction false} NoKeywordInEmpty(keywords: seq<string>)
    requires forall k :: 0 <= k < |keywords| ==> keywords[k] != ""
    ensures !AnyKeyword(keywords, "")
  {
    if keywords != [] {
      NoKeywordInEmpty(keywords[1..]);
    }
  }

  lemma {:induction false} NoCategoryInEmpty(categories: seq<seq<string>>)
    requires forall c, k :: 0 <= c < |categories| && 0 <= k < |categories[c]| ==> categories[c][k] != ""
    ensures CategoryHits(categories, "") == 0
  {
    if categories != [] {
      NoKeywordInEmpty(categories[|categories| - 1]);
      NoCategoryInEmpty(categories[..|categories| - 1]);
    }
  }

  /** The empty task scores 0.0. */
  lemma EmptyTaskScoresZero()
    ensures Score("") == 0
  {
    OperationsWellFormed();
    assert Lower("") == "";
    NothingMatchesEmpty(Operations);
    NoCategoryInEmpty(ToolKeywords);
  }

  /** `any(...)` holds exactly when one of the keywords is a substring. */
  lemma {:induction false} AnyKeywordIff(keywords: seq<string>, s: string)
    ensures AnyKeyword(keywords, s) <==> exists k :: 0 <= k < |keywords| && IsSubstring(keywords[k], s)
  {
    if keywords != [] {
      AnyKeywordIff(keywords[1..], s);
      if AnyKeyword(keywords[1..], s) {
        var k :| 0 <= k < |keywords[1..]| && IsSubstring(keywords[1..][k], s);
        assert IsSubstring(keywords[k + 1], s);
      }
      if k :| 0 <= k < |keywords| && IsSubstring(keywords[k], s) {
        if k > 0 {
          assert IsSubstring(keywords[1..][k - 1], s);
        }
      }
    }
  }

  /** At most one 1.5 per category: the tool signal is at most 4 x 1.5. */
  lemma {:induction false} CategoryHitsBound(categories: seq<seq<string>>, s: string)
    ensures CategoryHits(categories, s) <= |categories|
  {
    if categories != [] {
      CategoryHitsBound(categories[..|categories| - 1], s);
    }
  }

  /** The tool signal depends only on WHICH categories are hit, not on how
      many keywords of a category occur or how often. */
  lemma {:induction false} CategoryHitsOnlyWhich(categories: seq<seq<string>>, s: string, t: string)
    requires forall k :: 0 <= k < |categories| ==> (AnyKeyword(categories[k], s) <==> AnyKeyword(categories[k], t))
    ensures CategoryHits(categories, s) == CategoryHits(categories, t)
  {
    if categories != [] {
      var init := categories[..|categories| - 1];
      assert forall k :: 0 <= k < |init| ==> init[k] == categories[k];
      CategoryHitsOnlyWhich(init, s, t);
    }
  }

  /** No tool signal exactly when no keyword of any category occurs. */
  lemma {:induction false} CategoryHitsZeroIff(categories: seq<seq<string>>, s: string)
    ensures CategoryHits(categories, s) == 0 <==> forall k :: 0 <= k < |categories| ==> !AnyKeyword(categories[k], s)
  {
    if categories != [] {
      var init := categories[..|categories| - 1];
      assert forall k :: 0 <= k < |init| ==> init[k] == categories[k];
      CategoryHitsZeroIff(init, s);
    }
  }

  /** The punctuation signal is additive over concatenation. */
  lemma {:induction false} SpecialCountAppend(a: string, b: string)
    ensures SpecialCount(a + b) == SpecialCount(a) + SpecialCount(b)
  {
    if a == [] {
      assert a + b == b;
    } else {
      assert (a + b)[0] == a[0];
      assert (a + b)[1..] == a[1..] + b;
      SpecialCountAppend(a[1..], b);
    }
  }

  /** The punctuation signal counts each character at most once. */
  lemma {:induction false} SpecialCountBound(s: string)
    ensures SpecialCount(s) <= |s|
  {
    if s != [] {
      SpecialCountBound(s[1..]);
    }
  }
}
