/**
 * The result view (components/OutputDisplay.tsx): the rubric rows are sorted in place by
 * score, highest first, and `copyToClipboard` serialises the whole result as markdown
 * with four sections in a fixed order, trimmed, and reports success or failure.
 */
module OutputDisplay {
  import opened Text
  import opened Types

  // ---------------------------------------------------------------------------
  // Sorting the rubric rows

  /** The order `sort` leaves the rows in: every score at or below the one before it. */
  predicate SortedByScoreDesc(s: seq<RubricLevel>) {
    forall k :: 0 < k < |s| ==> Le(s[k].score, s[k - 1].score)
  }

  /** In a sorted row list, any later score is at or below any earlier one. */
  lemma {:induction false} SortedPairwise(s: seq<RubricLevel>, i: int, j: int)
    requires SortedByScoreDesc(s) && 0 <= i <= j < |s|
    ensures Le(s[j].score, s[i].score)
    decreases j - i
  {
    if i < j {
      SortedPairwise(s, i, j - 1);
      LeTransitive(s[j].score, s[j - 1].score, s[i].score);
    }
  }

  /**
   * `levels.sort((a, b) => b.score.localeCompare(a.score))`, in place: the array ends up
   * sorted by score, highest first, and holds the same rows as before.
   */
  method SortByScoreDesc(a: array<RubricLevel>)
    modifies a
    ensures SortedByScoreDesc(a[..])
    ensures multiset(a[..]) == multiset(old(a[..]))
  {
    var i := 0;
    while i < a.Length
      invariant 0 <= i <= a.Length
      invariant forall k :: 0 < k < i ==> Le(a[k].score, a[k - 1].score)
      invariant multiset(a[..]) == multiset(old(a[..]))
    {
      SinkRow(a, i);
      i := i + 1;
    }
  }

  /**
   * Halfway through an insertion step that moves the row now at `j` down: the rows up to
   * `i` are sorted except around `j`, the rows that bridge `j` are in order, and the row
   * after `j` is at or below the moving one.
   */
  predicate Sinking(s: seq<RubricLevel>, i: int, j: int)
    requires 0 <= j <= i < |s|
  {
    (forall k :: 0 < k <= i && k != j && k != j + 1 ==> Le(s[k].score, s[k - 1].score))
    && (0 < j < i ==> Le(s[j + 1].score, s[j - 1].score))
    && (j < i ==> Le(s[j + 1].score, s[j].score))
  }

  /** Swapping the moving row with a lower-scored predecessor keeps the step's shape, one place down. */
  lemma SinkingSwap(s: seq<RubricLevel>, i: int, j: int)
    requires 0 < j <= i < |s| && Sinking(s, i, j) && Less(s[j - 1].score, s[j].score)
    ensures Sinking(s[j - 1 := s[j]][j := s[j - 1]], i, j - 1)
  {
  }

  /** Swapping two neighbours keeps the rows, only their order changes. */
  lemma SwapKeepsRows<T>(s: seq<T>, j: int)
    requires 0 < j < |s|
    ensures multiset(s[j - 1 := s[j]][j := s[j - 1]]) == multiset(s)
  {
    var front, back := s[..j - 1], s[j + 1..];
    assert s == front + [s[j - 1], s[j]] + back;
    assert s[j - 1 := s[j]][j := s[j - 1]] == front + [s[j], s[j - 1]] + back;
    assert multiset([s[j - 1], s[j]]) == multiset([s[j], s[j - 1]]);
  }

  /** A finished step: the moving row has reached the front or a row that is not lower. */
  lemma SinkingDone(s: seq<RubricLevel>, i: int, j: int)
    requires 0 <= j <= i < |s| && Sinking(s, i, j) && (j == 0 || !Less(s[j - 1].score, s[j].score))
    ensures forall k :: 0 < k <= i ==> Le(s[k].score, s[k - 1].score)
  {
    if j > 0 {
      NotLessIsLe(s[j - 1].score, s[j].score);
    }
  }

  /**
   * One insertion step: with the rows before `i` sorted, move row `i` down past every row
   * whose score is lower, so that the rows up to `i` are sorted.
   */
  method SinkRow(a: array<RubricLevel>, i: int)
    requires 0 <= i < a.Length
    requires forall k :: 0 < k < i ==> Le(a[k].score, a[k - 1].score)
    modifies a
    ensures forall k :: 0 < k <= i ==> Le(a[k].score, a[k - 1].score)
    ensures multiset(a[..]) == multiset(old(a[..]))
  {
    var j := i;
    while j > 0 && Less(a[j - 1].score, a[j].score)
      invariant 0 <= j <= i
      invariant Sinking(a[..], i, j)
      invariant multiset(a[..]) == multiset(old(a[..]))
    {
      ghost var before := a[..];
      ghost var swapped := before[j - 1 := before[j]][j := before[j - 1]];
      SinkingSwap(before, i, j);
      SwapKeepsRows(before, j);
      a[j - 1], a[j] := a[j], a[j - 1];
      assert a[..] == swapped;
      j := j - 1;
    }
    SinkingDone(a[..], i, j);
  }

  /**
   * With the scores the prompt asks for, 3점, 2점 and 1점, the sorted rows are those of
   * 상, 중 and 하, in that order, whatever order they arrived in.
   */
  lemma StandardLevelsSortHighFirst(s: seq<RubricLevel>, high: RubricLevel, medium: RubricLevel, low: RubricLevel)
    requires high.score == "3점" && medium.score == "2점" && low.score == "1점"
    requires high.level == High && medium.level == Medium && low.level == Low
    requires multiset(s) == multiset([high, medium, low])
    requires SortedByScoreDesc(s)
    ensures s == [high, medium, low]
    ensures [s[0].level.Tag(), s[1].level.Tag(), s[2].level.Tag()] == ["상", "중", "하"]
  {
    assert |s| == 3 by {
      assert |multiset(s)| == |s|;
    }
    forall k | 0 <= k < 3
      ensures s[k] == high || s[k] == medium || s[k] == low
    {
      assert s[k] in multiset(s);
    }
    assert high in multiset(s) && medium in multiset(s) && low in multiset(s);
    SortedPairwise(s, 0, 2);
    LessIrreflexive("1점");
    LessIrreflexive("2점");
    LessIrreflexive("3점");
    assert Less("2점", "3점") && Less("1점", "2점") && Less("1점", "3점");
    LessAsymmetric("2점", "3점");
    LessAsymmetric("1점", "2점");
    LessAsymmetric("1점", "3점");
  }

  // ---------------------------------------------------------------------------
  // The markdown text

  /** A markdown table row: the cells between pipes, padded with one space on each side. */
  function MarkdownRow(cells: seq<string>): string {
    "| " + Join(cells, " | ") + " |"
  }

  /** The rubric header: level, score, then one column per criterion. */
  function RubricHeader(criteria: seq<string>): string {
    "| 수준 | 배점 | " + Join(criteria, " | ") + " |"
  }

  /** The cells of a rubric row after the level and score columns: an empty cell stands for none. */
  function TrailingCells(cells: seq<string>): (r: seq<string>)
    ensures r != []
  {
    if cells == [] then [""] else cells
  }

  /** Two leading cells in front of the rest, as a markdown row. */
  lemma RowShape(a: string, b: string, rest: seq<string>)
    ensures "| " + a + " | " + b + " | " + Join(rest, " | ") + " |" == MarkdownRow([a, b] + TrailingCells(rest))
  {
    JoinCons2(a, b, TrailingCells(rest), " | ");
  }

  /**
   * The header has the cells 수준, 배점 and then the criteria in order; without criteria
   * it has one empty third cell.
   */
  lemma RubricHeaderCells(criteria: seq<string>)
    ensures RubricHeader(criteria) == MarkdownRow(["수준", "배점"] + TrailingCells(criteria))
  {
    RowShape("수준", "배점", criteria);
  }

  /** `n` separator cells. */
  function Dashes(n: nat): (r: seq<string>)
    ensures |r| == n && forall i :: 0 <= i < n ==> r[i] == "---"
  {
    seq(n, _ => "---")
  }

  /** The separator line under the header: two fixed cells, then one per criterion. */
  function RubricSeparator(criteria: seq<string>): string {
    "|---|---|" + Join(Dashes(|criteria|), "|") + "|"
  }

  /**
   * The separator has as many cells as the header: one `---` per column when there are
   * criteria, and two `---` cells and one empty cell, like the header's, when there are none.
   */
  lemma RubricSeparatorCells(criteria: seq<string>)
    ensures criteria != [] ==> RubricSeparator(criteria) == "|" + Join(Dashes(2 + |criteria|), "|") + "|"
    ensures criteria == [] ==> RubricSeparator(criteria) == "|" + Join(["---", "---", ""], "|") + "|"
  {
    var n := |criteria|;
    if n > 0 {
      assert Dashes(2 + n) == ["---", "---"] + Dashes(n);
      JoinCons2("---", "---", Dashes(n), "|");
    } else {
      JoinCons2("---", "---", [""], "|");
    }
  }

  /** One rubric row: the level's tag, its score, then its descriptions. */
  function RubricRow(level: RubricLevel): (r: string)
    ensures |r| >= 4 && r[..2] == "| " && r[|r| - 2..] == " |"
  {
    "| " + level.level.Tag() + " | " + level.score + " | " + Join(level.descriptions, " | ") + " |"
  }

  lemma RubricRowCells(level: RubricLevel)
    ensures RubricRow(level) == MarkdownRow([level.level.Tag(), level.score] + TrailingCells(level.descriptions))
  {
    RowShape(level.level.Tag(), level.score, level.descriptions);
  }

  /** One row per level, in the order given. */
  function RowLines(levels: seq<RubricLevel>): (r: seq<string>)
    ensures |r| == |levels| && forall i :: 0 <= i < |levels| ==> r[i] == RubricRow(levels[i])
  {
    seq(|levels|, i requires 0 <= i < |levels| => RubricRow(levels[i]))
  }

  /** The rows, one line per level in the order given. */
  function RubricRows(levels: seq<RubricLevel>): string {
    Join(RowLines(levels), "\n")
  }

  /** The rows keep the order of the levels: two lists give their lines one after the other. */
  lemma RubricRowsConcat(xs: seq<RubricLevel>, ys: seq<RubricLevel>)
    requires xs != [] && ys != []
    ensures RubricRows(xs + ys) == RubricRows(xs) + "\n" + RubricRows(ys)
  {
    assert RowLines(xs + ys) == RowLines(xs) + RowLines(ys);
    JoinAppend(RowLines(xs), RowLines(ys), "\n");
  }

  /**
   * In a rubric whose levels each carry one description per criterion, every row has
   * exactly as many cells as the header.
   */
  lemma AlignedRowsFitHeader(rubric: Rubric, i: int)
    requires rubric.Aligned() && 0 <= i < |rubric.levels|
    ensures var level := rubric.levels[i];
            var cells := [level.level.Tag(), level.score] + TrailingCells(level.descriptions);
            RubricRow(level) == MarkdownRow(cells)
            && |cells| == |["수준", "배점"] + TrailingCells(rubric.criteria)|
  {
    RubricRowCells(rubric.levels[i]);
  }

  /** An example answer: the question as a third-level heading, a blank line, the answer. */
  function AnswerBlock(answer: ExampleAnswer): string {
    "### " + answer.question + "\n\n" + answer.answer
  }

  function AnswerBlocks(answers: seq<ExampleAnswer>): (r: seq<string>)
    ensures |r| == |answers| && forall i :: 0 <= i < |answers| ==> r[i] == AnswerBlock(answers[i])
  {
    seq(|answers|, i requires 0 <= i < |answers| => AnswerBlock(answers[i]))
  }

  /** The example answers, one block each, separated by a blank line. */
  function AnswersText(answers: seq<ExampleAnswer>): string {
    Join(AnswerBlocks(answers), "\n\n")
  }

  /** The blocks keep the order of the answers: two lists give their texts one after the other. */
  lemma AnswersTextConcat(xs: seq<ExampleAnswer>, ys: seq<ExampleAnswer>)
    requires xs != [] && ys != []
    ensures AnswersText(xs + ys) == AnswersText(xs) + "\n\n" + AnswersText(ys)
  {
    assert AnswerBlocks(xs + ys) == AnswerBlocks(xs) + AnswerBlocks(ys);
    JoinAppend(AnswerBlocks(xs), AnswerBlocks(ys), "\n\n");
  }

  /** A single answer is exactly its block. */
  lemma AnswersTextSingle(x: ExampleAnswer)
    ensures AnswersText([x]) == "### " + x.question + "\n\n" + x.answer
  {
  }

  /** A section of the copied text: a second-level heading, a blank line, the body. */
  function Section(heading: string, body: string): string {
    "## " + heading + "\n\n" + body
  }

  /** A section begins with its heading line. */
  lemma SectionHeading(heading: string, body: string)
    ensures OccursAt(Section(heading, body), "## " + heading, 0)
    ensures Section(heading, body)[0] == '#'
  {
    var s := Section(heading, body);
    assert s[0..|"## " + heading|] == "## " + heading;
  }

  /** A section with a body ends where its body ends. */
  lemma SectionLast(heading: string, body: string)
    requires body != []
    ensures var s := Section(heading, body); s[|s| - 1] == body[|body| - 1]
  {
  }

  const CriteriaHeading := "평가기준안"
  const RubricHeading := "채점기준"
  const AnswersHeading := "예시 답안"
  const SummaryHeading := "종합 평가 기준"

  /** The criteria sheet as a two-column table; the competencies are joined by commas. */
  function CriteriaTable(c: AssessmentCriteria): string {
    "| 항목 | 내용 |\n|---|---|\n| 단원 | " + c.unit
    + " |\n| 평가 영역 | " + c.assessmentArea
    + " |\n| 평가 시기 | " + c.assessmentPeriod
    + " |\n| 평가 방법 | " + c.assessmentMethod
    + " |\n| 성취기준 | " + c.achievementStandard
    + " |\n| 교과역량 | " + Join(c.subjectCompetencies, ", ")
    + " |\n| 평가 요소 | " + c.assessmentElements + " |"
  }

  /** The rubric table: header, separator and rows. */
  function RubricTable(r: Rubric): string {
    RubricHeader(r.criteria) + "\n" + RubricSeparator(r.criteria) + "\n" + RubricRows(r.levels)
  }

  /** The total-score bands of the three levels. */
  function SummaryTable(s: ScoringSummary): (r: string)
    ensures r != [] && r[|r| - 1] == '|'
  {
    "| 수준 | 총점 |\n|---|---|\n| 상 | " + s.high
    + " |\n| 중 | " + s.medium
    + " |\n| 하 | " + s.low + " |"
  }

  /** `summaryText`: the fourth section inside the template's line break and indentation. */
  function SummaryText(s: ScoringSummary): string {
    "\n" + Section(SummaryHeading, SummaryTable(s)) + Indent
  }

  const Indent := "\n        "

  /** `textToCopy` before trimming: the template with its four sections in place. */
  function RawCopyText(data: GeneratedData): (r: string)
    ensures |r| > |Indent| && r[0] == '\n' && r[|r| - |Indent|..] == Indent
  {
    "\n" + Section(CriteriaHeading, CriteriaTable(data.criteria))
    + "\n\n" + Section(RubricHeading, RubricTable(data.rubric))
    + "\n\n" + Section(AnswersHeading, AnswersText(data.exampleAnswers))
    + "\n\n" + SummaryText(data.scoringSummary) + Indent
  }

  /** The text written to the clipboard: `textToCopy.trim()`. */
  function CopyText(data: GeneratedData): (r: string)
    ensures r == [] || TightlyBounded(r)
  {
    Trim(RawCopyText(data))
  }

  /**
   * Trimming the template: the first line break and the closing indentation go, and
   * the four parts are left with the separators between them.
   */
  lemma TrimTemplate(s1: string, s2: string, s3: string, s4: string, w: string)
    requires s1 != [] && !IsWhitespace(s1[0]) && s4 != [] && !IsWhitespace(s4[|s4| - 1]) && AllWhitespace(w)
    ensures Trim("\n" + s1 + "\n\n" + s2 + "\n\n" + s3 + "\n\n" + ("\n" + s4 + w) + w)
         == s1 + "\n\n" + s2 + "\n\n" + s3 + "\n\n\n" + s4
  {
    var core := s1 + "\n\n" + s2 + "\n\n" + s3 + "\n\n\n" + s4;
    assert "\n" + s1 + "\n\n" + s2 + "\n\n" + s3 + "\n\n" + ("\n" + s4 + w) + w == "\n" + core + (w + w);
    assert core[0] == s1[0] && core[|core| - 1] == s4[|s4| - 1];
    assert AllWhitespace("\n");
    TrimPadded("\n", core, w + w);
  }

  /**
   * The copied text is the four sections in the order 평가기준안, 채점기준, 예시 답안,
   * 종합 평가 기준: the first three separated by a blank line, the last by two, and no
   * whitespace before the first heading or after the last table row.
   */
  lemma CopyTextSections(data: GeneratedData)
    ensures CopyText(data) ==
              Section(CriteriaHeading, CriteriaTable(data.criteria)) + "\n\n"
              + Section(RubricHeading, RubricTable(data.rubric)) + "\n\n"
              + Section(AnswersHeading, AnswersText(data.exampleAnswers)) + "\n\n\n"
              + Section(SummaryHeading, SummaryTable(data.scoringSummary))
  {
    SectionHeading(CriteriaHeading, CriteriaTable(data.criteria));
    SectionLast(SummaryHeading, SummaryTable(data.scoringSummary));
    assert AllWhitespace(Indent);
    TrimTemplate(Section(CriteriaHeading, CriteriaTable(data.criteria)),
                 Section(RubricHeading, RubricTable(data.rubric)),
                 Section(AnswersHeading, AnswersText(data.exampleAnswers)),
                 Section(SummaryHeading, SummaryTable(data.scoringSummary)), Indent);
  }

  const CopiedMessage := "복사되었습니다!"
  const CopyFailedMessage := "복사에 실패했습니다."

  // ---------------------------------------------------------------------------
  // The component's state

  /**
   * The mounted view: the result it was given, whose rubric rows live in an array that
   * sorting reorders in place, and the copy-status message.
   */
  class Display {
    const data: GeneratedData
    const levels: array<RubricLevel>
    var copySuccess: string

    /** The result as the view currently holds it, with the rows in their present order. */
    function Data(): GeneratedData
      reads levels
    {
      data.(rubric := data.rubric.(levels := levels[..]))
    }

    constructor (given: GeneratedData)
      ensures Data() == given && copySuccess == "" && fresh(levels)
    {
      data := given;
      levels := new RubricLevel[|given.rubric.levels|](i requires 0 <= i < |given.rubric.levels| => given.rubric.levels[i]);
      copySuccess := "";
    }

    /** Rendering the rubric table sorts the rows in place, then shows them in that order. */
    method RenderedRows() returns (rows: seq<RubricLevel>)
      modifies levels
      ensures rows == levels[..]
      ensures SortedByScoreDesc(rows) && multiset(rows) == multiset(old(levels[..]))
    {
      SortByScoreDesc(levels);
      rows := levels[..];
    }

    /**
     * `copyToClipboard`: sort the rows in place, build the text from the sorted rows, hand
     * it to the clipboard and set the status from whether the write succeeded.
     */
    method CopyToClipboard(writeSucceeded: bool) returns (text: string)
      modifies this, levels
      ensures SortedByScoreDesc(levels[..]) && multiset(levels[..]) == multiset(old(levels[..]))
      ensures text == CopyText(Data())
      ensures copySuccess == if writeSucceeded then CopiedMessage else CopyFailedMessage
    {
      SortByScoreDesc(levels);
      text := CopyText(Data());
      copySuccess := if writeSucceeded then CopiedMessage else CopyFailedMessage;
    }

    /** The timer two seconds after a copy clears the status message. */
    method ClearCopyStatus()
      modifies this
      ensures copySuccess == ""
    {
      copySuccess := "";
    }
  }
}
