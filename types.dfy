/** The records the application passes around (types.ts), as value types. */
module Types {

  /** The three achievement levels, tagged 상 (high), 중 (medium) and 하 (low). */
  datatype Level = High | Medium | Low {

    /** The Korean tag the level carries in the rubric (`RubricLevel.level`). */
    function Tag(): (t: string)
      ensures t in {"상", "중", "하"}
    {
      match this
      case High => "상"
      case Medium => "중"
      case Low => "하"
    }
  }

  /** `AssessmentPlan.criteria`: one free-text description per level. */
  datatype LevelCriteria = LevelCriteria(high: string, medium: string, low: string) {

    function Get(level: Level): string {
      match level
      case High => high
      case Medium => medium
      case Low => low
    }

    /** `{ ...criteria, [level]: value }`: the description of one level replaced. */
    function With(level: Level, value: string): (c: LevelCriteria)
      ensures c.Get(level) == value
      ensures forall other :: other != level ==> c.Get(other) == Get(other)
    {
      match level
      case High => this.(high := value)
      case Medium => this.(medium := value)
      case Low => this.(low := value)
    }
  }

  /** The teacher's assessment plan as the form holds it. */
  datatype AssessmentPlan = AssessmentPlan(
    subject: string,
    domain: string,
    period: string,
    assessmentElements: string,
    assessmentMethod: string,
    achievementStandard: string,
    keyPoints: string,
    criteria: LevelCriteria)

  /** The criteria sheet of a generated result. */
  datatype AssessmentCriteria = AssessmentCriteria(
    unit: string,
    assessmentArea: string,
    assessmentPeriod: string,
    assessmentMethod: string,
    achievementStandard: string,
    subjectCompetencies: seq<string>,
    assessmentElements: string)

  /** One row of the analytic rubric: a level, its score label and one description per criterion. */
  datatype RubricLevel = RubricLevel(level: Level, score: string, descriptions: seq<string>)

  datatype Rubric = Rubric(criteria: seq<string>, levels: seq<RubricLevel>) {

    /**
     * Every level carries one description per criterion, index-aligned with `criteria`.
     * The source states this only as a comment; nothing establishes it.
     */
    predicate Aligned() {
      forall i :: 0 <= i < |levels| ==> |levels[i].descriptions| == |criteria|
    }
  }

  datatype ScoringSummary = ScoringSummary(high: string, medium: string, low: string)

  datatype ExampleAnswer = ExampleAnswer(question: string, answer: string)

  /** The result of a full generation: exactly these four parts. */
  datatype GeneratedData = GeneratedData(
    criteria: AssessmentCriteria,
    rubric: Rubric,
    scoringSummary: ScoringSummary,
    exampleAnswers: seq<ExampleAnswer>)

  /** `ReferenceItem.type`: `'file'` or `'link'`. */
  datatype ReferenceKind = FileRef | LinkRef

  datatype ReferenceItem = ReferenceItem(id: int, kind: ReferenceKind, title: string, url: string)
}
