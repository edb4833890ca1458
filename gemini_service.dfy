/**
 * The generation pipeline (services/geminiService.ts): three operations that guard their
 * inputs, build a prompt, ask the generative backend for JSON of a declared shape, decode
 * the answer and classify every failure.
 *
 * The backend is an oracle `backend: Request -> Reply`, and `JSON.parse` is an oracle
 * `decode: string -> Decoded<T>` that either yields a value or fails with a message.
 * Each operation reports the request it sent (`None` when it never reached the backend)
 * next to its result, so "no backend call" is part of what the contracts state.
 */
module GeminiService {
  import opened Wrappers
  import opened Text
  import opened Types

  // ---------------------------------------------------------------------------
  // The backend boundary

  datatype Part = TextPart(text: string) | InlineData(data: string, mimeType: string)

  /** `contents`: a bare prompt string, or a list of parts. */
  datatype Contents = Prompt(text: string) | Parts(parts: seq<Part>)

  /** The response shape each operation declares (the `responseSchema` objects). */
  datatype ResponseSchema = CriteriaLevelsSchema | KeyPointsSchema | MaterialsSchema

  datatype Request = Request(model: string, contents: Contents, schema: ResponseSchema)

  /** What `generateContent` does: resolve with `response.text`, or reject with an error message. */
  datatype Reply = ReplyText(text: string) | ReplyError(message: string)

  /** What `JSON.parse` does: yield a value, or throw an error carrying a message. */
  datatype Decoded<T> = Parsed(value: T) | SyntaxError(message: string)

  /** How the body of a `try` block ends: with a value, or by throwing an error with a message. */
  datatype Attempt<T> = Succeeded(value: T) | Failed(message: string)

  /** The attached file as the service receives it: base64 data and a mime type. */
  datatype Attachment = Attachment(data: string, mimeType: string)

  /** The answer of key-points generation. */
  datatype KeyPoints = KeyPoints(teachingPoints: string, assessmentPoints: string)

  /** The five plan fields key-points generation takes (`Pick<AssessmentPlan, ...>`). */
  datatype KeyPointsInput = KeyPointsInput(
    subject: string,
    domain: string,
    assessmentMethod: string,
    assessmentElements: string,
    achievementStandard: string)

  /** An operation that resolves to a value or `null` and never rejects. */
  datatype Call<T> = Call(request: Option<Request>, result: Option<T>)

  /** How full generation ends: a value, `null`, or a thrown error. */
  datatype Outcome<T> = Returned(value: T) | ReturnedNull | Threw(message: string)

  const ModelName := "gemini-2.5-flash"

  /** The text by which a backend error is recognised as a rejected credential. */
  const KeyNotValidMarker := "API key not valid"

  /** The error full generation throws when the backend rejects the credential. */
  const InvalidKeyMessage := "API 키가 유효하지 않습니다. 키를 확인하고 다시 시도해주세요."

  const EmptyCriteriaMessage := "API returned an empty response for criteria generation."
  const EmptyKeyPointsMessage := "API returned an empty response for key points generation."
  const EmptyResponseMessage := "API returned an empty response."

  /** The reply carries non-blank text that `decode` accepts. */
  predicate Decodable<T>(reply: Reply, decode: string -> Decoded<T>) {
    reply.ReplyText? && !IsBlank(reply.text) && decode(Trim(reply.text)).Parsed?
  }

  function DecodedValue<T>(reply: Reply, decode: string -> Decoded<T>): T
    requires Decodable(reply, decode)
  {
    decode(Trim(reply.text)).value
  }

  /**
   * The part every operation's `try` block shares: take the reply text, trim it, throw
   * `emptyMessage` when nothing is left, and parse it.
   */
  function TryReply<T>(reply: Reply, decode: string -> Decoded<T>, emptyMessage: string): (a: Attempt<T>)
    ensures a.Succeeded? <==> Decodable(reply, decode)
    ensures a.Succeeded? ==> a.value == DecodedValue(reply, decode)
  {
    match reply
    case ReplyError(m) => Failed(m)
    case ReplyText(t) =>
      var jsonText := Trim(t);
      if jsonText == "" then Failed(emptyMessage)
      else
        match decode(jsonText)
        case Parsed(v) => Succeeded(v)
        case SyntaxError(m) => Failed(m)
  }

  // ---------------------------------------------------------------------------
  // Criteria generation (generateEvaluationCriteria)

  /** Stands for the fixed instruction prose that opens the criteria prompt. */
  const CriteriaInstruction := "\n        **지시:** [criteria task]"
  /** Stands for the fixed requirement list that closes the criteria prompt. */
  const CriteriaRequirements := "**요구사항:** [criteria keys]\n    "
  const CriteriaStandardOpen := "\n\n        **성취기준:**\n        ---\n        "
  const CriteriaKeyPointsOpen := "\n        ---\n\n        **수업/평가 연계 주안점:**\n        ---\n        "
  const PromptFenceClose := "\n        ---\n\n        "

  /** The criteria prompt: the standard, then the key points, each in its own fenced block. */
  function CriteriaPrompt(standard: string, keyPoints: string): (p: string)
    ensures OccursAt(p, standard, |CriteriaInstruction + CriteriaStandardOpen|)
    ensures OccursAt(p, keyPoints,
                     |CriteriaInstruction + CriteriaStandardOpen| + |standard| + |CriteriaKeyPointsOpen|)
  {
    var head := CriteriaInstruction + CriteriaStandardOpen;
    var tail := PromptFenceClose + CriteriaRequirements;
    OccursTwice(head, standard, CriteriaKeyPointsOpen, keyPoints, tail);
    head + standard + CriteriaKeyPointsOpen + keyPoints + tail
  }

  function CriteriaRequest(standard: string, keyPoints: string): Request {
    Request(ModelName, Prompt(CriteriaPrompt(standard, keyPoints)), CriteriaLevelsSchema)
  }

  /**
   * `generateEvaluationCriteria`: `null` without a backend call when the key is empty or
   * either input is blank after trimming; otherwise the decoded levels, or `null` on any failure.
   */
  function GenerateEvaluationCriteria(
    standard: string, keyPoints: string, apiKey: string,
    backend: Request -> Reply, decode: string -> Decoded<LevelCriteria>): (c: Call<LevelCriteria>)
    ensures apiKey == "" ==> c == Call(None, None)
    ensures IsBlank(standard) || IsBlank(keyPoints) ==> c == Call(None, None)
    ensures apiKey != "" && !IsBlank(standard) && !IsBlank(keyPoints) ==>
              c.request == Some(CriteriaRequest(standard, keyPoints))
    ensures c.request.Some? ==>
              (c.result.Some? <==> Decodable(backend(c.request.value), decode))
    ensures c.result.Some? ==> c.result.value == DecodedValue(backend(c.request.value), decode)
    ensures c.request.Some? && backend(c.request.value).ReplyText? && IsBlank(backend(c.request.value).text) ==>
              c.result == None
  {
    if apiKey == "" then Call(None, None)
    else if IsBlank(standard) || IsBlank(keyPoints) then Call(None, None)
    else
      var request := CriteriaRequest(standard, keyPoints);
      match TryReply(backend(request), decode, EmptyCriteriaMessage)
      case Succeeded(v) => Call(Some(request), Some(v))
      case Failed(_) => Call(Some(request), None)
  }

  // ---------------------------------------------------------------------------
  // Key-points generation (generateKeyPoints)

  /** Stands for the fixed instruction prose that opens the key-points prompt. */
  const KeyPointsInstruction := "\n        **지시:** [key points task]"
  /** Stands for the fixed requirement list that closes the key-points prompt. */
  const KeyPointsRequirements := "**요구사항:** [key points keys]\n    "

  const KeyPointsInputOpen := "\n\n        **입력 정보:**\n        ---\n        - 교과: "
  const DomainLabel := "\n        - 영역: "
  const MethodLabel := "\n        - 평가방법: "
  const ElementsLabel := "\n        - 평가요소: "
  const StandardLabel := "\n        - 성취기준: "

  /** The labels in front of the five inputs, the first one opening the input block. */
  const KeyPointsLabels := [KeyPointsInputOpen, DomainLabel, MethodLabel, ElementsLabel, StandardLabel]

  /** The five inputs in the order the prompt lists them. */
  function KeyPointsFields(input: KeyPointsInput): seq<string> {
    [input.subject, input.domain, input.assessmentMethod, input.assessmentElements, input.achievementStandard]
  }

  /**
   * The key-points prompt: subject, domain, assessment method, assessment elements and
   * achievement standard, each right after its own label and all in that order.
   */
  function KeyPointsPrompt(input: KeyPointsInput): (p: string)
    ensures forall k :: 0 <= k < 5 ==>
              OccursAt(p, KeyPointsFields(input)[k],
                       |KeyPointsInstruction| + FillOffset(KeyPointsLabels, KeyPointsFields(input), k))
  {
    var tail := PromptFenceClose + KeyPointsRequirements;
    FillOccursAll(KeyPointsInstruction, KeyPointsLabels, KeyPointsFields(input), tail);
    KeyPointsInstruction + Fill(KeyPointsLabels, KeyPointsFields(input)) + tail
  }

  /** The guard of key-points generation: every field is a non-empty string (no trimming). */
  predicate KeyPointsInputsPresent(input: KeyPointsInput) {
    input.subject != "" && input.domain != "" && input.assessmentMethod != ""
    && input.assessmentElements != "" && input.achievementStandard != ""
  }

  function KeyPointsRequest(input: KeyPointsInput): Request {
    Request(ModelName, Prompt(KeyPointsPrompt(input)), KeyPointsSchema)
  }

  /**
   * `generateKeyPoints`: `null` without a backend call when the key or any of the five
   * fields is the empty string; otherwise the decoded points, or `null` on any failure.
   */
  function GenerateKeyPoints(
    input: KeyPointsInput, apiKey: string,
    backend: Request -> Reply, decode: string -> Decoded<KeyPoints>): (c: Call<KeyPoints>)
    ensures c.request.Some? <==> apiKey != "" && KeyPointsInputsPresent(input)
    ensures c.request.Some? ==> c.request.value == KeyPointsRequest(input)
    ensures c.request.None? ==> c.result.None?
    ensures c.request.Some? ==>
              (c.result.Some? <==> Decodable(backend(c.request.value), decode))
    ensures c.result.Some? ==> c.result.value == DecodedValue(backend(c.request.value), decode)
    ensures c.request.Some? && backend(c.request.value).ReplyText? && IsBlank(backend(c.request.value).text) ==>
              c.result == None
  {
    if apiKey == "" then Call(None, None)
    else if !KeyPointsInputsPresent(input) then Call(None, None)
    else
      var request := KeyPointsRequest(input);
      match TryReply(backend(request), decode, EmptyKeyPointsMessage)
      case Succeeded(v) => Call(Some(request), Some(v))
      case Failed(_) => Call(Some(request), None)
  }

  /**
   * The two guards differ: a whitespace-only field is refused by criteria generation,
   * which trims, but passes key-points generation, which only tests for the empty string.
   */
  lemma WhitespaceFieldGuards(
    w: string, other: string, apiKey: string,
    backend: Request -> Reply, cdecode: string -> Decoded<LevelCriteria>, kdecode: string -> Decoded<KeyPoints>)
    requires w != [] && AllWhitespace(w) && apiKey != ""
    ensures GenerateEvaluationCriteria(w, other, apiKey, backend, cdecode).request.None?
    ensures GenerateEvaluationCriteria(other, w, apiKey, backend, cdecode).request.None?
    ensures GenerateKeyPoints(KeyPointsInput(w, w, w, w, w), apiKey, backend, kdecode).request.Some?
  {
    assert IsBlank(w);
  }

  // ---------------------------------------------------------------------------
  // Full generation (formatPlanForPrompt, generateAssessmentMaterials)

  /** The ten plan fields, one labelled line each, in the fixed order of the prompt. */
  function PlanLines(plan: AssessmentPlan): seq<string> {
    [ "- 교과: " + plan.subject,
      "- 영역: " + plan.domain,
      "- 시기: " + plan.period,
      "- 평가요소: " + plan.assessmentElements,
      "- 평가방법: " + plan.assessmentMethod,
      "- 성취기준: " + plan.achievementStandard,
      "- 수업/평가 연계 주안점: " + plan.keyPoints,
      "- 평가기준 (상): " + plan.criteria.high,
      "- 평가기준 (중): " + plan.criteria.medium,
      "- 평가기준 (하): " + plan.criteria.low ]
  }

  /**
   * `formatPlanForPrompt`: the ten lines joined by newlines inside a template padded with
   * whitespace, then trimmed. Since the first line starts with `-`, trimming only removes
   * whitespace at the end of the last value; when that value ends in a kept character the
   * text is exactly the joined lines.
   */
  function FormatPlanForPrompt(plan: AssessmentPlan): (r: string)
    ensures r == TrimEnd(Join(PlanLines(plan), "\n"))
    ensures plan.criteria.low != "" && !IsWhitespace(plan.criteria.low[|plan.criteria.low| - 1]) ==>
              r == Join(PlanLines(plan), "\n")
  {
    var lines := PlanLines(plan);
    assert lines[0][0] == '-';
    assert AllWhitespace("\n    ");
    TrimJoinedAfterLineBreak(lines, "\n", "\n    ");
    Trim("\n" + Join(lines, "\n") + "\n    ")
  }

  /** Stands for the instruction prose that opens the full-generation prompt. */
  const MaterialsInstruction := "\n        **지시:** [materials task]\n\n        **[중요] 첨부 파일 분석:** [file analysis]"
  /** Stands for the requirement list that closes the full-generation prompt. */
  const MaterialsRequirements := "**요구사항:** [materials rules]\n      "
  const PlanOpen := "\n\n        **수행평가계획:**\n        ---\n        "

  /** The full-generation prompt: the formatted plan, then the task section. */
  function MaterialsPrompt(formattedPlan: string, taskSection: string): (p: string)
    ensures OccursAt(p, formattedPlan, |MaterialsInstruction + PlanOpen|)
    ensures OccursAt(p, taskSection, |MaterialsInstruction + PlanOpen| + |formattedPlan| + |PromptFenceClose|)
  {
    var head := MaterialsInstruction + PlanOpen;
    var tail := "\n\n        " + MaterialsRequirements;
    OccursTwice(head, formattedPlan, PromptFenceClose, taskSection, tail);
    head + formattedPlan + PromptFenceClose + taskSection + tail
  }

  const TaskHeading := "\n**평가문항:**\n---\n"
  const CombinedInstruction := "아래 텍스트와 첨부된 PDF 파일을 모두 분석하여 평가문항의 전체 내용을 파악해주세요.\n\n[추가 설명/텍스트]\n"
  const FileOnlyInstruction := "첨부된 PDF 파일을 분석하여 평가문항의 내용을 파악해주세요."

  /** A task section: the heading, a `---` fence, the body and a closing fence. */
  function Fenced(body: string): string {
    TaskHeading + body + "\n---\n"
  }

  /**
   * The task section of the full-generation prompt: text and file together, text alone,
   * file alone, or nothing. Only the first two carry the task text, and the file-only
   * section does not depend on it.
   */
  function TaskSection(task: string, file: Option<Attachment>): (r: string)
    ensures r == "" <==> IsBlank(task) && file.None?
    ensures !IsBlank(task) && file.Some? ==>
              OccursAt(r, CombinedInstruction, |TaskHeading|) &&
              OccursAt(r, task, |TaskHeading| + |CombinedInstruction|)
    ensures !IsBlank(task) && file.None? ==> r == Fenced(task)
    ensures IsBlank(task) && file.Some? ==> r == Fenced(FileOnlyInstruction)
  {
    if !IsBlank(task) && file.Some? then
      OccursInMiddle(TaskHeading, CombinedInstruction, task, "\n---\n");
      Fenced(CombinedInstruction + task)
    else if !IsBlank(task) then Fenced(task)
    else if file.Some? then Fenced(FileOnlyInstruction)
    else ""
  }

  /**
   * The request of full generation: the prompt as a text part, followed by the file as an
   * inline-data part exactly when a file is attached.
   */
  function MaterialsRequest(plan: AssessmentPlan, task: string, file: Option<Attachment>): (r: Request)
    ensures r.contents.Parts? && |r.contents.parts| == if file.Some? then 2 else 1
    ensures r.contents.parts[0] == TextPart(MaterialsPrompt(FormatPlanForPrompt(plan), TaskSection(task, file)))
    ensures file.Some? ==> r.contents.parts[1] == InlineData(file.value.data, file.value.mimeType)
    ensures r.schema == MaterialsSchema
  {
    var text := TextPart(MaterialsPrompt(FormatPlanForPrompt(plan), TaskSection(task, file)));
    if file.Some? then Request(ModelName, Parts([text, InlineData(file.value.data, file.value.mimeType)]), MaterialsSchema)
    else Request(ModelName, Parts([text]), MaterialsSchema)
  }

  /**
   * The reconciliation step: the criteria sheet's assessment elements are overwritten with
   * the plan's, and nothing else of the decoded value changes.
   */
  function Reconcile(data: GeneratedData, plan: AssessmentPlan): (r: GeneratedData)
    ensures r.criteria.assessmentElements == plan.assessmentElements
    ensures r.criteria.(assessmentElements := data.criteria.assessmentElements) == data.criteria
    ensures r.rubric == data.rubric && r.scoringSummary == data.scoringSummary
    ensures r.exampleAnswers == data.exampleAnswers
  {
    data.(criteria := data.criteria.(assessmentElements := plan.assessmentElements))
  }

  /** Reconciling twice changes nothing more. */
  lemma ReconcileIdempotent(data: GeneratedData, plan: AssessmentPlan)
    ensures Reconcile(Reconcile(data, plan), plan) == Reconcile(data, plan)
  {
  }

  /** The `catch` block: only a rejected credential is rethrown, with a message of its own. */
  function Caught(message: string): (o: Outcome<GeneratedData>)
    ensures o.Threw? <==> Contains(message, KeyNotValidMarker)
    ensures o.Threw? ==> o.message == InvalidKeyMessage
    ensures !o.Threw? ==> o == ReturnedNull
  {
    if Contains(message, KeyNotValidMarker) then Threw(InvalidKeyMessage) else ReturnedNull
  }

  /** The message the empty-response error carries does not look like a rejected credential. */
  lemma EmptyResponseIsNotKeyError()
    ensures !Contains(EmptyResponseMessage, KeyNotValidMarker)
  {
    var s, t := EmptyResponseMessage, KeyNotValidMarker;
    forall i | 0 <= i <= |s|
      ensures !OccursAt(s, t, i)
    {
      if i + |t| <= |s| {
        // The marker's fifth character, `k`, appears nowhere in the message.
        assert s[i + 4] != t[4];
        assert s[i..i + |t|][4] != t[4];
      }
    }
  }

  /** The rethrown message contains the text by which the caller recognises it. */
  lemma InvalidKeyMessageMentionsKey()
    ensures Contains(InvalidKeyMessage, "API 키")
  {
    var rest := InvalidKeyMessage[|"API 키"|..];
    assert InvalidKeyMessage == "" + "API 키" + rest;
    ContainsPart("", "API 키", rest);
  }

  /**
   * How full generation ends once the backend has answered `reply`: the reconciled value
   * when the reply decodes; a thrown error only when the failure's message says the key is
   * not valid; `null` otherwise, in particular for a blank reply.
   */
  function MaterialsOutcome(plan: AssessmentPlan, reply: Reply, decode: string -> Decoded<GeneratedData>)
    : (o: Outcome<GeneratedData>)
    ensures o.Returned? <==> Decodable(reply, decode)
    ensures o.Returned? ==> o.value == Reconcile(DecodedValue(reply, decode), plan)
    ensures o.Returned? ==> o.value.criteria.assessmentElements == plan.assessmentElements
    ensures o.Threw? <==>
              !Decodable(reply, decode) &&
              Contains(TryReply(reply, decode, EmptyResponseMessage).message, KeyNotValidMarker)
    ensures o.Threw? ==> o.message == InvalidKeyMessage && Contains(o.message, "API 키")
    ensures reply.ReplyError? ==> (o.Threw? <==> Contains(reply.message, KeyNotValidMarker))
    ensures reply.ReplyText? && IsBlank(reply.text) ==> o == ReturnedNull
  {
    EmptyResponseIsNotKeyError();
    InvalidKeyMessageMentionsKey();
    match TryReply(reply, decode, EmptyResponseMessage)
    case Succeeded(data) => Returned(Reconcile(data, plan))
    case Failed(m) => Caught(m)
  }

  /**
   * The first half of `generateAssessmentMaterials`, step by step as the source runs it:
   * format the plan, select the task section through an if/else chain, build the prompt and
   * push the file part after the text part.
   */
  method AssembleMaterialsRequest(plan: AssessmentPlan, task: string, file: Option<Attachment>)
    returns (request: Request)
    ensures request == MaterialsRequest(plan, task, file)
  {
    var formattedPlan := FormatPlanForPrompt(plan);

    var taskPromptSection := "";
    if !IsBlank(task) && file.Some? {
      taskPromptSection := Fenced(CombinedInstruction + task);
    } else if !IsBlank(task) {
      taskPromptSection := Fenced(task);
    } else if file.Some? {
      taskPromptSection := Fenced(FileOnlyInstruction);
    }
    assert taskPromptSection == TaskSection(task, file);
    var mainPrompt := MaterialsPrompt(formattedPlan, taskPromptSection);

    ghost var expected := MaterialsRequest(plan, task, file).contents.parts;
    var contentParts := [TextPart(mainPrompt)];
    if file.Some? {
      contentParts := contentParts + [InlineData(file.value.data, file.value.mimeType)];
      assert contentParts == [expected[0], expected[1]];
    }
    assert contentParts == expected;
    request := Request(ModelName, Parts(contentParts), MaterialsSchema);
  }

  /**
   * The second half of `generateAssessmentMaterials`: the `try` block sends the request,
   * trims and parses the reply and overwrites the decoded assessment elements; the `catch`
   * block rethrows only a rejected credential.
   */
  method SendMaterialsRequest(
    plan: AssessmentPlan, request: Request,
    backend: Request -> Reply, decode: string -> Decoded<GeneratedData>)
    returns (outcome: Outcome<GeneratedData>)
    ensures outcome == MaterialsOutcome(plan, backend(request), decode)
  {
    // Body of the `try` block; `thrown` is the message of the error it throws.
    var thrown: string;
    var reply := backend(request);
    match reply {
      case ReplyError(m) =>
        thrown := m;
      case ReplyText(t) =>
        var jsonText := Trim(t);
        if jsonText == "" {
          thrown := EmptyResponseMessage;
        } else {
          match decode(jsonText) {
            case SyntaxError(m) =>
              thrown := m;
            case Parsed(data) =>
              var reconciled := data;
              reconciled := reconciled.(criteria := reconciled.criteria.(assessmentElements := plan.assessmentElements));
              return Returned(reconciled);
          }
        }
    }

    // The `catch` block.
    if Contains(thrown, KeyNotValidMarker) {
      outcome := Threw(InvalidKeyMessage);
    } else {
      outcome := ReturnedNull;
    }
  }

  /**
   * `generateAssessmentMaterials`: `null` without a backend call when the key is empty;
   * otherwise the assembled request is sent and its reply classified.
   */
  method GenerateAssessmentMaterials(
    plan: AssessmentPlan, task: string, file: Option<Attachment>, apiKey: string,
    backend: Request -> Reply, decode: string -> Decoded<GeneratedData>)
    returns (request: Option<Request>, outcome: Outcome<GeneratedData>)
    ensures apiKey == "" ==> request == None && outcome == ReturnedNull
    ensures apiKey != "" ==> request == Some(MaterialsRequest(plan, task, file))
    ensures apiKey != "" ==> outcome == MaterialsOutcome(plan, backend(request.value), decode)
  {
    if apiKey == "" {
      return None, ReturnedNull;
    }
    var req := AssembleMaterialsRequest(plan, task, file);
    request := Some(req);
    outcome := SendMaterialsRequest(plan, req, backend, decode);
  }
}
