/**
 * The page component (App.tsx): the credential, the plan form, the task input, the
 * attached file, the reference list, the generated result, three loading flags and an
 * error message, updated by one handler per user action.
 *
 * Each asynchronous handler is split where the source awaits: a `Begin` method sets the
 * loading flag, the service call happens, and a `Finish` method takes the result. The
 * combined method runs the three steps in order with the backend as an oracle.
 */
module App {
  import opened Wrappers
  import opened Text
  import opened Types
  import GeminiService

  /** The attached task file: its name, base64 data and mime type. */
  datatype UploadedFile = UploadedFile(name: string, data: string, mimeType: string)

  /** The plan fields `handlePlanChange` may set: every field except the criteria. */
  datatype PlanField =
    | SubjectField | DomainField | PeriodField | ElementsField | MethodField | StandardField | KeyPointsField

  function GetField(plan: AssessmentPlan, field: PlanField): string {
    match field
    case SubjectField => plan.subject
    case DomainField => plan.domain
    case PeriodField => plan.period
    case ElementsField => plan.assessmentElements
    case MethodField => plan.assessmentMethod
    case StandardField => plan.achievementStandard
    case KeyPointsField => plan.keyPoints
  }

  /** `{ ...prev, [field]: value }`: one field set, every other field and the criteria kept. */
  function WithField(plan: AssessmentPlan, field: PlanField, value: string): (r: AssessmentPlan)
    ensures GetField(r, field) == value
    ensures forall other :: other != field ==> GetField(r, other) == GetField(plan, other)
    ensures r.criteria == plan.criteria
  {
    match field
    case SubjectField => plan.(subject := value)
    case DomainField => plan.(domain := value)
    case PeriodField => plan.(period := value)
    case ElementsField => plan.(assessmentElements := value)
    case MethodField => plan.(assessmentMethod := value)
    case StandardField => plan.(achievementStandard := value)
    case KeyPointsField => plan.(keyPoints := value)
  }

  /** A plan is its seven fields and its criteria: nothing else can tell two plans apart. */
  lemma PlanDeterminedByFields(p: AssessmentPlan, q: AssessmentPlan)
    requires forall f :: GetField(p, f) == GetField(q, f)
    requires p.criteria == q.criteria
    ensures p == q
  {
    assert GetField(p, SubjectField) == GetField(q, SubjectField);
    assert GetField(p, DomainField) == GetField(q, DomainField);
    assert GetField(p, PeriodField) == GetField(q, PeriodField);
    assert GetField(p, ElementsField) == GetField(q, ElementsField);
    assert GetField(p, MethodField) == GetField(q, MethodField);
    assert GetField(p, StandardField) == GetField(q, StandardField);
    assert GetField(p, KeyPointsField) == GetField(q, KeyPointsField);
  }

  /** Setting a field to the value it already has changes nothing. */
  lemma WithFieldSameValue(plan: AssessmentPlan, field: PlanField)
    ensures WithField(plan, field, GetField(plan, field)) == plan
  {
    PlanDeterminedByFields(WithField(plan, field, GetField(plan, field)), plan);
  }

  /** JavaScript truthiness of `string | null`: present and not empty. */
  predicate Truthy(s: Option<string>) {
    s.Some? && s.value != ""
  }

  const AssessmentMethods := ["서·논술형", "구술·발표", "토의·토론", "프로젝트", "실험·실습", "포트폴리오", "관찰법", "학습 일지"]

  const ApiKeyRequiredMessage := "API 키를 입력해주세요."
  const CriteriaFailedMessage := "평가기준 생성에 실패했습니다. 성취기준과 주안점 내용을 확인해주세요."
  const KeyPointsFailedMessage := "주안점 생성에 실패했습니다. 입력 내용을 확인해주세요."
  const UnsupportedFileMessage := "지원하지 않는 파일 형식입니다. PDF 파일만 업로드해주세요."
  const FileReadFailedMessage := "파일을 읽는 중 오류가 발생했습니다."
  const TaskMissingMessage := "평가문항을 입력하거나 파일을 첨부해주세요."
  const GenerationFailedMessage := "자료 생성에 실패했습니다. API 키와 입력 내용을 확인 후 다시 시도해주세요."
  const UnknownErrorMessage := "알 수 없는 오류가 발생했습니다."
  const PdfMimeType := "application/pdf"

  /** The text by which a thrown message is recognised as being about the credential. */
  const CredentialMarker := "API 키"

  /** `CURRICULUM_DATA[subject] || []` and then `[0] || ''`. */
  function FirstDomain(curriculum: map<string, seq<string>>, subject: string): string {
    if subject in curriculum && |curriculum[subject]| > 0 then curriculum[subject][0] else ""
  }

  /** The plan the form starts from and returns to. */
  function InitialPlan(curriculum: map<string, seq<string>>, initialSubject: string, firstPeriod: string): AssessmentPlan
    requires initialSubject in curriculum && |curriculum[initialSubject]| > 0
  {
    AssessmentPlan(initialSubject, curriculum[initialSubject][0], firstPeriod, "", AssessmentMethods[0], "", "",
                   LevelCriteria("", "", ""))
  }

  const TeachingPointsLabel := "[수업 주안점]\n"
  const AssessmentPointsLabel := "\n\n[평가 주안점]\n"

  /** The key-points text the form receives: both points, each under its label. */
  function FormatKeyPoints(k: GeminiService.KeyPoints): (r: string)
    ensures OccursAt(r, TeachingPointsLabel, 0)
    ensures OccursAt(r, k.teachingPoints, |TeachingPointsLabel|)
    ensures OccursAt(r, AssessmentPointsLabel, |TeachingPointsLabel| + |k.teachingPoints|)
    ensures OccursAt(r, k.assessmentPoints, |TeachingPointsLabel| + |k.teachingPoints| + |AssessmentPointsLabel|)
    ensures |r| == |TeachingPointsLabel| + |k.teachingPoints| + |AssessmentPointsLabel| + |k.assessmentPoints|
  {
    var r := TeachingPointsLabel + k.teachingPoints + AssessmentPointsLabel + k.assessmentPoints;
    OccursBoth(TeachingPointsLabel, k.teachingPoints, AssessmentPointsLabel, k.assessmentPoints);
    OccursBoth("", TeachingPointsLabel, k.teachingPoints, AssessmentPointsLabel + k.assessmentPoints);
    assert "" + TeachingPointsLabel + k.teachingPoints + (AssessmentPointsLabel + k.assessmentPoints) == r;
    r
  }

  /** The five plan fields key-points generation takes. */
  function KeyPointsInputOf(plan: AssessmentPlan): GeminiService.KeyPointsInput {
    GeminiService.KeyPointsInput(plan.subject, plan.domain, plan.assessmentMethod,
                                 plan.assessmentElements, plan.achievementStandard)
  }

  /** The file as the service receives it. */
  function AttachmentOf(file: Option<UploadedFile>): (a: Option<GeminiService.Attachment>)
    ensures a.Some? <==> file.Some?
    ensures file.Some? ==> a.value.data == file.value.data && a.value.mimeType == file.value.mimeType
  {
    match file
    case None => None
    case Some(f) => Some(GeminiService.Attachment(f.data, f.mimeType))
  }

  /** The reference items read back from storage: the parsed list, or none when absent or unreadable. */
  function StoredItems(saved: Option<string>, decode: string -> GeminiService.Decoded<seq<ReferenceItem>>)
    : (items: seq<ReferenceItem>)
    ensures !Truthy(saved) ==> items == []
    ensures Truthy(saved) && decode(saved.value).SyntaxError? ==> items == []
    ensures Truthy(saved) && decode(saved.value).Parsed? ==> items == decode(saved.value).value
  {
    if Truthy(saved) then
      match decode(saved.value)
      case Parsed(v) => v
      case SyntaxError(_) => []
    else []
  }

  // ---------------------------------------------------------------------------
  // The reference list

  /** `items.filter(item => item.id !== id)`. */
  function RemoveById(items: seq<ReferenceItem>, id: int): (r: seq<ReferenceItem>)
    ensures |r| <= |items|
    decreases |items|
  {
    if items == [] then []
    else if items[0].id == id then RemoveById(items[1..], id)
    else [items[0]] + RemoveById(items[1..], id)
  }

  /** Exactly the items with another id are kept. */
  lemma {:induction false} RemoveByIdMembers(items: seq<ReferenceItem>, id: int, x: ReferenceItem)
    ensures x in RemoveById(items, id) <==> x in items && x.id != id
    decreases |items|
  {
    if items != [] {
      RemoveByIdMembers(items[1..], id, x);
      assert x in items <==> x == items[0] || x in items[1..] by {
        assert items == [items[0]] + items[1..];
      }
    }
  }

  /** Filtering keeps the relative order: it distributes over concatenation. */
  lemma {:induction false} RemoveByIdConcat(xs: seq<ReferenceItem>, ys: seq<ReferenceItem>, id: int)
    ensures RemoveById(xs + ys, id) == RemoveById(xs, id) + RemoveById(ys, id)
    decreases |xs|
  {
    if xs == [] {
      assert xs + ys == ys;
    } else {
      assert (xs + ys)[0] == xs[0];
      assert (xs + ys)[1..] == xs[1..] + ys;
      RemoveByIdConcat(xs[1..], ys, id);
    }
  }

  /** Removing an id no item carries leaves the list as it was. */
  lemma {:induction false} RemoveByIdAbsent(items: seq<ReferenceItem>, id: int)
    requires forall i :: 0 <= i < |items| ==> items[i].id != id
    ensures RemoveById(items, id) == items
    decreases |items|
  {
    if items != [] {
      RemoveByIdAbsent(items[1..], id);
      assert items == [items[0]] + items[1..];
    }
  }

  /** Removing an item just appended under an id nobody else carries restores the list. */
  lemma AddThenRemove(items: seq<ReferenceItem>, item: ReferenceItem)
    requires forall i :: 0 <= i < |items| ==> items[i].id != item.id
    ensures RemoveById(items + [item], item.id) == items
  {
    RemoveByIdConcat(items, [item], item.id);
    RemoveByIdAbsent(items, item.id);
    assert RemoveById([item], item.id) == RemoveById([], item.id);
  }

  // ---------------------------------------------------------------------------
  // The component's state

  /** Every state variable of the page, as one value. */
  datatype Snapshot = Snapshot(
    apiKey: string,
    isApiKeySet: bool,
    tempApiKey: string,
    plan: AssessmentPlan,
    taskInput: string,
    uploadedFile: Option<UploadedFile>,
    referenceItems: seq<ReferenceItem>,
    generatedData: Option<GeneratedData>,
    isLoading: bool,
    isCriteriaLoading: bool,
    isKeyPointsLoading: bool,
    error: Option<string>)

  /**
   * How full generation leaves the page once the service has ended with `outcome`: the
   * result shown; a failure message on `null`; a thrown message (or a fallback for an empty
   * one) on a throw, which also clears the credential when it mentions the key.
   */
  function AfterGeneration(s: Snapshot, outcome: GeminiService.Outcome<GeneratedData>): (t: Snapshot)
    ensures !t.isLoading
    ensures t.plan == s.plan && t.taskInput == s.taskInput && t.uploadedFile == s.uploadedFile
    ensures t.referenceItems == s.referenceItems
    ensures outcome.Returned? ==> t == s.(generatedData := Some(outcome.value), isLoading := false)
    ensures outcome.ReturnedNull? ==> t == s.(error := Some(GenerationFailedMessage), isLoading := false)
    ensures outcome.Threw? ==>
              t.error == Some(if outcome.message != "" then outcome.message else UnknownErrorMessage)
              && t.generatedData == s.generatedData
              && t.isCriteriaLoading == s.isCriteriaLoading && t.isKeyPointsLoading == s.isKeyPointsLoading
    ensures outcome.Threw? && Contains(outcome.message, CredentialMarker) ==>
              t.apiKey == "" && t.tempApiKey == "" && !t.isApiKeySet
    ensures !(outcome.Threw? && Contains(outcome.message, CredentialMarker)) ==>
              t.apiKey == s.apiKey && t.tempApiKey == s.tempApiKey && t.isApiKeySet == s.isApiKeySet
  {
    match outcome
    case Returned(d) => s.(generatedData := Some(d), isLoading := false)
    case ReturnedNull => s.(error := Some(GenerationFailedMessage), isLoading := false)
    case Threw(m) =>
      var shown := s.(error := Some(if m != "" then m else UnknownErrorMessage), isLoading := false);
      if Contains(m, CredentialMarker) then shown.(apiKey := "", tempApiKey := "", isApiKeySet := false)
      else shown
  }

  /**
   * A credential the backend rejects during full generation ends with the key cleared and
   * the service's own message shown.
   */
  lemma RejectedKeyClearsCredential(
    s: Snapshot, plan: AssessmentPlan, reply: GeminiService.Reply,
    decode: string -> GeminiService.Decoded<GeneratedData>)
    requires reply.ReplyError? && Contains(reply.message, GeminiService.KeyNotValidMarker)
    ensures var t := AfterGeneration(s, GeminiService.MaterialsOutcome(plan, reply, decode));
            t.apiKey == "" && !t.isApiKeySet && t.tempApiKey == ""
            && t.error == Some(GeminiService.InvalidKeyMessage)
  {
    GeminiService.InvalidKeyMessageMentionsKey();
  }

  class Page {
    const curriculum: map<string, seq<string>>
    const initialPlan: AssessmentPlan

    var apiKey: string
    var isApiKeySet: bool
    var tempApiKey: string
    var plan: AssessmentPlan
    var taskInput: string
    var uploadedFile: Option<UploadedFile>
    var referenceItems: seq<ReferenceItem>
    var generatedData: Option<GeneratedData>
    var isLoading: bool
    var isCriteriaLoading: bool
    var isKeyPointsLoading: bool
    var error: Option<string>

    /** The credential is marked as set exactly when there is one. */
    predicate Valid()
      reads this
    {
      isApiKeySet <==> apiKey != ""
    }

    function State(): Snapshot
      reads this
    {
      Snapshot(apiKey, isApiKeySet, tempApiKey, plan, taskInput, uploadedFile, referenceItems,
               generatedData, isLoading, isCriteriaLoading, isKeyPointsLoading, error)
    }

    /**
     * The first render: no credential, the initial plan, nothing attached or generated,
     * and the reference items read back from storage.
     */
    constructor (
      curriculum: map<string, seq<string>>, initialSubject: string, firstPeriod: string,
      savedItems: Option<string>, decodeItems: string -> GeminiService.Decoded<seq<ReferenceItem>>)
      requires initialSubject in curriculum && |curriculum[initialSubject]| > 0
      ensures Valid()
      ensures this.curriculum == curriculum
      ensures initialPlan == InitialPlan(curriculum, initialSubject, firstPeriod)
      ensures State() == Snapshot("", false, "", initialPlan, "", None, StoredItems(savedItems, decodeItems),
                                  None, false, false, false, None)
    {
      this.curriculum := curriculum;
      initialPlan := InitialPlan(curriculum, initialSubject, firstPeriod);
      apiKey := "";
      isApiKeySet := false;
      tempApiKey := "";
      plan := InitialPlan(curriculum, initialSubject, firstPeriod);
      taskInput := "";
      uploadedFile := None;
      referenceItems := StoredItems(savedItems, decodeItems);
      generatedData := None;
      isLoading := false;
      isCriteriaLoading := false;
      isKeyPointsLoading := false;
      error := None;
    }

    /** The mount effect: a stored key, when there is a non-empty one, becomes the credential. */
    method LoadStoredApiKey(stored: Option<string>)
      requires Valid()
      modifies this
      ensures Valid()
      ensures State() == if Truthy(stored) then old(State()).(apiKey := stored.value, isApiKeySet := true)
                         else old(State())
    {
      if Truthy(stored) {
        apiKey := stored.value;
        isApiKeySet := true;
      }
    }

    /** Typing in the key field. */
    method SetTempApiKey(value: string)
      modifies this
      ensures State() == old(State()).(tempApiKey := value)
    {
      tempApiKey := value;
    }

    /**
     * `handleSaveApiKey`: a typed key that is not blank becomes the credential as typed,
     * untrimmed, and clears the error; a blank one only sets an error.
     */
    method SaveApiKey()
      requires Valid()
      modifies this
      ensures Valid()
      ensures !IsBlank(old(tempApiKey)) ==>
                State() == old(State()).(apiKey := old(tempApiKey), isApiKeySet := true, error := None)
      ensures IsBlank(old(tempApiKey)) ==> State() == old(State()).(error := Some(ApiKeyRequiredMessage))
    {
      if !IsBlank(tempApiKey) {
        apiKey := tempApiKey;
        isApiKeySet := true;
        error := None;
      } else {
        error := Some(ApiKeyRequiredMessage);
      }
    }

    /** `handleClearApiKey`: the credential, the typed key and the flag are all cleared. */
    method ClearApiKey()
      modifies this
      ensures Valid()
      ensures State() == old(State()).(apiKey := "", tempApiKey := "", isApiKeySet := false)
    {
      apiKey := "";
      tempApiKey := "";
      isApiKeySet := false;
    }

    /** `handlePlanChange`: exactly one plan field changes. */
    method PlanChange(field: PlanField, value: string)
      modifies this
      ensures State() == old(State()).(plan := WithField(old(plan), field, value))
    {
      plan := WithField(plan, field, value);
    }

    /** `handleSubjectChange`: the subject, and the domain reset to the subject's first one. */
    method SubjectChange(subject: string)
      modifies this
      ensures State() == old(State()).(plan := old(plan).(subject := subject, domain := FirstDomain(curriculum, subject)))
      ensures plan.domain == "" <==> subject !in curriculum || curriculum[subject] == [] || curriculum[subject][0] == ""
    {
      var newDomains := if subject in curriculum then curriculum[subject] else [];
      var newDomain := if |newDomains| > 0 then newDomains[0] else "";
      plan := plan.(subject := subject, domain := newDomain);
    }

    /** `handleCriteriaChange`: exactly one level's description changes. */
    method CriteriaChange(level: Level, value: string)
      modifies this
      ensures State() == old(State()).(plan := old(plan).(criteria := old(plan).criteria.With(level, value)))
    {
      plan := plan.(criteria := plan.criteria.With(level, value));
    }

    /** Typing in the task field. */
    method SetTaskInput(value: string)
      modifies this
      ensures State() == old(State()).(taskInput := value)
    {
      taskInput := value;
    }

    // Criteria generation (handleGenerateCriteria)

    method BeginCriteriaGeneration()
      modifies this
      ensures State() == old(State()).(isCriteriaLoading := true, error := None)
    {
      isCriteriaLoading := true;
      error := None;
    }

    /** A result replaces all three levels; `null` leaves the plan and sets an error. */
    method FinishCriteriaGeneration(result: Option<LevelCriteria>)
      modifies this
      ensures result.Some? ==>
                State() == old(State()).(plan := old(plan).(criteria := LevelCriteria(result.value.high,
                                          result.value.medium, result.value.low)), isCriteriaLoading := false)
      ensures result.None? ==>
                State() == old(State()).(error := Some(CriteriaFailedMessage), isCriteriaLoading := false)
    {
      if result.Some? {
        plan := plan.(criteria := LevelCriteria(result.value.high, result.value.medium, result.value.low));
      } else {
        error := Some(CriteriaFailedMessage);
      }
      isCriteriaLoading := false;
    }

    /** The whole handler, with the service call in between; it returns the request sent, if any. */
    method GenerateCriteria(
      backend: GeminiService.Request -> GeminiService.Reply,
      decode: string -> GeminiService.Decoded<LevelCriteria>)
      returns (request: Option<GeminiService.Request>)
      modifies this
      ensures var c := GeminiService.GenerateEvaluationCriteria(
                old(plan.achievementStandard), old(plan.keyPoints), old(apiKey), backend, decode);
              request == c.request
              && State() == old(State()).(
                   plan := if c.result.Some? then old(plan).(criteria := c.result.value) else old(plan),
                   error := if c.result.Some? then None else Some(CriteriaFailedMessage),
                   isCriteriaLoading := false)
    {
      BeginCriteriaGeneration();
      var c := GeminiService.GenerateEvaluationCriteria(plan.achievementStandard, plan.keyPoints, apiKey, backend, decode);
      FinishCriteriaGeneration(c.result);
      request := c.request;
    }

    // Key-points generation (handleGenerateKeyPoints)

    method BeginKeyPointsGeneration()
      modifies this
      ensures State() == old(State()).(isKeyPointsLoading := true, error := None)
    {
      isKeyPointsLoading := true;
      error := None;
    }

    /** A result replaces only the key points, formatted; `null` leaves the plan and sets an error. */
    method FinishKeyPointsGeneration(result: Option<GeminiService.KeyPoints>)
      modifies this
      ensures result.Some? ==>
                State() == old(State()).(plan := old(plan).(keyPoints := FormatKeyPoints(result.value)),
                                         isKeyPointsLoading := false)
      ensures result.None? ==>
                State() == old(State()).(error := Some(KeyPointsFailedMessage), isKeyPointsLoading := false)
    {
      if result.Some? {
        var formattedKeyPoints := FormatKeyPoints(result.value);
        plan := plan.(keyPoints := formattedKeyPoints);
      } else {
        error := Some(KeyPointsFailedMessage);
      }
      isKeyPointsLoading := false;
    }

    method GenerateKeyPoints(
      backend: GeminiService.Request -> GeminiService.Reply,
      decode: string -> GeminiService.Decoded<GeminiService.KeyPoints>)
      returns (request: Option<GeminiService.Request>)
      modifies this
      ensures var c := GeminiService.GenerateKeyPoints(KeyPointsInputOf(old(plan)), old(apiKey), backend, decode);
              request == c.request
              && State() == old(State()).(
                   plan := if c.result.Some? then old(plan).(keyPoints := FormatKeyPoints(c.result.value)) else old(plan),
                   error := if c.result.Some? then None else Some(KeyPointsFailedMessage),
                   isKeyPointsLoading := false)
    {
      BeginKeyPointsGeneration();
      var c := GeminiService.GenerateKeyPoints(KeyPointsInputOf(plan), apiKey, backend, decode);
      FinishKeyPointsGeneration(c.result);
      request := c.request;
    }

    // The task file (handleFileChange, handleRemoveFile)

    /**
     * Choosing a file: nothing happens without one; a file that is not a PDF sets an error
     * and is not read; a PDF clears the error and is read.
     */
    method ChooseTaskFile(mimeType: Option<string>) returns (read: bool)
      modifies this
      ensures read <==> mimeType == Some(PdfMimeType)
      ensures mimeType.None? ==> State() == old(State())
      ensures mimeType.Some? && !read ==> State() == old(State()).(error := Some(UnsupportedFileMessage))
      ensures read ==> State() == old(State()).(error := None)
    {
      if mimeType.None? {
        return false;
      }
      if mimeType.value != PdfMimeType {
        error := Some(UnsupportedFileMessage);
        return false;
      }
      error := None;
      read := true;
    }

    /** The reader's `onload`: the file becomes the attachment. */
    method TaskFileLoaded(name: string, data: string, mimeType: string)
      modifies this
      ensures State() == old(State()).(uploadedFile := Some(UploadedFile(name, data, mimeType)))
    {
      uploadedFile := Some(UploadedFile(name, data, mimeType));
    }

    /** The reader's `onerror`. */
    method TaskFileReadFailed()
      modifies this
      ensures State() == old(State()).(error := Some(FileReadFailedMessage))
    {
      error := Some(FileReadFailedMessage);
    }

    method RemoveFile()
      modifies this
      ensures State() == old(State()).(uploadedFile := None)
    {
      uploadedFile := None;
    }

    // The reference list (handleReferenceFileChange, handleAddLink, handleRemoveReferenceItem)

    /** A reference file that has been read is appended as a file item. */
    method AddReferenceFile(id: int, name: string, dataUrl: string)
      modifies this
      ensures State() == old(State()).(referenceItems := old(referenceItems) + [ReferenceItem(id, FileRef, name, dataUrl)])
    {
      var newItem := ReferenceItem(id, FileRef, name, dataUrl);
      referenceItems := referenceItems + [newItem];
    }

    /**
     * `handleAddLink`: the two prompt answers, URL and title; a link is appended only when
     * both are non-empty, otherwise nothing changes.
     */
    method AddLink(url: Option<string>, title: Option<string>, id: int)
      modifies this
      ensures Truthy(url) && Truthy(title) ==>
                State() == old(State()).(referenceItems := old(referenceItems) + [ReferenceItem(id, LinkRef, title.value, url.value)])
      ensures !(Truthy(url) && Truthy(title)) ==> State() == old(State())
    {
      if Truthy(url) {
        if Truthy(title) {
          var newItem := ReferenceItem(id, LinkRef, title.value, url.value);
          referenceItems := referenceItems + [newItem];
        }
      }
    }

    method RemoveReferenceItem(id: int)
      modifies this
      ensures State() == old(State()).(referenceItems := RemoveById(old(referenceItems), id))
    {
      referenceItems := RemoveById(referenceItems, id);
    }

    // Full generation (handleGenerate)

    /** There is something to assess: task text that is not blank, or an attached file. */
    predicate HasTask()
      reads this
    {
      !IsBlank(taskInput) || uploadedFile.Some?
    }

    /**
     * The part before the await: without a task only an error is set; otherwise loading
     * starts and the error and the previous result are cleared.
     */
    method BeginGeneration() returns (proceed: bool)
      modifies this
      ensures proceed == old(HasTask())
      ensures !proceed ==> State() == old(State()).(error := Some(TaskMissingMessage))
      ensures proceed ==> State() == old(State()).(isLoading := true, error := None, generatedData := None)
    {
      if !HasTask() {
        error := Some(TaskMissingMessage);
        return false;
      }
      isLoading := true;
      error := None;
      generatedData := None;
      proceed := true;
    }

    /** The part after the await: the `if`, the `catch` and the `finally` blocks. */
    method FinishGeneration(outcome: GeminiService.Outcome<GeneratedData>)
      requires Valid()
      modifies this
      ensures Valid()
      ensures State() == AfterGeneration(old(State()), outcome)
    {
      match outcome {
        case Returned(d) =>
          generatedData := Some(d);
        case ReturnedNull =>
          error := Some(GenerationFailedMessage);
        case Threw(m) =>
          error := Some(if m != "" then m else UnknownErrorMessage);
          if Contains(m, CredentialMarker) {
            ClearApiKey();
          }
      }
      isLoading := false;
    }

    /** The whole handler, with the service call in between; it returns the request sent, if any. */
    method Generate(
      backend: GeminiService.Request -> GeminiService.Reply,
      decode: string -> GeminiService.Decoded<GeneratedData>)
      returns (request: Option<GeminiService.Request>)
      requires Valid()
      modifies this
      ensures Valid()
      ensures !old(HasTask()) ==> request == None && State() == old(State()).(error := Some(TaskMissingMessage))
      ensures !old(isApiKeySet) ==> request == None
      ensures old(HasTask()) && old(apiKey) == "" ==>
                request == None
                && State() == AfterGeneration(old(State()).(error := None, generatedData := None), GeminiService.ReturnedNull)
      ensures old(HasTask()) && old(apiKey) != "" ==>
                request == Some(GeminiService.MaterialsRequest(old(plan), old(taskInput), AttachmentOf(old(uploadedFile))))
                && State() == AfterGeneration(old(State()).(error := None, generatedData := None),
                                              GeminiService.MaterialsOutcome(old(plan), backend(request.value), decode))
    {
      var proceed := BeginGeneration();
      if !proceed {
        return None;
      }
      var outcome;
      request, outcome := GeminiService.GenerateAssessmentMaterials(
        plan, taskInput, AttachmentOf(uploadedFile), apiKey, backend, decode);
      FinishGeneration(outcome);
    }

    /**
     * `handleReset`: the result and the error are cleared and the form returns to the
     * initial plan with no task; the credential and the reference items are kept.
     */
    method Reset()
      modifies this
      ensures State() == old(State()).(generatedData := None, error := None, plan := initialPlan,
                                       taskInput := "", uploadedFile := None)
    {
      generatedData := None;
      error := None;
      plan := initialPlan;
      taskInput := "";
      uploadedFile := None;
    }
  }
}
