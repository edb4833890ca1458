# Assessment-materials generator — a Dafny model

The application helps a teacher turn an assessment plan into grading material. The plan holds the subject, domain, period, assessment elements, assessment method, achievement standard, key points and one description per achievement level (상/중/하). It is combined with a task, given as text, an attached PDF or both.

A generative model produces four things:
- a criteria sheet;
- an analytic rubric;
- a score-band summary;
- model answers.

This project models four files:
- **The generation service** (`services/geminiService.ts`). It makes three calls:
  - level descriptions from the achievement standard and key points;
  - key points from five plan fields;
  - the full materials.

  Each call checks its guards before any network traffic and builds the prompt and the request with its output schema. It then reads the reply: trim, empty test, parse. The full-materials call then reconciles the user's own `assessmentElements` back into its result. A rejected key is the only failure that propagates; it surfaces as an exception carrying a fixed message.
- **The page controller** (`App.tsx`). It holds the credential, the plan form, the task, the uploaded file and the reference list. It runs the handlers that call the service, and turns their outcomes into state and error messages.
- **The result view** (`components/OutputDisplay.tsx`). It sorts the rubric rows in place by score, highest first, and builds the Markdown text the copy button puts on the clipboard.
- **The records** (`types.ts`).

The modelling choices:
- **Oracles.** The backend is a function `backend: Request -> Reply`, and JSON parsing is a function `decode: string -> Decoded<T>`.
- **Calls.** The criteria and key-points calls return `Call(request, result)`. `request == None` means no backend call was made, and these two calls never throw by construction. Full generation returns the request and an `Outcome`, which is `Threw` only for a rejected key.
- **The full-generation function** is a method proved equal to the specification functions `MaterialsRequest` and `MaterialsOutcome`.
- **The page** is a class whose methods are specified against `State()`, a snapshot of its twelve state variables. Each asynchronous handler is split at its `await`.
- **The sort** is an in-place insertion sort on an `array`, proved sorted and a permutation.

Modules:
- `Wrappers` — `Option`.
- `Text` — ECMAScript `trim`, joining, substring occurrence and code-point string order.
- `Types`.
- `GeminiService`.
- `OutputDisplay`.
- `App`.

## Model

| member | source | states |
|---|---|---|
| Types.Level.Tag | types.ts:28 | a level's tag is one of 상, 중, 하 |
| Types.LevelCriteria.With | App.tsx:113-118 | replacing one level's description changes that level to the new value and leaves the other two as they were |
| Text.TrimStart | services/geminiService.ts:55 | the result is a suffix of the input, what was dropped is all whitespace, and the result starts with a non-whitespace character |
| Text.TrimEnd | services/geminiService.ts:55 | the result is a prefix of the input, what was dropped is all whitespace, and the result ends with a non-whitespace character |
| Text.Trim | services/geminiService.ts:55-56 | the trimmed text is empty or bounded by non-whitespace on both sides, and it is empty exactly when the input is all whitespace |
| Text.TrimPadded | services/geminiService.ts:55 | trimming a tightly bounded core padded by whitespace on both sides gives the core |
| Text.TrimStartSkipsWhitespace | services/geminiService.ts:55 | leading whitespace does not change the start-trimmed text |
| Text.TrimEndSkipsWhitespace | services/geminiService.ts:55 | trailing whitespace does not change the end-trimmed text |
| Text.Join | components/OutputDisplay.tsx:20 | `Array.join`: the elements with the separator between consecutive ones. It has no contract of its own; JoinSnoc and JoinAppend state its meaning |
| Text.JoinSnoc | components/OutputDisplay.tsx:20 | appending an element to a non-empty list appends the separator and then the element to the joined text |
| Text.JoinAppend | components/OutputDisplay.tsx:20 | joining two non-empty lists one after the other gives their joined texts with one separator between them |
| Text.Contains | services/geminiService.ts:331 | `String.includes`: some position holds the searched text, which can only be when it is no longer than the text searched |
| Text.ContainsPart | App.tsx:258 | a text contains every part it is concatenated from; InvalidKeyMessageMentionsKey uses it for the page's `includes('API 키')` test |
| Text.TrimJoinedAfterLineBreak | services/geminiService.ts:143 | trimming a leading line break, joined lines whose first starts visibly, and trailing whitespace removes only the line break and the joined text's trailing whitespace; nothing of the joined text when its last line ends visibly |
| Text.FillOccurs | services/geminiService.ts:87-92 | in a template of label and value pairs, the k-th value occurs right after every earlier pair and its own label |
| Text.FillOccursAll | services/geminiService.ts:83-100 | the same holds for every value when the pairs sit between a fixed head and tail |
| Text.LessIrreflexive | components/OutputDisplay.tsx:24 | no score label orders strictly before itself |
| Text.LessTransitive | components/OutputDisplay.tsx:24 | the score order is transitive |
| Text.LessTrichotomy | components/OutputDisplay.tsx:24 | any two score labels are equal or strictly ordered one way |
| Text.LessAsymmetric | components/OutputDisplay.tsx:24 | the score order is asymmetric |
| Text.NotLessIsLe | components/OutputDisplay.tsx:24 | not ordered after means ordered before or equal, which the comparator's sign relies on |
| Text.LeTransitive | components/OutputDisplay.tsx:24 | the non-strict score order is transitive |
| GeminiService.TryReply | services/geminiService.ts:55-59 | a reply yields a value exactly when it is text whose trimmed form is non-empty and parses, and the value is the parsed trimmed text |
| GeminiService.CriteriaPrompt | services/geminiService.ts:18-36 | the prompt embeds the achievement standard and then the key points at fixed positions |
| GeminiService.GenerateEvaluationCriteria | services/geminiService.ts:6-65 | no request without a key, or when the standard or the key points are blank after trimming; otherwise exactly the criteria request; a result exactly when the reply decodes; an empty reply gives no result |
| GeminiService.KeyPointsPrompt | services/geminiService.ts:83-100 | subject, domain, assessment method, assessment elements and achievement standard each appear right after their label, in that order |
| GeminiService.GenerateKeyPoints | services/geminiService.ts:67-128 | a request is sent exactly when there is a key and all five fields are non-empty, and it is the key-points request; results come only from a decodable reply; an empty reply gives no result |
| GeminiService.WhitespaceFieldGuards | services/geminiService.ts:13-16 | a whitespace-only standard or key points blocks the criteria call, but whitespace-only key-point inputs still reach the backend, because that guard tests only emptiness (lines 77-81) |
| GeminiService.FormatPlanForPrompt | services/geminiService.ts:131-144 | the plan summary is the plan's bullet lines joined by line breaks with only trailing whitespace removed, and it ends with the low-level description when that ends in a visible character |
| GeminiService.MaterialsPrompt | services/geminiService.ts:188-229 | the main prompt embeds the formatted plan inside its fence and the task section right after |
| GeminiService.TaskSection | services/geminiService.ts:161-186 | the section is empty exactly when the task is blank and there is no file; otherwise it is the combined, text-only or file-only variant, by which of the two are present |
| GeminiService.MaterialsRequest | services/geminiService.ts:231-314 | the request has one text part (the main prompt), followed by the file's inline data when a file is given, and uses the materials schema |
| GeminiService.Reconcile | services/geminiService.ts:322-327 | the result's assessment elements are the plan's; every other part of the generated data is kept |
| GeminiService.ReconcileIdempotent | services/geminiService.ts:322-327 | reconciling twice is the same as reconciling once |
| GeminiService.EmptyResponseIsNotKeyError | services/geminiService.ts:316-332 | the empty-response error text does not contain the invalid-key marker, so an empty reply is never reported as a rejected key |
| GeminiService.InvalidKeyMessageMentionsKey | services/geminiService.ts:331-332 | the message thrown for a rejected key contains "API 키", which the page uses to recognise it |
| GeminiService.Caught | services/geminiService.ts:329-335 | the catch block rethrows exactly when the message contains the invalid-key marker, and then with the fixed invalid-key message; otherwise it returns null |
| GeminiService.MaterialsOutcome | services/geminiService.ts:316-335 | the call returns data exactly when the reply decodes, and the data is reconciled with the plan; it throws exactly when the backend error mentions the invalid-key marker, and then throws the fixed invalid-key message; an empty reply returns null |
| GeminiService.AssembleMaterialsRequest | services/geminiService.ts:161-314 | the imperative prompt and part assembly builds exactly the materials request |
| GeminiService.SendMaterialsRequest | services/geminiService.ts:241-335 | the try/catch around the call yields exactly the materials outcome of the backend's reply |
| GeminiService.GenerateAssessmentMaterials | services/geminiService.ts:146-336 | without a key there is no request and the result is null; otherwise it sends the materials request and returns its materials outcome |
| OutputDisplay.SortedPairwise | components/OutputDisplay.tsx:23-24 | in a row sequence sorted by adjacent pairs, every later score is at most every earlier one |
| OutputDisplay.SortByScoreDesc | components/OutputDisplay.tsx:23-24 | the rubric rows are rearranged in place into descending score order and form a permutation of the original rows |
| OutputDisplay.SinkRow | components/OutputDisplay.tsx:23-24 | one insertion step extends the sorted prefix by one row and keeps the rows' multiset |
| OutputDisplay.SinkingSwap | components/OutputDisplay.tsx:23-24 | swapping an out-of-order pair moves the sinking row one place down and keeps the rest ordered |
| OutputDisplay.SwapKeepsRows | components/OutputDisplay.tsx:23-24 | swapping two neighbouring rows keeps the multiset of rows; the sort only reorders |
| OutputDisplay.SinkingDone | components/OutputDisplay.tsx:23-24 | when the sinking row meets a score at least its own, the prefix is sorted |
| OutputDisplay.StandardLevelsSortHighFirst | components/OutputDisplay.tsx:23-24 | the 상, 중 and 하 rows, scored 3점, 2점 and 1점, come out of the sort in that order whatever order they arrived in, so the tags read 상, 중, 하 |
| OutputDisplay.TrailingCells | components/OutputDisplay.tsx:20 | a criteria list always contributes at least one cell to a row |
| OutputDisplay.RowShape | components/OutputDisplay.tsx:20-26 | the table row template is the Markdown row over its two leading cells and the trailing cells |
| OutputDisplay.RubricHeaderCells | components/OutputDisplay.tsx:20 | the rubric header row is the Markdown row of 수준, 배점 and the criteria |
| OutputDisplay.Dashes | components/OutputDisplay.tsx:21 | n separator cells, each `---` |
| OutputDisplay.RubricSeparatorCells | components/OutputDisplay.tsx:21 | the separator row has one `---` cell for each column, the two fixed ones and one per criterion. Without criteria it has two `---` cells and one empty cell, matching the header's single empty trailing cell |
| OutputDisplay.RubricRowCells | components/OutputDisplay.tsx:25-26 | a rubric row is the Markdown row of the level tag, the score and its descriptions |
| OutputDisplay.RubricRow | components/OutputDisplay.tsx:25 | a rubric row opens and closes with a cell border; RubricRowCells gives its cells |
| OutputDisplay.RowLines | components/OutputDisplay.tsx:23-25 | one row line per level, in the order given: as many lines as levels, the i-th the row of the i-th level |
| OutputDisplay.RubricRows | components/OutputDisplay.tsx:23-26 | the rows, one line per level in the order given. It has no contract of its own; RubricRowsConcat states its order |
| OutputDisplay.RubricRowsConcat | components/OutputDisplay.tsx:26 | the rows keep the levels' order: two lists give their lines one after the other, separated by a line break |
| OutputDisplay.AlignedRowsFitHeader | components/OutputDisplay.tsx:20-26 | when every level has one description per criterion, each row has as many cells as the header |
| OutputDisplay.AnswerBlocks | components/OutputDisplay.tsx:38 | one block per model answer, in order |
| OutputDisplay.AnswersTextConcat | components/OutputDisplay.tsx:38 | the answers text of two lists is the two texts separated by a blank line |
| OutputDisplay.AnswersTextSingle | components/OutputDisplay.tsx:38 | one answer renders as its question heading, a blank line and the answer |
| OutputDisplay.SectionHeading | components/OutputDisplay.tsx:40-64 | every copied section opens with its `## ` heading |
| OutputDisplay.SectionLast | components/OutputDisplay.tsx:40-64 | a section ends with the last character of its body |
| OutputDisplay.SummaryTable | components/OutputDisplay.tsx:28-36 | the summary table is non-empty and ends with a cell border |
| OutputDisplay.TrimTemplate | components/OutputDisplay.tsx:40-66 | trimming the copy template removes exactly its leading line break and its indentation |
| OutputDisplay.RawCopyText | components/OutputDisplay.tsx:40-64 | the untrimmed template starts with a line break and ends with the closing indentation, which the trim removes |
| OutputDisplay.CopyText | components/OutputDisplay.tsx:66 | the copied text is empty or has no whitespace at either end |
| OutputDisplay.CopyTextSections | components/OutputDisplay.tsx:40-66 | the copied text is the criteria, rubric, answers and summary sections in that order, separated by blank lines, with no surrounding whitespace |
| OutputDisplay.Display.constructor | components/OutputDisplay.tsx:11-13 | the view holds the given data, its rows in a fresh array not shared with the caller, and no copy status |
| OutputDisplay.Display.RenderedRows | components/OutputDisplay.tsx:139 | rendering sorts the view's rows in place by descending score, keeping them a permutation |
| OutputDisplay.Display.CopyToClipboard | components/OutputDisplay.tsx:19-72 | copying sorts the rows in place, returns the trimmed Markdown text of the data, and sets the status to the success or failure message by the clipboard's answer |
| OutputDisplay.Display.ClearCopyStatus | components/OutputDisplay.tsx:69-71 | the copy status is cleared |
| App.WithField | App.tsx:99-101 | setting one plan field changes that field alone and keeps the criteria |
| App.PlanDeterminedByFields | App.tsx:99-101 | a plan is determined by its seven fields and its criteria, so field updates cover the whole plan |
| App.WithFieldSameValue | App.tsx:99-101 | writing a field's own value back leaves the plan unchanged |
| App.FormatKeyPoints | App.tsx:150 | the stored key points are the teaching-points label, the teaching points, the assessment-points label and the assessment points, in that order |
| App.AttachmentOf | App.tsx:250 | an uploaded file is passed to the service as its data and MIME type, and no file as none |
| App.StoredItems | App.tsx:45-56 | a missing or empty saved list, or one that does not parse, gives no items; otherwise the parsed items |
| App.RemoveById | App.tsx:235-237 | removing by id never lengthens the list |
| App.RemoveByIdMembers | App.tsx:235-237 | an item remains exactly when it was present and its id differs from the removed one |
| App.RemoveByIdConcat | App.tsx:235-237 | removal distributes over concatenation, so the order of the remaining items is kept |
| App.RemoveByIdAbsent | App.tsx:235-237 | removing an id no item has changes nothing |
| App.AddThenRemove | App.tsx:210-237 | appending an item with a fresh id and then removing that id restores the list |
| App.AfterGeneration | App.tsx:249-263 | the outcome sets the data, or the generic failure message. A throw shows the thrown message, or the unknown-error message when that is empty, and keeps the data and the other two loading flags. A message containing "API 키" also clears the stored and typed key. Loading ends and the form is untouched |
| App.RejectedKeyClearsCredential | App.tsx:256-260 | a backend error mentioning the invalid-key marker ends with no key, the key flag off, an empty key field and the invalid-key message shown |
| App.Page.constructor | App.tsx:26-65 | the page starts with no key, the first domain of the initial subject and the first period and method, empty task and file, the decoded saved references, and nothing loading |
| App.Page.LoadStoredApiKey | App.tsx:68-74 | a non-empty stored key becomes the key and sets the flag; otherwise nothing changes |
| App.Page.SetTempApiKey | App.tsx:334 | the key field holds the typed value |
| App.Page.SaveApiKey | App.tsx:81-90 | a typed key that is not blank becomes the key as typed, untrimmed; the flag is set and the error cleared. A blank one only shows the key-required error |
| App.Page.ClearApiKey | App.tsx:92-97 | the key, the typed key and the flag are cleared |
| App.Page.PlanChange | App.tsx:99-101 | one plan field is replaced |
| App.Page.SubjectChange | App.tsx:103-111 | the subject is replaced and the domain reset to that subject's first domain, which is empty exactly when the subject has none or an empty first one |
| App.Page.CriteriaChange | App.tsx:113-118 | one level description is replaced |
| App.Page.SetTaskInput | App.tsx:438 | the task text is replaced |
| App.Page.BeginCriteriaGeneration | App.tsx:121-122 | criteria loading starts and the error is cleared |
| App.Page.FinishCriteriaGeneration | App.tsx:124-136 | a result replaces all three level descriptions; no result shows the criteria failure message; loading ends |
| App.Page.GenerateCriteria | App.tsx:120-137 | the handler's final state is the criteria service call on the current standard, key points and key, applied as above |
| App.Page.BeginKeyPointsGeneration | App.tsx:140-141 | key-points loading starts and the error is cleared |
| App.Page.FinishKeyPointsGeneration | App.tsx:150-159 | a result becomes the formatted key points; no result shows the key-points failure message; loading ends |
| App.Page.GenerateKeyPoints | App.tsx:139-160 | the handler's final state is the key-points call on the five plan fields and the key, applied as above |
| App.Page.ChooseTaskFile | App.tsx:162-188 | a file is read exactly when it is a PDF; another type shows the unsupported-file error; no file changes nothing |
| App.Page.TaskFileLoaded | App.tsx:176-179 | the read file becomes the uploaded file |
| App.Page.TaskFileReadFailed | App.tsx:180-182 | a failed read shows the read-failure error |
| App.Page.RemoveFile | App.tsx:190-192 | the uploaded file is removed |
| App.Page.AddReferenceFile | App.tsx:198-217 | the file is appended to the reference list as a file item |
| App.Page.AddLink | App.tsx:219-233 | a link is appended only when both the URL and the title are non-empty; otherwise nothing changes |
| App.Page.RemoveReferenceItem | App.tsx:235-237 | the items with that id are removed from the reference list |
| App.Page.BeginGeneration | App.tsx:241-247 | generation proceeds exactly when there is task text or a file; otherwise only the task-missing error is shown; proceeding starts loading and clears the error and the old data |
| App.Page.FinishGeneration | App.tsx:249-263 | the new state is the outcome applied as in AfterGeneration, and the key flag still matches the key |
| App.Page.Generate | App.tsx:240-264 | without a task there is no request and only the error is set; without a key there is no request and the generic failure is shown; otherwise it sends exactly the materials request and applies its outcome. With the key flag off no request is sent, so the button's `!isApiKeySet` test (line 500) and the service's key guard agree |
| App.Page.Reset | App.tsx:266-284 | data and error are cleared, and the plan, task and file return to their initial values; the credential and the reference items are kept |

## Left out

- The model SDK is the `backend` function. When the service calls it, with what timeouts and over which transport is not modelled. Every failure of the SDK, network or HTTP layer becomes `ReplyError(message)`.
- `response.text` being absent is not modelled. A reply either has text or is an error.
- `JSON.parse` is the `decode` oracle. The model does not check that the parsed JSON matches the declared shape; the source does not check this either.
- Prompt prose is not modelled. The long instruction texts are short placeholder constants. The parts that shape the result are kept exactly: where the user's fields are embedded, the fences, the three task-section variants and the part order.
- The response schemas are named constants. Their field lists are not modelled.
- Throws that are not `Error`s are not modelled; every backend failure carries a message string. The service's `instanceof Error` test is therefore always true here. The page's "unknown error" fallback for an empty message is modelled, although the service only ever throws its own non-empty message.
- Reconcile: the source's `if (data.criteria)` test is always true here, because a parsed value always has a criteria record.
- Text.Less: `localeCompare` is modelled as code-point lexicographic order. The score labels (`3점`, `2점`, `1점`) compare the same way under both.
- OutputDisplay.SortByScoreDesc: sort stability is not proved. Only sortedness and permutation are.
- The `score || ''` fallback is not modelled, because scores are always strings in the model.
- Aliasing: the result view sorts the array it was given, which in the source is the page's own `generatedData`. The model gives the view a copy and keeps the page's data as a value.
- Concurrency is not modelled. That covers overlapping requests, and a second handler starting while another awaits. Each handler's steps are run in order.
- Browser effects are not modelled: `localStorage` writes, clipboard writes (given as a boolean), `setTimeout`, `scrollTo`, `console.error` and the print button.
- Browser inputs are parameters to the page methods: the `FileReader` data URL, `Date.now()` ids and `window.prompt` answers.
- The base64 split of the data URL is not modelled. The file's data is taken as already extracted.
- Rendering is not modelled: the JSX, the disabled-button conditions (`isLoading || !isApiKeySet`, line 500 of App.tsx), the help modal and the spinner.
- `constants.ts` is not part of this model. The curriculum map and the first period reach the page constructor as parameters.
- The key-points service tests only for empty fields, not blank ones, and a whitespace-only field still reaches the backend. The criteria call, by contrast, trims before its test. The model follows the code on both; GeminiService.WhitespaceFieldGuards states the difference.
- Failure kinds: the service does not return a typed "missing credential" or "invalid input" failure. Every guard and every non-key failure returns `null`, and only a rejected key throws. The model follows the code.
