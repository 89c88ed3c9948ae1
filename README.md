# A verified model of the another.ai backend core

The backend is a set of AWS Lambda handlers. It runs synthetic-consumer
A/B surveys and stubbed "agent tests" of a website. This project models in
Dafny the parts of it that compute something:

- **Response normalisation** (`LlmService`). A language model's completion
  text becomes a record: a preference A or B, a rationale of at most 1000
  characters, and a confidence in [0, 1]. Parsing falls back to the text's
  trailing `{...}`, and every missing field has a safe default.
- **The batch sampler** (`LlmService`). It makes `sampleSize` draws. Each
  draw retries a failed attempt up to `retries` times. A draw that runs out
  of attempts contributes a fixed fallback record.
- **SQL statement builders** (`AgentTestsService`). They build the `$n`
  placeholders and value lists of the multi-row insert of agent-test tasks
  and of the partial update of one task. These are modelled as imperative
  methods with loop invariants.
- **Agent-test handlers and routers** (`AgentTestsHandlers`,
  `AgentTestsRouter`, `AgentTestsGateway`). They validate the request, fix
  the suggested tasks, mark the stub run and score it.
- **Folder routers and controllers** (`SurveysRouter`, `ProjectsRouter`,
  `PersonasRouter` and their controllers). The routers map an API Gateway
  event of either payload format to a controller. The controllers read the
  id at the end of the path, call the service once and map the outcome to a
  status and a body.

The shared modules are:

- `Text`: JavaScript string operations.
- `Js`: JSON values, truthiness, coercions and thrown errors.
- `Http`: events, the v2-then-v1 method/path rule, end-anchored
  `(\d+)` captures and controller plumbing.

Everything outside the code shown is a parameter of the functions that use
it:

- `JSON.parse` and `JSON.stringify`;
- the `String`/`Number` coercions of numbers;
- the completion call;
- the services;
- `uuid()`;
- the clock.

Routers and controllers are pure functions. They return a response or the
error the handler would throw.

Where the code and its design description differ, the model follows the
code:

- The fallback regex `/\{[\s\S]*\}$/` takes the text from the **first** `{`
  to a final `}`, not from the last top-level object (`LlmService.BraceTail`).
- The two copies of the run endpoint differ in their step text: an en dash in
  `agentTestsRun.ts` and a hyphen in the routed `handleRun`. One function
  takes the step text as a parameter, and `AgentTestsRouter.StepTextOnlyInDetails`
  shows that nothing else differs.
- The survey and persona routers accept payload-format-1.0 events, but the
  controllers they call read only `rawPath`. A v1 GET of a project's surveys
  is routed and then throws (`SurveysRouter.V1GetSurveysThrows`).
- The two agent-test routers treat the method differently.
  `backend/routes/agent-tests/routes.ts` compares it case-sensitively, while
  `backend/src/routes/agent-tests/routes.ts` upper-cases it first
  (`AgentTestsGateway.LowerCasePostDiffers`).

## Model

| member | source | states |
|---|---|---|
| LlmService.Clamp | backend/services/llm.service.ts:54-56 | The result is at least min. It is at most max whenever min ≤ max. It is n itself when n is already in range, min below the range and max above it. |
| LlmService.PersonaLines | backend/services/llm.service.ts:58-66 | The lines are exactly, in this order: `Name: <name>`, then `Role: <role>`, `Description: <description>` and `Traits (JSON): <traits>`, each only when its field is truthy. No line is empty, and a tagged line is present exactly when its field is truthy. |
| LlmService.PersonaLinesInOrder | backend/services/llm.service.ts:59-65 | Filtering the four candidate lines keeps the name line and the line of each truthy field, in the order of the array. |
| LlmService.PersonaToText | backend/services/llm.service.ts:58-66 | The text starts with `Name: <name>`. When no field contains a line break, the text has no empty line. |
| LlmService.FieldText | backend/services/llm.service.ts:129-131 | A missing or falsy field reads as the empty string. |
| LlmService.PreferenceOf | backend/services/llm.service.ts:129-130 | The preference is B exactly when the trimmed field text is "B" or "b". Anything else, including a missing field, is A. |
| LlmService.RationaleOf | backend/services/llm.service.ts:131 | The rationale is a prefix of the trimmed field text, of length min(trimmed length, 1000). It is "" when the field is missing or falsy. |
| LlmService.ConfidenceAsWritten | backend/services/llm.service.ts:132 | The code's confidence: a number in [0,1], or NaN. It is 0.5 when the field is missing or null. |
| LlmService.ConfidenceNaNForText | backend/services/llm.service.ts:132 | A confidence field that `Number` cannot read, such as "high", yields NaN as written. |
| LlmService.Confidence | backend/services/llm.service.ts:132 | The corrected confidence is always in [0,1]. It is 0.5 when the field is missing, null or not a number. A numeric field is clamped into [0,1]. |
| LlmService.ConfidenceAgrees | backend/services/llm.service.ts:132 | The corrected confidence equals the code's wherever the code yields a number. The code yields NaN exactly for a present, non-null field that `Number` cannot read. |
| LlmService.EffectiveContent | backend/services/llm.service.ts:120 | Missing or empty content reads as "{}". Any other content is kept as it is. |
| LlmService.IndexOf | backend/services/llm.service.ts:125 | The position of the first occurrence of a character, or the length when it does not occur. |
| LlmService.ParseContent | backend/services/llm.service.ts:121-127 | Content that parses is the document. Otherwise the brace tail is parsed. With no tail the result is `{}`, and a tail that does not parse is the one unparseable case. |
| LlmService.BraceTail | backend/services/llm.service.ts:125-126 | The fallback match exists exactly when the text ends with `}` and contains `{`. The match is the suffix starting at the first `{`. |
| LlmService.GenerateSingle | backend/services/llm.service.ts:120-136 | It throws exactly when the brace tail does not parse or the content is the JSON null. Only SyntaxError or TypeError is thrown. The rationale has at most 1000 characters and the confidence is in [0,1]. `raw` is present iff raw output is enabled, and then equals the effective content. The preference is B iff the trimmed field is "B"/"b". |
| LlmService.MalformedOutputDefaults | backend/services/llm.service.ts:122-127 | Text that is not JSON and has no trailing `{...}` gives the defaults (A, "", 0.5) and does not throw. |
| LlmService.EmptyContentDefaults | backend/services/llm.service.ts:120-132 | Missing or empty content gives the defaults (A, "", 0.5). |
| LlmService.Retry | backend/services/llm.service.ts:148-163 | A draw makes between 1 and retries+1 attempts, and every attempt before the last failed. A successful last attempt gives its record. A failed last attempt, with no retry left, gives the fallback record. |
| LlmService.RunOne | backend/services/llm.service.ts:148-163 | The recursive `runOne(attempt)` returns the record and attempt count of the retry rule. |
| LlmService.BatchGenerate | backend/services/llm.service.ts:141-177 | There are exactly max(sampleSize, 0) records, record i is that of draw i under the retry rule, and each draw makes 1 to retries+1 attempts. Without a retries argument, retries is 2. |
| LlmService.AllAttemptsFail | backend/services/llm.service.ts:153-159 | A draw whose every attempt fails makes retries+1 attempts and contributes exactly {A, "Fallback due to error", 0.5}. |
| LlmService.FirstAttemptSucceeds | backend/services/llm.service.ts:150-152 | A draw whose first attempt succeeds makes one attempt and keeps that record. |
| AgentTestsService.Placeholder | backend/src/services/agentTests.service.ts:20 | The placeholder `$k` is `$` followed by at least one character. |
| AgentTestsService.PlaceholderNames | backend/src/services/agentTests.service.ts:20 | After the `$` of `$k` comes a digit string whose value is k, so the placeholder names parameter k. |
| AgentTestsService.PlaceholderInjective | backend/src/services/agentTests.service.ts:18-22 | Distinct numbers give distinct placeholders. |
| AgentTestsService.NumberingConsecutive | backend/src/services/agentTests.service.ts:18-22 | The row groups of n tasks name $1..$5n, each once and in ascending order. |
| AgentTestsService.InsertAgentTestTasks | backend/src/services/agentTests.service.ts:12-28 | There is no statement for an empty list. Otherwise there is one row group per task and 5n values. The value named by placeholder 5i+c+1 is column c of task i: id, runId, type, description, then timestamp. |
| AgentTestsService.RowsAligned | backend/src/services/agentTests.service.ts:18-22 | Placeholder k of row group i names value k−1, which is the matching column of task i. |
| AgentTestsService.ColumnsThrough | backend/src/services/agentTests.service.ts:50-69 | The blocks so far select exactly the given fields of those columns, in column order. |
| AgentTestsService.SetColumns | backend/src/services/agentTests.service.ts:50-69 | The SET clause covers exactly the fields that are not undefined, with null counting as set, in the order success, error_reason, video_url, details. |
| AgentTestsService.Assignments | backend/src/services/agentTests.service.ts:54-69 | There is one SET item per column, and item i is numbered $i+1. |
| AgentTestsService.Bindings | backend/src/services/agentTests.service.ts:54-69 | There is one value per column, in the same order. Details are bound as their JSON text. |
| AgentTestsService.ClausesThroughColumns | backend/src/services/agentTests.service.ts:50-69 | After the first n blocks, the lists hold the items and values of the given columns below n, and paramIndex is one past the last number. |
| AgentTestsService.AddClause | backend/src/services/agentTests.service.ts:54-69 | One field block takes the state before it to the state after it. |
| AgentTestsService.SetClauses | backend/src/services/agentTests.service.ts:50-69 | The items and values are those of the given columns, numbered from $1, and paramIndex ends at the value count plus one. |
| AgentTestsService.UpdateAgentTestTask | backend/src/services/agentTests.service.ts:41-78 | There is no statement exactly when no field is given. Otherwise the statement is the SET items joined by ", ", then `WHERE id = $k+1`, and the values are those of the items followed by taskId. |
| AgentTestsService.NoClauses | backend/src/services/agentTests.service.ts:71 | The SET list is empty exactly when every field is undefined. |
| AgentTests.TypeName | backend/src/types/agentTests.ts:1 | Each task type has a non-empty wire name. |
| AgentTests.TypeNamesDistinct | backend/src/types/agentTests.ts:1 | Different task types have different wire names, so the `type` column identifies the type. |
| AgentTestsHandlers.MarkTask | backend/src/handlers/agentTestsRun.ts:19-25 | The task keeps its id, type and description. The task at index 1 fails with "Stub: failed for demo purposes." and every other task passes with a null errorReason. videoUrl is null and details has one step. |
| AgentTestsHandlers.MarkTasks | backend/src/handlers/agentTestsRun.ts:19-25 | The output has the same number of tasks, each marked by its index. |
| AgentTestsHandlers.SuccessCount | backend/src/handlers/agentTestsRun.ts:27 | The number of passed tasks is at most the number of tasks. |
| AgentTestsHandlers.SuccessCountMarked | backend/src/handlers/agentTestsRun.ts:21-27 | After marking, n−1 tasks pass when n ≥ 2, and all of them otherwise. |
| AgentTestsHandlers.Score | backend/src/handlers/agentTestsRun.ts:28 | The score is the integer nearest to 100·s/n, with halves rounded up, and it lies in [0,100]. It is 100 when every task passed and 0 when none did. |
| AgentTestsHandlers.RunTests | backend/src/handlers/agentTestsRun.ts:11-34 | The status is 400 "Missing runId, url, or tasks" iff runId or url is falsy or tasks is missing or empty. Otherwise it is 200, with the runId echoed, a score in [0,100], and the tasks in order with their id/type/description kept and success iff index ≠ 1. |
| AgentTestsHandlers.RunScore | backend/src/handlers/agentTestsRun.ts:27-28 | The score of a valid run is 100 for one task, and round(100·(n−1)/n) otherwise. |
| AgentTestsHandlers.RunThreeTasks | backend/src/handlers/agentTestsRun.ts:19-28 | A three-task run passes tasks 0 and 2, fails task 1 with the stub reason, and scores 67. |
| AgentTestsHandlers.RunTestsHandler | backend/src/handlers/agentTestsRun.ts:8-41 | An absent body parses as "{}". A parse failure is thrown. Otherwise the run endpoint answers with the en-dash step text. |
| AgentTestsHandlers.DescriptionOf | backend/src/handlers/agentTestsSuggest.ts:22-36 | Each task type has a fixed description: one sentence that starts with a capital letter and ends with a full stop. |
| AgentTestsHandlers.DescriptionsDistinct | backend/src/handlers/agentTestsSuggest.ts:22-36 | Each task type has its own fixed description, and different types have different ones. |
| AgentTestsHandlers.SuggestTasks | backend/src/handlers/agentTestsSuggest.ts:12-43 | The status is 400 "Missing url" iff the url is missing or empty. Otherwise it is 200, with the first fresh id as runId, the url echoed, and three tasks with the next three ids, of types pricing_page, newsletter_subscribe and refund_policy in that order, each with its description. |
| AgentTestsHandlers.SuggestCoversEveryType | backend/src/handlers/agentTestsSuggest.ts:21-37 | The three suggested tasks include every type exactly once. |
| AgentTestsHandlers.SuggestTasksHandler | backend/src/handlers/agentTestsSuggest.ts:9-50 | An absent body parses as "{}". A parse failure is thrown. Otherwise the suggest endpoint answers. |
| AgentTestsRouter.FirstTruthy | backend/src/routes/agent-tests/routes.ts:11-12 | `a \|\| b \|\| … \|\| d` returns the first present, non-empty candidate, and the fallback when there is none. |
| AgentTestsRouter.RequestPath | backend/src/routes/agent-tests/routes.ts:11 | The path is "" or the value of one of path, rawPath and requestContext.http.path that is non-empty. |
| AgentTestsRouter.RequestMethod | backend/src/routes/agent-tests/routes.ts:12 | The method is httpMethod upper-cased when that is non-empty, else requestContext.http.method upper-cased when that is non-empty, else "GET". |
| AgentTestsRouter.RequestPathChoice | backend/src/routes/agent-tests/routes.ts:11 | The path is path, else rawPath, else requestContext.http.path, whichever is first non-empty. It is "" iff none is. |
| AgentTestsRouter.RequestMethodPost | backend/src/routes/agent-tests/routes.ts:12 | The method is POST exactly when the chosen method is "post" in any mix of cases. With no method it is GET. |
| AgentTestsRouter.SuffixesDisjoint | backend/src/routes/agent-tests/routes.ts:14-20 | No path ends with both "/suggest-tasks" and "/run". |
| AgentTestsRouter.RouteOf | backend/src/routes/agent-tests/routes.ts:14-26 | The suggest route is taken iff the method is POST and the path ends "/suggest-tasks". The run route is taken iff the method is POST and the path ends "/run". |
| AgentTestsRouter.HandleRun | backend/src/routes/agent-tests/routes.ts:72-105 | The routed run endpoint parses `body ?? "{}"`, throws on a parse failure and uses the hyphen step text. |
| AgentTestsRouter.Handle | backend/src/routes/agent-tests/routes.ts:10-27 | A suggest or run route goes to its handler. Anything else gives 404 `{error: "Not found"}`. |
| AgentTestsRouter.StepTextOnlyInDetails | backend/src/routes/agent-tests/routes.ts:83-89 | The two copies of the run endpoint agree on the status, runId, score and every task field but details. |
| AgentTestsRouter.SuggestThenRun | backend/src/__tests__/agentTestsRoutes.test.ts:25-51 | Running the suggested tasks echoes the runId. It passes tasks 0 and 2, fails task 1 and scores 67. |
| AgentTestsGateway.RulesDisjoint | backend/routes/agent-tests/routes.ts:18-25 | No request matches both rules. |
| AgentTestsGateway.Dispatch | backend/routes/agent-tests/routes.ts:17-32 | A route is chosen iff its rule matches. Only the exact method "POST" is routed. |
| AgentTestsGateway.Handle | backend/routes/agent-tests/routes.ts:5-33 | The suggest and run routes go to their handlers. Everything else gives 404 `{message: "Not found"}`. |
| AgentTestsGateway.NeitherFormatNotFound | backend/routes/agent-tests/routes.ts:6-15 | An event of neither format has no method and gives 404. |
| AgentTestsGateway.LowerCasePostDiffers | backend/routes/agent-tests/routes.ts:18-25 | A v2 "post" to .../api/agent-tests/run gives 404 here, while the other agent-test router runs the tests. |
| Http.Normalise | backend/routes/surveys/routes.ts:15-24 | A truthy requestContext.http.method is used with rawPath. Otherwise httpMethod is used with path, but only if both are truthy. Otherwise neither is defined. |
| Http.CaptureId | backend/routes/surveys/routes.ts:32-37 | A capture is a digit string, and the path ends with prefix + capture + suffix. |
| Http.CaptureIdExact | backend/routes/surveys/routes.ts:32-37 | When the prefix ends in a non-digit, the capture is d exactly when d is a digit string and the path ends with prefix + d + suffix. |
| Http.IdTail | backend/routes/surveys/routes.ts:64-69 | A path an id pattern matches ends with the suffix. With an empty suffix, it ends with a digit. |
| Http.ReadBody | backend/controllers/surveys.controller.ts:7 | An absent or empty body reads as "{}". Text the parser rejects throws SyntaxError, and a `null` body throws TypeError. A body read this way is never null. |
| Http.ErrorText | backend/controllers/projects.controller.ts:95 | The error text is the message when it is non-empty, and the error's string form otherwise. |
| Http.Settle | backend/controllers/surveys.controller.ts:8-21 | A resolved call gives the success status and body. Any rejection gives 500 with the fixed error. |
| Http.IdFrom | backend/controllers/surveys.controller.ts:48-49 | There is an id exactly when the anchored pattern matches, and the id is the number the captured digits denote. |
| Http.IdFromDecimal | backend/controllers/surveys.controller.ts:48-49 | An id n written in decimal at the end of the path is read back as n, whatever precedes it. |
| Http.IdFromNone | backend/controllers/surveys.controller.ts:48-57 | There is no id exactly when no digit string sits between the prefix and suffix at the end of the path. |
| SurveysController.SurveyIdRoundTrip | backend/controllers/surveys.controller.ts:77-78 | The survey id written into the path is the one read. |
| SurveysController.CreateSurvey | backend/controllers/surveys.controller.ts:4-22 | It throws iff the body cannot be read. Otherwise it gives 201 with the created survey iff the service resolves, and else 500 "Failed to create survey". |
| SurveysController.GetSurveys | backend/controllers/surveys.controller.ts:24-43 | It throws iff rawPath is missing. Otherwise it asks for the captured project id, or undefined, and gives 200 with the list or 500 "Failed to fetch surveys". |
| SurveysController.AddQuestion | backend/controllers/surveys.controller.ts:45-72 | It throws for a missing rawPath or an unreadable body. Without an id it gives 400 "Invalid survey ID". Otherwise it gives 201 with the question, or 500 "Failed to add question". |
| SurveysController.RunSurvey | backend/controllers/surveys.controller.ts:74-101 | It behaves like AddQuestion, with persona_ids and sample_size passed on unchanged. The result is 200 with the service's result, or 500 "Failed to run survey". |
| SurveysController.GetSurveyResults | backend/controllers/surveys.controller.ts:103-129 | It throws iff rawPath is missing. Otherwise it gives 400 without an id, and else 200 with the results or 500 "Failed to fetch survey results". |
| SurveysController.DeleteSurvey | backend/controllers/surveys.controller.ts:131-157 | It throws iff rawPath is missing. Otherwise it gives 400 without an id, and else 200 "Survey deleted successfully" or 500 "Failed to delete survey". |
| SurveysController.InvalidIdSkipsService | backend/controllers/surveys.controller.ts:51-57 | Without an id, the four id-checking controllers give 400 whatever the service would do. |
| SurveysController.NoValidationFailures | backend/controllers/surveys.controller.ts:24-43 | getSurveys answers only 200 or 500, and createSurvey only 201 or 500. |
| SurveysController.RunSurveyForwards | backend/controllers/surveys.controller.ts:77-88 | On `.../api/surveys/n/run` the service is asked to run survey n with the body's persona_ids and sample_size. |
| SurveysController.BadBodyThrowsBeforeIdCheck | backend/controllers/surveys.controller.ts:48-57 | An unparseable body throws SyntaxError even when the path has no id. |
| ProjectsController.CreateProject | backend/controllers/projects.controller.ts:4-22 | It throws iff the body cannot be read. Otherwise it gives 201 with the created project, or 500 "Failed to create project". |
| ProjectsController.UserIdArgument | backend/controllers/projects.controller.ts:27-29 | A non-empty user_id query parameter is passed as `Number(user_id)`. Otherwise undefined is passed. |
| ProjectsController.GetProjects | backend/controllers/projects.controller.ts:24-42 | It answers only 200 or 500. A resolved call gives 200 with the service's list, and a rejection gives 500 "Failed to fetch projects". |
| ProjectsController.ProjectPath | backend/controllers/projects.controller.ts:48 | The path is rawPath when that is non-empty, and else path. |
| ProjectsController.ProjectIdRoundTrip | backend/controllers/projects.controller.ts:48-51 | The project id written at the end of the path is the one read. |
| ProjectsController.GetProject | backend/controllers/projects.controller.ts:44-99 | Without an id it gives 400. A falsy project gives 404 "Project not found". A rejection whose message contains "not found" gives 404 with that message. Any other rejection gives 500 "Failed to fetch project" with the message or string form. It throws only for a null rejection. It answers 200 iff the project is truthy. |
| ProjectsController.GetProjectNotFound | backend/controllers/projects.controller.ts:64-88 | It answers 404 exactly when the project is falsy or the rejection says "not found". |
| ProjectsController.ProjectIdEitherFormat | backend/controllers/projects.controller.ts:47-51 | v1 and v2 events for the same project read the same id. |
| ProjectsController.DeleteProject | backend/controllers/projects.controller.ts:101-135 | Without an id it gives 400. Otherwise it gives 200 "Project deleted successfully", or 500 "Failed to delete project" with the message or string form. It throws only for a null rejection. |
| PersonasController.GetPersonas | backend/controllers/personas.controller.ts:4-21 | It gives 200 with the list, or 500 "Failed to fetch personas". |
| PersonasController.PersonaIdRoundTrip | backend/controllers/personas.controller.ts:26-27 | The persona id written at the end of the path is the one read. |
| PersonasController.GetPersona | backend/controllers/personas.controller.ts:23-49 | It throws iff rawPath is missing. It gives 400 "Invalid persona ID" iff there is no id. Otherwise it gives 200 with the persona, or 500 "Failed to fetch persona". |
| PersonasController.InvalidPersonaIdSkipsService | backend/controllers/personas.controller.ts:28-34 | Without an id the answer is 400, whatever the service would do. |
| PersonasController.GetPersonaAsksForId | backend/controllers/personas.controller.ts:26-36 | On `.../api/personas/n` the service is asked for persona n. |
| SurveysRouter.MatchTail | backend/routes/surveys/routes.ts:27-69 | Each rule fixes the last characters of the paths it matches. |
| SurveysRouter.RulesDisjoint | backend/routes/surveys/routes.ts:27-69 | No request matches two of the six rules. |
| SurveysRouter.Dispatch | backend/routes/surveys/routes.ts:26-76 | A route is chosen iff its rule matches, and none is chosen iff no rule matches. |
| SurveysRouter.Handle | backend/routes/surveys/routes.ts:12-77 | Each matched route goes to its controller with the whole event. Everything else gives 404 `{message: "Not found"}`. |
| SurveysRouter.RunSurveyEndToEnd | backend/routes/surveys/routes.ts:48-53 | A v2 POST to `<stage>/api/surveys/n/run` runs survey n with the body's fields, for any stage. |
| SurveysRouter.V1GetSurveysThrows | backend/routes/surveys/routes.ts:21-37 | A v1 GET of `.../api/projects/n/surveys` is routed and then throws, because getSurveys reads only rawPath. |
| ProjectsRouter.ListAndItemDisjoint | backend/routes/projects/routes.ts:25-30 | No path is both the list path and a by-id path. |
| ProjectsRouter.RulesDisjoint | backend/routes/projects/routes.ts:22-33 | No request matches two of the four rules. |
| ProjectsRouter.Dispatch | backend/routes/projects/routes.ts:22-38 | A route is chosen iff its rule matches, and none is chosen iff no rule matches. |
| ProjectsRouter.Handle | backend/routes/projects/routes.ts:9-39 | Each matched route goes to its controller. Everything else gives 404 `{message: "Not found"}`. |
| ProjectsRouter.GetProjectEndToEnd | backend/routes/projects/routes.ts:28-30 | A GET of `<stage>/api/projects/n`, in either format, reaches getProject with id n and never the 400 answer. |
| PersonasRouter.RulesDisjoint | backend/routes/personas/routes.ts:23-30 | No request matches both rules. |
| PersonasRouter.Dispatch | backend/routes/personas/routes.ts:23-36 | A route is chosen iff its rule matches. Only GET is routed. |
| PersonasRouter.Handle | backend/routes/personas/routes.ts:7-37 | Each matched route goes to its controller. Everything else gives 404 `{message: "Not found"}`. |
| PersonasRouter.OnlyGet | backend/routes/personas/routes.ts:23-36 | Any method but GET gives 404. |
| PersonasRouter.GetPersonaEndToEnd | backend/routes/personas/routes.ts:28-30 | A v2 GET of `<stage>/api/personas/n` asks the service for persona n. |
| Text.Trim | backend/services/llm.service.ts:129-131 | `trim` gives a contiguous part of the text that has no JavaScript whitespace at either end. TrimPadded fixes which part. |
| Text.TrimPadded | backend/services/llm.service.ts:129-131 | Trimming removes exactly the whitespace padding around a text that has none at its own ends. |
| Text.TrimUnpadded | backend/services/llm.service.ts:129-131 | A text with no whitespace at either end is left as it is. |
| Text.UpperMatches | backend/src/routes/agent-tests/routes.ts:12 | An upper-cased text equals a capital word exactly when each character is that letter in either case. |
| Text.ParseDecimalText | backend/controllers/surveys.controller.ts:49 | Reading back the decimal text of n gives n. |
| Text.DecimalText | backend/src/services/agentTests.service.ts:20 | `${n}` of a natural number is a digit string with no leading zero. |
| Text.NonEmpty | backend/services/llm.service.ts:65 | `filter(Boolean)` keeps exactly the non-empty strings, and keeps a non-empty first element first. |
| Text.NonEmptyAppend | backend/services/llm.service.ts:65 | Filtering a concatenation is the concatenation of the filtered parts, so the kept strings stay in order, duplicates included. |
| Text.NonEmptySingle | backend/services/llm.service.ts:65 | A single string is kept exactly when it is non-empty. |
| Text.JoinLinesNoBlank | backend/services/llm.service.ts:65 | Joining non-empty lines that have no line breaks gives a text with no empty line. |

## Findings

| source | as written | input that shows it | evidently intended | confidence | as-written member | corrected member |
|---|---|---|---|---|---|---|
| backend/services/llm.service.ts:132 | `clamp(Number(parsed.confidence ?? 0.5), 0, 1)`. NaN passes through `Math.min`/`Math.max`, so the result is NaN. | A completion `{"preference":"A","confidence":"high"}` | A confidence in [0, 1], with 0.5 when it is missing or unreadable (the type's comment says `0..1`) | not executed | LlmService.ConfidenceNaNForText | LlmService.Confidence |

`LlmService.GenerateSingle` uses the corrected confidence.
`LlmService.ConfidenceAgrees` shows that the two confidences agree wherever
the code yields a number.

## Left out

- Concurrency in `batchGenerateResponses` is not modelled: the `inFlight` counter, the spin-wait, the `setTimeout` backoff and `Promise.all`. Draws run one after another.
- LlmService.RationaleOf: lengths count Unicode code points, while `slice(0, 1000)` and `length` count UTF-16 code units. A rationale with characters beyond U+FFFF is cut later than in the source, so it can be longer than 1000 code units. The source can instead keep half of a surrogate pair, which is not a Dafny character. The 1000 bound of LlmService.GenerateSingle is in code points for the same reason.
- LlmService.BatchGenerate: the contract describes only the calls the source completes. With concurrency 0 or less, the wait loop `while (inFlight >= concurrency)` never exits and the batch never resolves. sampleSize and retries are integers here. A fractional count in the source runs ⌈sampleSize⌉ draws and allows ⌈retries⌉ + 1 attempts.
- LlmService.BatchGenerate: keeps the records in draw order. The source pushes each record when its draw settles, so its order is completion order. Only the multiset of records is meaningful.
- The OpenAI call and the prompt text of `generateSingleResponse` are left out. They are replaced by a completion oracle indexed by (draw, attempt) that fails or returns content. The model name and temperature are left out too.
- Credentials and client caching (`loadApiKey`, `getClient`) are left out. They use Secrets Manager, environment variables and module-level state.
- `JSON.parse`, `JSON.stringify` and the text/number conversions of floating-point numbers are oracle parameters, not definitions.
- Text.Upper: maps only the ASCII letters. JavaScript's `toUpperCase` also maps other letters, such as `ß` to `SS`.
- AgentTestsHandlers.Score: computes `Math.round(100·s/n)` on exact rationals. IEEE rounding of `successCount / tasks.length * 100` is left out. Numbers are exact reals with NaN but no infinities: `Number("1e999")` reads as a large finite real, which clamps the same way.
- Http.IdFrom: reads a digit string's exact value. `Number` of a very long digit string loses precision.
- `uuid()` and `new Date().toISOString()` are parameters: a numbered supply of ids and a clock read per inserted task. Distinct ids are not assumed.
- Database I/O is left out: `db.query`, `createAgentTestRun` and `getAgentTestTasksByRunId`. The builders return the statement and its values instead of sending them.
- The compiled `backend/dist` copies, the legacy v2-only routers (`backend/routes/*.routes.ts`), the frontend, the infrastructure code and the driver scripts are not part of this model.
- The unused `CORS_HEADERS` constant of `backend/src/routes/agent-tests/routes.ts` is left out.
- The request-body types of the agent-test handlers are taken at face value: runId and url are strings and tasks is a list of tasks. A body whose fields have other JSON types is not modelled.
- The services are oracles from the call to a resolved JSON value or a rejection. A service resolving to `undefined`, which JSON cannot carry, is not distinguished from `null`. The survey service's own stubs are not modelled.
- The response headers (`Content-Type: application/json`) are left out, and so is the serialisation of bodies with `JSON.stringify`.
- AgentTestsService.AddClause: one method models the four field blocks of `updateAgentTestTask`, which differ only in the column and its SET item.
