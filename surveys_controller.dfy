/**
 * The survey controllers: each reads an id from the end of `rawPath` and,
 * for the writing endpoints, fields from the JSON body, makes one call to
 * the survey service and turns its outcome into a status and a body. The
 * service is an oracle from the call (with its arguments) to how the call
 * settled.
 */
module SurveysController {
  import opened Text
  import opened Js
  import opened Http

  /** A call to the survey service, with the arguments the controller passes. */
  datatype SurveyCall =
    | CreateSurveyCall(projectId: Option<JsValue>, name: Option<JsValue>)
    | GetSurveysCall(projectNumber: Option<nat>)
    | AddQuestionCall(surveyId: nat, questionText: Option<JsValue>, variantA: Option<JsValue>, variantB: Option<JsValue>)
    | RunSurveyCall(surveyId: nat, personaIds: Option<JsValue>, sampleSize: Option<JsValue>)
    | GetSurveyResultsCall(surveyId: nat)
    | DeleteSurveyCall(surveyId: nat)

  type SurveyService = SurveyCall -> ServiceOutcome

  const InvalidSurveyId: Response := Response(400, ErrorBody("Invalid survey ID"))

  /** The survey id at the end of a path, `/api/surveys/<digits>` followed by suffix. */
  function SurveyId(path: string, suffix: string): Option<nat> {
    IdFrom(path, "/api/surveys/", suffix)
  }

  /** A survey id written into the path is the one read back, whatever precedes it. */
  lemma SurveyIdRoundTrip(stage: string, n: nat, suffix: string)
    ensures SurveyId(stage + "/api/surveys/" + DecimalText(n) + suffix, suffix) == Some(n)
  {
    IdFromDecimal(stage, "/api/surveys/", n, suffix);
  }

  /** `createSurvey`: 201 with the created survey, or 500; the body is parsed before the try. */
  function CreateSurvey(ev: Event, parse: string -> Option<JsValue>, service: SurveyService): (r: Outcome<Response>)
    ensures r.Threw? <==> ReadBody(ev.body, parse).Threw?
    ensures r.Returned? ==> r.value.status == 201 || r.value == Response(500, ErrorBody("Failed to create survey"))
    ensures r.Returned? ==>
      var v := ReadBody(ev.body, parse).value;
      var call := CreateSurveyCall(Get(v, "project_id"), Get(v, "name"));
      (r.value.status == 201 <==> service(call).Resolved?)
      && (service(call).Resolved? ==>
            r.value.body == MessageWith("Survey created successfully", "survey", service(call).value))
  {
    match ReadBody(ev.body, parse)
    case Threw(e) => Threw(e)
    case Returned(v) =>
      var call := CreateSurveyCall(Get(v, "project_id"), Get(v, "name"));
      Returned(Settle(service(call), 201, s => MessageWith("Survey created successfully", "survey", s), "Failed to create survey"))
  }

  /**
   * `getSurveys`: never 400; a path without a project id passes undefined
   * to the service. Reading `rawPath` of an event without one throws.
   */
  function GetSurveys(ev: Event, service: SurveyService): (r: Outcome<Response>)
    ensures r.Threw? <==> ev.rawPath.None?
    ensures r.Threw? ==> r.error == TypeError
    ensures r.Returned? ==>
      var call := GetSurveysCall(IdFrom(ev.rawPath.value, "/api/projects/", "/surveys"));
      (r.value.status == 200 <==> service(call).Resolved?)
      && (service(call).Resolved? ==> r.value.body == Payload(service(call).value))
      && (service(call).Rejected? ==> r.value == Response(500, ErrorBody("Failed to fetch surveys")))
  {
    match ev.rawPath
    case None => Threw(TypeError)
    case Some(path) =>
      var call := GetSurveysCall(IdFrom(path, "/api/projects/", "/surveys"));
      Returned(Settle(service(call), 200, s => Payload(s), "Failed to fetch surveys"))
  }

  /**
   * `addQuestion`: the path and then the body are read before the id is
   * checked, so a missing rawPath or an unparseable body throws even when
   * the id is missing; without an id, 400; otherwise 201 or 500.
   */
  function AddQuestion(ev: Event, parse: string -> Option<JsValue>, service: SurveyService): (r: Outcome<Response>)
    ensures ev.rawPath.None? ==> r == Threw(TypeError)
    ensures ev.rawPath.Some? ==> (r.Threw? <==> ReadBody(ev.body, parse).Threw?)
    ensures r.Returned? ==>
      var id := SurveyId(ev.rawPath.value, "/questions");
      var v := ReadBody(ev.body, parse).value;
      (id.None? ==> r.value == InvalidSurveyId)
      && (id.Some? ==>
            var call := AddQuestionCall(id.value, Get(v, "question_text"), Get(v, "variant_a"), Get(v, "variant_b"));
            (service(call).Resolved? ==>
               r.value == Response(201, MessageWith("Question added successfully", "question", service(call).value)))
            && (service(call).Rejected? ==> r.value == Response(500, ErrorBody("Failed to add question"))))
  {
    match ev.rawPath
    case None => Threw(TypeError)
    case Some(path) =>
      var id := SurveyId(path, "/questions");
      match ReadBody(ev.body, parse)
      case Threw(e) => Threw(e)
      case Returned(v) =>
        if id.None? then Returned(InvalidSurveyId)
        else
          var call := AddQuestionCall(id.value, Get(v, "question_text"), Get(v, "variant_a"), Get(v, "variant_b"));
          Returned(Settle(service(call), 201, q => MessageWith("Question added successfully", "question", q), "Failed to add question"))
  }

  /**
   * `runSurvey`: like addQuestion, with persona_ids and sample_size passed
   * on as they are; 200 with the service's result, or 500.
   */
  function RunSurvey(ev: Event, parse: string -> Option<JsValue>, service: SurveyService): (r: Outcome<Response>)
    ensures ev.rawPath.None? ==> r == Threw(TypeError)
    ensures ev.rawPath.Some? ==> (r.Threw? <==> ReadBody(ev.body, parse).Threw?)
    ensures r.Returned? ==>
      var id := SurveyId(ev.rawPath.value, "/run");
      var v := ReadBody(ev.body, parse).value;
      (id.None? ==> r.value == InvalidSurveyId)
      && (id.Some? ==>
            var call := RunSurveyCall(id.value, Get(v, "persona_ids"), Get(v, "sample_size"));
            (service(call).Resolved? ==> r.value == Response(200, Payload(service(call).value)))
            && (service(call).Rejected? ==> r.value == Response(500, ErrorBody("Failed to run survey"))))
  {
    match ev.rawPath
    case None => Threw(TypeError)
    case Some(path) =>
      var id := SurveyId(path, "/run");
      match ReadBody(ev.body, parse)
      case Threw(e) => Threw(e)
      case Returned(v) =>
        if id.None? then Returned(InvalidSurveyId)
        else
          var call := RunSurveyCall(id.value, Get(v, "persona_ids"), Get(v, "sample_size"));
          Returned(Settle(service(call), 200, x => Payload(x), "Failed to run survey"))
  }

  /** `getSurveyResults`: 400 without an id, otherwise 200 with the results or 500. */
  function GetSurveyResults(ev: Event, service: SurveyService): (r: Outcome<Response>)
    ensures r.Threw? <==> ev.rawPath.None?
    ensures r.Threw? ==> r.error == TypeError
    ensures r.Returned? ==>
      var id := SurveyId(ev.rawPath.value, "/results");
      (id.None? ==> r.value == InvalidSurveyId)
      && (id.Some? && service(GetSurveyResultsCall(id.value)).Resolved? ==>
            r.value == Response(200, Payload(service(GetSurveyResultsCall(id.value)).value)))
      && (id.Some? && service(GetSurveyResultsCall(id.value)).Rejected? ==>
            r.value == Response(500, ErrorBody("Failed to fetch survey results")))
  {
    match ev.rawPath
    case None => Threw(TypeError)
    case Some(path) =>
      var id := SurveyId(path, "/results");
      if id.None? then Returned(InvalidSurveyId)
      else Returned(Settle(service(GetSurveyResultsCall(id.value)), 200, x => Payload(x), "Failed to fetch survey results"))
  }

  /** `deleteSurvey`: 400 without an id, otherwise 200 with a confirmation or 500. */
  function DeleteSurvey(ev: Event, service: SurveyService): (r: Outcome<Response>)
    ensures r.Threw? <==> ev.rawPath.None?
    ensures r.Threw? ==> r.error == TypeError
    ensures r.Returned? ==>
      var id := SurveyId(ev.rawPath.value, "");
      (id.None? ==> r.value == InvalidSurveyId)
      && (id.Some? && service(DeleteSurveyCall(id.value)).Resolved? ==>
            r.value == Response(200, MessageBody("Survey deleted successfully")))
      && (id.Some? && service(DeleteSurveyCall(id.value)).Rejected? ==>
            r.value == Response(500, ErrorBody("Failed to delete survey")))
  {
    match ev.rawPath
    case None => Threw(TypeError)
    case Some(path) =>
      var id := SurveyId(path, "");
      if id.None? then Returned(InvalidSurveyId)
      else Returned(Settle(service(DeleteSurveyCall(id.value)), 200, _ => MessageBody("Survey deleted successfully"), "Failed to delete survey"))
  }

  /**
   * The four id-checking controllers answer a path without an id the same
   * way whatever the service would have done: the service is not consulted.
   */
  lemma InvalidIdSkipsService(ev: Event, parse: string -> Option<JsValue>, s1: SurveyService, s2: SurveyService)
    requires ev.rawPath.Some?
    ensures SurveyId(ev.rawPath.value, "/questions").None? ==>
      AddQuestion(ev, parse, s1) == AddQuestion(ev, parse, s2)
      && (ReadBody(ev.body, parse).Returned? ==> AddQuestion(ev, parse, s1) == Returned(InvalidSurveyId))
    ensures SurveyId(ev.rawPath.value, "/run").None? ==>
      RunSurvey(ev, parse, s1) == RunSurvey(ev, parse, s2)
      && (ReadBody(ev.body, parse).Returned? ==> RunSurvey(ev, parse, s1) == Returned(InvalidSurveyId))
    ensures SurveyId(ev.rawPath.value, "/results").None? ==>
      GetSurveyResults(ev, s1) == GetSurveyResults(ev, s2) && GetSurveyResults(ev, s1) == Returned(InvalidSurveyId)
    ensures SurveyId(ev.rawPath.value, "").None? ==>
      DeleteSurvey(ev, s1) == DeleteSurvey(ev, s2) && DeleteSurvey(ev, s1) == Returned(InvalidSurveyId)
  {
  }

  /** getSurveys answers 200 or 500, never 400, and so does createSurvey with 201 or 500. */
  lemma NoValidationFailures(ev: Event, parse: string -> Option<JsValue>, service: SurveyService)
    ensures GetSurveys(ev, service).Returned? ==> GetSurveys(ev, service).value.status in {200, 500}
    ensures CreateSurvey(ev, parse, service).Returned? ==> CreateSurvey(ev, parse, service).value.status in {201, 500}
  {
  }

  /**
   * An id-checking controller reaches the service exactly when the path
   * ends with the survey id in decimal: runSurvey on `.../api/surveys/n/run`
   * calls the service for survey n with the body's persona_ids and
   * sample_size, unchanged.
   */
  lemma RunSurveyForwards(stage: string, n: nat, ev: Event, parse: string -> Option<JsValue>, service: SurveyService)
    requires ev.rawPath == Some(stage + "/api/surveys/" + DecimalText(n) + "/run")
    requires ReadBody(ev.body, parse).Returned?
    ensures var v := ReadBody(ev.body, parse).value;
      var call := RunSurveyCall(n, Get(v, "persona_ids"), Get(v, "sample_size"));
      RunSurvey(ev, parse, service) == Returned(Settle(service(call), 200, x => Payload(x), "Failed to run survey"))
  {
    SurveyIdRoundTrip(stage, n, "/run");
  }

  /** An unparseable body makes addQuestion and runSurvey throw even when the path carries no id. */
  lemma BadBodyThrowsBeforeIdCheck(ev: Event, parse: string -> Option<JsValue>, service: SurveyService)
    requires ev.rawPath.Some?
    requires parse(if TruthyText(ev.body) then ev.body.value else "{}").None?
    ensures AddQuestion(ev, parse, service) == Threw(SyntaxError)
    ensures RunSurvey(ev, parse, service) == Threw(SyntaxError)
    ensures CreateSurvey(ev, parse, service) == Threw(SyntaxError)
  {
  }
}
