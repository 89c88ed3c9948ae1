/**
 * The survey router: six (method, path pattern) rules, tried in order,
 * each anchored at the end of the path only, so any stage prefix is
 * accepted; anything no rule matches is 404 `{ message: "Not found" }`.
 */
module SurveysRouter {
  import opened Text
  import opened Js
  import opened Http
  import opened SurveysController

  datatype SurveyRoute =
    | CreateSurveyRoute      // POST   .../api/surveys
    | GetSurveysRoute        // GET    .../api/projects/<digits>/surveys
    | AddQuestionRoute       // POST   .../api/surveys/<digits>/questions
    | RunSurveyRoute         // POST   .../api/surveys/<digits>/run
    | GetSurveyResultsRoute  // GET    .../api/surveys/<digits>/results
    | DeleteSurveyRoute      // DELETE .../api/surveys/<digits>

  /** The guard of each rule. */
  predicate Matches(req: Request, r: SurveyRoute) {
    match r
    case CreateSurveyRoute => MethodAndSuffix(req, "POST", "/api/surveys")
    case GetSurveysRoute => req.httpMethod == Some("GET") && MatchesId(req.path, "/api/projects/", "/surveys")
    case AddQuestionRoute => req.httpMethod == Some("POST") && MatchesId(req.path, "/api/surveys/", "/questions")
    case RunSurveyRoute => req.httpMethod == Some("POST") && MatchesId(req.path, "/api/surveys/", "/run")
    case GetSurveyResultsRoute => req.httpMethod == Some("GET") && MatchesId(req.path, "/api/surveys/", "/results")
    case DeleteSurveyRoute => req.httpMethod == Some("DELETE") && MatchesId(req.path, "/api/surveys/", "")
  }

  /** The last characters every path a rule matches ends with. */
  predicate TailFits(r: SurveyRoute, p: string) {
    match r
    case CreateSurveyRoute => |p| >= 2 && p[|p| - 1] == 's' && p[|p| - 2] == 'y'
    case GetSurveysRoute => |p| >= 2 && p[|p| - 1] == 's' && p[|p| - 2] == 'y'
    case AddQuestionRoute => |p| >= 2 && p[|p| - 1] == 's' && p[|p| - 2] == 'n'
    case RunSurveyRoute => |p| >= 2 && p[|p| - 1] == 'n' && p[|p| - 2] == 'u'
    case GetSurveyResultsRoute => |p| >= 2 && p[|p| - 1] == 's' && p[|p| - 2] == 't'
    case DeleteSurveyRoute => |p| >= 1 && IsDigit(p[|p| - 1])
  }

  lemma MatchTail(req: Request, r: SurveyRoute)
    requires Matches(req, r)
    ensures req.path.Some? && TailFits(r, req.path.value)
  {
    var p := req.path.value;
    match r
    case CreateSurveyRoute =>
      EndsWithAt(p, "/api/surveys", 1);
      EndsWithAt(p, "/api/surveys", 2);
    case GetSurveysRoute =>
      IdTail(p, "/api/projects/", "/surveys");
      EndsWithAt(p, "/surveys", 1);
      EndsWithAt(p, "/surveys", 2);
    case AddQuestionRoute =>
      IdTail(p, "/api/surveys/", "/questions");
      EndsWithAt(p, "/questions", 1);
      EndsWithAt(p, "/questions", 2);
    case RunSurveyRoute =>
      IdTail(p, "/api/surveys/", "/run");
      EndsWithAt(p, "/run", 1);
      EndsWithAt(p, "/run", 2);
    case GetSurveyResultsRoute =>
      IdTail(p, "/api/surveys/", "/results");
      EndsWithAt(p, "/results", 1);
      EndsWithAt(p, "/results", 2);
    case DeleteSurveyRoute =>
      IdTail(p, "/api/surveys/", "");
  }

  /** No (method, path) satisfies two of the rules. */
  lemma RulesDisjoint(req: Request, x: SurveyRoute, y: SurveyRoute)
    requires Matches(req, x) && Matches(req, y)
    ensures x == y
  {
    MatchTail(req, x);
    MatchTail(req, y);
  }

  /**
   * `handler`'s chain of guards: since the rules are disjoint, it picks a
   * route exactly when that route's rule matches, and none when no rule does.
   */
  function Dispatch(req: Request): (r: Option<SurveyRoute>)
    ensures forall x :: r == Some(x) <==> Matches(req, x)
    ensures r.None? <==> forall x :: !Matches(req, x)
  {
    var r :=
      if MethodAndSuffix(req, "POST", "/api/surveys") then Some(CreateSurveyRoute)
      else if req.httpMethod == Some("GET") && MatchesId(req.path, "/api/projects/", "/surveys") then Some(GetSurveysRoute)
      else if req.httpMethod == Some("POST") && MatchesId(req.path, "/api/surveys/", "/questions") then Some(AddQuestionRoute)
      else if req.httpMethod == Some("POST") && MatchesId(req.path, "/api/surveys/", "/run") then Some(RunSurveyRoute)
      else if req.httpMethod == Some("GET") && MatchesId(req.path, "/api/surveys/", "/results") then Some(GetSurveyResultsRoute)
      else if req.httpMethod == Some("DELETE") && MatchesId(req.path, "/api/surveys/", "") then Some(DeleteSurveyRoute)
      else None;
    assert forall x :: Matches(req, x) && r.Some? ==> r == Some(x) by {
      forall x | Matches(req, x) && r.Some? ensures r == Some(x) {
        RulesDisjoint(req, x, r.value);
      }
    }
    r
  }

  /**
   * `handler`: the event's method and path by the v2-then-v1 rule, then the
   * matching controller, which is given the whole event.
   */
  function Handle(ev: Event, parse: string -> Option<JsValue>, service: SurveyService): (r: Outcome<Response>)
    ensures Dispatch(Normalise(ev)).None? ==> r == Returned(NotFound)
    ensures Matches(Normalise(ev), CreateSurveyRoute) ==> r == CreateSurvey(ev, parse, service)
    ensures Matches(Normalise(ev), GetSurveysRoute) ==> r == GetSurveys(ev, service)
    ensures Matches(Normalise(ev), AddQuestionRoute) ==> r == AddQuestion(ev, parse, service)
    ensures Matches(Normalise(ev), RunSurveyRoute) ==> r == RunSurvey(ev, parse, service)
    ensures Matches(Normalise(ev), GetSurveyResultsRoute) ==> r == GetSurveyResults(ev, service)
    ensures Matches(Normalise(ev), DeleteSurveyRoute) ==> r == DeleteSurvey(ev, service)
  {
    match Dispatch(Normalise(ev))
    case None => Returned(NotFound)
    case Some(CreateSurveyRoute) => CreateSurvey(ev, parse, service)
    case Some(GetSurveysRoute) => GetSurveys(ev, service)
    case Some(AddQuestionRoute) => AddQuestion(ev, parse, service)
    case Some(RunSurveyRoute) => RunSurvey(ev, parse, service)
    case Some(GetSurveyResultsRoute) => GetSurveyResults(ev, service)
    case Some(DeleteSurveyRoute) => DeleteSurvey(ev, service)
  }

  /**
   * A v2 POST to `<stage>/api/surveys/<n>/run` with a readable body runs
   * survey n with the body's persona_ids and sample_size, for any stage.
   */
  lemma RunSurveyEndToEnd(ev: Event, stage: string, n: nat, parse: string -> Option<JsValue>, service: SurveyService)
    requires ev.contextMethod == Some("POST")
    requires ev.rawPath == Some(stage + "/api/surveys/" + DecimalText(n) + "/run")
    requires ReadBody(ev.body, parse).Returned?
    ensures var v := ReadBody(ev.body, parse).value;
      Handle(ev, parse, service) ==
        Returned(Settle(service(RunSurveyCall(n, Get(v, "persona_ids"), Get(v, "sample_size"))), 200, x => Payload(x), "Failed to run survey"))
  {
    SurveyIdRoundTrip(stage, n, "/run");
    assert Matches(Normalise(ev), RunSurveyRoute);
    RunSurveyForwards(stage, n, ev, parse, service);
  }

  /**
   * The router accepts a v1 event, but getSurveys reads only rawPath: a v1
   * GET of a project's surveys is routed and then throws.
   */
  lemma V1GetSurveysThrows(ev: Event, stage: string, n: nat, parse: string -> Option<JsValue>, service: SurveyService)
    requires ev.contextMethod.None? && ev.rawPath.None?
    requires ev.httpMethod == Some("GET") && ev.path == Some(stage + "/api/projects/" + DecimalText(n) + "/surveys")
    ensures Handle(ev, parse, service) == Threw(TypeError)
  {
    IdFromDecimal(stage, "/api/projects/", n, "/surveys");
    assert Matches(Normalise(ev), GetSurveysRoute);
  }
}
