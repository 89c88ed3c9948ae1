/**
 * The project router: four (method, path pattern) rules, tried in order;
 * anything else is 404 `{ message: "Not found" }`.
 */
module ProjectsRouter {
  import opened Text
  import opened Js
  import opened Http
  import opened ProjectsController

  datatype ProjectRoute =
    | CreateProjectRoute  // POST   .../api/projects
    | GetProjectsRoute    // GET    .../api/projects
    | GetProjectRoute     // GET    .../api/projects/<digits>
    | DeleteProjectRoute  // DELETE .../api/projects/<digits>

  /** The guard of each rule. */
  predicate Matches(req: Request, r: ProjectRoute) {
    match r
    case CreateProjectRoute => MethodAndSuffix(req, "POST", "/api/projects")
    case GetProjectsRoute => MethodAndSuffix(req, "GET", "/api/projects")
    case GetProjectRoute => req.httpMethod == Some("GET") && MatchesId(req.path, "/api/projects/", "")
    case DeleteProjectRoute => req.httpMethod == Some("DELETE") && MatchesId(req.path, "/api/projects/", "")
  }

  /** The list path ends in a letter, the by-id path in a digit: no path is both. */
  lemma ListAndItemDisjoint(path: string)
    ensures !(EndsWith(path, "/api/projects") && CaptureId(path, "/api/projects/", "").Some?)
  {
    if EndsWith(path, "/api/projects") {
      EndsWithAt(path, "/api/projects", 1);
    }
    if CaptureId(path, "/api/projects/", "").Some? {
      IdTail(path, "/api/projects/", "");
    }
  }

  /** No (method, path) satisfies two of the rules. */
  lemma RulesDisjoint(req: Request, x: ProjectRoute, y: ProjectRoute)
    requires Matches(req, x) && Matches(req, y)
    ensures x == y
  {
    ListAndItemDisjoint(req.path.value);
  }

  /** `handler`'s guards: a route exactly when its rule matches, none when no rule does. */
  function Dispatch(req: Request): (r: Option<ProjectRoute>)
    ensures forall x :: r == Some(x) <==> Matches(req, x)
    ensures r.None? <==> forall x :: !Matches(req, x)
  {
    var r :=
      if MethodAndSuffix(req, "POST", "/api/projects") then Some(CreateProjectRoute)
      else if MethodAndSuffix(req, "GET", "/api/projects") then Some(GetProjectsRoute)
      else if req.httpMethod == Some("GET") && MatchesId(req.path, "/api/projects/", "") then Some(GetProjectRoute)
      else if req.httpMethod == Some("DELETE") && MatchesId(req.path, "/api/projects/", "") then Some(DeleteProjectRoute)
      else None;
    assert forall x :: Matches(req, x) && r.Some? ==> r == Some(x) by {
      forall x | Matches(req, x) && r.Some? ensures r == Some(x) {
        RulesDisjoint(req, x, r.value);
      }
    }
    r
  }

  /** `handler`: the v2-then-v1 method and path, then the matching controller. */
  function Handle(ev: Event, parse: string -> Option<JsValue>, c: Coercions, service: ProjectService): (r: Outcome<Response>)
    ensures Dispatch(Normalise(ev)).None? ==> r == Returned(NotFound)
    ensures Matches(Normalise(ev), CreateProjectRoute) ==> r == CreateProject(ev, parse, service)
    ensures Matches(Normalise(ev), GetProjectsRoute) ==> r == Returned(GetProjects(ev, c, service))
    ensures Matches(Normalise(ev), GetProjectRoute) ==> r == GetProject(ev, service)
    ensures Matches(Normalise(ev), DeleteProjectRoute) ==> r == DeleteProject(ev, service)
  {
    match Dispatch(Normalise(ev))
    case None => Returned(NotFound)
    case Some(CreateProjectRoute) => CreateProject(ev, parse, service)
    case Some(GetProjectsRoute) => Returned(GetProjects(ev, c, service))
    case Some(GetProjectRoute) => GetProject(ev, service)
    case Some(DeleteProjectRoute) => DeleteProject(ev, service)
  }

  /**
   * Whichever event format carries it, a GET of `<stage>/api/projects/<n>`
   * reaches getProject, which asks the service for project n: never the
   * 400 answer.
   */
  lemma GetProjectEndToEnd(ev: Event, stage: string, n: nat, parse: string -> Option<JsValue>, c: Coercions,
                           service: ProjectService)
    requires var path := Some(stage + "/api/projects/" + DecimalText(n));
      (ev.contextMethod == Some("GET") && ev.rawPath == path)
      || (!TruthyText(ev.contextMethod) && ev.httpMethod == Some("GET") && ev.rawPath.None? && ev.path == path)
    ensures Handle(ev, parse, c, service) == GetProject(ev, service)
    ensures ProjectId(ev) == Some(n)
    ensures GetProject(ev, service) != Returned(InvalidProjectId)
  {
    var path := stage + "/api/projects/" + DecimalText(n);
    var req := Normalise(ev);
    assert req == Request(Some("GET"), Some(path)) && ProjectPath(ev) == Some(path) by {
      assert |path| > 0;
    }
    assert path == stage + "/api/projects/" + DecimalText(n) + "";
    IdFromDecimal(stage, "/api/projects/", n, "");
    assert Matches(req, GetProjectRoute);
    ProjectIdRoundTrip(ev, stage, n);
  }
}
