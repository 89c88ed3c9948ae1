/**
 * The project controllers. getProject and deleteProject read the path from
 * `rawPath`, falling back to `path`, so they serve both event formats;
 * getProject tells a missing project (404) from a failure (500), also when
 * the service reports the missing project by throwing.
 */
module ProjectsController {
  import opened Text
  import opened Js
  import opened Http

  /** A call to the project service, with the arguments the controller passes. */
  datatype ProjectCall =
    | CreateProjectCall(userId: Option<JsValue>, name: Option<JsValue>, description: Option<JsValue>)
    | GetProjectsCall(userNumber: Option<Numeric>)
    | GetProjectCall(projectId: nat)
    | DeleteProjectCall(projectId: nat)

  type ProjectService = ProjectCall -> ServiceOutcome

  const InvalidProjectId: Response := Response(400, ErrorBody("Invalid project ID"))

  /** `createProject`: 201 with the created project, or 500; the body is parsed before the try. */
  function CreateProject(ev: Event, parse: string -> Option<JsValue>, service: ProjectService): (r: Outcome<Response>)
    ensures r.Threw? <==> ReadBody(ev.body, parse).Threw?
    ensures r.Returned? ==>
      var v := ReadBody(ev.body, parse).value;
      var call := CreateProjectCall(Get(v, "user_id"), Get(v, "name"), Get(v, "description"));
      (service(call).Resolved? ==>
         r.value == Response(201, MessageWith("Project created successfully", "project", service(call).value)))
      && (service(call).Rejected? ==> r.value == Response(500, ErrorBody("Failed to create project")))
  {
    match ReadBody(ev.body, parse)
    case Threw(e) => Threw(e)
    case Returned(v) =>
      var call := CreateProjectCall(Get(v, "user_id"), Get(v, "name"), Get(v, "description"));
      Returned(Settle(service(call), 201, p => MessageWith("Project created successfully", "project", p), "Failed to create project"))
  }

  /**
   * `user_id ? Number(user_id) : undefined` for the query parameter: a
   * non-empty string is converted, anything else is undefined.
   */
  function UserIdArgument(query: Option<map<string, string>>, c: Coercions): (r: Option<Numeric>)
    ensures r.Some? <==> query.Some? && "user_id" in query.value && query.value["user_id"] != ""
    ensures r.Some? ==> r.value == NumberOfText(query.value["user_id"], c)
  {
    if query.Some? && "user_id" in query.value && query.value["user_id"] != "" then
      Some(NumberOfText(query.value["user_id"], c))
    else None
  }

  /** `getProjects`: 200 with the list or 500; it never answers 400. */
  function GetProjects(ev: Event, c: Coercions, service: ProjectService): (r: Response)
    ensures r.status in {200, 500}
    ensures r.status == 200 <==> service(GetProjectsCall(UserIdArgument(ev.query, c))).Resolved?
    ensures var o := service(GetProjectsCall(UserIdArgument(ev.query, c)));
      (o.Resolved? ==> r == Response(200, Payload(o.value)))
      && (o.Rejected? ==> r == Response(500, ErrorBody("Failed to fetch projects")))
  {
    Settle(service(GetProjectsCall(UserIdArgument(ev.query, c))), 200, ps => Payload(ps), "Failed to fetch projects")
  }

  /** `event.rawPath || event.path` */
  function ProjectPath(ev: Event): (p: Option<string>)
    ensures TruthyText(ev.rawPath) ==> p == ev.rawPath
    ensures !TruthyText(ev.rawPath) ==> p == ev.path
  {
    if TruthyText(ev.rawPath) then ev.rawPath else ev.path
  }

  /** `path?.match(/\/api\/projects\/(\d+)$/)`, then `Number` of the capture. */
  function ProjectId(ev: Event): Option<nat> {
    match ProjectPath(ev)
    case None => None
    case Some(path) => IdFrom(path, "/api/projects/", "")
  }

  /** A project id written at the end of rawPath (or, without one, of path) is the one read back. */
  lemma ProjectIdRoundTrip(ev: Event, stage: string, n: nat)
    requires ProjectPath(ev) == Some(stage + "/api/projects/" + DecimalText(n))
    ensures ProjectId(ev) == Some(n)
  {
    assert stage + "/api/projects/" + DecimalText(n) == stage + "/api/projects/" + DecimalText(n) + "";
    IdFromDecimal(stage, "/api/projects/", n, "");
  }

  /** `error.message && error.message.includes("not found")` */
  predicate NotFoundError(e: Rejection)
    requires e.Rejection?
  {
    TruthyText(e.message) && Contains(e.message.value, "not found")
  }

  /**
   * `getProject`: 400 without an id; a falsy project is 404 "Project not
   * found"; a rejection whose message mentions "not found" is 404 carrying
   * that message, any other rejection 500 carrying its text; reading the
   * message of a null rejection throws.
   */
  function GetProject(ev: Event, service: ProjectService): (r: Outcome<Response>)
    ensures ProjectId(ev).None? ==> r == Returned(InvalidProjectId)
    ensures r.Threw? <==> ProjectId(ev).Some? && service(GetProjectCall(ProjectId(ev).value)) == Rejected(NullRejection)
    ensures r.Returned? ==> r.value.status in {200, 400, 404, 500}
    ensures ProjectId(ev).Some? ==>
      var o := service(GetProjectCall(ProjectId(ev).value));
      ((r.Returned? && r.value.status == 200) <==> o.Resolved? && Truthy(Some(o.value)))
      && (o.Resolved? && Truthy(Some(o.value)) ==> r == Returned(Response(200, Payload(o.value))))
      && (o.Resolved? && !Truthy(Some(o.value)) ==> r == Returned(Response(404, ErrorBody("Project not found"))))
      && (o.Rejected? && o.reason.Rejection? ==>
            if NotFoundError(o.reason)
            then r == Returned(Response(404, ErrorDetail("Project not found", o.reason.message.value)))
            else r == Returned(Response(500, ErrorDetail("Failed to fetch project", ErrorText(o.reason)))))
  {
    match ProjectId(ev)
    case None => Returned(InvalidProjectId)
    case Some(id) =>
      match service(GetProjectCall(id))
      case Resolved(p) =>
        if !Truthy(Some(p)) then Returned(Response(404, ErrorBody("Project not found")))
        else Returned(Response(200, Payload(p)))
      case Rejected(NullRejection) => Threw(TypeError)
      case Rejected(e) =>
        if NotFoundError(e) then Returned(Response(404, ErrorDetail("Project not found", e.message.value)))
        else Returned(Response(500, ErrorDetail("Failed to fetch project", ErrorText(e))))
  }

  /** getProject answers 404 exactly when the project is missing, however the service reports it. */
  lemma GetProjectNotFound(ev: Event, service: ProjectService)
    requires ProjectId(ev).Some?
    ensures var o := service(GetProjectCall(ProjectId(ev).value));
      (GetProject(ev, service).Returned? && GetProject(ev, service).value.status == 404) <==>
        (o.Resolved? && !Truthy(Some(o.value))) || (o.Rejected? && o.reason.Rejection? && NotFoundError(o.reason))
  {
  }

  /** Which project the id-taking controllers ask the service about does not depend on the event format. */
  lemma ProjectIdEitherFormat(v1: Event, v2: Event, stage: string, n: nat)
    requires v1.rawPath.None? && v1.path == Some(stage + "/api/projects/" + DecimalText(n))
    requires v2.rawPath == Some("/api/projects/" + DecimalText(n))
    ensures ProjectId(v1) == ProjectId(v2) == Some(n)
  {
    ProjectIdRoundTrip(v1, stage, n);
    assert "/api/projects/" + DecimalText(n) == "" + "/api/projects/" + DecimalText(n);
    ProjectIdRoundTrip(v2, "", n);
  }

  /**
   * `deleteProject`: 400 without an id, 200 with a confirmation, or 500
   * carrying the rejection's text; reading the message of a null rejection
   * throws.
   */
  function DeleteProject(ev: Event, service: ProjectService): (r: Outcome<Response>)
    ensures ProjectId(ev).None? ==> r == Returned(InvalidProjectId)
    ensures r.Threw? <==> ProjectId(ev).Some? && service(DeleteProjectCall(ProjectId(ev).value)) == Rejected(NullRejection)
    ensures ProjectId(ev).Some? ==>
      var o := service(DeleteProjectCall(ProjectId(ev).value));
      (o.Resolved? ==> r == Returned(Response(200, MessageBody("Project deleted successfully"))))
      && (o.Rejected? && o.reason.Rejection? ==>
            r == Returned(Response(500, ErrorDetail("Failed to delete project", ErrorText(o.reason)))))
  {
    match ProjectId(ev)
    case None => Returned(InvalidProjectId)
    case Some(id) =>
      match service(DeleteProjectCall(id))
      case Resolved(_) => Returned(Response(200, MessageBody("Project deleted successfully")))
      case Rejected(NullRejection) => Threw(TypeError)
      case Rejected(e) => Returned(Response(500, ErrorDetail("Failed to delete project", ErrorText(e))))
  }
}
