/**
 * The agent-test router of the API Gateway deployment: the v2-then-v1
 * method and path, then POST `.../api/agent-tests/suggest-tasks` and POST
 * `.../api/agent-tests/run` to the handlers; the method must be exactly
 * "POST", and anything else is 404 `{ message: "Not found" }`.
 */
module AgentTestsGateway {
  import opened Text
  import opened Js
  import opened Http
  import opened AgentTests
  import opened AgentTestsHandlers
  import AgentTestsRouter

  datatype GatewayRoute = SuggestTasksRoute | RunTestsRoute

  /** The guard of each rule. */
  predicate Matches(req: Request, r: GatewayRoute) {
    match r
    case SuggestTasksRoute => MethodAndSuffix(req, "POST", "/api/agent-tests/suggest-tasks")
    case RunTestsRoute => MethodAndSuffix(req, "POST", "/api/agent-tests/run")
  }

  /** No path ends with both suffixes. */
  lemma RulesDisjoint(req: Request)
    ensures !(Matches(req, SuggestTasksRoute) && Matches(req, RunTestsRoute))
  {
    if Matches(req, SuggestTasksRoute) {
      EndsWithAt(req.path.value, "/api/agent-tests/suggest-tasks", 1);
    }
    if Matches(req, RunTestsRoute) {
      EndsWithAt(req.path.value, "/api/agent-tests/run", 1);
    }
  }

  /** `handler`'s guards: a route exactly when its rule matches. */
  function Dispatch(req: Request): (r: Option<GatewayRoute>)
    ensures forall x :: r == Some(x) <==> Matches(req, x)
    ensures r.Some? ==> req.httpMethod == Some("POST")
  {
    RulesDisjoint(req);
    if MethodAndSuffix(req, "POST", "/api/agent-tests/suggest-tasks") then Some(SuggestTasksRoute)
    else if MethodAndSuffix(req, "POST", "/api/agent-tests/run") then Some(RunTestsRoute)
    else None
  }

  /** `handler`: the matching handler, given the event's body, or 404. */
  function Handle(ev: Event, parseRun: string -> Outcome<RunBody>,
                  parseSuggest: string -> Outcome<SuggestBody>, uuid: nat -> string): (r: Outcome<Reply>)
    ensures Dispatch(Normalise(ev)).None? ==> r == Returned(Reply(404, MessageReply("Not found")))
    ensures Matches(Normalise(ev), SuggestTasksRoute) ==> r == SuggestTasksHandler(ev.body, parseSuggest, uuid)
    ensures Matches(Normalise(ev), RunTestsRoute) ==> r == RunTestsHandler(ev.body, parseRun)
  {
    match Dispatch(Normalise(ev))
    case None => Returned(Reply(404, MessageReply("Not found")))
    case Some(SuggestTasksRoute) => SuggestTasksHandler(ev.body, parseSuggest, uuid)
    case Some(RunTestsRoute) => RunTestsHandler(ev.body, parseRun)
  }

  /** An event of neither format carries no method, and is 404. */
  lemma NeitherFormatNotFound(ev: Event, parseRun: string -> Outcome<RunBody>,
                              parseSuggest: string -> Outcome<SuggestBody>, uuid: nat -> string)
    requires !TruthyText(ev.contextMethod) && !(TruthyText(ev.httpMethod) && TruthyText(ev.path))
    ensures Handle(ev, parseRun, parseSuggest, uuid) == Returned(Reply(404, MessageReply("Not found")))
  {
  }

  /**
   * The two agent-test routers differ on the case of the method: a v2 event
   * with method "post" on `/api/agent-tests/run` is 404 here, while the
   * other router upper-cases the method and runs the tests.
   */
  lemma LowerCasePostDiffers(ev: Event, parseRun: string -> Outcome<RunBody>,
                             parseSuggest: string -> Outcome<SuggestBody>, uuid: nat -> string)
    requires ev.contextMethod == Some("post") && ev.rawPath == Some("/api/agent-tests/run")
    requires ev.httpMethod.None? && ev.path.None?
    ensures Handle(ev, parseRun, parseSuggest, uuid) == Returned(Reply(404, MessageReply("Not found")))
    ensures AgentTestsRouter.Handle(ev, parseRun, parseSuggest, uuid) == AgentTestsRouter.HandleRun(ev.body, parseRun)
  {
    AgentTestsRouter.RequestPathChoice(ev);
    AgentTestsRouter.RequestMethodPost(ev);
    var p := AgentTestsRouter.RequestPath(ev);
    assert p == "/api/agent-tests/run";
    assert EndsWith(p, "/run") by {
      assert p[|p| - 4..] == "/run";
    }
  }
}
