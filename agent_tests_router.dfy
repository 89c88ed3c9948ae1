/**
 * The agent-test router of the newer backend layout: it reads the path and
 * the method from whichever event format it is given, sends POST
 * `.../suggest-tasks` and POST `.../run` to their handlers, and answers
 * everything else with 404 `{ error: "Not found" }`.
 */
module AgentTestsRouter {
  import opened Text
  import opened Js
  import opened Http
  import opened AgentTests
  import opened AgentTestsHandlers

  /**
   * `a || b || ... || fallback` over optional strings: the first candidate
   * that is present and non-empty, else the fallback.
   */
  function FirstTruthy(candidates: seq<Option<string>>, fallback: string): (r: string)
    ensures (forall i :: 0 <= i < |candidates| ==> !TruthyText(candidates[i])) ==> r == fallback
    ensures forall k ::
      (0 <= k < |candidates| && TruthyText(candidates[k])
       && forall i :: 0 <= i < k ==> !TruthyText(candidates[i]))
      ==> r == candidates[k].value
  {
    if |candidates| == 0 then fallback
    else if TruthyText(candidates[0]) then candidates[0].value
    else FirstTruthy(candidates[1..], fallback)
  }

  /** `event.path || event.rawPath || event.requestContext?.http?.path || ""` */
  function RequestPath(ev: Event): (p: string)
    ensures p == "" || (TruthyText(ev.path) && p == ev.path.value)
      || (TruthyText(ev.rawPath) && p == ev.rawPath.value)
      || (TruthyText(ev.contextPath) && p == ev.contextPath.value)
  {
    FirstTruthy([ev.path, ev.rawPath, ev.contextPath], "")
  }

  /** `(event.httpMethod || event.requestContext?.http?.method || "GET").toUpperCase()` */
  function RequestMethod(ev: Event): (m: string)
    ensures TruthyText(ev.httpMethod) ==> m == Upper(ev.httpMethod.value)
    ensures !TruthyText(ev.httpMethod) && TruthyText(ev.contextMethod) ==> m == Upper(ev.contextMethod.value)
    ensures !TruthyText(ev.httpMethod) && !TruthyText(ev.contextMethod) ==> m == "GET"
  {
    var c := [ev.httpMethod, ev.contextMethod];
    assert TruthyText(ev.httpMethod) ==> TruthyText(c[0]);
    assert TruthyText(ev.contextMethod) ==> TruthyText(c[1]);
    Upper(FirstTruthy(c, "GET"))
  }

  /** The path is the first of path, rawPath and the context path that is non-empty, else "". */
  lemma RequestPathChoice(ev: Event)
    ensures TruthyText(ev.path) ==> RequestPath(ev) == ev.path.value
    ensures !TruthyText(ev.path) && TruthyText(ev.rawPath) ==> RequestPath(ev) == ev.rawPath.value
    ensures !TruthyText(ev.path) && !TruthyText(ev.rawPath) && TruthyText(ev.contextPath) ==>
      RequestPath(ev) == ev.contextPath.value
    ensures RequestPath(ev) == "" <==>
      !TruthyText(ev.path) && !TruthyText(ev.rawPath) && !TruthyText(ev.contextPath)
  {
    var c := [ev.path, ev.rawPath, ev.contextPath];
    if TruthyText(ev.path) {
      assert TruthyText(c[0]);
    } else if TruthyText(ev.rawPath) {
      assert TruthyText(c[1]);
    } else if TruthyText(ev.contextPath) {
      assert TruthyText(c[2]);
    }
  }

  /**
   * The method counts as POST exactly when the chosen method is "post" in
   * any mix of cases; with no method at all it is GET.
   */
  lemma RequestMethodPost(ev: Event)
    ensures var m := FirstTruthy([ev.httpMethod, ev.contextMethod], "GET");
      RequestMethod(ev) == "POST" <==>
        |m| == 4 && forall i :: 0 <= i < 4 ==> m[i] == "POST"[i] || m[i] == "post"[i]
    ensures !TruthyText(ev.httpMethod) && !TruthyText(ev.contextMethod) ==> RequestMethod(ev) == "GET"
  {
    var m := FirstTruthy([ev.httpMethod, ev.contextMethod], "GET");
    UpperMatches(m, "POST");
    assert forall i :: 0 <= i < 4 ==> LowerChar("POST"[i]) == "post"[i];
    assert Upper("GET") == "GET";
  }

  datatype Route = SuggestTasksRoute | RunRoute | NoRoute

  /** A path never ends with both "/suggest-tasks" and "/run". */
  lemma SuffixesDisjoint(path: string)
    ensures !(EndsWith(path, "/suggest-tasks") && EndsWith(path, "/run"))
  {
    // The one ends in 's', the other in 'n'.
    if EndsWith(path, "/suggest-tasks") {
      EndsWithAt(path, "/suggest-tasks", 1);
    }
    if EndsWith(path, "/run") {
      EndsWithAt(path, "/run", 1);
    }
  }

  /** The branch `handler` takes for a path and an upper-cased method. */
  function RouteOf(path: string, verb: string): (r: Route)
    ensures r == SuggestTasksRoute <==> verb == "POST" && EndsWith(path, "/suggest-tasks")
    ensures r == RunRoute <==> verb == "POST" && EndsWith(path, "/run")
  {
    SuffixesDisjoint(path);
    if EndsWith(path, "/suggest-tasks") && verb == "POST" then SuggestTasksRoute
    else if EndsWith(path, "/run") && verb == "POST" then RunRoute
    else NoRoute
  }

  /** `handleRun`: parse `event.body ?? "{}"`, then the run endpoint with the hyphen step text. */
  function HandleRun(body: Option<string>, parse: string -> Outcome<RunBody>): (r: Outcome<Reply>)
    ensures parse(body.GetOr("{}")).Threw? ==> r == Threw(parse(body.GetOr("{}")).error)
    ensures parse(body.GetOr("{}")).Returned? ==> r == Returned(RunTests(parse(body.GetOr("{}")).value, RouterStep))
  {
    match parse(body.GetOr("{}"))
    case Threw(e) => Threw(e)
    case Returned(b) => Returned(RunTests(b, RouterStep))
  }

  /**
   * `handler`: the parse oracles stand for JSON.parse on the two request
   * shapes, uuid for the identifier supply.
   */
  function Handle(ev: Event, parseRun: string -> Outcome<RunBody>,
                  parseSuggest: string -> Outcome<SuggestBody>, uuid: nat -> string): (r: Outcome<Reply>)
    ensures RouteOf(RequestPath(ev), RequestMethod(ev)) == NoRoute ==>
      r == Returned(Reply(404, ErrorReply("Not found")))
    ensures RouteOf(RequestPath(ev), RequestMethod(ev)) == SuggestTasksRoute ==>
      r == SuggestTasksHandler(ev.body, parseSuggest, uuid)
    ensures RouteOf(RequestPath(ev), RequestMethod(ev)) == RunRoute ==> r == HandleRun(ev.body, parseRun)
  {
    match RouteOf(RequestPath(ev), RequestMethod(ev))
    case SuggestTasksRoute => SuggestTasksHandler(ev.body, parseSuggest, uuid)
    case RunRoute => HandleRun(ev.body, parseRun)
    case NoRoute => Returned(Reply(404, ErrorReply("Not found")))
  }

  /**
   * The two copies of the run endpoint differ only in the step text: the
   * status, runId, score and every task field but details agree.
   */
  lemma StepTextOnlyInDetails(b: RunBody, s: string, t: string)
    ensures var x, y := RunTests(b, s), RunTests(b, t);
      x.status == y.status
      && (x.body.RunReply? <==> y.body.RunReply?)
      && (x.body.RunReply? ==>
            x.body.runId == y.body.runId && x.body.overallScore == y.body.overallScore
            && |x.body.tasks| == |y.body.tasks|
            && forall i :: 0 <= i < |x.body.tasks| ==>
                 x.body.tasks[i].(details := None) == y.body.tasks[i].(details := None))
  {
    if ValidRun(b) {
      RunScore(b, s);
      RunScore(b, t);
    }
  }

  /**
   * Suggesting tasks for a url and then running exactly what came back
   * passes the first and third task, fails the second, echoes the runId
   * and scores 67 (given a non-empty generated runId).
   */
  lemma SuggestThenRun(url: string, uuid: nat -> string, step: string)
    requires url != "" && uuid(0) != ""
    ensures var s := SuggestTasks(SuggestBody(Some(url)), uuid);
      var r := RunTests(RunBody(Some(s.body.runId), Some(s.body.url), Some(s.body.tasks)), step);
      r.status == 200 && r.body.runId == s.body.runId
      && |r.body.tasks| == 3
      && r.body.tasks[0].success == Some(true) && r.body.tasks[1].success == Some(false)
      && r.body.tasks[2].success == Some(true)
      && r.body.overallScore == 67
  {
    var s := SuggestTasks(SuggestBody(Some(url)), uuid);
    RunThreeTasks(RunBody(Some(s.body.runId), Some(s.body.url), Some(s.body.tasks)), step);
  }
}
