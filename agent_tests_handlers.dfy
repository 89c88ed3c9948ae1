/**
 * The stubbed agent-test endpoints: suggest three fixed tasks for a URL,
 * and "run" a list of tasks by marking every task but the second as
 * passed and scoring the run. JSON.parse is an oracle from the body text
 * to the fields read, failing with the error it throws; uuid() is a
 * numbered supply of identifiers.
 */
module AgentTestsHandlers {
  import opened Text
  import opened Js
  import opened AgentTests

  // ---------------------------------------------------------------------------
  // Run

  const FailureReason := "Stub: failed for demo purposes."

  /** The step text of `runTestsHandler` (with an en dash). */
  const HandlerStep := "Stubbed runner \U{2013} no real browser yet."

  /** The step text of the routed `handleRun` (with a hyphen). */
  const RouterStep := "Stubbed runner - no real browser yet."

  /** The task at index idx after the stub runner: the second task fails, every other one passes. */
  function MarkTask(t: AgentTestTask, idx: nat, step: string): (r: AgentTestTask)
    ensures r.id == t.id && r.taskType == t.taskType && r.description == t.description
    ensures r.success == Some(idx != 1)
    ensures r.errorReason == if idx == 1 then Present(FailureReason) else Null
    ensures r.videoUrl == Null && r.details == Some(Details([step]))
  {
    t.(success := Some(idx != 1),
       errorReason := if idx == 1 then Present(FailureReason) else Null,
       videoUrl := Null,
       details := Some(Details([step])))
  }

  /** `tasks.map((t, idx) => ({ ...t, ... }))` */
  function MarkTasks(tasks: seq<AgentTestTask>, step: string): (r: seq<AgentTestTask>)
    ensures |r| == |tasks|
    ensures forall i :: 0 <= i < |tasks| ==> r[i] == MarkTask(tasks[i], i, step)
  {
    seq(|tasks|, i requires 0 <= i < |tasks| => MarkTask(tasks[i], i, step))
  }

  /** `tasks.filter(t => t.success).length` */
  function SuccessCount(tasks: seq<AgentTestTask>): (n: nat)
    ensures n <= |tasks|
  {
    if |tasks| == 0 then 0
    else SuccessCount(tasks[..|tasks| - 1]) + (if tasks[|tasks| - 1].success == Some(true) then 1 else 0)
  }

  /** After marking, every task but the second counts as a success. */
  lemma {:induction false} SuccessCountMarked(tasks: seq<AgentTestTask>, step: string)
    ensures SuccessCount(MarkTasks(tasks, step)) == if |tasks| >= 2 then |tasks| - 1 else |tasks|
  {
    if |tasks| > 0 {
      var marked := MarkTasks(tasks, step);
      var prefix := tasks[..|tasks| - 1];
      assert marked[..|marked| - 1] == MarkTasks(prefix, step);
      SuccessCountMarked(prefix, step);
    }
  }

  /**
   * `Math.round((successes / n) * 100)` on exact rationals: the integer
   * nearest to 100·successes/n, halves rounded up.
   */
  function Score(successes: nat, n: nat): (r: int)
    requires 0 < n && successes <= n
    ensures 0 <= r <= 100
    ensures 2 * n * r - n <= 200 * successes < 2 * n * r + n
    ensures successes == n ==> r == 100
    ensures successes == 0 ==> r == 0
  {
    var r := (200 * successes + n) / (2 * n);
    ScoreBounds(successes, n, r);
    r
  }

  lemma ScoreBounds(successes: nat, n: nat, r: int)
    requires 0 < n && successes <= n && r == (200 * successes + n) / (2 * n)
    ensures 0 <= r <= 100
    ensures 2 * n * r - n <= 200 * successes < 2 * n * r + n
    ensures successes == n ==> r == 100
    ensures successes == 0 ==> r == 0
  {
    var d, x := 2 * n, 200 * successes + n;
    var m := x % d;
    assert x == d * r + m && 0 <= m < d;
    assert d * (r + 1) == d * r + d;
    assert 0 <= r by {
      if r < 0 {
        MulLess(d, r, 0);
      }
    }
    assert r <= 100 by {
      if r > 100 {
        MulLess(d, 100, r);
      }
    }
    if successes == n {
      assert x == d * 100 + n;
      if r < 100 {
        MulLess(d, r, 100);
      }
    }
  }

  /** Multiplying by a positive factor keeps a strict order, with the gap at least the factor. */
  lemma MulLess(d: int, a: int, b: int)
    requires 0 < d && a < b
    ensures d * a + d <= d * b
  {
    var k := b - a - 1;
    assert 0 <= d * k by { assert 0 <= k; }
    assert d * b == d * a + d * k + d;
  }

  /** Whether a run request passes validation: runId, url and a non-empty task list. */
  predicate ValidRun(b: RunBody) {
    TruthyText(b.runId) && TruthyText(b.url) && b.tasks.Some? && |b.tasks.value| > 0
  }

  /**
   * The run endpoint after parsing, with its step text: 400 with "Missing
   * runId, url, or tasks" unless the request is valid; otherwise 200 with
   * the request's runId, the marked tasks in order and the rounded
   * percentage of passed tasks.
   */
  function RunTests(b: RunBody, step: string): (r: Reply)
    ensures r.status == 400 <==> !ValidRun(b)
    ensures !ValidRun(b) ==> r == Reply(400, ErrorReply("Missing runId, url, or tasks"))
    ensures ValidRun(b) ==>
      r.status == 200 && r.body.RunReply? && r.body.runId == b.runId.value
      && 0 <= r.body.overallScore <= 100
      && |r.body.tasks| == |b.tasks.value|
      && (forall i :: 0 <= i < |r.body.tasks| ==>
            r.body.tasks[i].id == b.tasks.value[i].id
            && r.body.tasks[i].taskType == b.tasks.value[i].taskType
            && r.body.tasks[i].description == b.tasks.value[i].description
            && r.body.tasks[i].success == Some(i != 1)
            && r.body.tasks[i].videoUrl == Null
            && r.body.tasks[i].details == Some(Details([step])))
  {
    if !ValidRun(b) then Reply(400, ErrorReply("Missing runId, url, or tasks"))
    else
      var tasks := MarkTasks(b.tasks.value, step);
      Reply(200, RunReply(b.runId.value, Score(SuccessCount(tasks), |tasks|), tasks))
  }

  /** The score of a valid run: 100 for one task, otherwise that of n - 1 passes out of n. */
  lemma RunScore(b: RunBody, step: string)
    requires ValidRun(b)
    ensures var n := |b.tasks.value|;
      RunTests(b, step).body.overallScore == if n == 1 then 100 else Score(n - 1, n)
  {
    SuccessCountMarked(b.tasks.value, step);
  }

  /** A three-task run: tasks 0 and 2 pass, task 1 fails with the stub reason, and the score is 67. */
  lemma RunThreeTasks(b: RunBody, step: string)
    requires ValidRun(b) && |b.tasks.value| == 3
    ensures var r := RunTests(b, step);
      r.body.tasks[0].success == Some(true) && r.body.tasks[2].success == Some(true)
      && r.body.tasks[1].success == Some(false)
      && r.body.tasks[1].errorReason == Present(FailureReason)
      && r.body.overallScore == 67
  {
    RunScore(b, step);
  }

  /**
   * `runTestsHandler`: parse `event.body ?? '{}'` (a parse failure is
   * thrown), then the run endpoint with the en-dash step text.
   */
  function RunTestsHandler(body: Option<string>, parse: string -> Outcome<RunBody>): (r: Outcome<Reply>)
    ensures parse(body.GetOr("{}")).Threw? ==> r == Threw(parse(body.GetOr("{}")).error)
    ensures parse(body.GetOr("{}")).Returned? ==> r == Returned(RunTests(parse(body.GetOr("{}")).value, HandlerStep))
  {
    match parse(body.GetOr("{}"))
    case Threw(e) => Threw(e)
    case Returned(b) => Returned(RunTests(b, HandlerStep))
  }

  // ---------------------------------------------------------------------------
  // Suggest

  /**
   * The fixed description of each task type: one instruction sentence,
   * capitalised and ending with a full stop. (The longer texts are written
   * as two literals so that the verifier can index into them.)
   */
  function DescriptionOf(t: TaskType): (d: string)
    ensures |d| > 0 && IsUpperLetter(d[0]) && d[|d| - 1] == '.'
  {
    match t
    case PricingPage => "Find and open the pricing page."
    case NewsletterSubscribe => "Subscribe to the newsletter " + "with a test email."
    case RefundPolicy => "Locate and open the refund/" + "returns policy page."
  }

  /** Different task types have different descriptions. */
  lemma DescriptionsDistinct(s: TaskType, t: TaskType)
    requires s != t
    ensures DescriptionOf(s) != DescriptionOf(t)
  {
    // The three descriptions have different lengths.
    assert |DescriptionOf(PricingPage)| == 31;
    assert |DescriptionOf(NewsletterSubscribe)| == 46;
    assert |DescriptionOf(RefundPolicy)| == 47;
  }

  /** The order of the suggested tasks. */
  const SuggestedTypes: seq<TaskType> := [PricingPage, NewsletterSubscribe, RefundPolicy]

  /** A task as suggested: its id, type and fixed description, no outcome yet. */
  function SuggestedTask(id: string, t: TaskType): AgentTestTask {
    AgentTestTask(id, t, DescriptionOf(t), None, Absent, Absent, None)
  }

  /**
   * The suggest endpoint after parsing, with `uuid(k)` the k-th generated
   * identifier: 400 with "Missing url" when the url is missing or empty;
   * otherwise 200 with the first identifier as runId, the request's url,
   * and one task of each type in the fixed order, with the next three
   * identifiers.
   */
  function SuggestTasks(b: SuggestBody, uuid: nat -> string): (r: Reply)
    ensures r.status == 400 <==> !TruthyText(b.url)
    ensures !TruthyText(b.url) ==> r == Reply(400, ErrorReply("Missing url"))
    ensures TruthyText(b.url) ==>
      r.status == 200 && r.body.SuggestReply?
      && r.body.runId == uuid(0) && r.body.url == b.url.value
      && |r.body.tasks| == 3
      && forall i :: 0 <= i < 3 ==>
        r.body.tasks[i].id == uuid(i + 1)
        && r.body.tasks[i].taskType == SuggestedTypes[i]
        && r.body.tasks[i].description == DescriptionOf(SuggestedTypes[i])
  {
    if !TruthyText(b.url) then Reply(400, ErrorReply("Missing url"))
    else
      var runId := uuid(0);
      var tasks := [
        SuggestedTask(uuid(1), PricingPage),
        SuggestedTask(uuid(2), NewsletterSubscribe),
        SuggestedTask(uuid(3), RefundPolicy)
      ];
      Reply(200, SuggestReply(runId, b.url.value, tasks))
  }

  /** Every task type is suggested exactly once, each with a non-empty description. */
  lemma SuggestCoversEveryType(b: SuggestBody, uuid: nat -> string, t: TaskType)
    requires TruthyText(b.url)
    ensures var types := SuggestedTypesOf(SuggestTasks(b, uuid).body.tasks);
      |types| == 3 && multiset(types)[t] == 1
  {
    var tasks := SuggestTasks(b, uuid).body.tasks;
    assert SuggestedTypesOf(tasks) == SuggestedTypes;
  }

  /** The types of a list of tasks, in order. */
  function SuggestedTypesOf(tasks: seq<AgentTestTask>): (r: seq<TaskType>)
    ensures |r| == |tasks| && forall i :: 0 <= i < |tasks| ==> r[i] == tasks[i].taskType
  {
    seq(|tasks|, i requires 0 <= i < |tasks| => tasks[i].taskType)
  }

  /**
   * `suggestTasksHandler`: parse `event.body ?? '{}'` (a parse failure is
   * thrown), then the suggest endpoint.
   */
  function SuggestTasksHandler(body: Option<string>, parse: string -> Outcome<SuggestBody>, uuid: nat -> string)
    : (r: Outcome<Reply>)
    ensures parse(body.GetOr("{}")).Threw? ==> r == Threw(parse(body.GetOr("{}")).error)
    ensures parse(body.GetOr("{}")).Returned? ==> r == Returned(SuggestTasks(parse(body.GetOr("{}")).value, uuid))
  {
    match parse(body.GetOr("{}"))
    case Threw(e) => Threw(e)
    case Returned(b) => Returned(SuggestTasks(b, uuid))
  }
}
