/**
 * The records the agent-test endpoints exchange: a task of one of three
 * kinds, the outcome fields the runner fills in, and the requests and
 * replies of the suggest and run endpoints.
 */
module AgentTests {
  import opened Js

  datatype TaskType = PricingPage | NewsletterSubscribe | RefundPolicy

  /** The wire name of each task type. */
  function TypeName(t: TaskType): (s: string)
    ensures s != ""
  {
    match t
    case PricingPage => "pricing_page"
    case NewsletterSubscribe => "newsletter_subscribe"
    case RefundPolicy => "refund_policy"
  }

  /** Different task types are stored under different names in the `type` column. */
  lemma TypeNamesDistinct(s: TaskType, t: TaskType)
    requires s != t
    ensures TypeName(s) != TypeName(t)
  {
    // The three names have different lengths.
    assert |TypeName(PricingPage)| == 12;
    assert |TypeName(NewsletterSubscribe)| == 20;
    assert |TypeName(RefundPolicy)| == 13;
  }

  /** An optional field that may also be null: undefined, null, or a value. */
  datatype Field<+T> = Absent | Null | Present(value: T)

  datatype Details = Details(steps: seq<string>)

  /** The JSON value of a details record, `{ steps: [...] }`. */
  function DetailsJson(d: Details): JsValue {
    JsObject(map["steps" := JsArray(seq(|d.steps|, i requires 0 <= i < |d.steps| => JsString(d.steps[i])))])
  }

  datatype AgentTestTask = AgentTestTask(
    id: string,
    taskType: TaskType,
    description: string,
    success: Option<bool>,
    errorReason: Field<string>,
    videoUrl: Field<string>,
    details: Option<Details>)

  /** The fields of a run request that the handlers read; undefined ones are None. */
  datatype RunBody = RunBody(runId: Option<string>, url: Option<string>, tasks: Option<seq<AgentTestTask>>)

  /** The field of a suggest request that the handlers read. */
  datatype SuggestBody = SuggestBody(url: Option<string>)

  /** What the agent-test endpoints answer. */
  datatype ReplyBody =
    | ErrorReply(error: string)                                            // { error }
    | MessageReply(message: string)                                        // { message }
    | RunReply(runId: string, overallScore: int, tasks: seq<AgentTestTask>)
    | SuggestReply(runId: string, url: string, tasks: seq<AgentTestTask>)

  /** A reply with its status code; every one carries `Content-Type: application/json`. */
  datatype Reply = Reply(status: int, body: ReplyBody)
}
