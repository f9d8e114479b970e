/**
 * The relay service (backend/app.js): a liveness reply for GET `/`, and for
 * POST `/api/finance` a handler that hands the request's `question` to the
 * Agent (`callAgent`, outside this model) and turns the way that call settles
 * into exactly one response. Also the two configuration defaults.
 */
module Relay {
  import opened Wrappers

  /**
   * A response body: a fixed text (`res.send` of a string) or a JSON object with string
   * fields (`res.json`); a field whose value is undefined is left out of the
   * object, as JSON serialisation does.
   */
  datatype Body = Text(text: string) | Json(fields: map<string, string>)

  datatype Response = Response(status: int, body: Body)

  /** How `await callAgent(question)` settles: with a reply (possibly undefined), or by throwing. */
  datatype AgentOutcome = Resolved(reply: Option<string>) | Rejected(detail: string)

  /** The response of one request, with what the handler writes to the operator log (`console.error`). */
  datatype Handled = Handled(response: Response, log: Option<string>)

  /** 200 OK (section 15.3.1 of RFC 9110), Express's default status. */
  const OK: int := 200
  /** 500 Internal Server Error (section 15.6.1 of RFC 9110). */
  const InternalServerError: int := 500

  const ErrorMessage: string := "Error processing request"
  const LivenessText: string := "Server is running. Use POST /api/finance for queries"

  /** GET `/`: the same fixed liveness text every time. */
  function GetRoot(): (r: Response)
    ensures r == Response(OK, Text(LivenessText))
  {
    Response(OK, Text(LivenessText))
  }

  /** The `{reply}` object: the reply under `reply`, or no field at all when the reply is undefined. */
  function ReplyBody(reply: Option<string>): (b: Body)
    ensures b.Json? && b.fields.Keys <= {"reply"}
    ensures "reply" in b.fields <==> reply.Some?
    ensures reply.Some? ==> b.fields["reply"] == reply.value
  {
    match reply
    case Some(r) => Json(map["reply" := r])
    case None => Json(map[])
  }

  /**
   * `const { question } = req.body`: the field exactly as the client sent it
   * (no trimming, no validation), or undefined when it is missing.
   */
  function QuestionOf(body: map<string, string>): (question: Option<string>)
    ensures question.Some? <==> "question" in body
    ensures question.Some? ==> question.value == body["question"]
  {
    if "question" in body then Some(body["question"]) else None
  }

  /**
   * POST `/api/finance` once the Agent call settled: a resolved call gives
   * 200 with `{reply}`; a thrown or rejected call gives 500 with a fixed
   * error object, and the failure's detail goes to the log only.
   */
  function PostFinance(outcome: AgentOutcome): (h: Handled)
    ensures h.response.status == OK <==> outcome.Resolved?
    ensures h.response.status == InternalServerError <==> outcome.Rejected?
    ensures outcome.Resolved? ==> h.response.body == ReplyBody(outcome.reply) && h.log.None?
    ensures outcome.Rejected? ==>
      && h.response.body == Json(map["error" := ErrorMessage])
      && h.log == Some(outcome.detail)
  {
    match outcome
    case Resolved(reply) => Handled(Response(OK, ReplyBody(reply)), None)
    case Rejected(detail) => Handled(Response(InternalServerError, Json(map["error" := ErrorMessage])), Some(detail))
  }

  /** The client sees nothing of a failure's detail: two failures give the same response. */
  lemma ErrorResponseIgnoresDetail(d1: string, d2: string)
    ensures PostFinance(Rejected(d1)).response == PostFinance(Rejected(d2)).response
    ensures PostFinance(Rejected(d1)).response.body.fields.Keys == {"error"}
  {
  }

  /** The listening port: `process.env.PORT || 3000`, so an empty setting counts as unset. */
  datatype PortSetting = FromEnv(text: string) | DefaultPort(number: int)

  function Port(env: map<string, string>): (p: PortSetting)
    ensures p.FromEnv? <==> "PORT" in env && env["PORT"] != ""
    ensures p.FromEnv? ==> p.text == env["PORT"]
    ensures p.DefaultPort? ==> p.number == 3000
  {
    if "PORT" in env && env["PORT"] != "" then FromEnv(env["PORT"]) else DefaultPort(3000)
  }

  /** The allowed CORS origin: `process.env.FRONTEND_URL || '*'`, so never empty. */
  function AllowedOrigin(env: map<string, string>): (origin: string)
    ensures origin != ""
    ensures "FRONTEND_URL" in env && env["FRONTEND_URL"] != "" ==> origin == env["FRONTEND_URL"]
    ensures !("FRONTEND_URL" in env && env["FRONTEND_URL"] != "") ==> origin == "*"
  {
    if "FRONTEND_URL" in env && env["FRONTEND_URL"] != "" then env["FRONTEND_URL"] else "*"
  }
}
