/**
 * The wire between the two halves: the relay's response as the browser's
 * HTTP client sees it, and what each chat component then shows. The client
 * is axios with its default status check, which resolves for a 2xx status and
 * rejects for any other status and when no response arrives at all.
 */
module Exchange {
  import opened Wrappers
  import opened Chat
  import Relay
  import ChatPage
  import ChatBox

  /** What reaches the browser: the relay's response, or nothing (refused connection, DNS failure, ...). */
  datatype Transport = Delivered(response: Relay.Response) | Unreachable

  /** `response.data.reply`: the `reply` field of a JSON body, undefined for anything else. */
  function ReplyField(body: Relay.Body): (reply: Option<string>)
    ensures reply.Some? <==> body.Json? && "reply" in body.fields
    ensures reply.Some? ==> reply.value == body.fields["reply"]
  {
    if body.Json? && "reply" in body.fields then Some(body.fields["reply"]) else None
  }

  /** How the awaited `axios.post` settles for what reached the browser. */
  function Settle(t: Transport): (outcome: Outcome)
    ensures outcome.Success? <==> t.Delivered? && 200 <= t.response.status < 300
    ensures outcome.Success? ==> outcome.reply == ReplyField(t.response.body)
  {
    match t
    case Delivered(r) => if 200 <= r.status < 300 then Success(ReplyField(r.body)) else Failure
    case Unreachable => Failure
  }

  /** The reply the Agent gave survives the relay's `{reply}` object and the client's field access. */
  lemma ReplySurvivesRelay(reply: Option<string>)
    ensures Settle(Delivered(Relay.PostFinance(Relay.Resolved(reply)).response)) == Success(reply)
  {
  }

  /** A failure on the server looks to the client exactly like an unreachable server. */
  lemma ServerFailureLooksLikeUnreachable(detail: string)
    ensures Settle(Delivered(Relay.PostFinance(Relay.Rejected(detail)).response)) == Settle(Unreachable)
  {
  }

  /**
   * What the chat page shows for each way the Agent call settles: the
   * Agent's reply, "No response" when the reply is undefined, and the fixed
   * fallback when the Agent failed.
   */
  lemma ChatPageShowsAgentOutcome(outcome: Relay.AgentOutcome)
    ensures ChatPage.ReplyText(Settle(Delivered(Relay.PostFinance(outcome).response))) ==
      match outcome
      case Resolved(Some(r)) => r
      case Resolved(None) => ChatPage.NoResponse
      case Rejected(_) => ChatPage.Fallback
  {
    match outcome {
      case Resolved(reply) => ReplySurvivesRelay(reply);
      case Rejected(detail) => ServerFailureLooksLikeUnreachable(detail);
    }
  }

  /**
   * What the chat box shows for each way the Agent call settles: the reply
   * as it came (possibly undefined), or its fallback when the Agent failed.
   */
  lemma ChatBoxShowsAgentOutcome(outcome: Relay.AgentOutcome)
    ensures ChatBox.ReplyEntry(Settle(Delivered(Relay.PostFinance(outcome).response))) ==
      match outcome
      case Resolved(reply) => ChatBox.Entry(reply, Ai)
      case Rejected(_) => ChatBox.Entry(Some(ChatBox.Fallback), Ai)
  {
    match outcome {
      case Resolved(reply) => ReplySurvivesRelay(reply);
      case Rejected(detail) => ServerFailureLooksLikeUnreachable(detail);
    }
  }

  /**
   * The two components' fallback texts are the same but for the apostrophe
   * of "Can't": a typewriter one in the chat page, a typographic one in the
   * chat box.
   */
  lemma FallbacksDifferOnlyInApostrophe()
    ensures |ChatPage.Fallback| == |ChatBox.Fallback|
    ensures ChatPage.Fallback[11] == '\'' && ChatBox.Fallback[11] == '\U{2019}'
    ensures forall i :: 0 <= i < |ChatPage.Fallback| && i != 11 ==> ChatPage.Fallback[i] == ChatBox.Fallback[i]
  {
  }
}
