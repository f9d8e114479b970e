/**
 * The chat page (frontend/src/pages/ChatPage.jsx): three state cells
 * `userInput`, `messages` and `loading`, and the submit handler
 * `handleSendMessage`, split at its one `await` into Begin (everything before
 * the request) and Complete (the continuation once the request settles).
 * `Date.now()` is a clock value passed in.
 */
module ChatPage {
  import opened Wrappers
  import opened JsString
  import opened Chat

  /** A history entry `{id, text, sender}`; ids are clock readings. */
  datatype Message = Message(id: int, text: string, sender: Sender)

  /** The values of the three state cells. */
  datatype PageState = PageState(userInput: string, messages: seq<Message>, loading: bool)

  /** What the continuation after the `await` has captured: the question sent and the user message's id. */
  datatype Pending = Pending(question: string, userId: int)

  const NoResponse: string := "No response"
  const Fallback: string := "\U{1F615} Oops! Can't reach the server. Please try again."

  /** The state on mount: `useState('')`, `useState([])`, `useState(false)`. */
  const Initial: PageState := PageState("", [], false)

  /** The text of the assistant message that settles a request. */
  function ReplyText(outcome: Outcome): (text: string)
    ensures outcome.Success? && outcome.reply.Some? ==> text == outcome.reply.value
    ensures outcome == Success(None) ==> text == NoResponse
    ensures outcome.Failure? ==> text == Fallback
    ensures text == "" ==> outcome == Success(Some(""))
  {
    match outcome
    case Success(reply) => reply.GetOr(NoResponse)
    case Failure => Fallback
  }

  /**
   * The synchronous part of the handler at clock `now`. A blank input is
   * ignored without any change (not even to the whitespace in the input);
   * otherwise the trimmed question is appended as a user message, the input is
   * cleared, `loading` is set, and the trimmed text is what gets sent.
   */
  function BeginStep(s: PageState, now: int): (r: (PageState, Option<Pending>))
    ensures IsBlank(s.userInput) ==> r == (s, None)
    ensures !IsBlank(s.userInput) ==>
      && r.1 == Some(Pending(Trim(s.userInput), now))
      && r.0.messages == s.messages + [Message(now, r.1.value.question, User)]
      && r.0.userInput == "" && r.0.loading
  {
    var trimmed := Trim(s.userInput);
    if trimmed == "" then (s, None)
    else (PageState("", s.messages + [Message(now, trimmed, User)], true), Some(Pending(trimmed, now)))
  }

  /**
   * The continuation at clock `now`: exactly one assistant message is
   * appended, `loading` is cleared whatever the outcome, and the input (which
   * the user may have edited meanwhile) is left alone.
   */
  function CompleteStep(s: PageState, outcome: Outcome, now: int): (r: PageState)
    ensures r.messages == s.messages + [Message(now + 1, ReplyText(outcome), Ai)]
    ensures !r.loading && r.userInput == s.userInput
  {
    PageState(s.userInput, s.messages + [Message(now + 1, ReplyText(outcome), Ai)], false)
  }

  class Page {
    var userInput: string
    var messages: seq<Message>
    var loading: bool

    function Snapshot(): PageState
      reads this
    {
      PageState(userInput, messages, loading)
    }

    /** The component on mount. */
    constructor ()
      ensures Snapshot() == Initial
    {
      userInput, messages, loading := "", [], false;
    }

    /** `setUserInput`, as called with the raw value of the text field. */
    method SetUserInput(value: string)
      modifies this
      ensures userInput == value
      ensures messages == old(messages) && loading == old(loading)
    {
      userInput := value;
    }

    /** `handleSendMessage` up to `axios.post`; returns the request it sends, if any. */
    method Begin(now: int) returns (request: Option<Pending>)
      modifies this
      ensures (Snapshot(), request) == BeginStep(old(Snapshot()), now)
      ensures request.None? <==> IsBlank(old(userInput))
      ensures request.None? ==> unchanged(this)
      ensures request.Some? ==>
        && messages == old(messages) + [Message(now, request.value.question, User)]
        && userInput == "" && loading
    {
      var trimmed := Trim(userInput);
      if trimmed == "" {
        return None;
      }
      var userMsg := Message(now, trimmed, User);
      messages := messages + [userMsg];
      userInput := "";
      loading := true;
      request := Some(Pending(trimmed, now));
    }

    /** `handleSendMessage` after the request settled: the `try`/`catch` bodies and the `finally`. */
    method Complete(outcome: Outcome, now: int)
      modifies this
      ensures Snapshot() == CompleteStep(old(Snapshot()), outcome, now)
      ensures messages == old(messages) + [Message(now + 1, ReplyText(outcome), Ai)]
      ensures !loading && userInput == old(userInput)
    {
      match outcome {
        case Success(reply) =>
          var botMsg := Message(now + 1, reply.GetOr(NoResponse), Ai);
          messages := messages + [botMsg];
        case Failure =>
          var errorMsg := Message(now + 1, Fallback, Ai);
          messages := messages + [errorMsg];
      }
      loading := false;
    }
  }

  /**
   * The first exchange after mount: the user types `typed`, submits at `t1`,
   * and the request settles with `outcome` at `t2`.
   */
  method FirstExchange(typed: string, t1: int, outcome: Outcome, t2: int)
    returns (messages: seq<Message>, loading: bool, input: string)
    ensures IsBlank(typed) ==> messages == [] && !loading && input == typed
    ensures !IsBlank(typed) ==>
      && messages == [Message(t1, Trim(typed), User), Message(t2 + 1, ReplyText(outcome), Ai)]
      && !loading && input == ""
  {
    var page := new Page();
    page.SetUserInput(typed);
    var request := page.Begin(t1);
    if request.Some? {
      page.Complete(outcome, t2);
    }
    messages, loading, input := page.messages, page.loading, page.userInput;
  }

  /**
   * One accepted cycle adds exactly two messages to the history, the user's
   * question first and the reply second, and leaves every earlier message in
   * place; it ends with `loading` false.
   */
  lemma CycleAppendsQuestionThenReply(s: PageState, t1: int, outcome: Outcome, t2: int)
    requires !IsBlank(s.userInput)
    ensures var after := CompleteStep(BeginStep(s, t1).0, outcome, t2);
      && |after.messages| == |s.messages| + 2
      && after.messages[..|s.messages|] == s.messages
      && after.messages[|s.messages|] == Message(t1, Trim(s.userInput), User)
      && after.messages[|s.messages| + 1] == Message(t2 + 1, ReplyText(outcome), Ai)
      && !after.loading
  {
    var question := Message(t1, Trim(s.userInput), User);
    var reply := Message(t2 + 1, ReplyText(outcome), Ai);
    var mid := BeginStep(s, t1).0;
    assert mid.messages == s.messages + [question];
    var after := CompleteStep(mid, outcome, t2);
    assert after.messages == s.messages + [question] + [reply];
    assert after.messages[|s.messages|] == question;
  }

  /** Within one cycle the reply's id exceeds the question's id when the clock did not go back. */
  lemma ReplyIdExceedsQuestionId(s: PageState, t1: int, outcome: Outcome, t2: int)
    requires !IsBlank(s.userInput) && t1 <= t2
    ensures var after := CompleteStep(BeginStep(s, t1).0, outcome, t2);
      after.messages[|s.messages|].id < after.messages[|s.messages| + 1].id
  {
    CycleAppendsQuestionThenReply(s, t1, outcome, t2);
  }

  /** The handler never reads `loading`: the messages and request it produces are the same either way. */
  lemma BeginIgnoresLoading(s: PageState, now: int)
    ensures var busy := BeginStep(s.(loading := true), now);
            var idle := BeginStep(s.(loading := false), now);
      busy.0.messages == idle.0.messages && busy.1 == idle.1
  {
  }
}
