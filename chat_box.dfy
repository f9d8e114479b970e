/**
 * The older chat component (frontend/src/components/ChatBox.jsx): the same
 * submit handler over `userInput`, `chatHistory` and `loading`, without ids,
 * without a default for a missing reply, and with a send button disabled only
 * by `loading`. Its settlement updates re-append the question, which the
 * synchronous part has already appended.
 */
module ChatBox {
  import opened Wrappers
  import opened JsString
  import opened Chat
  import ChatInput

  /** A history entry `{text, sender}`; a reply's text is `response.data.reply`, possibly undefined. */
  datatype Entry = Entry(text: Option<string>, sender: Sender)

  /** The values of the three state cells. */
  datatype BoxState = BoxState(userInput: string, chatHistory: seq<Entry>, loading: bool)

  /** The fallback text; unlike ChatPage's it is written with a typographic apostrophe. */
  const Fallback: string := "\U{1F615} Oops! Can\U{2019}t reach the server. Please try again."

  /** The entry a settled request contributes as its reply. */
  function ReplyEntry(outcome: Outcome): (e: Entry)
    ensures e.sender == Ai
    ensures outcome.Success? ==> e.text == outcome.reply
    ensures e.text.None? ==> outcome == Success(None)
    ensures outcome.Failure? ==> e == Entry(Some(Fallback), Ai)
  {
    match outcome
    case Success(reply) => Entry(reply, Ai)
    case Failure => Entry(Some(Fallback), Ai)
  }

  /**
   * `disabled={loading}`: the input's content plays no part, so this button
   * is the chat page's button without its blank-input check.
   */
  function SendDisabled(s: BoxState): (disabled: bool)
    ensures disabled <==> s.loading
    ensures ChatInput.SendDisabled(s.userInput, s.loading) <==> disabled || IsBlank(s.userInput)
  {
    s.loading
  }

  /**
   * The synchronous part of the handler: a blank input is ignored without
   * any change; otherwise the trimmed question is appended, the input is
   * cleared and `loading` is set. The second component is `newMessage`, which
   * the continuation captures.
   */
  function BeginStep(s: BoxState): (r: (BoxState, Option<Entry>))
    ensures IsBlank(s.userInput) ==> r == (s, None)
    ensures !IsBlank(s.userInput) ==>
      && r.1 == Some(Entry(Some(Trim(s.userInput)), User))
      && r.0 == BoxState("", s.chatHistory + [r.1.value], true)
  {
    var trimmed := Trim(s.userInput);
    if trimmed == "" then (s, None)
    else
      var newMessage := Entry(Some(trimmed), User);
      (BoxState("", s.chatHistory + [newMessage], true), Some(newMessage))
  }

  /**
   * The continuation as written: `[...prev, newMessage, reply]`, where
   * `prev` already ends with `newMessage`; `loading` is cleared on both paths.
   */
  function CompleteStep(s: BoxState, newMessage: Entry, outcome: Outcome): (r: BoxState)
    ensures r.chatHistory == s.chatHistory + [newMessage, ReplyEntry(outcome)]
    ensures !r.loading && r.userInput == s.userInput
  {
    BoxState(s.userInput, s.chatHistory + [newMessage, ReplyEntry(outcome)], false)
  }

  /** The continuation as evidently intended: `[...prev, reply]`. */
  function CorrectedCompleteStep(s: BoxState, outcome: Outcome): (r: BoxState)
    ensures r.chatHistory == s.chatHistory + [ReplyEntry(outcome)]
    ensures !r.loading && r.userInput == s.userInput
  {
    BoxState(s.userInput, s.chatHistory + [ReplyEntry(outcome)], false)
  }

  class Box {
    var userInput: string
    var chatHistory: seq<Entry>
    var loading: bool

    function Snapshot(): BoxState
      reads this
    {
      BoxState(userInput, chatHistory, loading)
    }

    /** The component on mount. */
    constructor ()
      ensures Snapshot() == BoxState("", [], false)
    {
      userInput, chatHistory, loading := "", [], false;
    }

    /** `onChange`: the raw value of the text field. */
    method SetUserInput(value: string)
      modifies this
      ensures userInput == value
      ensures chatHistory == old(chatHistory) && loading == old(loading)
    {
      userInput := value;
    }

    /** `handleSendMessage` up to `axios.post`; returns `newMessage` when a request is sent. */
    method Begin() returns (newMessage: Option<Entry>)
      modifies this
      ensures (Snapshot(), newMessage) == BeginStep(old(Snapshot()))
      ensures newMessage.None? <==> IsBlank(old(userInput))
      ensures newMessage.None? ==> unchanged(this)
      ensures newMessage.Some? ==>
        && chatHistory == old(chatHistory) + [newMessage.value]
        && userInput == "" && loading
    {
      var trimmed := Trim(userInput);
      if trimmed == "" {
        return None;
      }
      var message := Entry(Some(trimmed), User);
      chatHistory := chatHistory + [message];
      userInput := "";
      loading := true;
      newMessage := Some(message);
    }

    /** `handleSendMessage` after the request settled, as written. */
    method Complete(newMessage: Entry, outcome: Outcome)
      modifies this
      ensures Snapshot() == CompleteStep(old(Snapshot()), newMessage, outcome)
      ensures chatHistory == old(chatHistory) + [newMessage, ReplyEntry(outcome)]
      ensures !loading && userInput == old(userInput)
    {
      match outcome {
        case Success(botReply) =>
          chatHistory := chatHistory + [newMessage, Entry(botReply, Ai)];
        case Failure =>
          chatHistory := chatHistory + [newMessage, Entry(Some(Fallback), Ai)];
      }
      loading := false;
    }
  }

  /**
   * The first exchange after mount, as written: a non-blank question ends
   * up in the history twice, followed by the reply.
   */
  method FirstExchange(typed: string, outcome: Outcome)
    returns (chatHistory: seq<Entry>, loading: bool, input: string)
    ensures IsBlank(typed) ==> chatHistory == [] && !loading && input == typed
    ensures !IsBlank(typed) ==>
      var question := Entry(Some(Trim(typed)), User);
      && chatHistory == [question, question, ReplyEntry(outcome)]
      && !loading && input == ""
  {
    var box := new Box();
    box.SetUserInput(typed);
    var newMessage := box.Begin();
    if newMessage.Some? {
      box.Complete(newMessage.value, outcome);
    }
    chatHistory, loading, input := box.chatHistory, box.loading, box.userInput;
  }

  /** Counts the user entries of a history. */
  function Questions(h: seq<Entry>): (n: nat)
    ensures n <= |h|
  {
    if h == [] then 0 else Questions(h[..|h| - 1]) + (if h[|h| - 1].sender == User then 1 else 0)
  }

  /** Counting is additive over concatenation. */
  lemma {:induction false} QuestionsAppend(h: seq<Entry>, more: seq<Entry>)
    ensures Questions(h + more) == Questions(h) + Questions(more)
    decreases |more|
  {
    if more == [] {
      assert h + more == h;
    } else {
      var init := more[..|more| - 1];
      assert (h + more)[..|h + more| - 1] == h + init;
      QuestionsAppend(h, init);
    }
  }

  /**
   * As written, one accepted cycle appends the question twice: the history
   * grows by three entries, the user's question, the same question again, and
   * the reply, whatever the outcome.
   */
  lemma CycleDuplicatesQuestion(s: BoxState, outcome: Outcome)
    requires !IsBlank(s.userInput)
    ensures var question := Entry(Some(Trim(s.userInput)), User);
            var after := CompleteStep(BeginStep(s).0, question, outcome);
      && BeginStep(s).1 == Some(question)
      && after.chatHistory == s.chatHistory + [question, question, ReplyEntry(outcome)]
      && !after.loading
  {
    var question := Entry(Some(Trim(s.userInput)), User);
    var mid := BeginStep(s).0;
    assert mid.chatHistory == s.chatHistory + [question];
    var after := CompleteStep(mid, question, outcome);
    assert after.chatHistory == s.chatHistory + [question] + [question, ReplyEntry(outcome)];
  }

  /** The synchronous part adds one question to the count. */
  lemma BeginCountsOneQuestion(s: BoxState)
    requires !IsBlank(s.userInput)
    ensures Questions(BeginStep(s).0.chatHistory) == Questions(s.chatHistory) + 1
  {
    var question := Entry(Some(Trim(s.userInput)), User);
    QuestionsAppend(s.chatHistory, [question]);
    assert [question][..0] == [];
  }

  /** As written, the continuation adds the captured question to the count a second time. */
  lemma CompleteCountsQuestionAgain(s: BoxState, newMessage: Entry, outcome: Outcome)
    requires newMessage.sender == User
    ensures Questions(CompleteStep(s, newMessage, outcome).chatHistory) == Questions(s.chatHistory) + 1
  {
    var tail := [newMessage, ReplyEntry(outcome)];
    QuestionsAppend(s.chatHistory, tail);
    assert tail[..1] == [newMessage] && [newMessage][..0] == [];
  }

  /**
   * Corrected, one accepted cycle appends exactly the question and one reply
   * and keeps every earlier entry.
   */
  lemma CorrectedCycleAppendsQuestionThenReply(s: BoxState, outcome: Outcome)
    requires !IsBlank(s.userInput)
    ensures var after := CorrectedCompleteStep(BeginStep(s).0, outcome);
      && after.chatHistory == s.chatHistory + [Entry(Some(Trim(s.userInput)), User), ReplyEntry(outcome)]
      && !after.loading
  {
    var question := Entry(Some(Trim(s.userInput)), User);
    var mid := BeginStep(s).0;
    assert mid.chatHistory == s.chatHistory + [question];
    var after := CorrectedCompleteStep(mid, outcome);
    assert after.chatHistory == s.chatHistory + [question] + [ReplyEntry(outcome)];
  }

  /** Corrected, the continuation adds no question to the count. */
  lemma CorrectedCompleteCountsNoQuestion(s: BoxState, outcome: Outcome)
    ensures Questions(CorrectedCompleteStep(s, outcome).chatHistory) == Questions(s.chatHistory)
  {
    QuestionsAppend(s.chatHistory, [ReplyEntry(outcome)]);
    assert [ReplyEntry(outcome)][..0] == [];
  }

  /**
   * The button does not look at the input, so a blank submit reaches the
   * handler; its own guard then leaves everything as it was.
   */
  lemma BlankSubmitReachesHandlerAndIsIgnored(s: BoxState)
    requires !s.loading && IsBlank(s.userInput)
    ensures !SendDisabled(s)
    ensures BeginStep(s) == (s, None)
  {
  }

  /** The handler never reads `loading`: the history and request it produces are the same either way. */
  lemma BeginIgnoresLoading(s: BoxState)
    ensures BeginStep(s.(loading := true)).0.chatHistory == BeginStep(s.(loading := false)).0.chatHistory
    ensures BeginStep(s.(loading := true)).1 == BeginStep(s.(loading := false)).1
  {
  }
}
