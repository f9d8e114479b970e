/**
 * One browser session of the chat page as seen through its input form: the
 * user types (ChatInput forwards the raw value to `setUserInput`), presses
 * send (the form submits only while the button is enabled, and then runs
 * `handleSendMessage` up to its `await`), and the awaited request settles
 * (the rest of the handler runs). Requests do not overlap here because a
 * submit reaches the handler only through the enabled button.
 */
module Session {
  import opened Wrappers
  import opened JsString
  import opened Chat
  import opened ChatPage
  import opened ChatInput

  datatype Event =
    | Type(value: string)               // onChange of the text field
    | Submit(now: int)                  // onSubmit of the form, at clock `now`
    | Settle(outcome: Outcome, now: int) // the awaited request settles, at clock `now`

  /** The page's state cells and the request whose continuation is still to run. */
  datatype Session = Session(page: PageState, inFlight: Option<Pending>)

  const Start: Session := Session(Initial, None)

  /**
   * The effect of one event: typing goes to the setter, a submit runs the
   * handler only while the button is enabled, and a settlement runs the
   * continuation of the request in flight. Each event adds at most one
   * message and keeps the earlier ones.
   */
  function Step(s: Session, e: Event): (r: Session)
    ensures |s.page.messages| <= |r.page.messages| <= |s.page.messages| + 1
    ensures r.page.messages[..|s.page.messages|] == s.page.messages
  {
    match e
    case Type(value) => Session(s.page.(userInput := value), s.inFlight)
    case Submit(now) =>
      if SendDisabled(s.page.userInput, s.page.loading) then s
      else
        var r := BeginStep(s.page, now);
        Session(r.0, r.1)
    case Settle(outcome, now) =>
      if s.inFlight.None? then s
      else Session(CompleteStep(s.page, outcome, now), None)
  }

  /** The effect of a sequence of events, first to last: at most one new message per event. */
  function Run(s: Session, events: seq<Event>): (r: Session)
    ensures |s.page.messages| <= |r.page.messages| <= |s.page.messages| + |events|
    decreases |events|
  {
    if events == [] then s else Run(Step(s, events[0]), events[1..])
  }

  /** A submit while the button is disabled changes nothing; an enabled one runs the handler and sends its request. */
  lemma SubmitRunsHandlerOnlyWhenEnabled(s: Session, now: int)
    ensures SendDisabled(s.page.userInput, s.page.loading) ==> Step(s, Submit(now)) == s
    ensures !SendDisabled(s.page.userInput, s.page.loading) ==>
      && Step(s, Submit(now)).page == BeginStep(s.page, now).0
      && Step(s, Submit(now)).inFlight == Some(Pending(Trim(s.page.userInput), now))
  {
  }

  /** A settlement runs the continuation of the request in flight once; with nothing in flight it changes nothing. */
  lemma SettleCompletesOnlyInFlight(s: Session, outcome: Outcome, now: int)
    ensures s.inFlight.None? ==> Step(s, Settle(outcome, now)) == s
    ensures s.inFlight.Some? ==>
      && Step(s, Settle(outcome, now)).page == CompleteStep(s.page, outcome, now)
      && Step(s, Settle(outcome, now)).inFlight.None?
  {
  }

  /**
   * The history alternates question, reply, question, reply, ... and has a
   * trailing unanswered question exactly while `loading`.
   */
  ghost predicate Alternates(m: seq<Message>, loading: bool) {
    && |m| % 2 == (if loading then 1 else 0)
    && forall i :: 0 <= i < |m| ==> m[i].sender == (if i % 2 == 0 then User else Ai)
  }

  /**
   * The session invariant: `loading` (and so the typing indicator, which
   * ChatHistory shows exactly while `loading`) is on exactly while a request
   * is in flight, every question is followed by exactly one reply except the
   * one in flight, and that one is the last message and what was sent.
   */
  ghost predicate Valid(s: Session) {
    && s.page.loading == s.inFlight.Some?
    && Alternates(s.page.messages, s.page.loading)
    && (s.inFlight.Some? ==>
          s.page.messages[|s.page.messages| - 1] == Message(s.inFlight.value.userId, s.inFlight.value.question, User))
  }

  /** ChatHistory renders the typing indicator exactly while `loading`. */
  function TypingIndicatorShown(page: PageState): bool {
    page.loading
  }

  /** In a valid session the typing indicator is shown exactly while a request is in flight. */
  lemma IndicatorShownWhileInFlight(s: Session)
    requires Valid(s)
    ensures TypingIndicatorShown(s.page) <==> s.inFlight.Some?
  {
  }

  /** Whenever the send button is enabled, the handler's own guard passes and nothing is in flight. */
  lemma EnabledSendIsAccepted(s: Session, now: int)
    requires Valid(s)
    requires !SendDisabled(s.page.userInput, s.page.loading)
    ensures s.inFlight.None?
    ensures BeginStep(s.page, now).1 == Some(Pending(Trim(s.page.userInput), now))
  {
  }

  /** Appending the message whose turn it is flips whether a question is unanswered. */
  lemma AppendKeepsAlternates(m: seq<Message>, loading: bool, msg: Message)
    requires Alternates(m, loading)
    requires msg.sender == (if loading then Ai else User)
    ensures Alternates(m + [msg], !loading)
  {
    var m' := m + [msg];
    forall i | 0 <= i < |m'| ensures m'[i].sender == (if i % 2 == 0 then User else Ai) {
      if i < |m| { assert m'[i] == m[i]; }
    }
  }

  /** Every event keeps the invariant. */
  lemma StepKeepsValid(s: Session, e: Event)
    requires Valid(s)
    ensures Valid(Step(s, e))
  {
    match e {
      case Type(_) =>
      case Submit(now) =>
        if !SendDisabled(s.page.userInput, s.page.loading) {
          AppendKeepsAlternates(s.page.messages, false, Message(now, Trim(s.page.userInput), User));
        }
      case Settle(outcome, now) =>
        if s.inFlight.Some? {
          AppendKeepsAlternates(s.page.messages, true, Message(now + 1, ReplyText(outcome), Ai));
        }
    }
  }

  /** The page as mounted satisfies the invariant. */
  lemma StartIsValid()
    ensures Valid(Start)
  {
  }

  /** The invariant holds after any sequence of events from a valid state, page load included. */
  lemma {:induction false} RunKeepsValid(s: Session, events: seq<Event>)
    requires Valid(s)
    ensures Valid(Run(s, events))
    decreases |events|
  {
    if events != [] {
      StepKeepsValid(s, events[0]);
      RunKeepsValid(Step(s, events[0]), events[1..]);
    }
  }

  /** Messages are only ever appended: the history before any events is a prefix of the history after them. */
  lemma {:induction false} RunOnlyAppends(s: Session, events: seq<Event>)
    ensures var m := Run(s, events).page.messages;
      |s.page.messages| <= |m| && m[..|s.page.messages|] == s.page.messages
    decreases |events|
  {
    if events != [] {
      var next := Step(s, events[0]);
      assert |s.page.messages| <= |next.page.messages| && next.page.messages[..|s.page.messages|] == s.page.messages;
      RunOnlyAppends(next, events[1..]);
      var m := Run(next, events[1..]).page.messages;
      assert m[..|s.page.messages|] == m[..|next.page.messages|][..|s.page.messages|];
    }
  }

  /** Typing forwards the raw value unchanged: no trimming, and nothing else moves. */
  lemma TypingForwardsRawValue(s: Session, value: string)
    ensures Step(s, Type(value)) == Session(s.page.(userInput := value), s.inFlight)
    ensures Step(s, Type(value)).page.userInput == value
  {
  }

  /**
   * The handler alone does not keep requests from overlapping: while a
   * request is in flight and the user has typed a new question, the disabled
   * button is all that stops the submit; a submit that reached the handler
   * would be accepted, put two questions back to back, and the first
   * settlement would clear `loading` while the second is still outstanding.
   */
  lemma HandlerAloneAdmitsSecondRequest(s: Session, now: int, outcome: Outcome, later: int)
    requires Valid(s) && s.inFlight.Some? && !IsBlank(s.page.userInput)
    ensures SendDisabled(s.page.userInput, s.page.loading)
    ensures var r := BeginStep(s.page, now);
            var m := r.0.messages;
      && r.1 == Some(Pending(Trim(s.page.userInput), now))
      && m[|m| - 2].sender == m[|m| - 1].sender == User
      && !CompleteStep(r.0, outcome, later).loading
  {
  }

  /** Message ids strictly increase along the history, so they are distinct keys. */
  ghost predicate IdsIncrease(m: seq<Message>) {
    forall i, j :: 0 <= i < j < |m| ==> m[i].id < m[j].id
  }

  /**
   * As written, ids repeat across cycles: whatever the history, a reply
   * settled at clock `t` is stamped `t + 1` (`Date.now() + 1`), and a next
   * question submitted one tick later, at clock `t + 1`, is stamped `t + 1`
   * (`Date.now()`) too; the clock never went back.
   */
  lemma IdsCollideAcrossCycles(s: Session, q1: string, outcome: Outcome, t: int, q2: string)
    requires Valid(s) && s.inFlight.None?
    requires !IsBlank(q1) && !IsBlank(q2)
    ensures var s1 := Step(Step(s, Type(q1)), Submit(t));
            var s2 := Step(s1, Settle(outcome, t));
            var m := Step(Step(s2, Type(q2)), Submit(t + 1)).page.messages;
      && |m| == |s.page.messages| + 3
      && m[|m| - 2] == Message(t + 1, ReplyText(outcome), Ai)
      && m[|m| - 1] == Message(t + 1, Trim(q2), User)
      && !IdsIncrease(m)
  {
    var s1 := Step(Step(s, Type(q1)), Submit(t));
    assert s1.page.messages == s.page.messages + [Message(t, Trim(q1), User)];
    var s2 := Step(s1, Settle(outcome, t));
    assert s2.page.messages == s1.page.messages + [Message(t + 1, ReplyText(outcome), Ai)];
    var m := Step(Step(s2, Type(q2)), Submit(t + 1)).page.messages;
    assert m == s2.page.messages + [Message(t + 1, Trim(q2), User)];
    assert m[|m| - 2].id == m[|m| - 1].id;
  }

  /**
   * A corrected id source: the clock reading, bumped past the newest id when
   * the clock has not moved beyond it.
   */
  function FreshId(m: seq<Message>, now: int): (id: int)
    requires IdsIncrease(m)
    ensures id >= now
    ensures forall i :: 0 <= i < |m| ==> m[i].id < id
  {
    if m == [] || m[|m| - 1].id < now then now else m[|m| - 1].id + 1
  }

  /** A history without its ids: each message's text and sender. */
  function Untimed(m: seq<Message>): seq<(string, Sender)> {
    seq(|m|, i requires 0 <= i < |m| => (m[i].text, m[i].sender))
  }

  /**
   * The session with corrected ids: the same handler, stamping each new
   * message with `FreshId` instead of the raw clock reading. It shows the
   * same texts from the same senders as `Step`, and keeps ids increasing.
   */
  function CorrectedStep(s: Session, e: Event): (r: Session)
    requires IdsIncrease(s.page.messages)
    ensures Untimed(r.page.messages) == Untimed(Step(s, e).page.messages)
    ensures r.page.userInput == Step(s, e).page.userInput && r.page.loading == Step(s, e).page.loading
    ensures IdsIncrease(r.page.messages)
  {
    var m := s.page.messages;
    match e
    case Type(_) => Step(s, e)
    case Submit(now) =>
      var id := FreshId(m, now);
      AppendFreshKeepsIdsIncreasing(m, Message(id, Trim(s.page.userInput), User));
      Step(s, Submit(id))
    case Settle(outcome, now) =>
      var id := FreshId(m, now);
      AppendFreshKeepsIdsIncreasing(m, Message(id, ReplyText(outcome), Ai));
      Step(s, Settle(outcome, id - 1))
  }

  /** A sequence of events with corrected ids. */
  function CorrectedRun(s: Session, events: seq<Event>): (r: Session)
    requires IdsIncrease(s.page.messages)
    ensures IdsIncrease(r.page.messages)
    decreases |events|
  {
    if events == [] then s else CorrectedRun(CorrectedStep(s, events[0]), events[1..])
  }

  /** With corrected ids every event keeps ids strictly increasing, and the session invariant. */
  lemma CorrectedStepKeepsIdsIncreasing(s: Session, e: Event)
    requires Valid(s) && IdsIncrease(s.page.messages)
    ensures Valid(CorrectedStep(s, e))
    ensures IdsIncrease(CorrectedStep(s, e).page.messages)
  {
    match e {
      case Type(_) =>
        StepKeepsValid(s, e);
      case Submit(now) =>
        StepKeepsValid(s, Submit(FreshId(s.page.messages, now)));
      case Settle(outcome, now) =>
        StepKeepsValid(s, Settle(outcome, FreshId(s.page.messages, now) - 1));
    }
  }

  /** Appending a message whose id exceeds every earlier id keeps ids increasing. */
  lemma AppendFreshKeepsIdsIncreasing(m: seq<Message>, msg: Message)
    requires IdsIncrease(m)
    requires forall i :: 0 <= i < |m| ==> m[i].id < msg.id
    ensures IdsIncrease(m + [msg])
  {
    var m' := m + [msg];
    forall i, j | 0 <= i < j < |m'| ensures m'[i].id < m'[j].id {
      assert m'[i] == m[i];
      if j < |m| { assert m'[j] == m[j]; }
    }
  }

  /**
   * With corrected ids, any sequence of events from a valid state keeps the
   * session invariant, and ids stay strictly increasing across the session.
   */
  lemma {:induction false} CorrectedRunKeepsValid(s: Session, events: seq<Event>)
    requires Valid(s) && IdsIncrease(s.page.messages)
    ensures Valid(CorrectedRun(s, events))
    ensures IdsIncrease(CorrectedRun(s, events).page.messages)
    decreases |events|
  {
    if events != [] {
      CorrectedStepKeepsIdsIncreasing(s, events[0]);
      CorrectedRunKeepsValid(CorrectedStep(s, events[0]), events[1..]);
    }
  }
}
