/** The submit handler of the chat view (`handleSubmit`): one user turn, with each of its
    awaits an explicit step, so that what is visible between two steps stays visible. */
module ChatInterface {
  import opened Wrappers
  import opened Text
  import opened Messages

  /** How many characters of the first message become the conversation's title. */
  const TitleLength: nat := 50

  /** The error set when the agent endpoint answers with a non-2xx status. */
  const AgentFailedMessage := "Failed to get response from agent"

  /** The title given to a conversation by its first message: `messageText.slice(0, 50)`. */
  function Title(text: string): (t: string)
    ensures t <= text
    ensures |t| == if |text| < TitleLength then |text| else TitleLength
  {
    Slice(text, TitleLength)
  }

  /** Truncating a title again leaves it as it is. */
  lemma TitleIdempotent(text: string)
    ensures Title(Title(text)) == Title(text)
  {
  }

  /** The JSON body of a 2xx reply, as the handler reads it: `steps` may be absent. */
  datatype AgentBody = AgentBody(response: string, steps: Option<seq<string>>)

  /** What `response.json()` resolves to: a body, or a parse error with its message. */
  datatype Parsed = Json(body: AgentBody) | Malformed(message: string)

  /** How the awaited `fetch` of one turn ends: a reply (`ok` for a 2xx status), or a
      rejection with the error's message. */
  datatype FetchOutcome = Replied(ok: bool, parsed: Parsed) | NetworkError(message: string)

  /** The assistant message appended for a 2xx reply, `steps` defaulting to `[]`. */
  function AssistantDraft(body: AgentBody): (d: Draft)
    ensures d.role == Assistant && d.content == body.response
    ensures d.metadata == Some(Metadata(Some(body.steps.GetOr([]))))
  {
    Draft(Assistant, body.response, Some(Metadata(Some(body.steps.GetOr([])))))
  }

  /** Whether the outcome yields an assistant message. */
  predicate Succeeds(outcome: FetchOutcome) {
    outcome.Replied? && outcome.ok && outcome.parsed.Json?
  }

  /** The message of the error caught when no assistant message is appended. */
  function FailureMessage(outcome: FetchOutcome): string
    requires !Succeeds(outcome)
  {
    match outcome
    case Replied(ok, parsed) => if !ok then AgentFailedMessage else parsed.message
    case NetworkError(message) => message
  }

  /** What the handler asks of its collaborators, in order. */
  datatype Effect =
    | CreateConversation                                  // `onNewConversation()`
    | AddMessage(scope: string, draft: Draft)             // `addMessage` of the hook scoped to `scope`
    | Retitle(id: string, title: string)                  // `onUpdateConversation(id, { title })`
    | AskAgent(conversationId: string, message: string, history: seq<Message>)   // the POST

  /** Where a turn is suspended. */
  datatype Phase = SavingUserMessage | SavingTitle | AwaitingAgent | SavingReply | Finished

  /** A turn in flight, with what the handler captured when it was submitted: the
      conversation, the trimmed text, whether the list was empty, and the list itself. */
  datatype Turn = Turn(conversationId: string, text: string, firstMessage: bool,
                       history: seq<Message>, phase: Phase)

  /** The state of one chat view. */
  class ChatSession {
    var input: string
    var isLoading: bool
    var error: Option<string>
    /** Everything asked of the store, the parent and the agent so far. */
    var effects: seq<Effect>

    constructor ()
      ensures input == "" && !isLoading && error == None && effects == []
    {
      input, isLoading, error, effects := "", false, None, [];
    }

    /** The text box's change handler. */
    method Type(text: string)
      modifies this`input
      ensures input == text
    {
      input := text;
    }

    /** `handleSubmit` up to its first await. An input that trims to nothing, or a turn
        already marked in flight, makes it do nothing. Without a conversation it only asks
        for a new one. Otherwise it starts saving the trimmed text as a user message and
        returns the suspended turn; `input`, `isLoading` and `error` are not touched yet, so
        a second submit before the saves complete is accepted too. */
    method Submit(conversationId: Option<string>, messages: seq<Message>) returns (turn: Option<Turn>)
      modifies this`effects
      ensures Trim(input) == "" || isLoading ==> turn == None && effects == old(effects)
      ensures Trim(input) != "" && !isLoading && !Present(conversationId) ==>
        turn == None && effects == old(effects) + [CreateConversation]
      ensures Trim(input) != "" && !isLoading && Present(conversationId) ==>
        && turn == Some(Turn(conversationId.value, Trim(input), messages == [], messages, SavingUserMessage))
        && effects == old(effects) + [AddMessage(conversationId.value, Draft(User, Trim(input), None))]
    {
      turn := None;
      if Trim(input) == "" || isLoading {
        return;
      }
      if !Present(conversationId) {
        effects := effects + [CreateConversation];
        return;
      }
      var text := Trim(input);
      effects := effects + [AddMessage(conversationId.value, Draft(User, text, None))];
      turn := Some(Turn(conversationId.value, text, |messages| == 0, messages, SavingUserMessage));
    }

    /** The point where the turn is marked in flight: the input is cleared, `isLoading`
        set, `error` reset, and the agent asked with the history captured at submit. */
    method CallAgent(t: Turn) returns (next: Turn)
      requires t.phase == SavingUserMessage || t.phase == SavingTitle
      modifies this
      ensures input == "" && isLoading && error == None
      ensures effects == old(effects) + [AskAgent(t.conversationId, t.text, t.history)]
      ensures next == t.(phase := AwaitingAgent)
    {
      input := "";
      isLoading := true;
      error := None;
      effects := effects + [AskAgent(t.conversationId, t.text, t.history)];
      next := t.(phase := AwaitingAgent);
    }

    /** Resumed after the user message's save, whatever its outcome (`addMessage` never
        throws): the first message of a conversation retitles it, any other goes straight
        to the agent. */
    method UserMessageSaved(t: Turn) returns (next: Turn)
      requires t.phase == SavingUserMessage
      modifies this
      ensures t.firstMessage ==>
        && next == t.(phase := SavingTitle)
        && effects == old(effects) + [Retitle(t.conversationId, Title(t.text))]
        && input == old(input) && isLoading == old(isLoading) && error == old(error)
      ensures !t.firstMessage ==>
        && next == t.(phase := AwaitingAgent)
        && effects == old(effects) + [AskAgent(t.conversationId, t.text, t.history)]
        && input == "" && isLoading && error == None
    {
      if t.firstMessage {
        effects := effects + [Retitle(t.conversationId, Title(t.text))];
        next := t.(phase := SavingTitle);
      } else {
        next := CallAgent(t);
      }
    }

    /** Resumed after the retitle (`updateConversation` never throws): on to the agent. */
    method TitleSaved(t: Turn) returns (next: Turn)
      requires t.phase == SavingTitle
      modifies this
      ensures next == t.(phase := AwaitingAgent)
      ensures effects == old(effects) + [AskAgent(t.conversationId, t.text, t.history)]
      ensures input == "" && isLoading && error == None
    {
      next := CallAgent(t);
    }

    /** Resumed with the agent call's outcome: a 2xx reply with a readable body appends
        exactly one assistant message; anything else appends nothing, records the error
        and ends the turn with `isLoading` false. */
    method AgentAnswered(t: Turn, outcome: FetchOutcome) returns (next: Turn)
      requires t.phase == AwaitingAgent
      modifies this
      ensures input == old(input)
      ensures Succeeds(outcome) ==>
        && next == t.(phase := SavingReply)
        && effects == old(effects) + [AddMessage(t.conversationId, AssistantDraft(outcome.parsed.body))]
        && isLoading == old(isLoading) && error == old(error)
      ensures !Succeeds(outcome) ==>
        && next == t.(phase := Finished)
        && effects == old(effects)
        && !isLoading && error == Some(FailureMessage(outcome))
    {
      if Succeeds(outcome) {
        effects := effects + [AddMessage(t.conversationId, AssistantDraft(outcome.parsed.body))];
        next := t.(phase := SavingReply);
      } else {
        error := Some(FailureMessage(outcome));
        isLoading := false;
        next := t.(phase := Finished);
      }
    }

    /** Resumed after the assistant message's save: the `finally` clears `isLoading`. */
    method ReplySaved(t: Turn) returns (next: Turn)
      requires t.phase == SavingReply
      modifies this`isLoading
      ensures next == t.(phase := Finished) && !isLoading
    {
      isLoading := false;
      next := t.(phase := Finished);
    }
  }

  /** A first turn that the agent answers: the user message, the retitle with the text,
      the agent call with the empty history, the assistant message with its steps, in that
      order, and the view back to idle with no error. */
  method AnsweredFirstTurn(id: string, text: string, body: AgentBody)
    returns (effects: seq<Effect>, input: string, isLoading: bool, error: Option<string>)
    requires id != "" && Trim(text) != ""
    ensures effects == [AddMessage(id, Draft(User, Trim(text), None)),
                        Retitle(id, Title(Trim(text))),
                        AskAgent(id, Trim(text), []),
                        AddMessage(id, AssistantDraft(body))]
    ensures input == "" && !isLoading && error == None
  {
    var s := new ChatSession();
    s.Type(text);
    var user := AddMessage(id, Draft(User, Trim(text), None));
    var retitle := Retitle(id, Title(Trim(text)));
    var ask := AskAgent(id, Trim(text), []);
    var t := s.Submit(Some(id), []);
    assert s.effects == [user] && t.value.firstMessage;
    var t1 := s.UserMessageSaved(t.value);
    assert s.effects == [user, retitle];
    var t2 := s.TitleSaved(t1);
    assert s.effects == [user, retitle, ask] && t2.conversationId == id;
    var reply := AddMessage(id, AssistantDraft(body));
    var t3 := s.AgentAnswered(t2, Replied(true, Json(body)));
    assert s.effects == [user, retitle, ask, reply] && t3.phase == SavingReply;
    var t4 := s.ReplySaved(t3);
    effects, input, isLoading, error := s.effects, s.input, s.isLoading, s.error;
  }

  /** A later turn whose agent call fails: only the user message is saved, the error is
      shown, and the view accepts the next submit. */
  method FailedTurn(id: string, text: string, history: seq<Message>, message: string)
    returns (effects: seq<Effect>, error: Option<string>, retry: Option<Turn>)
    requires id != "" && Trim(text) != "" && history != []
    ensures effects == [AddMessage(id, Draft(User, Trim(text), None)), AskAgent(id, Trim(text), history),
                        AddMessage(id, Draft(User, Trim(text), None))]
    ensures error == Some(message)
    ensures retry.Some?
  {
    var s := new ChatSession();
    s.Type(text);
    var user := AddMessage(id, Draft(User, Trim(text), None));
    var ask := AskAgent(id, Trim(text), history);
    var t := s.Submit(Some(id), history);
    assert s.effects == [user] && !t.value.firstMessage;
    var t1 := s.UserMessageSaved(t.value);
    assert s.effects == [user, ask];
    var t2 := s.AgentAnswered(t1, NetworkError(message));
    assert s.effects == [user, ask] && !s.isLoading;
    error := s.error;
    s.Type(text);
    retry := s.Submit(Some(id), history);
    effects := s.effects;
  }

  /** Two submits before the first turn's user message is saved both pass the in-flight
      guard: the same text is saved twice and the agent is asked twice. */
  method DoubleSubmit(id: string, text: string, history: seq<Message>) returns (effects: seq<Effect>)
    requires id != "" && Trim(text) != "" && history != []
    ensures effects == [AddMessage(id, Draft(User, Trim(text), None)),
                        AddMessage(id, Draft(User, Trim(text), None)),
                        AskAgent(id, Trim(text), history),
                        AskAgent(id, Trim(text), history)]
  {
    var s := new ChatSession();
    s.Type(text);
    var user := AddMessage(id, Draft(User, Trim(text), None));
    var ask := AskAgent(id, Trim(text), history);
    var first := s.Submit(Some(id), history);
    assert s.effects == [user] && !s.isLoading && s.input == text;
    var second := s.Submit(Some(id), history);
    assert s.effects == [user, user];
    var a := s.UserMessageSaved(first.value);
    assert s.effects == [user, user, ask];
    var b := s.UserMessageSaved(second.value);
    effects := s.effects;
  }

  /** A submit with nothing but whitespace in the box asks nothing of anyone. */
  method BlankSubmit(id: Option<string>, text: string, history: seq<Message>) returns (turn: Option<Turn>, effects: seq<Effect>)
    requires AllWhitespace(text)
    ensures turn == None && effects == []
  {
    var s := new ChatSession();
    s.Type(text);
    TrimEmptyIff(text);
    turn := s.Submit(id, history);
    effects := s.effects;
  }
}
