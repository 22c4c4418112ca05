/** The agent endpoint (`POST /api/agent/run`): its request and response models and the
    handler that turns one agent run into a response or an HTTP error. */
module AgentApi {
  import opened Wrappers

  /** A history entry of a request. */
  datatype ChatMessage = ChatMessage(role: string, content: string, timestamp: Option<string>)

  datatype AgentRequest = AgentRequest(conversationId: string, message: string, history: seq<ChatMessage>)

  datatype AgentResponse = AgentResponse(response: string, steps: seq<string>)

  /** A request body as validated: an omitted `history` is the empty list. */
  function RequestFrom(conversationId: string, message: string, history: Option<seq<ChatMessage>>): (r: AgentRequest)
    ensures r.conversationId == conversationId && r.message == message
    ensures history.None? ==> r.history == []
    ensures history.Some? ==> r.history == history.value
  {
    AgentRequest(conversationId, message, history.GetOr([]))
  }

  /** A response built without `steps` has the empty list. */
  function ResponseFrom(response: string, steps: Option<seq<string>>): (r: AgentResponse)
    ensures r.response == response
    ensures steps.None? ==> r.steps == []
    ensures steps.Some? ==> r.steps == steps.value
  {
    AgentResponse(response, steps.GetOr([]))
  }

  /** A message of the agent's memory; its content may be absent. */
  datatype MemoryMessage = MemoryMessage(role: string, content: Option<string>)

  /** An exception, by the handler's three ways of treating it; `str(e)` is its message. */
  datatype Raised =
    | FileMissing(message: string)         // FileNotFoundError
    | Http(status: int, detail: string)    // HTTPException
    | Failure(message: string)             // any other Exception

  /** How constructing the agent ended. */
  datatype Construction = Built | ConstructionRaised(e: Raised)

  /** How `await agent.run(request.message)` ended, with the agent's step counter and memory. */
  datatype Run = Completed(result: string, currentStep: int, memory: seq<MemoryMessage>) | RunRaised(e: Raised)

  /** What the endpoint sends back. */
  datatype Reply = Answered(body: AgentResponse) | HttpError(status: int, detail: string)

  const ConfigMissingDetail := "LLM configuration not set up. Please create config/config.toml with your API credentials. See config/config.example.toml for reference."

  /** The decimal digit for `d`. */
  function Digit(d: nat): char
    requires d < 10
  {
    "0123456789"[d]
  }

  /** Python's `str(n)` for a natural number. */
  function Decimal(n: nat): (s: string)
    ensures s != []
    ensures forall k :: 0 <= k < |s| ==> '0' <= s[k] <= '9'
  {
    if n < 10 then [Digit(n)] else Decimal(n / 10) + [Digit(n % 10)]
  }

  /** The number a string of decimal digits denotes. */
  function DecimalValue(s: string): nat
    requires forall k :: 0 <= k < |s| ==> '0' <= s[k] <= '9'
  {
    if s == [] then 0 else DecimalValue(s[..|s| - 1]) * 10 + (s[|s| - 1] as int - '0' as int)
  }

  /** Reading back the digits of `n` gives `n`. */
  lemma {:induction false} DecimalRoundTrip(n: nat)
    ensures DecimalValue(Decimal(n)) == n
  {
    if n >= 10 {
      var s := Decimal(n);
      assert s[..|s| - 1] == Decimal(n / 10);
      DecimalRoundTrip(n / 10);
    }
  }

  /** The `k`-th entry of `steps`, counting from one. */
  function StepLabel(k: nat): string {
    "Step " + Decimal(k) + " completed"
  }

  /** Different step numbers give different labels. */
  lemma StepLabelInjective(j: nat, k: nat)
    requires StepLabel(j) == StepLabel(k)
    ensures j == k
  {
    var lj, lk := StepLabel(j), StepLabel(k);
    assert |lj| == |lk|;
    assert lj[5..|lj| - 10] == Decimal(j);
    assert lk[5..|lk| - 10] == Decimal(k);
    DecimalRoundTrip(j);
    DecimalRoundTrip(k);
  }

  /** `for i in range(current_step): steps.append(f"Step {i + 1} completed")`. */
  method BuildSteps(currentStep: int) returns (steps: seq<string>)
    ensures |steps| == if currentStep < 0 then 0 else currentStep
    ensures forall i :: 0 <= i < |steps| ==> steps[i] == StepLabel(i + 1)
  {
    steps := [];
    var i := 0;
    while i < currentStep
      invariant 0 <= i <= (if currentStep < 0 then 0 else currentStep)
      invariant |steps| == i
      invariant forall k :: 0 <= k < i ==> steps[k] == StepLabel(k + 1)
    {
      steps := steps + [StepLabel(i + 1)];
      i := i + 1;
    }
  }

  /** The last memory message when it is the assistant's and has non-empty content. */
  predicate EndsWithAssistantText(memory: seq<MemoryMessage>) {
    && memory != []
    && memory[|memory| - 1].role == "assistant"
    && memory[|memory| - 1].content.Some?
    && memory[|memory| - 1].content.value != ""
  }

  /** The reply text: the content of the agent's last memory message when that message is
      the assistant's and non-empty, the raw `result` otherwise. */
  function FinalResponse(memory: seq<MemoryMessage>, result: string): (r: string)
    ensures EndsWithAssistantText(memory) ==> r == memory[|memory| - 1].content.value && r != ""
    ensures !EndsWithAssistantText(memory) ==> r == result
  {
    var fromMemory :=
      if memory != [] && memory[|memory| - 1].role == "assistant"
      then memory[|memory| - 1].content.GetOr("")
      else "";
    if fromMemory == "" then result else fromMemory
  }

  /** `str(e)` for an exception the handler does not re-raise. */
  function Describe(e: Raised): string {
    match e
    case FileMissing(message) => message
    case Http(_, detail) => detail
    case Failure(message) => message
  }

  /** `run_agent`: a missing configuration file while constructing the agent is a 503, an
      `HTTPException` from anywhere passes through unchanged, any other exception is a 500
      whose detail is the exception's text; otherwise the reply carries the final response
      and one step label per completed step. */
  method RunAgent(construction: Construction, run: Run) returns (reply: Reply)
    ensures construction.ConstructionRaised? ==>
      reply == match construction.e
               case FileMissing(_) => HttpError(503, ConfigMissingDetail)
               case Http(status, detail) => HttpError(status, detail)
               case Failure(message) => HttpError(500, message)
    ensures construction.Built? && run.RunRaised? ==>
      reply == match run.e
               case Http(status, detail) => HttpError(status, detail)
               case FileMissing(message) => HttpError(500, message)
               case Failure(message) => HttpError(500, message)
    ensures construction.Built? && run.Completed? ==> reply.Answered?
    ensures construction.Built? && run.Completed? ==>
      reply.body.response == FinalResponse(run.memory, run.result)
      && |reply.body.steps| == (if run.currentStep < 0 then 0 else run.currentStep)
      && forall i :: 0 <= i < |reply.body.steps| ==> reply.body.steps[i] == StepLabel(i + 1)
  {
    var raised: Option<Raised> := None;
    if construction.ConstructionRaised? {
      if construction.e.FileMissing? {
        raised := Some(Http(503, ConfigMissingDetail));
      } else {
        raised := Some(construction.e);
      }
    } else if run.RunRaised? {
      raised := Some(run.e);
    }
    match raised {
      case Some(Http(status, detail)) =>
        reply := HttpError(status, detail);
      case Some(e) =>
        reply := HttpError(500, Describe(e));
      case None =>
        var steps := BuildSteps(run.currentStep);
        reply := Answered(ResponseFrom(FinalResponse(run.memory, run.result), Some(steps)));
    }
  }
}
