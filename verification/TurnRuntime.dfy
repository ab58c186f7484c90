/** The agent runtime's turn loop and the event log it writes. */
module TurnRuntime {
  import opened Sequences

  datatype RuntimeError =
    | Provider(message: string)
    | Tool(toolName: string, message: string)
    | Store(message: string)
    | ToolNotRegistered(name: string)
    | IterationLimit(limit: nat)

  datatype Result<T> = Ok(value: T) | Err(error: RuntimeError)

  datatype ToolCall = ToolCall(id: string, name: string, arguments: string)
  datatype ToolResult = ToolResult(callId: string, toolName: string, content: string, isError: bool)
  datatype ContextMessage = ContextMessage(role: string, content: string)
  datatype ProviderRequest = ProviderRequest(
    sessionId: string, agentId: string, messages: seq<ContextMessage>, toolResults: seq<ToolResult>)
  datatype ProviderResponse = ProviderResponse(finalText: Option<string>, toolCalls: seq<ToolCall>)
  datatype RuntimeEvent = OutboundResponse(sessionId: string, agentId: string, text: string)
  datatype TurnInput = TurnInput(sessionId: string, agentId: string, userMessage: string)
  datatype TurnOutput = TurnOutput(
    sessionId: string, agentId: string, finalText: string, events: seq<RuntimeEvent>, toolResults: seq<ToolResult>)
  datatype Config = Config(maxToolIterations: nat, tools: set<string>)

  /** A stored record; record ids are not modelled. */
  datatype Record =
    | UserMessage(sequence: nat, sessionId: string, agentId: string, content: string)
    | AssistantToolCall(
        sequence: nat, sessionId: string, agentId: string, callId: string, toolName: string, arguments: string)
    | ToolResultRecord(
        sequence: nat, sessionId: string, agentId: string,
        callId: string, toolName: string, content: string, isError: bool)
    | AssistantMessage(sequence: nat, sessionId: string, agentId: string, content: string)

  type Logs = map<string, seq<Record>>

  function LogOf(logs: Logs, session: string): seq<Record> {
    if session in logs then logs[session] else []
  }

  function AppendTo(logs: Logs, r: Record): Logs {
    logs[r.sessionId := LogOf(logs, r.sessionId) + [r]]
  }

  function Decimal(n: nat): string {
    if n < 10 then ["0123456789"[n]] else Decimal(n / 10) + ["0123456789"[n % 10]]
  }

  function Display(e: RuntimeError): string {
    match e
    case Provider(m) => "provider error: " + m
    case Tool(name, m) => "tool `" + name + "` failed: " + m
    case Store(m) => "store error: " + m
    case ToolNotRegistered(name) => "tool `" + name + "` is not registered"
    case IterationLimit(n) => "provider did not return a final response within " + Decimal(n) + " iterations"
  }

  function Digit(c: char): nat {
    if '0' <= c <= '9' then c as nat - '0' as nat else 0
  }

  /** What a string of digits stands for. */
  function Numeral(s: string): nat {
    if s == "" then 0 else 10 * Numeral(s[..|s| - 1]) + Digit(s[|s| - 1])
  }

  lemma {:induction false} DecimalReadsBack(n: nat)
    ensures Numeral(Decimal(n)) == n && Decimal(n) != ""
    ensures forall i :: 0 <= i < |Decimal(n)| ==> '0' <= Decimal(n)[i] <= '9'
  {
    var digits := "0123456789";
    assert digits[n % 10] as nat == '0' as nat + n % 10;
    if n >= 10 {
      DecimalReadsBack(n / 10);
      assert Decimal(n)[..|Decimal(n)| - 1] == Decimal(n / 10);
    } else {
      assert Decimal(n)[..0] == "";
    }
  }

  /** The text of an error ends in what it is about. */
  lemma {:induction false} DisplayTells(m: string, name: string, n: nat)
    ensures Display(Provider(m)) == "provider error: " + m && Display(Store(m)) == "store error: " + m
    ensures Display(Tool(name, m)) == "tool `" + name + "` failed: " + m
    ensures Display(ToolNotRegistered(name)) == "tool `" + name + "` is not registered"
    ensures exists digits :: Numeral(digits) == n && Display(IterationLimit(n)) ==
              "provider did not return a final response within " + digits + " iterations"
  {
    DecimalReadsBack(n);
  }

  // ----- What one turn writes -----

  /** One tool call, what the tool did with it (ignored when none is registered), and the recorded result. */
  datatype Step = Step(call: ToolCall, outcome: Result<ToolResult>, result: ToolResult)

  datatype Ending = Stopped | CutAfterCall(call: ToolCall) | Answered(text: string)

  function CallRecord(input: TurnInput, n: nat, c: ToolCall): Record {
    AssistantToolCall(n, input.sessionId, input.agentId, c.id, c.name, c.arguments)
  }

  function ResultRecord(input: TurnInput, n: nat, r: ToolResult): Record {
    ToolResultRecord(n, input.sessionId, input.agentId, r.callId, r.toolName, r.content, r.isError)
  }

  function StepRecords(input: TurnInput, n: nat, steps: seq<Step>): (r: seq<Record>)
    ensures |r| == 2 * |steps|
  {
    if steps == [] then []
    else
      var k, s := |steps| - 1, steps[|steps| - 1];
      StepRecords(input, n, steps[..k])
      + [CallRecord(input, n + 2 * k, s.call), ResultRecord(input, n + 2 * k + 1, s.result)]
  }

  function EndingRecords(input: TurnInput, n: nat, ending: Ending): seq<Record> {
    match ending
    case Stopped => []
    case CutAfterCall(c) => [CallRecord(input, n, c)]
    case Answered(text) => [AssistantMessage(n, input.sessionId, input.agentId, text)]
  }

  /** The block of a turn whose first sequence number is `n`: UserMessage (ToolCall ToolResult)* ending. */
  function Block(input: TurnInput, n: nat, steps: seq<Step>, ending: Ending): seq<Record> {
    [UserMessage(n, input.sessionId, input.agentId, input.userMessage)]
    + StepRecords(input, n + 1, steps)
    + EndingRecords(input, n + 1 + 2 * |steps|, ending)
  }

  function Calls(steps: seq<Step>): (r: seq<ToolCall>)
    ensures |r| == |steps|
  {
    seq(|steps|, i requires 0 <= i < |steps| => steps[i].call)
  }

  function Results(steps: seq<Step>): (r: seq<ToolResult>)
    ensures |r| == |steps|
  {
    seq(|steps|, i requires 0 <= i < |steps| => steps[i].result)
  }

  /** All calls a sequence of provider responses asked for. */
  function Asked(rounds: seq<ProviderResponse>): seq<ToolCall> {
    if rounds == [] then [] else Asked(rounds[..|rounds| - 1]) + rounds[|rounds| - 1].toolCalls
  }

  function ToolResultOf(tools: set<string>, call: ToolCall, outcome: Result<ToolResult>): ToolResult {
    if call.name !in tools then ToolResult(call.id, call.name, Display(ToolNotRegistered(call.name)), true)
    else
      match outcome
      case Ok(result) => result
      case Err(Tool(_, message)) => ToolResult(call.id, call.name, message, true)
      case Err(error) => ToolResult(call.id, call.name, Display(error), true)
  }

  /** What a call yields, on its own inputs: an unregistered or failing tool an error under the call's own id and
      name, a succeeding one exactly what it returned. */
  ghost predicate Resulted(tools: set<string>, call: ToolCall, outcome: Result<ToolResult>, result: ToolResult) {
    if call.name in tools && outcome.Ok? then result == outcome.value
    else
      && result.callId == call.id && result.toolName == call.name && result.isError
      && result.content ==
         if call.name !in tools then "tool `" + call.name + "` is not registered"
         else if outcome.error.Tool? then outcome.error.message
         else Display(outcome.error)
  }

  function Request(input: TurnInput, results: seq<ToolResult>): ProviderRequest {
    ProviderRequest(input.sessionId, input.agentId, [ContextMessage("user", input.userMessage)], results)
  }

  /** `requests` are all provider calls of the turn, `rounds` the responses without a final text, `last` the reply
      that was not such a round, if the turn got one, and `fault` whether a store operation failed. */
  datatype Trace =
    | NotStarted
    | Turn(
        steps: seq<Step>, ending: Ending, requests: seq<ProviderRequest>,
        rounds: seq<ProviderResponse>, last: Option<Result<ProviderResponse>>, fault: bool)

  /** Request `k` carries the results of exactly the calls asked for before it. */
  ghost predicate RequestAt(
      input: TurnInput, request: ProviderRequest, k: nat, rounds: seq<ProviderResponse>, steps: seq<Step>)
  {
    && k <= |rounds|
    && |Asked(rounds[..k])| <= |steps|
    && request == Request(input, Results(steps[..|Asked(rounds[..k])|]))
  }

  ghost predicate RequestsGrow(
      input: TurnInput, requests: seq<ProviderRequest>, rounds: seq<ProviderResponse>, steps: seq<Step>)
  {
    forall k :: 0 <= k < |requests| ==> RequestAt(input, requests[k], k, rounds, steps)
  }

  ghost predicate Answer(input: TurnInput, steps: seq<Step>, ending: Ending, result: Result<TurnOutput>) {
    && (result.Ok? <==> ending.Answered?)
    && (result.Ok? ==>
        result.value == TurnOutput(
          input.sessionId, input.agentId, ending.text,
          [OutboundResponse(input.sessionId, input.agentId, ending.text)], Results(steps)))
  }

  /** How a turn ends: a store fault; or the iteration limit, after exactly that many tool rounds; or an error of
      the provider, passed on; or the final text of its last reply. */
  ghost predicate Conclusion(config: Config, t: Trace, result: Result<TurnOutput>)
    requires t.Turn?
  {
    && (t.fault ==> result.Err? && result.error.Store?)
    && (t.ending.CutAfterCall? ==> t.fault)
    && (!t.fault && t.last.None? ==>
        |t.rounds| == config.maxToolIterations && result == Err(IterationLimit(config.maxToolIterations)))
    && (t.last.Some? && t.last.value.Err? ==> !t.fault && result == Err(t.last.value.error))
    && (t.last.Some? && t.last.value.Ok? ==>
        t.last.value.value.finalText.Some? && (t.fault || t.ending == Answered(t.last.value.value.finalText.value)))
  }

  function Succeeded(rounds: seq<ProviderResponse>): seq<Result<ProviderResponse>> {
    seq(|rounds|, i requires 0 <= i < |rounds| => Result.Ok(rounds[i]))
  }

  /** The replies a provider gave in a turn. */
  function Replies(t: Trace): seq<Result<ProviderResponse>> {
    if t.NotStarted? then [] else Succeeded(t.rounds) + if t.last.Some? then [t.last.value] else []
  }

  function Requests(t: Trace): seq<ProviderRequest> {
    if t.NotStarted? then [] else t.requests
  }

  /** Whether a store operation failed, which ends the turn. */
  predicate Faulted(t: Trace) {
    t.NotStarted? || t.fault
  }

  datatype Execution = Execution(call: ToolCall, outcome: Result<ToolResult>)

  function RunOf(tools: set<string>): Step -> seq<Execution> {
    (s: Step) => if s.call.name in tools then [Execution(s.call, s.outcome)] else []
  }

  /** The registered tools ran on exactly the logged calls, in order; that includes a call whose result could not
      be stored. */
  ghost predicate Ran(
      tools: set<string>, before: seq<Execution>, now: seq<Execution>, steps: seq<Step>, ending: Ending)
  {
    var known := before + FlatMap(steps, RunOf(tools));
    if ending.CutAfterCall? && ending.call.name in tools then
      |now| == |known| + 1 && known <= now && now[|known|].call == ending.call
    else now == known
  }

  /** What the provider asked for against what was logged: equal unless a store fault cut the turn short. */
  ghost predicate CallsLogged(steps: seq<Step>, ending: Ending, rounds: seq<ProviderResponse>, fault: bool) {
    && Calls(steps) + (if ending.CutAfterCall? then [ending.call] else []) <= Asked(rounds)
    && (!fault ==> Calls(steps) == Asked(rounds))
  }

  ghost predicate StepsRan(tools: set<string>, steps: seq<Step>) {
    forall i :: 0 <= i < |steps| ==> steps[i].result == ToolResultOf(tools, steps[i].call, steps[i].outcome)
  }

  /** The store holds `pre` with `records` appended to the session of `input`. */
  ghost predicate Holds(now: Logs, pre: Logs, input: TurnInput, records: seq<Record>) {
    now == pre[input.sessionId := LogOf(pre, input.sessionId) + records]
  }

  /** The contract of one turn on the logs `pre`. */
  ghost predicate TurnContract(
      pre: Logs, post: Logs, input: TurnInput, config: Config, result: Result<TurnOutput>, t: Trace)
  {
    match t
    case NotStarted => post == pre && result.Err? && result.error.Store?
    case Turn(steps, ending, requests, rounds, last, fault) =>
      && Holds(post, pre, input, Block(input, |LogOf(pre, input.sessionId)| + 1, steps, ending))
      && Answer(input, steps, ending, result)
      && Conclusion(config, t, result)
      && CallsLogged(steps, ending, rounds, fault)
      && StepsRan(config.tools, steps)
      && (forall k :: 0 <= k < |rounds| ==> rounds[k].finalText.None?)
      && |requests| == |rounds| + (if last.Some? then 1 else 0) <= config.maxToolIterations
      && RequestsGrow(input, requests, rounds, steps)
  }

  // ----- The loop -----

  /** The outside world may make any storage operation fail, and counts the faults it caused. */
  class Faults {
    ghost var count: nat

    method Strike() returns (struck: bool)
      modifies this
      ensures count == old(count) + if struck then 1 else 0
    {
      struck := *;
      count := count + if struck then 1 else 0;
    }
  }

  class TurnStore {
    const faults: Faults
    var recordsBySession: Logs

    constructor (faults: Faults)
      ensures this.faults == faults && recordsBySession == map[]
    {
      this.faults, recordsBySession := faults, map[];
    }

    /** Atomic, but fails when a fault strikes. */
    method Append(r: Record) returns (failure: Option<RuntimeError>)
      modifies this`recordsBySession, faults
      ensures faults.count == old(faults.count) + if failure.Some? then 1 else 0
      ensures failure.None? ==> recordsBySession == AppendTo(old(recordsBySession), r)
      ensures failure.Some? ==> recordsBySession == old(recordsBySession) && failure.value.Store?
    {
      var poisoned := faults.Strike();
      if poisoned {
        return Some(Store("in-memory store lock poisoned"));
      }
      recordsBySession := recordsBySession[r.sessionId := LogOf(recordsBySession, r.sessionId) + [r]];
      return None;
    }

    method Records(session: string) returns (records: Result<seq<Record>>)
      modifies faults
      ensures faults.count == old(faults.count) + if records.Err? then 1 else 0
      ensures records.Ok? ==> records.value == LogOf(recordsBySession, session)
      ensures records.Err? ==> records.error.Store?
    {
      var poisoned := faults.Strike();
      if poisoned {
        return Err(Store("in-memory store lock poisoned"));
      }
      return Ok(LogOf(recordsBySession, session));
    }
  }

  lemma {:induction false} AskedSnoc(rounds: seq<ProviderResponse>, r: ProviderResponse)
    ensures Asked(rounds + [r]) == Asked(rounds) + r.toolCalls
    ensures Succeeded(rounds + [r]) == Succeeded(rounds) + [Ok(r)]
  {
    assert (rounds + [r])[..|rounds|] == rounds;
  }

  lemma {:induction false} StepSnoc(input: TurnInput, n: nat, steps: seq<Step>, s: Step)
    ensures StepRecords(input, n, steps + [s]) ==
            StepRecords(input, n, steps)
            + [CallRecord(input, n + 2 * |steps|, s.call)] + [ResultRecord(input, n + 2 * |steps| + 1, s.result)]
    ensures Calls(steps + [s]) == Calls(steps) + [s.call]
    ensures Results(steps + [s]) == Results(steps) + [s.result]
  {
    assert (steps + [s])[..|steps|] == steps;
  }

  /** The block without its ending: what a turn in progress has written. */
  function Written(input: TurnInput, n: nat, steps: seq<Step>): seq<Record> {
    [UserMessage(n, input.sessionId, input.agentId, input.userMessage)] + StepRecords(input, n + 1, steps)
  }

  lemma {:induction false} BlockIsWritten(input: TurnInput, n: nat, steps: seq<Step>, ending: Ending)
    ensures Block(input, n, steps, ending) ==
            Written(input, n, steps) + EndingRecords(input, n + 1 + 2 * |steps|, ending)
    ensures ending.Stopped? ==> Block(input, n, steps, ending) == Written(input, n, steps)
  {
  }

  lemma WrittenStart(input: TurnInput, n: nat)
    ensures Written(input, n, []) == [UserMessage(n, input.sessionId, input.agentId, input.userMessage)]
    ensures Succeeded([]) == [] && RequestsGrow(input, [], [], []) && Results([]) == [] && Calls([]) == Asked([]) == []
    ensures forall tools :: StepsRan(tools, [])
    ensures forall tools, ran :: Ran(tools, ran, ran, [], Stopped)
  {
  }

  /** One more call: the tools have run on it, whether or not its result is stored. */
  lemma {:induction false} RanSnoc(
      tools: set<string>, before: seq<Execution>, now: seq<Execution>, now': seq<Execution>, steps: seq<Step>, s: Step)
    requires Ran(tools, before, now, steps, Stopped)
    requires now' == now + if s.call.name in tools then [Execution(s.call, s.outcome)] else []
    ensures Ran(tools, before, now', steps + [s], Stopped) && Ran(tools, before, now', steps, CutAfterCall(s.call))
  {
    hide FlatMap;
    FlatMapSnoc(steps, s, RunOf(tools));
  }

  lemma RanAnswered(
      tools: set<string>, before: seq<Execution>, now: seq<Execution>, steps: seq<Step>, text: string)
    requires Ran(tools, before, now, steps, Stopped)
    ensures Ran(tools, before, now, steps, Answered(text))
  {
  }

  lemma {:induction false} WrittenSnoc(input: TurnInput, n: nat, steps: seq<Step>, s: Step)
    ensures Written(input, n, steps + [s]) ==
            Block(input, n, steps, CutAfterCall(s.call)) + [ResultRecord(input, n + 2 + 2 * |steps|, s.result)]
  {
    StepSnoc(input, n + 1, steps, s);
  }

  lemma HoldsStart(pre: Logs, input: TurnInput, r: Record)
    requires r.sessionId == input.sessionId
    ensures Holds(AppendTo(pre, r), pre, input, [r])
  {
  }

  lemma {:induction false} HoldsAppend(now: Logs, pre: Logs, input: TurnInput, records: seq<Record>, r: Record)
    requires Holds(now, pre, input, records) && r.sessionId == input.sessionId
    ensures Holds(AppendTo(now, r), pre, input, records + [r])
  {
    assert LogOf(pre, input.sessionId) + (records + [r]) == LogOf(now, input.sessionId) + [r];
  }

  lemma {:induction false} RequestsGrowRound(
      input: TurnInput, requests: seq<ProviderRequest>, rounds: seq<ProviderResponse>, r: ProviderResponse,
      steps: seq<Step>)
    requires RequestsGrow(input, requests, rounds, steps)
    ensures RequestsGrow(input, requests, rounds + [r], steps)
  {
    forall k | 0 <= k < |requests|
      ensures RequestAt(input, requests[k], k, rounds + [r], steps)
    {
      assert RequestAt(input, requests[k], k, rounds, steps);
      assert (rounds + [r])[..k] == rounds[..k];
    }
  }

  lemma {:induction false} RequestsGrowSteps(
      input: TurnInput, requests: seq<ProviderRequest>, rounds: seq<ProviderResponse>, steps: seq<Step>,
      more: seq<Step>)
    requires RequestsGrow(input, requests, rounds, steps) && steps <= more
    ensures RequestsGrow(input, requests, rounds, more)
  {
    forall k | 0 <= k < |requests|
      ensures RequestAt(input, requests[k], k, rounds, more)
    {
      assert RequestAt(input, requests[k], k, rounds, steps);
      assert more[..|Asked(rounds[..k])|] == steps[..|Asked(rounds[..k])|];
    }
  }

  lemma {:induction false} RequestsGrowAsk(
      input: TurnInput, requests: seq<ProviderRequest>, rounds: seq<ProviderResponse>, steps: seq<Step>)
    requires RequestsGrow(input, requests, rounds, steps) && |requests| == |rounds| && |Asked(rounds)| == |steps|
    ensures RequestsGrow(input, requests + [Request(input, Results(steps))], rounds, steps)
  {
    assert rounds[..|rounds|] == rounds && steps[..|steps|] == steps;
  }

  /** A provider may answer anything; it remembers what it was asked and what it answered. */
  class AgentProvider {
    ghost var requests: seq<ProviderRequest>
    ghost var replies: seq<Result<ProviderResponse>>

    method Complete(request: ProviderRequest) returns (response: Result<ProviderResponse>)
      modifies this
      ensures requests == old(requests) + [request] && replies == old(replies) + [response]
    {
      response := *;
      requests, replies := requests + [request], replies + [response];
    }
  }

  /** The registered tools may return anything; they remember what they ran. */
  class Toolbox {
    ghost var executions: seq<Execution>

    method Execute(call: ToolCall) returns (outcome: Result<ToolResult>)
      modifies this
      ensures executions == old(executions) + [Execution(call, outcome)]
    {
      outcome := *;
      executions := executions + [Execution(call, outcome)];
    }
  }

  class AgentRuntime {
    const provider: AgentProvider
    const store: TurnStore
    const toolbox: Toolbox
    const config: Config

    constructor (provider: AgentProvider, store: TurnStore, toolbox: Toolbox, config: Config)
      ensures this.provider == provider && this.store == store && this.toolbox == toolbox && this.config == config
    {
      this.provider, this.store, this.toolbox, this.config := provider, store, toolbox, config;
    }

    method ExecuteTool(call: ToolCall) returns (result: ToolResult, ghost outcome: Result<ToolResult>)
      modifies toolbox
      ensures toolbox.executions ==
              old(toolbox.executions) + if call.name in config.tools then [Execution(call, outcome)] else []
      ensures result == ToolResultOf(config.tools, call, outcome)
      ensures Resulted(config.tools, call, outcome, result)
    {
      if call.name !in config.tools {
        outcome := Err(ToolNotRegistered(call.name));
        result := ToolResult(call.id, call.name, Display(ToolNotRegistered(call.name)), true);
        return;
      }
      var returned := toolbox.Execute(call);
      outcome := returned;
      match returned {
        case Ok(r) => result := r;
        case Err(error) =>
          if error.Tool? {
            result := ToolResult(call.id, call.name, error.message, true);
          } else {
            result := ToolResult(call.id, call.name, Display(error), true);
          }
      }
    }

    /** One call: logged, executed, and its result logged. */
    method RunCall(
        input: TurnInput, call: ToolCall, sequence: nat,
        ghost pre: Logs, ghost ran: seq<Execution>, ghost steps: seq<Step>)
      returns (failure: Option<RuntimeError>, result: ToolResult, ghost step: Step, ghost ending: Ending)
      requires sequence == |LogOf(pre, input.sessionId)| + 2 + 2 * |steps|
      requires Holds(store.recordsBySession, pre, input, Written(input, |LogOf(pre, input.sessionId)| + 1, steps))
      requires Ran(config.tools, ran, toolbox.executions, steps, Stopped)
      modifies store, store.faults, toolbox
      ensures store.faults.count == old(store.faults.count) + if failure.Some? then 1 else 0
      ensures failure.None? ==>
                && step.call == call && step.result == result
                && result == ToolResultOf(config.tools, call, step.outcome)
                && Holds(store.recordsBySession, pre, input,
                         Written(input, |LogOf(pre, input.sessionId)| + 1, steps + [step]))
                && Ran(config.tools, ran, toolbox.executions, steps + [step], Stopped)
      ensures failure.Some? ==>
                && failure.value.Store? && (ending.Stopped? || ending == CutAfterCall(call))
                && Holds(store.recordsBySession, pre, input,
                         Block(input, |LogOf(pre, input.sessionId)| + 1, steps, ending))
                && Ran(config.tools, ran, toolbox.executions, steps, ending)
    {
      hide Block, Written, StepRecords, Holds, AppendTo, LogOf, Display, ToolResultOf, Resulted, Ran;
      ghost var n := |LogOf(pre, input.sessionId)| + 1;
      step, ending := Step(call, Err(Store("")), ToolResult("", "", "", false)), Stopped;
      result := ToolResult("", "", "", false);
      BlockIsWritten(input, n, steps, Stopped);
      BlockIsWritten(input, n, steps, CutAfterCall(call));
      HoldsAppend(store.recordsBySession, pre, input, Written(input, n, steps), CallRecord(input, sequence, call));
      failure := store.Append(
        AssistantToolCall(sequence, input.sessionId, input.agentId, call.id, call.name, call.arguments));
      if failure.Some? {
        return;
      }
      ghost var before := toolbox.executions;
      ghost var outcome;
      result, outcome := ExecuteTool(call);
      step, ending := Step(call, outcome, result), CutAfterCall(call);
      RanSnoc(config.tools, ran, before, toolbox.executions, steps, step);
      WrittenSnoc(input, n, steps, step);
      HoldsAppend(store.recordsBySession, pre, input, Block(input, n, steps, CutAfterCall(call)),
                  ResultRecord(input, sequence + 1, result));
      failure := store.Append(
        ToolResultRecord(
          sequence + 1, input.sessionId, input.agentId,
          result.callId, result.toolName, result.content, result.isError));
    }

    /** The inner loop: executes the calls of one response, logging each call and its result. */
    method RunCalls(
        input: TurnInput, calls: seq<ToolCall>, sequence: nat, toolResults: seq<ToolResult>,
        ghost pre: Logs, ghost ran: seq<Execution>, ghost steps: seq<Step>)
      returns (failure: Option<RuntimeError>, sequence': nat, toolResults': seq<ToolResult>,
               ghost steps': seq<Step>, ghost ending: Ending)
      requires sequence == |LogOf(pre, input.sessionId)| + 2 + 2 * |steps| && toolResults == Results(steps)
      requires StepsRan(config.tools, steps)
      requires Holds(store.recordsBySession, pre, input, Written(input, |LogOf(pre, input.sessionId)| + 1, steps))
      requires Ran(config.tools, ran, toolbox.executions, steps, Stopped)
      modifies store, store.faults, toolbox
      ensures store.faults.count == old(store.faults.count) + if failure.Some? then 1 else 0
      ensures steps <= steps' && toolResults' == Results(steps')
      ensures failure.None? ==> sequence' == |LogOf(pre, input.sessionId)| + 2 + 2 * |steps'|
      ensures StepsRan(config.tools, steps')
      ensures Holds(store.recordsBySession, pre, input, Block(input, |LogOf(pre, input.sessionId)| + 1, steps', ending))
      ensures Ran(config.tools, ran, toolbox.executions, steps', ending)
      ensures !ending.Answered?
      ensures Calls(steps') + (if ending.CutAfterCall? then [ending.call] else []) <= Calls(steps) + calls
      ensures failure.None? ==> ending.Stopped? && Calls(steps') == Calls(steps) + calls
      ensures failure.Some? ==> failure.value.Store?
    {
      hide Block, Written, StepRecords, Holds, AppendTo, LogOf, Display, ToolResultOf, Resulted, Ran;
      ghost var n := |LogOf(pre, input.sessionId)| + 1;
      failure, sequence', toolResults', steps', ending := None, sequence, toolResults, steps, Stopped;
      var i := 0;
      BlockIsWritten(input, n, steps, Stopped);
      while i < |calls|
        invariant 0 <= i <= |calls|
        invariant steps <= steps' && toolResults' == Results(steps') && StepsRan(config.tools, steps')
        invariant sequence' == n + 1 + 2 * |steps'|
        invariant Calls(steps') == Calls(steps) + calls[..i]
        invariant ending.Stopped? && failure.None? && store.faults.count == old(store.faults.count)
        invariant Ran(config.tools, ran, toolbox.executions, steps', Stopped)
        invariant Holds(store.recordsBySession, pre, input, Written(input, n, steps'))
        invariant Block(input, n, steps', Stopped) == Written(input, n, steps')
      {
        var result;
        ghost var step;
        failure, result, step, ending := RunCall(input, calls[i], sequence', pre, ran, steps');
        assert calls[..i] + [calls[i]] <= calls;
        if failure.Some? {
          return;
        }
        ending := Stopped;
        StepSnoc(input, n + 1, steps', step);
        sequence' := sequence' + 2;
        toolResults' := toolResults' + [result];
        steps' := steps' + [step];
        BlockIsWritten(input, n, steps', Stopped);
        assert calls[..i + 1] == calls[..i] + [calls[i]];
        i := i + 1;
      }
      assert calls[..i] == calls;
    }

    /** The final text: stored and announced, or lost to a store fault. */
    method StoreAnswer(
        input: TurnInput, text: string, sequence: nat, toolResults: seq<ToolResult>,
        ghost pre: Logs, ghost steps: seq<Step>)
      returns (result: Result<TurnOutput>, ghost ending: Ending)
      requires sequence == |LogOf(pre, input.sessionId)| + 2 + 2 * |steps| && toolResults == Results(steps)
      requires Holds(store.recordsBySession, pre, input, Written(input, |LogOf(pre, input.sessionId)| + 1, steps))
      modifies store, store.faults
      ensures store.faults.count == old(store.faults.count) + if result.Err? then 1 else 0
      ensures Holds(store.recordsBySession, pre, input, Block(input, |LogOf(pre, input.sessionId)| + 1, steps, ending))
      ensures Answer(input, steps, ending, result)
      ensures ending == if result.Ok? then Answered(text) else Stopped
      ensures result.Err? ==> result.error.Store?
    {
      hide Block, Written, StepRecords, Holds, AppendTo, LogOf, Results;
      ghost var n := |LogOf(pre, input.sessionId)| + 1;
      BlockIsWritten(input, n, steps, Stopped);
      BlockIsWritten(input, n, steps, Answered(text));
      HoldsAppend(store.recordsBySession, pre, input, Written(input, n, steps),
                  AssistantMessage(sequence, input.sessionId, input.agentId, text));
      var failure := store.Append(AssistantMessage(sequence, input.sessionId, input.agentId, text));
      if failure.Some? {
        return Err(failure.value), Stopped;
      }
      var event := OutboundResponse(input.sessionId, input.agentId, text);
      return Ok(TurnOutput(input.sessionId, input.agentId, text, [event], toolResults)), Answered(text);
    }

    /** Stores the user message under the session's next sequence number and returns the one after it. */
    method StoreQuestion(input: TurnInput) returns (failure: Option<RuntimeError>, sequence: nat)
      modifies store, store.faults
      ensures store.faults.count == old(store.faults.count) + if failure.Some? then 1 else 0
      ensures failure.Some? ==> failure.value.Store? && store.recordsBySession == old(store.recordsBySession)
      ensures failure.None? ==>
                && sequence == |LogOf(old(store.recordsBySession), input.sessionId)| + 2
                && Holds(store.recordsBySession, old(store.recordsBySession), input,
                         Written(input, sequence - 1, []))
    {
      hide Written, Holds, AppendTo, LogOf;
      failure, sequence := None, 0;
      var existing := store.Records(input.sessionId);
      if existing.Err? {
        failure := Some(existing.error);
        return;
      }
      sequence := |existing.value| + 1;
      var message := UserMessage(sequence, input.sessionId, input.agentId, input.userMessage);
      HoldsStart(store.recordsBySession, input, message);
      WrittenStart(input, sequence);
      failure := store.Append(message);
      sequence := sequence + 1;
    }

    method RunTurn(input: TurnInput) returns (result: Result<TurnOutput>, ghost trace: Trace)
      modifies store, store.faults, provider, toolbox
      ensures store.faults.count == old(store.faults.count) + if Faulted(trace) then 1 else 0
      ensures provider.requests == old(provider.requests) + Requests(trace)
      ensures provider.replies == old(provider.replies) + Replies(trace)
      ensures trace.NotStarted? ==> toolbox.executions == old(toolbox.executions)
      ensures trace.Turn? ==>
                Ran(config.tools, old(toolbox.executions), toolbox.executions, trace.steps, trace.ending)
      ensures TurnContract(old(store.recordsBySession), store.recordsBySession, input, config, result, trace)
    {
      hide Block, Written, StepRecords, Display, ToolResultOf, RequestsGrow, Holds, AppendTo, LogOf;
      hide StepsRan, Asked, Calls, Results, Ran, Succeeded;
      ghost var pre, ran := store.recordsBySession, toolbox.executions;
      ghost var asked, replied := provider.requests, provider.replies;
      var failure, sequence := StoreQuestion(input);
      if failure.Some? {
        return Err(failure.value), NotStarted;
      }
      ghost var n := sequence - 1;
      var toolResults: seq<ToolResult> := [];
      ghost var steps: seq<Step>, rounds: seq<ProviderResponse>, requests: seq<ProviderRequest> := [], [], [];
      WrittenStart(input, n);
      var i := 0;
      while i < config.maxToolIterations
        invariant 0 <= i <= config.maxToolIterations && |rounds| == |requests| == i
        invariant sequence == n + 1 + 2 * |steps| && toolResults == Results(steps)
        invariant StepsRan(config.tools, steps) && Calls(steps) == Asked(rounds)
        invariant forall k :: 0 <= k < |rounds| ==> rounds[k].finalText.None?
        invariant RequestsGrow(input, requests, rounds, steps)
        invariant Holds(store.recordsBySession, pre, input, Written(input, n, steps))
        invariant Ran(config.tools, ran, toolbox.executions, steps, Stopped)
        invariant store.faults.count == old(store.faults.count)
        invariant provider.requests == asked + requests
        invariant provider.replies == replied + Succeeded(rounds)
      {
        BlockIsWritten(input, n, steps, Stopped);
        RequestsGrowAsk(input, requests, rounds, steps);
        requests := requests + [Request(input, Results(steps))];
        var response := provider.Complete(
          ProviderRequest(input.sessionId, input.agentId, [ContextMessage("user", input.userMessage)], toolResults));
        if response.Err? {
          return Err(response.error), Turn(steps, Stopped, requests, rounds, Some(response), false);
        }
        if response.value.finalText.Some? {
          ghost var ending;
          result, ending := StoreAnswer(input, response.value.finalText.value, sequence, toolResults, pre, steps);
          RanAnswered(config.tools, ran, toolbox.executions, steps, response.value.finalText.value);
          trace := Turn(steps, ending, requests, rounds, Some(response), result.Err?);
          return;
        }
        AskedSnoc(rounds, response.value);
        RequestsGrowRound(input, requests, rounds, response.value, steps);
        rounds := rounds + [response.value];
        ghost var before := steps;
        ghost var ending;
        failure, sequence, toolResults, steps, ending :=
          RunCalls(input, response.value.toolCalls, sequence, toolResults, pre, ran, steps);
        RequestsGrowSteps(input, requests, rounds, before, steps);
        if failure.Some? {
          return Err(failure.value), Turn(steps, ending, requests, rounds, None, true);
        }
        BlockIsWritten(input, n, steps, Stopped);
        i := i + 1;
      }
      BlockIsWritten(input, n, steps, Stopped);
      return Err(IterationLimit(config.maxToolIterations)), Turn(steps, Stopped, requests, rounds, None, false);
    }
  }
}
