/** Whole runs of turns: sequence numbers, replay, and the two stores. */
module TurnHistory {
  import opened Sequences
  import opened TurnRuntime

  datatype TurnEvent = TurnEvent(input: TurnInput, config: Config, result: Result<TurnOutput>, trace: Trace)

  ghost predicate TurnStep(pre: Logs, post: Logs, e: TurnEvent) {
    TurnContract(pre, post, e.input, e.config, e.result, e.trace)
  }

  /** Turns on one session do not overlap: a turn reads its first sequence number and then writes. */
  ghost predicate Run(states: seq<Logs>, events: seq<TurnEvent>) {
    && |states| == |events| + 1
    && states[0] == map[]
    && forall i :: 0 <= i < |events| ==> TurnStep(states[i], states[i + 1], events[i])
  }

  lemma RunPrefix(states: seq<Logs>, events: seq<TurnEvent>)
    requires Run(states, events) && events != []
    ensures Run(states[..|events|], events[..|events| - 1])
    ensures TurnStep(states[|events| - 1], states[|events|], events[|events| - 1])
  {
    hide TurnStep;
    forall i | 0 <= i < |events| - 1
      ensures TurnStep(states[..|events|][i], states[..|events|][i + 1], events[..|events| - 1][i])
    {
      assert TurnStep(states[i], states[i + 1], events[i]);
    }
  }

  /** The records a turn appended. */
  ghost function BlockOf(pre: Logs, e: TurnEvent): seq<Record> {
    if e.trace.NotStarted? then []
    else Block(e.input, |LogOf(pre, e.input.sessionId)| + 1, e.trace.steps, e.trace.ending)
  }

  /** A turn appends its block to its own session and leaves every other log alone. */
  lemma {:induction false} TurnAppends(pre: Logs, post: Logs, e: TurnEvent, session: string)
    requires TurnStep(pre, post, e)
    ensures LogOf(post, session) ==
            LogOf(pre, session) + if session == e.input.sessionId then BlockOf(pre, e) else []
  {
    hide Block, RequestsGrow, CallsLogged, Conclusion, Answer, StepsRan;
  }

  // ----- Sequence numbers -----

  ghost predicate Numbered(records: seq<Record>, n: nat, input: TurnInput) {
    forall i :: 0 <= i < |records| ==>
      records[i].sequence == n + i && records[i].sessionId == input.sessionId && records[i].agentId == input.agentId
  }

  lemma {:induction false} StepsNumbered(input: TurnInput, n: nat, steps: seq<Step>)
    ensures Numbered(StepRecords(input, n, steps), n, input)
  {
    if steps != [] {
      StepsNumbered(input, n, steps[..|steps| - 1]);
    }
  }

  lemma {:induction false} BlockNumbered(input: TurnInput, n: nat, steps: seq<Step>, ending: Ending)
    ensures Numbered(Block(input, n, steps, ending), n, input)
  {
    StepsNumbered(input, n + 1, steps);
  }

  lemma {:induction false} BlockOfNumbered(pre: Logs, e: TurnEvent)
    ensures Numbered(BlockOf(pre, e), |LogOf(pre, e.input.sessionId)| + 1, e.input)
  {
    hide Block, LogOf;
    if e.trace.Turn? {
      BlockNumbered(e.input, |LogOf(pre, e.input.sessionId)| + 1, e.trace.steps, e.trace.ending);
    }
  }

  ghost predicate Contiguous(log: seq<Record>, session: string) {
    forall i :: 0 <= i < |log| ==> log[i].sequence == i + 1 && log[i].sessionId == session
  }

  lemma {:induction false} TurnKeepsContiguous(pre: Logs, post: Logs, e: TurnEvent, session: string)
    requires TurnStep(pre, post, e) && Contiguous(LogOf(pre, session), session)
    ensures Contiguous(LogOf(post, session), session)
  {
    hide TurnStep, BlockOf, LogOf;
    TurnAppends(pre, post, e, session);
    BlockOfNumbered(pre, e);
  }

  /** After any run, including turns cut short by provider errors, failed store operations or the iteration
      limit, every session's records carry the sequence numbers 1, 2, 3, ... */
  lemma {:induction false} SequencesAreContiguous(states: seq<Logs>, events: seq<TurnEvent>, session: string)
    requires Run(states, events)
    ensures Contiguous(LogOf(states[|events|], session), session)
    decreases |events|
  {
    hide TurnStep;
    if events != [] {
      RunPrefix(states, events);
      var k := |events| - 1;
      SequencesAreContiguous(states[..|events|], events[..k], session);
      TurnKeepsContiguous(states[k], states[|events|], events[k], session);
    }
  }

  // ----- A turn, record by record -----

  lemma {:induction false} StepRecordsAt(input: TurnInput, n: nat, steps: seq<Step>, i: nat)
    requires i < |steps|
    ensures StepRecords(input, n, steps)[2 * i] ==
            AssistantToolCall(n + 2 * i, input.sessionId, input.agentId,
                              steps[i].call.id, steps[i].call.name, steps[i].call.arguments)
    ensures StepRecords(input, n, steps)[2 * i + 1] ==
            ToolResultRecord(n + 2 * i + 1, input.sessionId, input.agentId, steps[i].result.callId,
                             steps[i].result.toolName, steps[i].result.content, steps[i].result.isError)
    decreases |steps|
  {
    if i < |steps| - 1 {
      StepRecordsAt(input, n, steps[..|steps| - 1], i);
    }
  }

  /** Every record a turn leaves in its session's log, field by field, and what each tool result says: that of a
      registered tool that succeeded is what the tool returned. */
  lemma {:induction false} TurnIsSpelledOut(pre: Logs, post: Logs, e: TurnEvent, i: nat)
    requires TurnStep(pre, post, e) && e.trace.Turn? && i < |e.trace.steps|
    ensures var log, n := LogOf(post, e.input.sessionId), |LogOf(pre, e.input.sessionId)|;
            var session, agent, s := e.input.sessionId, e.input.agentId, e.trace.steps[i];
            && |log| >= n + 1 + 2 * |e.trace.steps|
            && log[n] == UserMessage(n + 1, session, agent, e.input.userMessage)
            && log[n + 1 + 2 * i] ==
               AssistantToolCall(n + 2 + 2 * i, session, agent, s.call.id, s.call.name, s.call.arguments)
            && log[n + 2 + 2 * i] ==
               ToolResultRecord(n + 3 + 2 * i, session, agent,
                                s.result.callId, s.result.toolName, s.result.content, s.result.isError)
            && Resulted(e.config.tools, s.call, s.outcome, s.result)
  {
    hide RequestsGrow, CallsLogged, Conclusion, Answer, StepRecords;
    var n := |LogOf(pre, e.input.sessionId)| + 1;
    StepRecordsAt(e.input, n + 1, e.trace.steps, i);
    var s := e.trace.steps[i];
    assert s.result == ToolResultOf(e.config.tools, s.call, s.outcome);
    var block, middle := Block(e.input, n, e.trace.steps, e.trace.ending), StepRecords(e.input, n + 1, e.trace.steps);
    assert middle[2 * i] == block[1 + 2 * i] && middle[2 * i + 1] == block[2 + 2 * i];
  }

  /** What a turn leaves first and last: its question, and its answer if it gave one. */
  lemma {:induction false} TurnOpensAndCloses(pre: Logs, post: Logs, e: TurnEvent)
    requires TurnStep(pre, post, e) && e.trace.Turn?
    ensures var log, n := LogOf(post, e.input.sessionId), |LogOf(pre, e.input.sessionId)|;
            && |log| > n && log[..n] == LogOf(pre, e.input.sessionId)
            && log[n] == UserMessage(n + 1, e.input.sessionId, e.input.agentId, e.input.userMessage)
            && (e.result.Ok? ==>
                  && log[|log| - 1] ==
                     AssistantMessage(|log|, e.input.sessionId, e.input.agentId, e.result.value.finalText)
                  && e.result.value.sessionId == e.input.sessionId && e.result.value.agentId == e.input.agentId
                  && e.result.value.events ==
                     [OutboundResponse(e.input.sessionId, e.input.agentId, e.result.value.finalText)])
  {
    hide RequestsGrow, CallsLogged, Conclusion, StepRecords, StepsRan;
  }

  /** Every request a turn sends to its provider, field by field. */
  lemma {:induction false} RequestIsSpelledOut(pre: Logs, post: Logs, e: TurnEvent, k: nat)
    requires TurnStep(pre, post, e) && e.trace.Turn? && k < |e.trace.requests|
    ensures var request := e.trace.requests[k];
            && request.sessionId == e.input.sessionId && request.agentId == e.input.agentId
            && request.messages == [ContextMessage("user", e.input.userMessage)]
            && k <= |e.trace.rounds| && |request.toolResults| == |Asked(e.trace.rounds[..k])| <= |e.trace.steps|
            && forall i :: 0 <= i < |request.toolResults| ==> request.toolResults[i] == e.trace.steps[i].result
  {
    hide Block, StepRecords, Holds, CallsLogged, Conclusion, Answer, StepsRan;
    assert RequestAt(e.input, e.trace.requests[k], k, e.trace.rounds, e.trace.steps);
  }

  // ----- Replay -----

  function OutboundOf(): Record -> seq<RuntimeEvent> {
    (r: Record) => if r.AssistantMessage? then [OutboundResponse(r.sessionId, r.agentId, r.content)] else []
  }

  function Outbound(records: seq<Record>): seq<RuntimeEvent> {
    FlatMap(records, OutboundOf())
  }

  datatype RuntimeTrace = RuntimeTrace(
    sessionId: string, agentId: string, records: seq<Record>, outboundEvents: seq<RuntimeEvent>)

  function FromAgent(agent: string): Record -> bool {
    (r: Record) => r.agentId == agent
  }

  function BuildTrace(session: string, agent: string, records: seq<Record>): RuntimeTrace {
    RuntimeTrace(session, agent, records, Outbound(records))
  }

  function ReplaySession(logs: Logs, session: string): RuntimeTrace {
    var records := LogOf(logs, session);
    BuildTrace(session, if records == [] then "" else records[0].agentId, records)
  }

  function ReplayAgentSession(logs: Logs, session: string, agent: string): RuntimeTrace {
    BuildTrace(session, agent, Keep(LogOf(logs, session), FromAgent(agent)))
  }

  /** What the caller of one turn received, if the turn is of this session and agent. */
  function EventsFor(e: TurnEvent, session: string, agent: Option<string>): seq<RuntimeEvent> {
    if e.result.Ok? && e.input.sessionId == session && (agent.None? || agent.value == e.input.agentId)
    then e.result.value.events else []
  }

  /** What the callers of the session's turns received; with an agent named, of that agent's turns. */
  function Returned(events: seq<TurnEvent>, session: string, agent: Option<string>): seq<RuntimeEvent> {
    if events == [] then []
    else Returned(events[..|events| - 1], session, agent) + EventsFor(events[|events| - 1], session, agent)
  }

  /** What a reader that ignores call records extracts from the middle of a block. */
  lemma {:induction false} StepsYield<T>(
      input: TurnInput, n: nat, steps: seq<Step>, f: Record -> seq<T>, g: Step -> seq<T>)
    requires forall k, s: Step :: f(CallRecord(input, k, s.call)) == []
    requires forall k, s: Step :: f(ResultRecord(input, k, s.result)) == g(s)
    ensures FlatMap(StepRecords(input, n, steps), f) == FlatMap(steps, g)
    decreases |steps|
  {
    hide FlatMap, CallRecord, ResultRecord;
    if steps == [] {
      FlatMapNothing([], f);
      FlatMapNothing([], g);
    } else {
      var k, s := |steps| - 1, steps[|steps| - 1];
      var front := StepRecords(input, n, steps[..k]);
      var call, result := CallRecord(input, n + 2 * k, s.call), ResultRecord(input, n + 2 * k + 1, s.result);
      StepsYield(input, n, steps[..k], f, g);
      FlatMapSnoc(front, call, f);
      FlatMapSnoc(front + [call], result, f);
      FlatMapSnoc(steps[..k], s, g);
      assert steps == steps[..k] + [s] && StepRecords(input, n, steps) == front + [call] + [result];
    }
  }

  lemma {:induction false} BlockYields<T>(
      input: TurnInput, n: nat, steps: seq<Step>, ending: Ending, f: Record -> seq<T>, g: Step -> seq<T>)
    requires forall k, s: Step :: f(CallRecord(input, k, s.call)) == []
    requires forall k, s: Step :: f(ResultRecord(input, k, s.result)) == g(s)
    requires f(UserMessage(n, input.sessionId, input.agentId, input.userMessage)) == []
    ensures FlatMap(Block(input, n, steps, ending), f) ==
            FlatMap(steps, g)
            + (if ending.Answered? then f(EndingRecords(input, n + 1 + 2 * |steps|, ending)[0]) else [])
  {
    hide FlatMap, StepRecords;
    var user := UserMessage(n, input.sessionId, input.agentId, input.userMessage);
    var middle, last := StepRecords(input, n + 1, steps), EndingRecords(input, n + 1 + 2 * |steps|, ending);
    StepsYield(input, n + 1, steps, f, g);
    FlatMapSnoc([], user, f);
    FlatMapConcat([user], middle, f);
    FlatMapConcat([user] + middle, last, f);
    FlatMapNothing([], f);
    if !ending.Stopped? {
      FlatMapSnoc([], last[0], f);
      assert last == [last[0]];
      if c: ToolCall :| ending == CutAfterCall(c) {
        var anything: Step := Step(c, Err(Store("")), ToolResult("", "", "", false));
        assert last[0] == CallRecord(input, n + 1 + 2 * |steps|, anything.call);
      }
    }
  }

  function NoEvent(): Step -> seq<RuntimeEvent> {
    (s: Step) => []
  }

  function LoggedResult(): Record -> seq<ToolResult> {
    (r: Record) => if r.ToolResultRecord? then [ToolResult(r.callId, r.toolName, r.content, r.isError)] else []
  }

  function ResultOf(): Step -> seq<ToolResult> {
    (s: Step) => [s.result]
  }

  lemma {:induction false} ResultsAreMapped(steps: seq<Step>)
    ensures FlatMap(steps, ResultOf()) == Results(steps)
  {
    if steps != [] {
      ResultsAreMapped(steps[..|steps| - 1]);
    }
  }

  /** A block announces exactly what its turn returned, and its tool results are those of the output. */
  lemma {:induction false} BlockMatchesOutput(pre: Logs, post: Logs, e: TurnEvent)
    requires TurnStep(pre, post, e)
    ensures Outbound(BlockOf(pre, e)) == if e.result.Ok? then e.result.value.events else []
    ensures e.result.Ok? ==> FlatMap(BlockOf(pre, e), LoggedResult()) == e.result.value.toolResults
  {
    hide FlatMap, RequestsGrow, CallsLogged, Conclusion, StepsRan, Holds, Block, Results;
    FlatMapNothing([], OutboundOf());
    if e.trace.Turn? {
      var n, steps := |LogOf(pre, e.input.sessionId)| + 1, e.trace.steps;
      BlockYields(e.input, n, steps, e.trace.ending, OutboundOf(), NoEvent());
      FlatMapNothing(steps, NoEvent());
      BlockYields(e.input, n, steps, e.trace.ending, LoggedResult(), ResultOf());
      ResultsAreMapped(steps);
    }
  }

  lemma {:induction false} KeepAllOrNone<T>(s: seq<T>, p: T -> bool, b: bool)
    requires forall x :: x in s ==> p(x) == b
    ensures Keep(s, p) == if b then s else []
  {
    if s != [] {
      KeepAllOrNone(s[..|s| - 1], p, b);
    }
  }

  lemma {:induction false} TurnExtendsReplay(pre: Logs, post: Logs, e: TurnEvent, session: string, agent: string)
    requires TurnStep(pre, post, e)
    ensures Outbound(LogOf(post, session)) == Outbound(LogOf(pre, session)) + EventsFor(e, session, None)
    ensures Outbound(Keep(LogOf(post, session), FromAgent(agent))) ==
            Outbound(Keep(LogOf(pre, session), FromAgent(agent))) + EventsFor(e, session, Some(agent))
  {
    hide TurnStep, BlockOf, FlatMap, LogOf, Keep;
    var log, block := LogOf(pre, session), BlockOf(pre, e);
    TurnAppends(pre, post, e, session);
    BlockMatchesOutput(pre, post, e);
    FlatMapNothing([], OutboundOf());
    if session == e.input.sessionId {
      FlatMapConcat(log, block, OutboundOf());
      KeepConcat(log, block, FromAgent(agent));
      BlockOfNumbered(pre, e);
      KeepAllOrNone(block, FromAgent(agent), agent == e.input.agentId);
      FlatMapConcat(Keep(log, FromAgent(agent)), Keep(block, FromAgent(agent)), OutboundOf());
    } else {
      assert log + [] == log;
    }
  }

  lemma NothingSaid()
    ensures Outbound([]) == []
  {
  }

  /** Replaying a session yields exactly the events its successful turns returned, in order; the per-agent
      replay yields those of that agent's turns. */
  lemma {:induction false} ReplayReproducesHistory(
      states: seq<Logs>, events: seq<TurnEvent>, session: string, agent: string)
    requires Run(states, events)
    ensures ReplaySession(states[|events|], session).outboundEvents == Returned(events, session, None)
    ensures ReplaySession(states[|events|], session).sessionId == session
    ensures ReplaySession(states[|events|], session).records == LogOf(states[|events|], session)
    ensures LogOf(states[|events|], session) != [] ==>
              ReplaySession(states[|events|], session).agentId == LogOf(states[|events|], session)[0].agentId
    ensures ReplayAgentSession(states[|events|], session, agent).sessionId == session
    ensures ReplayAgentSession(states[|events|], session, agent).agentId == agent
    ensures ReplayAgentSession(states[|events|], session, agent).outboundEvents ==
            Returned(events, session, Some(agent))
    decreases |events|
  {
    hide TurnStep, Outbound;
    if events == [] {
      NothingSaid();
    } else {
      RunPrefix(states, events);
      var k := |events| - 1;
      ReplayReproducesHistory(states[..|events|], events[..k], session, agent);
      TurnExtendsReplay(states[k], states[|events|], events[k], session, agent);
    }
  }

  // ----- The durable store against the in-memory one -----

  function AppendAll(appends: seq<Record>): Logs {
    if appends == [] then map[] else AppendTo(AppendAll(appends[..|appends| - 1]), appends[|appends| - 1])
  }

  function InSession(session: string): Record -> bool {
    (r: Record) => r.sessionId == session
  }

  function BySequence(): Record -> int {
    (r: Record) => r.sequence
  }

  /** The in-memory vector of a session is the subsequence of its appends. */
  lemma {:induction false} MemoryKeepsOrder(appends: seq<Record>, session: string)
    ensures LogOf(AppendAll(appends), session) == Keep(appends, InSession(session))
  {
    if appends != [] {
      MemoryKeepsOrder(appends[..|appends| - 1], session);
    }
  }

  /** One table for all sessions, keyed by a global counter. */
  class RedbTurnStore {
    const faults: Faults
    var table: map<nat, Record>
    ghost var appends: seq<Record>

    ghost predicate Valid()
      reads this
    {
      && (forall k :: k in table <==> 1 <= k <= |appends|)
      && (forall k :: 1 <= k <= |appends| ==> table[k] == appends[k - 1])
    }

    constructor (faults: Faults)
      ensures Valid() && this.faults == faults && appends == []
    {
      this.faults, table, appends := faults, map[], [];
    }

    method Append(r: Record) returns (failure: Option<RuntimeError>)
      requires Valid()
      modifies this, faults
      ensures Valid()
      ensures faults.count == old(faults.count) + if failure.Some? then 1 else 0
      ensures appends == old(appends) + if failure.None? then [r] else []
      ensures failure.Some? ==> table == old(table) && failure.value.Store?
    {
      var faulty := faults.Strike();
      if faulty {
        return Some(Store("failed to commit record"));
      }
      var last := LastKey();
      table := table[last + 1 := r];
      appends := appends + [r];
      return None;
    }

    method LastKey() returns (last: nat)
      requires Valid()
      ensures last == |appends|
    {
      last := 0;
      var todo := table.Keys;
      while todo != {}
        invariant todo <= table.Keys
        invariant last == 0 || last in table
        invariant forall k :: k in table && k !in todo ==> k <= last
        decreases todo
      {
        var k :| k in todo;
        last := if last < k then k else last;
        todo := todo - {k};
      }
      if |appends| > 0 {
        assert |appends| in table;
      }
    }

    /** Scans the table by increasing key, keeps the session, and sorts by sequence number. */
    method Records(session: string) returns (result: Result<seq<Record>>)
      requires Valid()
      modifies faults
      ensures faults.count == old(faults.count) + if result.Err? then 1 else 0
      ensures result.Ok? ==> result.value == SortByKey(Keep(appends, InSession(session)), BySequence())
      ensures result.Err? ==> result.error.Store?
    {
      var faulty := faults.Strike();
      if faulty {
        return Err(Store("failed to begin redb read"));
      }
      var records: seq<Record> := [];
      var last := LastKey();
      var key := 1;
      while key <= last
        invariant 1 <= key <= last + 1
        invariant records == Keep(appends[..key - 1], InSession(session))
        invariant faults.count == old(faults.count)
      {
        assert appends[..key] == appends[..key - 1] + [appends[key - 1]];
        KeepSnoc(appends[..key - 1], appends[key - 1], InSession(session));
        if key in table && table[key].sessionId == session {
          records := records + [table[key]];
        }
        key := key + 1;
      }
      assert appends[..key - 1] == appends;
      return Ok(SortByKey(records, BySequence()));
    }
  }

  /** After the same appends the durable store returns the in-memory vector exactly when that vector's
      sequence numbers never fall. */
  lemma {:induction false} StoresAgreeIff(appends: seq<Record>, session: string)
    ensures SortByKey(Keep(appends, InSession(session)), BySequence()) == LogOf(AppendAll(appends), session)
            <==> Sorted(LogOf(AppendAll(appends), session), BySequence())
  {
    MemoryKeepsOrder(appends, session);
    SortFixesExactlySorted(Keep(appends, InSession(session)), BySequence());
  }

  /** Turns always meet that condition, in any interleaving of the appends of different sessions. */
  lemma {:induction false} StoresAgreeOnRuns(
      states: seq<Logs>, events: seq<TurnEvent>, appends: seq<Record>, session: string)
    requires Run(states, events)
    requires forall s :: LogOf(AppendAll(appends), s) == LogOf(states[|events|], s)
    ensures SortByKey(Keep(appends, InSession(session)), BySequence()) == LogOf(states[|events|], session)
  {
    SequencesAreContiguous(states, events, session);
    StoresAgreeIff(appends, session);
  }
}
