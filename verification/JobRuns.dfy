/** Force-run jobs: a status machine around one turn, with the sequence interval the turn wrote. */
module JobRuns {
  import opened Sequences
  import opened TurnRuntime
  import opened TurnHistory

  datatype JobStatus = Queued | Running | Succeeded | Failed

  datatype JobDefinition = JobDefinition(
    jobId: string, agentId: string, sessionId: Option<string>, prompt: string, enabled: bool)

  datatype JobRun = JobRun(
    runId: string, jobId: string, sessionId: string, status: JobStatus,
    startedSequence: nat, completedSequence: Option<nat>,
    outputSummary: Option<string>, finalText: Option<string>, error: Option<string>)

  function SessionOf(d: JobDefinition, runId: string): string {
    if d.sessionId.Some? then d.sessionId.value else "job:" + d.jobId + ":run:" + runId
  }

  /** `writes` are the successive records stored for the run; `turn` the turn it ran, if it got that far. */
  datatype JobTrace =
    | Refused
    | Started(definition: JobDefinition, writes: seq<JobRun>, turn: Option<TurnEvent>)

  /** The provider calls of a job are those of its turn. */
  function Asking(t: JobTrace): seq<ProviderRequest> {
    if t.Started? && t.turn.Some? then Requests(t.turn.value.trace) else []
  }

  function Answering(t: JobTrace): seq<Result<ProviderResponse>> {
    if t.Started? && t.turn.Some? then Replies(t.turn.value.trace) else []
  }

  /** What the run record says once the turn is over. */
  ghost predicate Finished(run: JobRun, recordCount: nat, turn: Result<TurnOutput>) {
    && run.completedSequence == Some(recordCount)
    && match turn
       case Ok(output) =>
         run.status == Succeeded && run.finalText == run.outputSummary == Some(output.finalText) && run.error == None
       case Err(e) =>
         run.status == Failed && run.finalText == run.outputSummary == None && run.error == Some(Display(e))
  }

  /** The stored statuses are a prefix of Queued, Running, Succeeded-or-Failed. */
  ghost predicate StatusPath(writes: seq<JobRun>) {
    && |writes| <= 3
    && (|writes| > 0 ==>
          && writes[0].status == Queued && writes[0].completedSequence == None
          && writes[0].finalText == writes[0].outputSummary == writes[0].error == None)
    && (|writes| > 1 ==> writes[1] == writes[0].(status := Running))
    && (|writes| > 2 ==> writes[2].status == Succeeded || writes[2].status == Failed)
  }

  datatype JobEvent = JobEvent(
    jobId: string, runId: string, definitions: map<string, JobDefinition>, config: Config,
    result: Result<JobRun>, trace: JobTrace)

  datatype State = State(logs: Logs, runs: map<string, JobRun>)

  ghost predicate JobStarted(
      pre: State, post: State, runId: string, config: Config, result: Result<JobRun>,
      d: JobDefinition, writes: seq<JobRun>, turn: Option<TurnEvent>)
  {
    var session := SessionOf(d, runId);
    && post.runs == (if writes == [] then pre.runs else pre.runs[runId := writes[|writes| - 1]])
    && StatusPath(writes)
    && (forall i :: 0 <= i < |writes| ==>
          && writes[i].runId == runId && writes[i].jobId == d.jobId && writes[i].sessionId == session
          && writes[i].startedSequence == |LogOf(pre.logs, session)| + 1)
    && (turn.Some? <==> |writes| >= 2)
    && (turn.None? ==> post.logs == pre.logs)
    && (turn.Some? ==>
          && TurnStep(pre.logs, post.logs, turn.value)
          && turn.value.input == TurnInput(session, d.agentId, d.prompt) && turn.value.config == config)
    && (|writes| == 3 ==> Finished(writes[2], |LogOf(post.logs, session)|, turn.value.result))
    && (result.Ok? <==> |writes| == 3) && (result.Ok? ==> result.value == writes[2])
  }

  /** The contract of one force-run: refused without a trace, or started on the enabled definition. */
  ghost predicate JobStep(pre: State, post: State, e: JobEvent) {
    match e.trace
    case Refused => post == pre && e.result.Err?
    case Started(d, writes, turn) =>
      && e.jobId in e.definitions && d == e.definitions[e.jobId] && d.enabled
      && JobStarted(pre, post, e.runId, e.config, e.result, d, writes, turn)
  }

  class ForceRunJobExecutor {
    const runtime: AgentRuntime
    var definitions: map<string, JobDefinition>
    var runs: map<string, JobRun>

    constructor (runtime: AgentRuntime, definitions: map<string, JobDefinition>)
      ensures this.runtime == runtime && this.definitions == definitions && runs == map[]
    {
      this.runtime, this.definitions, runs := runtime, definitions, map[];
    }

    function View(): State
      reads this, runtime.store
    {
      State(runtime.store.recordsBySession, runs)
    }

    /** The storage faults so far; runs and records share one store. */
    ghost function Count(): nat
      reads runtime.store.faults
    {
      runtime.store.faults.count
    }

    /** Atomic, but fails when a fault strikes. */
    method PutJobRun(run: JobRun) returns (failure: Option<RuntimeError>)
      modifies this`runs, runtime.store.faults
      ensures Count() == old(Count()) + if failure.Some? then 1 else 0
      ensures runs == if failure.None? then old(runs)[run.runId := run] else old(runs)
    {
      var faulty := runtime.store.faults.Strike();
      if faulty {
        return Some(Store("failed to commit job run"));
      }
      runs := runs[run.runId := run];
      return None;
    }

    method FindDefinition(jobId: string) returns (d: Result<JobDefinition>)
      modifies runtime.store.faults
      ensures d.Ok? <==> jobId in definitions && Count() == old(Count())
      ensures d.Ok? ==> d.value == definitions[jobId]
      ensures d.Err? && Count() == old(Count()) ==> d.error == Store("job `" + jobId + "` is not defined")
    {
      var faulty := runtime.store.faults.Strike();
      if faulty {
        return Err(Store("failed to read job definition"));
      }
      if jobId !in definitions {
        return Err(Store("job `" + jobId + "` is not defined"));
      }
      return Ok(definitions[jobId]);
    }

    /** `runId` is the freshly generated id of the run. */
    method ForceRunJob(jobId: string, runId: string) returns (result: Result<JobRun>, ghost trace: JobTrace)
      requires runId !in runs
      modifies this`runs, runtime.store, runtime.store.faults, runtime.provider, runtime.toolbox
      ensures Count() == old(Count()) ==>
                (result.Ok? <==> jobId in definitions && definitions[jobId].enabled)
      ensures Count() == old(Count()) && result.Err? ==>
                result.error ==
                Store("job `" + jobId + "` is " + if jobId in definitions then "disabled" else "not defined")
      ensures runtime.provider.requests == old(runtime.provider.requests) + Asking(trace)
      ensures runtime.provider.replies == old(runtime.provider.replies) + Answering(trace)
      ensures JobStep(old(View()), View(), JobEvent(jobId, runId, definitions, runtime.config, result, trace))
    {
      hide JobStarted;
      assert "job `" + jobId + "` is " + "disabled" == "job `" + jobId + "` is disabled";
      assert "job `" + jobId + "` is " + "not defined" == "job `" + jobId + "` is not defined";
      var found := FindDefinition(jobId);
      if found.Err? {
        return Err(found.error), Refused;
      }
      var d := found.value;
      if !d.enabled {
        return Err(Store("job `" + jobId + "` is disabled")), Refused;
      }
      result, trace := RunDefined(d, runId);
    }

    /** The part of a force-run that follows a successful look-up. */
    method RunDefined(d: JobDefinition, runId: string) returns (result: Result<JobRun>, ghost trace: JobTrace)
      requires runId !in runs
      modifies this`runs, runtime.store, runtime.store.faults, runtime.provider, runtime.toolbox
      ensures result.Err? ==> Count() > old(Count())
      ensures runtime.provider.requests == old(runtime.provider.requests) + Asking(trace)
      ensures runtime.provider.replies == old(runtime.provider.replies) + Answering(trace)
      ensures trace.Refused? ==> result.Err? && View() == old(View())
      ensures trace.Started? ==>
                && trace.definition == d
                && JobStarted(old(View()), View(), runId, runtime.config, result, d, trace.writes, trace.turn)
    {
      hide TurnContract, SessionOf, LogOf, Display, Finished, Replies, Requests, Faulted;
      var session := SessionOf(d, runId);
      var before := runtime.store.Records(session);
      if before.Err? {
        return Err(before.error), Refused;
      }
      var run := JobRun(runId, d.jobId, session, Queued, |before.value| + 1, None, None, None, None);
      var failure;
      ghost var writes;
      failure, run, writes := Announce(run);
      if failure.Some? {
        return Err(failure.value), Started(d, writes, None);
      }
      var input := TurnInput(session, d.agentId, d.prompt);
      var output, turn := runtime.RunTurn(input);
      ghost var event := TurnEvent(input, runtime.config, output, turn);
      assert TurnStep(old(runtime.store.recordsBySession), runtime.store.recordsBySession, event);
      result := Conclude(run, output);
      trace := Started(d, if result.Ok? then writes + [result.value] else writes, Some(event));
    }

    /** Stores a new run as Queued and then as Running. */
    method Announce(queued: JobRun)
      returns (failure: Option<RuntimeError>, running: JobRun, ghost writes: seq<JobRun>)
      modifies this`runs, runtime.store.faults
      ensures Count() == old(Count()) + if failure.Some? then 1 else 0
      ensures running == queued.(status := Running)
      ensures writes <= [queued, running] && (failure.None? <==> |writes| == 2)
      ensures runs == if writes == [] then old(runs) else old(runs)[queued.runId := writes[|writes| - 1]]
    {
      writes, running := [], queued.(status := Running);
      failure := PutJobRun(queued);
      if failure.Some? {
        return;
      }
      writes := [queued];
      failure := PutJobRun(running);
      if failure.Some? {
        return;
      }
      writes := [queued, running];
    }

    /** Stores the outcome of the turn; on a store fault the run stays as it was. */
    method Conclude(run: JobRun, output: Result<TurnOutput>) returns (result: Result<JobRun>)
      modifies this`runs, runtime.store.faults
      ensures Count() == old(Count()) + if result.Err? then 1 else 0
      ensures result.Err? ==> runs == old(runs)
      ensures result.Ok? ==>
                && runs == old(runs)[run.runId := result.value]
                && (result.value.status == Succeeded || result.value.status == Failed)
                && Finished(result.value, |LogOf(runtime.store.recordsBySession, run.sessionId)|, output)
                && result.value.runId == run.runId && result.value.jobId == run.jobId
                && result.value.sessionId == run.sessionId && result.value.startedSequence == run.startedSequence
    {
      var after := runtime.store.Records(run.sessionId);
      if after.Err? {
        return Err(after.error);
      }
      var done := run.(completedSequence := Some(|after.value|));
      match output {
        case Ok(o) =>
          done := done.(
            status := Succeeded, outputSummary := Some(o.finalText), finalText := Some(o.finalText), error := None);
        case Err(e) =>
          done := done.(status := Failed, outputSummary := None, finalText := None, error := Some(Display(e)));
      }
      var failure := PutJobRun(done);
      if failure.Some? {
        return Err(failure.value);
      }
      return Ok(done);
    }
  }

  /** What a started run stores and runs, on the definition's own fields: a configured session is used as it is,
      and otherwise the run gets one of its own. */
  lemma {:induction false} RunIsSpelledOut(pre: State, post: State, e: JobEvent)
    requires JobStep(pre, post, e) && e.trace.Started?
    ensures e.jobId in e.definitions
    ensures var d := e.definitions[e.jobId];
            var session := if d.sessionId.Some? then d.sessionId.value else "job:" + d.jobId + ":run:" + e.runId;
            && (forall i :: 0 <= i < |e.trace.writes| ==>
                  && e.trace.writes[i].sessionId == session
                  && e.trace.writes[i].runId == e.runId && e.trace.writes[i].jobId == d.jobId
                  && e.trace.writes[i].startedSequence == |LogOf(pre.logs, session)| + 1)
            && (e.trace.turn.Some? ==> e.trace.turn.value.input == TurnInput(session, d.agentId, d.prompt))
            && (e.result.Ok? ==>
                  && e.trace.turn.Some? && e.result.value.completedSequence == Some(|LogOf(post.logs, session)|)
                  && match e.trace.turn.value.result
                     case Ok(output) =>
                       && e.result.value.status == Succeeded && e.result.value.error == None
                       && e.result.value.finalText == Some(output.finalText)
                       && e.result.value.outputSummary == Some(output.finalText)
                     case Err(error) =>
                       && e.result.value.status == Failed && e.result.value.error == Some(Display(error))
                       && e.result.value.finalText == None && e.result.value.outputSummary == None)
  {
    hide TurnStep, LogOf, Display;
  }

  // ----- Histories of turns and jobs on shared sessions -----

  datatype Event = Chat(turn: TurnEvent) | Job(job: JobEvent)

  ghost predicate Step(pre: State, post: State, e: Event) {
    match e
    case Chat(t) => TurnStep(pre.logs, post.logs, t) && post.runs == pre.runs
    case Job(j) => j.runId !in pre.runs && JobStep(pre, post, j)
  }

  ghost predicate History(states: seq<State>, events: seq<Event>) {
    && |states| == |events| + 1
    && states[0] == State(map[], map[])
    && forall i :: 0 <= i < |events| ==> Step(states[i], states[i + 1], events[i])
  }

  ghost predicate Completed(e: Event) {
    e.Job? && e.job.result.Ok?
  }

  /** The turn a step performs, if any, is the only change to the logs. */
  ghost function TurnIn(e: Event): Option<TurnEvent> {
    match e
    case Chat(t) => Some(t)
    case Job(j) => if j.trace.Started? then j.trace.turn else None
  }

  lemma {:induction false} StepAppends(pre: State, post: State, e: Event, session: string)
    requires Step(pre, post, e)
    ensures TurnIn(e).None? ==> post.logs == pre.logs
    ensures TurnIn(e).Some? ==> TurnStep(pre.logs, post.logs, TurnIn(e).value)
    ensures LogOf(pre.logs, session) <= LogOf(post.logs, session)
  {
    hide TurnStep, LogOf;
    if TurnIn(e).Some? {
      TurnAppends(pre.logs, post.logs, TurnIn(e).value, session);
    }
  }

  lemma {:induction false} LogsGrow(states: seq<State>, events: seq<Event>, i: nat, j: nat, session: string)
    requires History(states, events) && i <= j <= |events|
    ensures LogOf(states[i].logs, session) <= LogOf(states[j].logs, session)
    decreases j - i
  {
    hide Step, LogOf;
    if i < j {
      LogsGrow(states, events, i, j - 1, session);
      assert Step(states[j - 1], states[j], events[j - 1]);
      StepAppends(states[j - 1], states[j], events[j - 1], session);
    }
  }

  /** Jobs keep the numbering too: at every point of a history each session is numbered 1, 2, 3, ... */
  lemma {:induction false} HistoryIsContiguous(states: seq<State>, events: seq<Event>, i: nat, session: string)
    requires History(states, events) && i <= |events|
    ensures Contiguous(LogOf(states[i].logs, session), session)
    decreases i
  {
    hide Step, LogOf, TurnStep;
    if i == 0 {
      assert LogOf(map[], session) == [] by { NoLog(session); }
    } else {
      HistoryIsContiguous(states, events, i - 1, session);
      assert Step(states[i - 1], states[i], events[i - 1]);
      StepAppends(states[i - 1], states[i], events[i - 1], session);
      if TurnIn(events[i - 1]).Some? {
        TurnKeepsContiguous(states[i - 1].logs, states[i].logs, TurnIn(events[i - 1]).value, session);
      }
    }
  }

  lemma NoLog(session: string)
    ensures LogOf(map[], session) == []
  {
  }

  /** The last record of an answered turn. */
  lemma {:induction false} AnswerIsLast(pre: Logs, post: Logs, e: TurnEvent)
    requires TurnStep(pre, post, e) && e.result.Ok?
    ensures var block := BlockOf(pre, e);
            && block != []
            && block[|block| - 1] ==
               AssistantMessage(
                 |LogOf(post, e.input.sessionId)|, e.input.sessionId, e.input.agentId, e.result.value.finalText)
  {
    hide RequestsGrow, CallsLogged, Conclusion, StepsRan, StepRecords;
    TurnAppends(pre, post, e, e.input.sessionId);
  }

  /** The run's interval [started, completed] of `log` is `block`, and ends in the reported answer if the run
      succeeded. A turn that could not even store its user message owns the empty interval. */
  ghost predicate OwnsInterval(run: JobRun, log: seq<Record>, block: seq<Record>, agent: string) {
    && run.completedSequence.Some?
    && 1 <= run.startedSequence <= run.completedSequence.value + 1 <= |log| + 1
    && log[run.startedSequence - 1..run.completedSequence.value] == block
    && (run.status == Succeeded ==>
          && block != [] && run.finalText.Some?
          && block[|block| - 1] ==
             AssistantMessage(run.completedSequence.value, run.sessionId, agent, run.finalText.value))
  }

  /** The interval of a completed run, read from any later state, holds exactly the records of its own turn. */
  lemma {:induction false} IntervalHoldsOwnTurn(states: seq<State>, events: seq<Event>, i: nat, later: nat)
    requires History(states, events) && i < later <= |events| && Completed(events[i])
    ensures TurnIn(events[i]).Some?
    ensures var run, turn := events[i].job.result.value, TurnIn(events[i]).value;
            OwnsInterval(
              run, LogOf(states[later].logs, run.sessionId), BlockOf(states[i].logs, turn), turn.input.agentId)
  {
    hide TurnStep, LogOf, BlockOf;
    assert Step(states[i], states[i + 1], events[i]);
    var pre, post, turn := states[i].logs, states[i + 1].logs, TurnIn(events[i]).value;
    var session := turn.input.sessionId;
    TurnAppends(pre, post, turn, session);
    LogsGrow(states, events, i + 1, later, session);
    if turn.result.Ok? {
      AnswerIsLast(pre, post, turn);
    }
  }

  /** Completed runs that share a session own disjoint intervals, in the order they ran. */
  lemma {:induction false} IntervalsAreOrdered(states: seq<State>, events: seq<Event>, i: nat, j: nat)
    requires History(states, events) && i < j < |events| && Completed(events[i]) && Completed(events[j])
    requires events[i].job.result.value.sessionId == events[j].job.result.value.sessionId
    ensures var a, b := events[i].job.result.value, events[j].job.result.value;
            a.completedSequence.Some? && a.completedSequence.value < b.startedSequence
  {
    hide TurnStep, LogOf;
    assert Step(states[i], states[i + 1], events[i]);
    assert Step(states[j], states[j + 1], events[j]);
    LogsGrow(states, events, i + 1, j, events[i].job.result.value.sessionId);
  }

  /** No later step touches the record of an earlier run: the store keeps the last status it was given. */
  lemma {:induction false} RunRecordsAreKept(states: seq<State>, events: seq<Event>, i: nat, later: nat)
    requires History(states, events) && i < later <= |events| && events[i].Job?
    requires events[i].job.trace.Started? && events[i].job.trace.writes != []
    ensures var j := events[i].job;
            j.runId in states[later].runs && states[later].runs[j.runId] == j.trace.writes[|j.trace.writes| - 1]
    decreases later
  {
    hide TurnStep, LogOf, Finished;
    assert Step(states[later - 1], states[later], events[later - 1]);
    if i + 1 < later {
      RunRecordsAreKept(states, events, i, later - 1);
    }
  }
}
