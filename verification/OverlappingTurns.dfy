/** Turns in flight at the same time, on any sessions, at the grain of one store operation. */
module OverlappingTurns {
  import opened Sequences
  import opened TurnRuntime
  import opened TurnHistory

  /** A turn reads the length of its session's log once, and numbers all its records from there. `todo` are the
      records it has still to write; a turn that fails or stops early never writes them all. */
  datatype Flight = Flight(
    session: string, agent: string, ending: Ending, began: nat, written: nat, todo: seq<Record>)

  /** The appends of all sessions in the order the store received them, and the turns that have begun. */
  datatype State = State(appends: seq<Record>, flights: map<nat, Flight>)

  const START := State([], map[])

  /** What the turn goes on to write is whatever its provider and its tools will make of it. */
  datatype Label =
    | Begin(id: nat, input: TurnInput, steps: seq<Step>, ending: Ending)
    | Write(id: nat, session: string)

  /** A session's log, as the in-memory store holds it. */
  function LogIn(s: State, session: string): seq<Record> {
    Keep(s.appends, InSession(session))
  }

  function Opened(input: TurnInput, steps: seq<Step>, ending: Ending, n: nat): Flight {
    Flight(input.sessionId, input.agentId, ending, n, 0, Block(input, n + 1, steps, ending))
  }

  predicate Enabled(s: State, l: Label) {
    match l
    case Begin(id, _, _, _) => id !in s.flights
    case Write(id, session) => id in s.flights && s.flights[id].session == session && s.flights[id].todo != []
  }

  function Next(s: State, l: Label): State
    requires Enabled(s, l)
  {
    match l
    case Begin(id, input, steps, ending) =>
      var n := |LogIn(s, input.sessionId)|;
      s.(flights := s.flights[id := Opened(input, steps, ending, n)])
    case Write(id, _) =>
      var f := s.flights[id];
      State(s.appends + [f.todo[0]], s.flights[id := f.(written := f.written + 1, todo := f.todo[1..])])
  }

  ghost predicate Run(states: seq<State>, labels: seq<Label>) {
    Path(states, labels) && states[0] == START
  }

  ghost predicate Path(states: seq<State>, labels: seq<Label>) {
    && |states| == |labels| + 1
    && forall i :: 0 <= i < |labels| ==> Enabled(states[i], labels[i]) && states[i + 1] == Next(states[i], labels[i])
  }

  /** The records to come carry the numbers that follow those the turn has used. */
  ghost predicate Counting(f: Flight) {
    forall i :: 0 <= i < |f.todo| ==>
      f.todo[i].sequence == f.began + f.written + i + 1 && f.todo[i].sessionId == f.session
  }

  ghost predicate AllCounting(s: State) {
    forall id :: id in s.flights ==> Counting(s.flights[id])
  }

  lemma {:induction false} StepCounts(s: State, l: Label)
    requires Enabled(s, l) && AllCounting(s)
    ensures AllCounting(Next(s, l))
  {
    hide Block, Keep;
    match l
    case Begin(id, input, steps, ending) => BlockNumbered(input, |LogIn(s, input.sessionId)| + 1, steps, ending);
    case Write(id, _) =>
  }

  lemma {:induction false} CountingHolds(states: seq<State>, labels: seq<Label>, j: nat)
    requires Run(states, labels) && j <= |labels|
    ensures AllCounting(states[j])
  {
    hide AllCounting, Next;
    if j == 0 {
      assert AllCounting(START) by { NobodyCounts(); }
    } else {
      CountingHolds(states, labels, j - 1);
      assert Enabled(states[j - 1], labels[j - 1]) && states[j] == Next(states[j - 1], labels[j - 1]);
      StepCounts(states[j - 1], labels[j - 1]);
    }
  }

  lemma NobodyCounts()
    ensures AllCounting(START)
  {
  }

  /** What one step does to the log of a session. */
  lemma {:induction false} LogStep(s: State, l: Label, session: string)
    requires Enabled(s, l) && AllCounting(s)
    ensures LogIn(Next(s, l), session) ==
            LogIn(s, session) + if l.Write? && l.session == session then [s.flights[l.id].todo[0]] else []
  {
    hide Block, Keep;
    if l.Write? {
      assert Counting(s.flights[l.id]);
      KeepSnoc(s.appends, s.flights[l.id].todo[0], InSession(session));
    }
  }

  // ----- When the numbering holds -----

  function IsBegin(id: nat): Label -> bool {
    (l: Label) => l.Begin? && l.id == id
  }

  /** Another turn than `id` writes to the session. */
  function IsForeign(id: nat, session: string): Label -> bool {
    (l: Label) => l.Write? && l.id != id && l.session == session
  }

  /** Since the turn `id` began, another turn has written to the session. */
  ghost predicate Disturbed(labels: seq<Label>, j: nat, id: nat, session: string) {
    Since(labels, j, IsForeign(id, session), IsBegin(id))
  }

  /** A turn's own count falls behind the log exactly when it has been disturbed. */
  lemma {:induction false} LagIff(states: seq<State>, labels: seq<Label>, j: nat, id: nat)
    requires Run(states, labels) && j <= |labels| && id in states[j].flights
    ensures var f := states[j].flights[id];
            && f.began + f.written <= |LogIn(states[j], f.session)|
            && (f.began + f.written < |LogIn(states[j], f.session)| <==> Disturbed(labels, j, id, f.session))
  {
    hide Since, Keep, Block, AllCounting;
    var s, l := states[j - 1], labels[j - 1];
    assert Enabled(s, l) && states[j] == Next(s, l);
    var f := states[j].flights[id];
    CountingHolds(states, labels, j - 1);
    LogStep(s, l, f.session);
    SinceStep(labels, j - 1, IsForeign(id, f.session), IsBegin(id));
    if !(l.Begin? && l.id == id) {
      LagIff(states, labels, j - 1, id);
    }
  }

  ghost predicate Orderly(labels: seq<Label>, session: string, n: nat)
    requires n <= |labels|
  {
    forall j :: 0 <= j < n && labels[j].Write? && labels[j].session == session ==>
      !Disturbed(labels, j, labels[j].id, session)
  }

  lemma {:induction false} NumberedUpTo(states: seq<State>, labels: seq<Label>, session: string, n: nat)
    requires Run(states, labels) && n <= |labels|
    ensures Contiguous(LogIn(states[n], session), session) <==> Orderly(labels, session, n)
  {
    hide Disturbed, Keep, Block, Next;
    if n > 0 {
      var s, l := states[n - 1], labels[n - 1];
      assert Enabled(s, l) && states[n] == Next(s, l);
      NumberedUpTo(states, labels, session, n - 1);
      CountingHolds(states, labels, n - 1);
      LogStep(s, l, session);
      var log, log' := LogIn(s, session), LogIn(states[n], session);
      if l.Write? && l.session == session {
        LagIff(states, labels, n - 1, l.id);
        assert Counting(s.flights[l.id]);
        assert log'[..|log|] == log;
        assert Contiguous(log', session) <==> Contiguous(log, session) && log'[|log|].sequence == |log| + 1;
      } else {
        assert log' == log;
      }
    } else {
      EmptyLog(session);
    }
  }

  lemma EmptyLog(session: string)
    ensures LogIn(START, session) == []
  {
  }

  /** However turns overlap, a session's records are numbered 1, 2, 3, ... if and only if no turn writes to it
      after another turn has written to it since the first began. Turns of different sessions never interfere. */
  lemma {:induction false} NumberedIffOrderly(states: seq<State>, labels: seq<Label>, session: string)
    requires Run(states, labels)
    ensures Contiguous(LogIn(states[|labels|], session), session) <==> Orderly(labels, session, |labels|)
  {
    NumberedUpTo(states, labels, session, |labels|);
  }

  /** In an orderly run both stores return the same records, although turns of other sessions overlap. */
  lemma {:induction false} StoresAgreeWhenOrderly(states: seq<State>, labels: seq<Label>, session: string)
    requires Run(states, labels) && Orderly(labels, session, |labels|)
    ensures var s := states[|labels|];
            && LogOf(AppendAll(s.appends), session) == LogIn(s, session)
            && SortByKey(LogIn(s, session), BySequence()) == LogIn(s, session)
  {
    NumberedIffOrderly(states, labels, session);
    MemoryKeepsOrder(states[|labels|].appends, session);
    SortFixesExactlySorted(LogIn(states[|labels|], session), BySequence());
  }

  // ----- What a job sees between its two counts -----

  /** The records the turns chosen by `who` wrote between two points of a run. */
  ghost function WrittenBy(states: seq<State>, labels: seq<Label>, a: nat, z: nat, who: Label -> bool): seq<Record>
    requires Run(states, labels) && a <= z <= |labels|
    decreases z - a
  {
    if a == z then []
    else
      var l := labels[z - 1];
      assert Enabled(states[z - 1], l);
      WrittenBy(states, labels, a, z - 1, who)
      + if l.Write? && who(l) then [states[z - 1].flights[l.id].todo[0]] else []
  }

  function To(session: string): Label -> bool {
    (l: Label) => l.Write? && l.session == session
  }

  function ByTurn(id: nat): Label -> bool {
    (l: Label) => l.Write? && l.id == id
  }

  /** A log grows by exactly what is written to it. */
  lemma {:induction false} LogGrows(states: seq<State>, labels: seq<Label>, a: nat, z: nat, session: string)
    requires Run(states, labels) && a <= z <= |labels|
    ensures LogIn(states[z], session) == LogIn(states[a], session) + WrittenBy(states, labels, a, z, To(session))
    decreases z - a
  {
    hide Keep, Next, AllCounting;
    if a < z {
      assert Enabled(states[z - 1], labels[z - 1]) && states[z] == Next(states[z - 1], labels[z - 1]);
      LogGrows(states, labels, a, z - 1, session);
      CountingHolds(states, labels, z - 1);
      LogStep(states[z - 1], labels[z - 1], session);
    }
  }

  lemma {:induction false} SessionStays(states: seq<State>, labels: seq<Label>, a: nat, z: nat, id: nat)
    requires Run(states, labels) && a <= z <= |labels| && id in states[a].flights
    ensures id in states[z].flights && states[z].flights[id].session == states[a].flights[id].session
    decreases z - a
  {
    hide Block, Keep;
    if a < z {
      SessionStays(states, labels, a, z - 1, id);
      assert Enabled(states[z - 1], labels[z - 1]) && states[z] == Next(states[z - 1], labels[z - 1]);
    }
  }

  /** What a turn has written and what it has still to write are together its block. */
  lemma {:induction false} OwnIsBlock(states: seq<State>, labels: seq<Label>, b: nat, z: nat)
    requires Run(states, labels) && b < z <= |labels| && labels[b].Begin?
    ensures var l, n := labels[b], |LogIn(states[b], labels[b].input.sessionId)|;
            && l.id in states[z].flights
            && WrittenBy(states, labels, b, z, ByTurn(l.id)) + states[z].flights[l.id].todo ==
               Block(l.input, n + 1, l.steps, l.ending)
    decreases z
  {
    hide Block, Keep;
    var l := labels[b];
    assert Enabled(states[b], l) && states[b + 1] == Next(states[b], l);
    if b + 1 < z {
      OwnIsBlock(states, labels, b, z - 1);
      assert Enabled(states[z - 1], labels[z - 1]) && states[z] == Next(states[z - 1], labels[z - 1]);
    }
  }

  /** Before it begins a turn writes nothing. */
  lemma {:induction false} NothingBefore(states: seq<State>, labels: seq<Label>, a: nat, b: nat, z: nat, id: nat)
    requires Run(states, labels) && a <= b <= z <= |labels| && id !in states[b].flights
    ensures WrittenBy(states, labels, a, z, ByTurn(id)) == WrittenBy(states, labels, b, z, ByTurn(id))
    decreases z - a
  {
    hide Next;
    if b < z {
      NothingBefore(states, labels, a, b, z - 1, id);
    } else if a < z {
      assert Enabled(states[z - 1], labels[z - 1]) && states[z] == Next(states[z - 1], labels[z - 1]);
      if id in states[z - 1].flights {
        SessionStays(states, labels, z - 1, z, id);
      }
      NothingBefore(states, labels, a, z - 1, z - 1, id);
    }
  }

  /** Everything written to the session was written by the turn exactly when nobody else wrote to it. */
  lemma {:induction false} OnlyOwnIff(states: seq<State>, labels: seq<Label>, a: nat, z: nat, id: nat, session: string)
    requires Run(states, labels) && a <= z <= |labels|
    requires id in states[z].flights && states[z].flights[id].session == session
    ensures |WrittenBy(states, labels, a, z, ByTurn(id))| <= |WrittenBy(states, labels, a, z, To(session))|
    ensures WrittenBy(states, labels, a, z, To(session)) == WrittenBy(states, labels, a, z, ByTurn(id)) <==>
            forall i :: a <= i < z ==> !IsForeign(id, session)(labels[i])
    decreases z - a
  {
    hide Next;
    if a < z {
      var l := labels[z - 1];
      assert Enabled(states[z - 1], l) && states[z] == Next(states[z - 1], l);
      var all, own := WrittenBy(states, labels, a, z - 1, To(session)), WrittenBy(states, labels, a, z - 1, ByTurn(id));
      if id in states[z - 1].flights {
        SessionStays(states, labels, z - 1, z, id);
        OnlyOwnIff(states, labels, a, z - 1, id, session);
      } else {
        NothingBefore(states, labels, a, z - 1, z - 1, id);
        assert own == [];
        NotYetForeign(states, labels, a, z - 1, session);
        forall i | a <= i < z - 1 ensures To(session)(labels[i]) ==> IsForeign(id, session)(labels[i]) {
          assert Enabled(states[i], labels[i]);
          if labels[i].Write? && labels[i].id == id {
            SessionStays(states, labels, i, z - 1, id);
          }
        }
      }
      var all', own' := WrittenBy(states, labels, a, z, To(session)), WrittenBy(states, labels, a, z, ByTurn(id));
      assert all'[..|all|] == all && own'[..|own|] == own;
      if IsForeign(id, session)(l) {
        assert |all'| > |own'|;
      } else {
        assert |all'| - |all| == |own'| - |own|;
      }
    }
  }

  lemma {:induction false} NotYetForeign(states: seq<State>, labels: seq<Label>, a: nat, z: nat, session: string)
    requires Run(states, labels) && a <= z <= |labels|
    ensures WrittenBy(states, labels, a, z, To(session)) == [] <==>
            forall i :: a <= i < z ==> !To(session)(labels[i])
    decreases z - a
  {
    hide Next;
    if a < z {
      NotYetForeign(states, labels, a, z - 1, session);
    }
  }

  /** A job counts its session's records at `a`, runs the turn that begins at `b`, and counts again at `z`. The
      records between the two counts are the block its turn has written, if and only if no other turn wrote to the
      session between them. */
  lemma {:induction false} IntervalIff(states: seq<State>, labels: seq<Label>, a: nat, b: nat, z: nat)
    requires Run(states, labels) && a <= b < z <= |labels| && labels[b].Begin?
    ensures var l, s := labels[b], labels[b].input.sessionId;
            && |LogIn(states[a], s)| <= |LogIn(states[z], s)| && l.id in states[z].flights
            && var interval := LogIn(states[z], s)[|LogIn(states[a], s)|..];
               var block := Block(l.input, |LogIn(states[b], s)| + 1, l.steps, l.ending);
               interval + states[z].flights[l.id].todo == block <==>
               forall i :: a <= i < z ==> !IsForeign(l.id, s)(labels[i])
  {
    hide Block, Keep, WrittenBy;
    var l, s := labels[b], labels[b].input.sessionId;
    assert Enabled(states[b], l) && states[b + 1] == Next(states[b], l);
    SessionStays(states, labels, b + 1, z, l.id);
    LogGrows(states, labels, a, z, s);
    OwnIsBlock(states, labels, b, z);
    NothingBefore(states, labels, a, b, z, l.id);
    OnlyOwnIff(states, labels, a, z, l.id, s);
    var all, own := WrittenBy(states, labels, a, z, To(s)), WrittenBy(states, labels, a, z, ByTurn(l.id));
    var todo := states[z].flights[l.id].todo;
    assert LogIn(states[z], s)[|LogIn(states[a], s)|..] == all;
    assert (own + todo)[..|own|] == own;
    if all + todo == own + todo {
      assert |all| == |own| && (all + todo)[..|all|] == all;
    }
  }

  // ----- Replay -----

  /** A turn announces its answer with its last record, and with no other. */
  ghost predicate Announcing(f: Flight) {
    && (forall i :: 0 <= i < |f.todo| && f.todo[i].AssistantMessage? ==> i == |f.todo| - 1 && f.ending.Answered?)
    && (f.todo != [] && f.ending.Answered? ==>
          f.todo[|f.todo| - 1] ==
          AssistantMessage(f.todo[|f.todo| - 1].sequence, f.session, f.agent, f.ending.text))
  }

  lemma {:induction false} OpenedAnnounces(input: TurnInput, steps: seq<Step>, ending: Ending, n: nat)
    ensures Announcing(Opened(input, steps, ending, n))
  {
    hide StepRecords;
    StepsAreNoAnswers(input, n + 2, steps);
  }

  lemma {:induction false} StepsAreNoAnswers(input: TurnInput, n: nat, steps: seq<Step>)
    ensures forall i :: 0 <= i < |StepRecords(input, n, steps)| ==> !StepRecords(input, n, steps)[i].AssistantMessage?
  {
    if steps != [] {
      StepsAreNoAnswers(input, n, steps[..|steps| - 1]);
    }
  }

  lemma {:induction false} AllAnnounce(states: seq<State>, labels: seq<Label>, j: nat)
    requires Run(states, labels) && j <= |labels|
    ensures forall id :: id in states[j].flights ==> Announcing(states[j].flights[id])
  {
    hide Opened, Keep;
    if j > 0 {
      var s, l := states[j - 1], labels[j - 1];
      assert Enabled(s, l) && states[j] == Next(s, l);
      AllAnnounce(states, labels, j - 1);
      if l.Begin? {
        OpenedAnnounces(l.input, l.steps, l.ending, |LogIn(s, l.input.sessionId)|);
      }
    }
  }

  /** The answers of the session's turns, in the order in which they were completed. */
  ghost function Completed(states: seq<State>, labels: seq<Label>, session: string, n: nat): seq<RuntimeEvent>
    requires Run(states, labels) && n <= |labels|
  {
    if n == 0 then []
    else
      var s, l := states[n - 1], labels[n - 1];
      assert Enabled(s, l);
      Completed(states, labels, session, n - 1)
      + if l.Write? && l.session == session && s.flights[l.id].ending.Answered? && |s.flights[l.id].todo| == 1
        then [OutboundResponse(session, s.flights[l.id].agent, s.flights[l.id].ending.text)] else []
  }

  lemma CountsAt(s: State, id: nat)
    requires AllCounting(s) && id in s.flights
    ensures Counting(s.flights[id])
  {
  }

  /** However turns overlap, and whatever that does to the numbers, replaying a session from the in-memory store
      yields the answers of its turns in the order in which they were completed, each once. */
  lemma {:induction false} ReplayKeepsOrder(states: seq<State>, labels: seq<Label>, session: string, n: nat)
    requires Run(states, labels) && n <= |labels|
    ensures Outbound(LogIn(states[n], session)) == Completed(states, labels, session, n)
  {
    hide Keep, Next, FlatMap, AllCounting;
    if n == 0 {
      EmptyLog(session);
      NothingSaid();
    } else {
      var s, l := states[n - 1], labels[n - 1];
      assert Enabled(s, l) && states[n] == Next(s, l);
      ReplayKeepsOrder(states, labels, session, n - 1);
      CountingHolds(states, labels, n - 1);
      AllAnnounce(states, labels, n - 1);
      LogStep(s, l, session);
      if l.Write? && l.session == session {
        var f := s.flights[l.id];
        assert Announcing(f);
        FlatMapSnoc(LogIn(s, session), f.todo[0], OutboundOf());
        assert Counting(f) by { CountsAt(s, l.id); }
      } else {
        assert LogIn(s, session) + [] == LogIn(s, session);
      }
    }
  }

  // ----- A turn that is alone, and two that are not -----

  /** A turn that nothing interrupts writes its whole block: the log grows as the contract of a turn says. */
  lemma {:induction false} AloneWritesBlock(s: State, id: nat) returns (states: seq<State>, labels: seq<Label>)
    requires AllCounting(s) && id in s.flights
    ensures Path(states, labels) && states[0] == s
    ensures forall i :: 0 <= i < |labels| ==> labels[i] == Write(id, s.flights[id].session)
    ensures LogIn(states[|labels|], s.flights[id].session) == LogIn(s, s.flights[id].session) + s.flights[id].todo
    decreases |s.flights[id].todo|
  {
    hide Keep;
    var f := s.flights[id];
    if f.todo == [] {
      states, labels := [s], [];
    } else {
      var l := Write(id, f.session);
      StepCounts(s, l);
      LogStep(s, l, f.session);
      var later, rest := AloneWritesBlock(Next(s, l), id);
      states, labels := [s] + later, [l] + rest;
    }
  }

  /** What the two turns below write. */
  lemma {:induction false} TwoBlocks(first: TurnInput, second: TurnInput, step: Step, answer: string)
    ensures Block(first, 1, [], Answered(answer)) ==
            [UserMessage(1, first.sessionId, first.agentId, first.userMessage),
             AssistantMessage(2, first.sessionId, first.agentId, answer)]
    ensures Block(second, 2, [step], Stopped) ==
            [UserMessage(2, second.sessionId, second.agentId, second.userMessage),
             CallRecord(second, 3, step.call), ResultRecord(second, 4, step.result)]
  {
    assert [step][..0] == [];
  }

  lemma {:induction false} WriteIs(s: State, id: nat, session: string)
    requires Enabled(s, Write(id, session))
    ensures Next(s, Write(id, session)).appends == s.appends + [s.flights[id].todo[0]]
    ensures Next(s, Write(id, session)).flights[id].todo == s.flights[id].todo[1..]
    ensures Next(s, Write(id, session)).flights[id].session == s.flights[id].session
    ensures Next(s, Write(id, session)).flights.Keys == s.flights.Keys
    ensures forall k :: k in s.flights && k != id ==> Next(s, Write(id, session)).flights[k] == s.flights[k]
  {
  }

  lemma {:induction false} Extend(states: seq<State>, labels: seq<Label>, l: Label)
    requires Run(states, labels) && Enabled(states[|labels|], l)
    ensures Run(states + [Next(states[|labels|], l)], labels + [l])
  {
    hide Next, Enabled;
  }

  /** The first turn has written one record when the second begins. */
  lemma {:induction false} SecondBegins(first: TurnInput, second: TurnInput, step: Step, answer: string)
    returns (states: seq<State>, labels: seq<Label>)
    requires first.sessionId == second.sessionId
    ensures Run(states, labels)
    ensures var s, a, b := states[|labels|], Block(first, 1, [], Answered(answer)), Block(second, 2, [step], Stopped);
            && |a| == 2 && s.appends == [a[0]] && 1 in s.flights && 2 in s.flights
            && s.flights[1].todo == [a[1]] && s.flights[2].todo == b
            && s.flights[1].session == s.flights[2].session == first.sessionId
  {
    hide Keep, Block, Next;
    var session := first.sessionId;
    TwoBlocks(first, second, step, answer);
    var l1, l2 := Begin(1, first, [], Answered(answer)), Write(1, session);
    var l3 := Begin(2, second, [step], Stopped);
    EmptyLog(session);
    BeginIs(START, 1, first, [], Answered(answer), 0);
    var s1 := Next(START, l1);
    WriteIs(s1, 1, session);
    var s2 := Next(s1, l2);
    var a := Block(first, 1, [], Answered(answer));
    assert s2.appends == [a[0]];
    KeepAllOrNone([a[0]], InSession(session), true);
    BeginIs(s2, 2, second, [step], Stopped, 1);
    states, labels := [START, s1, s2, Next(s2, l3)], [l1, l2, l3];
  }

  /** A run of two turns on one session: the second begins after the first record of the first, and writes before
      the first goes on. A number is used twice, and the two stores disagree. */
  lemma {:induction false} OverlapBreaksNumbering(first: TurnInput, second: TurnInput, step: Step, answer: string)
    returns (states: seq<State>, labels: seq<Label>)
    requires first.sessionId == second.sessionId
    ensures Run(states, labels)
    ensures var s, session := states[|labels|], first.sessionId;
            && !Contiguous(LogIn(s, session), session)
            && SortByKey(LogIn(s, session), BySequence()) != LogIn(s, session)
  {
    hide Keep, SortByKey, Block, Next, Run;
    var session := first.sessionId;
    TwoBlocks(first, second, step, answer);
    states, labels := SecondBegins(first, second, step, answer);
    RunShape(states, labels);
    var s3, l, l' := states[|labels|], Write(2, session), Write(1, session);
    WriteIs(s3, 2, session);
    Extend(states, labels, l);
    var s4 := Next(s3, l);
    WriteIs(s4, 2, session);
    Extend(states + [s4], labels + [l], l);
    var s5 := Next(s4, l);
    WriteIs(s5, 1, session);
    Extend(states + [s4] + [s5], labels + [l] + [l], l');
    states, labels := states + [s4] + [s5] + [Next(s5, l')], labels + [l] + [l] + [l'];
    var a, b := Block(first, 1, [], Answered(answer)), Block(second, 2, [step], Stopped);
    assert Next(s5, l').appends == [a[0], b[0], b[1], a[1]];
    Misordered(Next(s5, l').appends, session);
  }

  lemma RunShape(states: seq<State>, labels: seq<Label>)
    requires Run(states, labels)
    ensures |states| == |labels| + 1
  {
  }

  lemma {:induction false} BeginIs(
      s: State, id: nat, input: TurnInput, steps: seq<Step>, ending: Ending, n: nat)
    requires id !in s.flights && n == |LogIn(s, input.sessionId)|
    ensures Next(s, Begin(id, input, steps, ending)) ==
            s.(flights := s.flights[id := Opened(input, steps, ending, n)])
  {
  }

  lemma {:induction false} Misordered(appends: seq<Record>, session: string)
    requires |appends| == 4 && appends[2].sequence > appends[3].sequence
    requires forall r :: r in appends ==> r.sessionId == session
    ensures var log := Keep(appends, InSession(session));
            !Contiguous(log, session) && SortByKey(log, BySequence()) != log
  {
    hide Keep, SortByKey;
    KeepAllOrNone(appends, InSession(session), true);
    SortFixesExactlySorted(appends, BySequence());
  }
}
