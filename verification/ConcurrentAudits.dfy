/** Audited tool calls that overlap: each lists the log to number its entry, appends the entry, and then runs the
    tool if the decision allows it. */
module ConcurrentAudits {
  import opened Sequences
  import opened TurnRuntime
  import opened ToolAuthorization

  /** How far a call has come: `entry` is the position of its entry in the log. */
  datatype Stage = Listed | Logged(entry: nat) | Ran(entry: nat)

  datatype Flight = Flight(call: ToolCall, context: Context, seen: nat, stage: Stage)

  /** `executed` are the calls that reached the inner tool, in order. */
  datatype Shared = Shared(audits: seq<AuditRecord>, executed: seq<nat>, flights: map<nat, Flight>)

  const START := Shared([], [], map[])

  datatype Label = List(id: nat, call: ToolCall, context: Context) | Append(id: nat) | Execute(id: nat)

  function Verdict(b: Boundary, f: Flight): Decision {
    Decide(b.rules, b.fallback, f.call.name, f.context)
  }

  function EntryOf(b: Boundary, f: Flight): AuditRecord {
    AuditRecord(f.seen + 1, Verdict(b, f), f.call.name, f.call.id, f.context, ReasonOf(Verdict(b, f)))
  }

  /** A call that meets a storage fault, or is cancelled, takes no further step. */
  predicate Enabled(b: Boundary, s: Shared, l: Label) {
    match l
    case List(id, _, _) => id !in s.flights
    case Append(id) => id in s.flights && s.flights[id].stage.Listed?
    case Execute(id) => id in s.flights && s.flights[id].stage.Logged? && Verdict(b, s.flights[id]) == Allow
  }

  function Next(b: Boundary, s: Shared, l: Label): Shared
    requires Enabled(b, s, l)
  {
    match l
    case List(id, call, context) => s.(flights := s.flights[id := Flight(call, context, |s.audits|, Listed)])
    case Append(id) =>
      s.(audits := s.audits + [EntryOf(b, s.flights[id])],
         flights := s.flights[id := s.flights[id].(stage := Logged(|s.audits|))])
    case Execute(id) =>
      s.(executed := s.executed + [id],
         flights := s.flights[id := s.flights[id].(stage := Ran(s.flights[id].stage.entry))])
  }

  ghost predicate Run(b: Boundary, states: seq<Shared>, labels: seq<Label>) {
    && |states| == |labels| + 1
    && states[0] == START
    && forall i :: 0 <= i < |labels| ==>
         Enabled(b, states[i], labels[i]) && states[i + 1] == Next(b, states[i], labels[i])
  }

  // ----- The tool runs only on its own Allow entry -----

  /** A logged call has an entry of its own. */
  ghost predicate Entered(b: Boundary, s: Shared) {
    && (forall id :: id in s.flights && !s.flights[id].stage.Listed? ==> HasEntry(b, s, s.flights[id]))
    && (forall id, k :: id in s.flights && k in s.flights && id != k ==> Apart(s.flights[id].stage, s.flights[k].stage))
  }

  ghost predicate HasEntry(b: Boundary, s: Shared, f: Flight)
    requires !f.stage.Listed?
  {
    f.stage.entry < |s.audits| && s.audits[f.stage.entry] == EntryOf(b, f)
  }

  predicate Apart(a: Stage, b: Stage) {
    a.Listed? || b.Listed? || a.entry != b.entry
  }

  /** The tool ran once for each call that says so, and each of those was allowed. */
  ghost predicate Executed(b: Boundary, s: Shared) {
    && (forall i :: 0 <= i < |s.executed| ==> s.executed[i] in s.flights)
    && (forall id :: id in s.flights ==> (s.flights[id].stage.Ran? <==> id in s.executed))
    && (forall id :: id in s.flights && s.flights[id].stage.Ran? ==> Verdict(b, s.flights[id]) == Allow)
    && (forall i, j :: 0 <= i < j < |s.executed| ==> s.executed[i] != s.executed[j])
  }

  lemma {:induction false} StepEntered(b: Boundary, s: Shared, l: Label)
    requires Entered(b, s) && Enabled(b, s, l)
    ensures Entered(b, Next(b, s, l))
  {
    hide Decide;
    var s' := Next(b, s, l);
    forall id | id in s'.flights && !s'.flights[id].stage.Listed? ensures HasEntry(b, s', s'.flights[id]) {
      if id in s.flights && !s.flights[id].stage.Listed? {
        assert HasEntry(b, s, s.flights[id]);
      }
    }
    forall id, k | id in s'.flights && k in s'.flights && id != k
      ensures Apart(s'.flights[id].stage, s'.flights[k].stage)
    {
      if id in s.flights && k in s.flights {
        assert Apart(s.flights[id].stage, s.flights[k].stage);
        assert !s.flights[id].stage.Listed? ==> HasEntry(b, s, s.flights[id]);
        assert !s.flights[k].stage.Listed? ==> HasEntry(b, s, s.flights[k]);
      }
    }
  }

  lemma {:induction false} StepExecuted(b: Boundary, s: Shared, l: Label)
    requires Executed(b, s) && Enabled(b, s, l)
    ensures Executed(b, Next(b, s, l))
  {
    hide Decide, EntryOf;
    var s' := Next(b, s, l);
    forall id | id in s'.flights ensures s'.flights[id].stage.Ran? <==> id in s'.executed {
      if l.List? && l.id == id {
        assert id !in s.executed;
      }
    }
  }

  lemma {:induction false} InvariantHolds(b: Boundary, states: seq<Shared>, labels: seq<Label>, i: nat)
    requires Run(b, states, labels) && i <= |labels|
    ensures Entered(b, states[i]) && Executed(b, states[i])
  {
    hide Entered, Executed, Next;
    if i == 0 {
      StartHolds(b);
    } else {
      InvariantHolds(b, states, labels, i - 1);
      assert Enabled(b, states[i - 1], labels[i - 1]) && states[i] == Next(b, states[i - 1], labels[i - 1]);
      StepEntered(b, states[i - 1], labels[i - 1]);
      StepExecuted(b, states[i - 1], labels[i - 1]);
    }
  }

  lemma StartHolds(b: Boundary)
    ensures Entered(b, START) && Executed(b, START)
  {
  }

  /** In every interleaving each run of the inner tool has an Allow entry of its own call, logged before it, that no
      other run shares; so the tool never runs unaudited, and never twice on one entry. */
  lemma {:induction false} RunsAreAudited(
      b: Boundary, states: seq<Shared>, labels: seq<Label>, n: nat, i: nat, j: nat)
    requires Run(b, states, labels) && n <= |labels| && i < |states[n].executed| && j < |states[n].executed|
    ensures var s := states[n];
            && s.executed[i] in s.flights && s.executed[j] in s.flights
            && var f, g := s.flights[s.executed[i]], s.flights[s.executed[j]];
               && f.stage.Ran? && f.stage.entry < |s.audits|
               && s.audits[f.stage.entry].decision == Allow
               && s.audits[f.stage.entry].callId == f.call.id && s.audits[f.stage.entry].toolName == f.call.name
               && (g.stage.Ran? && f.stage.entry == g.stage.entry ==> i == j)
  {
    hide Next, Enabled, Decide;
    InvariantHolds(b, states, labels, n);
    var s := states[n];
    assert HasEntry(b, s, s.flights[s.executed[i]]);
    assert s.executed[i] == s.executed[j] ==> i == j;
    assert s.executed[i] != s.executed[j] ==>
           Apart(s.flights[s.executed[i]].stage, s.flights[s.executed[j]].stage);
  }

  /** Every entry, field by field: it is that of the call it belongs to, with the decision of the first matching rule
      and its reason. */
  lemma {:induction false} EntriesAreSpelledOut(
      b: Boundary, states: seq<Shared>, labels: seq<Label>, n: nat, id: nat)
    requires Run(b, states, labels) && n <= |labels| && id in states[n].flights
    requires !states[n].flights[id].stage.Listed?
    ensures var s, f := states[n], states[n].flights[id];
            && f.stage.entry < |s.audits|
            && var entry := s.audits[f.stage.entry];
               && entry.toolName == f.call.name && entry.callId == f.call.id && entry.context == f.context
               && entry.sequence == f.seen + 1
               && entry.decision == Decide(b.rules, b.fallback, f.call.name, f.context)
               && entry.reason == match entry.decision
                                  case Allow => None
                                  case Deny(reason) => Some(reason)
                                  case RequireApproval(reason) => Some(reason)
  {
    hide Next, Enabled, Decide, Executed;
    InvariantHolds(b, states, labels, n);
    assert HasEntry(b, states[n], states[n].flights[id]);
  }

  // ----- When the numbering holds -----

  function IsList(id: nat): Label -> bool {
    (l: Label) => l.List? && l.id == id
  }

  function IsAppend(): Label -> bool {
    (l: Label) => l.Append?
  }

  /** A call that has listed the log falls behind it exactly when another has appended since. */
  lemma {:induction false} LagIff(b: Boundary, states: seq<Shared>, labels: seq<Label>, j: nat, id: nat)
    requires Run(b, states, labels) && j <= |labels| && id in states[j].flights && states[j].flights[id].stage.Listed?
    ensures var f := states[j].flights[id];
            && f.seen <= |states[j].audits|
            && (f.seen < |states[j].audits| <==> Since(labels, j, IsAppend(), IsList(id)))
  {
    hide Since, EntryOf, Verdict;
    var s, l := states[j - 1], labels[j - 1];
    assert Enabled(b, s, l) && states[j] == Next(b, s, l);
    SinceStep(labels, j - 1, IsAppend(), IsList(id));
    if !IsList(id)(l) {
      LagIff(b, states, labels, j - 1, id);
    }
  }

  ghost predicate Numbered(audits: seq<AuditRecord>) {
    forall i :: 0 <= i < |audits| ==> audits[i].sequence == i + 1
  }

  /** No call appends after another has appended since the first listed the log. */
  ghost predicate Orderly(labels: seq<Label>, n: nat)
    requires n <= |labels|
  {
    forall j :: 0 <= j < n && labels[j].Append? ==> !Since(labels, j, IsAppend(), IsList(labels[j].id))
  }

  /** However calls overlap, the audit log is numbered 1, 2, 3, ... if and only if no call's list and append have
      another's append between them. */
  lemma {:induction false} NumberedIffOrderly(b: Boundary, states: seq<Shared>, labels: seq<Label>, n: nat)
    requires Run(b, states, labels) && n <= |labels|
    ensures Numbered(states[n].audits) <==> Orderly(labels, n)
  {
    hide Since, Verdict;
    if n > 0 {
      var s, l := states[n - 1], labels[n - 1];
      assert Enabled(b, s, l) && states[n] == Next(b, s, l);
      NumberedIffOrderly(b, states, labels, n - 1);
      if l.Append? {
        LagIff(b, states, labels, n - 1, l.id);
        var was, now := s.audits, states[n].audits;
        assert now[..|was|] == was;
        assert Numbered(now) <==> Numbered(was) && now[|was|].sequence == |was| + 1;
      }
    }
  }
}
