/** Rule-based tool authorization and its audited executor. */
module ToolAuthorization {
  import opened Sequences
  import opened TurnRuntime

  datatype ChannelKind = Telegram | Other(kind: string)
  datatype ChannelOrigin = ChannelOrigin(provider: ChannelKind, userId: Option<string>)
  datatype Decision = Allow | Deny(reason: string) | RequireApproval(reason: string)
  datatype Context = Context(sessionId: Option<string>, origin: Option<ChannelOrigin>)

  datatype Rule = Rule(
    toolName: string, decision: Decision,
    channelKind: Option<ChannelKind>, userId: Option<string>, sessionId: Option<string>)

  datatype Boundary = Boundary(rules: seq<Rule>, fallback: Decision)

  /** A rule constrains the tool and whatever it names of the context; a named constraint fails on a context
      that lacks the field. */
  ghost predicate Matches(rule: Rule, tool: string, context: Context) {
    && rule.toolName == tool
    && (rule.channelKind.Some? ==> context.origin.Some? && context.origin.value.provider == rule.channelKind.value)
    && (rule.userId.Some? ==> context.origin.Some? && context.origin.value.userId == rule.userId)
    && (rule.sessionId.Some? ==> context.sessionId == rule.sessionId)
  }

  /** The same, as a chain of early exits over the optional fields. */
  function RuleApplies(rule: Rule, tool: string, context: Context): (applies: bool)
    ensures applies <==> Matches(rule, tool, context)
  {
    var provider := match context.origin { case Some(o) => Some(o.provider) case None => None };
    var user := match context.origin { case Some(o) => o.userId case None => None };
    if rule.toolName != tool then false
    else if rule.channelKind.Some? && provider != rule.channelKind then false
    else if rule.userId.Some? && user != rule.userId then false
    else if rule.sessionId.Some? && context.sessionId != rule.sessionId then false
    else true
  }

  function Decide(rules: seq<Rule>, fallback: Decision, tool: string, context: Context): Decision {
    if rules == [] then fallback
    else if RuleApplies(rules[0], tool, context) then rules[0].decision
    else Decide(rules[1..], fallback, tool, context)
  }

  /** The first matching rule decides, and the fallback only when none matches. */
  lemma {:induction false} FirstMatchDecides(
      rules: seq<Rule>, fallback: Decision, tool: string, context: Context, k: nat)
    requires k <= |rules| && forall i :: 0 <= i < k ==> !Matches(rules[i], tool, context)
    ensures k == |rules| ==> Decide(rules, fallback, tool, context) == fallback
    ensures k < |rules| && Matches(rules[k], tool, context) ==>
              Decide(rules, fallback, tool, context) == rules[k].decision
  {
    if k > 0 {
      FirstMatchDecides(rules[1..], fallback, tool, context, k - 1);
    }
  }

  function Blocked(call: ToolCall, message: string): Result<ToolResult> {
    Ok(ToolResult(call.id, call.name, message, true))
  }

  /** What a call yields under a decision, given what the inner tool would yield. */
  function Enforced(d: Decision, call: ToolCall, inner: Result<ToolResult>): Result<ToolResult> {
    match d
    case Allow => inner
    case Deny(reason) => Blocked(call, "tool authorization denied: " + reason)
    case RequireApproval(reason) => Blocked(call, "tool authorization requires approval: " + reason)
  }

  /** The answer to a call, on its own inputs: what the tool returned if the call is allowed, and otherwise an error
      under the call's own id and name that says why. */
  ghost predicate Obeys(d: Decision, call: ToolCall, inner: Result<ToolResult>, result: Result<ToolResult>) {
    match d
    case Allow => result == inner
    case Deny(reason) =>
      result == Ok(ToolResult(call.id, call.name, "tool authorization denied: " + reason, true))
    case RequireApproval(reason) =>
      result == Ok(ToolResult(call.id, call.name, "tool authorization requires approval: " + reason, true))
  }

  function ReasonOf(d: Decision): Option<string> {
    match d
    case Allow => None
    case Deny(reason) => Some(reason)
    case RequireApproval(reason) => Some(reason)
  }

  datatype AuditRecord = AuditRecord(
    sequence: nat, decision: Decision, toolName: string, callId: string, context: Context, reason: Option<string>)

  /** The audit log and the calls that reached the inner tool. */
  datatype State = State(audits: seq<AuditRecord>, executed: seq<ToolCall>)

  /** One call; `inner` is what the inner tool yields if it is run. */
  datatype Attempt = Attempt(
    call: ToolCall, context: Context, inner: Result<ToolResult>, result: Result<ToolResult>, fault: bool)

  function DecisionFor(b: Boundary, a: Attempt): Decision {
    Decide(b.rules, b.fallback, a.call.name, a.context)
  }

  /** A storage fault stops the call before the tool; otherwise the decision is logged first and then enforced. */
  ghost predicate AuditStep(b: Boundary, pre: State, post: State, a: Attempt) {
    var d := DecisionFor(b, a);
    if a.fault then post == pre && a.result.Err?
    else
      && post.audits ==
         pre.audits + [AuditRecord(|pre.audits| + 1, d, a.call.name, a.call.id, a.context, ReasonOf(d))]
      && post.executed == pre.executed + (if d == Allow then [a.call] else [])
      && a.result == Enforced(d, a.call, a.inner)
  }

  /** The wrapped tool may return anything; it remembers what it ran. */
  class InnerTool {
    ghost var executed: seq<ToolCall>
    ghost var outcomes: seq<Result<ToolResult>>

    constructor ()
      ensures executed == [] && outcomes == []
    {
      executed, outcomes := [], [];
    }

    method Execute(call: ToolCall) returns (outcome: Result<ToolResult>)
      modifies this
      ensures executed == old(executed) + [call] && outcomes == old(outcomes) + [outcome]
    {
      outcome := *;
      executed, outcomes := executed + [call], outcomes + [outcome];
    }
  }

  /** The executor without an audit log. */
  method SecureExecute(b: Boundary, context: Context, tool: InnerTool, call: ToolCall)
    returns (result: Result<ToolResult>, ghost inner: Result<ToolResult>)
    modifies tool
    ensures result == Enforced(Decide(b.rules, b.fallback, call.name, context), call, inner)
    ensures Obeys(Decide(b.rules, b.fallback, call.name, context), call, inner, result)
    ensures tool.executed ==
            old(tool.executed) + if Decide(b.rules, b.fallback, call.name, context) == Allow then [call] else []
    ensures tool.outcomes ==
            old(tool.outcomes) + if Decide(b.rules, b.fallback, call.name, context) == Allow then [inner] else []
  {
    hide Decide;
    inner := Err(Store(""));
    match Decide(b.rules, b.fallback, call.name, context) {
      case Allow =>
        result := tool.Execute(call);
        inner := result;
      case Deny(reason) =>
        result := Ok(ToolResult(call.id, call.name, "tool authorization denied: " + reason, true));
      case RequireApproval(reason) =>
        result := Ok(ToolResult(call.id, call.name, "tool authorization requires approval: " + reason, true));
    }
  }

  class AuditedExecutor {
    const boundary: Boundary
    const context: Context
    const tool: InnerTool
    const faults: Faults
    var audits: seq<AuditRecord>

    constructor (boundary: Boundary, context: Context, tool: InnerTool, faults: Faults)
      ensures this.boundary == boundary && this.context == context && this.tool == tool && this.faults == faults
      ensures audits == []
    {
      this.boundary, this.context, this.tool, this.faults, audits := boundary, context, tool, faults, [];
    }

    ghost function View(): State
      reads this, tool
    {
      State(audits, tool.executed)
    }

    method Execute(call: ToolCall)
      returns (result: Result<ToolResult>, ghost inner: Result<ToolResult>, ghost fault: bool)
      modifies this, tool, faults
      ensures faults.count == old(faults.count) + if fault then 1 else 0
      ensures tool.outcomes ==
              old(tool.outcomes) + if tool.executed != old(tool.executed) then [inner] else []
      ensures AuditStep(boundary, old(View()), View(), Attempt(call, context, inner, result, fault))
      ensures fault ==> audits == old(audits)
      ensures !fault ==>
                && |audits| == |old(audits)| + 1 && old(audits) <= audits
                && var entry := audits[|old(audits)|];
                   && entry.sequence == |audits| && entry.toolName == call.name && entry.callId == call.id
                   && entry.context == context
                   && entry.decision == Decide(boundary.rules, boundary.fallback, call.name, context)
                   && Obeys(entry.decision, call, inner, result)
                   && entry.reason == (match entry.decision
                                       case Allow => None
                                       case Deny(reason) => Some(reason)
                                       case RequireApproval(reason) => Some(reason))
    {
      hide Decide, SortByKey;
      var d := Decide(boundary.rules, boundary.fallback, call.name, context);
      inner, fault := Err(Store("")), true;
      var listFails := faults.Strike();
      if listFails {
        result := Err(Store("failed to list authorization audits"));
        return;
      }
      var listed := SortByKey(audits, SequenceKey());
      ListingKeepsLength(audits);
      var sequence := |listed| + 1;
      var appendFails := faults.Strike();
      if appendFails {
        result := Err(Store("failed to append authorization audit"));
        return;
      }
      audits := audits + [AuditRecord(sequence, d, call.name, call.id, context, ReasonOf(d))];
      fault := false;
      match d {
        case Allow =>
          result := tool.Execute(call);
          inner := result;
        case Deny(reason) =>
          result := Ok(ToolResult(call.id, call.name, "tool authorization denied: " + reason, true));
        case RequireApproval(reason) =>
          result := Ok(ToolResult(call.id, call.name, "tool authorization requires approval: " + reason, true));
      }
    }
  }

  function SequenceKey(): AuditRecord -> int {
    (r: AuditRecord) => r.sequence
  }

  lemma {:induction false} ListingKeepsLength(audits: seq<AuditRecord>)
    ensures |SortByKey(audits, SequenceKey())| == |audits|
  {
    hide SortByKey;
    var listed := SortByKey(audits, SequenceKey());
    SortIsStableSort(audits, SequenceKey());
    assert |multiset(listed)| == |listed| && |multiset(audits)| == |audits|;
  }

  // ----- Whole runs -----

  ghost predicate Run(b: Boundary, states: seq<State>, attempts: seq<Attempt>) {
    && |states| == |attempts| + 1
    && states[0] == State([], [])
    && forall i :: 0 <= i < |attempts| ==> AuditStep(b, states[i], states[i + 1], attempts[i])
  }

  /** The (id, name) of the allowed entries of the log, and of executed calls. */
  function AllowedIn(): AuditRecord -> seq<(string, string)> {
    (r: AuditRecord) => if r.decision == Allow then [(r.callId, r.toolName)] else []
  }

  function IdentityOf(): ToolCall -> seq<(string, string)> {
    (c: ToolCall) => [(c.id, c.name)]
  }

  /** What the unaudited wrapper answers to the same attempts. */
  function Unaudited(b: Boundary, attempts: seq<Attempt>): seq<Result<ToolResult>> {
    seq(|attempts|, i requires 0 <= i < |attempts| =>
      Enforced(DecisionFor(b, attempts[i]), attempts[i].call, attempts[i].inner))
  }

  /** Over any run, with storage failing at will: the audit log is numbered 1, 2, 3, ... and listing it changes
      nothing; the inner tool ran exactly once for each Allow entry, in log order, and for nothing else; and
      every call that met no storage fault was answered as the unaudited wrapper answers it. */
  lemma {:induction false} AuditIsExact(b: Boundary, states: seq<State>, attempts: seq<Attempt>, n: nat)
    requires Run(b, states, attempts) && n <= |attempts|
    ensures forall i :: 0 <= i < |states[n].audits| ==> states[n].audits[i].sequence == i + 1
    ensures SortByKey(states[n].audits, SequenceKey()) == states[n].audits
    ensures FlatMap(states[n].audits, AllowedIn()) == FlatMap(states[n].executed, IdentityOf())
    ensures forall i :: 0 <= i < n && !attempts[i].fault ==> attempts[i].result == Unaudited(b, attempts)[i]
  {
    hide FlatMap, SortByKey, Decide;
    if n == 0 {
      FlatMapNothing([], AllowedIn());
      FlatMapNothing([], IdentityOf());
    } else {
      AuditIsExact(b, states, attempts, n - 1);
      var pre, a := states[n - 1], attempts[n - 1];
      assert AuditStep(b, pre, states[n], a);
      var d := DecisionFor(b, a);
      var r := AuditRecord(|pre.audits| + 1, d, a.call.name, a.call.id, a.context, ReasonOf(d));
      FlatMapSnoc(pre.audits, r, AllowedIn());
      FlatMapSnoc(pre.executed, a.call, IdentityOf());
      assert pre.executed + [] == pre.executed;
    }
    SortFixesExactlySorted(states[n].audits, SequenceKey());
  }
}
