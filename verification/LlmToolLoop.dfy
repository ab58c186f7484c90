/** The Anthropic provider's tool-call loop, which grows the transcript it sends. */
module LlmToolLoop {
  import opened Sequences
  import opened Translators

  datatype ApiResponse = ApiResponse(content: seq<Content>, inputTokens: nat, outputTokens: nat)

  datatype LlmResponse = LlmResponse(
    content: Option<string>, promptTokens: nat, completionTokens: nat, totalTokens: nat, toolRounds: nat)

  /** What became of a dispatch: a parsed reply, an unreadable one, a bus error, no reply in time, or a request
      that could not even be encoded, which ends the whole call. */
  datatype Dispatched =
    | Replied(result: string, isError: bool)
    | Unreadable(why: string)
    | Failed(why: string)
    | TimedOut
    | Unsendable

  /** One API response that asked for tools, and the tool results sent back. */
  datatype Exchange = Exchange(response: ApiResponse, outcomes: seq<Dispatched>, answers: seq<Content>)

  function ErrorJson(message: string): string {
    "{\"error\":\"" + message + "\"}"
  }

  function AnswerTo(call: ToolCall, d: Dispatched): Content
    requires !d.Unsendable?
  {
    match d
    case Replied(result, isError) => ToolResultContent(call.id, result, if isError then Some(true) else None)
    case Unreadable(why) => ToolResultContent(call.id, ErrorJson("Failed to parse response: " + why), Some(true))
    case Failed(why) => ToolResultContent(call.id, ErrorJson("Tool dispatch failed: " + why), Some(true))
    case TimedOut => ToolResultContent(call.id, ErrorJson("Tool call timed out"), Some(true))
  }

  /** The two messages an exchange appends. */
  function Appended(): Exchange -> seq<AnthropicMessage> {
    (e: Exchange) => [AnthropicMessage("assistant", e.response.content), AnthropicMessage("user", e.answers)]
  }

  /** The answers are tool results for exactly the tool uses of the response, in the same order, each carrying
      what its own dispatch produced. */
  ghost predicate Paired(uses: seq<ToolCall>, outcomes: seq<Dispatched>, answers: seq<Content>) {
    && |answers| == |outcomes| == |uses|
    && forall j :: 0 <= j < |uses| ==> Carries(uses[j], outcomes[j], answers[j])
  }

  /** The tool result goes to its own tool use. A reply is passed on word for word, flagged exactly when it is an
      error; every failure is flagged and says what went wrong. */
  ghost predicate Carries(use: ToolCall, d: Dispatched, c: Content) {
    && c.ToolResultContent? && c.toolUseId == use.id
    && match d
       case Replied(result, isError) =>
         c.content == result && (c.isError == Some(true) <==> isError) && (c.isError == None <==> !isError)
       case Unreadable(why) =>
         c.isError == Some(true) && c.content == "{\"error\":\"" + ("Failed to parse response: " + why) + "\"}"
       case Failed(why) =>
         c.isError == Some(true) && c.content == "{\"error\":\"" + ("Tool dispatch failed: " + why) + "\"}"
       case TimedOut =>
         c.isError == Some(true) && c.content == "{\"error\":\"" + "Tool call timed out" + "\"}"
       case Unsendable => false
  }

  ghost predicate WellPaired(exchanges: seq<Exchange>) {
    forall k :: 0 <= k < |exchanges| ==>
      var uses := ToolUses(exchanges[k].response.content);
      uses != [] && Paired(uses, exchanges[k].outcomes, exchanges[k].answers)
  }

  lemma AnswerCarries(use: ToolCall, d: Dispatched)
    requires !d.Unsendable?
    ensures Carries(use, d, AnswerTo(use, d))
  {
  }

  /** The ids of a message's tool uses, and of its tool results. */
  function UseIds(uses: seq<ToolCall>): seq<string> {
    seq(|uses|, i requires 0 <= i < |uses| => uses[i].id)
  }

  function AnsweredId(): Content -> seq<string> {
    (c: Content) => if c.ToolResultContent? then [c.toolUseId] else []
  }

  /** A paired answer resolves every tool use once, in order, and holds nothing else. */
  lemma {:induction false} PairedIdsAgree(uses: seq<ToolCall>, outcomes: seq<Dispatched>, answers: seq<Content>)
    requires Paired(uses, outcomes, answers)
    ensures FlatMap(answers, AnsweredId()) == UseIds(uses)
    decreases |uses|
  {
    hide ErrorJson;
    if uses != [] {
      var n := |uses| - 1;
      PairedIdsAgree(uses[..n], outcomes[..n], answers[..n]);
      assert Carries(uses[n], outcomes[n], answers[n]);
    }
  }

  function InputSum(exchanges: seq<Exchange>): nat {
    if exchanges == [] then 0
    else InputSum(exchanges[..|exchanges| - 1]) + exchanges[|exchanges| - 1].response.inputTokens
  }

  function OutputSum(exchanges: seq<Exchange>): nat {
    if exchanges == [] then 0
    else OutputSum(exchanges[..|exchanges| - 1]) + exchanges[|exchanges| - 1].response.outputTokens
  }

  /** The API may answer anything or fail; it remembers the transcripts it was sent and what it answered. */
  class Api {
    ghost var sent: seq<seq<AnthropicMessage>>
    ghost var replies: seq<Option<ApiResponse>>

    method Call(messages: seq<AnthropicMessage>) returns (response: Option<ApiResponse>)
      modifies this
      ensures sent == old(sent) + [messages] && replies == old(replies) + [response]
    {
      response := *;
      sent, replies := sent + [messages], replies + [response];
    }
  }

  /** The tool dispatcher may do anything; it remembers what it did. */
  class Dispatcher {
    ghost var log: seq<(ToolCall, Dispatched)>

    method Dispatch(call: ToolCall) returns (outcome: Dispatched)
      modifies this
      ensures log == old(log) + [(call, outcome)]
    {
      outcome := *;
      log := log + [(call, outcome)];
    }
  }

  function Zip(uses: seq<ToolCall>, outcomes: seq<Dispatched>): seq<(ToolCall, Dispatched)>
    requires |uses| == |outcomes|
  {
    seq(|uses|, i requires 0 <= i < |uses| => (uses[i], outcomes[i]))
  }

  /** A round cut short: the dispatches up to the first request that could not be encoded. */
  ghost predicate CutShort(uses: seq<ToolCall>, outcomes: seq<Dispatched>) {
    && 0 < |outcomes| <= |uses|
    && forall j :: 0 <= j < |outcomes| ==> (outcomes[j].Unsendable? <==> j == |outcomes| - 1)
  }

  method RunTools(dispatcher: Dispatcher, uses: seq<ToolCall>)
    returns (ok: bool, answers: seq<Content>, ghost outcomes: seq<Dispatched>)
    modifies dispatcher
    ensures if ok then Paired(uses, outcomes, answers) else CutShort(uses, outcomes)
    ensures |outcomes| <= |uses| && dispatcher.log == old(dispatcher.log) + Zip(uses[..|outcomes|], outcomes)
  {
    ok, answers, outcomes := true, [], [];
    for j := 0 to |uses|
      invariant ok && Paired(uses[..j], outcomes, answers)
      invariant dispatcher.log == old(dispatcher.log) + Zip(uses[..j], outcomes)
    {
      var outcome := dispatcher.Dispatch(uses[j]);
      outcomes := outcomes + [outcome];
      if outcome.Unsendable? {
        ok := false;
        return;
      }
      AnswerCarries(uses[j], outcome);
      answers := answers + [AnswerTo(uses[j], outcome)];
    }
    assert uses[..|uses|] == uses;
  }

  lemma {:induction false} ExchangeSnoc(exchanges: seq<Exchange>, e: Exchange)
    ensures InputSum(exchanges + [e]) == InputSum(exchanges) + e.response.inputTokens
    ensures OutputSum(exchanges + [e]) == OutputSum(exchanges) + e.response.outputTokens
  {
    assert (exchanges + [e])[..|exchanges|] == exchanges;
  }

  /** Each round's reply is followed at once by the answers to it: the two messages of round `k`. */
  lemma {:induction false} RoundsAreAdjacent(exchanges: seq<Exchange>, k: nat)
    requires k < |exchanges|
    ensures var messages := FlatMap(exchanges, Appended());
            && |messages| == 2 * |exchanges|
            && messages[2 * k] == AnthropicMessage("assistant", exchanges[k].response.content)
            && messages[2 * k + 1] == AnthropicMessage("user", exchanges[k].answers)
    decreases |exchanges|
  {
    var n := |exchanges| - 1;
    assert FlatMap(exchanges, Appended()) == FlatMap(exchanges[..n], Appended()) + Appended()(exchanges[n]);
    if k < n {
      RoundsAreAdjacent(exchanges[..n], k);
    } else if n > 0 {
      RoundsAreAdjacent(exchanges[..n], 0);
    }
  }

  /** How a completed call reads: the text of the last response, the token sums over all of them. */
  ghost predicate Reported(r: LlmResponse, exchanges: seq<Exchange>, last: ApiResponse) {
    && r.content == (if ContentToText(last.content) == "" then None else Some(ContentToText(last.content)))
    && r.promptTokens == InputSum(exchanges) + last.inputTokens
    && r.completionTokens == OutputSum(exchanges) + last.outputTokens
    && r.totalTokens == r.promptTokens + r.completionTokens
    && r.toolRounds == |exchanges|
  }

  /** The dispatches of one tool round. */
  ghost function DispatchedIn(): Exchange -> seq<(ToolCall, Dispatched)> {
    (e: Exchange) =>
      var uses := ToolUses(e.response.content);
      if |uses| == |e.outcomes| then Zip(uses, e.outcomes) else []
  }

  function ReplyIn(): Exchange -> seq<Option<ApiResponse>> {
    (e: Exchange) => [Some(e.response)]
  }

  /** Everything the loop keeps: the transcript, the pairing, and what the API and the dispatcher saw. */
  ghost predicate Rounds(
      base: seq<AnthropicMessage>, messages: seq<AnthropicMessage>, exchanges: seq<Exchange>,
      sent: seq<seq<AnthropicMessage>>, replies: seq<Option<ApiResponse>>, dispatches: seq<(ToolCall, Dispatched)>)
  {
    && messages == base + FlatMap(exchanges, Appended())
    && WellPaired(exchanges)
    && |sent| == |exchanges|
    && (forall k :: 0 <= k < |sent| ==> sent[k] == base + FlatMap(exchanges[..k], Appended()))
    && replies == FlatMap(exchanges, ReplyIn())
    && dispatches == FlatMap(exchanges, DispatchedIn())
  }

  lemma {:induction false} RoundsSnoc(
      base: seq<AnthropicMessage>, messages: seq<AnthropicMessage>, exchanges: seq<Exchange>,
      sent: seq<seq<AnthropicMessage>>, replies: seq<Option<ApiResponse>>, dispatches: seq<(ToolCall, Dispatched)>,
      e: Exchange)
    requires Rounds(base, messages, exchanges, sent, replies, dispatches)
    requires ToolUses(e.response.content) != [] && Paired(ToolUses(e.response.content), e.outcomes, e.answers)
    ensures Rounds(base, messages + Appended()(e), exchanges + [e], sent + [messages],
                   replies + [Some(e.response)], dispatches + Zip(ToolUses(e.response.content), e.outcomes))
  {
    hide FlatMap, ToolUses;
    FlatMapSnoc(exchanges, e, Appended());
    FlatMapSnoc(exchanges, e, ReplyIn());
    FlatMapSnoc(exchanges, e, DispatchedIn());
    assert forall k :: 0 <= k <= |exchanges| ==> (exchanges + [e])[..k] == exchanges[..k];
    assert exchanges[..|exchanges|] == exchanges;
  }

  /** What the API and the dispatcher saw of a call whose last transcript was `messages`: the rounds, the last
      reply, and the dispatches of a round that was cut short. */
  ghost predicate Seen(
      base: seq<AnthropicMessage>, messages: seq<AnthropicMessage>, exchanges: seq<Exchange>,
      last: Option<ApiResponse>, cut: seq<Dispatched>,
      sent: seq<seq<AnthropicMessage>>, replies: seq<Option<ApiResponse>>, dispatches: seq<(ToolCall, Dispatched)>)
  {
    && |sent| == |replies| == |exchanges| + 1 && |cut| <= |dispatches|
    && Rounds(base, messages, exchanges, sent[..|exchanges|], replies[..|exchanges|],
              dispatches[..|dispatches| - |cut|])
    && sent[|exchanges|] == messages && replies[|exchanges|] == last
    && (cut != [] ==>
          && last.Some? && CutShort(ToolUses(last.value.content), cut)
          && dispatches[|dispatches| - |cut|..] == Zip(ToolUses(last.value.content)[..|cut|], cut))
  }

  lemma {:induction false} SeenLast(
      base: seq<AnthropicMessage>, messages: seq<AnthropicMessage>, exchanges: seq<Exchange>,
      last: Option<ApiResponse>, cut: seq<Dispatched>, extra: seq<(ToolCall, Dispatched)>,
      sent: seq<seq<AnthropicMessage>>, replies: seq<Option<ApiResponse>>, dispatches: seq<(ToolCall, Dispatched)>)
    requires Rounds(base, messages, exchanges, sent, replies, dispatches) && |replies| == |exchanges|
    requires |extra| == |cut|
    requires cut != [] ==>
               && last.Some? && CutShort(ToolUses(last.value.content), cut)
               && extra == Zip(ToolUses(last.value.content)[..|cut|], cut)
    ensures Seen(base, messages, exchanges, last, cut, sent + [messages], replies + [last], dispatches + extra)
  {
    hide FlatMap, ToolUses;
    assert (sent + [messages])[..|exchanges|] == sent && (replies + [last])[..|exchanges|] == replies;
    assert (dispatches + extra)[..|dispatches|] == dispatches && (dispatches + extra)[|dispatches|..] == extra;
  }

  /** The loop. `exchanges` are its tool rounds, `last` is the API's last reply, and `cut` what was dispatched in a
      round that could not be completed. Each API call was sent the translated request and the rounds so far, the
      replies are those of the rounds and `last`, and every tool use of every round, and no other, was dispatched. */
  method HandleProviderRequest(api: Api, dispatcher: Dispatcher, request: seq<Message>, maxToolRounds: nat)
    returns (result: Option<LlmResponse>, ghost messages: seq<AnthropicMessage>,
             ghost exchanges: seq<Exchange>, ghost last: Option<ApiResponse>, ghost cut: seq<Dispatched>)
    modifies api, dispatcher
    ensures |exchanges| <= maxToolRounds
    ensures old(api.sent) <= api.sent && old(api.replies) <= api.replies && old(dispatcher.log) <= dispatcher.log
    ensures Seen(FlatMap(request, Translated()), messages, exchanges, last, cut,
                 api.sent[|old(api.sent)|..], api.replies[|old(api.replies)|..],
                 dispatcher.log[|old(dispatcher.log)|..])
    ensures result.Some? <==> last.Some? && cut == []
    ensures result.Some? ==> Reported(result.value, exchanges, last.value)
    ensures last.Some? && cut == [] ==> ToolUses(last.value.content) == [] || |exchanges| == maxToolRounds
    ensures cut != [] ==> |exchanges| < maxToolRounds
  {
    hide FlatMap, InputSum, OutputSum, ToolUses, ContentToText, Translated, Rounds, Seen, CutShort;
    var transcript := UnifiedToAnthropicMessages(request);
    ghost var base := transcript;
    ghost var sent, replies, dispatches := [], [], [];
    exchanges, cut := [], [];
    var totalInput, totalOutput, toolRounds := 0, 0, 0;
    NoExchanges(base);
    for round := 0 to maxToolRounds + 1
      invariant |exchanges| == |sent| == |replies| == toolRounds == round <= maxToolRounds && cut == []
      invariant Rounds(base, transcript, exchanges, sent, replies, dispatches)
      invariant api.sent == old(api.sent) + sent && api.replies == old(api.replies) + replies
      invariant dispatcher.log == old(dispatcher.log) + dispatches
      invariant totalInput == InputSum(exchanges) && totalOutput == OutputSum(exchanges)
    {
      messages := transcript;
      var response := api.Call(transcript);
      last := response;
      SeenLast(base, messages, exchanges, last, [], [], sent, replies, dispatches);
      assert api.sent[|old(api.sent)|..] == sent + [messages];
      assert api.replies[|old(api.replies)|..] == replies + [last];
      assert dispatcher.log[|old(dispatcher.log)|..] == dispatches + [];
      if response.None? {
        result := None;
        return;
      }
      totalInput := totalInput + response.value.inputTokens;
      totalOutput := totalOutput + response.value.outputTokens;
      var text := ContentToText(response.value.content);
      var uses := ToolUses(response.value.content);
      if uses == [] || round == maxToolRounds {
        result := Some(LlmResponse(if text == "" then None else Some(text),
                                   totalInput, totalOutput, totalInput + totalOutput, toolRounds));
        return;
      }
      toolRounds := toolRounds + 1;
      transcript := transcript + [AnthropicMessage("assistant", response.value.content)];
      var ok, answers, outcomes := RunTools(dispatcher, uses);
      if !ok {
        CutIsNonempty(uses, outcomes);
        cut := outcomes;
        ghost var extra := Zip(uses[..|outcomes|], outcomes);
        SeenLast(base, messages, exchanges, last, cut, extra, sent, replies, dispatches);
        assert dispatcher.log[|old(dispatcher.log)|..] == dispatches + extra;
        result := None;
        return;
      }
      if answers != [] {
        transcript := transcript + [AnthropicMessage("user", answers)];
      }
      ghost var exchange := Exchange(response.value, outcomes, answers);
      ExchangeSnoc(exchanges, exchange);
      RoundsSnoc(base, messages, exchanges, sent, replies, dispatches, exchange);
      assert transcript == messages + Appended()(exchange);
      sent, replies := sent + [messages], replies + [Some(response.value)];
      assert uses[..|outcomes|] == uses;
      dispatches := dispatches + Zip(uses, outcomes);
      exchanges := exchanges + [exchange];
    }
  }

  lemma CutIsNonempty(uses: seq<ToolCall>, outcomes: seq<Dispatched>)
    requires CutShort(uses, outcomes)
    ensures 0 < |outcomes| <= |uses|
  {
  }

  lemma NoExchanges(base: seq<AnthropicMessage>)
    ensures InputSum([]) == OutputSum([]) == 0
    ensures Rounds(base, base, [], [], [], [])
  {
  }
}
