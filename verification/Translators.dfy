/** Conversion of the unified message format to the Anthropic and Gemini formats. */
module Translators {
  import opened Sequences

  datatype ToolCall = ToolCall(id: string, name: string, arguments: string)
  datatype ToolResult = ToolResult(toolCallId: string, content: string, isError: bool)
  datatype Message = Message(
    role: string, content: Option<string>, toolCalls: Option<seq<ToolCall>>, toolResults: Option<seq<ToolResult>>)

  function OrEmpty<T>(s: Option<seq<T>>): seq<T> {
    if s.Some? then s.value else []
  }

  /** The nonempty text, the tool calls and the tool results of one message. */
  function TextsIn(): Message -> seq<string> {
    (m: Message) => if m.content.Some? && m.content.value != "" then [m.content.value] else []
  }

  function CallsIn(): Message -> seq<ToolCall> {
    (m: Message) => OrEmpty(m.toolCalls)
  }

  function ResultsIn(): Message -> seq<ToolResult> {
    (m: Message) => OrEmpty(m.toolResults)
  }

  // ----- Anthropic -----

  datatype Content =
    | Text(text: string)
    | ToolUse(id: string, name: string, input: string)
    | ToolResultContent(toolUseId: string, content: string, isError: Option<bool>)

  datatype AnthropicMessage = AnthropicMessage(role: string, content: seq<Content>)

  function UseOf(): ToolCall -> seq<Content> {
    (c: ToolCall) => [ToolUse(c.id, c.name, c.arguments)]
  }

  function ResultOf(): ToolResult -> seq<Content> {
    (r: ToolResult) => [ToolResultContent(r.toolCallId, r.content, if r.isError then Some(true) else None)]
  }

  function TextOf(): string -> seq<Content> {
    (t: string) => [Text(t)]
  }

  /** Text, then tool uses, then tool results. */
  function ContentOf(): Message -> seq<Content> {
    (m: Message) =>
      FlatMap(TextsIn()(m), TextOf()) + FlatMap(CallsIn()(m), UseOf()) + FlatMap(ResultsIn()(m), ResultOf())
  }

  /** One message, or none when it has no content. */
  function Translated(): Message -> seq<AnthropicMessage> {
    (m: Message) => if ContentOf()(m) == [] then [] else [AnthropicMessage(m.role, ContentOf()(m))]
  }

  method UnifiedToAnthropicMessages(messages: seq<Message>) returns (result: seq<AnthropicMessage>)
    ensures result == FlatMap(messages, Translated())
  {
    result := [];
    for i := 0 to |messages|
      invariant result == FlatMap(messages[..i], Translated())
    {
      var msg := messages[i];
      var content := MessageContent(msg);
      if content != [] {
        result := result + [AnthropicMessage(msg.role, content)];
      }
      FlatMapSnoc(messages[..i], msg, Translated());
      assert messages[..i + 1] == messages[..i] + [msg];
    }
    assert messages[..|messages|] == messages;
  }

  /** A tool result as Anthropic takes it: the error flag is there only when set. */
  ghost predicate IsResult(r: ToolResult, c: Content) {
    && c.ToolResultContent? && c.toolUseId == r.toolCallId && c.content == r.content
    && c.isError == if r.isError then Some(true) else None
  }

  /** The body of the translation loop for one message: its text if there is any, then one block for each tool call,
      then one for each tool result. */
  method MessageContent(msg: Message) returns (content: seq<Content>)
    ensures content == ContentOf()(msg)
    ensures var calls, results := OrEmpty(msg.toolCalls), OrEmpty(msg.toolResults);
            var t := if msg.content.Some? && msg.content.value != "" then 1 else 0;
            && |content| == t + |calls| + |results|
            && (t == 1 ==> content[0] == Text(msg.content.value))
            && (forall i :: 0 <= i < |calls| ==>
                  content[t + i] == ToolUse(calls[i].id, calls[i].name, calls[i].arguments))
            && (forall i :: 0 <= i < |results| ==> IsResult(results[i], content[t + |calls| + i]))
  {
    hide FlatMap;
    content := [];
    FlatMapNothing([], TextOf());
    if msg.content.Some? && msg.content.value != "" {
      FlatMapSnoc([], msg.content.value, TextOf());
      content := [Text(msg.content.value)];
    }
    assert content == FlatMap(TextsIn()(msg), TextOf());
    var uses := ToolUsesOf(OrEmpty(msg.toolCalls));
    content := content + uses;
    var results := ToolResultsOf(OrEmpty(msg.toolResults));
    content := content + results;
  }

  method ToolUsesOf(calls: seq<ToolCall>) returns (content: seq<Content>)
    ensures content == FlatMap(calls, UseOf())
    ensures |content| == |calls|
    ensures forall i :: 0 <= i < |calls| ==> content[i] == ToolUse(calls[i].id, calls[i].name, calls[i].arguments)
  {
    hide FlatMap;
    content := [];
    FlatMapNothing([], UseOf());
    for j := 0 to |calls|
      invariant content == FlatMap(calls[..j], UseOf()) && |content| == j
      invariant forall i :: 0 <= i < j ==> content[i] == ToolUse(calls[i].id, calls[i].name, calls[i].arguments)
    {
      FlatMapSnoc(calls[..j], calls[j], UseOf());
      assert calls[..j + 1] == calls[..j] + [calls[j]];
      content := content + [ToolUse(calls[j].id, calls[j].name, calls[j].arguments)];
    }
    assert calls[..|calls|] == calls;
  }

  method ToolResultsOf(results: seq<ToolResult>) returns (content: seq<Content>)
    ensures content == FlatMap(results, ResultOf())
    ensures |content| == |results| && forall i :: 0 <= i < |results| ==> IsResult(results[i], content[i])
  {
    hide FlatMap;
    content := [];
    FlatMapNothing([], ResultOf());
    for j := 0 to |results|
      invariant content == FlatMap(results[..j], ResultOf()) && |content| == j
      invariant forall i :: 0 <= i < j ==> IsResult(results[i], content[i])
    {
      FlatMapSnoc(results[..j], results[j], ResultOf());
      assert results[..j + 1] == results[..j] + [results[j]];
      var isError := if results[j].isError then Some(true) else None;
      content := content + [ToolResultContent(results[j].toolCallId, results[j].content, isError)];
    }
    assert results[..|results|] == results;
  }

  /** The extractors applied to a response's content, and the counterpart for results. */
  function UseIn(): Content -> seq<ToolCall> {
    (c: Content) => if c.ToolUse? then [ToolCall(c.id, c.name, c.input)] else []
  }

  function TextIn(): Content -> seq<string> {
    (c: Content) => if c.Text? then [c.text] else []
  }

  function ResultIn(): Content -> seq<ToolResult> {
    (c: Content) => if c.ToolResultContent? then [ToolResult(c.toolUseId, c.content, c.isError == Some(true))] else []
  }

  function ToolUses(content: seq<Content>): seq<ToolCall> {
    FlatMap(content, UseIn())
  }

  function JoinLines(texts: seq<string>): string {
    if texts == [] then "" else if |texts| == 1 then texts[0] else texts[0] + "\n" + JoinLines(texts[1..])
  }

  function ContentToText(content: seq<Content>): string {
    JoinLines(FlatMap(content, TextIn()))
  }

  /** Joining texts puts a line break between any two of them and nowhere else. */
  lemma {:induction false} LinesJoin(a: seq<string>, b: seq<string>, t: string)
    ensures JoinLines([]) == "" && JoinLines([t]) == t
    ensures a != [] && b != [] ==> JoinLines(a + b) == JoinLines(a) + "\n" + JoinLines(b)
  {
    if |a| == 1 && b != [] {
      assert (a + b)[1..] == b;
    } else if |a| > 1 && b != [] {
      LinesJoin(a[1..], b, t);
      assert (a + b)[1..] == a[1..] + b;
    }
  }

  /** The text of a reply: its text blocks, one to a line, and nothing else of it. */
  lemma {:induction false} TextIsThatOfTexts(a: seq<Content>, b: seq<Content>, t: string)
    ensures ContentToText([Text(t)]) == t
    ensures (forall c :: c in a ==> !c.Text?) ==> ContentToText(a) == "" && ContentToText(a + b) == ContentToText(b)
    ensures (exists c :: c in a && c.Text?) && (exists c :: c in b && c.Text?) ==>
              ContentToText(a + b) == ContentToText(a) + "\n" + ContentToText(b)
  {
    hide FlatMap;
    FlatMapSnoc([], Text(t), TextIn());
    FlatMapConcat(a, b, TextIn());
    LinesJoin(FlatMap(a, TextIn()), FlatMap(b, TextIn()), t);
    if forall c :: c in a ==> !c.Text? {
      FlatMapNothing(a, TextIn());
      assert [] + FlatMap(b, TextIn()) == FlatMap(b, TextIn());
    } else {
      HasText(a);
    }
    if exists c :: c in b && c.Text? {
      HasText(b);
    }
  }

  lemma {:induction false} HasText(a: seq<Content>)
    requires exists c :: c in a && c.Text?
    ensures FlatMap(a, TextIn()) != []
  {
    var front, last := a[..|a| - 1], a[|a| - 1];
    if !last.Text? {
      assert a == front + [last];
      HasText(front);
    }
  }

  function ContentIn(): AnthropicMessage -> seq<Content> {
    (m: AnthropicMessage) => m.content
  }

  /** Each extractor reads back its own kind of block and nothing else. */
  lemma {:induction false} ExtractKinds(texts: seq<string>, calls: seq<ToolCall>, results: seq<ToolResult>)
    ensures FlatMap(FlatMap(texts, TextOf()), TextIn()) == texts
    ensures FlatMap(FlatMap(texts, TextOf()), UseIn()) == [] && FlatMap(FlatMap(texts, TextOf()), ResultIn()) == []
    ensures FlatMap(FlatMap(calls, UseOf()), UseIn()) == calls
    ensures FlatMap(FlatMap(calls, UseOf()), TextIn()) == [] && FlatMap(FlatMap(calls, UseOf()), ResultIn()) == []
    ensures FlatMap(FlatMap(results, ResultOf()), ResultIn()) == results
    ensures FlatMap(FlatMap(results, ResultOf()), TextIn()) == []
    ensures FlatMap(FlatMap(results, ResultOf()), UseIn()) == []
  {
    hide FlatMap;
    forall t: string ensures FlatMap(TextOf()(t), TextIn()) == [t]
      ensures FlatMap(TextOf()(t), UseIn()) == [] && FlatMap(TextOf()(t), ResultIn()) == []
    {
      FlatMapSnoc([], Text(t), TextIn());
      FlatMapSnoc([], Text(t), UseIn());
      FlatMapSnoc([], Text(t), ResultIn());
    }
    ReadBack(texts, TextOf(), TextIn());
    ReadNothing(texts, TextOf(), UseIn());
    ReadNothing(texts, TextOf(), ResultIn());
    forall c: ToolCall ensures FlatMap(UseOf()(c), UseIn()) == [c]
      ensures FlatMap(UseOf()(c), TextIn()) == [] && FlatMap(UseOf()(c), ResultIn()) == []
    {
      var u := ToolUse(c.id, c.name, c.arguments);
      FlatMapSnoc([], u, TextIn());
      FlatMapSnoc([], u, UseIn());
      FlatMapSnoc([], u, ResultIn());
    }
    ReadBack(calls, UseOf(), UseIn());
    ReadNothing(calls, UseOf(), TextIn());
    ReadNothing(calls, UseOf(), ResultIn());
    forall r: ToolResult ensures FlatMap(ResultOf()(r), ResultIn()) == [r]
      ensures FlatMap(ResultOf()(r), TextIn()) == [] && FlatMap(ResultOf()(r), UseIn()) == []
    {
      var c := ResultOf()(r)[0];
      FlatMapSnoc([], c, TextIn());
      FlatMapSnoc([], c, UseIn());
      FlatMapSnoc([], c, ResultIn());
    }
    ReadBack(results, ResultOf(), ResultIn());
    ReadNothing(results, ResultOf(), TextIn());
    ReadNothing(results, ResultOf(), UseIn());
  }

  lemma {:induction false} ReadBack<A, B>(s: seq<A>, f: A -> seq<B>, g: B -> seq<A>)
    requires forall x :: x in s ==> FlatMap(f(x), g) == [x]
    ensures FlatMap(FlatMap(s, f), g) == s
  {
    var same: A -> seq<A> := (x: A) => [x];
    Fusion(s, f, g, same);
    FlatMapIdentity(s, same);
  }

  lemma {:induction false} ReadNothing<A, B, C>(s: seq<A>, f: A -> seq<B>, g: B -> seq<C>)
    requires forall x :: x in s ==> FlatMap(f(x), g) == []
    ensures FlatMap(FlatMap(s, f), g) == []
  {
    var none: A -> seq<C> := (x: A) => [];
    Fusion(s, f, g, none);
    FlatMapNothing(s, none);
  }

  lemma {:induction false} ExtractContent(m: Message)
    ensures FlatMap(ContentOf()(m), TextIn()) == TextsIn()(m)
    ensures FlatMap(ContentOf()(m), UseIn()) == CallsIn()(m)
    ensures FlatMap(ContentOf()(m), ResultIn()) == ResultsIn()(m)
  {
    hide FlatMap, TextsIn, CallsIn, ResultsIn;
    var a, b, c := FlatMap(TextsIn()(m), TextOf()), FlatMap(CallsIn()(m), UseOf()), FlatMap(ResultsIn()(m), ResultOf());
    ExtractKinds(TextsIn()(m), CallsIn()(m), ResultsIn()(m));
    Three(a, b, c, TextIn());
    Three(a, b, c, UseIn());
    Three(a, b, c, ResultIn());
  }

  lemma {:induction false} Three<A, B>(a: seq<A>, b: seq<A>, c: seq<A>, f: A -> seq<B>)
    ensures FlatMap(a + b + c, f) == FlatMap(a, f) + FlatMap(b, f) + FlatMap(c, f)
  {
    FlatMapConcat(a, b, f);
    FlatMapConcat(a + b, c, f);
  }

  /** Dropping empty messages drops no content. */
  lemma {:induction false} TranscriptContent(ms: seq<Message>)
    ensures FlatMap(FlatMap(ms, Translated()), ContentIn()) == FlatMap(ms, ContentOf())
  {
    hide FlatMap, ContentOf;
    forall m: Message ensures FlatMap(Translated()(m), ContentIn()) == ContentOf()(m) {
      FlatMapNothing([], ContentIn());
      FlatMapSnoc([], AnthropicMessage(m.role, ContentOf()(m)), ContentIn());
    }
    Fusion(ms, Translated(), ContentIn(), ContentOf());
  }

  /** Translation loses nothing and reorders nothing: the tool calls, tool results and nonempty texts read back
      from the translated transcript are those of the conversation, although empty messages are dropped. */
  lemma {:induction false} AnthropicLosesNothing(ms: seq<Message>)
    ensures var transcript := FlatMap(FlatMap(ms, Translated()), ContentIn());
            && ToolUses(transcript) == FlatMap(ms, CallsIn())
            && FlatMap(transcript, TextIn()) == FlatMap(ms, TextsIn())
            && FlatMap(transcript, ResultIn()) == FlatMap(ms, ResultsIn())
  {
    hide FlatMap, ContentOf, Translated;
    TranscriptContent(ms);
    forall m: Message
      ensures FlatMap(ContentOf()(m), UseIn()) == CallsIn()(m)
      ensures FlatMap(ContentOf()(m), TextIn()) == TextsIn()(m)
      ensures FlatMap(ContentOf()(m), ResultIn()) == ResultsIn()(m)
    {
      ExtractContent(m);
    }
    Fusion(ms, ContentOf(), UseIn(), CallsIn());
    Fusion(ms, ContentOf(), TextIn(), TextsIn());
    Fusion(ms, ContentOf(), ResultIn(), ResultsIn());
  }

  /** Who speaks in a message that says something. */
  function SpeakerIn(): Message -> seq<string> {
    (m: Message) => if TextsIn()(m) == [] && CallsIn()(m) == [] && ResultsIn()(m) == [] then [] else [m.role]
  }

  function RoleIn(): AnthropicMessage -> seq<string> {
    (m: AnthropicMessage) => [m.role]
  }

  /** A message has content exactly when it says something. */
  lemma {:induction false} SaysSomething(m: Message)
    ensures ContentOf()(m) == [] <==> TextsIn()(m) == [] && CallsIn()(m) == [] && ResultsIn()(m) == []
    ensures PartsOf()(m) == [] <==> TextsIn()(m) == [] && CallsIn()(m) == [] && ResultsIn()(m) == []
  {
    hide FlatMap, TextsIn, CallsIn, ResultsIn, Sanitize;
    OneEach(TextsIn()(m), TextOf());
    OneEach(CallsIn()(m), UseOf());
    OneEach(ResultsIn()(m), ResultOf());
    OneEach(TextsIn()(m), TextPartOf());
    OneEach(CallsIn()(m), CallPart());
    OneEach(ResultsIn()(m), ResponsePart());
  }

  lemma {:induction false} OneEach<A, B>(s: seq<A>, f: A -> seq<B>)
    requires forall x :: x in s ==> |f(x)| == 1
    ensures |FlatMap(s, f)| == |s|
  {
    if s != [] {
      OneEach(s[..|s| - 1], f);
    }
  }

  /** The messages that say something keep their roles, in order, and the others are gone. */
  lemma {:induction false} AnthropicKeepsRoles(ms: seq<Message>)
    ensures FlatMap(FlatMap(ms, Translated()), RoleIn()) == FlatMap(ms, SpeakerIn())
  {
    hide FlatMap, ContentOf, TextsIn, CallsIn, ResultsIn;
    forall m: Message ensures FlatMap(Translated()(m), RoleIn()) == SpeakerIn()(m) {
      SaysSomething(m);
      FlatMapNothing([], RoleIn());
      FlatMapSnoc([], AnthropicMessage(m.role, ContentOf()(m)), RoleIn());
    }
    Fusion(ms, Translated(), RoleIn(), SpeakerIn());
  }

  // ----- Gemini -----

  datatype Part =
    | TextPart(text: string)
    | FunctionCall(name: string, args: string)
    | FunctionResponse(name: string, result: string, isError: bool)

  datatype GeminiContent = GeminiContent(role: string, parts: seq<Part>)

  function Replace(s: string, from: char, to: char): (r: string)
    ensures |r| == |s| && forall i :: 0 <= i < |s| ==> r[i] == if s[i] == from then to else s[i]
  {
    seq(|s|, i requires 0 <= i < |s| => if s[i] == from then to else s[i])
  }

  function Sanitize(name: string): string {
    Replace(name, '-', '_')
  }

  function Unsanitize(name: string): string {
    Replace(name, '_', '-')
  }

  /** A tool name survives the trip to Gemini and back exactly when it has no underscore. */
  lemma {:induction false} NameRoundTripIff(name: string)
    ensures Unsanitize(Sanitize(name)) == name <==> '_' !in name
  {
    var back := Unsanitize(Sanitize(name));
    if '_' in name {
      var i :| 0 <= i < |name| && name[i] == '_';
      assert back[i] == '-';
    }
  }

  function CallPart(): ToolCall -> seq<Part> {
    (c: ToolCall) => [FunctionCall(Sanitize(c.name), c.arguments)]
  }

  function ResponsePart(): ToolResult -> seq<Part> {
    (r: ToolResult) => [FunctionResponse(Sanitize(r.toolCallId), r.content, r.isError)]
  }

  function TextPartOf(): string -> seq<Part> {
    (t: string) => [TextPart(t)]
  }

  function PartsOf(): Message -> seq<Part> {
    (m: Message) =>
      FlatMap(TextsIn()(m), TextPartOf()) + FlatMap(CallsIn()(m), CallPart()) + FlatMap(ResultsIn()(m), ResponsePart())
  }

  function ToGemini(): Message -> seq<GeminiContent> {
    (m: Message) =>
      if PartsOf()(m) == [] then []
      else [GeminiContent(if m.role == "assistant" then "model" else m.role, PartsOf()(m))]
  }

  method UnifiedToGeminiContents(messages: seq<Message>) returns (contents: seq<GeminiContent>)
    ensures contents == FlatMap(messages, ToGemini())
  {
    contents := [];
    for i := 0 to |messages|
      invariant contents == FlatMap(messages[..i], ToGemini())
    {
      var msg := messages[i];
      var role := if msg.role == "assistant" then "model" else msg.role;
      var parts := MessageParts(msg);
      if parts != [] {
        contents := contents + [GeminiContent(role, parts)];
      }
      FlatMapSnoc(messages[..i], msg, ToGemini());
      assert messages[..i + 1] == messages[..i] + [msg];
    }
    assert messages[..|messages|] == messages;
  }

  /** A tool result as Gemini takes it, named after the call id. */
  ghost predicate IsResponse(r: ToolResult, p: Part) {
    p == FunctionResponse(Replace(r.toolCallId, '-', '_'), r.content, r.isError)
  }

  method MessageParts(msg: Message) returns (parts: seq<Part>)
    ensures parts == PartsOf()(msg)
    ensures var calls, results := OrEmpty(msg.toolCalls), OrEmpty(msg.toolResults);
            var t := if msg.content.Some? && msg.content.value != "" then 1 else 0;
            && |parts| == t + |calls| + |results|
            && (t == 1 ==> parts[0] == TextPart(msg.content.value))
            && (forall i :: 0 <= i < |calls| ==>
                  parts[t + i] == FunctionCall(Replace(calls[i].name, '-', '_'), calls[i].arguments))
            && (forall i :: 0 <= i < |results| ==> IsResponse(results[i], parts[t + |calls| + i]))
  {
    hide FlatMap, Sanitize;
    parts := [];
    FlatMapNothing([], TextPartOf());
    if msg.content.Some? && msg.content.value != "" {
      FlatMapSnoc([], msg.content.value, TextPartOf());
      parts := [TextPart(msg.content.value)];
    }
    assert parts == FlatMap(TextsIn()(msg), TextPartOf());
    var calls := FunctionCallsOf(OrEmpty(msg.toolCalls));
    parts := parts + calls;
    var responses := FunctionResponsesOf(OrEmpty(msg.toolResults));
    parts := parts + responses;
  }

  method FunctionCallsOf(calls: seq<ToolCall>) returns (parts: seq<Part>)
    ensures parts == FlatMap(calls, CallPart())
    ensures |parts| == |calls|
    ensures forall i :: 0 <= i < |calls| ==>
              parts[i] == FunctionCall(Replace(calls[i].name, '-', '_'), calls[i].arguments)
  {
    hide FlatMap;
    parts := [];
    FlatMapNothing([], CallPart());
    for j := 0 to |calls|
      invariant parts == FlatMap(calls[..j], CallPart()) && |parts| == j
      invariant forall i :: 0 <= i < j ==>
                  parts[i] == FunctionCall(Replace(calls[i].name, '-', '_'), calls[i].arguments)
    {
      FlatMapSnoc(calls[..j], calls[j], CallPart());
      assert calls[..j + 1] == calls[..j] + [calls[j]];
      parts := parts + [FunctionCall(Sanitize(calls[j].name), calls[j].arguments)];
    }
    assert calls[..|calls|] == calls;
  }

  method FunctionResponsesOf(results: seq<ToolResult>) returns (parts: seq<Part>)
    ensures parts == FlatMap(results, ResponsePart())
    ensures |parts| == |results| && forall i :: 0 <= i < |results| ==> IsResponse(results[i], parts[i])
  {
    hide FlatMap;
    parts := [];
    FlatMapNothing([], ResponsePart());
    for j := 0 to |results|
      invariant parts == FlatMap(results[..j], ResponsePart()) && |parts| == j
      invariant forall i :: 0 <= i < j ==> IsResponse(results[i], parts[i])
    {
      FlatMapSnoc(results[..j], results[j], ResponsePart());
      assert results[..j + 1] == results[..j] + [results[j]];
      parts := parts + [FunctionResponse(Sanitize(results[j].toolCallId), results[j].content, results[j].isError)];
    }
    assert results[..|results|] == results;
  }

  function PartsIn(): GeminiContent -> seq<Part> {
    (c: GeminiContent) => c.parts
  }

  /** A call read back from a part, as (name, arguments); its id is generated afresh. */
  function FunctionCallIn(): Part -> seq<(string, string)> {
    (p: Part) => if p.FunctionCall? then [(Unsanitize(p.name), p.args)] else []
  }

  /** What comes back from a call, and what went in. */
  function Mangled(): ToolCall -> seq<(string, string)> {
    (c: ToolCall) => [(Unsanitize(Sanitize(c.name)), c.arguments)]
  }

  function Intact(): ToolCall -> seq<(string, string)> {
    (c: ToolCall) => [(c.name, c.arguments)]
  }

  function TextPartIn(): Part -> seq<string> {
    (p: Part) => if p.TextPart? then [p.text] else []
  }

  /** A result as a response part carries it: under a name made from the call id. */
  function ResponseIn(): Part -> seq<(string, string, bool)> {
    (p: Part) => if p.FunctionResponse? then [(p.name, p.result, p.isError)] else []
  }

  function Renamed(): ToolResult -> seq<(string, string, bool)> {
    (r: ToolResult) => [(Sanitize(r.toolCallId), r.content, r.isError)]
  }

  /** Each extractor reads its own kind of part and nothing else. */
  lemma {:induction false} PartsOfMessage(m: Message)
    ensures FlatMap(PartsOf()(m), FunctionCallIn()) == FlatMap(CallsIn()(m), Mangled())
    ensures FlatMap(PartsOf()(m), TextPartIn()) == TextsIn()(m)
    ensures FlatMap(PartsOf()(m), ResponseIn()) == FlatMap(ResultsIn()(m), Renamed())
  {
    hide FlatMap, TextsIn, CallsIn, ResultsIn, Sanitize, Unsanitize;
    var texts, calls, results := TextsIn()(m), CallsIn()(m), ResultsIn()(m);
    var a, b, c := FlatMap(texts, TextPartOf()), FlatMap(calls, CallPart()), FlatMap(results, ResponsePart());
    forall t: string
      ensures FlatMap(TextPartOf()(t), FunctionCallIn()) == [] && FlatMap(TextPartOf()(t), ResponseIn()) == []
      ensures FlatMap(TextPartOf()(t), TextPartIn()) == [t]
    {
      FlatMapSnoc([], TextPart(t), FunctionCallIn());
      FlatMapSnoc([], TextPart(t), ResponseIn());
      FlatMapSnoc([], TextPart(t), TextPartIn());
    }
    ReadNothing(texts, TextPartOf(), FunctionCallIn());
    ReadNothing(texts, TextPartOf(), ResponseIn());
    ReadBack(texts, TextPartOf(), TextPartIn());
    forall r: ToolResult
      ensures FlatMap(ResponsePart()(r), FunctionCallIn()) == [] && FlatMap(ResponsePart()(r), TextPartIn()) == []
      ensures FlatMap(ResponsePart()(r), ResponseIn()) == Renamed()(r)
    {
      FlatMapSnoc([], ResponsePart()(r)[0], FunctionCallIn());
      FlatMapSnoc([], ResponsePart()(r)[0], TextPartIn());
      FlatMapSnoc([], ResponsePart()(r)[0], ResponseIn());
    }
    ReadNothing(results, ResponsePart(), FunctionCallIn());
    ReadNothing(results, ResponsePart(), TextPartIn());
    Fusion(results, ResponsePart(), ResponseIn(), Renamed());
    forall k: ToolCall
      ensures FlatMap(CallPart()(k), TextPartIn()) == [] && FlatMap(CallPart()(k), ResponseIn()) == []
      ensures FlatMap(CallPart()(k), FunctionCallIn()) == Mangled()(k)
    {
      FlatMapSnoc([], CallPart()(k)[0], TextPartIn());
      FlatMapSnoc([], CallPart()(k)[0], ResponseIn());
      FlatMapSnoc([], CallPart()(k)[0], FunctionCallIn());
    }
    ReadNothing(calls, CallPart(), TextPartIn());
    ReadNothing(calls, CallPart(), ResponseIn());
    Fusion(calls, CallPart(), FunctionCallIn(), Mangled());
    Three(a, b, c, FunctionCallIn());
    Three(a, b, c, TextPartIn());
    Three(a, b, c, ResponseIn());
  }

  function GeminiRoleIn(): GeminiContent -> seq<string> {
    (c: GeminiContent) => [c.role]
  }

  /** Who speaks, in Gemini's words. */
  function GeminiSpeakerIn(): Message -> seq<string> {
    (m: Message) =>
      if SpeakerIn()(m) == [] then [] else if m.role == "assistant" then ["model"] else [m.role]
  }

  lemma {:induction false} GeminiKeepsRoles(ms: seq<Message>)
    ensures FlatMap(FlatMap(ms, ToGemini()), GeminiRoleIn()) == FlatMap(ms, GeminiSpeakerIn())
  {
    hide FlatMap, PartsOf, TextsIn, CallsIn, ResultsIn;
    forall m: Message ensures FlatMap(ToGemini()(m), GeminiRoleIn()) == GeminiSpeakerIn()(m) {
      SaysSomething(m);
      FlatMapNothing([], GeminiRoleIn());
      var role := if m.role == "assistant" then "model" else m.role;
      FlatMapSnoc([], GeminiContent(role, PartsOf()(m)), GeminiRoleIn());
      assert GeminiRoleIn()(GeminiContent(role, PartsOf()(m))) == [role];
      assert SpeakerIn()(m) == [] <==> PartsOf()(m) == [];
    }
    Fusion(ms, ToGemini(), GeminiRoleIn(), GeminiSpeakerIn());
  }

  lemma {:induction false} GeminiParts(ms: seq<Message>)
    ensures FlatMap(FlatMap(ms, ToGemini()), PartsIn()) == FlatMap(ms, PartsOf())
  {
    hide FlatMap, PartsOf;
    forall m: Message ensures FlatMap(ToGemini()(m), PartsIn()) == PartsOf()(m) {
      FlatMapNothing([], PartsIn());
      FlatMapSnoc([], GeminiContent(if m.role == "assistant" then "model" else m.role, PartsOf()(m)), PartsIn());
    }
    Fusion(ms, ToGemini(), PartsIn(), PartsOf());
  }

  /** Nothing is lost and nothing reordered: texts come back as they were, calls with their arguments and results
      with their contents; only names can change. */
  lemma {:induction false} GeminiLosesNothing(ms: seq<Message>)
    ensures var parts := FlatMap(FlatMap(ms, ToGemini()), PartsIn());
            && FlatMap(parts, TextPartIn()) == FlatMap(ms, TextsIn())
            && FlatMap(parts, FunctionCallIn()) == FlatMap(FlatMap(ms, CallsIn()), Mangled())
            && FlatMap(parts, ResponseIn()) == FlatMap(FlatMap(ms, ResultsIn()), Renamed())
  {
    hide FlatMap, PartsOf, CallsIn, ResultsIn, TextsIn, Mangled, Renamed, TextPartIn, ResponseIn, FunctionCallIn;
    var calls := (m: Message) => FlatMap(CallsIn()(m), Mangled());
    var results := (m: Message) => FlatMap(ResultsIn()(m), Renamed());
    GeminiParts(ms);
    forall m: Message
      ensures FlatMap(PartsOf()(m), FunctionCallIn()) == calls(m)
      ensures FlatMap(PartsOf()(m), TextPartIn()) == TextsIn()(m)
      ensures FlatMap(PartsOf()(m), ResponseIn()) == results(m)
    {
      PartsOfMessage(m);
    }
    Fusion(ms, PartsOf(), FunctionCallIn(), calls);
    Fusion(ms, CallsIn(), Mangled(), calls);
    Fusion(ms, PartsOf(), TextPartIn(), TextsIn());
    Fusion(ms, PartsOf(), ResponseIn(), results);
    Fusion(ms, ResultsIn(), Renamed(), results);
  }

  /** Equal but for hyphens in one where the other has underscores. */
  ghost predicate SameButDashes(a: string, b: string) {
    |a| == |b| && forall i :: 0 <= i < |a| ==> a[i] == b[i] || (a[i] in "-_" && b[i] in "-_")
  }

  /** Gemini pairs a response with its call by function name. The response is named after the call id, so the two
      agree exactly when the id spells the tool name; an id of the form the translator generates then needs a
      tool whose own name starts with "call". */
  lemma {:induction false} ResponseNamesCallIff(call: ToolCall, result: ToolResult)
    requires result.toolCallId == call.id
    ensures ResponsePart()(result)[0].name == CallPart()(call)[0].name <==> SameButDashes(call.id, call.name)
    ensures "call_" <= call.id && SameButDashes(call.id, call.name) ==> "call" <= call.name
  {
    hide Replace;
    var a, b := Sanitize(call.id), Sanitize(call.name);
    if SameButDashes(call.id, call.name) {
      assert a == b;
      if "call_" <= call.id {
        assert call.id[0] == 'c' && call.id[1] == 'a' && call.id[2] == 'l' && call.id[3] == 'l';
        assert call.name[..4] == "call";
      }
    } else if a == b {
      var i :| 0 <= i < |call.id| && call.id[i] != call.name[i] && !(call.id[i] in "-_" && call.name[i] in "-_");
      assert a[i] == b[i];
    }
  }

  lemma {:induction false} MangledIntactIff(cs: seq<ToolCall>)
    ensures |FlatMap(cs, Mangled())| == |FlatMap(cs, Intact())| == |cs|
    ensures FlatMap(cs, Mangled()) == FlatMap(cs, Intact()) <==> forall c :: c in cs ==> '_' !in c.name
  {
    hide Sanitize, Unsanitize;
    if cs != [] {
      var front, last := cs[..|cs| - 1], cs[|cs| - 1];
      MangledIntactIff(front);
      NameRoundTripIff(last.name);
      var a, b := FlatMap(cs, Mangled()), FlatMap(cs, Intact());
      assert a[..|front|] == FlatMap(front, Mangled()) && b[..|front|] == FlatMap(front, Intact());
      assert a == b <==> a[..|front|] == b[..|front|] && a[|front|] == b[|front|];
      assert forall c :: c in cs <==> c in front || c == last;
    }
  }

  /** A conversation's tool calls round-trip through Gemini exactly when no tool name has an underscore. */
  lemma {:induction false} GeminiRoundTripIff(ms: seq<Message>)
    ensures FlatMap(FlatMap(FlatMap(ms, ToGemini()), PartsIn()), FunctionCallIn()) ==
            FlatMap(FlatMap(ms, CallsIn()), Intact())
            <==> forall c :: c in FlatMap(ms, CallsIn()) ==> '_' !in c.name
  {
    hide FlatMap;
    GeminiLosesNothing(ms);
    MangledIntactIff(FlatMap(ms, CallsIn()));
  }
}
