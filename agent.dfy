/**
 * One agent turn: the message-history state machine of `agent_loop`
 * (crypto_trading_agent.py). The history only grows; a tool-call round gets
 * exactly one correlated tool message per requested call, in request order;
 * a failure of the model service ends in the fallback text.
 */
module Agent {
  import opened Wrappers
  import opened PyDict
  import opened JsonValues
  import opened Registry
  import opened Invocation
  import opened Snapshot

  /** A tool call the model requests: its id, the function name and the raw JSON argument text. */
  datatype ToolCall = ToolCall(id: string, name: string, arguments: string)

  /** The model's message: its text and, when it asks for tools, the calls. */
  datatype ModelMessage = ModelMessage(content: string, toolCalls: Option<seq<ToolCall>>)

  /** A completion: the first choice's message and finish reason, or a failed call to the service. */
  datatype Completion = Completed(message: ModelMessage, finishReason: string) | ServiceFailed(reason: string)

  /** What the core sends the model: the history and the offered tool schemas (None: no `tools` field). */
  datatype Message =
    | SystemMessage(content: string)
    | UserMessage(content: string)
    | AssistantReply(content: string)       // `{"role": "assistant", "content": ...}` holding the final reply
    | ModelTurn(message: ModelMessage)      // the model's own message object (also role "assistant"), appended as it came
    | ToolMessage(toolCallId: string, name: string, content: string)

  datatype Request = Request(messages: seq<Message>, tools: Option<seq<Schema>>)

  /** The completion service, seen from the core. */
  type ModelService = Request -> Completion

  /**
   * Everything outside the core that a turn talks to. `moduleName` is the name of
   * the module the agent runs as: `__main__` from the command line,
   * `crypto_trading_agent` when imported; Python puts it in front of a
   * function's qualified name in a call's `TypeError`.
   */
  datatype Services = Services(model: ModelService, session: Session, codec: Codec, moduleName: string)

  /** The tools of both servers in one map; binance's entry wins on a shared key. */
  function Merge(crypto: Registry, binance: Registry): Registry {
    Update(Update([], crypto), binance)
  }

  lemma MergePrefersBinance(crypto: Registry, binance: Registry, k: string)
    requires Unique(crypto) && Unique(binance)
    ensures Get(Merge(crypto, binance), k) == if k in Keys(binance) then Get(binance, k) else Get(crypto, k)
    ensures k in Keys(Merge(crypto, binance)) <==> k in Keys(crypto) || k in Keys(binance)
    ensures Unique(Merge(crypto, binance))
  {
    UpdateGet([], crypto, k);
    UpdateGet(Update([], crypto), binance, k);
    UpdateKeys([], crypto);
    UpdateKeys(Update([], crypto), binance);
  }

  /** `f"{t['name']}: {description}"` for one entry; an alias entry shows its canonical name. */
  function CatalogLine(e: ToolEntry): string {
    e.name + ": " + e.schema.fn.description
  }

  function CatalogLines(es: seq<ToolEntry>): (r: seq<string>)
    ensures |r| == |es|
    ensures forall i :: 0 <= i < |es| ==> r[i] == CatalogLine(es[i])
  {
    if es == [] then [] else [CatalogLine(es[0])] + CatalogLines(es[1..])
  }

  /** The tool catalog of the system message: one line per entry, in map order, joined by "\n- ". */
  function Catalog(all: Registry): string {
    Text.Join("\n- ", CatalogLines(Values(all)))
  }

  /** The catalog has one line per key, in key order, each naming the entry stored there. */
  lemma CatalogCoversEveryKey(all: Registry, i: nat)
    requires i < |all|
    ensures |CatalogLines(Values(all))| == |all|
    ensures CatalogLines(Values(all))[i] == all[i].1.name + ": " + all[i].1.schema.fn.description
  {
    KeysAt(all, i);
  }

  /** One more key adds the separator "\n- " and that entry's line at the end of the catalog. */
  lemma CatalogSnoc(all: Registry, item: (string, ToolEntry))
    requires all != []
    ensures Catalog(all + [item]) == Catalog(all) + "\n- " + CatalogLine(item.1)
  {
    var vs, vs' := Values(all), Values(all + [item]);
    KeysLength(all);
    KeysLength(all + [item]);
    forall i | 0 <= i < |vs'|
      ensures vs'[i] == (vs + [item.1])[i]
    {
      KeysAt(all + [item], i);
      if i < |all| {
        KeysAt(all, i);
      }
    }
    assert vs' == vs + [item.1];
    assert CatalogLines(vs') == CatalogLines(vs) + [CatalogLine(item.1)];
    Text.JoinSnoc("\n- ", CatalogLines(vs), CatalogLine(item.1));
  }

  const PromptHead: string :=
    "You are a crypto trading assistant that analyzes markets and helps execute trades on Binance Futures.\n\n"
    + "You have access to two specialized servers:\n"
    + "1. Crypto Market Analysis MCP Server - for analyzing market data, technical indicators, and price patterns\n"
    + "2. Binance Futures Trading MCP Server - for executing trades and managing positions on Binance USDM Futures\n\n"
    + "Available tools:\n"
  const PromptPositions: string := "\n\nCurrent open positions:\n"
  const PromptOrders: string := "\n\nPending orders:\n"
  const PromptTail: string :=
    "\n\nPlease analyze the market data carefully before suggesting any trades. If the user asks you to place a trade:\n"
    + "1. Always check current market conditions using the crypto analysis tools\n"
    + "2. Look at technical indicators, support/resistance levels, and market sentiment\n"
    + "3. Consider risk management - never risk more than 2% of the account on a single trade\n"
    + "4. Provide a clear explanation of your trading rationale\n"
    + "5. Execute trades precisely as described\n\n"
    + "Remember that you're dealing with real money, so be conservative and prioritize capital preservation.\n"

  /** `SYSTEM_PROMPT.format(tools=..., positions=..., orders=...)`. */
  function SystemPrompt(all: Registry, state: MarketState, codec: Codec): string {
    PromptHead + Catalog(all) + PromptPositions + codec.encodeIndented(state.positions)
      + PromptOrders + codec.encodeIndented(state.orders) + PromptTail
  }

  /** The first request offers every entry's schema in map order, or no tools field when the map is empty. */
  function Offered(all: Registry): (r: Option<seq<Schema>>)
    ensures r.None? <==> |all| == 0
    ensures r.Some? ==> |r.value| == |all| && forall i :: 0 <= i < |all| ==> r.value[i] == all[i].1.schema
  {
    if |all| > 0 then Some(seq(|all|, i requires 0 <= i < |all| => all[i].1.schema)) else None
  }

  /** The stop reason: "tool_calls" when the message carries tool calls, else the finish reason. */
  function StopReason(m: ModelMessage, finishReason: string): (r: string)
    ensures r == "tool_calls" <==> m.toolCalls.Some? || finishReason == "tool_calls"
    ensures r == "stop" <==> m.toolCalls.None? && finishReason == "stop"
  {
    if m.toolCalls.Some? then "tool_calls" else finishReason
  }

  /** The arguments a call is run with: the decoded JSON, or `{}` when the text is not JSON. */
  function CallArguments(call: ToolCall, codec: Codec): Json {
    codec.decode(call.arguments).GetOr(JObj([]))
  }

  /** The `TypeError` text of `callable(**arguments)` when the arguments are not a dict. */
  function NotAMapping(moduleName: string, arguments: Json): string {
    moduleName + ".MCPClient.call_tool.<locals>.callable() argument after ** must be a mapping, not " + TypeName(arguments)
  }

  /**
   * The result object answering one call: an unknown name gets a not-found
   * error; arguments that are not a dict make the call raise; otherwise the
   * entry's callable runs with the decoded arguments, or with none when the
   * argument text is not JSON.
   */
  function ToolResult(call: ToolCall, all: Registry, services: Services): Json {
    match Get(all, call.name)
    case None => ErrorObject("Tool " + call.name + " not found")
    case Some(e) =>
      match CallArguments(call, services.codec)
      case JObj(kwargs) => CallTool(e.server, e.name, kwargs, services.session, services.codec)
      case other => ErrorObject("Error executing " + call.name + ": " + NotAMapping(services.moduleName, other))
  }

  /** A name missing from the merged map is answered with a not-found error. */
  lemma UnknownTool(call: ToolCall, all: Registry, services: Services)
    requires Get(all, call.name).None?
    ensures ToolResult(call, all, services) == ErrorObject("Tool " + call.name + " not found")
  {
  }

  /** Arguments that decode to anything but an object make the call raise before it starts. */
  lemma ArgumentsNotAMapping(call: ToolCall, all: Registry, services: Services)
    requires Get(all, call.name).Some? && !CallArguments(call, services.codec).JObj?
    ensures ToolResult(call, all, services) ==
      ErrorObject("Error executing " + call.name + ": " + NotAMapping(services.moduleName, CallArguments(call, services.codec)))
  {
  }

  /** Argument text that is not JSON runs the tool with no arguments. */
  lemma MalformedArguments(call: ToolCall, all: Registry, services: Services)
    requires Get(all, call.name).Some? && services.codec.decode(call.arguments).None?
    ensures var e := Get(all, call.name).value;
      ToolResult(call, all, services) == CallTool(e.server, e.name, [], services.session, services.codec)
  {
    assert CallArguments(call, services.codec) == JObj([]);
  }

  /** The tool message answering one call, whatever happens: it carries the call's id and name. */
  function ToolReply(call: ToolCall, all: Registry, services: Services): (r: Message)
    ensures r.ToolMessage? && r.toolCallId == call.id && r.name == call.name
    ensures r.content == services.codec.encode(ToolResult(call, all, services))
  {
    ToolMessage(call.id, call.name, services.codec.encode(ToolResult(call, all, services)))
  }

  /** The tool messages of one round, in the order the calls were requested. */
  function ToolReplies(calls: seq<ToolCall>, all: Registry, services: Services): seq<Message> {
    if calls == [] then []
    else ToolReplies(calls[..|calls| - 1], all, services) + [ToolReply(calls[|calls| - 1], all, services)]
  }

  /** One tool message per call, the i-th carrying the i-th call's id and name. */
  predicate Correlated(replies: seq<Message>, calls: seq<ToolCall>) {
    && |replies| == |calls|
    && forall i :: 0 <= i < |calls| ==>
         replies[i].ToolMessage? && replies[i].toolCallId == calls[i].id && replies[i].name == calls[i].name
  }

  /** Exactly one reply per call, the i-th answering the i-th call with its id and name. */
  lemma {:induction false} ToolRepliesCorrelated(calls: seq<ToolCall>, all: Registry, services: Services)
    ensures Correlated(ToolReplies(calls, all, services), calls)
    ensures forall i :: 0 <= i < |calls| ==> ToolReplies(calls, all, services)[i] == ToolReply(calls[i], all, services)
  {
    var rs := ToolReplies(calls, all, services);
    if calls != [] {
      var n := |calls| - 1;
      ToolRepliesCorrelated(calls[..n], all, services);
      assert rs == ToolReplies(calls[..n], all, services) + [ToolReply(calls[n], all, services)];
      forall i | 0 <= i < |calls|
        ensures rs[i] == ToolReply(calls[i], all, services)
      {
        if i < n {
          assert calls[..n][i] == calls[i];
        }
      }
    }
    forall i | 0 <= i < |calls|
      ensures rs[i].ToolMessage? && rs[i].toolCallId == calls[i].id && rs[i].name == calls[i].name
    {
      assert rs[i] == ToolReply(calls[i], all, services);
    }
  }

  lemma ToolRepliesStep(calls: seq<ToolCall>, i: nat, all: Registry, services: Services)
    requires i < |calls|
    ensures ToolReplies(calls[..i + 1], all, services) == ToolReplies(calls[..i], all, services) + [ToolReply(calls[i], all, services)]
  {
    assert calls[..i + 1][..i] == calls[..i];
  }

  const FallbackIntro: string :=
    "I apologize, but I'm having trouble connecting to my reasoning services. Here's what I can do based on my available tools:\n\n"
  const CryptoHeader: string := "From crypto analysis server:\n"
  const BinanceHeader: string := "\nFrom Binance Futures server:\n"
  const RetryText: string := "\nPlease try a more specific command using one of these tools, or try again later."

  /** `- name: description` for one key of a server's map, aliases included. */
  function ToolLine(item: (string, ToolEntry)): string {
    "- " + item.0 + ": " + item.1.schema.fn.description + "\n"
  }

  function ToolLines(d: Registry): string {
    if d == [] then "" else ToolLines(d[..|d| - 1]) + ToolLine(d[|d| - 1])
  }

  /** The fallback reply: crypto tools, then binance tools, then the retry sentence. */
  function FallbackText(crypto: Registry, binance: Registry): string {
    FallbackIntro + CryptoHeader + ToolLines(crypto) + BinanceHeader + ToolLines(binance) + RetryText
  }

  lemma {:induction false} ToolLinesConcat(a: Registry, b: Registry)
    ensures ToolLines(a + b) == ToolLines(a) + ToolLines(b)
    decreases |b|
  {
    if b != [] {
      var n := |b| - 1;
      assert (a + b)[..|a + b| - 1] == a + b[..n];
      ToolLinesConcat(a, b[..n]);
    } else {
      assert a + b == a;
    }
  }

  lemma ToolLinesSnoc(d: Registry, i: nat)
    requires i < |d|
    ensures ToolLines(d[..i + 1]) == ToolLines(d[..i]) + ToolLine(d[i])
  {
    assert d[..i + 1][..i] == d[..i];
  }

  /** A server's lines are those of the keys before a key, then that key's line, then those after. */
  lemma ToolLinesSplit(before: Registry, item: (string, ToolEntry), after: Registry)
    ensures ToolLines(before + [item] + after) == ToolLines(before) + ToolLine(item) + ToolLines(after)
  {
    var head := before + [item];
    assert head[..|head| - 1] == before;
    ToolLinesConcat(head, after);
  }

  /** Appends one line per key of a server's map, in map order, as the source does with `+=`. */
  method AppendToolLines(text: string, d: Registry) returns (r: string)
    ensures r == text + ToolLines(d)
  {
    r := text;
    for i := 0 to |d|
      invariant r == text + ToolLines(d[..i])
    {
      ToolLinesSnoc(d, i);
      r := r + ToolLine(d[i]);
    }
    assert d[..|d|] == d;
  }

  /** Builds the fallback reply piece by piece. */
  method BuildFallback(crypto: Registry, binance: Registry) returns (text: string)
    ensures text == FallbackText(crypto, binance)
  {
    text := FallbackIntro + CryptoHeader;
    text := AppendToolLines(text, crypto);
    text := text + BinanceHeader;
    text := AppendToolLines(text, binance);
    text := text + RetryText;
  }

  /** What a turn returns: the reply text and the whole history afterwards. */
  datatype Turn = Turn(reply: string, messages: seq<Message>)

  /** The history the turn starts from: the given one, or a fresh one holding only the system message. */
  function StartHistory(prior: Option<seq<Message>>, all: Registry, state: MarketState, codec: Codec): seq<Message> {
    match prior
    case None => [SystemMessage(SystemPrompt(all, state, codec))]
    case Some(h) => h
  }

  /** The first request: the history with the user's message, offering every merged tool. */
  function FirstRequest(query: string, crypto: Registry, binance: Registry, state: MarketState,
                        prior: Option<seq<Message>>, codec: Codec): Request
  {
    var all := Merge(crypto, binance);
    Request(StartHistory(prior, all, state, codec) + [UserMessage(query)], Offered(all))
  }

  /**
   * The turn once the first request is built: what the model's answers make
   * of that request's history, with `all` the merged tools and `fallback` the
   * text returned whenever the model does not answer.
   */
  function Respond(first: Request, all: Registry, fallback: string, services: Services): Turn {
    var h1 := first.messages;
    match services.model(first)
    case ServiceFailed(_) => Turn(fallback, h1)
    case Completed(m, finish) =>
      var reason := StopReason(m, finish);
      if reason == "tool_calls" then
        var h2 := h1 + [ModelTurn(m)];
        match m.toolCalls
        case None => Turn(fallback, h2)   // iterating over no tool calls raises
        case Some(calls) =>
          var h3 := h2 + ToolReplies(calls, all, services);
          match services.model(Request(h3, None))
          case ServiceFailed(_) => Turn(fallback, h3)
          case Completed(m2, _) => Turn(m2.content, h3 + [AssistantReply(m2.content)])
      else if reason == "stop" then Turn(m.content, h1 + [AssistantReply(m.content)])
      else Turn(fallback, h1)
  }

  /** The whole turn, as a function of its inputs and of what the services answer. */
  function RunTurn(query: string, crypto: Registry, binance: Registry, state: MarketState,
                   prior: Option<seq<Message>>, services: Services): Turn
  {
    Respond(FirstRequest(query, crypto, binance, state, prior, services.codec),
            Merge(crypto, binance), FallbackText(crypto, binance), services)
  }

  /** The history only grows: the starting history and the user's message come first, unchanged. */
  lemma TurnOnlyAppends(query: string, crypto: Registry, binance: Registry, state: MarketState,
                        prior: Option<seq<Message>>, services: Services)
    ensures var t := RunTurn(query, crypto, binance, state, prior, services);
      StartHistory(prior, Merge(crypto, binance), state, services.codec) + [UserMessage(query)] <= t.messages
    ensures prior.Some? ==> prior.value <= RunTurn(query, crypto, binance, state, prior, services).messages
  {
    var first := FirstRequest(query, crypto, binance, state, prior, services.codec);
    RespondExtends(first, Merge(crypto, binance), FallbackText(crypto, binance), services);
  }

  lemma RespondExtends(first: Request, all: Registry, fallback: string, services: Services)
    ensures first.messages <= Respond(first, all, fallback, services).messages
  {
  }

  /** The model answered: a direct "stop", or a tool round whose second request completed. */
  predicate ModelAnswered(first: Request, all: Registry, services: Services) {
    match services.model(first)
    case ServiceFailed(_) => false
    case Completed(m, finish) =>
      match m.toolCalls
      case None => finish == "stop"
      case Some(calls) =>
        var h3 := first.messages + [ModelTurn(m)] + ToolReplies(calls, all, services);
        services.model(Request(h3, None)).Completed?
  }

  /**
   * After "stop" the turn appends exactly one assistant reply with that
   * response's content, and returns that content.
   */
  lemma StopTurn(first: Request, all: Registry, fallback: string, services: Services, m: ModelMessage)
    requires services.model(first) == Completed(m, "stop")
    requires m.toolCalls.None?
    ensures Respond(first, all, fallback, services) == Turn(m.content, first.messages + [AssistantReply(m.content)])
  {
  }

  /**
   * A tool round: the model's call message, then one tool message per call in
   * request order with the call's id and name, then one assistant reply with
   * the second response's content; the second request offers no tools.
   */
  lemma ToolCallTurn(first: Request, all: Registry, fallback: string, services: Services,
                     m: ModelMessage, finish: string, calls: seq<ToolCall>, m2: ModelMessage, finish2: string)
    requires services.model(first) == Completed(m, finish)
    requires m.toolCalls == Some(calls)
    requires services.model(Request(first.messages + [ModelTurn(m)] + ToolReplies(calls, all, services), None))
               == Completed(m2, finish2)
    ensures var replies := ToolReplies(calls, all, services);
      && Respond(first, all, fallback, services) ==
           Turn(m2.content, first.messages + [ModelTurn(m)] + replies + [AssistantReply(m2.content)])
      && Correlated(replies, calls)
  {
    ToolRepliesCorrelated(calls, all, services);
  }

  /** No tool message of a round is an assistant reply; the model's call message before them is a `ModelTurn`. */
  lemma {:induction false} RoundHasNoAssistant(calls: seq<ToolCall>, all: Registry, services: Services)
    ensures forall i :: 0 <= i < |ToolReplies(calls, all, services)| ==> !ToolReplies(calls, all, services)[i].AssistantReply?
  {
    ToolRepliesCorrelated(calls, all, services);
  }

  /**
   * When the model did not answer, the reply is the fallback text and no
   * assistant reply is appended. Whatever was appended before the failure
   * stays in the history: nothing after a failed first request or another stop
   * reason, the model's message when it claimed tool calls it did not carry,
   * and the call message with every tool message when the second request failed.
   */
  lemma {:induction false} UnansweredTurn(first: Request, all: Registry, fallback: string, services: Services)
    requires !ModelAnswered(first, all, services)
    ensures var t := Respond(first, all, fallback, services);
      && t.reply == fallback
      && forall i :: |first.messages| <= i < |t.messages| ==> !t.messages[i].AssistantReply?
    ensures var t := Respond(first, all, fallback, services);
      match services.model(first)
      case ServiceFailed(_) => t.messages == first.messages
      case Completed(m, finish) =>
        match m.toolCalls
        case None => t.messages == if finish == "tool_calls" then first.messages + [ModelTurn(m)] else first.messages
        case Some(calls) => t.messages == first.messages + [ModelTurn(m)] + ToolReplies(calls, all, services)
  {
    var h1 := first.messages;
    var t := Respond(first, all, fallback, services);
    match services.model(first)
    case ServiceFailed(_) =>
      assert t == Turn(fallback, h1);
    case Completed(m, finish) =>
      match m.toolCalls
      case None =>
        assert t == Turn(fallback, h1) || t == Turn(fallback, h1 + [ModelTurn(m)]);
      case Some(calls) =>
        var replies := ToolReplies(calls, all, services);
        RoundHasNoAssistant(calls, all, services);
        var h3 := h1 + [ModelTurn(m)] + replies;
        assert t == Turn(fallback, h3);
        forall i | |h1| <= i < |h3|
          ensures !h3[i].AssistantReply?
        {
          if i > |h1| {
            assert h3[i] == replies[i - |h1| - 1];
          }
        }
  }

  /** When the model answered, exactly one assistant reply is appended, last, holding the reply. */
  lemma {:induction false} AnsweredTurn(first: Request, all: Registry, fallback: string, services: Services)
    requires ModelAnswered(first, all, services)
    ensures var t := Respond(first, all, fallback, services);
      && |t.messages| > |first.messages|
      && t.messages[|t.messages| - 1] == AssistantReply(t.reply)
      && forall i :: |first.messages| <= i < |t.messages| - 1 ==> !t.messages[i].AssistantReply?
  {
    match services.model(first)
    case ServiceFailed(_) =>
    case Completed(m, finish) =>
      match m.toolCalls
      case None =>
      case Some(calls) =>
        var replies := ToolReplies(calls, all, services);
        RoundHasNoAssistant(calls, all, services);
        var h3 := first.messages + [ModelTurn(m)] + replies;
        forall i | |first.messages| <= i < |h3|
          ensures !h3[i].AssistantReply?
        {
          if i > |first.messages| {
            assert h3[i] == replies[i - |first.messages| - 1];
          }
        }
  }

  /** Answers every call of a round, in order, appending one tool message each. */
  method AnswerCalls(history: History, calls: seq<ToolCall>, all: Registry, services: Services)
    modifies history
    ensures history.messages == old(history.messages) + ToolReplies(calls, all, services)
  {
    for i := 0 to |calls|
      invariant history.messages == old(history.messages) + ToolReplies(calls[..i], all, services)
    {
      ToolRepliesStep(calls, i, all, services);
      history.Append(ToolReply(calls[i], all, services));
    }
    assert calls[..|calls|] == calls;
  }

  /** A conversation's message list, shared with the caller and appended to in place. */
  class History {
    var messages: seq<Message>

    constructor (initial: seq<Message>)
      ensures messages == initial
    {
      messages := initial;
    }

    method Append(m: Message)
      modifies this
      ensures messages == old(messages) + [m]
    {
      messages := messages + [m];
    }
  }

  /**
   * `agent_loop`: appends to the caller's history (or a new one) in place and
   * returns the reply with that same history, exactly as `RunTurn` describes.
   */
  method AgentLoop(query: string, crypto: Registry, binance: Registry, state: MarketState,
                   prior: History?, services: Services) returns (reply: string, history: History)
    modifies prior
    ensures prior != null ==> history == prior
    ensures prior == null ==> fresh(history)
    ensures var t := RunTurn(query, crypto, binance, state, if prior == null then None else Some(old(prior.messages)), services);
      reply == t.reply && history.messages == t.messages
  {
    var all := Merge(crypto, binance);
    ghost var start := if prior == null then None else Some(prior.messages);
    if prior == null {
      history := new History([SystemMessage(SystemPrompt(all, state, services.codec))]);
    } else {
      history := prior;
    }
    history.Append(UserMessage(query));
    var first := services.model(Request(history.messages, Offered(all)));
    assert Request(history.messages, Offered(all)) == FirstRequest(query, crypto, binance, state, start, services.codec);
    if first.ServiceFailed? {
      reply := BuildFallback(crypto, binance);
      return;
    }
    var m := first.message;
    var reason := StopReason(m, first.finishReason);
    if reason == "tool_calls" {
      history.Append(ModelTurn(m));
      if m.toolCalls.None? {
        reply := BuildFallback(crypto, binance);
        return;
      }
      AnswerCalls(history, m.toolCalls.value, all, services);
      var second := services.model(Request(history.messages, None));
      if second.ServiceFailed? {
        reply := BuildFallback(crypto, binance);
        return;
      }
      reply := second.message.content;
      history.Append(AssistantReply(reply));
    } else if reason == "stop" {
      reply := m.content;
      history.Append(AssistantReply(reply));
    } else {
      reply := BuildFallback(crypto, binance);
    }
  }
}
