/**
 * The callable `MCPClient.call_tool(tool_name)` hands out: it normalises the
 * caller's keyword arguments for the provider, asks the session, and turns
 * every outcome into a return value (crypto_trading_agent.py, `call_tool`).
 */
module Invocation {
  import opened Wrappers
  import opened PyDict
  import opened JsonValues
  import opened Text

  /** What the session's `call_tool` gave within the 30-second limit. */
  datatype ToolOutcome =
    | TimedOut
    | Raised(message: string)
    | Responded(texts: seq<string>)   // the `text` of each content item, in order

  /** The request the session receives: server, tool name and the normalised arguments. */
  datatype ToolRequest = ToolRequest(server: string, tool: string, arguments: Dict<string, Json>)

  /** The MCP session, seen from the core: it answers each request with an outcome. */
  type Session = ToolRequest -> ToolOutcome

  const BinanceServer: string := "binance-futures"

  /** The call-level limit, `INITIALIZATION_TIMEOUT` seconds, is 30. */
  const TimeoutMessage: string := "Operation timed out after 30 seconds"
  const EmptyMessage: string := "Empty response"

  /** The binance-futures rule: a `symbol` loses every `/`; a symbol that is not a string makes `.replace` raise. */
  function NormalizeSymbol(server: string, kwargs: Dict<string, Json>): (r: Result<Dict<string, Json>, string>)
    ensures r.Failure? <==>
      server == BinanceServer && Get(kwargs, "symbol").Some? && !Get(kwargs, "symbol").value.JStr?
    ensures r.Failure? ==> r.error == NoAttribute(Get(kwargs, "symbol").value, "replace")
    ensures r.Success? ==> Keys(r.value) == Keys(kwargs)
    ensures r.Success? ==> forall k :: k != "symbol" ==> Get(r.value, k) == Get(kwargs, k)
    ensures r.Success? ==>
      var sym := Get(kwargs, "symbol");
      Get(r.value, "symbol") == if server == BinanceServer && sym.Some? then Some(JStr(RemoveChar(sym.value.s, '/'))) else sym
  {
    if server == BinanceServer then
      var symbol: Option<Json> := Get(kwargs, "symbol");
      match symbol
      case None => Success(kwargs)
      case Some(JStr(s)) => Success(Set(kwargs, "symbol", JStr(RemoveChar(s, '/'))))
      case Some(other) => Failure(NoAttribute(other, "replace"))
    else Success(kwargs)
  }

  /** The rule for every server: a string `exchange` is lower-cased, any other value is left alone. */
  function NormalizeExchange(args: Dict<string, Json>): (r: Dict<string, Json>)
    ensures Keys(r) == Keys(args)
    ensures forall k :: k != "exchange" ==> Get(r, k) == Get(args, k)
    ensures var ex := Get(args, "exchange");
      Get(r, "exchange") == if ex.Some? && ex.value.JStr? then Some(JStr(Lower(ex.value.s))) else ex
  {
    var exchange: Option<Json> := Get(args, "exchange");
    match exchange
    case Some(JStr(e)) => Set(args, "exchange", JStr(Lower(e)))
    case _ => args
  }

  /**
   * Provider-specific argument normalisation, on a copy of the arguments: the
   * symbol rule, then the exchange rule. Every other key and value is left as it was.
   */
  function Normalize(server: string, kwargs: Dict<string, Json>): (r: Result<Dict<string, Json>, string>)
    ensures r.Failure? <==>
      server == BinanceServer && Get(kwargs, "symbol").Some? && !Get(kwargs, "symbol").value.JStr?
    ensures r.Failure? ==> r.error == NoAttribute(Get(kwargs, "symbol").value, "replace")
    ensures r.Success? ==> Keys(r.value) == Keys(kwargs)
    ensures r.Success? ==> forall k :: k != "symbol" && k != "exchange" ==> Get(r.value, k) == Get(kwargs, k)
    ensures r.Success? ==>
      var sym := Get(kwargs, "symbol");
      Get(r.value, "symbol") == if server == BinanceServer && sym.Some? then Some(JStr(RemoveChar(sym.value.s, '/'))) else sym
    ensures r.Success? ==>
      var ex := Get(kwargs, "exchange");
      Get(r.value, "exchange") == if ex.Some? && ex.value.JStr? then Some(JStr(Lower(ex.value.s))) else ex
  {
    match NormalizeSymbol(server, kwargs)
    case Failure(msg) => Failure(msg)
    case Success(args) => Success(NormalizeExchange(args))
  }

  lemma NormalizeExchangeIdempotent(args: Dict<string, Json>)
    ensures NormalizeExchange(NormalizeExchange(args)) == NormalizeExchange(args)
  {
    var once := NormalizeExchange(args);
    var ex := Get(args, "exchange");
    if ex.Some? && ex.value.JStr? {
      LowerIdempotent(ex.value.s);
      SetSame(once, "exchange", JStr(Lower(ex.value.s)));
    }
  }

  /** Normalising arguments that are already normalised changes nothing. */
  lemma NormalizeIdempotent(server: string, kwargs: Dict<string, Json>)
    requires Normalize(server, kwargs).Success?
    ensures Normalize(server, Normalize(server, kwargs).value) == Normalize(server, kwargs)
  {
    var once := Normalize(server, kwargs).value;
    var sym := Get(once, "symbol");
    if server == BinanceServer && sym.Some? {
      assert sym.value.JStr? && '/' !in sym.value.s;
      SetSame(once, "symbol", sym.value);
      assert NormalizeSymbol(server, once) == Success(once);
    } else {
      assert NormalizeSymbol(server, once) == Success(once);
    }
    var afterSymbol := NormalizeSymbol(server, kwargs).value;
    assert once == NormalizeExchange(afterSymbol);
    NormalizeExchangeIdempotent(afterSymbol);
  }

  /**
   * How one session outcome becomes the callable's return value: every failure
   * is an `{"error": ...}` object, and the first content item's text is returned
   * JSON-decoded when it decodes and verbatim (a Python `str`) when it does not.
   */
  function ShapeOutcome(outcome: ToolOutcome, codec: Codec): (r: Json)
    ensures outcome.TimedOut? ==> r == ErrorObject(TimeoutMessage)
    ensures outcome.Raised? ==> r == ErrorObject(outcome.message)
    ensures outcome == Responded([]) ==> r == ErrorObject(EmptyMessage)
    ensures outcome.Responded? && outcome.texts != [] ==>
      var text := outcome.texts[0];
      r == if codec.decode(text).Some? then codec.decode(text).value else JStr(text)
  {
    match outcome
    case TimedOut => ErrorObject(TimeoutMessage)
    case Raised(msg) => ErrorObject(msg)
    case Responded(texts) =>
      if |texts| == 0 then ErrorObject(EmptyMessage)
      else
        match codec.decode(texts[0])
        case Some(parsed) => parsed
        case None => JStr(texts[0])
  }

  /**
   * The callable for `tool` on `server`, applied to keyword arguments. It is a
   * total function: nothing it meets escapes as an exception. The session is
   * asked only when normalisation succeeds, and then with the normalised arguments.
   */
  function CallTool(server: string, tool: string, kwargs: Dict<string, Json>, session: Session, codec: Codec): (r: Json)
    ensures Normalize(server, kwargs).Failure? ==> r == ErrorObject(Normalize(server, kwargs).error)
    ensures Normalize(server, kwargs).Success? ==>
      r == ShapeOutcome(session(ToolRequest(server, tool, Normalize(server, kwargs).value)), codec)
  {
    match Normalize(server, kwargs)
    case Failure(msg) => ErrorObject(msg)
    case Success(args) => ShapeOutcome(session(ToolRequest(server, tool, args)), codec)
  }

  /** Arguments without `symbol` and `exchange` reach the session exactly as given. */
  lemma PlainArgumentsPassThrough(server: string, kwargs: Dict<string, Json>)
    requires "symbol" !in Keys(kwargs) && "exchange" !in Keys(kwargs)
    ensures Normalize(server, kwargs) == Success(kwargs)
  {
  }

  /** For binance-futures a string symbol reaches the session without any `/`. */
  lemma BinanceSymbolHasNoSlash(kwargs: Dict<string, Json>)
    requires Normalize(BinanceServer, kwargs).Success?
    requires Get(kwargs, "symbol").Some?
    ensures var sym := Get(Normalize(BinanceServer, kwargs).value, "symbol");
      sym.Some? && sym.value.JStr? && '/' !in sym.value.s
  {
  }
}
