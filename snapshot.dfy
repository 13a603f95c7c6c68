/**
 * The market-state snapshot taken before each turn: open positions keyed by
 * symbol and open orders keyed by id, each fetched through the binance
 * client's tools (crypto_trading_agent.py, `get_market_state`).
 */
module Snapshot {
  import opened Wrappers
  import opened PyDict
  import opened JsonValues
  import opened Registry
  import opened Invocation

  const PositionsTool: string := "mcp0_get-positions"
  const OrdersTool: string := "mcp0_get-open-orders"

  /** The `state` dictionary: `positions` and `orders`, each keyed by a JSON value. */
  datatype MarketState = MarketState(positions: Dict<Json, Json>, orders: Dict<Json, Json>)

  /** How a snapshot field is keyed: the item's key, no key (the item is left out), or the exception it raises. */
  type KeyOf = Json -> Result<Option<Json>, string>

  /** `float(j)` for a decoded JSON value. */
  function ToFloat(j: Json, codec: Codec): Result<real, string> {
    match j
    case JInt(i) => Success(i as real)
    case JFloat(f) => Success(f)
    case JBool(b) => Success(if b then 1.0 else 0.0)
    case JStr(s) =>
      (match codec.parseFloat(s)
       case Some(f) => Success(f)
       case None => Failure("could not convert string to float: '" + s + "'"))
    case _ => Failure("float() argument must be a string or a real number, not '" + TypeName(j) + "'")
  }

  /** `p.get(key, default)`; anything but a dict has no `get`. */
  function GetField(p: Json, key: string, default: Json): Result<Json, string> {
    match p
    case JObj(fields) => Success(Get(fields, key).GetOr(default))
    case _ => Failure(NoAttribute(p, "get"))
  }

  /** A dictionary key must be hashable. */
  function AsKey(k: Json): Result<Option<Json>, string> {
    if Hashable(k) then Success(Some(k)) else Failure(Unhashable(k))
  }

  /** A position is kept when `float(p.get("contracts", 0)) != 0`, keyed by `p.get("symbol", "unknown")`. */
  function PositionKey(codec: Codec): KeyOf {
    p =>
      match GetField(p, "contracts", JInt(0))
      case Failure(m) => Failure(m)
      case Success(contracts) =>
        match ToFloat(contracts, codec)
        case Failure(m) => Failure(m)
        case Success(x) =>
          if x == 0.0 then Success(None)
          else
            match GetField(p, "symbol", JStr("unknown"))
            case Failure(m) => Failure(m)
            case Success(symbol) => AsKey(symbol)
  }

  /** Every order is kept, keyed by `o.get("id", "unknown")`. */
  function OrderKey(o: Json): Result<Option<Json>, string> {
    match GetField(o, "id", JStr("unknown"))
    case Failure(m) => Failure(m)
    case Success(id) => AsKey(id)
  }

  /**
   * The dict comprehension `{key(x): x for x in items if keep(x)}`: items are
   * taken in order, a later item overwrites an earlier one with the same key,
   * and the first item that raises aborts the whole comprehension.
   */
  function KeyedBy(items: seq<Json>, keyOf: KeyOf): Result<Dict<Json, Json>, string> {
    if items == [] then Success([])
    else
      var last := items[|items| - 1];
      match KeyedBy(items[..|items| - 1], keyOf)
      case Failure(m) => Failure(m)
      case Success(d) =>
        match keyOf(last)
        case Failure(m) => Failure(m)
        case Success(None) => Success(d)
        case Success(Some(k)) => Success(Set(d, k, last))
  }

  /**
   * Later items overwrite earlier ones: the value under each key is the last
   * item kept under that key.
   */
  lemma {:induction false} KeyedByLastWins(items: seq<Json>, keyOf: KeyOf)
    requires KeyedBy(items, keyOf).Success?
    ensures var d := KeyedBy(items, keyOf).value;
      forall k :: Get(d, k).Some? ==>
        exists i :: 0 <= i < |items| && keyOf(items[i]) == Success(Some(k)) && items[i] == Get(d, k).value &&
          forall j :: i < j < |items| ==> keyOf(items[j]) != Success(Some(k))
  {
    if items != [] {
      var n := |items| - 1;
      var init := items[..n];
      KeyedByLastWins(init, keyOf);
      var d := KeyedBy(init, keyOf).value;
      var d' := KeyedBy(items, keyOf).value;
      forall k | Get(d', k).Some?
        ensures exists i :: 0 <= i < |items| && keyOf(items[i]) == Success(Some(k)) && items[i] == Get(d', k).value &&
                             (forall j :: i < j < |items| ==> keyOf(items[j]) != Success(Some(k)))
      {
        if keyOf(items[n]) == Success(Some(k)) {
          assert d' == Set(d, k, items[n]);
          assert items[n] == Get(d', k).value;
        } else {
          assert Get(d', k) == Get(d, k) by {
            if keyOf(items[n]) != Success(None) {
              assert d' == Set(d, keyOf(items[n]).value.value, items[n]);
            }
          }
          var i :| 0 <= i < n && keyOf(init[i]) == Success(Some(k)) && init[i] == Get(d, k).value &&
            forall j :: i < j < n ==> keyOf(init[j]) != Success(Some(k));
          LaterItemsMiss(items, init, keyOf, k, i);
        }
      }
    }
  }

  /** Lifts "no later item has key `k`" from all but the last item to all items. */
  lemma LaterItemsMiss(items: seq<Json>, init: seq<Json>, keyOf: KeyOf, k: Json, i: nat)
    requires 0 < |items| && init == items[..|items| - 1] && i < |init|
    requires keyOf(items[|init|]) != Success(Some(k))
    requires forall j :: i < j < |init| ==> keyOf(init[j]) != Success(Some(k))
    ensures items[i] == init[i]
    ensures forall j :: i < j < |items| ==> keyOf(items[j]) != Success(Some(k))
  {
    forall j | i < j < |items|
      ensures keyOf(items[j]) != Success(Some(k))
    {
      if j < |init| {
        assert items[j] == init[j];
      }
    }
  }

  /** A comprehension that succeeds succeeded on all but the last item, and the last item did not raise. */
  lemma KeyedByInitSucceeds(items: seq<Json>, keyOf: KeyOf)
    requires items != [] && KeyedBy(items, keyOf).Success?
    ensures KeyedBy(items[..|items| - 1], keyOf).Success? && keyOf(items[|items| - 1]).Success?
  {
  }

  /** In a comprehension that succeeds, no item raised. */
  lemma {:induction false} KeyedByNoneRaised(items: seq<Json>, keyOf: KeyOf)
    requires KeyedBy(items, keyOf).Success?
    ensures forall i :: 0 <= i < |items| ==> keyOf(items[i]).Success?
  {
    if items != [] {
      var n := |items| - 1;
      var init := items[..n];
      KeyedByInitSucceeds(items, keyOf);
      KeyedByNoneRaised(init, keyOf);
      NoneRaisedSnoc(items, init, keyOf);
    }
  }

  /** Lifts "no item raised" from all but the last item to all items. */
  lemma NoneRaisedSnoc(items: seq<Json>, init: seq<Json>, keyOf: KeyOf)
    requires 0 < |items| && init == items[..|items| - 1]
    requires keyOf(items[|init|]).Success?
    requires forall j :: 0 <= j < |init| ==> keyOf(init[j]).Success?
    ensures forall j :: 0 <= j < |items| ==> keyOf(items[j]).Success?
  {
    forall j | 0 <= j < |items|
      ensures keyOf(items[j]).Success?
    {
      if j < |init| {
        assert items[j] == init[j];
      }
    }
  }

  /** A comprehension that raises reports the first item that raises. */
  lemma {:induction false} KeyedByFirstFailure(items: seq<Json>, keyOf: KeyOf)
    requires KeyedBy(items, keyOf).Failure?
    ensures exists i :: 0 <= i < |items| && keyOf(items[i]) == Failure(KeyedBy(items, keyOf).error) &&
                         forall j :: 0 <= j < i ==> keyOf(items[j]).Success?
  {
    var n := |items| - 1;
    var init := items[..n];
    match KeyedBy(init, keyOf)
    case Failure(m) =>
      KeyedByFirstFailure(init, keyOf);
      assert KeyedBy(items, keyOf) == Failure(m);
      var i :| 0 <= i < n && keyOf(init[i]) == Failure(m) && forall j :: 0 <= j < i ==> keyOf(init[j]).Success?;
      assert items[i] == init[i];
      forall j | 0 <= j < i
        ensures keyOf(items[j]).Success?
      {
        assert items[j] == init[j];
      }
    case Success(_) =>
      KeyedByNoneRaised(init, keyOf);
      forall j | 0 <= j < n
        ensures keyOf(items[j]).Success?
      {
        assert items[j] == init[j];
      }
      assert keyOf(items[n]) == Failure(KeyedBy(items, keyOf).error);
  }

  /** The comprehension succeeds exactly when no item raises. */
  lemma KeyedBySucceeds(items: seq<Json>, keyOf: KeyOf)
    ensures KeyedBy(items, keyOf).Success? <==> forall i :: 0 <= i < |items| ==> keyOf(items[i]).Success?
  {
    if KeyedBy(items, keyOf).Success? {
      KeyedByNoneRaised(items, keyOf);
    } else {
      KeyedByFirstFailure(items, keyOf);
    }
  }

  /** Every kept item's key is present, and each key once. */
  lemma {:induction false} KeyedByKeys(items: seq<Json>, keyOf: KeyOf)
    requires KeyedBy(items, keyOf).Success?
    ensures var d := KeyedBy(items, keyOf).value;
      && Unique(d)
      && forall i :: 0 <= i < |items| && keyOf(items[i]).Success? && keyOf(items[i]).value.Some? ==>
           keyOf(items[i]).value.value in Keys(d)
  {
    if items != [] {
      var n := |items| - 1;
      var init := items[..n];
      KeyedByInitSucceeds(items, keyOf);
      KeyedByKeys(init, keyOf);
      var d := KeyedBy(init, keyOf).value;
      var d' := KeyedBy(items, keyOf).value;
      if keyOf(items[n]).value.Some? {
        var k := keyOf(items[n]).value.value;
        assert d' == Set(d, k, items[n]);
        SetUnique(d, k, items[n]);
      } else {
        assert d' == d;
      }
      KeysCoveredSnoc(items, init, keyOf, Keys(d), Keys(d'));
    }
  }

  /** Lifts "every kept item's key is present" from all but the last item to all items. */
  lemma KeysCoveredSnoc(items: seq<Json>, init: seq<Json>, keyOf: KeyOf, before: seq<Json>, after: seq<Json>)
    requires 0 < |items| && init == items[..|items| - 1]
    requires forall k :: k in before ==> k in after
    requires keyOf(items[|init|]).Success? && keyOf(items[|init|]).value.Some? ==> keyOf(items[|init|]).value.value in after
    requires forall i :: 0 <= i < |init| && keyOf(init[i]).Success? && keyOf(init[i]).value.Some? ==>
      keyOf(init[i]).value.value in before
    ensures forall i :: 0 <= i < |items| && keyOf(items[i]).Success? && keyOf(items[i]).value.Some? ==>
      keyOf(items[i]).value.value in after
  {
    forall i | 0 <= i < |items| && keyOf(items[i]).Success? && keyOf(items[i]).value.Some?
      ensures keyOf(items[i]).value.value in after
    {
      if i < |init| {
        assert items[i] == init[i];
      }
    }
  }

  /**
   * What the comprehension builds: it succeeds exactly when no item raises,
   * then every kept item's key is present, keys are unique, and every stored
   * value is the last item kept under that very key; otherwise it reports the
   * first item that raises.
   */
  lemma KeyedBySpec(items: seq<Json>, keyOf: KeyOf)
    ensures KeyedBy(items, keyOf).Success? <==> forall i :: 0 <= i < |items| ==> keyOf(items[i]).Success?
    ensures KeyedBy(items, keyOf).Success? ==>
      var d := KeyedBy(items, keyOf).value;
      && Unique(d)
      && (forall i :: 0 <= i < |items| && keyOf(items[i]).value.Some? ==> keyOf(items[i]).value.value in Keys(d))
      && (forall k :: Get(d, k).Some? ==>
            exists i :: 0 <= i < |items| && keyOf(items[i]) == Success(Some(k)) && items[i] == Get(d, k).value &&
              forall j :: i < j < |items| ==> keyOf(items[j]) != Success(Some(k)))
    ensures KeyedBy(items, keyOf).Failure? ==>
      exists i :: 0 <= i < |items| && keyOf(items[i]) == Failure(KeyedBy(items, keyOf).error) &&
        forall j :: 0 <= j < i ==> keyOf(items[j]).Success?
  {
    KeyedBySucceeds(items, keyOf);
    if KeyedBy(items, keyOf).Failure? {
      KeyedByFirstFailure(items, keyOf);
    } else {
      KeyedByKeys(items, keyOf);
      KeyedByLastWins(items, keyOf);
    }
  }

  /** `{"error": str(e)}` in place of a field whose comprehension raised. */
  function ErrorField(message: string): Dict<Json, Json> {
    [(JStr("error"), JStr(message))]
  }

  /**
   * One field of the snapshot: empty unless the tool is registered and its
   * result is a list; the comprehension over that list; or the error entry
   * when the comprehension raises.
   */
  function FetchField(tools: Registry, toolKey: string, keyOf: KeyOf, session: Session, codec: Codec): (r: Dict<Json, Json>)
    ensures Get(tools, toolKey).None? ==> r == []
  {
    match Get(tools, toolKey)
    case None => []
    case Some(entry) =>
      match CallTool(entry.server, entry.name, [], session, codec)
      case JArr(items) =>
        (match KeyedBy(items, keyOf)
         case Success(d) => d
         case Failure(m) => ErrorField(m))
      case _ => []
  }

  /** `get_market_state`: both fields start empty and each is fetched on its own. */
  function GetMarketState(binanceTools: Registry, session: Session, codec: Codec): (r: MarketState)
    ensures r.positions == FetchField(binanceTools, PositionsTool, PositionKey(codec), session, codec)
    ensures r.orders == FetchField(binanceTools, OrdersTool, OrderKey, session, codec)
  {
    MarketState(
      FetchField(binanceTools, PositionsTool, PositionKey(codec), session, codec),
      FetchField(binanceTools, OrdersTool, OrderKey, session, codec))
  }

  /** The result a registered tool gives when called with no arguments. */
  function Fetched(tools: Registry, toolKey: string, session: Session, codec: Codec): Option<Json> {
    match Get(tools, toolKey)
    case None => None
    case Some(entry) => Some(CallTool(entry.server, entry.name, [], session, codec))
  }

  /**
   * Positions: when the tool returns a list, each non-zero position is stored
   * under its symbol, every stored value is the last listed position with that
   * symbol, and otherwise the first position that raises turns the field into
   * its error entry.
   */
  lemma PositionsSnapshot(tools: Registry, session: Session, codec: Codec, items: seq<Json>)
    requires Fetched(tools, PositionsTool, session, codec) == Some(JArr(items))
    ensures var positions := GetMarketState(tools, session, codec).positions;
      if forall i :: 0 <= i < |items| ==> PositionKey(codec)(items[i]).Success? then
        && Unique(positions)
        && (forall i :: 0 <= i < |items| && PositionKey(codec)(items[i]).value.Some? ==>
              PositionKey(codec)(items[i]).value.value in Keys(positions))
        && (forall k :: Get(positions, k).Some? ==>
              exists i :: 0 <= i < |items| && items[i] == Get(positions, k).value &&
                PositionKey(codec)(items[i]) == Success(Some(k)) &&
                forall j :: i < j < |items| ==> PositionKey(codec)(items[j]) != Success(Some(k)))
      else
        exists i :: 0 <= i < |items| && PositionKey(codec)(items[i]).Failure? &&
          positions == ErrorField(PositionKey(codec)(items[i]).error) &&
          forall j :: 0 <= j < i ==> PositionKey(codec)(items[j]).Success?
  {
    KeyedBySpec(items, PositionKey(codec));
  }

  /** A position is left out exactly when it is a dict whose contracts convert to zero. */
  lemma PositionDropped(codec: Codec, p: Json)
    ensures PositionKey(codec)(p) == Success(None) <==>
      p.JObj? && ToFloat(Get(p.fields, "contracts").GetOr(JInt(0)), codec) == Success(0.0)
  {
  }

  /**
   * Orders: every listed order is stored under its id, the last one winning when
   * ids repeat (orders without an id all share "unknown"), unless one of them
   * raises: then the first order that raises turns the field into its error entry.
   */
  lemma OrdersSnapshot(tools: Registry, session: Session, codec: Codec, items: seq<Json>)
    requires Fetched(tools, OrdersTool, session, codec) == Some(JArr(items))
    ensures var orders := GetMarketState(tools, session, codec).orders;
      if forall i :: 0 <= i < |items| ==> OrderKey(items[i]).Success? then
        && Unique(orders)
        && (forall i :: 0 <= i < |items| ==> OrderKey(items[i]).value.value in Keys(orders))
        && (forall k :: Get(orders, k).Some? ==>
              exists i :: 0 <= i < |items| && items[i] == Get(orders, k).value && OrderKey(items[i]) == Success(Some(k)) &&
                forall j :: i < j < |items| ==> OrderKey(items[j]) != Success(Some(k)))
      else
        exists i :: 0 <= i < |items| && OrderKey(items[i]).Failure? && orders == ErrorField(OrderKey(items[i]).error) &&
          forall j :: 0 <= j < i ==> OrderKey(items[j]).Success?
  {
    KeyedBySpec(items, OrderKey);
    forall i | 0 <= i < |items| && OrderKey(items[i]).Success?
      ensures OrderKey(items[i]).value.Some?
    {
    }
  }

  /** A result that is not a list (an error object, raw text, a decoded dict) leaves the field empty. */
  lemma NonListLeavesFieldEmpty(tools: Registry, toolKey: string, keyOf: KeyOf, session: Session, codec: Codec)
    requires Fetched(tools, toolKey, session, codec).Some? && !Fetched(tools, toolKey, session, codec).value.JArr?
    ensures FetchField(tools, toolKey, keyOf, session, codec) == []
  {
  }
}
