# Crypto trading agent: the orchestration core in Dafny

This project models the deterministic core of `crypto_trading_agent.py`, the
agent that joins two MCP servers (crypto analysis and Binance Futures) to an
OpenAI chat model. The model covers four pieces:

- **Tool registry** (`registry.dfy`). `MCPClient.get_available_tools` turns a
  server's tool listing into an insertion-ordered name-to-entry dictionary. Each
  entry holds an OpenAI function schema. An alias with every `-` replaced by `_`
  is stored beside the name and points at the same entry. A timeout or an
  exception while listing gives an empty dictionary. `McpClient` is a class with
  the fields `session` and `tools`. Its `GetAvailableTools` method fills `tools`
  in a loop. The method is proved against the pure `RegisterAll`, whose
  last-writer-wins semantics and invariants are proved as lemmas.
- **Tool callable** (`invocation.dfy`). This is the closure built by
  `MCPClient.call_tool`:
  - it normalises the keyword arguments: `symbol` loses its `/` for
    `binance-futures`, and a string `exchange` is lower-cased;
  - it asks the session and turns every outcome into a return value.
- **Market-state snapshot** (`snapshot.dfy`). `get_market_state` builds open
  positions keyed by symbol, leaving out zero-size positions, and open orders
  keyed by id. Each field is fetched on its own, and a failing comprehension
  turns only its own field into `{"error": ...}`.
- **One agent turn** (`agent.dfy`). `agent_loop` is an append-only
  message-history state machine:
  - it merges the tool maps, with binance winning on a shared key;
  - it creates the system message only for a new history;
  - it classifies the first response as tool calls, stop or other;
  - in a tool round it appends exactly one correlated tool message per call;
  - it returns the fallback text whenever the model does not answer.

  `History` is a class whose `messages` field is appended to in place.
  `AgentLoop` is proved equal to the pure `RunTurn`, and the turn's properties
  are lemmas about `Respond`, the part of the turn after the first request is
  built.

The supporting modules are:

- `pydict.dfy`: Python's insertion-ordered `dict`. Assignment keeps an existing
  key's position and appends a new key; `update` is modelled too.
- `jsonvalues.dfy`: JSON values, and the codec functions the core calls.
- `text.dfy`: `str.replace`, `str.lower` and `str.join`.
- `wrappers.dfy`: `Option` and `Result`.

The MCP session, the OpenAI service and the JSON codec are inputs. The session
is a function from a tool request to an outcome: a timeout, an exception
message, or the content texts. The model service is a function from a request
to a completion or a failure. `json.loads`, `json.dumps` and `float(str)` are
total functions held in a `Codec`. A failing decode or conversion gives `None`.

The code and its comments disagree in one place, and the model follows the
code. The comment at `crypto_trading_agent.py:433` says the fallback does not
update the messages. By then, however, the code has already appended the user
message to the caller's list, and possibly the model's tool-call message and
tool messages too. Those stay in the list. `UnansweredTurn` and `AgentLoop`
state this.

## Model

| member | source | states |
|---|---|---|
| PyDict.Set | crypto_trading_agent.py:162-171 | `d[k] = v`: `k` then holds `v`, every other key reads as before, an existing key keeps its place and a new key goes last |
| PyDict.Update | crypto_trading_agent.py:304-306 | `a.update(b)` as one assignment per pair of `b`, in order; properties in `UpdateGet` and `UpdateKeys` |
| PyDict.UpdateGet | crypto_trading_agent.py:304-306 | after `a.update(b)` a key of `b` holds `b`'s value and any other key keeps `a`'s |
| PyDict.UpdateKeys | crypto_trading_agent.py:304-306 | `a.update(b)` keeps `a`'s keys first and in order, its keys are exactly those of `a` and `b`, and it keeps keys unique |
| Text.ReplaceChar | crypto_trading_agent.py:169 | `replace("-", "_")` keeps the length and maps each character on its own |
| Text.RemoveChar | crypto_trading_agent.py:206 | `replace("/", "")` leaves no `/`, keeps every other character with its multiplicity, changes nothing when there is no `/`, and on one character drops it exactly when it is `/` |
| Text.RemoveCharConcat | crypto_trading_agent.py:206 | removal distributes over concatenation, so with the one-character case it keeps the other characters in their original order |
| Text.Lower | crypto_trading_agent.py:210 | `lower()` keeps the length, maps each character on its own, and leaves no upper-case letter |
| Text.LowerIdempotent | crypto_trading_agent.py:210 | lower-casing twice is lower-casing once |
| Text.Join | crypto_trading_agent.py:314-319 | `sep.join(items)`; properties in `JoinSnoc` |
| Text.JoinSnoc | crypto_trading_agent.py:314-319 | joining one more item appends the separator and then the item |
| JsonValues.ErrorObject | crypto_trading_agent.py:241 | an error value is a dict with the single key `error` holding the message |
| Registry.Alias | crypto_trading_agent.py:168-171 | the alias has the name's length, replaces each `-` by `_` and keeps every other character, has no `-`, and equals the name exactly when the name has no `-` (so only hyphenated names get a second key) |
| Registry.EntryFor | crypto_trading_agent.py:153-166 | the entry `{name, schema, callable}` with description "" and parameters {} when absent; properties in `RegisterAllGet` and `RegisterAllConsistent` |
| Registry.Register | crypto_trading_agent.py:149-171 | one loop iteration: the name and its alias both hold the entry built from the listed tool, every other key is untouched, existing keys keep their order, a new name is appended and then a new alias after it |
| Registry.RegisterAll | crypto_trading_agent.py:149-171 | the listing loop as a function of the listing; properties in `RegisterAllGet`, `RegisterAllKeys`, `RegisterAllKeepsOrder`, `RegisterAllUnique` and `RegisterAllConsistent` |
| Registry.LastHit | crypto_trading_agent.py:149-171 | the tool found for a key is a listed tool that writes that key and no tool listed after it writes that key; when there is none, no listed tool writes it |
| Registry.LaterToolOverwrites | crypto_trading_agent.py:162-171 | of two listed tools with the same name, the later one's entry is the one kept under that name |
| Registry.RegisterAllGet | crypto_trading_agent.py:149-171 | after the loop each key holds the entry of the last listed tool whose name or alias it is (later assignments overwrite), with description "" and parameters {} when absent; other keys keep their value |
| Registry.RegisterAllKeys | crypto_trading_agent.py:149-171 | the keys afterwards are exactly the earlier keys plus every listed name and alias |
| Registry.RegisterAllKeepsOrder | crypto_trading_agent.py:162-171 | registration never moves or drops an existing key |
| Registry.RegisterAllUnique | crypto_trading_agent.py:162-171 | registration keeps every key unique |
| Registry.RegisterAllConsistent | crypto_trading_agent.py:153-171 | every key holds an entry of type "function" whose schema names the entry, stored under that name or its alias |
| Registry.HyphenatedKeyIsCanonical | crypto_trading_agent.py:168-171 | in a consistent registry a key containing `-` is never an alias: its entry has that very name |
| Registry.McpClient.constructor | crypto_trading_agent.py:77-83 | a new client has no session and an empty tool dictionary |
| Registry.McpClient.Connect | crypto_trading_agent.py:104-127 | after connecting the session is set, whether or not initialisation timed out |
| Registry.McpClient.GetAvailableTools | crypto_trading_agent.py:129-183 | without a session it fails with "Not connected to <server> MCP server"; a timeout or an exception returns {} and leaves `tools` alone; otherwise `tools` becomes the old tools with every listed tool registered in order, and that same dictionary is returned; consistency of `tools` is preserved |
| Invocation.NormalizeSymbol | crypto_trading_agent.py:203-206 | the symbol rule fails exactly for binance-futures with a non-string symbol, with the `AttributeError` text; otherwise it keeps the key set and every key other than `symbol`, and strips every `/` from a binance symbol |
| Invocation.NormalizeExchange | crypto_trading_agent.py:208-210 | the exchange rule keeps the key set and every key other than `exchange`, lower-cases a string exchange and leaves a non-string one alone |
| Invocation.Normalize | crypto_trading_agent.py:201-210 | normalisation fails exactly for binance-futures with a non-string symbol, with the `AttributeError` text; otherwise it keeps the key set and every other key, strips `/` from a binance symbol, and lower-cases a string exchange while leaving a non-string one alone |
| Invocation.NormalizeExchangeIdempotent | crypto_trading_agent.py:208-210 | applying the exchange rule twice equals applying it once |
| Invocation.NormalizeIdempotent | crypto_trading_agent.py:201-210 | normalising normalised arguments changes nothing |
| Invocation.PlainArgumentsPassThrough | crypto_trading_agent.py:201-210 | arguments without `symbol` and `exchange` reach the session unchanged, for any server |
| Invocation.BinanceSymbolHasNoSlash | crypto_trading_agent.py:204-206 | for binance-futures a symbol that reaches the session is a string without `/` |
| Invocation.ShapeOutcome | crypto_trading_agent.py:215-241 | a timeout gives {"error": "Operation timed out after 30 seconds"}, an exception {"error": message}, no content {"error": "Empty response"}, and otherwise the first text decoded when it decodes and verbatim when not |
| Invocation.CallTool | crypto_trading_agent.py:198-241 | the callable never raises: a normalisation error becomes an error object, and otherwise the session is asked with the normalised arguments and its outcome shaped |
| Snapshot.ToFloat | crypto_trading_agent.py:268 | `float()` of a decoded value, with the `TypeError`/`ValueError` texts; properties in `PositionDropped` |
| Snapshot.GetField | crypto_trading_agent.py:268 | `p.get(key, default)` with the AttributeError for a non-dict; properties in `PositionDropped`, `PositionsSnapshot` and `OrdersSnapshot` |
| Snapshot.PositionKey | crypto_trading_agent.py:268 | the filter and key of the positions comprehension; properties in `PositionDropped` and `PositionsSnapshot` |
| Snapshot.OrderKey | crypto_trading_agent.py:281 | the key of the orders comprehension; properties in `OrdersSnapshot` |
| Snapshot.KeyedBy | crypto_trading_agent.py:268 | the dict comprehension, item by item; properties in `KeyedBySpec` |
| Snapshot.KeyedByNoneRaised | crypto_trading_agent.py:268 | in a comprehension that succeeds no item raised |
| Snapshot.KeyedBySucceeds | crypto_trading_agent.py:268 | the comprehension succeeds exactly when no item raises |
| Snapshot.KeyedByFirstFailure | crypto_trading_agent.py:268 | a comprehension that fails carries the error of the first item that raises, every earlier item having succeeded |
| Snapshot.KeyedByKeys | crypto_trading_agent.py:268 | every kept item's key is present, each key once |
| Snapshot.KeyedByLastWins | crypto_trading_agent.py:268 | each stored value is the last item kept under that key: no later item has the same key |
| Snapshot.KeyedBySpec | crypto_trading_agent.py:268 | the comprehension succeeds exactly when no item raises; then every kept item's key is present, keys are unique and each stored value is the last item kept under that very key; otherwise the error is that of the first raising item |
| Snapshot.FetchField | crypto_trading_agent.py:261-262 | a tool missing from the binance map leaves its field empty |
| Snapshot.GetMarketState | crypto_trading_agent.py:246-289 | positions come from `mcp0_get-positions` and orders from `mcp0_get-open-orders`, each fetched independently of the other |
| Snapshot.PositionsSnapshot | crypto_trading_agent.py:261-271 | for a list result each non-zero position is stored under its symbol, keys are unique, every stored value is the last listed position with that symbol, and otherwise the first raising position turns only the positions field into its error entry |
| Snapshot.PositionDropped | crypto_trading_agent.py:268 | a position is left out exactly when it is a dict whose `contracts` (default 0) converts to zero |
| Snapshot.OrdersSnapshot | crypto_trading_agent.py:274-284 | for a list result every order is stored under its id (default "unknown"), keys are unique, every stored value is the last listed order with that id, and otherwise the first raising order turns only the orders field into its error entry |
| Snapshot.ErrorField | crypto_trading_agent.py:269-271 | the `{"error": str(e)}` value a raising comprehension leaves in its field; properties in `PositionsSnapshot` and `OrdersSnapshot` |
| Snapshot.NonListLeavesFieldEmpty | crypto_trading_agent.py:267 | a result that is not a list leaves the field empty |
| Agent.Merge | crypto_trading_agent.py:304-306 | the crypto map updated with the binance map; properties in `MergePrefersBinance` |
| Agent.MergePrefersBinance | crypto_trading_agent.py:304-306 | the merged map holds the binance entry on a shared key and the crypto entry otherwise, has exactly the keys of both, and keeps keys unique |
| Agent.CatalogLines | crypto_trading_agent.py:314-319 | one `name: description` line per entry, in order |
| Agent.CatalogCoversEveryKey | crypto_trading_agent.py:313-319 | the catalog has one line per key, and the i-th line names the i-th key's entry by its canonical name and description |
| Agent.Catalog | crypto_trading_agent.py:314-319 | the entry lines joined by "\n- "; properties in `CatalogLines`, `CatalogCoversEveryKey` and `CatalogSnoc` |
| Agent.CatalogSnoc | crypto_trading_agent.py:314-319 | one more key adds "\n- " and that entry's `name: description` line at the end of the catalog |
| Agent.SystemPrompt | crypto_trading_agent.py:309-323 | the system prompt template filled with the catalog and the indented JSON of positions and orders; the catalog's properties are in `CatalogSnoc` and `CatalogCoversEveryKey` |
| Agent.Offered | crypto_trading_agent.py:338 | the first request offers no tools field exactly when the merged map is empty, and otherwise every entry's schema in map order |
| Agent.StopReason | crypto_trading_agent.py:343-347 | the stop reason is "tool_calls" exactly when the message carries tool calls or the finish reason says so, and "stop" exactly when it carries none and the finish reason is "stop" |
| Agent.ToolResult | crypto_trading_agent.py:358-392 | the value a call is answered with; properties in `UnknownTool`, `ArgumentsNotAMapping` and `MalformedArguments` |
| Agent.UnknownTool | crypto_trading_agent.py:385-392 | an unknown name is answered with {"error": "Tool <name> not found"} |
| Agent.ArgumentsNotAMapping | crypto_trading_agent.py:366-384 | arguments that decode to a non-dict make the call raise, answered with {"error": "Error executing <name>: <module>.MCPClient.call_tool.<locals>.callable() argument after ** must be a mapping, not <type>"}, the module being `__main__` or `crypto_trading_agent` as the program is started |
| Agent.MalformedArguments | crypto_trading_agent.py:358-361 | argument text that is not JSON runs the tool with no arguments |
| Agent.ToolReply | crypto_trading_agent.py:354-392 | every call is answered by a tool message with the call's id and name, holding the JSON text of the result |
| Agent.ToolReplies | crypto_trading_agent.py:353-392 | the tool loop as a function of the calls; properties in `ToolRepliesCorrelated`, `RoundHasNoAssistant`, `AnswerCalls` and `ToolCallTurn` |
| Agent.ToolRepliesCorrelated | crypto_trading_agent.py:353-392 | a round has exactly one tool message per call, in request order, the i-th answering the i-th call with its id and name |
| Agent.AnswerCalls | crypto_trading_agent.py:353-392 | the loop appends to the history exactly the round's tool messages, in order |
| Agent.FallbackText | crypto_trading_agent.py:418-431 | the fallback reply; properties in `ToolLinesSplit` and `BuildFallback` |
| Agent.ToolLines | crypto_trading_agent.py:422-429 | one server's fallback lines as a function of its map; properties in `ToolLinesConcat`, `ToolLinesSplit` and `AppendToolLines` |
| Agent.ToolLinesConcat | crypto_trading_agent.py:422-429 | the lines of a map are those of its first part followed by those of the rest |
| Agent.ToolLinesSplit | crypto_trading_agent.py:422-429 | the fallback has exactly one `- key: description` line for each key, aliases included, between the lines of the keys before and after it |
| Agent.AppendToolLines | crypto_trading_agent.py:422-429 | the `+=` loop over one server's map appends exactly its tool lines |
| Agent.BuildFallback | crypto_trading_agent.py:418-431 | the fallback text is the apology, the crypto header and lines, the binance header and lines, then the retry sentence |
| Agent.StartHistory | crypto_trading_agent.py:309-327 | the given history, or a fresh one holding only the system message; properties in `TurnOnlyAppends` |
| Agent.FirstRequest | crypto_trading_agent.py:330-340 | the history with the user's message appended, offering every merged tool; properties in `TurnOnlyAppends`, `RespondExtends` and `AgentLoop` |
| Agent.Respond | crypto_trading_agent.py:332-434 | the turn after the first request is built; properties in `RespondExtends`, `StopTurn`, `ToolCallTurn`, `UnansweredTurn` and `AnsweredTurn` |
| Agent.RunTurn | crypto_trading_agent.py:292-434 | the whole turn from its inputs; properties in `TurnOnlyAppends` and, through `Respond`, the turn lemmas; `AgentLoop` is proved equal to it |
| Agent.TurnOnlyAppends | crypto_trading_agent.py:309-330 | a turn starts from the given history, or from a new one holding only the system message, then the user's message, and it only appends after that |
| Agent.RespondExtends | crypto_trading_agent.py:332-434 | nothing in the first request's history is changed or removed by the rest of the turn |
| Agent.StopTurn | crypto_trading_agent.py:404-407 | after "stop" exactly one assistant reply (the final `{"role": "assistant"}` message; the model's call message is a `ModelTurn`) with the response's content is appended, and that content is returned |
| Agent.ToolCallTurn | crypto_trading_agent.py:349-402 | a tool round appends the model's call message, then one correlated tool message per call, then one assistant reply with the second response's content, and returns that content; the second request carries no tools |
| Agent.RoundHasNoAssistant | crypto_trading_agent.py:371-392 | the messages a tool round appends after the model's call message (itself a `ModelTurn`) hold no assistant reply |
| Agent.UnansweredTurn | crypto_trading_agent.py:409-434 | when the model fails, gives another stop reason, or fails on the second request, the reply is the fallback text and no assistant reply is appended, and the history is exactly what was appended before the failure: nothing after the user's message for a failed first request or another stop reason, the model's message when it claimed tool calls it did not carry, and the call message with every tool message when the second request failed |
| Agent.AnsweredTurn | crypto_trading_agent.py:349-407 | when the model answers, exactly one assistant reply is appended, last, holding the reply |
| Agent.History.constructor | crypto_trading_agent.py:309-327 | a new history holds exactly its initial messages |
| Agent.History.Append | crypto_trading_agent.py:330 | appending adds exactly one message at the end |
| Agent.AgentLoop | crypto_trading_agent.py:292-434 | the turn appends in place to the caller's list (or a fresh one) and returns the reply together with that same list, exactly as `RunTurn` describes |

## Left out

- `app.py`, `static/js/main.js` and `docker-patches/mcp_patch.py` are not part of this model. They hold web routes, UI code and a patch of a foreign module, with no core logic.
- `main()` is not modelled: configuration loading, the interactive loop and its `!tool` shortcut, printing and tracebacks.
- The process and session lifecycle is not modelled: `__aenter__`/`__aexit__`, the subprocess and `ClientSession`. `Connect` records only that a session is set.
- Timing is not modelled: `asyncio.wait_for` and the 30-second limit appear only as the timeout outcome and its message. Concurrency is not modelled either.
- The MCP session and the model service are modelled as stateless: each answer depends on the request alone. Tool side effects on later calls are not modelled, such as a placed order changing a later `get-positions` result or two identical `place-order` calls returning different ids. The content clauses of `ToolReply`, `ToolCallTurn` and `AnsweredTurn` rely on this.
- The name of the module the agent runs as is an input (`Services.moduleName`), since it depends on how the program is started.
- The MCP session, the OpenAI client, `json.loads`, `json.dumps` and `float()` on strings are opaque inputs. The model id and the temperature are not modelled, and neither are the exception messages of those services, which are carried as given.
- Registry.EntryFor: a `description` attribute that exists but is `None` would be stored as `None` and printed as "None". The model only distinguishes present from absent.
- Registry.McpClient.GetAvailableTools: Python returns `self.tools` itself, so later changes through one name show through the other. The model returns the dictionary's value.
- Text.Lower: covers the ASCII letters only. Unicode case mapping is not modelled.
- Floating point is exact: `JFloat` is a real, and NaN and infinity are not modelled. Python's equality across types as dictionary keys (`1 == 1.0 == True`) is not modelled either: JSON values are compared structurally.
- Message content is always a string: an assistant message with `None` content is not modelled. Non-text content items of a tool response are not modelled.
- The `repr` quoting in Python's `ValueError` text for an unconvertible string is written for plain strings only.
- The fallback loop's test that an entry has a schema with a description is always true for entries built by `get_available_tools`, so the model always writes the line.
- The outer `except` of `get_market_state` is not modelled: nothing inside it can raise, because the callable returns every failure as a value. Its unused `crypto_client` argument is left out.
- PyDict.UpdateKeys: the key order after `update` is stated only as a prefix property (`a`'s keys first, in order), not as the exact sequence of `b`'s new keys after them.
