# Subscriber registry and fan-out delivery of the two relay servers

This project models, in Dafny, the core of the two WebSocket relay servers of
the repository:

- `websocket_ml_server.py` keeps a dict `clients` from each WebSocket
  connection to a game selector. The selector is a `game_id` value, or `None`
  for all games. A connection registers with the first message it sends. It
  leaves through the idempotent `clients.pop(ws, None)`. A `forward_data`
  request pushes a list of prediction records. Every subscriber is sent its
  filtered view of the list. Connections that are closed, or whose send
  raised, are dropped one by one, without stopping the pass.
- `websocket_ml_server2.py` keeps a plain set `clients`. Connections join with
  `add` and leave with `remove`. Each tick of `send_live_nba_data` sends one
  fixed two-record payload to every client. It drops the clients whose send
  raised.

Module layout, one per component:

- `JsonValues` (json_values.dfy) holds the scalar values of a decoded JSON
  object. It also gives Python's truthiness and `==` on them; `True == 1`
  holds in Python, and the model keeps that.
- `TopicFilter` (topic_filter.dfy) is the per-subscriber list comprehension
  with its laws.
- `Connections` (connections.dfy) holds what both servers share: opaque
  connection ids and the log of payloads handed to the transport.
- `MlServer` (ml_server.dfy) holds the dict registry. The `Registry` class
  stores the dict's entries in a `map` and its insertion order in a `seq`,
  because `list(clients.items())` lists entries in that order. It has the
  handshake, `pop` and the `forward_data` pass.
- `LiveServer` (live_server.dfy) holds the set registry, `LiveHub`, with
  `add`, `remove` and one tick.
- `Wrappers` (wrappers.dfy) holds `Option`.

Outside inputs are parameters of the model:

- A connection's `client_state` is the function `connected`.
- Whether filtering, `json.dumps` and `send_text` complete for a connection is
  the function `sendOk`.
- The decoded first message of a connection is a `HandshakeMessage`.
- The decoded body of a `forward_data` request is a `ForwardRequest`.

The relay's intended design goes beyond these two files in places, and the
model follows the files:

- A first message that is not JSON, or is not a JSON object, does not
  register the connection as a wildcard subscriber. The `json.loads` or
  `.get` raises an exception other than `WebSocketDisconnect`, which leaves
  the handler, so the connection is never registered (outcome `Raised`).
- The request key is `game_id`. The record key is `game_ID`. There is
  no `topic_id` and no `full_file` option.
- No snapshot is sent right after subscribing. There is no snapshot store
  with revisions, no scheduler and no coalescing of ticks.
- `forward_data` reads the request body before it checks for an empty
  registry.

## Model

| member | source | states |
|---|---|---|
| TopicFilter.Filter | websocket_ml_server.py:50 | the view is no longer than the pushed list, and each of its records is in the list and matches the selector |
| TopicFilter.FilterAllGames | websocket_ml_server.py:50 | with selector `None` the view is the whole `predictions` list, in its order |
| TopicFilter.FilterAppend | websocket_ml_server.py:50 | filtering a concatenation filters each part and keeps the parts in order; with FilterSingleton this pins down the view as the matching records in original order |
| TopicFilter.FilterSingleton | websocket_ml_server.py:50 | a one-record list keeps its record exactly when the record matches |
| TopicFilter.FilterMembers | websocket_ml_server.py:50 | a record is in the view if and only if it is in the list and its `game_ID` equals the selector (or the selector is `None`) |
| TopicFilter.FilterMultiplicity | websocket_ml_server.py:50 | each matching record occurs in the view as often as in the list; a non-matching one never does |
| TopicFilter.FilterSkipsUntagged | websocket_ml_server.py:50 | for a game selector, a record without a `game_ID` field, or with a null one, is never in the view |
| TopicFilter.FilterUnknownGame | websocket_ml_server.py:50-54 | when no record matches, the view is the empty list, which is still sent |
| TopicFilter.FilterIdempotent | websocket_ml_server.py:50 | filtering the view again with the same selector gives the same view |
| MlServer.SelectorOf | websocket_ml_server.py:19-25 | a truthy `game_id` becomes that value as the selector; a missing, null, false, zero or empty one gives `None`; the selector stored is always well formed |
| MlServer.RemoveIdMembers | websocket_ml_server.py:58-61 | after `pop(ws, None)` the insertion order lists every other connection and not `ws` |
| MlServer.RemoveIdAbsent | websocket_ml_server.py:33 | `pop` of an absent connection leaves the order unchanged |
| MlServer.RemoveIdIdempotent | websocket_ml_server.py:38 | a second `pop` of the same connection changes nothing |
| MlServer.KeptMembers | websocket_ml_server.py:48-61 | a connection remains in the order after the pass if and only if it was there and came through |
| MlServer.KeptDistinct | websocket_ml_server.py:48 | the pass never duplicates a registry entry |
| MlServer.DeliveriesRecipients | websocket_ml_server.py:48-61 | the connections sent to are exactly the ones that were registered and came through, in registry order |
| MlServer.DeliveriesPayloads | websocket_ml_server.py:48-55 | every payload sent went to a registered connection that came through, and equals the filter of the list by that connection's own selector |
| MlServer.DeliveredExactlyOnce | websocket_ml_server.py:48-55 | each connection gets exactly one payload if it was registered at the start and came through, and none otherwise; this holds whatever happens to the other connections |
| MlServer.Registry.constructor | websocket_ml_server.py:8 | the registry starts empty |
| MlServer.Registry.Assign | websocket_ml_server.py:23-25 | `clients[ws] = game_id` and `clients[ws] = None`: the entry is set, a new key goes last in the order, an existing key keeps its place, nothing else changes |
| MlServer.Registry.Pop | websocket_ml_server.py:31-38 | `clients.pop(ws, None)`, also used at lines 58 and 61: the entry of `ws` is dropped, every other entry keeps its selector, and an absent `ws` changes nothing |
| MlServer.Registry.Handshake | websocket_ml_server.py:16-38 | a decoded JSON object registers `SelectorOf` of it; an undecodable message or a non-object raises and registers nothing; a disconnect pops the connection |
| MlServer.Registry.ForwardData | websocket_ml_server.py:40-65 | an unreadable body gives the error response and changes nothing; otherwise the response is the success message; a missing `predictions` key counts as `[]`; the registry afterwards is the old one minus the connections that did not come through, with survivors keeping their selectors; the log is the pass's deliveries; an empty registry sends nothing and stays as it was |
| MlServer.Registry.DeliveryPass | websocket_ml_server.py:47-61 | the loop over the copied item list visits each starting entry once: it sends the filtered view to connected connections whose send completes, and pops every other one, including all of them when `predictions` cannot be iterated |
| MlServer.Registry.Visit | websocket_ml_server.py:49-61 | the per-entry `try`: a connection that is CONNECTED and whose send completes gets `[Delivery(ws, filtered view)]` and the registry is untouched; any other connection, and every connection when `predictions` cannot be iterated, is popped and gets nothing |
| LiveServer.LiveHub.constructor | websocket_ml_server2.py:12 | the set starts empty |
| LiveServer.LiveHub.Add | websocket_ml_server2.py:46 | connect adds the connection; adding one already present leaves the set unchanged |
| LiveServer.LiveHub.Remove | websocket_ml_server2.py:53-55 | `set.remove` removes a present connection and raises KeyError for an absent one, such as a client the tick has already dropped |
| LiveServer.LiveHub.Tick | websocket_ml_server2.py:16-31 | an empty set sends nothing; otherwise every client present at the start whose send completes is logged exactly once with the fixed two-record payload, and no other client is logged; the set afterwards is the old set minus exactly the clients whose send raised (the proof of the loop, not the contract, shows that the `remove` inside it always finds its element) |

## Left out

- The FastAPI and uvicorn wiring is not modelled. This covers `accept`,
  `receive_text`, the lifespan hook, `asyncio.create_task`, `sleep(10)`, the
  `while True` loops and `__main__`. The model has one handshake, one
  disconnect, one `forward_data` call and one tick.
- Interleaving between the connection handlers and the delivery task at their
  `await` points is not modelled. This is concurrency, so each operation is
  atomic.
- `json.loads` and `json.dumps` are opaque. A decoded message or body is an
  input. A serialisation failure is one more reason for `sendOk` to be false.
- Logging and the text of the HTTP responses are left out. Only the
  success/error distinction of `forward_data` is kept.
- JSON arrays and objects as field values are not in the value domain, and
  integers and floats are both reals, so `NaN`, `Infinity` and `-Infinity`
  (which `json.loads` accepts) are not in the domain either. A `game_id` that
  is a non-empty list, say, would be stored as a selector by the code but
  cannot be expressed here. Nor can a `game_id` of `NaN`: it is truthy, so it
  is registered, and since `NaN == NaN` is false that subscriber would get `[]`
  on every push.
- A `predictions` value that is a string or an object, and list elements that
  are not objects, are not modelled. The code iterates those and may raise per
  subscriber. The model covers only a list of objects, a missing key, and a
  value that cannot be iterated at all.
- The drain loop (websocket_ml_server.py:27-34) has only one effect, the
  `pop` on disconnect, which `Registry.Pop` models. Any other exception
  escaping it is not modelled.
- The iteration order of a Python set is unspecified, so `LiveHub.Tick`
  visits the clients in an arbitrary order.
- process_predictions.py, process_predictions2.py and WS_Test.py are not part
  of this model. They are spreadsheet extraction and a network test client.
