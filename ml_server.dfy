/**
  The game-filtered relay: the `clients` registry from connection to selector,
  the handshake that registers a connection, the idempotent `clients.pop`,
  and one `forward_data` delivery pass over a copy of the registry.
 */
module MlServer {
  import opened Wrappers
  import opened JsonValues
  import opened TopicFilter
  import opened Connections

  /** The key the subscription request carries its game under (lower-case id). */
  const RequestGameKey := "game_id"

  /** The first thing a connection's handler gets: a disconnect, or a text that
      decodes to a JSON object (Some) or does not (None). */
  datatype HandshakeMessage = ClientGone | Text(request: Option<Record>)

  /** Subscribed: registered; Disconnected: the handler popped the connection;
      Raised: an exception other than a disconnect left the handler. */
  datatype HandshakeOutcome = Subscribed(sel: Selector) | Disconnected | Raised

  /** The `predictions` field of a forwarded body: a list of records, or a value
      the comprehension cannot iterate (null, a number, a bool). */
  datatype PredictionsField = RecordList(records: seq<Record>) | NotIterable

  /** The body of a `forward_data` request: unreadable (not JSON, or not an object),
      or an object whose `predictions` field may be absent. */
  datatype ForwardRequest = Unreadable | Body(predictions: Option<PredictionsField>)

  /** The success message, or the error description. */
  datatype ForwardResponse = Forwarded | ForwardFailed

  /** The selector a decoded subscription request registers. */
  function SelectorOf(request: Record): (sel: Selector)
    ensures WellFormed(sel)
    ensures sel.Game? <==> RequestGameKey in request && Truthy(request[RequestGameKey])
    ensures sel.Game? ==> sel.id == request[RequestGameKey]
  {
    var gameId := Get(request, RequestGameKey);
    if Truthy(gameId) then Game(gameId) else AllGames
  }

  /** `data.get("predictions", [])`. */
  function PredictionsOf(field: Option<PredictionsField>): PredictionsField
  {
    if field.None? then RecordList([]) else field.value
  }

  /** The records the comprehension iterates, when it can iterate at all. */
  function RecordsOf(field: PredictionsField): seq<Record>
  {
    if field.RecordList? then field.records else []
  }

  /** Whether a connection comes through a pass: the filter can run, the connection
      is CONNECTED, and filtering, serialising and sending raise nothing. */
  function Survives(field: PredictionsField, connected: ConnId -> bool, sendOk: ConnId -> bool): ConnId -> bool
  {
    (ws: ConnId) => field.RecordList? && connected(ws) && sendOk(ws)
  }

  /** The elements of `s` that satisfy `ok`, in order. */
  function Kept(s: seq<ConnId>, ok: ConnId -> bool): seq<ConnId>
  {
    if s == [] then []
    else Kept(s[..|s| - 1], ok) + (if ok(s[|s| - 1]) then [s[|s| - 1]] else [])
  }

  /** Every connection but `ws`. */
  function Other(ws: ConnId): ConnId -> bool
  {
    (x: ConnId) => x != ws
  }

  /** The insertion order after `pop(ws)`. */
  function RemoveId(s: seq<ConnId>, ws: ConnId): seq<ConnId>
  {
    Kept(s, Other(ws))
  }

  /** The registry entries whose connection satisfies `ok`, selectors untouched. */
  function KeepEntries(m: map<ConnId, Selector>, ok: ConnId -> bool): map<ConnId, Selector>
  {
    map ws | ws in m && ok(ws) :: m[ws]
  }

  /** A list in which nothing occurs is empty. */
  lemma NothingListed(s: seq<ConnId>)
    requires forall x :: x !in s
    ensures s == []
  {
    forall x ensures multiset(s)[x] == 0 {
      assert x !in s;
    }
    assert multiset(s) == multiset{};
    assert |s| == |multiset(s)|;
  }

  /** Two registries with the same entries are the same registry. */
  lemma SameEntries(a: map<ConnId, Selector>, b: map<ConnId, Selector>)
    requires forall k :: k in a <==> k in b
    requires forall k :: k in a ==> a[k] == b[k]
    ensures a == b
  {
  }

  /** The payloads a pass over `order` hands to the transport. */
  function Deliveries(order: seq<ConnId>, clients: map<ConnId, Selector>, records: seq<Record>, ok: ConnId -> bool): seq<Delivery>
    requires forall ws :: ws in order ==> ws in clients
  {
    if order == [] then []
    else
      var ws := order[|order| - 1];
      Deliveries(order[..|order| - 1], clients, records, ok)
        + (if ok(ws) then [Delivery(ws, Filter(records, clients[ws]))] else [])
  }

  lemma {:induction false} KeptMembers(s: seq<ConnId>, ok: ConnId -> bool, x: ConnId)
    ensures x in Kept(s, ok) <==> x in s && ok(x)
  {
    if s != [] {
      var init := s[..|s| - 1];
      KeptMembers(init, ok, x);
      assert s == init + [s[|s| - 1]];
    }
  }

  lemma {:induction false} KeptDistinct(s: seq<ConnId>, ok: ConnId -> bool)
    requires Distinct(s)
    ensures Distinct(Kept(s, ok))
  {
    if s != [] {
      var init := s[..|s| - 1];
      var last := s[|s| - 1];
      assert s == init + [last];
      assert Distinct(init);
      KeptDistinct(init, ok);
      KeptMembers(init, ok, last);
      assert last !in init;
    }
  }

  lemma {:induction false} KeptAppend(a: seq<ConnId>, b: seq<ConnId>, ok: ConnId -> bool)
    ensures Kept(a + b, ok) == Kept(a, ok) + Kept(b, ok)
  {
    if b == [] {
      assert a + b == a;
    } else {
      var init := b[..|b| - 1];
      assert (a + b)[..|a + b| - 1] == a + init;
      assert (a + b)[|a + b| - 1] == b[|b| - 1];
      KeptAppend(a, init, ok);
    }
  }

  /** Keeping what all passes changes nothing. */
  lemma {:induction false} KeptAll(s: seq<ConnId>, ok: ConnId -> bool)
    requires forall x :: x in s ==> ok(x)
    ensures Kept(s, ok) == s
  {
    if s != [] {
      var init := s[..|s| - 1];
      assert s == init + [s[|s| - 1]];
      KeptAll(init, ok);
    }
  }

  /** `pop` removes that connection and keeps every other one. */
  lemma RemoveIdMembers(s: seq<ConnId>, ws: ConnId, x: ConnId)
    ensures x in RemoveId(s, ws) <==> x in s && x != ws
  {
    KeptMembers(s, Other(ws), x);
  }

  /** `pop` of an absent connection is a no-op. */
  lemma RemoveIdAbsent(s: seq<ConnId>, ws: ConnId)
    requires ws !in s
    ensures RemoveId(s, ws) == s
  {
    KeptAll(s, Other(ws));
  }

  /** A second `pop` of the same connection is a no-op. */
  lemma RemoveIdIdempotent(s: seq<ConnId>, ws: ConnId)
    ensures RemoveId(RemoveId(s, ws), ws) == RemoveId(s, ws)
  {
    RemoveIdMembers(s, ws, ws);
    RemoveIdAbsent(RemoveId(s, ws), ws);
  }

  /** Popping the connection at the head of the unvisited part, which occurs nowhere else. */
  lemma RemoveIdAtCursor(done: seq<ConnId>, ws: ConnId, rest: seq<ConnId>)
    requires ws !in done && ws !in rest
    ensures RemoveId(done + [ws] + rest, ws) == done + rest
  {
    var ok := Other(ws);
    var upto := done + [ws];
    assert upto[..|upto| - 1] == done;
    assert Kept(upto, ok) == Kept(done, ok);
    KeptAppend(upto, rest, ok);
    KeptAll(done, ok);
    KeptAll(rest, ok);
  }

  /** The pass sends to exactly the surviving connections, in registry order. */
  lemma {:induction false} DeliveriesRecipients(order: seq<ConnId>, clients: map<ConnId, Selector>, records: seq<Record>, ok: ConnId -> bool)
    requires forall ws :: ws in order ==> ws in clients
    ensures Recipients(Deliveries(order, clients, records, ok)) == Kept(order, ok)
  {
    if order != [] {
      var init := order[..|order| - 1];
      DeliveriesRecipients(init, clients, records, ok);
    }
  }

  /** Every payload sent is the filtered view of that connection's own selector. */
  lemma {:induction false} DeliveriesPayloads(order: seq<ConnId>, clients: map<ConnId, Selector>, records: seq<Record>, ok: ConnId -> bool, d: Delivery)
    requires forall ws :: ws in order ==> ws in clients
    requires d in Deliveries(order, clients, records, ok)
    ensures d.to in order && ok(d.to)
    ensures d.payload == Filter(records, clients[d.to])
  {
    var init := order[..|order| - 1];
    if d !in Deliveries(init, clients, records, ok) {
      assert d.to == order[|order| - 1];
    } else {
      DeliveriesPayloads(init, clients, records, ok, d);
    }
  }

  /** Each connection of a registry without repetitions receives exactly one payload
      if it survives the pass, and none otherwise, whatever happens to the others. */
  lemma DeliveredExactlyOnce(order: seq<ConnId>, clients: map<ConnId, Selector>, records: seq<Record>, ok: ConnId -> bool, ws: ConnId)
    requires Distinct(order)
    requires forall k :: k in order ==> k in clients
    ensures multiset(Recipients(Deliveries(order, clients, records, ok)))[ws] == if ws in order && ok(ws) then 1 else 0
  {
    DeliveriesRecipients(order, clients, records, ok);
    KeptDistinct(order, ok);
    KeptMembers(order, ok, ws);
    DistinctMultiplicity(Kept(order, ok), ws);
  }

  /** One step of the pass over the copied item list: the order afterwards. */
  lemma OrderStep(items: seq<ConnId>, i: nat, ok: ConnId -> bool)
    requires Distinct(items) && i < |items|
    ensures Kept(items[..i + 1], ok) + items[i + 1..]
         == if ok(items[i]) then Kept(items[..i], ok) + items[i..]
            else RemoveId(Kept(items[..i], ok) + items[i..], items[i])
  {
    var ws := items[i];
    assert items[..i + 1][..i] == items[..i];
    assert items[i..] == [ws] + items[i + 1..];
    if !ok(ws) {
      assert ws !in items[..i] && ws !in items[i + 1..];
      KeptMembers(items[..i], ok, ws);
      RemoveIdAtCursor(Kept(items[..i], ok), ws, items[i + 1..]);
      assert Kept(items[..i], ok) + items[i..] == Kept(items[..i], ok) + [ws] + items[i + 1..];
    }
  }

  /** One step of the pass over the copied item list: the log afterwards. */
  lemma DeliveryStep(items: seq<ConnId>, i: nat, clients: map<ConnId, Selector>, records: seq<Record>, ok: ConnId -> bool)
    requires i < |items|
    requires forall ws :: ws in items ==> ws in clients
    ensures Deliveries(items[..i + 1], clients, records, ok)
         == Deliveries(items[..i], clients, records, ok)
            + (if ok(items[i]) then [Delivery(items[i], Filter(records, clients[items[i]]))] else [])
  {
    assert items[..i + 1][..i] == items[..i];
  }

  /** After the pass, the entries left are those of the copied registry that came through. */
  lemma PassOutcome(items: seq<ConnId>, snapshot: map<ConnId, Selector>, clients: map<ConnId, Selector>, order: seq<ConnId>, ok: ConnId -> bool)
    requires forall ws :: ws in items <==> ws in snapshot
    requires forall ws :: ws in clients <==> ws in order
    requires forall ws :: ws in clients ==> ws in snapshot && clients[ws] == snapshot[ws]
    requires order == Kept(items, ok)
    ensures clients == KeepEntries(snapshot, ok)
  {
    forall ws ensures ws in clients <==> ws in snapshot && ok(ws) {
      KeptMembers(items, ok, ws);
    }
    SameEntries(clients, KeepEntries(snapshot, ok));
  }

  /**
    The global `clients` dict: `clients` holds its entries and `order` its
    insertion order, which is the order `list(clients.items())` lists them in.
   */
  class Registry {
    var clients: map<ConnId, Selector>
    var order: seq<ConnId>

    ghost predicate Valid()
      reads this
    {
      && Distinct(order)
      && (forall ws :: ws in clients ==> ws in order)
      && (forall k :: 0 <= k < |order| ==> order[k] in clients)
      && (forall ws :: ws in clients ==> WellFormed(clients[ws]))
    }

    /** `clients = {}`. */
    constructor ()
      ensures Valid()
      ensures clients == map[] && order == []
    {
      clients := map[];
      order := [];
    }

    /** `clients[ws] = sel`: a new key goes last, an existing key keeps its place. */
    method Assign(ws: ConnId, sel: Selector)
      requires Valid() && WellFormed(sel)
      modifies this
      ensures Valid()
      ensures clients == old(clients)[ws := sel]
      ensures order == if ws in old(clients) then old(order) else old(order) + [ws]
    {
      if ws !in clients {
        order := order + [ws];
      }
      clients := clients[ws := sel];
    }

    /** `clients.pop(ws, None)`: drops that one entry if present, otherwise nothing. */
    method Pop(ws: ConnId)
      requires Valid()
      modifies this
      ensures Valid()
      ensures clients == old(clients) - {ws}
      ensures order == RemoveId(old(order), ws)
      ensures ws !in old(clients) ==> clients == old(clients) && order == old(order)
    {
      var rest := RemoveId(order, ws);
      forall x ensures x in rest <==> x in order && x != ws {
        RemoveIdMembers(order, ws, x);
      }
      forall k | 0 <= k < |rest| ensures rest[k] in order && rest[k] != ws {
        assert rest[k] in rest;
      }
      KeptDistinct(order, Other(ws));
      if ws !in order {
        RemoveIdAbsent(order, ws);
      }
      clients := clients - {ws};
      order := rest;
    }

    /** The handler's first step: read the subscription request and register the connection. */
    method Handshake(ws: ConnId, msg: HandshakeMessage) returns (outcome: HandshakeOutcome)
      requires Valid()
      modifies this
      ensures Valid()
      ensures msg.ClientGone? ==>
        outcome == Disconnected && clients == old(clients) - {ws} && order == RemoveId(old(order), ws)
      ensures msg.Text? && msg.request.None? ==>
        outcome == Raised && clients == old(clients) && order == old(order)
      ensures msg.Text? && msg.request.Some? ==>
        var sel := SelectorOf(msg.request.value);
        && outcome == Subscribed(sel)
        && clients == old(clients)[ws := sel]
        && order == (if ws in old(clients) then old(order) else old(order) + [ws])
    {
      match msg
      case ClientGone =>
        Pop(ws);
        outcome := Disconnected;
      case Text(None) =>
        outcome := Raised;
      case Text(Some(request)) =>
        var sel := SelectorOf(request);
        Assign(ws, sel);
        outcome := Subscribed(sel);
    }

    /**
      One `forward_data` call. `connected(ws)` is whether the connection's state is
      CONNECTED; `sendOk(ws)` is whether filtering, serialising and sending to it
      raise nothing. Returns the response and the payloads handed to the transport.
     */
    method ForwardData(req: ForwardRequest, connected: ConnId -> bool, sendOk: ConnId -> bool)
      returns (resp: ForwardResponse, sent: seq<Delivery>)
      requires Valid()
      modifies this
      ensures Valid()
      ensures req.Unreadable? ==>
        resp == ForwardFailed && sent == [] && clients == old(clients) && order == old(order)
      ensures req.Body? ==>
        var field := PredictionsOf(req.predictions);
        var ok := Survives(field, connected, sendOk);
        && resp == Forwarded
        && clients == KeepEntries(old(clients), ok)
        && order == Kept(old(order), ok)
        && sent == Deliveries(old(order), old(clients), RecordsOf(field), ok)
      ensures req.Body? && old(clients) == map[] ==>
        resp == Forwarded && sent == [] && clients == old(clients) && order == old(order)
    {
      sent := [];
      if req.Unreadable? {
        resp := ForwardFailed;
        return;
      }
      var field := PredictionsOf(req.predictions);
      if clients != map[] {
        sent := DeliveryPass(field, connected, sendOk);
      } else {
        assert forall ws :: ws !in order;
        NothingListed(order);
        SameEntries(clients, KeepEntries(clients, Survives(field, connected, sendOk)));
      }
      resp := Forwarded;
    }

    /** The `for` loop of `forward_data` over `list(clients.items())`. */
    method DeliveryPass(field: PredictionsField, connected: ConnId -> bool, sendOk: ConnId -> bool)
      returns (sent: seq<Delivery>)
      requires Valid()
      modifies this
      ensures Valid()
      ensures
        var ok := Survives(field, connected, sendOk);
        && clients == KeepEntries(old(clients), ok)
        && order == Kept(old(order), ok)
        && sent == Deliveries(old(order), old(clients), RecordsOf(field), ok)
    {
      ghost var ok := Survives(field, connected, sendOk);
      var items, snapshot := order, clients;
      assert Distinct(items);
      assert forall ws :: ws in items <==> ws in snapshot;
      sent := [];
      for i := 0 to |items|
        invariant Valid()
        invariant forall w :: w in clients ==> w in snapshot && clients[w] == snapshot[w]
        invariant order == Kept(items[..i], ok) + items[i..]
        invariant sent == Deliveries(items[..i], snapshot, RecordsOf(field), ok)
      {
        var ws := items[i];
        OrderStep(items, i, ok);
        DeliveryStep(items, i, snapshot, RecordsOf(field), ok);
        var delivered := Visit(ws, snapshot[ws], field, connected, sendOk);
        sent := sent + delivered;
      }
      assert items[..|items|] == items;
      PassOutcome(items, snapshot, clients, order, ok);
    }

    /** The `try` block of the pass for one copied entry `(ws, sel)`. */
    method Visit(ws: ConnId, sel: Selector, field: PredictionsField, connected: ConnId -> bool, sendOk: ConnId -> bool)
      returns (delivered: seq<Delivery>)
      requires Valid()
      modifies this
      ensures Valid()
      ensures Survives(field, connected, sendOk)(ws) ==>
        clients == old(clients) && order == old(order) && delivered == [Delivery(ws, Filter(RecordsOf(field), sel))]
      ensures !Survives(field, connected, sendOk)(ws) ==>
        clients == old(clients) - {ws} && order == RemoveId(old(order), ws) && delivered == []
    {
      delivered := [];
      match field
      case NotIterable =>
        // iterating a value that is not a list raises inside the try
        Pop(ws);
      case RecordList(records) =>
        var filtered := Filter(records, sel);
        if connected(ws) {
          if sendOk(ws) {
            delivered := [Delivery(ws, filtered)];
          } else {
            Pop(ws);
          }
        } else {
          Pop(ws);
        }
    }
  }
}
