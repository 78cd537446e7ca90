/**
  The broadcast relay: a `clients` set that connections join with `add` and
  leave with `remove`, and one iteration of `send_live_nba_data`, which sends
  one fixed payload to every client and drops the clients whose send raised.
 */
module LiveServer {
  import opened JsonValues
  import opened Connections

  /** The two hard-coded sample predictions every tick sends. */
  function SampleData(): seq<Record>
  {
    [ map["game_id" := Str("LAL_vs_BOS"), "total" := Num(220.5), "over" := Str("54.2%"), "under" := Str("45.8%")],
      map["game_id" := Str("MIA_vs_NYK"), "total" := Num(216.5), "over" := Str("43.6%"), "under" := Str("56.4%")] ]
  }

  /** `set.remove` either removes its element or raises KeyError. */
  datatype RemoveOutcome = Removed | KeyError

  /** The global `clients` set. */
  class LiveHub {
    var clients: set<ConnId>

    /** `clients = set()`. */
    constructor ()
      ensures clients == {}
    {
      clients := {};
    }

    /** `clients.add(ws)` on connect; adding a present connection changes nothing. */
    method Add(ws: ConnId)
      modifies this
      ensures clients == old(clients) + {ws}
      ensures ws in old(clients) ==> clients == old(clients)
    {
      clients := clients + {ws};
    }

    /** `clients.remove(ws)`: raises KeyError, changing nothing, when `ws` is absent. */
    method Remove(ws: ConnId) returns (outcome: RemoveOutcome)
      modifies this
      ensures outcome == if ws in old(clients) then Removed else KeyError
      ensures clients == old(clients) - {ws}
      ensures outcome == KeyError ==> clients == old(clients)
    {
      if ws in clients {
        clients := clients - {ws};
        outcome := Removed;
      } else {
        outcome := KeyError;
      }
    }

    /**
      One iteration of the `while True` loop, without the sleep. `sendOk(c)` is
      whether `send_text` to `c` returns normally. Returns the payloads sent.
     */
    method Tick(sendOk: ConnId -> bool) returns (sent: seq<Delivery>)
      modifies this
      ensures clients == set c | c in old(clients) && sendOk(c)
      ensures old(clients) == {} ==> sent == []
      ensures Distinct(Recipients(sent))
      ensures forall c :: c in Recipients(sent) <==> c in old(clients) && sendOk(c)
      ensures forall i :: 0 <= i < |sent| ==> sent[i].payload == SampleData()
    {
      sent := [];
      if clients != {} {
        var payload := SampleData();
        var pending := clients;
        ghost var start := clients;
        while pending != {}
          invariant pending <= start
          invariant clients == set c | c in start && (c in pending || sendOk(c))
          invariant Distinct(Recipients(sent))
          invariant forall c :: c in Recipients(sent) <==> c in start && c !in pending && sendOk(c)
          invariant forall i :: 0 <= i < |sent| ==> sent[i].payload == payload
          decreases pending
        {
          var c :| c in pending;
          pending := pending - {c};
          if sendOk(c) {
            assert Recipients(sent + [Delivery(c, payload)]) == Recipients(sent) + [c];
            sent := sent + [Delivery(c, payload)];
          } else {
            var outcome := Remove(c);
            // the element was listed from the set a moment ago and nothing else removed it
            assert outcome == Removed;
          }
        }
      }
    }
  }
}
