/**
  What both relay servers share: connections as opaque identifiers, the log of
  payloads a pass hands to the transport, and distinctness of a list of connections.
 */
module Connections {
  import opened JsonValues

  /** A WebSocket connection; only its identity matters to the registries. */
  type ConnId = nat

  /** One successful `send_text`: the connection and the records its JSON text encodes. */
  datatype Delivery = Delivery(to: ConnId, payload: seq<Record>)

  predicate Distinct(s: seq<ConnId>)
  {
    forall i, j :: 0 <= i < j < |s| ==> s[i] != s[j]
  }

  /** The connections a log of deliveries went to, in order. */
  function Recipients(ds: seq<Delivery>): (r: seq<ConnId>)
    ensures |r| == |ds|
    ensures forall i :: 0 <= i < |ds| ==> r[i] == ds[i].to
  {
    seq(|ds|, i requires 0 <= i < |ds| => ds[i].to)
  }

  /** In a list without repetitions every element occurs once. */
  lemma {:induction false} DistinctMultiplicity(s: seq<ConnId>, x: ConnId)
    requires Distinct(s)
    ensures multiset(s)[x] == if x in s then 1 else 0
  {
    if s != [] {
      var init := s[..|s| - 1];
      assert s == init + [s[|s| - 1]];
      assert Distinct(init);
      DistinctMultiplicity(init, x);
      assert s[|s| - 1] !in init;
    }
  }
}
