/**
  The per-subscriber topic filter of `forward_data`: the list comprehension
  `[p for p in predictions if game_id is None or p.get("game_ID") == game_id]`.
 */
module TopicFilter {
  import opened JsonValues

  /** The key a prediction record carries its game under (note the capital ID). */
  const RecordGameKey := "game_ID"

  /** A subscription: every game (Python `None`), or one game identifier. */
  datatype Selector = AllGames | Game(id: Value)

  /** The handshake only ever stores a truthy identifier. */
  predicate WellFormed(sel: Selector)
  {
    sel.Game? ==> Truthy(sel.id)
  }

  /** The comprehension's condition for one record. */
  predicate Matches(p: Record, sel: Selector)
  {
    sel.AllGames? || PyEquals(Get(p, RecordGameKey), sel.id)
  }

  /** The filtered view one subscriber is sent. */
  function Filter(ps: seq<Record>, sel: Selector): (r: seq<Record>)
    ensures |r| <= |ps|
    ensures forall x :: x in r ==> x in ps && Matches(x, sel)
  {
    if ps == [] then []
    else (if Matches(ps[0], sel) then [ps[0]] else []) + Filter(ps[1..], sel)
  }

  /** The wildcard subscriber gets the whole list, in its order. */
  lemma {:induction false} FilterAllGames(ps: seq<Record>)
    ensures Filter(ps, AllGames) == ps
  {
    if ps != [] {
      FilterAllGames(ps[1..]);
      assert ps == [ps[0]] + ps[1..];
    }
  }

  /** Filtering a concatenation filters each part and keeps them in order. */
  lemma {:induction false} FilterAppend(a: seq<Record>, b: seq<Record>, sel: Selector)
    ensures Filter(a + b, sel) == Filter(a, sel) + Filter(b, sel)
  {
    if a == [] {
      assert a + b == b;
    } else {
      assert (a + b)[0] == a[0];
      assert (a + b)[1..] == a[1..] + b;
      FilterAppend(a[1..], b, sel);
    }
  }

  /** A single record is kept exactly when it matches. */
  lemma FilterSingleton(p: Record, sel: Selector)
    ensures Filter([p], sel) == if Matches(p, sel) then [p] else []
  {
  }

  /** A record is in the view exactly when it is in the list and matches. */
  lemma {:induction false} FilterMembers(ps: seq<Record>, sel: Selector, x: Record)
    ensures x in Filter(ps, sel) <==> x in ps && Matches(x, sel)
  {
    if ps != [] {
      FilterMembers(ps[1..], sel, x);
      assert x in ps <==> x == ps[0] || x in ps[1..];
    }
  }

  /** The view holds every matching record as often as the list does, and no other. */
  lemma {:induction false} FilterMultiplicity(ps: seq<Record>, sel: Selector, x: Record)
    ensures multiset(Filter(ps, sel))[x] == if Matches(x, sel) then multiset(ps)[x] else 0
  {
    if ps != [] {
      FilterMultiplicity(ps[1..], sel, x);
      assert ps == [ps[0]] + ps[1..];
      assert multiset(ps) == multiset([ps[0]]) + multiset(ps[1..]);
    }
  }

  /** For a game subscriber, a record without a `game_ID` field (or with a null one) never matches. */
  lemma FilterSkipsUntagged(ps: seq<Record>, g: Value, x: Record)
    requires Truthy(g)
    requires RecordGameKey !in x || x[RecordGameKey] == Null
    ensures x !in Filter(ps, Game(g))
  {
  }

  /** An unknown game yields the empty view, which is still a list to send. */
  lemma {:induction false} FilterUnknownGame(ps: seq<Record>, sel: Selector)
    requires forall i :: 0 <= i < |ps| ==> !Matches(ps[i], sel)
    ensures Filter(ps, sel) == []
  {
    if ps != [] {
      FilterUnknownGame(ps[1..], sel);
    }
  }

  /** Filtering twice with the same selector changes nothing. */
  lemma {:induction false} FilterIdempotent(ps: seq<Record>, sel: Selector)
    ensures Filter(Filter(ps, sel), sel) == Filter(ps, sel)
  {
    if ps != [] {
      FilterIdempotent(ps[1..], sel);
      var head := if Matches(ps[0], sel) then [ps[0]] else [];
      FilterAppend(head, Filter(ps[1..], sel), sel);
      if Matches(ps[0], sel) {
        FilterSingleton(ps[0], sel);
      }
    }
  }
}
