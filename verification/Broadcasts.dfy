/**
 What one message sent to a set of connections does to their links, and why the order of visiting
 them does not matter.
 */
module Broadcasts {
  import opened Messages
  import opened Connections

  type Links = map<ConnectionId, Link>

  /** Those that take the message: registered, Open, with a live receiver and queue space. */
  function Receivers(links: Links, to: set<ConnectionId>): set<ConnectionId> {
    set c | c in to && c in links && links[c].Accepts()
  }

  function AfterBroadcast(links: Links, to: set<ConnectionId>, m: Message): Links {
    map c | c in links :: if c in to then AfterSend(links[c], m) else links[c]
  }

  /** One more connection is visited. */
  lemma VisitNext(links: Links, to: set<ConnectionId>, c: ConnectionId, m: Message)
    requires c !in to
    ensures AfterBroadcast(links, to + {c}, m) == AfterBroadcast(AfterBroadcast(links, to, m), {c}, m)
    ensures |Receivers(links, to + {c})| == |Receivers(links, to)| + if c in links && links[c].Accepts() then 1 else 0
  {
    if c in links && links[c].Accepts() {
      assert Receivers(links, to + {c}) == Receivers(links, to) + {c};
    } else {
      assert Receivers(links, to + {c}) == Receivers(links, to);
    }
  }

  /** Visiting one after another, counting the sends that succeed. */
  function SendInOrder(links: Links, order: seq<ConnectionId>, m: Message): (Links, nat) {
    if order == [] then (links, 0)
    else
      var n := |order| - 1;
      var (before, count) := SendInOrder(links, order[..n], m);
      if order[n] !in before then (before, count)
      else (before[order[n] := AfterSend(before[order[n]], m)], if before[order[n]].Accepts() then count + 1 else count)
  }

  function Ids(order: seq<ConnectionId>): set<ConnectionId> {
    set c | c in order
  }

  predicate NoRepeats(order: seq<ConnectionId>) {
    forall i, j :: 0 <= i < j < |order| ==> order[i] != order[j]
  }

  lemma VisitOne(links: Links, c: ConnectionId, m: Message)
    ensures AfterBroadcast(links, {c}, m) == if c in links then links[c := AfterSend(links[c], m)] else links
  {
  }

  /** Any order of visiting gives the same final links and the same count. */
  lemma {:induction false} OrderDoesNotMatter(links: Links, order: seq<ConnectionId>, m: Message)
    requires NoRepeats(order)
    ensures var to := Ids(order);
            SendInOrder(links, order, m) == (AfterBroadcast(links, to, m), |Receivers(links, to)|)
  {
    if order == [] {
      assert Ids(order) == {};
      NobodyVisited(links, m);
    } else {
      var n := |order| - 1;
      OrderDoesNotMatter(links, order[..n], m);
      LastVisited(order);
      var to0 := Ids(order[..n]);
      VisitNext(links, to0, order[n], m);
      VisitOne(AfterBroadcast(links, to0, m), order[n], m);
    }
  }

  lemma NobodyVisited(links: Links, m: Message)
    ensures AfterBroadcast(links, {}, m) == links && Receivers(links, {}) == {}
  {
  }

  lemma LastVisited(order: seq<ConnectionId>)
    requires NoRepeats(order) && order != []
    ensures var last := order[|order| - 1]; var before := Ids(order[..|order| - 1]);
            last !in before && Ids(order) == before + {last}
  {
    assert order == order[..|order| - 1] + [order[|order| - 1]];
  }

  /** What one message does to one of those it is sent to, or to anyone else. */
  lemma EffectOnOne(links: Links, to: set<ConnectionId>, m: Message, c: ConnectionId)
    requires c in links
    ensures var l, l' := links[c], AfterBroadcast(links, to, m)[c];
            && (l'.queue == l.queue + [m] <==> c in Receivers(links, to))
            && (c in Receivers(links, to) ==> l' == l.(queue := l.queue + [m]))
            && (c in to && l.Overflows() ==> l' == l.(state := Closing, permit := true))
            && (l' != l ==> c in to && (l.Accepts() || l.Overflows()))
  {
    assert |links[c].queue + [m]| == |links[c].queue| + 1;
  }

  /**
   A broadcast that visits each of its connections once, in whatever order: the count is the number of
   connections whose queue has gained the message; exactly the full ones are evicted; nobody else changes.
   */
  lemma BroadcastIsExact(links: Links, order: seq<ConnectionId>, m: Message)
    requires NoRepeats(order)
    ensures var (after, count) := SendInOrder(links, order, m);
            && after.Keys == links.Keys
            && count == |set c | c in links && after[c].queue == links[c].queue + [m]|
            && (forall c :: c in links && after[c].queue == links[c].queue + [m] ==>
                  c in order && after[c] == links[c].(queue := links[c].queue + [m]))
            && (forall c :: c in links && after[c].queue != links[c].queue + [m] ==>
                  after[c] == if c in order && links[c].Overflows() then links[c].(state := Closing, permit := true)
                              else links[c])
  {
    var to := Ids(order);
    var (after, count) := SendInOrder(links, order, m);
    OrderDoesNotMatter(links, order, m);
    forall c | c in links
      ensures after[c].queue == links[c].queue + [m] <==> c in Receivers(links, to)
      ensures c !in Receivers(links, to) ==>
                after[c] == if c in to && links[c].Overflows() then links[c].(state := Closing, permit := true)
                            else links[c]
    {
      EffectOnOne(links, to, m, c);
    }
    assert Receivers(links, to) == set c | c in links && after[c].queue == links[c].queue + [m];
  }
}
