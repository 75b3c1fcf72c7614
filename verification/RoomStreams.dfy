/**
 The stream a room member sees: whole calls on the room manager and on the connections, in any
 order, between a member's join and its leave.
 */
module RoomStreams {
  import opened Messages
  import opened Connections
  import opened RoomIndex
  import opened Broadcasts

  /** `links` keeps the links of every connection ever registered; handles outlive registration. */
  datatype World = World(index: Index, links: Links, capacity: nat)

  datatype Event =
    | Manage(call: Call)
    | ToRoom(room: RoomId, message: Message)
    | ToRoomExcept(room: RoomId, message: Message, except: ConnectionId)
    | ToAll(message: Message)
    | ToOne(c: ConnectionId, message: Message)
    | Close(c: ConnectionId)
    | WriterReceives(c: ConnectionId)
    | ReceiverDropped(c: ConnectionId)
    | EvictionNoticed(c: ConnectionId)
    | MarkedClosed(c: ConnectionId)

  /** Registered ids are new ones, as the server's are. */
  predicate Possible(w: World, e: Event) {
    match e
    case Manage(Register(c)) => c !in w.links
    case Manage(_) => true
    case ToRoom(_, _) => true
    case ToRoomExcept(_, _, _) => true
    case ToAll(_) => true
    case WriterReceives(c) => c in w.links && w.links[c].live && w.links[c].queue != []
    case _ => e.c in w.links
  }

  function Broadcast(w: World, to: set<ConnectionId>, m: Message): World {
    w.(links := AfterBroadcast(w.links, to * w.index.connections, m))
  }

  function Members(w: World, room: RoomId): set<ConnectionId> {
    if room in w.index.rooms then w.index.rooms[room] else {}
  }

  function Step(w: World, e: Event): World
    requires Possible(w, e)
  {
    match e
    case Manage(call) =>
      World(Apply(w.index, call),
            if call.Register? then w.links[call.c := Link(Open, [], w.capacity, true, false)] else w.links,
            w.capacity)
    case ToRoom(room, m) => Broadcast(w, Members(w, room), m)
    case ToRoomExcept(room, m, except) => Broadcast(w, Members(w, room) - {except}, m)
    case ToAll(m) => Broadcast(w, w.index.connections, m)
    case ToOne(c, m) => w.(links := w.links[c := AfterSend(w.links[c], m)])
    case Close(c) => w.(links := w.links[c := AfterClose(w.links[c])])
    case WriterReceives(c) => w.(links := w.links[c := w.links[c].(queue := w.links[c].queue[1..])])
    case ReceiverDropped(c) => w.(links := w.links[c := w.links[c].(live := false)])
    case EvictionNoticed(c) => w.(links := w.links[c := w.links[c].(permit := false)])
    case MarkedClosed(c) => w.(links := w.links[c := w.links[c].(state := Closed)])
  }

  predicate AllPossible(w: World, es: seq<Event>)
    decreases |es|
  {
    es != [] ==> Possible(w, es[0]) && AllPossible(Step(w, es[0]), es[1..])
  }

  function After(w: World, es: seq<Event>): World
    requires AllPossible(w, es)
    decreases |es|
  {
    if es == [] then w else After(Step(w, es[0]), es[1..])
  }

  /** `c` is registered and in the room now and after each of the events. */
  predicate StaysMember(w: World, es: seq<Event>, c: ConnectionId, room: RoomId)
    requires AllPossible(w, es)
    decreases |es|
  {
    && c in w.links && c in w.index.connections && IsMember(w.index, c, room)
    && (es != [] ==> StaysMember(Step(w, es[0]), es[1..], c, room))
  }

  /** The event broadcasts to the room, and not to all of it but `c`. */
  predicate Addresses(e: Event, c: ConnectionId, room: RoomId) {
    (e.ToRoom? && e.room == room) || (e.ToRoomExcept? && e.room == room && e.except != c)
  }

  /** The messages broadcast to the room for `c` to see. */
  function Addressed(es: seq<Event>, c: ConnectionId, room: RoomId): seq<Message> {
    if es == [] then []
    else (if Addresses(es[0], c, room) then [es[0].message] else []) + Addressed(es[1..], c, room)
  }

  /** Of those, the ones that reached the queue of `c`. */
  function Copies(w: World, es: seq<Event>, c: ConnectionId, room: RoomId): seq<Message>
    requires AllPossible(w, es) && StaysMember(w, es, c, room)
    decreases |es|
  {
    if es == [] then []
    else
      var w' := Step(w, es[0]);
      (if Addresses(es[0], c, room) && w'.links[c].queue == w.links[c].queue + [es[0].message] then [es[0].message]
       else [])
      + Copies(w', es[1..], c, room)
  }

  lemma DeadOneMore(w: World, e: Event, c: ConnectionId)
    requires Possible(w, e) && c in w.links && w.links[c].Dead()
    ensures c in Step(w, e).links && Step(w, e).links[c].Dead()
    ensures var q, q' := w.links[c].queue, Step(w, e).links[c].queue;
            q' == q || (q != [] && q' == q[1..]) || (e == Event.Close(c) && q' == q + [CLOSE])
  {
  }

  function Closes(n: nat): seq<Message> {
    seq(n, _ => CLOSE)
  }

  /** How often `close` is called on `c`. */
  function CloseCalls(es: seq<Event>, c: ConnectionId): nat {
    if es == [] then 0 else (if es[0] == Event.Close(c) then 1 else 0) + CloseCalls(es[1..], c)
  }

  /** `after` is what is left of `before` with at most `most` Closes behind it. */
  ghost predicate DrainedBehindCloses(before: seq<Message>, after: seq<Message>, most: nat) {
    exists taken: nat, n: nat :: n <= most && taken <= |before| + n && after == (before + Closes(n))[taken..]
  }

  lemma DrainOneMore(q: seq<Message>, q': seq<Message>, after: seq<Message>, close: bool, most: nat)
    requires q' == q || (q != [] && q' == q[1..]) || (close && q' == q + [CLOSE])
    requires DrainedBehindCloses(q', after, most)
    ensures DrainedBehindCloses(q, after, most + if close then 1 else 0)
  {
    var taken: nat, n: nat :| n <= most && taken <= |q'| + n && after == (q' + Closes(n))[taken..];
    if q' == q {
    } else if q != [] && q' == q[1..] {
      assert after == (q + Closes(n))[taken + 1..];
    } else {
      assert q + Closes(n + 1) == q' + Closes(n);
    }
  }

  /**
   A connection that has left Open, or lost its receiver, stays so whatever happens; its queue only drains,
   and gains nothing but the Close of a `close` on it.
   */
  lemma {:induction false} DeadForever(w: World, es: seq<Event>, c: ConnectionId)
    requires AllPossible(w, es) && c in w.links && w.links[c].Dead()
    ensures c in After(w, es).links && After(w, es).links[c].Dead()
    ensures DrainedBehindCloses(w.links[c].queue, After(w, es).links[c].queue, CloseCalls(es, c))
    decreases |es|
  {
    if es == [] {
      assert w.links[c].queue == (w.links[c].queue + Closes(0))[0..];
    } else {
      DeadOneMore(w, es[0], c);
      DeadForever(Step(w, es[0]), es[1..], c);
      DrainOneMore(w.links[c].queue, Step(w, es[0]).links[c].queue, After(w, es).links[c].queue,
                   es[0] == Event.Close(c), CloseCalls(es[1..], c));
    }
  }

  lemma {:induction false} NoCopiesOnceDead(w: World, es: seq<Event>, c: ConnectionId, room: RoomId)
    requires AllPossible(w, es) && StaysMember(w, es, c, room) && w.links[c].Dead()
    ensures Copies(w, es, c, room) == []
    decreases |es|
  {
    if es != [] {
      DeadOneMore(w, es[0], c);
      NoCopiesOnceDead(Step(w, es[0]), es[1..], c, room);
      assert Addresses(es[0], c, room) ==> |w.links[c].queue + [es[0].message]| > |w.links[c].queue|;
    }
  }

  /**
   The gap-free stream. Between a join and a leave the copies a member receives are a contiguous
   prefix of the room's broadcasts: whoever misses one misses all later ones, because by then the
   connection is dead.
   */
  lemma {:induction false} StreamHasNoGap(w: World, es: seq<Event>, c: ConnectionId, room: RoomId)
    requires AllPossible(w, es) && StaysMember(w, es, c, room)
    ensures Copies(w, es, c, room) <= Addressed(es, c, room)
    ensures c in After(w, es).links
    ensures Copies(w, es, c, room) != Addressed(es, c, room) ==> After(w, es).links[c].Dead()
    decreases |es|
  {
    if es != [] {
      var w' := Step(w, es[0]);
      StreamHasNoGap(w', es[1..], c, room);
      if Addresses(es[0], c, room) {
        var to := if es[0].ToRoom? then Members(w, room) else Members(w, room) - {es[0].except};
        EffectOnOne(w.links, to * w.index.connections, es[0].message, c);
        if !w.links[c].Accepts() {
          NoCopiesOnceDead(w', es[1..], c, room);
          DeadForever(w', es[1..], c);
        }
      }
    }
  }

  /** Whom a broadcast is for. */
  predicate IsFor(w: World, e: Event, c: ConnectionId)
    requires e.ToRoom? || e.ToRoomExcept? || e.ToAll?
  {
    && c in w.index.connections
    && match e
       case ToRoom(room, _) => IsMember(w.index, c, room)
       case ToRoomExcept(room, _, except) => IsMember(w.index, c, room) && c != except
       case ToAll(_) => true
  }

  /** A broadcast is a send to each of those it is for, and touches nobody else, the one left out included. */
  lemma BroadcastsReachExactly(w: World, e: Event, c: ConnectionId)
    requires e.ToRoom? || e.ToRoomExcept? || e.ToAll?
    requires c in w.links
    ensures c in Step(w, e).links && Step(w, e).index == w.index
    ensures Step(w, e).links[c] == if IsFor(w, e, c) then AfterSend(w.links[c], e.message) else w.links[c]
  {
  }
}
