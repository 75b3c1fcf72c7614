/**
 src/connection.rs, one caller at a time: the connection handle with its bounded queue and stored
 eviction permit, and the writer's drain loop. `ConnectionSteps` takes the same calls apart into
 their atomic steps.
 */
module Connections {
  import opened Messages
  import opened Streams
  import opened Writers

  type ConnectionId = string

  datatype ConnectionState = Connecting | Open | Closing | Closed

  datatype SendError = ConnectionClosed | SlowConsumer

  datatype TryResult = Queued | Full | Disconnected

  /** What the clones of a connection share: state, outbound queue, its receiver, and the eviction permit. */
  datatype Link = Link(state: ConnectionState, queue: seq<Message>, capacity: nat, live: bool, permit: bool) {
    predicate Accepts() {
      state == Open && live && |queue| < capacity
    }

    predicate Overflows() {
      state == Open && live && |queue| >= capacity
    }

    /** Nothing is accepted from here on: see `DeadForever` in `RoomStreams`. */
    predicate Dead() {
      state != Open || !live
    }
  }

  /** The bounded channel's `try_send`: a dropped receiver is reported before a full queue. */
  function TrySend(l: Link, m: Message): (Link, TryResult) {
    if !l.live then (l, Disconnected)
    else if |l.queue| < l.capacity then (l.(queue := l.queue + [m]), Queued)
    else (l, Full)
  }

  /** A whole `send`: queue, evict, or refuse. */
  function AfterSend(l: Link, m: Message): Link {
    if l.Accepts() then l.(queue := l.queue + [m])
    else if l.Overflows() then l.(state := Closing, permit := true)
    else l
  }

  /** A whole `close`: the state always becomes Closing, and the close request leaves a Close or a permit. */
  function AfterClose(l: Link): Link {
    if l.live && |l.queue| < l.capacity then l.(state := Closing, queue := l.queue + [CLOSE])
    else l.(state := Closing, permit := true)
  }

  /** A burst of sends with nobody reading. */
  function AfterSends(l: Link, ms: seq<Message>): Link {
    if ms == [] then l else AfterSend(AfterSends(l, ms[..|ms| - 1]), ms[|ms| - 1])
  }

  /** What a burst leaves behind of a new connection. */
  predicate AfterBurst(l: Link, capacity: nat, ms: seq<Message>) {
    && l.live && l.capacity == capacity
    && l.queue == (if |ms| <= capacity then ms else ms[..capacity])
    && (l.state == Open <==> |ms| <= capacity)
    && (l.permit <==> |ms| > capacity)
  }

  lemma BurstNext(l: Link, capacity: nat, ms: seq<Message>, m: Message)
    requires AfterBurst(l, capacity, ms)
    ensures AfterBurst(AfterSend(l, m), capacity, ms + [m])
  {
    assert |ms| == capacity ==> (ms + [m])[..capacity] == ms;
    assert |ms| > capacity ==> (ms + [m])[..capacity] == ms[..capacity];
  }

  /**
   The queue takes exactly `capacity` messages: of a burst on a new connection that many are queued, in order,
   and the connection is evicted if and only if there is one more.
   */
  lemma {:induction false} CapacityIsExact(capacity: nat, ms: seq<Message>)
    ensures AfterBurst(AfterSends(Link(Open, [], capacity, true, false), ms), capacity, ms)
  {
    if ms != [] {
      var n := |ms| - 1;
      CapacityIsExact(capacity, ms[..n]);
      BurstNext(AfterSends(Link(Open, [], capacity, true, false), ms[..n]), capacity, ms[..n], ms[n]);
      assert ms[..n] + [ms[n]] == ms;
    }
  }

  class Connection {
    const id: ConnectionId
    const capacity: nat
    var state: ConnectionState
    var queue: seq<Message>
    var live: bool
    var permit: bool

    constructor (id: ConnectionId, capacity: nat)
      ensures this.id == id
      ensures Snapshot() == Link(Open, [], capacity, true, false)
    {
      this.id, this.capacity := id, capacity;
      state, queue, live, permit := Open, [], true, false;
    }

    function Snapshot(): Link
      reads this
    {
      Link(state, queue, capacity, live, permit)
    }

    method TrySendNow(message: Message) returns (r: TryResult)
      modifies this`queue
      ensures (Snapshot(), r) == TrySend(old(Snapshot()), message)
    {
      if !live {
        return Disconnected;
      }
      if |queue| >= capacity {
        return Full;
      }
      queue := queue + [message];
      return Queued;
    }

    method Send(message: Message) returns (r: Result<(), SendError>)
      modifies this
      ensures Snapshot() == AfterSend(old(Snapshot()), message)
      ensures r.Ok? <==> old(Snapshot()).Accepts()
      ensures r == Err(SlowConsumer) <==> old(Snapshot()).Overflows()
    {
      if state != Open {
        return Err(ConnectionClosed);
      }
      var tried := TrySendNow(message);
      match tried {
        case Queued => r := Ok(());
        case Full =>
          Evict();
          r := Err(SlowConsumer);
        case Disconnected => r := Err(ConnectionClosed);
      }
    }

    method Close()
      modifies this
      ensures Snapshot() == AfterClose(old(Snapshot()))
      ensures state == Closing
      ensures if old(live) && |old(queue)| < capacity then queue == old(queue) + [CLOSE] && permit == old(permit)
              else queue == old(queue) && permit
    {
      state := Closing;
      var tried := TrySendNow(CLOSE);
      if tried != Queued {
        permit := true;
      }
    }

    method Evict()
      modifies this`state, this`permit
      ensures Snapshot() == old(Snapshot()).(state := Closing, permit := true)
    {
      state := Closing;
      permit := true;
    }

    /** `evicted()` resolves: the stored permit is used up. */
    method Evicted() returns (was: bool)
      modifies this`permit
      ensures was == old(permit) && !permit
    {
      was := permit;
      permit := false;
    }

    method SetState(state: ConnectionState)
      modifies this`state
      ensures Snapshot() == old(Snapshot()).(state := state)
    {
      this.state := state;
    }
  }

  /** The server's writer task: the sink is left as it is when a write has failed. */
  class ConnectionWriter {
    const sink: Sink

    constructor (sink: Sink)
      ensures this.sink == sink
    {
      this.sink := sink;
    }

    method Run(incoming: seq<Message>) returns (ok: bool, taken: nat)
      modifies sink
      ensures ok <==> |Written(incoming)| <= old(sink.quota)
      ensures sink.sent == old(sink.sent) + (if ok then Written(incoming) else Written(incoming)[..old(sink.quota)])
      ensures sink.closed == (old(sink.closed) || ok)
      ensures taken <= |incoming|
      ensures ok ==> incoming[..taken] == UpToClose(incoming)
    {
      ok, taken := Drain(incoming, sink);
      if ok {
        sink.Close();
      }
    }
  }
}
