/**
 What the server's and the client's writer have in common: the socket they write to, the loop that
 drains a queue onto it, and the same loop as a machine that others may queue messages for.
 */
module Writers {
  import opened Messages
  import opened Streams

  /** The write half of the socket: `quota` more frames go out, then writing fails. */
  class Sink {
    var sent: seq<RawMessage>
    var quota: nat
    var closed: bool

    method Send(raw: RawMessage) returns (ok: bool)
      modifies this`sent, this`quota
      ensures ok <==> old(quota) > 0
      ensures sent == old(sent) + (if ok then [raw] else [])
      ensures quota == if ok then old(quota) - 1 else 0
    {
      ok := quota > 0;
      if ok {
        sent := sent + [raw];
        quota := quota - 1;
      }
    }

    method Close()
      modifies this`closed
      ensures closed
    {
      closed := true;
    }
  }

  /**
   Drains a queue that yields `incoming` before its last sender is gone. The loop puts exactly
   `Written(incoming)` on the wire, or as much of it as the socket takes, and stops reading after
   the first Close.
   */
  method Drain(incoming: seq<Message>, sink: Sink) returns (ok: bool, taken: nat)
    modifies sink`sent, sink`quota
    ensures ok <==> |Written(incoming)| <= old(sink.quota)
    ensures sink.sent == old(sink.sent) + (if ok then Written(incoming) else Written(incoming)[..old(sink.quota)])
    ensures taken <= |incoming|
    ensures ok ==> incoming[..taken] == UpToClose(incoming)
  {
    taken := 0;
    ghost var sent0, quota0 := sink.sent, sink.quota;
    ghost var read: seq<Message> := [];
    while taken < |incoming|
      invariant taken <= |incoming| && read == incoming[..taken] && NoClose(read)
      invariant sink.sent == sent0 + Written(read)
      invariant sink.quota == quota0 - |Written(read)|
    {
      var message := incoming[taken];
      WriterReadsOne(read, message, incoming[taken + 1..]);
      assert incoming == read + [message] + incoming[taken + 1..];
      read := read + [message];
      taken := taken + 1;
      var isClose := message.IsClose();
      var converted := ToRaw(message);
      if converted.Err? {
        continue;
      }
      var sent := sink.Send(converted.value);
      if !sent {
        return false, taken;
      }
      if isClose {
        break;
      }
    }
    if NoClose(read) {
      assert read == incoming;
      UpToCloseAll(incoming);
    }
    ok := true;
  }

  // ------------------------------------------------ the loop beside those who queue for it

  /**
   A queue and its writer. `held`: received, not yet on the wire; `over`: the loop has ended; `accepted`,
   `taken` and `wire`: everything queued, everything the writer is done with, every frame written.
   */
  datatype Outbound = Outbound(
    accepted: seq<Message>,
    queue: seq<Message>,
    held: Option<Message>,
    over: bool,
    taken: seq<Message>,
    wire: seq<RawMessage>)

  datatype Move = Stay | Queue(message: Message) | Receive | Drop | Send | Stop

  function InHand(held: Option<Message>): seq<Message> {
    if held.Some? then [held.value] else []
  }

  predicate Possible(o: Outbound, move: Move) {
    match move
    case Receive => o.held.None? && !o.over && o.queue != []
    case Drop => o.held.Some? && !Sendable(o.held.value)
    case Send => o.held.Some? && Sendable(o.held.value)
    case _ => true
  }

  function After(o: Outbound, move: Move): Outbound
    requires Possible(o, move)
  {
    match move
    case Stay => o
    case Queue(m) => o.(accepted := o.accepted + [m], queue := o.queue + [m])
    case Receive => o.(held := Some(o.queue[0]), queue := o.queue[1..])
    case Drop => o.(taken := o.taken + [o.held.value], held := None)
    case Send =>
      o.(taken := o.taken + [o.held.value],
      wire := o.wire + [ToRaw(o.held.value).value],
      held := None,
      over := o.held.value.IsClose())
    case Stop => o.(taken := o.taken + InHand(o.held), held := None, over := true)
  }

  /** The move of a caller that queues at most one message. */
  function Queueing(before: Outbound, after: Outbound): Move {
    if |after.accepted| <= |before.accepted| then Stay else Queue(after.accepted[|after.accepted| - 1])
  }

  /** Nothing is reordered, duplicated or lost on the way to the writer. */
  predicate Conserved(o: Outbound) {
    o.accepted == o.taken + InHand(o.held) + o.queue
  }

  /** The wire carries `Written` of what the writer is done with, or a prefix once the loop has ended. */
  predicate OnTheWire(o: Outbound) {
    if o.over then o.held.None? && o.wire <= Written(o.taken) else NoClose(o.taken) && o.wire == Written(o.taken)
  }

  predicate Sound(o: Outbound) {
    Conserved(o) && OnTheWire(o)
  }

  lemma SoundAfter(o: Outbound, move: Move)
    requires Sound(o) && Possible(o, move)
    ensures Sound(After(o, move)) && o.wire <= After(o, move).wire
  {
    if o.held.Some? {
      WriterReadsOne(o.taken, o.held.value, []);
    }
    match move
    case Receive => assert o.queue == [o.queue[0]] + o.queue[1..];
    case Stop => assert o.taken + [] == o.taken;
    case _ =>
  }

  /** The writer has dealt with everything queued: a Close went out, or it waits at an empty queue. */
  predicate Finished(o: Outbound) {
    || EndsInClose(o.wire)
    || (!o.over && o.held.None? && o.queue == [])
  }

  /** The wire is a prefix of `Written` of everything queued, all of it once the writer is done; Close comes last. */
  lemma WireFollows(o: Outbound)
    requires Sound(o)
    ensures o.wire <= Written(o.accepted)
    ensures Finished(o) ==> o.wire == Written(o.accepted)
    ensures forall k :: 0 <= k < |o.wire| - 1 ==> !o.wire[k].RawClose?
  {
    var rest := InHand(o.held) + o.queue;
    assert o.accepted == o.taken + rest;
    WrittenMonotone(o.taken, rest);
    CloseIsWrittenLast(o.accepted);
    assert forall k :: 0 <= k < |o.wire| ==> o.wire[k] == Written(o.accepted)[k];
    assert !o.over && rest == [] ==> o.accepted == o.taken;
  }

  predicate EndsInClose(wire: seq<RawMessage>) {
    wire != [] && wire[|wire| - 1].RawClose?
  }

  /** The loop has not ended but by sending a Close. */
  predicate Orderly(o: Outbound) {
    o.over ==> EndsInClose(o.wire)
  }

  /** Only a stop from outside ends the loop without a Close; a message that cannot be sent does not. */
  lemma OrderlyAfter(o: Outbound, move: Move)
    requires Sound(o) && Orderly(o) && Possible(o, move) && (move.Stop? ==> o.over)
    ensures Orderly(After(o, move))
  {
  }

  /** A writer that was not stopped, and has nothing to do, has written everything there was to write. */
  lemma OrderlyCompletes(o: Outbound)
    requires Sound(o) && Orderly(o) && (o.over || (o.held.None? && o.queue == []))
    ensures o.wire == Written(o.accepted)
  {
    WireFollows(o);
  }

  /** What the writer still has to do with what is queued. */
  function Work(o: Outbound): nat {
    2 * |o.queue| + |InHand(o.held)|
  }
}
