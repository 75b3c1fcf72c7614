/**
 src/client.rs, one task or caller at a time: the writer and reader loops and the handle the
 application holds. `ClientSteps` interleaves them.
 */
module Clients {
  import opened Messages
  import opened Streams
  import Writers

  datatype ClientError = ConnectionClosed | SendFailed

  /** What the handle and the two tasks share; `outLive` and `inLive` say whether a queue's other end is still there. */
  class Shared {
    var closed: bool
    var out: seq<Message>
    var outLive: bool
    var inbox: seq<Message>

    method Send(message: Message) returns (r: Result<(), ClientError>)
      modifies this`out
      ensures r == if closed then Err(ConnectionClosed) else if outLive then Ok(()) else Err(SendFailed)
      ensures out == old(out) + (if r.Ok? then [message] else [])
    {
      if closed {
        return Err(ConnectionClosed);
      }
      if !outLive {
        return Err(SendFailed);
      }
      out := out + [message];
      r := Ok(());
    }

    /** Only the call that turns `closed` on queues a Close. */
    method Close()
      modifies this`closed, this`out
      ensures closed
      ensures out == old(out) + (if !old(closed) && outLive then [CLOSE] else [])
    {
      if !closed {
        closed := true;
        if outLive {
          out := out + [CLOSE];
        }
      }
    }

    method TryReceive() returns (r: Option<Message>)
      modifies this`inbox
      ensures r.Some? <==> old(inbox) != []
      ensures r.Some? ==> [r.value] + inbox == old(inbox)
      ensures r.None? ==> inbox == old(inbox)
    {
      if inbox == [] {
        return None;
      }
      r := Some(inbox[0]);
      inbox := inbox[1..];
    }
  }

  /**
   The writer loop over the messages `recv` yields: like the server's, but the socket is closed and
   the flag set however the loop ends.
   */
  method WriterTask(incoming: seq<Message>, sink: Writers.Sink, shared: Shared) returns (taken: nat)
    modifies sink, shared`closed
    ensures shared.closed && sink.closed && taken <= |incoming|
    ensures var all := Written(incoming);
            sink.sent == old(sink.sent) + (if |all| <= old(sink.quota) then all else all[..old(sink.quota)])
    ensures |Written(incoming)| <= old(sink.quota) ==> incoming[..taken] == UpToClose(incoming)
  {
    var ok;
    ok, taken := Writers.Drain(incoming, sink);
    sink.Close();
    shared.closed := true;
  }

  datatype ReadResult = Frame(raw: RawMessage) | ReadError

  /** The frames a reader takes in: up to and including a Close, and never past an error. */
  function Taken(results: seq<ReadResult>): seq<RawMessage> {
    if results == [] || results[0].ReadError? then []
    else if results[0].raw.RawClose? then [results[0].raw]
    else [results[0].raw] + Taken(results[1..])
  }

  /**
   `Taken` is the longest run of frames from the beginning with no Close before its last: it ends only where
   the results do, before an error, or with a Close.
   */
  lemma {:induction false} TakenIsLongest(results: seq<ReadResult>)
    ensures var taken := Taken(results);
            && |taken| <= |results|
            && (forall j :: 0 <= j < |taken| ==> results[j].Frame? && taken[j] == results[j].raw)
            && (forall j :: 0 <= j < |taken| - 1 ==> !taken[j].RawClose?)
            && (|| |taken| == |results|
                || results[|taken|].ReadError?
                || (taken != [] && taken[|taken| - 1].RawClose?))
  {
    if results != [] && results[0].Frame? && !results[0].raw.RawClose? {
      TakenIsLongest(results[1..]);
    }
  }

  lemma {:induction false} TakenNext(results: seq<ReadResult>, i: nat)
    requires i <= |results|
    requires forall j :: 0 <= j < i ==> results[j].Frame? && !results[j].raw.RawClose?
    ensures Taken(results) == seq(i, j requires 0 <= j < i => results[j].raw) + Taken(results[i..])
  {
    if i > 0 {
      TakenNext(results[1..], i - 1);
      assert results[1..][i - 1..] == results[i..];
      assert seq(i, j requires 0 <= j < i => results[j].raw) ==
             [results[0].raw] + seq(i - 1, j requires 0 <= j < i - 1 => results[1..][j].raw);
    }
  }

  /**
   The reader loop over what the socket yields before it ends. `quota` more messages are accepted
   before the client is dropped. Everything taken in goes to the inbound queue, in order and
   converted; the flag is set however the loop ends.
   */
  method ReaderTask(results: seq<ReadResult>, quota: nat, shared: Shared)
    modifies shared`closed, shared`inbox
    ensures shared.closed
    ensures var all := Decoded(Taken(results));
            shared.inbox == old(shared.inbox) + (if |all| <= quota then all else all[..quota])
  {
    var i := 0;
    ghost var inbox0 := shared.inbox;
    while i < |results|
      invariant i <= |results| && i <= quota
      invariant forall j :: 0 <= j < i ==> results[j].Frame? && !results[j].raw.RawClose?
      invariant shared.inbox == inbox0 + seq(i, j requires 0 <= j < i => FromRaw(results[j].raw))
    {
      TakenNext(results, i);
      if results[i].ReadError? {
        break;
      }
      var raw := results[i].raw;
      if raw.RawClose? {
        if i < quota {
          shared.inbox := shared.inbox + [CLOSE];
        }
        assert Taken(results) == seq(i, j requires 0 <= j < i => results[j].raw) + [raw];
        break;
      }
      if i == quota {
        break;
      }
      shared.inbox := shared.inbox + [FromRaw(raw)];
      i := i + 1;
    }
    TakenNext(results, i);
    shared.closed := true;
  }
}
