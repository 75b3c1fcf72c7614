/**
 A server connection and a client joined by a link that loses and reorders nothing: the client
 reads the frames the server's writer has put on the wire, in order.
 */
module EndToEnd {
  import opened Messages
  import opened Streams
  import opened Runs
  import Writers
  import Server = ConnectionSteps
  import Client = ClientSteps

  datatype State = State(server: Server.State, client: Client.State)

  datatype Step = ServerStep(server: Server.Step) | ClientStep(client: Client.Step)

  ghost predicate Init(s: State) {
    Server.Init(s.server) && Client.Init(s.client)
  }

  /** The client can read a frame only once it is on the wire, and only the next one. */
  predicate OnTheLink(s: State, step: Client.Step) {
    step.ReaderReads? ==> |s.client.frames| < |s.server.wire| && step.raw == s.server.wire[|s.client.frames|]
  }

  ghost predicate Next(s: State, step: Step, s': State) {
    match step
    case ServerStep(a) => Server.Next(s.server, a, s'.server) && s'.client == s.client
    case ClientStep(a) => Client.Next(s.client, a, s'.client) && s'.server == s.server && OnTheLink(s, a)
  }

  ghost predicate Inv(s: State) {
    Server.Inv(s.server) && Client.Inv(s.client) && s.client.frames <= s.server.wire
  }

  lemma InvKept(s: State, step: Step, s': State)
    requires Inv(s) && Next(s, step, s')
    ensures Inv(s')
  {
    match step
    case ServerStep(a) =>
      Server.InvKept(s.server, a, s'.server);
    case ClientStep(a) =>
      Client.InvKept(s.client, a, s'.client);
      Client.OnlyReadingAddsFrames(s.client, a, s'.client);
  }

  lemma InitHolds(s: State)
    requires Init(s)
    ensures Inv(s) && Orderly(s)
  {
  }

  lemma InvAlways(states: seq<State>, steps: seq<Step>, i: nat)
    requires IsRun(Init, Next, states, steps) && i < |states|
    ensures Inv(states[i])
  {
    forall s | Init(s)
      ensures Inv(s)
    {
      InitHolds(s);
    }
    forall s, step, s' | Inv(s) && Next(s, step, s')
      ensures Inv(s')
    {
      InvKept(s, step, s');
    }
    Invariance(Init, Next, Inv, states, steps);
  }

  /**
   End-to-end transparency. What the client's application has received is, in order, a prefix of
   what `Transmitted` makes of the messages accepted for the connection; and it is all of it once
   the writer, the link and the client's inbound queue have drained.
   */
  lemma DeliveryIsTransparent(states: seq<State>, steps: seq<Step>, i: nat)
    requires IsRun(Init, Next, states, steps) && i < |states|
    requires states[i].client.alive
    ensures var s := states[i];
            && s.client.delivered <= Transmitted(s.server.accepted)
            && (&& Writers.Finished(Server.Line(s.server)) && s.client.frames == s.server.wire
                && s.client.inbox == [] && !s.client.reader.Handing? ==>
                  s.client.delivered == Transmitted(s.server.accepted))
  {
    InvAlways(states, steps, i);
    DeliveredSoFar(states[i]);
  }

  lemma DeliveredSoFar(s: State)
    requires Inv(s) && s.client.alive
    ensures s.client.delivered <= Transmitted(s.server.accepted)
    ensures Writers.Finished(Server.Line(s.server)) && s.client.frames == s.server.wire
            && s.client.inbox == [] && !s.client.reader.Handing? ==>
              s.client.delivered == Transmitted(s.server.accepted)
  {
    Writers.WireFollows(Server.Line(s.server));
    ReadBackWritten(s.server.accepted);
    DecodedMonotone(s.server.wire, Written(s.server.accepted));
    DecodedMonotone(s.client.frames, s.server.wire);
    assert s.client.delivered <= Decoded(s.client.frames);
  }

  predicate IsFault(step: Step) {
    match step
    case ServerStep(a) => Server.IsFault(a)
    case ClientStep(a) => a.ReaderFails?
  }

  ghost predicate FaultBefore(steps: seq<Step>, i: nat) {
    exists k :: 0 <= k < i && k < |steps| && IsFault(steps[k])
  }

  predicate Orderly(s: State) {
    Writers.Orderly(Server.Line(s.server)) && Client.ReaderOrderly(s.client)
  }

  lemma OrderlyAlways(states: seq<State>, steps: seq<Step>, i: nat)
    requires IsRun(Init, Next, states, steps) && i < |states| && !FaultBefore(steps, i)
    ensures Inv(states[i]) && Orderly(states[i])
  {
    var inv := (s: State) => Inv(s) && Orderly(s);
    forall s | Init(s)
      ensures inv(s)
    {
      InitHolds(s);
    }
    forall s, step, s' | inv(s) && Next(s, step, s') && !IsFault(step)
      ensures inv(s')
    {
      InvKept(s, step, s');
      OrderlyKept(s, step, s');
    }
    InvarianceUntil(Init, Next, IsFault, inv, states, steps, i);
  }

  lemma OrderlyKept(s: State, step: Step, s': State)
    requires Inv(s) && Orderly(s) && Next(s, step, s') && !IsFault(step)
    ensures Orderly(s')
  {
    match step
    case ServerStep(a) => Server.OrderlyKept(s.server, a, s'.server);
    case ClientStep(a) => Client.ReaderOrderlyKept(s.client, a, s'.client);
  }

  predicate CanRead(s: State, raw: RawMessage) {
    Client.Enabled(s.client, Client.ReaderReads(raw)) && OnTheLink(s, Client.ReaderReads(raw))
  }

  /** The writer, the link, the reader and the application all have nothing to do. */
  ghost predicate AtRest(s: State) {
    && Server.WritersNext(s.server).None?
    && (forall raw :: !CanRead(s, raw))
    && !Client.Enabled(s.client, Client.ReaderHands)
    && !Client.Enabled(s.client, Client.ReaderMarks)
    && !Client.Enabled(s.client, Client.Receives)
  }

  lemma NothingOnTheWay(s: State)
    requires Client.Inbound(s.client) && Client.ReaderOrderly(s.client) && s.client.alive && AtRest(s)
    ensures s.client.inbox == [] && !s.client.reader.Handing?
    ensures s.client.delivered == Decoded(s.client.frames)
    ensures |s.client.frames| >= |s.server.wire| || !NoCloseFrame(s.client.frames)
  {
    if |s.client.frames| < |s.server.wire| {
      assert !CanRead(s, s.server.wire[|s.client.frames|]);
    }
  }

  lemma ArrivedAtRest(s: State)
    requires Inv(s) && Orderly(s) && s.client.alive && AtRest(s)
    ensures s.client.delivered == Transmitted(s.server.accepted)
  {
    NothingOnTheWay(s);
    Writers.OrderlyCompletes(Server.Line(s.server));
    ReadBackWritten(s.server.accepted);
    if !NoCloseFrame(s.client.frames) {
      CloseEndsTheLink(s.client.frames, s.server.wire, s.server.accepted);
    }
  }

  /**
   Everything arrives. Unless a write or a read has failed or the writer was aborted, the only state in which
   nothing more happens by itself is the one in which the application has received all that
   `Transmitted` makes of the messages accepted for the connection.
   */
  lemma EverythingArrives(states: seq<State>, steps: seq<Step>, i: nat)
    requires IsRun(Init, Next, states, steps) && i < |states|
    requires states[i].client.alive && !FaultBefore(steps, i) && AtRest(states[i])
    ensures states[i].client.delivered == Transmitted(states[i].server.accepted)
  {
    OrderlyAlways(states, steps, i);
    ArrivedAtRest(states[i]);
  }

  /** A Close frame that has been read is the last there is. */
  lemma CloseEndsTheLink(frames: seq<RawMessage>, wire: seq<RawMessage>, accepted: seq<Message>)
    requires frames <= wire && wire == Written(accepted) && !NoCloseFrame(frames)
    ensures frames == wire
  {
    CloseIsWrittenLast(accepted);
    var raw :| raw in frames && raw.RawClose?;
    var k :| 0 <= k < |frames| && frames[k] == raw;
    assert wire[k].RawClose?;
  }
}
