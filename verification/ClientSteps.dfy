/**
 The client under every interleaving: any number of callers inside `send` and `close`, the writer
 task, the reader task, and the application taking messages out or dropping the client.
 */
module ClientSteps {
  import opened Messages
  import opened Streams
  import opened Writers
  import opened Runs

  type CallId = nat

  /** `CloseWon`: the compare-and-exchange succeeded, the Close not yet queued. */
  datatype Pc = SendEntered(message: Message) | SendSawOpen(message: Message) | CloseEntered | CloseWon

  /** `Finishing`: closing the socket. `Marked`: the flag is set, the queue's receiver not yet dropped. */
  datatype Writer = Waiting | Holding(message: Message) | Finishing | Marked | Gone {
    function Held(): Option<Message> {
      if Holding? then Some(message) else None
    }
  }

  /** `Handing`: waiting for room in the inbound queue; `last` after a Close frame. */
  datatype Reader = Reading | Handing(message: Message, last: bool) | Ending | Stopped {
    function Held(): Option<Message> {
      if Handing? then Some(message) else None
    }
  }

  /**
   The last six fields only record: the call that won the flag, the Closes queued by `close`, every
   message queued, every message the writer is done with, every frame written, every frame read.
   */
  datatype State = State(
    closed: bool,
    alive: bool,
    calls: map<CallId, Pc>,
    used: set<CallId>,
    out: seq<Message>,
    outLive: bool,
    writer: Writer,
    reader: Reader,
    inbox: seq<Message>,
    capacity: nat,
    delivered: seq<Message>,
    winner: Option<CallId>,
    closesQueued: nat,
    accepted: seq<Message>,
    taken: seq<Message>,
    wire: seq<RawMessage>,
    frames: seq<RawMessage>)

  datatype Step =
    | BeginSend(call: CallId, message: Message)
    | BeginClose(call: CallId)
    | Advance(call: CallId)
    | WriterReceives
    | WriterDrops
    | WriterSends
    | WriterFails
    | WriterRunsDry
    | WriterMarks
    | WriterReturns
    | ReaderReads(raw: RawMessage)
    | ReaderFails
    | ReaderHands
    | ReaderDropped
    | ReaderMarks
    | Receives
    | Drops

  ghost predicate Init(s: State) {
    exists capacity: nat :: capacity > 0 &&
      s == State(false, true, map[], {}, [], true, Waiting, Reading, [], capacity, [], None, 0, [], [], [], [])
  }

  predicate Enabled(s: State, step: Step) {
    match step
    case BeginSend(call, _) => s.alive && call !in s.used
    case BeginClose(call) => s.alive && call !in s.used
    case Advance(call) => call in s.calls
    case WriterReceives => s.writer.Waiting? && s.out != []
    case WriterDrops => s.writer.Holding? && !Sendable(s.writer.message)
    case WriterSends => s.writer.Holding? && Sendable(s.writer.message)
    case WriterFails => s.writer.Holding? && Sendable(s.writer.message)
    case WriterRunsDry => s.writer.Waiting? && s.out == [] && !s.alive
    case WriterMarks => s.writer.Finishing?
    case WriterReturns => s.writer.Marked?
    case ReaderReads(_) => s.reader.Reading?
    case ReaderFails => s.reader.Reading?
    case ReaderHands => s.reader.Handing? && s.alive && |s.inbox| < s.capacity
    case ReaderDropped => s.reader.Handing? && !s.alive
    case ReaderMarks => s.reader.Ending?
    case Receives => s.alive && s.inbox != []
    case Drops => s.alive && s.calls == map[] && s.closed
  }

  /** One step inside `send` or `close`. */
  function AdvanceCall(s: State, call: CallId): State
    requires call in s.calls
  {
    var returned := s.(calls := s.calls - {call});
    match s.calls[call]
    case SendEntered(m) => if s.closed then returned else s.(calls := s.calls[call := SendSawOpen(m)])
    case SendSawOpen(m) =>
      if s.outLive then returned.(out := s.out + [m], accepted := s.accepted + [m]) else returned
    case CloseEntered =>
      if s.closed then returned else s.(closed := true, winner := Some(call), calls := s.calls[call := CloseWon])
    case CloseWon =>
      if !s.outLive then returned
      else
        returned.(out := s.out + [CLOSE], accepted := s.accepted + [CLOSE], closesQueued := s.closesQueued + 1)
  }

  function Apply(s: State, step: Step): State
    requires Enabled(s, step)
  {
    match step
    case BeginSend(call, m) => s.(calls := s.calls[call := SendEntered(m)], used := s.used + {call})
    case BeginClose(call) => s.(calls := s.calls[call := CloseEntered], used := s.used + {call})
    case Advance(call) => AdvanceCall(s, call)
    case WriterReceives => s.(writer := Holding(s.out[0]), out := s.out[1..])
    case WriterDrops => s.(taken := s.taken + [s.writer.message], writer := Waiting)
    case WriterSends =>
      s.(taken := s.taken + [s.writer.message],
      wire := s.wire + [ToRaw(s.writer.message).value],
      writer := if s.writer.message.IsClose() then Finishing else Waiting)
    case WriterFails => s.(taken := s.taken + [s.writer.message], writer := Finishing)
    case WriterRunsDry => s.(writer := Finishing)
    case WriterMarks => s.(writer := Marked, closed := true)
    case WriterReturns => s.(writer := Gone, outLive := false)
    case ReaderReads(raw) => s.(frames := s.frames + [raw], reader := Handing(FromRaw(raw), raw.RawClose?))
    case ReaderFails => s.(reader := Ending)
    case ReaderHands => s.(inbox := s.inbox + [s.reader.message], reader := if s.reader.last then Ending else Reading)
    case ReaderDropped => s.(reader := Ending)
    case ReaderMarks => s.(reader := Stopped, closed := true)
    case Receives => s.(delivered := s.delivered + [s.inbox[0]], inbox := s.inbox[1..])
    case Drops => s.(alive := false)
  }

  ghost predicate Next(s: State, step: Step, s': State) {
    Enabled(s, step) && s' == Apply(s, step)
  }

  // ------------------------------------------------------------ inbound conservation

  /** While the client exists nothing read is lost, repeated or reordered, and the queue stays bounded. */
  predicate Inbound(s: State) {
    && s.capacity > 0
    && |s.inbox| <= s.capacity
    && (s.alive ==> s.delivered + s.inbox + InHand(s.reader.Held()) == Decoded(s.frames))
  }

  /** The reader stops at the first Close frame. */
  predicate CloseReadLast(s: State) {
    && (s.reader.Reading? || (s.reader.Handing? && !s.reader.last) ==> NoCloseFrame(s.frames))
    && (s.frames != [] ==> NoCloseFrame(s.frames[..|s.frames| - 1]))
  }

  lemma InboundKept(s: State, step: Step, s': State)
    requires Inbound(s) && Next(s, step, s')
    ensures Inbound(s')
  {
    match step
    case ReaderReads(raw) => DecodedAppend(s.frames, [raw]);
    case Receives => assert s.inbox == [s.inbox[0]] + s.inbox[1..];
    case ReaderHands => assert s'.inbox == s.inbox + InHand(s.reader.Held());
    case Advance(call) => AdvanceKeepsInbound(s, call);
    case _ =>
  }

  lemma AdvanceKeepsInbound(s: State, call: CallId)
    requires call in s.calls
    ensures var s' := AdvanceCall(s, call);
            && (s'.inbox, s'.capacity, s'.delivered) == (s.inbox, s.capacity, s.delivered)
            && (s'.reader, s'.frames, s'.alive) == (s.reader, s.frames, s.alive)
  {
  }

  lemma CloseReadLastKept(s: State, step: Step, s': State)
    requires CloseReadLast(s) && Next(s, step, s')
    ensures CloseReadLast(s')
  {
    match step
    case ReaderReads(raw) => assert s'.frames[..|s'.frames| - 1] == s.frames;
    case Advance(call) => AdvanceKeepsInbound(s, call);
    case _ =>
  }

  // ---------------------------------------------------------------- the closed flag

  predicate TasksMark(s: State) {
    (s.reader.Stopped? || s.writer.Marked? || s.writer.Gone? ==> s.closed) && (s.outLive <==> !s.writer.Gone?)
  }

  /** Only the winner of the flag queues a Close, once. */
  predicate OneWinner(s: State) {
    && s.calls.Keys <= s.used
    && (!s.closed ==> s.winner == None)
    && (s.winner == None ==> s.closesQueued == 0)
    && s.closesQueued <= 1
    && (forall call :: call in s.calls && s.calls[call].CloseWon? ==> s.winner == Some(call) && s.closesQueued == 0)
  }

  lemma OneWinnerKept(s: State, step: Step, s': State)
    requires TasksMark(s) && OneWinner(s) && Next(s, step, s')
    ensures TasksMark(s') && OneWinner(s')
  {
    match step
    case BeginSend(call, m) =>
    case BeginClose(call) =>
    case Advance(call) =>
    case _ => assert (s'.calls, s'.winner, s'.closesQueued, s'.used) == (s.calls, s.winner, s.closesQueued, s.used);
  }

  // ------------------------------------------------------------- outbound, as written

  /** The outbound queue and the writer as `Writers` sees them. */
  function Line(s: State): Outbound {
    var over := s.writer.Finishing? || s.writer.Marked? || s.writer.Gone?;
    Outbound(s.accepted, s.out, s.writer.Held(), over, s.taken, s.wire)
  }

  lemma CallMoves(s: State, call: CallId)
    requires call in s.calls
    ensures Line(AdvanceCall(s, call)) == After(Line(s), Queueing(Line(s), Line(AdvanceCall(s, call))))
  {
  }

  /** What a step is to the queue and the writer. */
  function MoveOf(s: State, step: Step): Move
    requires Enabled(s, step)
  {
    match step
    case Advance(call) => Queueing(Line(s), Line(AdvanceCall(s, call)))
    case WriterReceives => Receive
    case WriterDrops => Drop
    case WriterSends => Move.Send
    case WriterFails => Stop
    case WriterRunsDry => Stop
    case _ => Stay
  }

  lemma LineMoves(s: State, step: Step, s': State)
    requires Next(s, step, s')
    ensures Possible(Line(s), MoveOf(s, step)) && Line(s') == After(Line(s), MoveOf(s, step))
  {
    if step.Advance? {
      CallMoves(s, step.call);
    }
  }

  lemma OnlyReadingAddsFrames(s: State, step: Step, s': State)
    requires Next(s, step, s')
    ensures s'.frames == s.frames + (if step.ReaderReads? then [step.raw] else [])
  {
  }

  // ------------------------------------------------------------------ over every run

  ghost predicate Inv(s: State) {
    Inbound(s) && CloseReadLast(s) && TasksMark(s) && OneWinner(s) && Sound(Line(s))
  }

  lemma InvKept(s: State, step: Step, s': State)
    requires Inv(s) && Next(s, step, s')
    ensures Inv(s')
  {
    InboundKept(s, step, s');
    CloseReadLastKept(s, step, s');
    OneWinnerKept(s, step, s');
    LineMoves(s, step, s');
    SoundAfter(Line(s), MoveOf(s, step));
  }

  lemma InvAlways(states: seq<State>, steps: seq<Step>, i: nat)
    requires IsRun(Init, Next, states, steps) && i < |states|
    ensures Inv(states[i])
  {
    forall s, step, s' | Inv(s) && Next(s, step, s')
      ensures Inv(s')
    {
      InvKept(s, step, s');
    }
    Invariance(Init, Next, Inv, states, steps);
  }

  /**
   Inbound conservation: while the client exists, what was delivered, is queued or is in the reader's
   hand is exactly what was read, converted, in order; the queue never exceeds its capacity; a Close
   can only be the last message.
   */
  lemma InboundIsConserved(states: seq<State>, steps: seq<Step>, i: nat)
    requires IsRun(Init, Next, states, steps) && i < |states|
    ensures var s := states[i];
            && |s.inbox| <= s.capacity
            && (s.alive ==>
                  var all := s.delivered + s.inbox + InHand(s.reader.Held());
                  && all == Decoded(s.frames)
                  && forall k :: 0 <= k < |all| - 1 ==> !all[k].IsClose())
  {
    InvAlways(states, steps, i);
    var s := states[i];
    forall k | 0 <= k < |s.frames| - 1
      ensures !Decoded(s.frames)[k].IsClose()
    {
      assert s.frames[k] in s.frames[..|s.frames| - 1];
    }
  }

  /** The application takes everything out of the queue. */
  function ReceiveAll(s: State): State
    requires s.alive
    decreases |s.inbox|
  {
    if s.inbox == [] then s else ReceiveAll(Apply(s, Receives))
  }

  /** Backpressure is never final: once the application has drained the queue, a waiting reader hands on its message. */
  lemma {:induction false} DrainingFreesTheReader(s: State)
    requires Inbound(s) && s.alive && s.reader.Handing?
    ensures var drained := ReceiveAll(s);
            && Inbound(drained) && drained.delivered == s.delivered + s.inbox
            && Enabled(drained, ReaderHands)
            && Apply(drained, ReaderHands).inbox == [s.reader.message]
    decreases |s.inbox|
  {
    if s.inbox != [] {
      var s' := s.(delivered := s.delivered + [s.inbox[0]], inbox := s.inbox[1..]);
      assert s' == Apply(s, Receives);
      assert s.delivered + s.inbox == s'.delivered + s'.inbox;
      DrainingFreesTheReader(s');
    }
  }

  predicate IsClosed(s: State) {
    s.closed
  }

  /**
   The close protocol: the flag never goes back, it is set once either task has ended, and all
   `close` calls together queue at most one Close.
   */
  lemma CloseProtocol(states: seq<State>, steps: seq<Step>, i: nat, j: nat)
    requires IsRun(Init, Next, states, steps) && i <= j < |states|
    ensures states[i].closed ==> states[j].closed
    ensures states[i].reader.Stopped? || states[i].writer.Gone? ==> states[j].closed
    ensures states[i].closesQueued <= 1
    ensures !states[i].closed ==> states[i].closesQueued == 0
  {
    InvAlways(states, steps, i);
    if states[i].closed {
      Stability(Init, Next, IsClosed, states, steps, i, j);
    }
  }

  /** The wire carries a prefix of `Written(accepted)`: nothing goes out after the first Close, whatever is queued. */
  lemma NothingIsWrittenAfterClose(states: seq<State>, steps: seq<Step>, i: nat)
    requires IsRun(Init, Next, states, steps) && i < |states|
    ensures states[i].wire <= Written(states[i].accepted)
    ensures forall k :: 0 <= k < |states[i].wire| - 1 ==> !states[i].wire[k].RawClose?
  {
    InvAlways(states, steps, i);
    WireFollows(Line(states[i]));
  }

  // ------------------------------------------------------- the writer leaves nothing behind

  ghost predicate WriteFailedBefore(steps: seq<Step>, i: nat) {
    exists k :: 0 <= k < i && k < |steps| && steps[k].WriterFails?
  }

  /** The application has dropped the client, nothing is queued, and everything there was is written. */
  predicate RanDry(s: State) {
    !s.alive && s.out == [] && s.wire == Written(s.accepted)
  }

  predicate DroppedIsQuiet(s: State) {
    !s.alive ==> s.calls == map[]
  }

  /** The writer has not ended but by sending a Close or by running dry. */
  predicate WriterOrderly(s: State) {
    Orderly(Line(s)) || RanDry(s)
  }

  lemma DroppedIsQuietKept(s: State, step: Step, s': State)
    requires DroppedIsQuiet(s) && Next(s, step, s')
    ensures DroppedIsQuiet(s')
  {
  }

  lemma RanDryStays(s: State, step: Step, s': State)
    requires DroppedIsQuiet(s) && RanDry(s) && Line(s).over && Next(s, step, s')
    ensures RanDry(s') && Line(s').over
  {
  }

  lemma WriterOrderlyKept(s: State, step: Step, s': State)
    requires Sound(Line(s)) && DroppedIsQuiet(s) && WriterOrderly(s) && Next(s, step, s') && !step.WriterFails?
    ensures WriterOrderly(s')
  {
    if step.WriterRunsDry? {
      assert s.taken + [] == s.taken;
    } else if Orderly(Line(s)) {
      LineMoves(s, step, s');
      OrderlyAfter(Line(s), MoveOf(s, step));
    } else {
      RanDryStays(s, step, s');
    }
  }

  /** The writer stops for nothing but a Close it has sent, a failed write or, the client dropped, having run dry. */
  lemma WriterStopsOnlyAfterClose(states: seq<State>, steps: seq<Step>, i: nat)
    requires IsRun(Init, Next, states, steps) && i < |states| && !WriteFailedBefore(steps, i)
    ensures DroppedIsQuiet(states[i]) && WriterOrderly(states[i])
  {
    var inv := (s: State) => Inv(s) && DroppedIsQuiet(s) && WriterOrderly(s);
    forall s, step, s' | inv(s) && Next(s, step, s') && !step.WriterFails?
      ensures inv(s')
    {
      InvKept(s, step, s');
      DroppedIsQuietKept(s, step, s');
      WriterOrderlyKept(s, step, s');
    }
    InvarianceUntil(Init, Next, (step: Step) => step.WriterFails?, inv, states, steps, i);
  }

  /** The writer's next step, unless it waits for a message or has ended. */
  function WritersNext(s: State): Option<Step> {
    match s.writer
    case Waiting => if s.out != [] then Some(WriterReceives) else if !s.alive then Some(WriterRunsDry) else None
    case Holding(m) => Some(if Sendable(m) then WriterSends else WriterDrops)
    case Finishing => Some(WriterMarks)
    case Marked => Some(WriterReturns)
    case Gone => None
  }

  /** How far the writer is from its end once it writes no more. */
  function Closing(writer: Writer): nat {
    match writer
    case Waiting => 3
    case Holding(_) => 3
    case Finishing => 2
    case Marked => 1
    case Gone => 0
  }

  /** Runs the writer until it has nothing to do, with nobody else moving and no write failing. */
  function WriterAlone(s: State): State
    decreases Work(Line(s)), Closing(s.writer)
  {
    match WritersNext(s)
    case Some(step) => WriterAlone(Apply(s, step))
    case None => s
  }

  lemma WriterStepKeeps(s: State, step: Step)
    requires Sound(Line(s)) && DroppedIsQuiet(s) && WriterOrderly(s) && WritersNext(s) == Some(step)
    ensures var s' := Apply(s, step);
            Sound(Line(s')) && DroppedIsQuiet(s') && WriterOrderly(s') && s'.accepted == s.accepted
  {
    LineMoves(s, step, Apply(s, step));
    SoundAfter(Line(s), MoveOf(s, step));
    WriterOrderlyKept(s, step, Apply(s, step));
  }

  lemma {:induction false} WriterAloneCompletes(s: State)
    requires Sound(Line(s)) && DroppedIsQuiet(s) && WriterOrderly(s)
    ensures WriterAlone(s).wire == Written(s.accepted) && WriterAlone(s).accepted == s.accepted
    decreases Work(Line(s)), Closing(s.writer)
  {
    match WritersNext(s)
    case Some(step) =>
      WriterStepKeeps(s, step);
      WriterAloneCompletes(Apply(s, step));
    case None =>
      if Orderly(Line(s)) {
        OrderlyCompletes(Line(s));
      }
  }

  /** Unless a write has failed, everything accepted gets written, and has been when the writer has nothing to do. */
  lemma EverythingAcceptedIsWritten(states: seq<State>, steps: seq<Step>, i: nat)
    requires IsRun(Init, Next, states, steps) && i < |states| && !WriteFailedBefore(steps, i)
    ensures WriterAlone(states[i]).wire == Written(states[i].accepted)
    ensures WritersNext(states[i]).None? ==> states[i].wire == Written(states[i].accepted)
  {
    InvAlways(states, steps, i);
    WriterStopsOnlyAfterClose(states, steps, i);
    WriterAloneCompletes(states[i]);
  }

  // ----------------------------------------------------------------- the reader reads on

  ghost predicate ReadFailedBefore(steps: seq<Step>, i: nat) {
    exists k :: 0 <= k < i && k < |steps| && steps[k].ReaderFails?
  }

  /** While the client exists the reader is at its end only after a Close frame. */
  predicate ReaderOrderly(s: State) {
    s.alive && (s.reader.Ending? || s.reader.Stopped? || (s.reader.Handing? && s.reader.last)) ==>
      !NoCloseFrame(s.frames)
  }

  lemma ReaderOrderlyKept(s: State, step: Step, s': State)
    requires ReaderOrderly(s) && Next(s, step, s') && !step.ReaderFails?
    ensures ReaderOrderly(s')
  {
    if step.Advance? {
      AdvanceKeepsInbound(s, step.call);
    } else if step.ReaderReads? {
      assert step.raw in s'.frames;
    }
  }

  /** While the client exists the reader stops for nothing but a Close frame or a failed read. */
  lemma ReaderStopsOnlyAfterClose(states: seq<State>, steps: seq<Step>, i: nat)
    requires IsRun(Init, Next, states, steps) && i < |states| && states[i].alive
    requires states[i].reader.Ending? || states[i].reader.Stopped?
    ensures !NoCloseFrame(states[i].frames) || ReadFailedBefore(steps, i)
  {
    if !ReadFailedBefore(steps, i) {
      forall s, step, s' | ReaderOrderly(s) && Next(s, step, s') && !step.ReaderFails?
        ensures ReaderOrderly(s')
      {
        ReaderOrderlyKept(s, step, s');
      }
      InvarianceUntil(Init, Next, (step: Step) => step.ReaderFails?, ReaderOrderly, states, steps, i);
    }
  }

  // -------------------------------------------- one caller alone, and the whole calls

  function Left(pc: Pc): nat {
    if pc.SendEntered? || pc.CloseEntered? then 2 else 1
  }

  /** Runs one call to its end with nobody else moving. */
  function Finish(s: State, call: CallId): State
    decreases if call in s.calls then Left(s.calls[call]) else 0
  {
    if call in s.calls then Finish(AdvanceCall(s, call), call) else s
  }

  /** Left alone, the steps of `send` and of `close` amount to the whole calls on the shared handle. */
  lemma UninterruptedCalls(s: State, call: CallId, m: Message)
    requires Enabled(s, BeginSend(call, m))
    ensures var sent := Finish(Apply(s, BeginSend(call, m)), call);
            sent.closed == s.closed && sent.out == s.out + (if !s.closed && s.outLive then [m] else [])
    ensures var closed := Finish(Apply(s, BeginClose(call)), call);
            closed.closed && closed.out == s.out + (if !s.closed && s.outLive then [CLOSE] else [])
  {
    UninterruptedFrom(Apply(s, BeginSend(call, m)), call);
    UninterruptedFrom(Apply(s, BeginClose(call)), call);
  }

  lemma UninterruptedFrom(s: State, call: CallId)
    requires call in s.calls
    ensures var s2 := AdvanceCall(s, call);
            Finish(s, call) == if call in s2.calls && Left(s.calls[call]) == 2 then AdvanceCall(s2, call) else s2
  {
    var s2 := AdvanceCall(s, call);
    assert Finish(s, call) == Finish(s2, call);
    if call in s2.calls {
      assert Finish(s2, call) == Finish(AdvanceCall(s2, call), call);
    }
  }
}
