/**
 One server connection under every interleaving: any number of callers inside `send` and `close`,
 the writer task, and the read loop with its teardown. Each lock acquisition, each channel operation
 and each notification of src/connection.rs is one step.
 */
module ConnectionSteps {
  import opened Messages
  import opened Streams
  import opened Writers
  import opened Connections
  import opened Runs

  type CallId = nat

  /** Where a caller stands inside `send`, `evict` or `close`. */
  datatype Pc =
    | SendEntered(message: Message)
    | SendSawOpen(message: Message)
    | SendSawFull
    | EvictWrote
    | CloseEntered
    | CloseWrote
    | CloseRefused

  /** `Holding`: received, not yet on the wire. `Finishing`: closing the sink, the receiver still alive. */
  datatype Writer = Waiting | Holding(message: Message) | Finishing | Gone {
    function Held(): Option<Message> {
      if Holding? then Some(message) else None
    }
  }

  /** `Ticking` and `Ponging` wait for the loop's own `send` to return. */
  datatype ReadLoop =
    | Selecting
    | Ticking(call: CallId)
    | Ponging(call: CallId)
    | Leaving
    | TearingDown(call: CallId)
    | Joining
    | Done

  datatype Event = Began(call: CallId) | Returned(call: CallId, ok: bool)

  /**
   The last five fields only record: the sends as they begin and return, the ticks taken after the
   state left Open, every message queued, every message the writer is done with, every frame written.
   */
  datatype State = State(
    link: Link,
    calls: map<CallId, Pc>,
    used: set<CallId>,
    writer: Writer,
    loop: ReadLoop,
    history: seq<Event>,
    lateTicks: nat,
    accepted: seq<Message>,
    taken: seq<Message>,
    wire: seq<RawMessage>)

  datatype Step =
    | BeginSend(call: CallId, message: Message)
    | BeginClose(call: CallId)
    | Advance(call: CallId)
    | WriterReceives
    | WriterDrops
    | WriterSends
    | WriterFails
    | WriterFinishes
    | WriterAborted
    | LoopTicks(call: CallId)
    | LoopPongs(call: CallId, payload: seq<byte>)
    | LoopResumes
    | LoopEvicted
    | LoopBreaks
    | LoopCloses(call: CallId)
    | LoopJoins
    | LoopMarksClosed

  ghost predicate Init(s: State) {
    exists capacity: nat ::
      && capacity > 0
      && s == State(Link(Open, [], capacity, true, false), map[], {}, Waiting, Selecting, [], 0, [], [], [])
  }

  predicate Running(loop: ReadLoop) {
    loop.Selecting? || loop.Ticking? || loop.Ponging?
  }

  predicate Enabled(s: State, step: Step) {
    match step
    case BeginSend(call, _) => call !in s.used
    case BeginClose(call) => call !in s.used
    case Advance(call) => call in s.calls
    case WriterReceives => s.writer.Waiting? && s.link.queue != []
    case WriterDrops => s.writer.Holding? && !Sendable(s.writer.message)
    case WriterSends => s.writer.Holding? && Sendable(s.writer.message)
    case WriterFails => s.writer.Holding? && Sendable(s.writer.message)
    case WriterFinishes => s.writer.Finishing?
    case WriterAborted => !s.writer.Gone? && (s.loop.Joining? || s.loop.Done?)
    case LoopTicks(call) => s.loop.Selecting? && call !in s.used
    case LoopPongs(call, _) => s.loop.Selecting? && call !in s.used
    case LoopResumes =>
      && (s.loop.Ticking? || s.loop.Ponging?)
      && (Returned(s.loop.call, true) in s.history || Returned(s.loop.call, false) in s.history)
    case LoopEvicted => s.loop.Selecting? && s.link.permit
    case LoopBreaks => s.loop.Selecting?
    case LoopCloses(call) => s.loop.Leaving? && call !in s.used
    case LoopJoins => s.loop.TearingDown? && s.loop.call !in s.calls
    case LoopMarksClosed => s.loop.Joining?
  }

  /** The writer returns or is aborted; the receiver goes with it. */
  function WriterStops(s: State): State {
    s.(taken := s.taken + InHand(s.writer.Held()), writer := Gone, link := s.link.(live := false))
  }

  function Begin(s: State, call: CallId, pc: Pc): State {
    s.(calls := s.calls[call := pc], used := s.used + {call},
    history := if pc.SendEntered? then s.history + [Began(call)] else s.history)
  }

  /** The call returns; only the outcomes of sends are recorded. */
  function SendReturns(s: State, call: CallId, ok: bool): State {
    s.(calls := s.calls - {call}, history := s.history + [Returned(call, ok)])
  }

  /** One step inside `send`, `evict` or `close`. */
  function AdvanceCall(s: State, call: CallId): State
    requires call in s.calls
  {
    match s.calls[call]
    case SendEntered(m) =>
      if s.link.state != Open then SendReturns(s, call, false) else s.(calls := s.calls[call := SendSawOpen(m)])
    case SendSawOpen(m) =>
      var (link, tried) := TrySend(s.link, m);
      (match tried
       case Queued => SendReturns(s.(link := link, accepted := s.accepted + [m]), call, true)
       case Full => s.(calls := s.calls[call := SendSawFull])
       case Disconnected => SendReturns(s, call, false))
    case SendSawFull => s.(link := s.link.(state := Closing), calls := s.calls[call := EvictWrote])
    case EvictWrote => SendReturns(s.(link := s.link.(permit := true)), call, false)
    case CloseEntered => s.(link := s.link.(state := Closing), calls := s.calls[call := CloseWrote])
    case CloseWrote =>
      var (link, tried) := TrySend(s.link, CLOSE);
      if tried == Queued then s.(link := link, accepted := s.accepted + [CLOSE], calls := s.calls - {call})
      else s.(calls := s.calls[call := CloseRefused])
    case CloseRefused => s.(link := s.link.(permit := true), calls := s.calls - {call})
  }

  function Apply(s: State, step: Step): State
    requires Enabled(s, step)
  {
    match step
    case BeginSend(call, m) => Begin(s, call, SendEntered(m))
    case BeginClose(call) => Begin(s, call, CloseEntered)
    case Advance(call) => AdvanceCall(s, call)
    case WriterReceives =>
      s.(writer := Holding(s.link.queue[0]), link := s.link.(queue := s.link.queue[1..]))
    case WriterDrops => s.(taken := s.taken + InHand(s.writer.Held()), writer := Waiting)
    case WriterSends =>
      s.(taken := s.taken + InHand(s.writer.Held()),
      wire := s.wire + [ToRaw(s.writer.message).value],
      writer := if s.writer.message.IsClose() then Finishing else Waiting)
    case WriterFails => WriterStops(s)
    case WriterFinishes => WriterStops(s)
    case WriterAborted => WriterStops(s)
    case LoopTicks(call) =>
      Begin(s, call, SendEntered(Message(Ping, []))).(
      loop := Ticking(call),
      lateTicks := if s.link.state != Open then s.lateTicks + 1 else s.lateTicks)
    case LoopPongs(call, payload) => Begin(s, call, SendEntered(Message(Pong, payload))).(loop := Ponging(call))
    case LoopResumes =>
      s.(loop := if s.loop.Ticking? && Returned(s.loop.call, true) !in s.history then Leaving else Selecting)
    case LoopEvicted => s.(link := s.link.(permit := false), loop := Leaving)
    case LoopBreaks => s.(loop := Leaving)
    case LoopCloses(call) => Begin(s, call, CloseEntered).(loop := TearingDown(call))
    case LoopJoins => s.(loop := Joining)
    case LoopMarksClosed => s.(link := s.link.(state := Closed), loop := Done)
  }

  ghost predicate Next(s: State, step: Step, s': State) {
    Enabled(s, step) && s' == Apply(s, step)
  }

  // ----------------------------------------------------- open is never re-entered

  predicate LeftOpen(s: State) {
    s.link.state != Open
  }

  lemma LeftOpenKept(s: State, step: Step, s': State)
    requires LeftOpen(s) && Next(s, step, s')
    ensures LeftOpen(s')
  {
  }

  /** Closing may overwrite Closed, but once the state has left Open no later state is Open. */
  lemma OpenIsNeverReentered(states: seq<State>, steps: seq<Step>, i: nat, j: nat)
    requires IsRun(Init, Next, states, steps)
    requires i <= j < |states| && states[i].link.state != Open
    ensures states[j].link.state != Open
  {
    forall s, step, s' | LeftOpen(s) && Next(s, step, s')
      ensures LeftOpen(s')
    {
      LeftOpenKept(s, step, s');
    }
    Stability(Init, Next, LeftOpen, states, steps, i, j);
  }

  /** The state write of a `close` or of an eviction. */
  predicate WritesClosing(s: State, step: Step) {
    step.Advance? && step.call in s.calls && (s.calls[step.call].CloseEntered? || s.calls[step.call].SendSawFull?)
  }

  /** The loop has marked the connection closed, and is done with it. */
  predicate TornDown(s: State) {
    s.loop.Done? && (s.link.state == Closed || s.link.state == Closing)
  }

  lemma TornDownStep(s: State, step: Step, s': State)
    requires TornDown(s) && Next(s, step, s')
    ensures TornDown(s') && (s'.link.state == Closed <==> s.link.state == Closed && !WritesClosing(s, step))
  {
  }

  /**
   `Closed` is not final. From the end of the teardown on, it stays exactly until some `close` or eviction
   still in flight writes its state; the state is Closing from then on for good.
   */
  lemma {:induction false} ClosedUntilWritten(states: seq<State>, steps: seq<Step>, i: nat, j: nat)
    requires IsRun(Init, Next, states, steps) && i <= j < |states|
    requires states[i].loop.Done? && states[i].link.state == Closed
    ensures TornDown(states[j])
    ensures states[j].link.state == Closed <==> forall k :: i <= k < j ==> !WritesClosing(states[k], steps[k])
    decreases j
  {
    if i < j {
      ClosedUntilWritten(states, steps, i, j - 1);
      assert Next(states[j - 1], steps[j - 1], states[j]);
      TornDownStep(states[j - 1], steps[j - 1], states[j]);
    }
  }

  /** A caller who has yet to write Closing, or may come to find the queue full and do so. */
  predicate MayWriteClosing(pc: Pc) {
    pc.CloseEntered? || pc.SendSawOpen? || pc.SendSawFull?
  }

  predicate QuietlyClosed(s: State) {
    && TornDown(s)
    && s.link.state == Closed
    && forall call :: call in s.calls ==> !MayWriteClosing(s.calls[call])
  }

  lemma QuietlyClosedStep(s: State, step: Step, s': State)
    requires QuietlyClosed(s) && Next(s, step, s') && !step.BeginClose?
    ensures QuietlyClosed(s')
  {
  }

  /** What a caller can arrange: with no such call in flight and no `close` begun later, `Closed` is final. */
  lemma {:induction false} ClosedIsFinal(states: seq<State>, steps: seq<Step>, i: nat, j: nat)
    requires IsRun(Init, Next, states, steps) && i <= j < |states|
    requires states[i].loop.Done? && states[i].link.state == Closed
    requires forall call :: call in states[i].calls ==> !MayWriteClosing(states[i].calls[call])
    requires forall k :: i <= k < j ==> !steps[k].BeginClose?
    ensures QuietlyClosed(states[j])
    decreases j
  {
    if i < j {
      ClosedIsFinal(states, steps, i, j - 1);
      assert Next(states[j - 1], steps[j - 1], states[j]);
      QuietlyClosedStep(states[j - 1], steps[j - 1], states[j]);
    }
  }

  predicate AboutToWrite(s: State, call: CallId) {
    call in s.calls && s.calls[call].CloseEntered?
  }

  /** A `close` that was about to write its state and is in flight no more has written it. */
  lemma {:induction false} ReturnedCloseHasWritten(states: seq<State>, steps: seq<Step>, i: nat, j: nat, call: CallId)
    returns (k: nat)
    requires IsRun(Init, Next, states, steps) && i <= j < |states|
    requires AboutToWrite(states[i], call) && call !in states[j].calls
    ensures i <= k < j && WritesClosing(states[k], steps[k])
    decreases j - i
  {
    assert Next(states[i], steps[i], states[i + 1]);
    if steps[i] == Advance(call) {
      k := i;
    } else {
      InvAlways(states, steps, i);
      CallersStay(states[i], steps[i], states[i + 1], call);
      k := ReturnedCloseHasWritten(states, steps, i + 1, j, call);
    }
  }

  /** Some `close` was about to write its state at `i`, or began before `j`. */
  ghost predicate CloseWithin(states: seq<State>, steps: seq<Step>, i: nat, j: nat)
    requires i <= j <= |steps| < |states|
  {
    (exists call :: AboutToWrite(states[i], call)) || exists k :: i <= k < j && steps[k].BeginClose?
  }

  /**
   `Closed` is final exactly if nobody closes: when no send was past its check at the end of the teardown,
   the state is still Closed at a moment with no call in flight if and only if no `close` was about to
   write its state then and none began since.
   */
  lemma ClosedIffNoClose(states: seq<State>, steps: seq<Step>, i: nat, j: nat)
    requires IsRun(Init, Next, states, steps) && i <= j < |states|
    requires states[i].loop.Done? && states[i].link.state == Closed
    requires forall call :: call in states[i].calls ==>
                              !states[i].calls[call].SendSawOpen? && !states[i].calls[call].SendSawFull?
    requires states[j].calls == map[]
    ensures states[j].link.state == Closed <==> !CloseWithin(states, steps, i, j)
  {
    if CloseWithin(states, steps, i, j) {
      var k;
      if call :| AboutToWrite(states[i], call) {
        k := ReturnedCloseHasWritten(states, steps, i, j, call);
      } else {
        var began :| i <= began < j && steps[began].BeginClose?;
        assert Next(states[began], steps[began], states[began + 1]);
        k := ReturnedCloseHasWritten(states, steps, began + 1, j, steps[began].call);
      }
      ClosedUntilWritten(states, steps, i, j);
    } else {
      assert forall call :: call in states[i].calls ==> !AboutToWrite(states[i], call);
      ClosedIsFinal(states, steps, i, j);
    }
  }

  /** The start of the run below: the peer goes away and the loop calls `close`. */
  lemma PeerGoesAway() returns (states: seq<State>, steps: seq<Step>)
    ensures IsRun(Init, Next, states, steps) && |steps| == 2
    ensures states[2] == State(Link(Open, [], 1, true, false), map[0 := CloseEntered], {0},
                               Waiting, TearingDown(0), [], 0, [], [], [])
  {
    var s0 := State(Link(Open, [], 1, true, false), map[], {}, Waiting, Selecting, [], 0, [], [], []);
    var s1 := s0.(loop := Leaving);
    var s2 := s1.(loop := TearingDown(0), calls := map[0 := CloseEntered], used := {0});
    states, steps := [s0], [];
    states, steps := Extend(Init, Next, states, steps, LoopBreaks, s1);
    states, steps := Extend(Init, Next, states, steps, LoopCloses(0), s2);
  }

  /** The loop's `close` has queued its Close. */
  lemma TeardownStarts() returns (states: seq<State>, steps: seq<Step>)
    ensures IsRun(Init, Next, states, steps) && |steps| == 4
    ensures states[4] == State(Link(Closing, [CLOSE], 1, true, false), map[], {0},
                               Waiting, TearingDown(0), [], 0, [CLOSE], [], [])
  {
    states, steps := PeerGoesAway();
    var s3 := states[2].(calls := map[0 := CloseWrote], link := Link(Closing, [], 1, true, false));
    assert s3.calls - {0} == map[];
    var s4 := s3.(calls := map[], link := Link(Closing, [CLOSE], 1, true, false), accepted := [CLOSE]);
    states, steps := Extend(Init, Next, states, steps, Advance(0), s3);
    states, steps := Extend(Init, Next, states, steps, Advance(0), s4);
  }

  /** A run in which the server's teardown ends in Closed and a late `close` makes that Closing again. */
  lemma ClosedBecomesClosing() returns (states: seq<State>, steps: seq<Step>)
    ensures IsRun(Init, Next, states, steps)
    ensures |states| == 9 && states[6].link.state == Closed && states[8].link.state == Closing
  {
    states, steps := TeardownStarts();
    var s5 := states[4].(loop := Joining);
    var s6 := s5.(loop := Done, link := s5.link.(state := Closed));
    var s7 := s6.(calls := map[1 := CloseEntered], used := {0, 1});
    var s8 := s7.(calls := map[1 := CloseWrote], link := s6.link.(state := Closing));
    states, steps := Extend(Init, Next, states, steps, LoopJoins, s5);
    states, steps := Extend(Init, Next, states, steps, LoopMarksClosed, s6);
    states, steps := Extend(Init, Next, states, steps, BeginClose(1), s7);
    states, steps := Extend(Init, Next, states, steps, Advance(1), s8);
  }

  // ------------------------------------------------------------ failure is absorbing

  predicate IsFailure(e: Event) {
    e.Returned? && !e.ok
  }

  ghost predicate SomeFailure(h: seq<Event>) {
    exists i :: 0 <= i < |h| && IsFailure(h[i])
  }

  /** The call began after some send had already failed. */
  ghost predicate BeganTooLate(h: seq<Event>, call: CallId) {
    exists j :: 0 <= j < |h| && h[j] == Began(call) && SomeFailure(h[..j])
  }

  predicate CallsTracked(s: State) {
    && s.calls.Keys <= s.used
    && (forall e :: e in s.history ==> e.call in s.used)
    && (forall call :: call in s.calls ==> Returned(call, true) !in s.history && Returned(call, false) !in s.history)
    && (s.loop.Ticking? || s.loop.Ponging? || s.loop.TearingDown? ==> s.loop.call in s.used)
  }

  ghost predicate FailureAbsorbs(s: State) {
    && (SomeFailure(s.history) ==> s.link.Dead())
    && (forall call :: call in s.calls && s.calls[call].EvictWrote? ==> s.link.state != Open)
    && (forall call :: BeganTooLate(s.history, call) ==> NeverAccepted(s, call))
  }

  /** The call has not been accepted, and will not be. */
  predicate NeverAccepted(s: State, call: CallId) {
    && Returned(call, true) !in s.history
    && (call in s.calls && s.calls[call].SendSawOpen? ==> !s.link.live)
  }

  lemma SomeFailureNext(h: seq<Event>, e: Event)
    ensures SomeFailure(h + [e]) <==> SomeFailure(h) || IsFailure(e)
  {
    if i :| 0 <= i < |h| && IsFailure(h[i]) {
      assert IsFailure((h + [e])[i]);
    }
    if IsFailure(e) {
      assert IsFailure((h + [e])[|h|]);
    }
  }

  lemma BeganTooLateNext(h: seq<Event>, e: Event, call: CallId)
    ensures BeganTooLate(h + [e], call) <==> BeganTooLate(h, call) || (e == Began(call) && SomeFailure(h))
  {
    var h' := h + [e];
    assert h'[..|h|] == h;
    if j :| 0 <= j < |h| && h[j] == Began(call) && SomeFailure(h[..j]) {
      assert h'[j] == Began(call) && h'[..j] == h[..j];
    }
    if e == Began(call) && SomeFailure(h) {
      assert h'[|h|] == Began(call);
    }
    if j :| 0 <= j < |h'| && h'[j] == Began(call) && SomeFailure(h'[..j]) {
      assert j < |h| ==> h[j] == Began(call) && h'[..j] == h[..j];
    }
  }

  lemma BeganTooLateBegan(s: State, call: CallId)
    requires CallsTracked(s) && BeganTooLate(s.history, call)
    ensures call in s.used
    ensures SomeFailure(s.history)
  {
    var j :| 0 <= j < |s.history| && s.history[j] == Began(call) && SomeFailure(s.history[..j]);
    assert s.history[j] in s.history;
    var i :| 0 <= i < |s.history[..j]| && IsFailure(s.history[..j][i]);
    assert IsFailure(s.history[i]);
  }

  lemma BeginIsTracked(s: State, call: CallId, pc: Pc)
    requires CallsTracked(s) && call !in s.used
    ensures CallsTracked(Begin(s, call, pc))
  {
    assert forall e :: e in Begin(s, call, pc).history ==> e in s.history || e == Began(call);
  }

  lemma SendReturnIsTracked(s: State, call: CallId, ok: bool)
    requires CallsTracked(s) && call in s.calls
    ensures CallsTracked(SendReturns(s, call, ok))
  {
    assert forall e :: e in SendReturns(s, call, ok).history ==> e in s.history || e == Returned(call, ok);
  }

  /** Entering a call, for whichever step does it. */
  lemma BeginKeeps(s: State, call: CallId, pc: Pc)
    requires CallsTracked(s) && FailureAbsorbs(s) && call !in s.used
    requires pc.SendEntered? || pc.CloseEntered?
    ensures CallsTracked(Begin(s, call, pc)) && FailureAbsorbs(Begin(s, call, pc))
  {
    var s' := Begin(s, call, pc);
    BeginIsTracked(s, call, pc);
    SomeFailureNext(s.history, Began(call));
    forall late | BeganTooLate(s'.history, late)
      ensures NeverAccepted(s', late)
    {
      BeganTooLateNext(s.history, Began(call), late);
      assert late != call ==> NeverAccepted(s, late);
    }
  }

  lemma SendReturnKeeps(s: State, call: CallId, ok: bool)
    requires CallsTracked(s) && FailureAbsorbs(s) && call in s.calls
    requires !ok ==> s.link.Dead()
    requires ok ==> !BeganTooLate(s.history, call)
    ensures CallsTracked(SendReturns(s, call, ok)) && FailureAbsorbs(SendReturns(s, call, ok))
  {
    var s' := SendReturns(s, call, ok);
    SendReturnIsTracked(s, call, ok);
    SomeFailureNext(s.history, Returned(call, ok));
    forall late | BeganTooLate(s'.history, late)
      ensures NeverAccepted(s', late)
    {
      BeganTooLateNext(s.history, Returned(call, ok), late);
      assert NeverAccepted(s, late);
    }
  }

  lemma AdvanceKeeps(s: State, call: CallId)
    requires CallsTracked(s) && FailureAbsorbs(s) && call in s.calls
    ensures CallsTracked(AdvanceCall(s, call)) && FailureAbsorbs(AdvanceCall(s, call))
  {
    match s.calls[call]
    case SendEntered(m) =>
      if s.link.state != Open {
        SendReturnKeeps(s, call, false);
      } else if BeganTooLate(s.history, call) {
        BeganTooLateBegan(s, call);
      }
    case SendSawOpen(m) =>
      if BeganTooLate(s.history, call) {
        BeganTooLateBegan(s, call);
      }
      var (link, tried) := TrySend(s.link, m);
      if tried == Queued {
        SendReturnKeeps(s.(link := link, accepted := s.accepted + [m]), call, true);
      } else if tried == Disconnected {
        SendReturnKeeps(s, call, false);
      }
    case EvictWrote => SendReturnKeeps(s.(link := s.link.(permit := true)), call, false);
    case _ =>
  }

  lemma FailureAbsorbsKept(s: State, step: Step, s': State)
    requires CallsTracked(s) && FailureAbsorbs(s) && Next(s, step, s')
    ensures CallsTracked(s') && FailureAbsorbs(s')
  {
    match step
    case BeginSend(call, m) => BeginKeeps(s, call, SendEntered(m));
    case BeginClose(call) => BeginKeeps(s, call, CloseEntered);
    case LoopTicks(call) => BeginKeeps(s, call, SendEntered(Message(Ping, [])));
    case LoopPongs(call, payload) => BeginKeeps(s, call, SendEntered(Message(Pong, payload)));
    case LoopCloses(call) => BeginKeeps(s, call, CloseEntered);
    case Advance(call) => AdvanceKeeps(s, call);
    case _ =>
  }

  // ------------------------------------------------------- queue, writer and wire

  /** The queue and the writer as `Writers` sees them. */
  function Line(s: State): Outbound {
    Outbound(s.accepted, s.link.queue, s.writer.Held(), s.writer.Finishing? || s.writer.Gone?, s.taken, s.wire)
  }

  lemma CallMoves(s: State, call: CallId)
    requires call in s.calls
    ensures Line(AdvanceCall(s, call)) == After(Line(s), Queueing(Line(s), Line(AdvanceCall(s, call))))
  {
  }

  /** What a step is to the queue and the writer. */
  function MoveOf(s: State, step: Step): Move
    requires Enabled(s, step)
  {
    match step
    case Advance(call) => Queueing(Line(s), Line(AdvanceCall(s, call)))
    case WriterReceives => Receive
    case WriterDrops => Drop
    case WriterSends => Move.Send
    case WriterFails => Stop
    case WriterFinishes => Stop
    case WriterAborted => Stop
    case _ => Stay
  }

  lemma LineMoves(s: State, step: Step, s': State)
    requires Next(s, step, s')
    ensures Possible(Line(s), MoveOf(s, step)) && Line(s') == After(Line(s), MoveOf(s, step))
  {
    if step.Advance? {
      CallMoves(s, step.call);
    }
  }

  /** The queue is bounded, and its receiver lives as long as the writer. */
  predicate Bounded(s: State) {
    |s.link.queue| <= s.link.capacity && (s.link.live <==> !s.writer.Gone?)
  }

  lemma BoundedKept(s: State, step: Step, s': State)
    requires Bounded(s) && Next(s, step, s')
    ensures Bounded(s')
  {
  }

  // ----------------------------------------------- a close or an eviction is never lost

  /** The state is written, the Close or the permit not yet left behind. */
  predicate InsideTeardown(pc: Pc) {
    pc.EvictWrote? || pc.CloseWrote? || pc.CloseRefused?
  }

  /** What is going to end the read loop. */
  ghost predicate TeardownUnderWay(s: State) {
    || (exists call :: call in s.calls && InsideTeardown(s.calls[call]))
    || !NoClose(s.link.queue)
    || (s.writer.Holding? && s.writer.message.IsClose())
    || s.writer.Finishing?
    || s.writer.Gone?
    || s.link.permit
  }

  ghost predicate NothingLost(s: State) {
    Running(s.loop) && s.link.state != Open ==> TeardownUnderWay(s)
  }

  /** A caller inside `close` or `evict` moves on, or leaves a Close or a permit behind. */
  lemma CallerHandsOver(s: State, call: CallId)
    requires call in s.calls && InsideTeardown(s.calls[call])
    ensures TeardownUnderWay(AdvanceCall(s, call))
  {
    var s' := AdvanceCall(s, call);
    if call in s'.calls {
      assert InsideTeardown(s'.calls[call]);
    } else if s.calls[call].CloseWrote? {
      assert CLOSE in s'.link.queue;
    }
  }

  lemma CallersStay(s: State, step: Step, s': State, call: CallId)
    requires CallsTracked(s) && call in s.calls && Next(s, step, s') && step != Advance(call)
    ensures call in s'.calls && s'.calls[call] == s.calls[call]
  {
  }

  lemma QueuedCloseStays(s: State, step: Step, s': State)
    requires !NoClose(s.link.queue) && Next(s, step, s')
    ensures TeardownUnderWay(s')
  {
    var m :| m in s.link.queue && m.IsClose();
    if step.WriterReceives? {
      assert s.link.queue == [s'.writer.message] + s'.link.queue;
    } else if step.Advance? {
      AdvanceGrowsQueue(s, step.call);
    }
    assert m in s'.link.queue || (s'.writer.Holding? && s'.writer.message == m);
  }

  lemma AdvanceGrowsQueue(s: State, call: CallId)
    requires call in s.calls
    ensures s.link.queue <= AdvanceCall(s, call).link.queue
  {
  }

  lemma TeardownStaysUnderWay(s: State, step: Step, s': State)
    requires CallsTracked(s) && TeardownUnderWay(s) && Next(s, step, s') && Running(s'.loop)
    ensures TeardownUnderWay(s')
  {
    if call :| call in s.calls && InsideTeardown(s.calls[call]) {
      if step == Advance(call) {
        CallerHandsOver(s, call);
      } else {
        CallersStay(s, step, s', call);
        assert InsideTeardown(s'.calls[call]);
      }
    } else if !NoClose(s.link.queue) {
      QueuedCloseStays(s, step, s');
    } else {
      match step
      case Advance(call) => assert s.writer == s'.writer && (s.link.permit ==> s'.link.permit);
      case _ =>
    }
  }

  lemma NothingLostKept(s: State, step: Step, s': State)
    requires CallsTracked(s) && NothingLost(s) && Next(s, step, s')
    ensures NothingLost(s')
  {
    if Running(s'.loop) && s'.link.state != Open {
      if s.link.state != Open {
        TeardownStaysUnderWay(s, step, s');
      } else {
        assert step.Advance? && step.call in s'.calls && InsideTeardown(s'.calls[step.call]);
      }
    }
  }

  /** A tick taken after the state left Open finds it so, and its refused ping ends the loop. */
  ghost predicate LateTickFails(s: State) {
    && s.lateTicks <= 1
    && (s.lateTicks == 1 ==>
          && s.link.state != Open
          && (Running(s.loop) ==>
                && s.loop.Ticking?
                && Returned(s.loop.call, true) !in s.history
                && (s.loop.call in s.calls ==> s.calls[s.loop.call].SendEntered?)))
  }

  lemma AdvanceKeepsLateTick(s: State, call: CallId)
    requires CallsTracked(s) && LateTickFails(s) && call in s.calls
    ensures LateTickFails(AdvanceCall(s, call))
  {
    if s.lateTicks == 1 && Running(s.loop) && call == s.loop.call {
      assert AdvanceCall(s, call) == SendReturns(s, call, false);
    }
  }

  lemma LateTickFailsKept(s: State, step: Step, s': State)
    requires CallsTracked(s) && LateTickFails(s) && Next(s, step, s')
    ensures LateTickFails(s')
  {
    if step.Advance? {
      AdvanceKeepsLateTick(s, step.call);
    }
  }

  // ------------------------------------------------------------------ over every run

  ghost predicate Inv(s: State) {
    && CallsTracked(s)
    && FailureAbsorbs(s)
    && Bounded(s)
    && Sound(Line(s))
    && NothingLost(s)
    && LateTickFails(s)
  }

  lemma InvKept(s: State, step: Step, s': State)
    requires Inv(s) && Next(s, step, s')
    ensures Inv(s') && s.wire <= s'.wire
  {
    FailureAbsorbsKept(s, step, s');
    BoundedKept(s, step, s');
    LineMoves(s, step, s');
    SoundAfter(Line(s), MoveOf(s, step));
    NothingLostKept(s, step, s');
    LateTickFailsKept(s, step, s');
  }

  lemma InvAlways(states: seq<State>, steps: seq<Step>, i: nat)
    requires IsRun(Init, Next, states, steps) && i < |states|
    ensures Inv(states[i])
  {
    forall s, step, s' | Inv(s) && Next(s, step, s')
      ensures Inv(s')
    {
      InvKept(s, step, s');
    }
    Invariance(Init, Next, Inv, states, steps);
  }

  /**
   Failure is absorbing: once a send on the connection has returned an error, every send that begins
   later returns an error too, whoever makes it and whatever runs in between.
   */
  lemma FailureIsAbsorbing(states: seq<State>, steps: seq<Step>, i: nat, failed: nat, began: nat, ended: nat)
    requires IsRun(Init, Next, states, steps) && i < |states|
    requires var h := states[i].history;
             failed < began < ended < |h| && IsFailure(h[failed])
             && h[began].Began? && h[ended].Returned? && h[ended].call == h[began].call
    ensures IsFailure(states[i].history[ended])
  {
    InvAlways(states, steps, i);
    var h := states[i].history;
    assert IsFailure(h[..began][failed]);
    assert BeganTooLate(h, h[began].call);
    assert h[ended] in h;
  }

  /** `calls` are made by one sender, each after the previous one returned; `at` says where each begins and returns. */
  predicate Sequential(h: seq<Event>, calls: seq<CallId>, at: seq<(nat, nat)>) {
    && |at| == |calls|
    && (forall k :: 0 <= k < |calls| ==>
                      at[k].0 < at[k].1 < |h| && h[at[k].0] == Began(calls[k])
                      && h[at[k].1].Returned? && h[at[k].1].call == calls[k])
    && (forall k, l :: 0 <= k < l < |calls| ==> at[k].1 < at[l].0)
  }

  /** Of the calls located by `at`, exactly the first `n` were accepted. */
  predicate AcceptedExactly(h: seq<Event>, at: seq<(nat, nat)>, n: nat) {
    && n <= |at|
    && forall k :: 0 <= k < |at| ==> at[k].1 < |h| && h[at[k].1].Returned? && (h[at[k].1].ok <==> k < n)
  }

  /** The accepted sends of a sequential sender are a prefix of its sends. */
  lemma AcceptedSendsAreAPrefix(states: seq<State>, steps: seq<Step>, i: nat, calls: seq<CallId>, at: seq<(nat, nat)>)
    requires IsRun(Init, Next, states, steps) && i < |states|
    requires Sequential(states[i].history, calls, at)
    ensures exists n :: AcceptedExactly(states[i].history, at, n)
  {
    var h := states[i].history;
    var n := 0;
    while n < |calls| && h[at[n].1].ok
      invariant 0 <= n <= |calls|
      invariant forall k :: 0 <= k < n ==> h[at[k].1].ok
    {
      n := n + 1;
    }
    forall k | n < k < |calls|
      ensures !h[at[k].1].ok
    {
      FailureIsAbsorbing(states, steps, i, at[n].1, at[k].0, at[k].1);
    }
    assert AcceptedExactly(h, at, n);
  }

  /**
   A close or an eviction is never lost: while the read loop runs and the state has left Open,
   something is on its way to end the loop; and the loop takes at most one more tick.
   */
  lemma CloseIsNeverLost(states: seq<State>, steps: seq<Step>, i: nat)
    requires IsRun(Init, Next, states, steps) && i < |states|
    ensures Running(states[i].loop) && states[i].link.state != Open ==> TeardownUnderWay(states[i])
    ensures states[i].lateTicks <= 1
  {
    InvAlways(states, steps, i);
  }

  /** The wire always carries a prefix of `Written(accepted)`, and all of it once the writer is done. */
  lemma WireFollowsAccepted(states: seq<State>, steps: seq<Step>, i: nat)
    requires IsRun(Init, Next, states, steps) && i < |states|
    ensures states[i].wire <= Written(states[i].accepted)
    ensures Finished(Line(states[i])) ==> states[i].wire == Written(states[i].accepted)
    ensures |states[i].link.queue| <= states[i].link.capacity
  {
    InvAlways(states, steps, i);
    WireFollows(Line(states[i]));
  }

  // ------------------------------------------------------- the writer leaves nothing behind

  /** What ends a writer before its time. */
  predicate IsFault(step: Step) {
    step.WriterFails? || step.WriterAborted?
  }

  ghost predicate FaultBefore(steps: seq<Step>, i: nat) {
    exists k :: 0 <= k < i && k < |steps| && IsFault(steps[k])
  }

  lemma OrderlyKept(s: State, step: Step, s': State)
    requires Sound(Line(s)) && Orderly(Line(s)) && Next(s, step, s') && !IsFault(step)
    ensures Orderly(Line(s'))
  {
    LineMoves(s, step, s');
    OrderlyAfter(Line(s), MoveOf(s, step));
  }

  /**
   The writer stops for nothing but a Close it has sent, a failed write or being aborted: in particular
   it goes on after a message that cannot be sent.
   */
  lemma WriterStopsOnlyAfterClose(states: seq<State>, steps: seq<Step>, i: nat)
    requires IsRun(Init, Next, states, steps) && i < |states|
    ensures states[i].writer.Finishing? || states[i].writer.Gone? ==>
              EndsInClose(states[i].wire) || FaultBefore(steps, i)
    ensures FaultBefore(steps, i) || Orderly(Line(states[i]))
  {
    if !FaultBefore(steps, i) {
      var inv := (s: State) => Inv(s) && Orderly(Line(s));
      forall s, step, s' | inv(s) && Next(s, step, s') && !IsFault(step)
        ensures inv(s')
      {
        InvKept(s, step, s');
        OrderlyKept(s, step, s');
      }
      InvarianceUntil(Init, Next, IsFault, inv, states, steps, i);
    }
  }

  /** The writer's next step, unless it waits for a message or is gone. */
  function WritersNext(s: State): Option<Step> {
    match s.writer
    case Waiting => if s.link.queue != [] then Some(WriterReceives) else None
    case Holding(m) => Some(if Sendable(m) then WriterSends else WriterDrops)
    case Finishing => Some(WriterFinishes)
    case Gone => None
  }

  /** Runs the writer until it has nothing to do, with nobody else moving and no write failing. */
  function WriterAlone(s: State): State
    decreases Work(Line(s)), if s.writer.Finishing? then 1 else 0
  {
    match WritersNext(s)
    case Some(step) => WriterAlone(Apply(s, step))
    case None => s
  }

  lemma {:induction false} WriterAloneCompletes(s: State)
    requires Sound(Line(s)) && Orderly(Line(s))
    ensures WriterAlone(s).wire == Written(s.accepted) && WriterAlone(s).accepted == s.accepted
    decreases Work(Line(s)), if s.writer.Finishing? then 1 else 0
  {
    match WritersNext(s)
    case Some(step) =>
      LineMoves(s, step, Apply(s, step));
      SoundAfter(Line(s), MoveOf(s, step));
      OrderlyKept(s, step, Apply(s, step));
      WriterAloneCompletes(Apply(s, step));
    case None => OrderlyCompletes(Line(s));
  }

  /**
   Unless a write has failed or the writer was aborted, everything accepted gets written: the writer left to
   itself puts exactly `Written(accepted)` on the wire, and it has done so whenever it has nothing to do.
   */
  lemma EverythingAcceptedIsWritten(states: seq<State>, steps: seq<Step>, i: nat)
    requires IsRun(Init, Next, states, steps) && i < |states| && !FaultBefore(steps, i)
    ensures WriterAlone(states[i]).wire == Written(states[i].accepted)
    ensures WritersNext(states[i]).None? ==> states[i].wire == Written(states[i].accepted)
  {
    InvAlways(states, steps, i);
    WriterStopsOnlyAfterClose(states, steps, i);
    WriterAloneCompletes(states[i]);
  }

  // ------------------------------------------------------------ what each send puts in the queue

  /** The step begins a send of `m`: a caller's, the heartbeat's empty Ping, or the answer to a Ping. */
  predicate BeginsSend(step: Step, call: CallId, m: Message) {
    || step == BeginSend(call, m)
    || (step == LoopTicks(call) && m == Message(Ping, []))
    || (m.IsPong() && step == LoopPongs(call, m.payload))
  }

  predicate Carries(pc: Pc, m: Message) {
    && (pc.SendEntered? || pc.SendSawOpen? ==> pc.message == m)
    && !pc.CloseEntered? && !pc.CloseWrote? && !pc.CloseRefused?
  }

  lemma CarriesOn(s: State, step: Step, s': State, call: CallId, m: Message)
    requires call in s.used && (call in s.calls ==> Carries(s.calls[call], m)) && Next(s, step, s')
    ensures call in s'.used && (call in s'.calls ==> Carries(s'.calls[call], m))
  {
  }

  lemma {:induction false} CallCarries(states: seq<State>, steps: seq<Step>, i: nat, j: nat, call: CallId, m: Message)
    requires IsRun(Init, Next, states, steps) && i < j < |states| && BeginsSend(steps[i], call, m)
    ensures call in states[j].used && (call in states[j].calls ==> Carries(states[j].calls[call], m))
    decreases j
  {
    assert Next(states[j - 1], steps[j - 1], states[j]);
    if i + 1 < j {
      CallCarries(states, steps, i, j - 1, call, m);
      CarriesOn(states[j - 1], steps[j - 1], states[j], call, m);
    }
  }

  /** A send that returns successfully has queued its own message, once and at that step; the loop's own sends too. */
  lemma AcceptedSendIsQueued(states: seq<State>, steps: seq<Step>, i: nat, j: nat, call: CallId, m: Message)
    requires IsRun(Init, Next, states, steps) && i < j < |steps|
    requires BeginsSend(steps[i], call, m) && steps[j] == Advance(call)
    requires Returned(call, true) in states[j + 1].history && Returned(call, true) !in states[j].history
    ensures states[j + 1].accepted == states[j].accepted + [m]
    ensures states[j + 1].link.queue == states[j].link.queue + [m]
  {
    CallCarries(states, steps, i, j, call, m);
    assert Next(states[j], steps[j], states[j + 1]);
  }

  // ------------------------------------------------------------------ the teardown says goodbye

  predicate IsClose(pc: Pc) {
    pc.CloseEntered? || pc.CloseWrote? || pc.CloseRefused?
  }

  predicate SaidGoodbye(s: State) {
    s.link.state != Open && (!NoClose(s.accepted) || s.link.permit)
  }

  /** The teardown's own `close`: under way, or done. */
  predicate TeardownCloses(s: State) {
    && (s.loop.TearingDown? ==>
          s.loop.call in s.used && if s.loop.call in s.calls then IsClose(s.calls[s.loop.call])
                                   && (!s.calls[s.loop.call].CloseEntered? ==> s.link.state != Open)
                                   else SaidGoodbye(s))
    && (s.loop.Joining? || s.loop.Done? ==> SaidGoodbye(s))
  }

  lemma AcceptedGrows(s: State, step: Step, s': State)
    requires Next(s, step, s')
    ensures !NoClose(s.accepted) ==> !NoClose(s'.accepted)
  {
    LineMoves(s, step, s');
    assert forall m :: m in s.accepted ==> m in s'.accepted;
  }

  lemma PermitStays(s: State, step: Step, s': State)
    requires Next(s, step, s') && s.link.permit && !step.LoopEvicted?
    ensures s'.link.permit
  {
  }

  lemma GoodbyeStays(s: State, step: Step, s': State)
    requires SaidGoodbye(s) && Next(s, step, s') && !step.LoopEvicted?
    ensures SaidGoodbye(s')
  {
    LeftOpenKept(s, step, s');
    AcceptedGrows(s, step, s');
    if s.link.permit {
      PermitStays(s, step, s');
    }
  }

  lemma CloseAdvances(s: State, call: CallId)
    requires call in s.calls && IsClose(s.calls[call])
    requires !s.calls[call].CloseEntered? ==> s.link.state != Open
    ensures var s' := AdvanceCall(s, call);
            && s'.loop == s.loop && s'.used == s.used && s'.link.state != Open
            && if call in s'.calls then IsClose(s'.calls[call]) else SaidGoodbye(s')
  {
    assert CLOSE in s.accepted + [CLOSE];
  }

  lemma TeardownClosesKept(s: State, step: Step, s': State)
    requires CallsTracked(s) && TeardownCloses(s) && Next(s, step, s')
    ensures TeardownCloses(s')
  {
    if SaidGoodbye(s) && !step.LoopEvicted? {
      GoodbyeStays(s, step, s');
    }
    if s.loop.TearingDown? && s.loop.call in s.calls {
      if step == Advance(s.loop.call) {
        CloseAdvances(s, s.loop.call);
      } else {
        CallersStay(s, step, s', s.loop.call);
        if LeftOpen(s) {
          LeftOpenKept(s, step, s');
        }
      }
    }
  }

  /**
   Every teardown closes: when the loop waits for its writer, or is done, a Close has been queued, or else the
   queue would take none and a permit was left. A queued Close is the last frame on the wire when the
   writer has nothing left to do, unless a write failed or the writer was aborted.
   */
  lemma TeardownSaysGoodbye(states: seq<State>, steps: seq<Step>, i: nat)
    requires IsRun(Init, Next, states, steps) && i < |states|
    ensures states[i].loop.Joining? || states[i].loop.Done? ==> SaidGoodbye(states[i])
    ensures !NoClose(states[i].accepted) && !FaultBefore(steps, i) && WritersNext(states[i]).None? ==>
              EndsInClose(states[i].wire)
  {
    var inv := (s: State) => Inv(s) && TeardownCloses(s);
    forall s, step, s' | inv(s) && Next(s, step, s')
      ensures inv(s')
    {
      InvKept(s, step, s');
      TeardownClosesKept(s, step, s');
    }
    Invariance(Init, Next, inv, states, steps);
    assert inv(states[i]);
    if !FaultBefore(steps, i) {
      EverythingAcceptedIsWritten(states, steps, i);
      CloseIsWrittenLast(states[i].accepted);
    }
  }

  /** An eviction is noticed once: noticing it uses up the permit, and ends the loop. */
  lemma EvictionIsNoticedOnce(s: State, step: Step, s': State)
    requires Next(s, step, s') && s.link.permit
    ensures step.LoopEvicted? <==> !s'.link.permit
    ensures step.LoopEvicted? ==> Running(s.loop) && !Running(s'.loop)
  {
  }

  // -------------------------------------------- one caller alone, and the whole calls

  function Left(pc: Pc): nat {
    match pc
    case SendEntered(_) => 4
    case SendSawOpen(_) => 3
    case SendSawFull => 2
    case EvictWrote => 1
    case CloseEntered => 3
    case CloseWrote => 2
    case CloseRefused => 1
  }

  /** Runs one call to its end with nobody else moving. */
  function Finish(s: State, call: CallId): State
    decreases if call in s.calls then 1 + Left(s.calls[call]) else 0
  {
    if call in s.calls then Finish(AdvanceCall(s, call), call) else s
  }

  /** Left alone, the steps of `send` and of `close` amount to `AfterSend` and `AfterClose`. */
  lemma UninterruptedCalls(s: State, call: CallId, m: Message)
    requires call !in s.used && CallsTracked(s)
    ensures var done := Finish(Begin(s, call, SendEntered(m)), call);
            && done.link == AfterSend(s.link, m)
            && done.history == s.history + [Began(call), Returned(call, s.link.Accepts())]
            && done.accepted == s.accepted + (if s.link.Accepts() then [m] else [])
    ensures Finish(Begin(s, call, CloseEntered), call).link == AfterClose(s.link)
  {
    var s1 := Begin(s, call, SendEntered(m));
    var s2 := AdvanceCall(s1, call);
    assert Finish(s1, call) == Finish(s2, call);
    if s.link.state == Open {
      var s3 := AdvanceCall(s2, call);
      assert Finish(s2, call) == Finish(s3, call);
      if s.link.Overflows() {
        var s4 := AdvanceCall(s3, call);
        assert Finish(s3, call) == Finish(s4, call);
        var s5 := AdvanceCall(s4, call);
        assert Finish(s4, call) == Finish(s5, call) == s5;
      }
    }
    var c1 := Begin(s, call, CloseEntered);
    var c2 := AdvanceCall(c1, call);
    assert Finish(c1, call) == Finish(c2, call);
    var c3 := AdvanceCall(c2, call);
    assert Finish(c2, call) == Finish(c3, call);
    if call in c3.calls {
      var c4 := AdvanceCall(c3, call);
      assert Finish(c3, call) == Finish(c4, call) == c4;
    }
  }
}
