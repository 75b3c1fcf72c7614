/**
 More about the runs of `TimedConnections`: time never stands still, the read loop takes in whatever comes,
 and its teardown gives the writer its time.
 */
module LoopTimes {
  import opened Messages
  import opened Runs
  import opened ServerLoop
  import opened TimedConnections
  import Server = ConnectionSteps

  // ------------------------------------------------------------------ the clock is never stuck

  predicate IsSend(pc: Server.Pc) {
    pc.SendEntered? || pc.SendSawOpen? || pc.SendSawFull? || pc.EvictWrote?
  }

  predicate HasReturned(conn: Server.State, call: Server.CallId) {
    Server.Returned(call, true) in conn.history || Server.Returned(call, false) in conn.history
  }

  /** The send the loop waits for is in flight or has returned. */
  predicate LoopCalling(conn: Server.State) {
    conn.loop.Ticking? || conn.loop.Ponging? ==>
      (conn.loop.call in conn.calls && IsSend(conn.calls[conn.loop.call])) || HasReturned(conn, conn.loop.call)
  }

  lemma LoopCallingKept(conn: Server.State, step: Server.Step, conn': Server.State)
    requires Server.CallsTracked(conn) && LoopCalling(conn) && Server.Next(conn, step, conn')
    ensures LoopCalling(conn')
  {
    if step.Advance? {
      SendAdvances(conn, step.call);
    }
  }

  lemma SendAdvances(conn: Server.State, call: Server.CallId)
    requires call in conn.calls
    ensures var conn' := Server.AdvanceCall(conn, call);
            && conn'.loop == conn.loop
            && (IsSend(conn.calls[call]) ==>
                  (call in conn'.calls && IsSend(conn'.calls[call])) || HasReturned(conn', call))
            && (forall other :: HasReturned(conn, other) ==> HasReturned(conn', other))
            && (forall other :: other != call && other in conn.calls ==>
                  other in conn'.calls && conn'.calls[other] == conn.calls[other])
  {
  }

  lemma LoopCallingAlways(states: seq<State>, steps: seq<Step>, i: nat)
    requires IsRun(Init, Next, states, steps) && i < |states|
    ensures LoopCalling(states[i].conn)
  {
    var inv := (s: State) => Server.Inv(s.conn) && LoopCalling(s.conn);
    forall s, step, s' | inv(s) && Next(s, step, s')
      ensures inv(s')
    {
      if Inner(step).Some? {
        Server.InvKept(s.conn, Inner(step).value, s'.conn);
        LoopCallingKept(s.conn, Inner(step).value, s'.conn);
      }
    }
    Invariance(Init, Next, inv, states, steps);
  }

  lemma {:induction false} FreshCall(used: set<Server.CallId>) returns (unused: Server.CallId)
    ensures forall call :: call in used ==> call < unused
  {
    unused := 0;
    if used != {} {
      var call :| call in used;
      unused := FreshCall(used - {call});
      unused := if call < unused then unused else call + 1;
      assert forall other :: other in used ==> other == call || other in used - {call};
    }
  }

  /** A step that no caller begins, and that takes the clock on if it is a wait. */
  predicate GoesOn(s: State, step: Step) {
    && Enabled(s, step)
    && (step.Silent? ==> !step.step.BeginSend? && !step.step.BeginClose?)
    && (step.Wait? ==> step.until > s.now)
  }

  lemma LoopGoesOn(s: State) returns (step: Step)
    requires Scripted(s) && s.conn.loop.Selecting?
    ensures GoesOn(s, step)
  {
    var call := FreshCall(s.conn.used);
    CounterMeaning(s.script);
    if s.conn.link.permit {
      step := Evicted;
    } else if s.now == IdleDeadline(s.cfg, s.start, s.script) {
      step := Ended(IdleElapsed);
    } else if s.now < NextTick(s.cfg, s.start, s.script) {
      step := Wait(s.now + 1);
    } else if SilentTicks(s.script) < MAX_MISSED_HEARTBEATS {
      step := Ticked(call);
    } else {
      step := Ended(Tick(false));
    }
  }

  lemma SendGoesOn(s: State) returns (step: Step)
    requires LoopCalling(s.conn) && (s.conn.loop.Ticking? || s.conn.loop.Ponging?)
    ensures GoesOn(s, step)
  {
    if s.conn.loop.call in s.conn.calls {
      step := Silent(Server.Advance(s.conn.loop.call));
    } else {
      step := if s.conn.loop.Ticking? then Resumed else Silent(Server.LoopResumes);
    }
  }

  lemma TeardownGoesOn(s: State) returns (step: Step)
    requires TornDownInTime(s) && !Server.Running(s.conn.loop)
    ensures GoesOn(s, step)
  {
    match s.conn.loop
    case Leaving =>
      var call := FreshCall(s.conn.used);
      step := Silent(Server.LoopCloses(call));
    case TearingDown(call) =>
      step := Silent(if call in s.conn.calls then Server.Advance(call) else Server.LoopJoins);
    case Joining =>
      var over := s.conn.writer.Gone? || s.joinBy == Some(s.now);
      step := if over then Silent(Server.LoopMarksClosed) else Wait(s.now + 1);
    case Done =>
      step := if s.released.None? then Releases else Wait(s.now + 1);
  }

  /**
   The deadlines are not kept by stopping the clock: in every reachable state a step of the loop, of a call in
   flight or of the teardown is possible, or else time can pass.
   */
  lemma TheClockIsNeverStuck(states: seq<State>, steps: seq<Step>, i: nat) returns (step: Step)
    requires IsRun(Init, Next, states, steps) && i < |states|
    ensures GoesOn(states[i], step)
  {
    InvAlways(states, steps, i);
    LoopCallingAlways(states, steps, i);
    if states[i].conn.loop.Selecting? {
      step := LoopGoesOn(states[i]);
    } else if Server.Running(states[i].conn.loop) {
      step := SendGoesOn(states[i]);
    } else {
      step := TeardownGoesOn(states[i]);
    }
  }

  // ------------------------------------------------------------------ what is always possible

  /** The loop waits for a send of `m`. */
  predicate Sending(conn: Server.State, m: Message) {
    && (conn.loop.Ticking? || conn.loop.Ponging?)
    && conn.loop.call in conn.calls && conn.calls[conn.loop.call] == Server.SendEntered(m)
  }

  /** At its branches the loop takes whatever the peer sends, at any time, and the end of the stream. */
  lemma TheLoopTakesWhatComes(s: State, e: Event, answer: seq<byte>) returns (step: Step)
    requires s.conn.loop.Selecting? && (e.Frame? || e.ReadError? || e.EndOfStream?)
    ensures Enabled(s, step) && LoopEvent(s, step) == Some(e)
    ensures e.Frame? && e.raw.RawPing? ==> Sending(ConnAfter(s, step), Message(Pong, answer))
  {
    match e
    case Frame(raw) =>
      if raw.RawPing? {
        var call := FreshCall(s.conn.used);
        step := Pinged(call, raw.data, answer);
      } else if raw.RawClose? {
        step := Ended(e);
      } else {
        step := Received(raw);
      }
    case _ => step := Ended(e);
  }

  /**
   The writer gets its time: it is aborted no earlier than close_timeout after the end of the loop, and until then
   the connection is marked Closed only if the writer has ended by itself.
   */
  lemma TheWriterGetsItsTime(states: seq<State>, steps: seq<Step>, k: nat)
    requires IsRun(Init, Next, states, steps) && k < |steps|
    ensures steps[k] == Silent(Server.WriterAborted) ==>
              states[k].now >= Now(states[k].start, states[k].script) + states[k].closeTimeout
    ensures steps[k] == Silent(Server.LoopMarksClosed) && !states[k].conn.writer.Gone? ==>
              states[k].now == Now(states[k].start, states[k].script) + states[k].closeTimeout
  {
    InvAlways(states, steps, k);
    assert Next(states[k], steps[k], states[k + 1]);
    JoinByTheDeadline(states, steps, k);
  }

  predicate JoinsByTheDeadline(s: State) {
    s.joinBy.Some? ==> !Server.Running(s.conn.loop) && s.joinBy.value == Now(s.start, s.script) + s.closeTimeout
  }

  lemma JoinByTheDeadline(states: seq<State>, steps: seq<Step>, i: nat)
    requires IsRun(Init, Next, states, steps) && i < |states|
    ensures JoinsByTheDeadline(states[i])
  {
    var inv := (s: State) => Inv(s) && JoinsByTheDeadline(s);
    forall s, step, s' | inv(s) && Next(s, step, s')
      ensures inv(s')
    {
      InvKept(s, step, s');
      EndAfter(s, step, s');
      TeardownMoves(s, step, s');
      TeardownTimes(s, step, s');
      LoopFollows(s, step);
    }
    Invariance(Init, Next, inv, states, steps);
  }
}
