/**
 One connection with its read loop and teardown in time: the interleaving of `ConnectionSteps` beside a
 clock, with the loop's branches written down as the script `ServerLoop` reasons about. Callers and the
 writer move at any time; the loop's own calls and callbacks take none, and no branch is left ready
 while time passes.
 */
module TimedConnections {
  import opened Messages
  import opened Connections
  import opened Runs
  import opened ServerLoop
  import Server = ConnectionSteps

  /**
   `start`: when the loop began; `leftOpen`: when the state left Open; `pings`: for each tick in the script that
   sent a ping, the call that sent it; `joinBy`: until when the teardown waits for the writer; `released`:
   when the connection was unregistered and its slot given back.
   */
  datatype State = State(
    conn: Server.State,
    cfg: Config,
    closeTimeout: nat,
    start: nat,
    now: nat,
    script: Script,
    pings: map<nat, Server.CallId>,
    leftOpen: Option<nat>,
    joinBy: Option<nat>,
    released: Option<nat>)

  /**
   `Silent`: a step that is no event of the loop. `Ticked`: the heartbeat branch sends its ping. `Resumed`: that
   send has returned. `Pinged`: a Ping frame arrives and is answered. `Received`: any other frame that lets
   the loop go on. `Ended`: any other event that ends it. `Releases`: on_disconnect and what follows it.
   */
  datatype Step =
    | Silent(step: Server.Step)
    | Ticked(call: Server.CallId)
    | Resumed
    | Pinged(call: Server.CallId, payload: seq<byte>, answer: seq<byte>)
    | Received(raw: RawMessage)
    | Evicted
    | Ended(event: Event)
    | Releases
    | Wait(until: nat)

  ghost predicate Init(s: State) {
    && Server.Init(s.conn)
    && s.script == [] && s.pings == map[] && s.now == s.start
    && s.leftOpen == None && s.joinBy == None && s.released == None
  }

  predicate IsLoopEvent(step: Server.Step) {
    step.LoopTicks? || step.LoopPongs? || step.LoopResumes? || step.LoopEvicted? || step.LoopBreaks?
  }

  /** The connection's step. */
  function Inner(step: Step): Option<Server.Step> {
    match step
    case Silent(inner) => Some(inner)
    case Ticked(call) => Some(Server.LoopTicks(call))
    case Resumed => Some(Server.LoopResumes)
    case Pinged(call, _, answer) => Some(Server.LoopPongs(call, answer))
    case Evicted => Some(Server.LoopEvicted)
    case Ended(_) => Some(Server.LoopBreaks)
    case _ => None
  }

  /** Whether the ping of the heartbeat branch was accepted, once its send has returned. */
  predicate PingAccepted(s: State)
    requires s.conn.loop.Ticking?
  {
    Server.Returned(s.conn.loop.call, true) in s.conn.history
  }

  /** The event of the loop, if the step is one: a tick is over when its send has returned. */
  function LoopEvent(s: State, step: Step): Option<Event> {
    match step
    case Resumed => if s.conn.loop.Ticking? then Some(Tick(PingAccepted(s))) else None
    case Pinged(_, payload, _) => Some(Frame(RawPing(payload)))
    case Received(raw) => Some(Frame(raw))
    case Evicted => Some(EvictionNoticed)
    case Ended(e) => Some(e)
    case _ => None
  }

  /** The teardown waits for the writer, up to its deadline; an abort comes only after that. */
  predicate InTeardown(s: State, inner: Server.Step) {
    match inner
    case WriterAborted => s.joinBy.Some? && s.joinBy.value <= s.now
    case LoopMarksClosed => s.conn.writer.Gone? || s.joinBy == Some(s.now)
    case _ => true
  }

  /** While the loop waits at its branches none of them is ready; while the teardown waits the writer is at work. */
  predicate MayWait(s: State, until: nat) {
    match s.conn.loop
    case Selecting =>
      !s.conn.link.permit
      && until <= NextTick(s.cfg, s.start, s.script)
      && until <= IdleDeadline(s.cfg, s.start, s.script)
    case Joining => !s.conn.writer.Gone? && s.joinBy.Some? && until <= s.joinBy.value
    case Done => s.released.Some?
    case _ => false
  }

  /** When a step may be taken, beside what `ConnectionSteps` asks. */
  predicate Timely(s: State, step: Step) {
    match step
    case Silent(inner) =>
      (!IsLoopEvent(inner) || (inner.LoopResumes? && s.conn.loop.Ponging?)) && InTeardown(s, inner)
    case Ticked(_) => s.now == NextTick(s.cfg, s.start, s.script) && SilentTicks(s.script) < MAX_MISSED_HEARTBEATS
    case Resumed => s.conn.loop.Ticking?
    case Pinged(_, _, _) => true
    case Received(raw) => s.conn.loop.Selecting? && !raw.RawClose? && !raw.RawPing?
    case Evicted => true
    case Ended(e) =>
      && EndsLoop(s.script, e).Some? && e != EvictionNoticed
      && (e.Tick? ==> s.now == NextTick(s.cfg, s.start, s.script) && SilentTicks(s.script) == MAX_MISSED_HEARTBEATS)
      && (e.IdleElapsed? ==> s.now == IdleDeadline(s.cfg, s.start, s.script))
    case Releases => s.conn.loop.Done? && s.released.None?
    case Wait(until) => s.now <= until && MayWait(s, until)
  }

  predicate Enabled(s: State, step: Step) {
    Timely(s, step) && (Inner(step).Some? ==> Server.Enabled(s.conn, Inner(step).value))
  }

  function ConnAfter(s: State, step: Step): Server.State
    requires Enabled(s, step)
  {
    if Inner(step).Some? then Server.Apply(s.conn, Inner(step).value) else s.conn
  }

  function Apply(s: State, step: Step): State
    requires Enabled(s, step)
  {
    var conn := ConnAfter(s, step);
    State(
      conn, s.cfg, s.closeTimeout, s.start,
      if step.Wait? then step.until else s.now,
      if LoopEvent(s, step).Some? then s.script + [Timed(s.now, LoopEvent(s, step).value)] else s.script,
      if step.Resumed? then s.pings[|s.script| := s.conn.loop.call] else s.pings,
      if s.leftOpen.None? && conn.link.state != Open then Some(s.now) else s.leftOpen,
      if step == Silent(Server.LoopJoins) then Some(s.now + s.closeTimeout) else s.joinBy,
      if step.Releases? then Some(s.now) else s.released)
  }

  ghost predicate Next(s: State, step: Step, s': State) {
    Enabled(s, step) && s' == Apply(s, step)
  }

  // ---------------------------------------------------------- the script is one of the loop

  ghost predicate Over(script: Script) {
    exists exit :: Ends(script, exit)
  }

  /** The script is on time, and runs or has ended as the loop does. */
  ghost predicate Scripted(s: State) {
    && Punctual(s.cfg, s.start, s.script)
    && Now(s.start, s.script) <= s.now
    && (Server.Running(s.conn.loop) ==>
          && Live(s.script)
          && s.now <= NextTick(s.cfg, s.start, s.script)
          && s.now <= IdleDeadline(s.cfg, s.start, s.script))
    && (s.conn.loop.Ticking? ==>
          s.now == NextTick(s.cfg, s.start, s.script) && SilentTicks(s.script) < MAX_MISSED_HEARTBEATS)
    && (!Server.Running(s.conn.loop) ==> Over(s.script))
  }

  lemma NowEnds(cfg: Config, start: nat, script: Script, te: Timed)
    requires Live(script) && EndsLoop(script, te.event).Some?
    ensures Over(script + [te])
  {
    ScriptNext(cfg, start, script, te);
    assert Ends(script + [te], EndsLoop(script, te.event).value);
  }

  /** What an event of the loop does to the script. */
  lemma ScriptGrows(s: State, e: Event)
    requires Scripted(s) && Server.Running(s.conn.loop)
    requires e.Tick? ==> s.now == NextTick(s.cfg, s.start, s.script)
    requires e.IdleElapsed? ==> s.now == IdleDeadline(s.cfg, s.start, s.script)
    ensures var script := s.script + [Timed(s.now, e)];
            && Punctual(s.cfg, s.start, script)
            && Now(s.start, script) == s.now
            && (if EndsLoop(s.script, e).Some? then Over(script) else Live(script))
            && s.now <= IdleDeadline(s.cfg, s.start, script)
            && NextTick(s.cfg, s.start, script) ==
               NextTick(s.cfg, s.start, s.script) + if e.Tick? then s.cfg.heartbeatInterval else 0
  {
    ScriptNext(s.cfg, s.start, s.script, Timed(s.now, e));
    if EndsLoop(s.script, e).Some? {
      NowEnds(s.cfg, s.start, s.script, Timed(s.now, e));
    }
  }

  /** The loop runs on or is over, as its event says. */
  lemma LoopFollows(s: State, step: Step)
    requires Scripted(s) && Enabled(s, step)
    ensures var loop := ConnAfter(s, step).loop;
            && (LoopEvent(s, step).Some? ==>
                  && Server.Running(s.conn.loop)
                  && (Server.Running(loop) <==> EndsLoop(s.script, LoopEvent(s, step).value).None?)
                  && !loop.Ticking?)
            && (LoopEvent(s, step).None? ==> (Server.Running(loop) <==> Server.Running(s.conn.loop)))
            && (loop.Ticking? ==> s.conn.loop.Ticking? || step.Ticked?)
  {
  }

  lemma ScriptedKept(s: State, step: Step, s': State)
    requires Scripted(s) && Next(s, step, s')
    ensures Scripted(s')
  {
    LoopFollows(s, step);
    match LoopEvent(s, step)
    case Some(e) => ScriptGrows(s, e);
    case None => assert s'.script == s.script;
  }

  // ------------------------------------------------------------ what became of the pings

  /** The call is a send that has returned, and the tick says how. */
  predicate Reports(conn: Server.State, call: Server.CallId, accepted: bool) {
    && call in conn.used && call !in conn.calls
    && (accepted <==> Server.Returned(call, true) in conn.history)
  }

  /** Every tick of the script but the one that gives up has its own ping, and reports what became of it. */
  predicate PingsReported(s: State) {
    && (forall k :: k in s.pings ==>
          k < |s.script| && s.script[k].event.Tick? && Reports(s.conn, s.pings[k], s.script[k].event.pingQueued))
    && (forall k, l :: k in s.pings && l in s.pings && k != l ==> s.pings[k] != s.pings[l])
    && (s.conn.loop.Ticking? ==>
          s.conn.loop.call in s.conn.used && forall k :: k in s.pings ==> s.pings[k] != s.conn.loop.call)
  }

  predicate TicksHavePings(s: State) {
    forall k :: 0 <= k < |s.script| && s.script[k].event.Tick? && SilentTicks(s.script[..k]) < MAX_MISSED_HEARTBEATS ==>
      k in s.pings
  }

  /** What is known of a call that has returned does not change. */
  lemma ReportsStay(s: State, step: Step, s': State, call: Server.CallId, accepted: bool)
    requires Server.CallsTracked(s.conn) && Next(s, step, s') && Reports(s.conn, call, accepted)
    ensures Reports(s'.conn, call, accepted)
  {
  }

  lemma TickingCall(s: State, step: Step, s': State)
    requires Next(s, step, s') && s'.conn.loop.Ticking?
    ensures step.Ticked? ==> s'.conn.loop.call == step.call && step.call !in s.conn.used && step.call in s'.conn.used
    ensures !step.Ticked? ==> s.conn.loop == s'.conn.loop && s.conn.used <= s'.conn.used
  {
  }

  /** The loop resumes from a tick when its ping's send has returned. */
  lemma ResumedReports(s: State, s': State)
    requires Server.CallsTracked(s.conn) && Next(s, Resumed, s') && s.conn.loop.call in s.conn.used
    ensures Reports(s'.conn, s.conn.loop.call, PingAccepted(s))
  {
  }

  lemma PingsReportedKept(s: State, step: Step, s': State)
    requires Server.CallsTracked(s.conn) && PingsReported(s) && Next(s, step, s')
    ensures PingsReported(s')
  {
    forall k | k in s'.pings
      ensures k < |s'.script| && s'.script[k].event.Tick?
      ensures Reports(s'.conn, s'.pings[k], s'.script[k].event.pingQueued)
    {
      if step.Resumed? && k == |s.script| {
        ResumedReports(s, s');
      } else {
        ReportsStay(s, step, s', s.pings[k], s.script[k].event.pingQueued);
      }
    }
    if s'.conn.loop.Ticking? {
      TickingCall(s, step, s');
      assert !step.Resumed?;
    }
  }

  lemma TicksHavePingsKept(s: State, step: Step, s': State)
    requires TicksHavePings(s) && Next(s, step, s')
    ensures TicksHavePings(s')
  {
    forall k | 0 <= k < |s'.script| && s'.script[k].event.Tick? && SilentTicks(s'.script[..k]) < MAX_MISSED_HEARTBEATS
      ensures k in s'.pings
    {
      if k < |s.script| {
        assert s'.script[..k] == s.script[..k];
      } else {
        assert s'.script[..k] == s.script;
      }
    }
  }

  // ------------------------------------------------------- how long the loop outlives Open

  /** What is known of the late tick and of the clock, after the state has left Open. */
  predicate Near(s: State)
    requires s.leftOpen.Some?
  {
    var left, h := s.leftOpen.value, s.cfg.heartbeatInterval;
    if s.conn.lateTicks > 0 then s.now <= left + h
    else if s.conn.loop.Ticking? then s.now == left
    else NextTick(s.cfg, s.start, s.script) <= left + h
  }

  /** While the loop still runs after the state left Open: the next tick, or the late one, is near. */
  ghost predicate Overdue(s: State) {
    && (s.leftOpen.None? <==> s.conn.link.state == Open)
    && (s.leftOpen.Some? && Server.Running(s.conn.loop) ==> Near(s))
  }

  lemma LeavingOpen(s: State, step: Step, s': State)
    requires Next(s, step, s')
    ensures s.conn.link.state != Open ==> s'.conn.link.state != Open
    ensures s'.conn.link.state != s.conn.link.state ==> step.Silent?
  {
  }

  lemma CountingLateTicks(s: State, step: Step, s': State)
    requires Next(s, step, s')
    ensures s'.conn.lateTicks == s.conn.lateTicks + if step.Ticked? && s.conn.link.state != Open then 1 else 0
  {
  }

  lemma LateTickEnds(s: State, step: Step, s': State)
    requires Server.LateTickFails(s.conn) && Next(s, step, s') && step.Resumed? && s.conn.lateTicks > 0
    ensures !Server.Running(s'.conn.loop)
  {
  }

  /** The schedule after a step that leaves the loop running. */
  lemma Rescheduled(s: State, step: Step, s': State)
    requires Scripted(s) && Next(s, step, s')
    ensures !step.Resumed? && !(step.Ended? && step.event.Tick?) ==>
              NextTick(s'.cfg, s'.start, s'.script) == NextTick(s.cfg, s.start, s.script)
    ensures step.Resumed? ==> NextTick(s'.cfg, s'.start, s'.script) == s.now + s.cfg.heartbeatInterval
  {
    LoopFollows(s, step);
    match LoopEvent(s, step)
    case Some(e) => ScriptGrows(s, e);
    case None => assert s'.script == s.script;
  }

  lemma TicksAhead(s: State)
    requires Scripted(s) && Server.Running(s.conn.loop)
    ensures NextTick(s.cfg, s.start, s.script) <= s.now + s.cfg.heartbeatInterval
  {
    TickWindow(s.cfg, s.start, s.script);
  }

  /** The step in which the state leaves Open. */
  lemma NearAtFirst(s: State, step: Step, s': State)
    requires Server.LateTickFails(s.conn) && Scripted(s) && s.conn.link.state == Open && s.leftOpen.None?
    requires Next(s, step, s') && Scripted(s') && Server.Running(s'.conn.loop) && s'.leftOpen.Some?
    ensures Near(s')
  {
    LeavingOpen(s, step, s');
    CountingLateTicks(s, step, s');
    TicksAhead(s');
  }

  lemma StaysNear(s: State, step: Step, s': State)
    requires Server.LateTickFails(s.conn) && Scripted(s) && s.leftOpen.Some? && s.conn.link.state != Open
    requires Server.Running(s.conn.loop) && Near(s)
    requires Next(s, step, s') && Server.Running(s'.conn.loop)
    ensures s'.leftOpen == s.leftOpen && Near(s')
  {
    CountingLateTicks(s, step, s');
    LoopFollows(s, step);
    Rescheduled(s, step, s');
    if step.Resumed? && s.conn.lateTicks > 0 {
      LateTickEnds(s, step, s');
    }
  }

  lemma OverdueKept(s: State, step: Step, s': State)
    requires Server.LateTickFails(s.conn) && Scripted(s) && Overdue(s) && Next(s, step, s') && Scripted(s')
    ensures Overdue(s')
  {
    LeavingOpen(s, step, s');
    LoopFollows(s, step);
    if s'.leftOpen.Some? && Server.Running(s'.conn.loop) {
      if s.leftOpen.None? {
        NearAtFirst(s, step, s');
      } else {
        StaysNear(s, step, s');
      }
    }
  }

  // ------------------------------------------------------------------------- the teardown

  /** Where the clock is after the loop has ended. */
  ghost predicate TornDownInTime(s: State) {
    var ended := Now(s.start, s.script);
    && (s.conn.loop.Leaving? || s.conn.loop.TearingDown? ==> s.now == ended)
    && (s.conn.loop.Joining? ==> s.joinBy == Some(ended + s.closeTimeout) && s.now <= ended + s.closeTimeout)
    && (s.conn.loop.Done? && s.released.None? ==> s.now <= ended + s.closeTimeout)
    && (s.released.Some? ==> s.conn.loop.Done? && s.released.value <= ended + s.closeTimeout)
    && (!Server.Running(s.conn.loop) && s.leftOpen.Some? ==> ended <= s.leftOpen.value + s.cfg.heartbeatInterval)
  }

  lemma LeftOpenNearTheEnd(s: State, step: Step, s': State)
    requires Scripted(s) && Overdue(s) && TornDownInTime(s) && Next(s, step, s') && !Server.Running(s'.conn.loop)
    requires s'.leftOpen.Some?
    ensures Now(s'.start, s'.script) <= s'.leftOpen.value + s'.cfg.heartbeatInterval
  {
    LoopFollows(s, step);
    match LoopEvent(s, step)
    case Some(e) => ScriptGrows(s, e);
    case None => assert s'.script == s.script;
  }

  /** The phases of the teardown follow one another. */
  lemma TeardownMoves(s: State, step: Step, s': State)
    requires Next(s, step, s')
    ensures s'.conn.loop.Leaving? ==> s.conn.loop.Leaving? || LoopEvent(s, step).Some?
    ensures s'.conn.loop.TearingDown? ==> s.conn.loop.TearingDown? || s.conn.loop.Leaving?
    ensures s'.conn.loop.Joining? ==>
              (s.conn.loop.Joining? && step != Silent(Server.LoopJoins))
              || (s.conn.loop.TearingDown? && step == Silent(Server.LoopJoins))
    ensures s'.conn.loop.Done? ==> s.conn.loop.Done? || (s.conn.loop.Joining? && step == Silent(Server.LoopMarksClosed))
    ensures s.conn.loop.Done? ==> s'.conn.loop.Done?
    ensures step.Wait? ==> s'.conn == s.conn
    ensures !Server.Running(s.conn.loop) ==> LoopEvent(s, step).None?
  {
  }

  /** The script ends with the step's event, if the step is one. */
  lemma EndAfter(s: State, step: Step, s': State)
    requires Next(s, step, s')
    ensures Now(s'.start, s'.script) == if LoopEvent(s, step).Some? then s.now else Now(s.start, s.script)
    ensures LoopEvent(s, step).Some? ==> s'.now == s.now
  {
  }

  lemma TornDownInTimeKept(s: State, step: Step, s': State)
    requires Scripted(s) && Overdue(s) && TornDownInTime(s) && Next(s, step, s')
    ensures TornDownInTime(s')
  {
    TeardownMoves(s, step, s');
    TeardownTimes(s, step, s');
    EndAfter(s, step, s');
    if !Server.Running(s'.conn.loop) && s'.leftOpen.Some? {
      LeftOpenNearTheEnd(s, step, s');
    }
  }

  /** What a step in the teardown does to the clock and the teardown's own times. */
  lemma TeardownTimes(s: State, step: Step, s': State)
    requires Next(s, step, s')
    ensures s'.closeTimeout == s.closeTimeout
    ensures s'.joinBy == if step == Silent(Server.LoopJoins) then Some(s.now + s.closeTimeout) else s.joinBy
    ensures s'.now != s.now ==> step.Wait? && MayWait(s, s'.now)
    ensures s'.released == if step.Releases? then Some(s.now) else s.released
    ensures step.Releases? ==> s.conn.loop.Done? && s.released.None? && s'.conn == s.conn
  {
  }

  // ------------------------------------------------------------------ over every run

  ghost predicate Inv(s: State) {
    Server.Inv(s.conn) && Scripted(s) && PingsReported(s) && TicksHavePings(s) && Overdue(s) && TornDownInTime(s)
  }

  lemma InvKept(s: State, step: Step, s': State)
    requires Inv(s) && Next(s, step, s')
    ensures Inv(s')
  {
    if Inner(step).Some? {
      Server.InvKept(s.conn, Inner(step).value, s'.conn);
    }
    ScriptedKept(s, step, s');
    PingsReportedKept(s, step, s');
    TicksHavePingsKept(s, step, s');
    OverdueKept(s, step, s');
    TornDownInTimeKept(s, step, s');
  }

  lemma InvAlways(states: seq<State>, steps: seq<Step>, i: nat)
    requires IsRun(Init, Next, states, steps) && i < |states|
    ensures Inv(states[i])
  {
    forall s, step, s' | Inv(s) && Next(s, step, s')
      ensures Inv(s')
    {
      InvKept(s, step, s');
    }
    Invariance(Init, Next, Inv, states, steps);
  }

  /** The dead-peer bound of the last read. */
  function PeerBound(s: State): nat {
    LastRead(s.start, s.script) + Min(s.cfg.connectionTimeout, 4 * s.cfg.heartbeatInterval)
  }

  /** The script has not run past the bound, and neither has the clock while the loop runs. */
  lemma WithinPeerBound(s: State)
    requires Scripted(s)
    ensures Now(s.start, s.script) <= PeerBound(s)
    ensures Server.Running(s.conn.loop) ==> s.now <= PeerBound(s)
  {
    if Server.Running(s.conn.loop) {
      DeadPeerBound(s.cfg, s.start, s.script, Timed(s.now, EvictionNoticed));
    } else {
      DeadPeerBound(s.cfg, s.start, Front(s.script), Last(s.script));
    }
  }

  /**
   Whatever callers and the writer do, the loop's events are a script of `ServerLoop` that is on time and still
   live exactly while the loop runs: so all that is proved there about scripts holds of the interleaved
   connection. Every tick that sends a ping has a send of its own, which has returned, and says whether
   that send was accepted. And a running loop has read something within
   min(connection_timeout, 4 * heartbeat_interval).
   */
  lemma TheLoopIsAScript(states: seq<State>, steps: seq<Step>, i: nat)
    requires IsRun(Init, Next, states, steps) && i < |states|
    ensures var s := states[i];
            && Punctual(s.cfg, s.start, s.script)
            && (Server.Running(s.conn.loop) <==> Live(s.script))
            && (Server.Running(s.conn.loop) ==> s.now <= PeerBound(s))
    ensures var s := states[i];
            && (forall k :: 0 <= k < |s.script| && s.script[k].event.Tick?
                            && SilentTicks(s.script[..k]) < MAX_MISSED_HEARTBEATS ==>
                  && k in s.pings && s.pings[k] !in s.conn.calls
                  && (s.script[k].event.pingQueued <==> Server.Returned(s.pings[k], true) in s.conn.history))
            && (forall k, l :: k in s.pings && l in s.pings && k != l ==> s.pings[k] != s.pings[l])
  {
    InvAlways(states, steps, i);
    WithinPeerBound(states[i]);
  }

  /**
   A connection that is closed or evicted is left within a heartbeat: the loop never runs more than one
   interval after the state has left Open, whether or not it was woken.
   */
  lemma TheLoopEndsWithinAnInterval(states: seq<State>, steps: seq<Step>, i: nat)
    requires IsRun(Init, Next, states, steps) && i < |states|
    requires Server.Running(states[i].conn.loop) && states[i].conn.link.state != Open
    ensures states[i].leftOpen.Some? && states[i].now <= states[i].leftOpen.value + states[i].cfg.heartbeatInterval
  {
    InvAlways(states, steps, i);
  }

  /** Until when a connection holds its slot: when it gave it back, or else at least now. */
  function HeldUntil(s: State): nat {
    if s.released.Some? then s.released.value else s.now
  }

  /**
   A slot is held no longer than min(connection_timeout, 4 * heartbeat_interval) + close_timeout after the last
   read, and than heartbeat_interval + close_timeout after the state has left Open.
   */
  lemma TheSlotIsGivenBack(states: seq<State>, steps: seq<Step>, i: nat)
    requires IsRun(Init, Next, states, steps) && i < |states|
    ensures var s := states[i];
            && HeldUntil(s) <= PeerBound(s) + s.closeTimeout
            && (s.leftOpen.Some? ==> HeldUntil(s) <= s.leftOpen.value + s.cfg.heartbeatInterval + s.closeTimeout)
  {
    InvAlways(states, steps, i);
    WithinPeerBound(states[i]);
    if Server.Running(states[i].conn.loop) && states[i].conn.link.state != Open {
      TheLoopEndsWithinAnInterval(states, steps, i);
    }
  }
}
