/**
 The read loop of src/server.rs: its heartbeat counter and idle deadline, its timing, and the callbacks
 it makes. A script lists the branches `select!` takes, when, and whether the loop's own pings were
 queued. `TimedConnections` says where the scripts come from, `ConnectionTask` what surrounds the loop.
 */
module ServerLoop {
  import opened Messages
  import opened Streams

  const MAX_MISSED_HEARTBEATS: nat := 3

  datatype Event =
    | Tick(pingQueued: bool)
    | EvictionNoticed
    | IdleElapsed
    | Frame(raw: RawMessage)
    | ReadError
    | EndOfStream

  datatype Timed = Timed(at: nat, event: Event)

  type Script = seq<Timed>

  datatype Exit = MissedHeartbeats | PingRefused | WasEvicted | WasIdle | PeerClosed | ReadFailed | StreamEnded

  datatype Config = Config(heartbeatInterval: nat, connectionTimeout: nat)

  predicate IsRead(e: Event) {
    e.Frame? || e.ReadError? || e.EndOfStream?
  }

  /** All but the last event. */
  function Front(script: Script): Script
    requires script != []
  {
    script[..|script| - 1]
  }

  function Last(script: Script): Timed
    requires script != []
  {
    script[|script| - 1]
  }

  /** The events since the last frame read. */
  function SinceFrame(script: Script): Script {
    if script == [] || Last(script).event.Frame? then [] else SinceFrame(Front(script)) + [Last(script)]
  }

  function Ticks(script: Script): nat {
    if script == [] then 0 else Ticks(Front(script)) + if Last(script).event.Tick? then 1 else 0
  }

  function QueuedPings(script: Script): nat {
    if script == [] then 0 else QueuedPings(Front(script)) + if Last(script).event == Tick(true) then 1 else 0
  }

  /** The ticks since the last frame read. */
  function SilentTicks(script: Script): nat {
    if script == [] || Last(script).event.Frame? then 0
    else SilentTicks(Front(script)) + if Last(script).event.Tick? then 1 else 0
  }

  function LastRead(start: nat, script: Script): nat {
    if script == [] then start
    else if IsRead(Last(script).event) then Last(script).at
    else LastRead(start, Front(script))
  }

  /** Whether the loop, having processed `before`, ends at this event. */
  function EndsLoop(before: Script, e: Event): Option<Exit> {
    match e
    case Tick(pingQueued) =>
      if SilentTicks(before) + 1 > MAX_MISSED_HEARTBEATS then Some(MissedHeartbeats)
      else if !pingQueued then Some(PingRefused) else None
    case EvictionNoticed => Some(WasEvicted)
    case IdleElapsed => Some(WasIdle)
    case Frame(raw) => if raw.RawClose? then Some(PeerClosed) else None
    case ReadError => Some(ReadFailed)
    case EndOfStream => Some(StreamEnded)
  }

  /** The loop is still running after the whole script. */
  predicate Live(script: Script) {
    script == [] || (Live(Front(script)) && EndsLoop(Front(script), Last(script).event) == None)
  }

  /** The last event of the script ends the loop. */
  predicate Ends(script: Script, exit: Exit) {
    script != [] && Live(Front(script)) && EndsLoop(Front(script), Last(script).event) == Some(exit)
  }

  // ------------------------------------------------------------ the heartbeat counter

  lemma TicksNext(script: Script, te: Timed)
    ensures Ticks(script + [te]) == Ticks(script) + if te.event.Tick? then 1 else 0
    ensures QueuedPings(script + [te]) == QueuedPings(script) + if te.event == Tick(true) then 1 else 0
  {
    assert Front(script + [te]) == script;
  }

  /** `SinceFrame` is a suffix without frames, and holds the silent ticks. */
  lemma {:induction false} SinceFrameIsSilent(script: Script)
    ensures |SinceFrame(script)| <= |script| && SinceFrame(script) == script[|script| - |SinceFrame(script)|..]
    ensures NoFrame(SinceFrame(script))
    ensures |SinceFrame(script)| < |script| ==> script[|script| - |SinceFrame(script)| - 1].event.Frame?
    ensures Ticks(SinceFrame(script)) == SilentTicks(script)
  {
    if script != [] && !Last(script).event.Frame? {
      SinceFrameIsSilent(Front(script));
      TicksNext(SinceFrame(Front(script)), Last(script));
    }
  }

  /** At every loop head the counter is the number of pings queued since the last frame, and at most 3. */
  lemma {:induction false} CounterMeaning(script: Script)
    requires Live(script)
    ensures SilentTicks(script) == Ticks(SinceFrame(script)) == QueuedPings(SinceFrame(script)) <= MAX_MISSED_HEARTBEATS
  {
    if script != [] {
      CounterMeaning(Front(script));
      if !Last(script).event.Frame? {
        TicksNext(SinceFrame(Front(script)), Last(script));
      }
    }
  }

  predicate NoFrame(script: Script) {
    forall te :: te in script ==> !te.event.Frame?
  }

  /**
   The loop gives up on the heartbeat exactly at the fourth tick with no frame since: a run with a
   frame between any four consecutive ticks never leaves that way.
   */
  lemma MissedHeartbeatsMeansFourSilentTicks(script: Script)
    requires script != [] && Live(Front(script))
    ensures Ends(script, MissedHeartbeats) <==> Last(script).event.Tick? && Ticks(SinceFrame(script)) == 4
  {
    CounterMeaning(Front(script));
    SinceFrameIsSilent(script);
  }

  // ------------------------------------------------------------------------- timing

  /** The scheduled time of the next tick; the interval's immediate first tick is consumed before the loop. */
  function NextTick(cfg: Config, start: nat, script: Script): nat {
    if script == [] then start + cfg.heartbeatInterval
    else NextTick(cfg, start, Front(script)) + if Last(script).event.Tick? then cfg.heartbeatInterval else 0
  }

  function IdleDeadline(cfg: Config, start: nat, script: Script): nat {
    LastRead(start, script) + cfg.connectionTimeout
  }

  function Now(start: nat, script: Script): nat {
    if script == [] then start else Last(script).at
  }

  /** With callbacks that take no time, no branch is taken later than the moment it is ready. */
  predicate OnTime(cfg: Config, start: nat, before: Script, te: Timed) {
    && Now(start, before) <= te.at <= NextTick(cfg, start, before)
    && te.at <= IdleDeadline(cfg, start, before)
    && (te.event.Tick? ==> te.at == NextTick(cfg, start, before))
    && (te.event.IdleElapsed? ==> te.at == IdleDeadline(cfg, start, before))
  }

  predicate Punctual(cfg: Config, start: nat, script: Script) {
    script == [] || (Punctual(cfg, start, Front(script)) && OnTime(cfg, start, Front(script), Last(script)))
  }

  function Multiple(k: nat, h: nat): nat {
    if k == 0 then 0 else Multiple(k - 1, h) + h
  }

  lemma UpToThree(k: nat, h: nat)
    requires k <= 3
    ensures Multiple(k, h) <= 3 * h && (k == 3 ==> Multiple(k, h) == 3 * h)
  {
    assert Multiple(1, h) == h && Multiple(2, h) == 2 * h && Multiple(3, h) == 3 * h;
  }

  /** Where the next tick can fall, given how many there were since the last read. */
  lemma {:induction false} TickWindow(cfg: Config, start: nat, script: Script)
    requires Punctual(cfg, start, script) && Live(script)
    ensures var last, h := LastRead(start, script), cfg.heartbeatInterval;
            var early := last + Multiple(SilentTicks(script), h);
            early <= NextTick(cfg, start, script) <= early + h
    ensures NextTick(cfg, start, script) <= Now(start, script) + cfg.heartbeatInterval
  {
    if script != [] {
      TickWindow(cfg, start, Front(script));
    }
  }

  function Min(a: nat, b: nat): nat {
    if a <= b then a else b
  }

  /**
   The dead-peer bound. If the last read was at T, the loop cannot still be waiting after
   T + min(connection_timeout, 4 * heartbeat_interval) and processes no event later than that; and
   it never gives up on the heartbeat before T + 3 * heartbeat_interval.
   */
  lemma DeadPeerBound(cfg: Config, start: nat, script: Script, next: Timed)
    requires Punctual(cfg, start, script) && Live(script) && OnTime(cfg, start, script, next)
    ensures next.at <= LastRead(start, script) + Min(cfg.connectionTimeout, 4 * cfg.heartbeatInterval)
    ensures EndsLoop(script, next.event) == Some(MissedHeartbeats) ==>
              next.at >= LastRead(start, script) + 3 * cfg.heartbeatInterval
  {
    TickWindow(cfg, start, script);
    CounterMeaning(script);
    UpToThree(SilentTicks(script), cfg.heartbeatInterval);
  }

  /** One more event in the script. */
  lemma ScriptNext(cfg: Config, start: nat, script: Script, te: Timed)
    ensures var next := script + [te];
            && next != [] && Front(next) == script && Last(next) == te
            && (Punctual(cfg, start, next) <==> Punctual(cfg, start, script) && OnTime(cfg, start, script, te))
            && Now(start, next) == te.at
            && NextTick(cfg, start, next) ==
               NextTick(cfg, start, script) + (if te.event.Tick? then cfg.heartbeatInterval else 0)
            && (Live(next) <==> Live(script) && EndsLoop(script, te.event) == None)
            && SilentTicks(next) ==
               (if te.event.Frame? then 0 else SilentTicks(script) + if te.event.Tick? then 1 else 0)
            && LastRead(start, next) == (if IsRead(te.event) then te.at else LastRead(start, script))
  {
    assert Front(script + [te]) == script;
  }

  /** Three ticks on schedule, their pings queued and nothing read. */
  function Silence(cfg: Config, start: nat): Script {
    var h := cfg.heartbeatInterval;
    [Timed(start + h, Tick(true))] + [Timed(start + 2 * h, Tick(true))] + [Timed(start + 3 * h, Tick(true))]
  }

  /** Three consecutive pings without any answer leave the loop running; only the tick after them ends it. */
  lemma ThreeUnansweredPingsAreNotEnough(cfg: Config, start: nat)
    requires 4 * cfg.heartbeatInterval <= cfg.connectionTimeout
    ensures var three := Silence(cfg, start);
            Punctual(cfg, start, three) && Live(three) && QueuedPings(three) == 3
    ensures var four := Silence(cfg, start) + [Timed(start + 4 * cfg.heartbeatInterval, Tick(true))];
            Punctual(cfg, start, four) && Ends(four, MissedHeartbeats)
  {
    var h := cfg.heartbeatInterval;
    var one, two := Timed(start + h, Tick(true)), Timed(start + 2 * h, Tick(true));
    var three := Timed(start + 3 * h, Tick(true));
    ScriptNext(cfg, start, [], one);
    TicksNext([], one);
    assert [] + [one] == [one];
    ScriptNext(cfg, start, [one], two);
    TicksNext([one], two);
    ScriptNext(cfg, start, [one] + [two], three);
    TicksNext([one] + [two], three);
    ScriptNext(cfg, start, [one] + [two] + [three], Timed(start + 4 * h, Tick(true)));
  }

  /** `n` heartbeats, each ping followed by a data frame; never a Pong. */
  function Chatter(cfg: Config, start: nat, n: nat): Script {
    if n == 0 then []
    else
      var before := Chatter(cfg, start, n - 1);
      var at := NextTick(cfg, start, before);
      before + [Timed(at, Tick(true))] + [Timed(at, Frame(RawText([])))]
  }

  predicate NoPong(script: Script) {
    forall te :: te in script ==> te.event.Frame? ==> !te.event.raw.RawPong?
  }

  lemma {:induction false} ChatterIsLive(cfg: Config, start: nat, n: nat)
    requires cfg.heartbeatInterval <= cfg.connectionTimeout
    ensures var script := Chatter(cfg, start, n);
            && Punctual(cfg, start, script) && Live(script)
            && SilentTicks(script) == 0
            && LastRead(start, script) == Now(start, script)
            && NextTick(cfg, start, script) == Now(start, script) + cfg.heartbeatInterval
  {
    if n > 0 {
      ChatterIsLive(cfg, start, n - 1);
      var before := Chatter(cfg, start, n - 1);
      var at := NextTick(cfg, start, before);
      ScriptNext(cfg, start, before, Timed(at, Tick(true)));
      ScriptNext(cfg, start, before + [Timed(at, Tick(true))], Timed(at, Frame(RawText([]))));
    }
  }

  lemma {:induction false} ChatterPings(cfg: Config, start: nat, n: nat)
    ensures QueuedPings(Chatter(cfg, start, n)) == n && NoPong(Chatter(cfg, start, n))
  {
    if n > 0 {
      ChatterPings(cfg, start, n - 1);
      var before := Chatter(cfg, start, n - 1);
      var at := NextTick(cfg, start, before);
      TicksNext(before, Timed(at, Tick(true)));
      TicksNext(before + [Timed(at, Tick(true))], Timed(at, Frame(RawText([]))));
    }
  }

  /** Any frame counts: a peer that goes on sending data and never answers a ping is never given up on. */
  lemma PongsAreNotNeeded(cfg: Config, start: nat, n: nat)
    requires cfg.heartbeatInterval <= cfg.connectionTimeout
    ensures var script := Chatter(cfg, start, n);
            Punctual(cfg, start, script) && Live(script) && QueuedPings(script) == n && NoPong(script)
  {
    ChatterIsLive(cfg, start, n);
    ChatterPings(cfg, start, n);
  }

  lemma OneMoreQuiet(start: nat, script: Script, te: Timed)
    requires Live(script + [te]) && !te.event.Frame?
    ensures Live(script) && SilentTicks(script + [te]) == SilentTicks(script) + 1
    ensures LastRead(start, script + [te]) == LastRead(start, script)
  {
    ScriptNext(Config(0, 0), start, script, te);
  }

  /** A running loop that reads no frame takes nothing but ticks. */
  lemma {:induction false} QuietIsTicks(start: nat, script: Script, tail: Script)
    requires Live(script + tail) && NoFrame(tail)
    ensures Live(script) && SilentTicks(script + tail) == SilentTicks(script) + |tail|
    ensures LastRead(start, script + tail) == LastRead(start, script)
  {
    if tail == [] {
      assert script + tail == script;
    } else {
      var front, last := Front(tail), Last(tail);
      assert tail == front + [last] && last in tail;
      assert script + tail == script + front + [last];
      OneMoreQuiet(start, script + front, last);
      QuietIsTicks(start, script, front);
    }
  }

  /** Where a script that does not end live ended the loop. */
  lemma {:induction false} FirstEnd(script: Script, n: nat) returns (end: nat, exit: Exit)
    requires n <= |script| && Live(script[..n]) && !Live(script)
    ensures n < end <= |script| && Ends(script[..end], exit)
    ensures forall k :: n <= k < end ==> Live(script[..k])
    decreases |script| - n
  {
    assert script[..|script|] == script;
    assert Front(script[..n + 1]) == script[..n];
    if Live(script[..n + 1]) {
      end, exit := FirstEnd(script, n + 1);
    } else {
      end, exit := n + 1, EndsLoop(script[..n], script[n].event).value;
    }
  }

  lemma {:induction false} PunctualAt(cfg: Config, start: nat, script: Script, n: nat)
    requires Punctual(cfg, start, script) && n < |script|
    ensures Punctual(cfg, start, script[..n]) && OnTime(cfg, start, script[..n], script[n])
    decreases |script|
  {
    if n < |script| - 1 {
      PunctualAt(cfg, start, Front(script), n);
      assert Front(script)[..n] == script[..n];
    }
  }

  /** The event after a frame-free stretch of a running loop is within the bound of the last read before it. */
  lemma EventWithinBound(cfg: Config, start: nat, script: Script, quiet: Script, te: Timed)
    requires Live(script + quiet) && NoFrame(quiet)
    requires Punctual(cfg, start, script + quiet) && OnTime(cfg, start, script + quiet, te)
    ensures te.at <= LastRead(start, script) + Min(cfg.connectionTimeout, 4 * cfg.heartbeatInterval)
  {
    QuietIsTicks(start, script, quiet);
    DeadPeerBound(cfg, start, script + quiet, te);
  }

  /**
   A dead peer is left. However the loop's events go on from where it is running, if there is no frame
   among the next `4 - SilentTicks(script)` of them one of these ends the loop, and none up to that comes
   later than the last read + min(connection_timeout, 4 * heartbeat_interval).
   */
  lemma DeadPeerIsLeft(cfg: Config, start: nat, script: Script, tail: Script) returns (end: nat, exit: Exit)
    requires Live(script) && Punctual(cfg, start, script + tail)
    requires NoFrame(tail) && |tail| == 4 - SilentTicks(script)
    ensures |script| < end <= |script + tail| && Ends((script + tail)[..end], exit)
    ensures forall k :: |script| <= k < end ==>
              (script + tail)[k].at <= LastRead(start, script) + Min(cfg.connectionTimeout, 4 * cfg.heartbeatInterval)
  {
    var all := script + tail;
    assert all[..|script|] == script;
    if Live(all) {
      QuietIsTicks(start, script, tail);
      CounterMeaning(all);
      assert false;
    }
    end, exit := FirstEnd(all, |script|);
    forall k | |script| <= k < end
      ensures all[k].at <= LastRead(start, script) + Min(cfg.connectionTimeout, 4 * cfg.heartbeatInterval)
    {
      assert Live(all[..k]);
      PunctualAt(cfg, start, all, k);
      var quiet := tail[..k - |script|];
      assert all[..k] == script + quiet;
      EventWithinBound(cfg, start, script, quiet, all[k]);
    }
  }

  /** A frame right before a tick, then that tick and three more. */
  function FrameThenSilence(cfg: Config, start: nat): Script {
    var h := cfg.heartbeatInterval;
    [Timed(start + h, Frame(RawText([])))] + [Timed(start + h, Tick(true))] + [Timed(start + 2 * h, Tick(true))]
    + [Timed(start + 3 * h, Tick(true))]
  }

  lemma EarliestHeartbeatExit(cfg: Config, start: nat)
    requires 3 * cfg.heartbeatInterval <= cfg.connectionTimeout
    ensures var script := FrameThenSilence(cfg, start) + [Timed(start + 4 * cfg.heartbeatInterval, Tick(true))];
            Punctual(cfg, start, script) && Ends(script, MissedHeartbeats)
  {
    var h := cfg.heartbeatInterval;
    var frame, one := Timed(start + h, Frame(RawText([]))), Timed(start + h, Tick(true));
    var two, three := Timed(start + 2 * h, Tick(true)), Timed(start + 3 * h, Tick(true));
    ScriptNext(cfg, start, [], frame);
    assert [] + [frame] == [frame];
    ScriptNext(cfg, start, [frame], one);
    ScriptNext(cfg, start, [frame] + [one], two);
    ScriptNext(cfg, start, [frame] + [one] + [two], three);
    ScriptNext(cfg, start, [frame] + [one] + [two] + [three], Timed(start + 4 * h, Tick(true)));
  }

  /** The heartbeat can end a loop at all exactly if the idle deadline leaves it three intervals. */
  lemma HeartbeatExitIff(cfg: Config, start: nat)
    ensures (exists script :: Punctual(cfg, start, script) && Ends(script, MissedHeartbeats)) <==>
              3 * cfg.heartbeatInterval <= cfg.connectionTimeout
  {
    if script :| Punctual(cfg, start, script) && Ends(script, MissedHeartbeats) {
      DeadPeerBound(cfg, start, Front(script), Last(script));
    }
    if 3 * cfg.heartbeatInterval <= cfg.connectionTimeout {
      EarliestHeartbeatExit(cfg, start);
    }
  }

  function EraseTicks(script: Script): Script {
    if script == [] then []
    else EraseTicks(Front(script)) + if Last(script).event.Tick? then [] else [Last(script)]
  }

  /** The loop without its heartbeat branch keeps only the idle deadline. */
  predicate OnTimeWithoutHeartbeat(cfg: Config, start: nat, before: Script, te: Timed) {
    && !te.event.Tick?
    && Now(start, before) <= te.at <= IdleDeadline(cfg, start, before)
    && (te.event.IdleElapsed? ==> te.at == IdleDeadline(cfg, start, before))
  }

  predicate PunctualWithoutHeartbeat(cfg: Config, start: nat, script: Script) {
    script == []
    || (&& PunctualWithoutHeartbeat(cfg, start, Front(script))
        && OnTimeWithoutHeartbeat(cfg, start, Front(script), Last(script)))
  }

  /**
   Heartbeats do not disturb the idle deadline: erasing the ticks of any run gives a run of the loop
   without heartbeats, with the same deadline, the same callbacks and the same end, unless a tick was the end.
   */
  lemma HeartbeatsLeaveTheDeadlineAlone(cfg: Config, start: nat, p: Principal, script: Script)
    requires Punctual(cfg, start, script)
    ensures PunctualWithoutHeartbeat(cfg, start, EraseTicks(script))
    ensures IdleDeadline(cfg, start, EraseTicks(script)) == IdleDeadline(cfg, start, script)
    ensures LoopCallbacks(p, EraseTicks(script)) == LoopCallbacks(p, script)
    ensures Live(script) ==> Live(EraseTicks(script))
    ensures forall exit :: Ends(script, exit) && exit != MissedHeartbeats && exit != PingRefused ==>
                             Ends(EraseTicks(script), exit)
  {
    ErasingKeepsTheDeadline(cfg, start, script);
    ErasingKeepsTheRest(p, script);
  }

  lemma EraseLast(script: Script)
    requires script != []
    ensures Last(script).event.Tick? ==> EraseTicks(script) == EraseTicks(Front(script))
    ensures !Last(script).event.Tick? ==>
              var erased := EraseTicks(script);
              erased != [] && Front(erased) == EraseTicks(Front(script)) && Last(erased) == Last(script)
  {
    if !Last(script).event.Tick? {
      assert EraseTicks(script) == EraseTicks(Front(script)) + [Last(script)];
    }
  }

  lemma {:induction false} ErasingKeepsTheDeadline(cfg: Config, start: nat, script: Script)
    requires Punctual(cfg, start, script)
    ensures PunctualWithoutHeartbeat(cfg, start, EraseTicks(script))
    ensures LastRead(start, EraseTicks(script)) == LastRead(start, script)
    ensures Now(start, EraseTicks(script)) <= Now(start, script)
  {
    if script != [] {
      ErasingKeepsTheDeadline(cfg, start, Front(script));
      EraseLast(script);
    }
  }

  lemma {:induction false} ErasingKeepsTheRest(p: Principal, script: Script)
    ensures LoopCallbacks(p, EraseTicks(script)) == LoopCallbacks(p, script)
    ensures Live(script) ==> Live(EraseTicks(script))
    ensures forall exit :: Ends(script, exit) && exit != MissedHeartbeats && exit != PingRefused ==>
                             Ends(EraseTicks(script), exit)
  {
    if script != [] {
      ErasingKeepsTheRest(p, Front(script));
      EraseLast(script);
      assert Last(script).event.Tick? ==> LoopCallbacks(p, script) == LoopCallbacks(p, Front(script));
    }
  }

  // ---------------------------------------------------------------------- callbacks

  /** The identity the authorizer established; opaque to this crate. */
  datatype Principal = Principal(subject: Option<string>)

  datatype Callback =
    | OnConnect(principal: Principal)
    | OnMessage(principal: Principal, message: Message)
    | OnPing(payload: seq<byte>)
    | OnPong(payload: seq<byte>)
    | OnError
    | OnDisconnect(principal: Principal)

  function CallbackOf(p: Principal, e: Event): seq<Callback> {
    match e
    case Frame(raw) =>
      var m := FromRaw(raw);
      if raw.RawClose? then []
      else if m.IsPing() then [OnPing(m.payload)]
      else if m.IsPong() then [OnPong(m.payload)]
      else [OnMessage(p, m)]
    case ReadError => [OnError]
    case _ => []
  }

  function LoopCallbacks(p: Principal, script: Script): seq<Callback> {
    if script == [] then [] else LoopCallbacks(p, Front(script)) + CallbackOf(p, Last(script).event)
  }

  /** What the handler may see between `on_connect` and the end of the loop. */
  predicate IsTraffic(p: Principal, c: Callback) {
    || c.OnPing?
    || c.OnPong?
    || (c.OnMessage? && c.principal == p && (c.message.messageType == Text || c.message.messageType == Binary))
  }

  predicate AllTraffic(p: Principal, trace: seq<Callback>) {
    forall c :: c in trace ==> IsTraffic(p, c)
  }

  /** on_connect, then messages, pings, pongs, then at most one error, then on_disconnect; one principal throughout. */
  predicate Protocol(p: Principal, trace: seq<Callback>) {
    var n := |trace|;
    && n >= 2
    && trace[0] == OnConnect(p)
    && trace[n - 1] == OnDisconnect(p)
    && (AllTraffic(p, trace[1..n - 1]) || (n >= 3 && trace[n - 2] == OnError && AllTraffic(p, trace[1..n - 2])))
  }

  lemma {:induction false} LiveLoopSeesTraffic(p: Principal, script: Script)
    requires Live(script)
    ensures AllTraffic(p, LoopCallbacks(p, script))
  {
    if script != [] {
      LiveLoopSeesTraffic(p, Front(script));
    }
  }

  /** Wherever a run stands, on_disconnect would complete its callbacks to the protocol; only it follows an error. */
  lemma CallbacksFollowTheProtocol(p: Principal, script: Script)
    requires script == [] || Live(Front(script))
    ensures Protocol(p, [OnConnect(p)] + LoopCallbacks(p, script) + [OnDisconnect(p)])
    ensures Live(script) ==> OnError !in LoopCallbacks(p, script)
  {
    var trace := [OnConnect(p)] + LoopCallbacks(p, script) + [OnDisconnect(p)];
    var n := |trace|;
    assert trace[1..n - 1] == LoopCallbacks(p, script);
    if Live(script) {
      LiveLoopSeesTraffic(p, script);
    } else {
      LiveLoopSeesTraffic(p, Front(script));
      if Last(script).event.ReadError? {
        assert trace[1..n - 2] == LoopCallbacks(p, Front(script));
      }
    }
  }

  /** The message a callback is about. */
  function Carried(c: Callback): Option<Message> {
    match c
    case OnMessage(_, m) => Some(m)
    case OnPing(payload) => Some(Message(Ping, payload))
    case OnPong(payload) => Some(Message(Pong, payload))
    case _ => None
  }

  function CarriedByAll(trace: seq<Callback>): seq<Message> {
    if trace == [] then []
    else
      var n := |trace| - 1;
      CarriedByAll(trace[..n]) + if Carried(trace[n]).Some? then [Carried(trace[n]).value] else []
  }

  function FramesRead(script: Script): seq<RawMessage> {
    if script == [] then []
    else FramesRead(Front(script)) + if Last(script).event.Frame? then [Last(script).event.raw] else []
  }

  lemma CarriedNext(trace: seq<Callback>, c: Callback)
    ensures CarriedByAll(trace + [c]) ==
            CarriedByAll(trace) + if Carried(c).Some? then [Carried(c).value] else []
  {
    assert (trace + [c])[..|trace|] == trace;
  }

  lemma FrameCallback(p: Principal, raw: RawMessage)
    requires !raw.RawClose?
    ensures |CallbackOf(p, Frame(raw))| == 1 && Carried(CallbackOf(p, Frame(raw))[0]) == Some(FromRaw(raw))
  {
  }

  /** While the loop runs, what the handler has been given is what was read: every frame, once, in order, converted. */
  lemma {:induction false} EveryFrameIsHandedOn(p: Principal, script: Script)
    requires Live(script)
    ensures CarriedByAll(LoopCallbacks(p, script)) == Decoded(FramesRead(script))
  {
    if script != [] {
      EveryFrameIsHandedOn(p, Front(script));
      var before, e := LoopCallbacks(p, Front(script)), Last(script).event;
      if e.Frame? {
        FrameCallback(p, e.raw);
        DecodedAppend(FramesRead(Front(script)), [e.raw]);
        CarriedNext(before, CallbackOf(p, e)[0]);
        assert LoopCallbacks(p, script) == before + [CallbackOf(p, e)[0]];
        assert Decoded([e.raw]) == [FromRaw(e.raw)];
      } else {
        assert LoopCallbacks(p, script) == before;
        assert FramesRead(script) == FramesRead(Front(script));
      }
    }
  }

  /** The handler is told of an error exactly if a read failed, and that ends the loop. */
  lemma ErrorIffReadFailed(p: Principal, script: Script)
    requires script != [] && Live(Front(script))
    ensures OnError in LoopCallbacks(p, script) <==> Last(script).event.ReadError?
    ensures OnError in LoopCallbacks(p, script) <==> Ends(script, ReadFailed)
    ensures OnError in LoopCallbacks(p, script) ==> LoopCallbacks(p, script)[|LoopCallbacks(p, script)| - 1] == OnError
  {
    LiveLoopSeesTraffic(p, Front(script));
  }

  /** How the loop ends says by which event: no exit is taken for another. */
  lemma ExitsNameTheirEvents(script: Script, exit: Exit)
    requires script != [] && Live(Front(script))
    ensures var e := Last(script).event;
            Ends(script, exit) <==>
              match exit
              case MissedHeartbeats => e.Tick? && SilentTicks(script) == 4
              case PingRefused => e == Tick(false) && SilentTicks(script) <= 3
              case WasEvicted => e.EvictionNoticed?
              case WasIdle => e.IdleElapsed?
              case PeerClosed => e.Frame? && e.raw.RawClose?
              case ReadFailed => e.ReadError?
              case StreamEnded => e.EndOfStream?
  {
    CounterMeaning(Front(script));
  }
}
