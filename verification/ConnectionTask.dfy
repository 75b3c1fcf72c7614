/**
 `handle_connection` of src/server.rs: handshake, registration, the read loop, teardown. Callbacks and
 other tasks use the room manager and the connection all the while; what they do, and when, is a
 parameter. `Sessions` says what comes of it.
 */
module ConnectionTask {
  import opened Messages
  import opened Connections
  import opened RoomIndex
  import opened Rooms
  import opened ServerLoop
  import opened Sessions

  // ------------------------------------------------------------------- the handshake

  datatype Upgrade = TimedOut | HttpRefused | Broken | Upgraded

  datatype ServerError = UpgradeFailed | NoAuthorization

  /**
   The upgrade fills the slot only if the origin policy and then the authorizer let the request through.
   There is a connection exactly for a completed upgrade with a filled slot, and its principal is the
   authorizer's; a peer that was refused or too slow is no error; everything else is one.
   */
  function Handshake(policyAllows: bool, authorized: Option<Principal>, upgrade: Upgrade)
    : (r: Result<Option<Principal>, ServerError>)
    ensures forall p :: r == Ok(Some(p)) <==> upgrade == Upgraded && policyAllows && authorized == Some(p)
    ensures r == Ok(None) <==> upgrade == TimedOut || upgrade == HttpRefused
    ensures r == Err(UpgradeFailed) <==> upgrade == Broken
    ensures r == Err(NoAuthorization) <==> upgrade == Upgraded && (policyAllows ==> authorized == None)
  {
    var slot := if policyAllows then authorized else None;
    match upgrade
    case TimedOut => Ok(None)
    case HttpRefused => Ok(None)
    case Broken => Err(UpgradeFailed)
    case Upgraded => if slot.None? then Err(NoAuthorization) else Ok(slot)
  }

  // -------------------------------------------------- what the others do in the meantime

  ghost function PlaceOf(manager: RoomManager, c: Connection): Place
    reads manager, manager.rooms.Values, c
  {
    Place(manager.View(), c.Snapshot())
  }

  /** One call of somebody else; a registration brings its own connection. */
  method PerformOne(manager: RoomManager, call: Call, capacity: nat)
    requires manager.Valid()
    modifies manager, manager.rooms.Values
    ensures manager.Valid() && manager.View() == Apply(old(manager.View()), call)
    ensures fresh(manager.rooms.Values - old(manager.rooms.Values))
  {
    match call
    case Register(c) =>
      var connection := new Connection(c, capacity);
      manager.RegisterConnection(connection);
    case Unregister(c) => manager.UnregisterConnection(c);
    case Create(r) => var _ := manager.CreateRoom(r);
    case Delete(r) => var _ := manager.DeleteRoom(r);
    case Join(c, r) => var _ := manager.JoinRoom(c, r);
    case Leave(c, r) => var _ := manager.LeaveRoom(c, r);
  }

  method Perform(manager: RoomManager, calls: seq<Call>, capacity: nat)
    requires manager.Valid()
    modifies manager, manager.rooms.Values
    ensures manager.Valid() && manager.View() == Run(old(manager.View()), calls)
    ensures fresh(manager.rooms.Values - old(manager.rooms.Values))
  {
    ghost var before := manager.View();
    ghost var made: seq<Call> := [];
    var i := 0;
    while i < |calls|
      invariant i <= |calls| && made == calls[..i]
      invariant manager.Valid() && manager.View() == Run(before, made)
      invariant fresh(manager.rooms.Values - old(manager.rooms.Values))
    {
      PerformOne(manager, calls[i], capacity);
      RunNext(before, Relation({}, {}), made, calls[i]);
      made := made + [calls[i]];
      i := i + 1;
    }
    assert made == calls;
  }

  method UseOne(c: Connection, use: Use)
    modifies c
    ensures c.Snapshot() == AfterUse(old(c.Snapshot()), use)
  {
    match use
    case Sends(m) => var _ := c.Send(m);
    case Closes => c.Close();
    case WriterTakes =>
      if c.live && c.queue != [] {
        c.queue := c.queue[1..];
      }
    case WriterGone => c.live := false;
  }

  method UseEach(c: Connection, uses: seq<Use>)
    modifies c
    ensures c.Snapshot() == UseAll(old(c.Snapshot()), uses)
  {
    ghost var before := c.Snapshot();
    ghost var made: seq<Use> := [];
    var i := 0;
    while i < |uses|
      invariant i <= |uses| && made == uses[..i]
      invariant c.Snapshot() == UseAll(before, made)
    {
      UseOne(c, uses[i]);
      UseNext(before, made, uses[i]);
      made := made + [uses[i]];
      i := i + 1;
    }
    assert made == uses;
  }

  method OthersAct(manager: RoomManager, c: Connection, deeds: Deeds)
    requires manager.Valid()
    modifies manager, manager.rooms.Values, c
    ensures manager.Valid() && fresh(manager.rooms.Values - old(manager.rooms.Values))
    ensures manager.View() == Run(old(manager.View()), deeds.calls)
    ensures c.Snapshot() == UseAll(old(c.Snapshot()), deeds.uses)
  {
    Perform(manager, deeds.calls, c.capacity);
    UseEach(c, deeds.uses);
  }

  // ------------------------------------------------------------------- the read loop

  /** The loop's own reaction to an event, up to its callback: whether it ends, the counter, the callback. */
  method React(p: Principal, c: Connection, e: Event, missedHeartbeats: nat)
    returns (ended: Option<Exit>, missed: nat, callbacks: seq<Callback>)
    modifies c
    ensures var resolved := Resolved(e, old(c.Snapshot()));
            && callbacks == CallbackOf(p, resolved)
            && (forall before :: SilentTicks(before) == missedHeartbeats ==> ended == EndsLoop(before, resolved))
    ensures missed == if e.Frame? then 0 else missedHeartbeats + if e.Tick? then 1 else 0
    ensures c.Snapshot() == AtEvent(old(c.Snapshot()), e, missedHeartbeats)
  {
    ended, missed, callbacks := None, missedHeartbeats, [];
    match e
    case Tick(_) =>
      missed := missed + 1;
      if missed > MAX_MISSED_HEARTBEATS {
        ended := Some(MissedHeartbeats);
      } else {
        var sent := c.Send(Message(Ping, []));
        if sent.Err? {
          ended := Some(PingRefused);
        }
      }
    case EvictionNoticed =>
      var _ := c.Evicted();
      ended := Some(WasEvicted);
    case IdleElapsed => ended := Some(WasIdle);
    case Frame(raw) =>
      missed := 0;
      if raw.RawClose? {
        ended := Some(PeerClosed);
      } else {
        var message := FromRaw(raw);
        if message.IsPing() {
          callbacks := [OnPing(message.payload)];
        } else if message.IsPong() {
          callbacks := [OnPong(message.payload)];
        } else {
          callbacks := [OnMessage(p, message)];
        }
      }
    case ReadError =>
      callbacks := [OnError];
      ended := Some(ReadFailed);
    case EndOfStream => ended := Some(StreamEnded);
  }

  /** The loop's variables, with the callbacks made so far; `ended`: how it broke off. */
  datatype Loop = Loop(missedHeartbeats: nat, lastRead: nat, ended: Option<Exit>, trace: seq<Made>)

  /** What the variables hold in the course of session `s`. */
  ghost predicate Follows(loop: Loop, start: nat, s: Session) {
    && (if loop.ended.None? then Live(s.script) && loop.missedHeartbeats == SilentTicks(s.script)
        else Ends(s.script, loop.ended.value))
    && loop.lastRead == LastRead(start, s.script)
    && loop.trace == s.made
  }

  lemma FollowsNext(loop: Loop, start: nat, s: Session, p: Principal, te: Timed, a: Around, missed: nat)
    requires Follows(loop, start, s) && loop.ended.None?
    requires missed == if te.event.Frame? then 0 else loop.missedHeartbeats + if te.event.Tick? then 1 else 0
    ensures var e := Resolved(te.event, s.place.link);
            var at := s.place.(link := AtEvent(s.place.link, e, SilentTicks(s.script)));
            Follows(Loop(missed, if IsRead(te.event) then te.at else loop.lastRead, EndsLoop(s.script, e),
                         loop.trace + Tagged(CallbackOf(p, e), at)),
                    start, Advance(p, s, te, a))
  {
    ScriptNext(Config(0, 0), start, s.script, Timed(te.at, Resolved(te.event, s.place.link)));
  }

  /** An event and its callback. */
  method HandleEvent(manager: RoomManager, c: Connection, p: Principal, e: Event, missedHeartbeats: nat)
    returns (ended: Option<Exit>, missed: nat, made: seq<Made>)
    modifies c
    ensures missed == if e.Frame? then 0 else missedHeartbeats + if e.Tick? then 1 else 0
    ensures c.Snapshot() == AtEvent(old(c.Snapshot()), e, missedHeartbeats)
    ensures var resolved := Resolved(e, old(c.Snapshot()));
            && (forall before :: SilentTicks(before) == missedHeartbeats ==> ended == EndsLoop(before, resolved))
            && made == Tagged(CallbackOf(p, resolved), Place(old(manager.View()), c.Snapshot()))
  {
    var callbacks;
    ended, missed, callbacks := React(p, c, e, missedHeartbeats);
    var ids, state := manager.connections.Keys, c.state;
    made := seq(|callbacks|, i requires 0 <= i < |callbacks| => Made(callbacks[i], ids, state));
  }

  /** What on_ping has returned goes back to the peer, if the queue takes it. */
  method Answer(c: Connection, e: Event, answer: seq<byte>)
    modifies c
    ensures c.Snapshot() == Answered(old(c.Snapshot()), e, answer)
  {
    if e.Frame? && e.raw.RawPing? {
      var _ := c.Send(Message(Pong, answer));
    }
  }

  /** An event with its callback, what others do meanwhile, and the answer to a Ping. */
  method Turn(manager: RoomManager, c: Connection, p: Principal, e: Event, a: Around, missedHeartbeats: nat)
    returns (ended: Option<Exit>, missed: nat, made: seq<Made>)
    requires manager.Valid()
    modifies manager, manager.rooms.Values, c
    ensures missed == if e.Frame? then 0 else missedHeartbeats + if e.Tick? then 1 else 0
    ensures var resolved := Resolved(e, old(c.Snapshot()));
            var at := AtEvent(old(c.Snapshot()), resolved, missedHeartbeats);
            && (forall before :: SilentTicks(before) == missedHeartbeats ==> ended == EndsLoop(before, resolved))
            && made == Tagged(CallbackOf(p, resolved), Place(old(manager.View()), at))
            && c.Snapshot() == Answered(UseAll(at, a.during.uses), resolved, a.answer)
    ensures manager.View() == Run(old(manager.View()), a.during.calls)
    ensures manager.Valid() && fresh(manager.rooms.Values - old(manager.rooms.Values))
  {
    ended, missed, made := HandleEvent(manager, c, p, e, missedHeartbeats);
    OthersAct(manager, c, a.during);
    Answer(c, e, a.answer);
  }

  /** One round of the loop. */
  method Round(
    manager: RoomManager, c: Connection, p: Principal, te: Timed, a: Around, loop: Loop,
    ghost start: nat, ghost s: Session)
    returns (loop': Loop)
    requires manager.Valid() && loop.ended.None?
    requires Follows(loop, start, s) && s.place == PlaceOf(manager, c)
    modifies manager, manager.rooms.Values, c
    ensures manager.Valid() && fresh(manager.rooms.Values - old(manager.rooms.Values))
    ensures Follows(loop', start, Advance(p, s, te, a)) && PlaceOf(manager, c) == Advance(p, s, te, a).place
  {
    var ended, missed, made := Turn(manager, c, p, te.event, a, loop.missedHeartbeats);
    OthersAct(manager, c, a.after);
    loop' := Loop(missed, if IsRead(te.event) then te.at else loop.lastRead, ended, loop.trace + made);
    FollowsNext(loop, start, s, p, te, a, missed);
  }

  /** `'read_loop`. After each event the others have their turn; the script goes on until the loop ends. */
  method ReadLoop(
    manager: RoomManager, c: Connection, p: Principal, start: nat, script: Script, events: seq<Around>)
    returns (trace: seq<Made>, taken: nat, exit: Exit, lastRead: nat)
    requires manager.Valid()
    requires WillEnd(script) && |script| <= |events|
    modifies manager, manager.rooms.Values, c
    ensures manager.Valid() && fresh(manager.rooms.Values - old(manager.rooms.Values))
    ensures taken <= |script|
    ensures var s := Through(p, old(PlaceOf(manager, c)), script, events, taken);
            && Ends(s.script, exit) && trace == s.made && lastRead == LastRead(start, s.script)
            && PlaceOf(manager, c) == s.place
  {
    ghost var before := PlaceOf(manager, c);
    ghost var s := Session([], before, [], []);
    var loop := Loop(0, start, None, []);
    taken := 0;
    while loop.ended.None?
      invariant taken <= |script| && manager.Valid()
      invariant s == Through(p, before, script, events, taken)
      invariant |s.script| == taken && TurnedOut(script, s.script)
      invariant Follows(loop, start, s) && PlaceOf(manager, c) == s.place
      invariant fresh(manager.rooms.Values - old(manager.rooms.Values))
      decreases |script| - taken
    {
      StillRunning(script, s.script);
      TurnedOutNext(p, s, script[taken], events[taken], script);
      ThroughNext(p, before, script, events, taken);
      loop := Round(manager, c, p, script[taken], events[taken], loop, start, s);
      s := Advance(p, s, script[taken], events[taken]);
      taken := taken + 1;
    }
    trace, exit, lastRead := loop.trace, loop.ended.value, loop.lastRead;
  }

  // ------------------------------------------------------------- the whole connection

  /** A new connection, registered. */
  method Admit(manager: RoomManager, id: ConnectionId, capacity: nat) returns (c: Connection)
    requires manager.Valid()
    modifies manager
    ensures manager.Valid() && fresh(c) && c.id == id && manager.rooms == old(manager.rooms)
    ensures manager.View() == AfterRegister(old(manager.View()), id)
    ensures c.Snapshot() == Link(Open, [], capacity, true, false)
  {
    c := new Connection(id, capacity);
    manager.RegisterConnection(c);
  }

  /** Up to on_connect. */
  method Enter(manager: RoomManager, id: ConnectionId, capacity: nat, p: Principal, m: Meanwhile)
    returns (c: Connection, connecting: Made)
    requires manager.Valid()
    modifies manager, manager.rooms.Values
    ensures manager.Valid() && fresh(c) && c.id == id
    ensures PlaceOf(manager, c) == AtConnect(old(manager.View()), id, capacity, m)
    ensures [connecting] == Tagged([OnConnect(p)], PlaceOf(manager, c))
    ensures fresh(manager.rooms.Values - old(manager.rooms.Values))
  {
    c := Admit(manager, id, capacity);
    OthersAct(manager, c, m.early);
    connecting := Made(OnConnect(p), manager.connections.Keys, c.state);
  }

  /** After the loop: close, wait for the writer, Closed, on_disconnect. */
  method Teardown(manager: RoomManager, c: Connection, p: Principal, m: Meanwhile) returns (disconnecting: Made)
    requires manager.Valid()
    modifies manager, manager.rooms.Values, c
    ensures manager.Valid() && fresh(manager.rooms.Values - old(manager.rooms.Values))
    ensures PlaceOf(manager, c) == AtDisconnect(old(PlaceOf(manager, c)), m)
    ensures [disconnecting] == Tagged([OnDisconnect(p)], PlaceOf(manager, c))
  {
    c.Close();
    OthersAct(manager, c, m.closing);
    c.SetState(Closed);
    disconnecting := Made(OnDisconnect(p), manager.connections.Keys, c.state);
  }

  /** From on_disconnect on: the connection is unregistered. */
  method Depart(manager: RoomManager, c: Connection, m: Meanwhile)
    requires manager.Valid()
    modifies manager, manager.rooms.Values, c
    ensures manager.Valid()
    ensures manager.View() == AfterUnregister(Run(old(manager.View()), m.late.calls), c.id)
    ensures c.Snapshot() == UseAll(old(c.Snapshot()), m.late.uses)
  {
    OthersAct(manager, c, m.late);
    manager.UnregisterConnection(c.id);
  }

  /**
   How a connection is served: the loop ended where it should, after events that turned out as they may; the
   callbacks are on_connect, those of the events, on_disconnect, each made with the connection registered,
   the last one in state Closed; on_error was called exactly if a read failed; everybody's calls, and nothing
   else, happened to the manager between registration and unregistration; and the peer is left a Close, or
   a permit, unless others have used the connection since.
   */
  ghost predicate Served(
    before: Index, after: Place, id: ConnectionId, capacity: nat, p: Principal, script: Script, m: Meanwhile,
    trace: seq<Made>, taken: nat, exit: Exit)
    requires |script| <= |m.events|
  {
    && taken <= |script|
    && var ended := AtEnd(p, before, id, capacity, script, m, taken);
       && |ended.script| == taken && TurnedOut(script, ended.script) && Ends(ended.script, exit)
       && trace == WholeTrace(p, before, id, capacity, script, m, taken)
       && Callbacks(trace) == [OnConnect(p)] + LoopCallbacks(p, ended.script) + [OnDisconnect(p)]
       && (forall made :: made in trace ==> id in made.registered)
       && trace[|trace| - 1].state == Closed
       && (OnError in Callbacks(trace) <==> Last(ended.script).event.ReadError?)
       && Spares(Others(m, ended.calls), id)
       && after.index == AfterUnregister(Run(AfterRegister(before, id), Others(m, ended.calls)), id)
       && after == AtReturn(ended.place, id, m)
       && (m.closing.uses == [] && m.late.uses == [] ==> CLOSE in after.link.queue || after.link.permit)
  }

  /** The connection is registered from on_connect to on_disconnect. */
  lemma RegisteredToTheEnd(
    before: Index, id: ConnectionId, capacity: nat, p: Principal, script: Script, m: Meanwhile, taken: nat)
    requires taken <= |script| <= |m.events| && SparedBy(m, id)
    ensures id in AtConnect(before, id, capacity, m).index.connections
    ensures var atLoop := DoAll(AtConnect(before, id, capacity, m), m.connected);
            var ended := AtEnd(p, before, id, capacity, script, m, taken);
            && id in atLoop.index.connections
            && RegisteredSoFar(id, ended)
            && id in AtDisconnect(ended.place, m).index.connections
  {
    var atConnect := AtConnect(before, id, capacity, m);
    StaysRegistered(AfterRegister(before, id), m.early.calls, id);
    StaysRegistered(atConnect.index, m.connected.calls, id);
    ThroughRegistered(p, DoAll(atConnect, m.connected), script, m.events, taken, id);
    StaysRegistered(AtEnd(p, before, id, capacity, script, m, taken).place.index, m.closing.calls, id);
  }

  /** The callbacks of the stages put together. */
  lemma CallbacksServe(
    p: Principal, id: ConnectionId, connected: Place, ended: Session, disconnected: Place, exit: Exit)
    requires Ends(ended.script, exit) && CallbacksFollow(p, ended)
    requires id in connected.index.connections && RegisteredSoFar(id, ended) && id in disconnected.index.connections
    requires disconnected.link.state == Closed
    ensures var trace := Tagged([OnConnect(p)], connected) + ended.made + Tagged([OnDisconnect(p)], disconnected);
            && Callbacks(trace) == [OnConnect(p)] + LoopCallbacks(p, ended.script) + [OnDisconnect(p)]
            && (forall made :: made in trace ==> id in made.registered)
            && trace[|trace| - 1].state == Closed
            && (OnError in Callbacks(trace) <==> Last(ended.script).event.ReadError?)
  {
    CallbacksAround(OnConnect(p), connected, ended.made, OnDisconnect(p), disconnected);
    ErrorIffReadFailed(p, ended.script);
  }

  lemma SparesOthers(m: Meanwhile, during: seq<Call>, id: ConnectionId)
    requires SparedBy(m, id) && Spares(during, id)
    ensures Spares(Others(m, during), id)
  {
  }

  lemma LeavesAClose(ended: Place, m: Meanwhile, id: ConnectionId)
    requires m.closing.uses == [] && m.late.uses == []
    ensures var l := AtReturn(ended, id, m).link; CLOSE in l.queue || l.permit
  {
    TheTeardownSaysGoodbye(ended, m);
    assert CLOSE in ended.link.queue + [CLOSE];
  }

  /** The stages put together. */
  lemma StagesServe(
    before: Index, id: ConnectionId, capacity: nat, p: Principal, script: Script, m: Meanwhile, taken: nat, exit: Exit)
    requires taken <= |script| <= |m.events| && SparedBy(m, id)
    requires Ends(AtEnd(p, before, id, capacity, script, m, taken).script, exit)
    ensures Served(before, AtReturn(AtEnd(p, before, id, capacity, script, m, taken).place, id, m), id, capacity,
                   p, script, m, WholeTrace(p, before, id, capacity, script, m, taken), taken, exit)
  {
    var ended := AtEnd(p, before, id, capacity, script, m, taken);
    var atLoop := DoAll(AtConnect(before, id, capacity, m), m.connected);
    RegisteredToTheEnd(before, id, capacity, p, script, m, taken);
    ThroughTurnedOut(p, atLoop, script, m.events, taken);
    ThroughCallbacks(p, atLoop, script, m.events, taken);
    ThroughOthersOnly(p, atLoop, script, m.events, taken);
    IndexAtReturn(before, id, capacity, m, ended);
    SparesOthers(m, ended.calls, id);
    if m.closing.uses == [] && m.late.uses == [] {
      LeavesAClose(ended.place, m, id);
    }
    CallbacksServe(p, id, AtConnect(before, id, capacity, m), ended, AtDisconnect(ended.place, m), exit);
  }

  lemma CallbacksAround(first: Callback, start: Place, made: seq<Made>, last: Callback, end: Place)
    ensures var all := Tagged([first], start) + made + Tagged([last], end);
            && Callbacks(all) == [first] + Callbacks(made) + [last]
            && (forall x :: x in all <==> x in Tagged([first], start) || x in made || x in Tagged([last], end))
            && all[|all| - 1] == Made(last, end.index.connections, end.link.state)
            && (forall x :: x in Callbacks(all) <==> x == first || x in Callbacks(made) || x == last)
  {
    assert Callbacks(Tagged([first], start) + made + Tagged([last], end)) == [first] + Callbacks(made) + [last];
  }

  /** From `register_connection` to the end of `handle_connection`. */
  method RunConnection(
    manager: RoomManager, id: ConnectionId, capacity: nat, start: nat, script: Script, p: Principal, m: Meanwhile)
    returns (trace: seq<Made>, taken: nat, exit: Exit, c: Connection)
    requires manager.Valid()
    requires WillEnd(script) && |script| <= |m.events| && SparedBy(m, id)
    modifies manager, manager.rooms.Values
    ensures manager.Valid() && fresh(c)
    ensures Served(old(manager.View()), PlaceOf(manager, c), id, capacity, p, script, m, trace, taken, exit)
  {
    ghost var before := manager.View();
    var connecting, lastRead;
    c, connecting := Enter(manager, id, capacity, p, m);
    OthersAct(manager, c, m.connected);
    trace, taken, exit, lastRead := ReadLoop(manager, c, p, start, script, m.events);
    var disconnecting := Teardown(manager, c, p, m);
    Depart(manager, c, m);
    trace := [connecting] + trace + [disconnecting];
    StagesServe(before, id, capacity, p, script, m, taken, exit);
  }

  /** `handle_connection`. Without a handshake there is no callback and no registration. */
  method HandleConnection(
    manager: RoomManager, id: ConnectionId, capacity: nat, start: nat, script: Script, m: Meanwhile,
    policyAllows: bool, authorized: Option<Principal>, upgrade: Upgrade)
    returns (
      r: Result<(), ServerError>, trace: seq<Made>, taken: nat, exit: Option<Exit>, connection: Option<Connection>)
    requires manager.Valid()
    requires WillEnd(script) && |script| <= |m.events| && SparedBy(m, id)
    modifies manager, manager.rooms.Values
    ensures manager.Valid()
    ensures var handshake := Handshake(policyAllows, authorized, upgrade);
            && (r.Err? <==> handshake.Err?)
            && (r.Err? ==> r.error == handshake.error)
            && if handshake.Ok? && handshake.value.Some? then
                 && exit.Some? && connection.Some? && fresh(connection.value)
                 && Served(old(manager.View()), PlaceOf(manager, connection.value), id, capacity,
                           handshake.value.value, script, m, trace, taken, exit.value)
                 && Protocol(handshake.value.value, Callbacks(trace))
               else trace == [] && exit == None && connection == None && manager.View() == old(manager.View())
  {
    r, trace, taken, exit, connection := Ok(()), [], 0, None, None;
    var handshake := Handshake(policyAllows, authorized, upgrade);
    if handshake.Err? {
      return Err(handshake.error), [], 0, None, None;
    }
    if handshake.value.Some? {
      var p := handshake.value.value;
      var how, c;
      ghost var before := manager.View();
      trace, taken, how, c := RunConnection(manager, id, capacity, start, script, p, m);
      exit, connection := Some(how), Some(c);
      CallbacksFollowTheProtocol(p, AtEnd(p, before, id, capacity, script, m, taken).script);
    }
  }

  // -------------------------------------------------------------- what is left of it

  predicate WithoutRow(pairs: set<(ConnectionId, RoomId)>, others: set<(ConnectionId, RoomId)>, id: ConnectionId) {
    && (forall p :: p in others ==> p in pairs && p.0 != id)
    && (forall p :: p in pairs && p.0 != id ==> p in others)
  }

  /** The calls made with `id` registered, and the same calls where it never was. */
  lemma {:induction false} OthersAreUnaffected(rel: Relation, id: ConnectionId, calls: seq<Call>)
    requires id !in rel.connections && (forall p :: p in rel.pairs ==> p.0 != id)
    requires Spares(calls, id)
    ensures var with := RunRelation(rel.(connections := rel.connections + {id}), calls);
            var without := RunRelation(rel, calls);
            && with.connections == without.connections + {id} && id !in without.connections
            && WithoutRow(with.pairs, without.pairs, id)
  {
    if calls != [] {
      var n := |calls| - 1;
      assert calls[n] in calls && forall call :: call in calls[..n] ==> call in calls;
      OthersAreUnaffected(rel, id, calls[..n]);
      OneCallIsUnaffected(RunRelation(rel.(connections := rel.connections + {id}), calls[..n]),
                          RunRelation(rel, calls[..n]), id, calls[n]);
    }
  }

  lemma OneCallIsUnaffected(with: Relation, without: Relation, id: ConnectionId, call: Call)
    requires with.connections == without.connections + {id} && id !in without.connections
    requires WithoutRow(with.pairs, without.pairs, id)
    requires call != Register(id) && call != Unregister(id)
    ensures var with', without' := ApplyRelation(with, call), ApplyRelation(without, call);
            && with'.connections == without'.connections + {id} && id !in without'.connections
            && WithoutRow(with'.pairs, without'.pairs, id)
  {
  }

  /**
   Nothing remains of a served connection, and nobody else notices: an exact manager is left exact, `id` is
   not registered and in no room, and who else is registered and in which rooms is what the others' calls
   alone would have made of it.
   */
  lemma NothingRemains(before: Index, id: ConnectionId, calls: seq<Call>)
    requires Exact(before) && id !in before.connections && Spares(calls, id)
    requires FreshIds(Abstraction(AfterRegister(before, id)), calls)
    ensures var after := AfterUnregister(Run(AfterRegister(before, id), calls), id);
            && Exact(after)
            && id !in after.connections && (forall r :: !IsMember(after, id, r))
            && Abstraction(after) == RunRelation(Abstraction(before), calls)
  {
    var rel := Abstraction(before);
    var registered := AfterRegister(before, id);
    CallRefines(before, Register(id));
    assert registered == Apply(before, Register(id));
    assert Abstraction(registered) == rel.(connections := rel.connections + {id});
    ManagerRefinesRelation(registered, calls);
    var served := Run(registered, calls);
    CallRefines(served, Unregister(id));
    var after := AfterUnregister(served, id);
    assert after == Apply(served, Unregister(id));
    forall p | p in rel.pairs
      ensures p.0 != id
    {
      assert IsMember(before, p.0, p.1) && IsIndexed(before, p.0, p.1);
    }
    OthersAreUnaffected(rel, id, calls);
    assert Abstraction(after).pairs == RunRelation(rel, calls).pairs;
    forall r
      ensures !IsMember(after, id, r)
    {
      assert IsMember(after, id, r) ==> (id, r) in Abstraction(after).pairs;
    }
  }
}
