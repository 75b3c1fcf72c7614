/**
 Why the room manager and its connections cannot deadlock. Every operation is written out as the locks
 it takes and gives back: the shard locks of the three maps and of a room's member map, and a
 connection's state lock. Which shard a key falls in, which members are visited and who is evicted
 are parameters.
 */
module LockOrder {
  import opened Messages
  import opened Runs

  /** Ranked by level, then by shard. A room's members and a connection's state are told apart by `shard`. */
  datatype Lock = Lock(level: nat, shard: nat)

  const ROOMS: nat := 0
  const MEMBERS: nat := 1
  const CONNECTIONS: nat := 2
  const STATE: nat := 3
  const CONNECTION_ROOMS: nat := 4

  predicate Before(a: Lock, b: Lock) {
    a.level < b.level || (a.level == b.level && a.shard < b.shard)
  }

  datatype Mode = Shared | Exclusive

  datatype Action = Acquire(lock: Lock, mode: Mode) | Release(lock: Lock)

  type Program = seq<Action>

  // ------------------------------------ the operations of src/room.rs and src/connection.rs

  function Within(lock: Lock, mode: Mode, body: Program): Program {
    [Acquire(lock, mode)] + body + [Release(lock)]
  }

  function Briefly(level: nat, shard: nat, mode: Mode): Program {
    Within(Lock(level, shard), mode, [])
  }

  /** A member visited by a broadcast: the shard looked in, its state lock if found, whether its queue was full. */
  datatype Visit = Visit(connection: nat, state: Option<nat>, evicts: bool)

  /** A shard an iteration goes through, with the members it finds there. */
  datatype Stop = Stop(shard: nat, visits: seq<Visit>)

  /** `Connection::send`: the state is read, and written again only to evict. */
  function SendLocks(state: nat, evicts: bool): Program {
    Briefly(STATE, state, Shared) + if evicts then Briefly(STATE, state, Exclusive) else []
  }

  /** A member that is not registered is looked up and nothing more. */
  function SendIfFound(visit: Visit): Program {
    if visit.state.Some? then SendLocks(visit.state.value, visit.evicts) else []
  }

  /** Members are looked up one by one; an iteration over the connections has them at hand. */
  function VisitOne(level: nat, visit: Visit): Program {
    if level == MEMBERS then Within(Lock(CONNECTIONS, visit.connection), Shared, SendIfFound(visit))
    else SendIfFound(visit)
  }

  function VisitLocks(level: nat, visits: seq<Visit>): Program {
    if visits == [] then [] else VisitOne(level, visits[0]) + VisitLocks(level, visits[1..])
  }

  function LetGo(level: nat, held: Option<nat>): Program {
    if held.Some? then [Release(Lock(level, held.value))] else []
  }

  /** A map iteration, hand over hand: the next shard is locked before the last one is let go. */
  function Iterate(level: nat, held: Option<nat>, stops: seq<Stop>): Program
    decreases |stops|
  {
    if stops == [] then LetGo(level, held)
    else
      [Acquire(Lock(level, stops[0].shard), Shared)] + (LetGo(level, held)
      + (VisitLocks(level, stops[0].visits) + Iterate(level, Some(stops[0].shard), stops[1..])))
  }

  /** An iteration that only looks at the keys. */
  function Bare(shards: seq<nat>): seq<Stop> {
    seq(|shards|, i requires 0 <= i < |shards| => Stop(shards[i], []))
  }

  /** Shards locked one at a time, as by `is_empty` and `len`, and as the listings `delete_room` goes through. */
  function OneByOne(level: nat, shards: seq<nat>, mode: Mode): Program {
    if shards == [] then [] else Briefly(level, shards[0], mode) + OneByOne(level, shards[1..], mode)
  }

  /** Leaving a room and removing it if empty; `scan` is what `is_empty` looks through, if the room exists. */
  datatype RoomTouch = RoomTouch(room: nat, member: Option<nat>, scan: seq<nat>)

  function LeaveLocks(touch: RoomTouch): Program {
    Within(Lock(ROOMS, touch.room), Shared,
           if touch.member.Some? then Briefly(MEMBERS, touch.member.value, Exclusive) else [])
  }

  function RemoveIfLocks(touch: RoomTouch): Program {
    Within(Lock(ROOMS, touch.room), Exclusive, OneByOne(MEMBERS, touch.scan, Shared))
  }

  function UnregisterLocks(touches: seq<RoomTouch>): Program {
    if touches == [] then [] else LeaveLocks(touches[0]) + RemoveIfLocks(touches[0]) + UnregisterLocks(touches[1..])
  }

  datatype Operation =
    | Register(connection: nat, index: nat)
    | Unregister(index: nat, touches: seq<RoomTouch>, connection: nat)
    | Create(room: nat)
    | Delete(room: nat, scan: seq<Stop>, unlisted: seq<nat>)
    | Join(connection: nat, registered: bool, room: nat, member: nat, index: nat)
    | Leave(touch: RoomTouch, index: nat)
    | BroadcastToRoom(room: nat, members: seq<Stop>)
    | BroadcastAll(connections: seq<Stop>)
    | Get(level: nat, shard: nat)
    | Ids(level: nat, shards: seq<nat>)
    | Count(level: nat, shards: seq<nat>)
    | Send(state: nat, evicts: bool)
    | Close(state: nat)
    | SetState(state: nat)

  function Locks(op: Operation): Program {
    match op
    case Register(connection, index) =>
      Briefly(CONNECTIONS, connection, Exclusive) + Briefly(CONNECTION_ROOMS, index, Exclusive)
    case Unregister(index, touches, connection) =>
      Briefly(CONNECTION_ROOMS, index, Exclusive) + UnregisterLocks(touches)
      + Briefly(CONNECTIONS, connection, Exclusive)
    case Create(room) => Briefly(ROOMS, room, Exclusive)
    case Delete(room, scan, unlisted) =>
      Briefly(ROOMS, room, Exclusive) + Iterate(MEMBERS, None, scan) + OneByOne(CONNECTION_ROOMS, unlisted, Exclusive)
    case Join(connection, registered, room, member, index) =>
      Briefly(CONNECTIONS, connection, Shared)
      + if registered then
          Briefly(ROOMS, room, Exclusive) + Briefly(MEMBERS, member, Exclusive)
          + Briefly(CONNECTION_ROOMS, index, Exclusive)
        else []
    case Leave(touch, index) => LeaveLocks(touch) + Briefly(CONNECTION_ROOMS, index, Exclusive) + RemoveIfLocks(touch)
    case BroadcastToRoom(room, members) => Within(Lock(ROOMS, room), Shared, Iterate(MEMBERS, None, members))
    case BroadcastAll(connections) => Iterate(CONNECTIONS, None, connections)
    case Get(level, shard) => Briefly(level, shard, Shared)
    case Ids(level, shards) => Iterate(level, None, Bare(shards))
    case Count(level, shards) => OneByOne(level, shards, Shared)
    case Send(state, evicts) => SendLocks(state, evicts)
    case Close(state) => Briefly(STATE, state, Exclusive)
    case SetState(state) => Briefly(STATE, state, Exclusive)
  }

  /** Iterations go through the shards in order. */
  predicate InShardOrder(stops: seq<Stop>) {
    forall i, j :: 0 <= i < j < |stops| ==> stops[i].shard < stops[j].shard
  }

  predicate IteratesInOrder(op: Operation) {
    match op
    case Delete(_, scan, _) => InShardOrder(scan)
    case BroadcastToRoom(_, members) => InShardOrder(members)
    case BroadcastAll(connections) => InShardOrder(connections)
    case Ids(level, shards) => level < STATE && InShardOrder(Bare(shards))
    case _ => true
  }

  // ------------------------------------------------------- every operation is ordered

  /** The locks held after `p`, if each lock it takes ranks above all those held and each it gives back is held. */
  function HeldAfter(p: Program, held: set<Lock>): Option<set<Lock>> {
    if p == [] then Some(held)
    else match p[0]
      case Acquire(l, _) => if forall h :: h in held ==> Before(h, l) then HeldAfter(p[1..], held + {l}) else None
      case Release(l) => if l in held then HeldAfter(p[1..], held - {l}) else None
  }

  /** `p` takes locks in order and ends holding what it began with. */
  predicate Neutral(p: Program, held: set<Lock>) {
    HeldAfter(p, held) == Some(held)
  }

  lemma {:induction false} HeldAfterAppend(p: Program, q: Program, held: set<Lock>)
    ensures HeldAfter(p + q, held) == if HeldAfter(p, held).Some? then HeldAfter(q, HeldAfter(p, held).value) else None
  {
    if p == [] {
      assert p + q == q;
    } else {
      assert (p + q)[1..] == p[1..] + q;
      match p[0]
      case Acquire(l, _) => HeldAfterAppend(p[1..], q, held + {l});
      case Release(l) => HeldAfterAppend(p[1..], q, held - {l});
    }
  }

  predicate AllBelow(held: set<Lock>, level: nat) {
    forall h :: h in held ==> h.level < level
  }

  lemma WithinNeutral(lock: Lock, mode: Mode, body: Program, held: set<Lock>)
    requires forall h :: h in held ==> Before(h, lock)
    requires Neutral(body, held + {lock})
    ensures Neutral(Within(lock, mode, body), held)
  {
    var p := Within(lock, mode, body);
    assert p[1..] == body + [Release(lock)];
    HeldAfterAppend(body, [Release(lock)], held + {lock});
    assert [Release(lock)][1..] == [];
    assert held + {lock} - {lock} == held;
  }

  lemma BrieflyNeutral(level: nat, shard: nat, mode: Mode, held: set<Lock>)
    requires AllBelow(held, level)
    ensures Neutral(Briefly(level, shard, mode), held)
  {
    WithinNeutral(Lock(level, shard), mode, [], held);
  }

  lemma ThenNeutral(p: Program, q: Program, held: set<Lock>)
    requires Neutral(p, held) && Neutral(q, held)
    ensures Neutral(p + q, held)
  {
    HeldAfterAppend(p, q, held);
  }

  lemma SendNeutral(state: nat, evicts: bool, held: set<Lock>)
    requires AllBelow(held, STATE)
    ensures Neutral(SendLocks(state, evicts), held)
  {
    BrieflyNeutral(STATE, state, Shared, held);
    BrieflyNeutral(STATE, state, Exclusive, held);
    ThenNeutral(Briefly(STATE, state, Shared), if evicts then Briefly(STATE, state, Exclusive) else [], held);
  }

  lemma VisitNeutral(level: nat, visit: Visit, held: set<Lock>)
    requires level < STATE
    requires AllBelow(held, level + 1)
    ensures Neutral(VisitOne(level, visit), held)
  {
    var within := if level == MEMBERS then held + {Lock(CONNECTIONS, visit.connection)} else held;
    if visit.state.Some? {
      SendNeutral(visit.state.value, visit.evicts, within);
    }
    if level == MEMBERS {
      WithinNeutral(Lock(CONNECTIONS, visit.connection), Shared, SendIfFound(visit), held);
    }
  }

  lemma {:induction false} VisitsNeutral(level: nat, visits: seq<Visit>, held: set<Lock>)
    requires level < STATE
    requires AllBelow(held, level + 1)
    ensures Neutral(VisitLocks(level, visits), held)
  {
    if visits != [] {
      VisitNeutral(level, visits[0], held);
      VisitsNeutral(level, visits[1..], held);
      ThenNeutral(VisitOne(level, visits[0]), VisitLocks(level, visits[1..]), held);
    }
  }

  function LastHeld(level: nat, last: Option<nat>): set<Lock> {
    if last.Some? then {Lock(level, last.value)} else {}
  }

  lemma LetGoGivesBack(level: nat, last: Option<nat>, held: set<Lock>)
    requires forall h :: h in held ==> last.Some? ==> h != Lock(level, last.value)
    ensures HeldAfter(LetGo(level, last), held + LastHeld(level, last)) == Some(held)
  {
    if last.Some? {
      assert LetGo(level, last)[1..] == [];
      assert held + LastHeld(level, last) - {Lock(level, last.value)} == held;
    } else {
      assert held + {} == held;
    }
  }

  /** An iteration gives back every shard, the one it starts with included. */
  lemma {:induction false} IterateEnds(level: nat, last: Option<nat>, stops: seq<Stop>, held: set<Lock>)
    requires level < STATE
    requires AllBelow(held, level) && InShardOrder(stops)
    requires last.Some? && stops != [] ==> last.value < stops[0].shard
    ensures HeldAfter(Iterate(level, last, stops), held + LastHeld(level, last)) == Some(held)
    decreases |stops|
  {
    if stops == [] {
      LetGoGivesBack(level, last, held);
    } else {
      var l := Lock(level, stops[0].shard);
      var rest := Iterate(level, Some(stops[0].shard), stops[1..]);
      var visits := VisitLocks(level, stops[0].visits);
      assert HeldAfter(LetGo(level, last) + (visits + rest), held + LastHeld(level, last) + {l}) == Some(held) by {
        LetGoGivesBack(level, last, held + {l});
        assert held + LastHeld(level, last) + {l} == held + {l} + LastHeld(level, last);
        HeldAfterAppend(LetGo(level, last), visits + rest, held + {l} + LastHeld(level, last));
        VisitsNeutral(level, stops[0].visits, held + {l});
        HeldAfterAppend(visits, rest, held + {l});
        IterateEnds(level, Some(stops[0].shard), stops[1..], held);
      }
      var p := Iterate(level, last, stops);
      assert p[0] == Acquire(l, Shared) && p[1..] == LetGo(level, last) + (visits + rest);
    }
  }

  lemma IterateNeutral(level: nat, stops: seq<Stop>, held: set<Lock>)
    requires level < STATE
    requires AllBelow(held, level) && InShardOrder(stops)
    ensures Neutral(Iterate(level, None, stops), held)
  {
    IterateEnds(level, None, stops, held);
    assert held + {} == held;
  }

  lemma {:induction false} OneByOneNeutral(level: nat, shards: seq<nat>, mode: Mode, held: set<Lock>)
    requires AllBelow(held, level)
    ensures Neutral(OneByOne(level, shards, mode), held)
  {
    if shards != [] {
      BrieflyNeutral(level, shards[0], mode, held);
      OneByOneNeutral(level, shards[1..], mode, held);
      ThenNeutral(Briefly(level, shards[0], mode), OneByOne(level, shards[1..], mode), held);
    }
  }

  lemma TouchNeutral(touch: RoomTouch)
    ensures Neutral(LeaveLocks(touch), {}) && Neutral(RemoveIfLocks(touch), {})
  {
    var room := Lock(ROOMS, touch.room);
    if touch.member.Some? {
      BrieflyNeutral(MEMBERS, touch.member.value, Exclusive, {} + {room});
    }
    WithinNeutral(room, Shared, if touch.member.Some? then Briefly(MEMBERS, touch.member.value, Exclusive) else [], {});
    OneByOneNeutral(MEMBERS, touch.scan, Shared, {} + {room});
    WithinNeutral(room, Exclusive, OneByOne(MEMBERS, touch.scan, Shared), {});
  }

  lemma {:induction false} TouchesNeutral(touches: seq<RoomTouch>)
    ensures Neutral(UnregisterLocks(touches), {})
  {
    if touches != [] {
      TouchNeutral(touches[0]);
      TouchesNeutral(touches[1..]);
      ThenNeutral(LeaveLocks(touches[0]), RemoveIfLocks(touches[0]), {});
      ThenNeutral(LeaveLocks(touches[0]) + RemoveIfLocks(touches[0]), UnregisterLocks(touches[1..]), {});
    }
  }

  /** Every operation takes its locks in rank order and gives all of them back. */
  lemma EveryOperationIsOrdered(op: Operation)
    requires IteratesInOrder(op)
    ensures Neutral(Locks(op), {})
  {
    match op
    case Register(connection, index) =>
      BrieflyNeutral(CONNECTIONS, connection, Exclusive, {});
      BrieflyNeutral(CONNECTION_ROOMS, index, Exclusive, {});
      ThenNeutral(Briefly(CONNECTIONS, connection, Exclusive), Briefly(CONNECTION_ROOMS, index, Exclusive), {});
    case Unregister(index, touches, connection) =>
      BrieflyNeutral(CONNECTION_ROOMS, index, Exclusive, {});
      TouchesNeutral(touches);
      BrieflyNeutral(CONNECTIONS, connection, Exclusive, {});
      ThenNeutral(Briefly(CONNECTION_ROOMS, index, Exclusive), UnregisterLocks(touches), {});
      ThenNeutral(Briefly(CONNECTION_ROOMS, index, Exclusive) + UnregisterLocks(touches),
                  Briefly(CONNECTIONS, connection, Exclusive), {});
    case Create(room) => BrieflyNeutral(ROOMS, room, Exclusive, {});
    case Delete(room, scan, unlisted) =>
      BrieflyNeutral(ROOMS, room, Exclusive, {});
      IterateNeutral(MEMBERS, scan, {});
      OneByOneNeutral(CONNECTION_ROOMS, unlisted, Exclusive, {});
      ThenNeutral(Briefly(ROOMS, room, Exclusive), Iterate(MEMBERS, None, scan), {});
      ThenNeutral(Briefly(ROOMS, room, Exclusive) + Iterate(MEMBERS, None, scan),
                  OneByOne(CONNECTION_ROOMS, unlisted, Exclusive), {});
    case Join(connection, registered, room, member, index) =>
      var a, b := Briefly(ROOMS, room, Exclusive), Briefly(MEMBERS, member, Exclusive);
      var c := Briefly(CONNECTION_ROOMS, index, Exclusive);
      BrieflyNeutral(CONNECTIONS, connection, Shared, {});
      BrieflyNeutral(ROOMS, room, Exclusive, {});
      BrieflyNeutral(MEMBERS, member, Exclusive, {});
      BrieflyNeutral(CONNECTION_ROOMS, index, Exclusive, {});
      ThenNeutral(a, b, {});
      ThenNeutral(a + b, c, {});
      ThenNeutral(Briefly(CONNECTIONS, connection, Shared), if registered then a + b + c else [], {});
    case Leave(touch, index) =>
      TouchNeutral(touch);
      BrieflyNeutral(CONNECTION_ROOMS, index, Exclusive, {});
      ThenNeutral(LeaveLocks(touch), Briefly(CONNECTION_ROOMS, index, Exclusive), {});
      ThenNeutral(LeaveLocks(touch) + Briefly(CONNECTION_ROOMS, index, Exclusive), RemoveIfLocks(touch), {});
    case BroadcastToRoom(room, members) =>
      IterateNeutral(MEMBERS, members, {} + {Lock(ROOMS, room)});
      WithinNeutral(Lock(ROOMS, room), Shared, Iterate(MEMBERS, None, members), {});
    case BroadcastAll(connections) => IterateNeutral(CONNECTIONS, connections, {});
    case Get(level, shard) => BrieflyNeutral(level, shard, Shared, {});
    case Ids(level, shards) => IterateNeutral(level, Bare(shards), {});
    case Count(level, shards) => OneByOneNeutral(level, shards, Shared, {});
    case Send(state, evicts) => SendNeutral(state, evicts, {});
    case Close(state) => BrieflyNeutral(STATE, state, Exclusive, {});
    case SetState(state) => BrieflyNeutral(STATE, state, Exclusive, {});
  }

  // ------------------------------------------------------- every access is under its lock

  /** The locks a program takes, and how. */
  function Takes(p: Program): set<(Lock, Mode)> {
    if p == [] then {} else (if p[0].Acquire? then {(p[0].lock, p[0].mode)} else {}) + Takes(p[1..])
  }

  lemma {:induction false} TakesAppend(p: Program, q: Program)
    ensures Takes(p + q) == Takes(p) + Takes(q)
  {
    if p == [] {
      assert p + q == q;
    } else {
      assert (p + q)[1..] == p[1..] + q;
      TakesAppend(p[1..], q);
    }
  }

  lemma WithinTakes(lock: Lock, mode: Mode, body: Program)
    ensures Takes(Within(lock, mode, body)) == {(lock, mode)} + Takes(body)
  {
    assert Within(lock, mode, body)[1..] == body + [Release(lock)];
    TakesAppend(body, [Release(lock)]);
    assert Takes([Release(lock)]) == {} by { assert [Release(lock)][1..] == []; }
  }

  lemma BrieflyTakes(level: nat, shard: nat, mode: Mode)
    ensures Takes(Briefly(level, shard, mode)) == {(Lock(level, shard), mode)}
  {
    WithinTakes(Lock(level, shard), mode, []);
  }

  lemma {:induction false} OneByOneTakes(level: nat, shards: seq<nat>, mode: Mode)
    ensures Takes(OneByOne(level, shards, mode)) == set shard | shard in shards :: (Lock(level, shard), mode)
  {
    if shards != [] {
      BrieflyTakes(level, shards[0], mode);
      OneByOneTakes(level, shards[1..], mode);
      TakesAppend(Briefly(level, shards[0], mode), OneByOne(level, shards[1..], mode));
      assert forall shard :: shard in shards <==> shard == shards[0] || shard in shards[1..];
    }
  }

  /** What visiting a member takes: its entry if it has to be looked up, and its state as `send` does. */
  function VisitTakes(level: nat, v: Visit): set<(Lock, Mode)> {
    (if level == MEMBERS then {(Lock(CONNECTIONS, v.connection), Shared)} else {})
    + (if v.state.Some? then SendTakes(v.state.value, v.evicts) else {})
  }

  function SendTakes(state: nat, evicts: bool): set<(Lock, Mode)> {
    {(Lock(STATE, state), Shared)} + if evicts then {(Lock(STATE, state), Exclusive)} else {}
  }

  lemma SendsTake(state: nat, evicts: bool)
    ensures Takes(SendLocks(state, evicts)) == SendTakes(state, evicts)
  {
    BrieflyTakes(STATE, state, Shared);
    BrieflyTakes(STATE, state, Exclusive);
    TakesAppend(Briefly(STATE, state, Shared), if evicts then Briefly(STATE, state, Exclusive) else []);
  }

  lemma {:induction false} VisitsTake(level: nat, visits: seq<Visit>, v: Visit)
    requires v in visits
    ensures VisitTakes(level, v) <= Takes(VisitLocks(level, visits))
  {
    TakesAppend(VisitOne(level, visits[0]), VisitLocks(level, visits[1..]));
    if v == visits[0] {
      if v.state.Some? {
        SendsTake(v.state.value, v.evicts);
      }
      WithinTakes(Lock(CONNECTIONS, v.connection), Shared, SendIfFound(v));
    } else {
      VisitsTake(level, visits[1..], v);
    }
  }

  /** An iteration locks each of its shards, and visits whom it finds there. */
  lemma {:induction false} IterationTakes(level: nat, held: Option<nat>, stops: seq<Stop>, stop: Stop)
    requires stop in stops
    ensures (Lock(level, stop.shard), Shared) in Takes(Iterate(level, held, stops))
    ensures forall v :: v in stop.visits ==> VisitTakes(level, v) <= Takes(Iterate(level, held, stops))
    decreases |stops|
  {
    var visits := VisitLocks(level, stops[0].visits);
    var rest := Iterate(level, Some(stops[0].shard), stops[1..]);
    var p := Iterate(level, held, stops);
    assert p[0] == Acquire(Lock(level, stops[0].shard), Shared) && p[1..] == LetGo(level, held) + (visits + rest);
    TakesAppend(LetGo(level, held), visits + rest);
    TakesAppend(visits, rest);
    if stop == stops[0] {
      forall v | v in stop.visits
        ensures VisitTakes(level, v) <= Takes(p)
      {
        VisitsTake(level, stop.visits, v);
      }
    } else {
      IterationTakes(level, Some(stops[0].shard), stops[1..], stop);
    }
  }

  /** Leaving a room: its entry shared while the member goes, alone while it is removed if empty. */
  function TouchTakes(touch: RoomTouch): set<(Lock, Mode)> {
    {(Lock(ROOMS, touch.room), Shared), (Lock(ROOMS, touch.room), Exclusive)}
    + (if touch.member.Some? then {(Lock(MEMBERS, touch.member.value), Exclusive)} else {})
    + (set shard | shard in touch.scan :: (Lock(MEMBERS, shard), Shared))
  }

  lemma TouchesTake(touch: RoomTouch)
    ensures Takes(LeaveLocks(touch) + RemoveIfLocks(touch)) == TouchTakes(touch)
    ensures Takes(LeaveLocks(touch)) + Takes(RemoveIfLocks(touch)) == TouchTakes(touch)
  {
    var member := if touch.member.Some? then Briefly(MEMBERS, touch.member.value, Exclusive) else [];
    if touch.member.Some? {
      BrieflyTakes(MEMBERS, touch.member.value, Exclusive);
    }
    WithinTakes(Lock(ROOMS, touch.room), Shared, member);
    OneByOneTakes(MEMBERS, touch.scan, Shared);
    WithinTakes(Lock(ROOMS, touch.room), Exclusive, OneByOne(MEMBERS, touch.scan, Shared));
    TakesAppend(LeaveLocks(touch), RemoveIfLocks(touch));
  }

  lemma {:induction false} UnregisterTakes(touches: seq<RoomTouch>, touch: RoomTouch)
    requires touch in touches
    ensures TouchTakes(touch) <= Takes(UnregisterLocks(touches))
  {
    TakesAppend(LeaveLocks(touches[0]) + RemoveIfLocks(touches[0]), UnregisterLocks(touches[1..]));
    if touch == touches[0] {
      TouchesTake(touch);
    } else {
      UnregisterTakes(touches[1..], touch);
    }
  }

  /** The locks an operation needs: for what it changes alone, for what it reads shared. */
  ghost predicate Needs(op: Operation, l: Lock, mode: Mode) {
    match op
    case Register(connection, index) =>
      mode == Exclusive && (l == Lock(CONNECTIONS, connection) || l == Lock(CONNECTION_ROOMS, index))
    case Unregister(index, touches, connection) =>
      || (mode == Exclusive && (l == Lock(CONNECTION_ROOMS, index) || l == Lock(CONNECTIONS, connection)))
      || exists touch :: touch in touches && (l, mode) in TouchTakes(touch)
    case Create(room) => l == Lock(ROOMS, room) && mode == Exclusive
    case Delete(room, scan, unlisted) =>
      || (l == Lock(ROOMS, room) && mode == Exclusive)
      || (mode == Shared && exists stop :: stop in scan && l == Lock(MEMBERS, stop.shard))
      || (mode == Exclusive && exists shard :: shard in unlisted && l == Lock(CONNECTION_ROOMS, shard))
    case Join(connection, registered, room, member, index) =>
      || (l == Lock(CONNECTIONS, connection) && mode == Shared)
      || (registered && mode == Exclusive
          && (l == Lock(ROOMS, room) || l == Lock(MEMBERS, member) || l == Lock(CONNECTION_ROOMS, index)))
    case Leave(touch, index) =>
      (l == Lock(CONNECTION_ROOMS, index) && mode == Exclusive) || (l, mode) in TouchTakes(touch)
    case BroadcastToRoom(room, members) =>
      || (l == Lock(ROOMS, room) && mode == Shared)
      || exists stop :: stop in members && NeedsStop(MEMBERS, stop, l, mode)
    case BroadcastAll(connections) => exists stop :: stop in connections && NeedsStop(CONNECTIONS, stop, l, mode)
    case Get(level, shard) => l == Lock(level, shard) && mode == Shared
    case Ids(level, shards) => mode == Shared && exists shard :: shard in shards && l == Lock(level, shard)
    case Count(level, shards) => mode == Shared && exists shard :: shard in shards && l == Lock(level, shard)
    case Send(state, evicts) => (l, mode) in SendTakes(state, evicts)
    case Close(state) => l == Lock(STATE, state) && mode == Exclusive
    case SetState(state) => l == Lock(STATE, state) && mode == Exclusive
  }

  ghost predicate NeedsStop(level: nat, stop: Stop, l: Lock, mode: Mode) {
    (l, mode) == (Lock(level, stop.shard), Shared) || exists v :: v in stop.visits && (l, mode) in VisitTakes(level, v)
  }

  lemma StopNeeds(level: nat, stops: seq<Stop>, stop: Stop, l: Lock, mode: Mode)
    requires stop in stops && NeedsStop(level, stop, l, mode)
    ensures (l, mode) in Takes(Iterate(level, None, stops))
  {
    IterationTakes(level, None, stops, stop);
  }

  /** Every operation takes the locks it needs, in the mode it needs them. */
  lemma EveryAccessIsLocked(op: Operation, l: Lock, mode: Mode)
    requires Needs(op, l, mode)
    ensures (l, mode) in Takes(Locks(op))
  {
    match op
    case Register(connection, index) =>
      BrieflyTakes(CONNECTIONS, connection, Exclusive);
      BrieflyTakes(CONNECTION_ROOMS, index, Exclusive);
      TakesAppend(Briefly(CONNECTIONS, connection, Exclusive), Briefly(CONNECTION_ROOMS, index, Exclusive));
    case Unregister(index, touches, connection) =>
      var first, last := Briefly(CONNECTION_ROOMS, index, Exclusive), Briefly(CONNECTIONS, connection, Exclusive);
      BrieflyTakes(CONNECTION_ROOMS, index, Exclusive);
      BrieflyTakes(CONNECTIONS, connection, Exclusive);
      TakesAppend(first, UnregisterLocks(touches));
      TakesAppend(first + UnregisterLocks(touches), last);
      if touch :| touch in touches && (l, mode) in TouchTakes(touch) {
        UnregisterTakes(touches, touch);
      }
    case Create(room) => BrieflyTakes(ROOMS, room, Exclusive);
    case Delete(room, scan, unlisted) =>
      var first, second := Briefly(ROOMS, room, Exclusive), Iterate(MEMBERS, None, scan);
      BrieflyTakes(ROOMS, room, Exclusive);
      OneByOneTakes(CONNECTION_ROOMS, unlisted, Exclusive);
      TakesAppend(first, second);
      TakesAppend(first + second, OneByOne(CONNECTION_ROOMS, unlisted, Exclusive));
      if stop :| stop in scan && l == Lock(MEMBERS, stop.shard) {
        IterationTakes(MEMBERS, None, scan, stop);
      }
    case Join(connection, registered, room, member, index) =>
      var a, b := Briefly(ROOMS, room, Exclusive), Briefly(MEMBERS, member, Exclusive);
      var c := Briefly(CONNECTION_ROOMS, index, Exclusive);
      BrieflyTakes(CONNECTIONS, connection, Shared);
      BrieflyTakes(ROOMS, room, Exclusive);
      BrieflyTakes(MEMBERS, member, Exclusive);
      BrieflyTakes(CONNECTION_ROOMS, index, Exclusive);
      TakesAppend(a, b);
      TakesAppend(a + b, c);
      TakesAppend(Briefly(CONNECTIONS, connection, Shared), if registered then a + b + c else []);
    case Leave(touch, index) =>
      BrieflyTakes(CONNECTION_ROOMS, index, Exclusive);
      TouchesTake(touch);
      TakesAppend(LeaveLocks(touch), Briefly(CONNECTION_ROOMS, index, Exclusive));
      TakesAppend(LeaveLocks(touch) + Briefly(CONNECTION_ROOMS, index, Exclusive), RemoveIfLocks(touch));
    case BroadcastToRoom(room, members) =>
      WithinTakes(Lock(ROOMS, room), Shared, Iterate(MEMBERS, None, members));
      if stop :| stop in members && NeedsStop(MEMBERS, stop, l, mode) {
        StopNeeds(MEMBERS, members, stop, l, mode);
      }
    case BroadcastAll(connections) =>
      var stop :| stop in connections && NeedsStop(CONNECTIONS, stop, l, mode);
      StopNeeds(CONNECTIONS, connections, stop, l, mode);
    case Get(level, shard) => BrieflyTakes(level, shard, Shared);
    case Ids(level, shards) =>
      var i :| 0 <= i < |shards| && l == Lock(level, shards[i]);
      assert Bare(shards)[i] in Bare(shards);
      IterationTakes(level, None, Bare(shards), Bare(shards)[i]);
    case Count(level, shards) => OneByOneTakes(level, shards, Shared);
    case Send(state, evicts) => SendsTake(state, evicts);
    case Close(state) => BrieflyTakes(STATE, state, Exclusive);
    case SetState(state) => BrieflyTakes(STATE, state, Exclusive);
  }

  // ------------------------------------------------------------- threads and progress

  type ThreadId = nat

  /** What a thread holds and what it has yet to do. */
  datatype Thread = Thread(held: map<Lock, Mode>, rest: Program)

  type State = map<ThreadId, Thread>

  datatype Step = Start(t: ThreadId, op: Operation) | Do(t: ThreadId)

  predicate Wants(s: State, t: ThreadId, l: Lock) {
    t in s && s[t].rest != [] && s[t].rest[0].Acquire? && s[t].rest[0].lock == l
  }

  /** Mutual exclusion: readers share, a writer is alone. */
  ghost predicate MayDo(s: State, t: ThreadId) {
    && t in s && s[t].rest != []
    && match s[t].rest[0]
       case Release(l) => true
       case Acquire(l, Exclusive) => forall u :: u in s ==> l !in s[u].held
       case Acquire(l, Shared) => forall u :: u in s && l in s[u].held ==> s[u].held[l] == Shared
  }

  /** Even a lock that makes a reader wait behind every writer, waiting or yet to come, lets the thread move. */
  ghost predicate CanDo(s: State, t: ThreadId) {
    && MayDo(s, t)
    && (s[t].rest[0].Acquire? && s[t].rest[0].mode == Shared ==>
          forall u :: Wants(s, u, s[t].rest[0].lock) ==> s[u].rest[0].mode == Shared)
  }

  function Did(th: Thread): Thread
    requires th.rest != []
  {
    match th.rest[0]
    case Acquire(l, mode) => Thread(th.held[l := mode], th.rest[1..])
    case Release(l) => Thread(th.held - {l}, th.rest[1..])
  }

  ghost predicate Init(s: State) {
    s == map[]
  }

  /** In which order a lock lets its waiters in is left open, so these runs include those of any fair or unfair lock. */
  ghost predicate Next(s: State, step: Step, s': State) {
    match step
    case Start(t, op) => (t in s ==> s[t].rest == []) && IteratesInOrder(op) && s' == s[t := Thread(map[], Locks(op))]
    case Do(t) => MayDo(s, t) && s' == s[t := Did(s[t])]
  }

  /** Every thread is somewhere inside an ordered program. */
  ghost predicate Inv(s: State) {
    forall t :: t in s ==> HeldAfter(s[t].rest, s[t].held.Keys) == Some({})
  }

  lemma InvKept(s: State, step: Step, s': State)
    requires Inv(s) && Next(s, step, s')
    ensures Inv(s')
  {
    match step
    case Start(t, op) =>
      EveryOperationIsOrdered(op);
      assert s'[t].held.Keys == {};
    case Do(t) =>
      match s[t].rest[0]
      case Acquire(l, mode) => assert Did(s[t]).held.Keys == s[t].held.Keys + {l};
      case Release(l) => assert Did(s[t]).held.Keys == s[t].held.Keys - {l};
  }

  /** The threads waiting for a lock above `l`. */
  ghost function WaitingAbove(s: State, l: Lock): set<ThreadId> {
    set t | t in s && s[t].rest != [] && s[t].rest[0].Acquire? && Before(l, s[t].rest[0].lock)
  }

  /** Follow the holder of the wanted lock upwards until somebody can move. */
  lemma {:induction false} HolderLeadsToProgress(s: State, u: ThreadId, l: Lock)
    requires Inv(s) && u in s && l in s[u].held
    ensures exists t :: CanDo(s, t)
    decreases WaitingAbove(s, l)
  {
    assert s[u].rest != [];
    match s[u].rest[0]
    case Release(_) => assert CanDo(s, u);
    case Acquire(l', _) =>
      assert Before(l, l');
      assert u in WaitingAbove(s, l) && u !in WaitingAbove(s, l');
      WaiterLeadsToProgress(s, u, l, l');
  }

  lemma {:induction false} WaiterLeadsToProgress(s: State, u: ThreadId, l: Lock, l': Lock)
    requires Inv(s) && Wants(s, u, l') && Before(l, l')
    ensures exists t :: CanDo(s, t)
    decreases WaitingAbove(s, l), 0
  {
    assert u in WaitingAbove(s, l) && u !in WaitingAbove(s, l');
    assert WaitingAbove(s, l') <= WaitingAbove(s, l);
    if v :| v in s && l' in s[v].held {
      HolderLeadsToProgress(s, v, l');
    } else if w :| Wants(s, w, l') && s[w].rest[0].mode == Exclusive {
      assert CanDo(s, w);
    } else {
      assert CanDo(s, u);
    }
  }

  /**
   In every reachable state with an operation unfinished some thread can take its next step, and without
   overtaking any writer.
   */
  lemma NoDeadlock(states: seq<State>, steps: seq<Step>, i: nat)
    requires IsRun(Init, Next, states, steps) && i < |states|
    requires exists t :: t in states[i] && states[i][t].rest != []
    ensures exists t :: CanDo(states[i], t)
  {
    forall s, step, s' | Inv(s) && Next(s, step, s')
      ensures Inv(s')
    {
      InvKept(s, step, s');
    }
    Invariance(Init, Next, Inv, states, steps);
    var s := states[i];
    var t :| t in s && s[t].rest != [];
    match s[t].rest[0]
    case Release(_) => assert CanDo(s, t);
    case Acquire(l, _) =>
      if v :| v in s && l in s[v].held {
        HolderLeadsToProgress(s, v, l);
      } else if w :| Wants(s, w, l) && s[w].rest[0].mode == Exclusive {
        assert CanDo(s, w);
      } else {
        assert CanDo(s, t);
      }
  }
}
