/**
 One broadcast to a room beside every other call on the room manager. It holds the room's entry in `rooms`
 throughout and goes through the room's member map hand over hand, one locked shard at a time, so
 that joins and leaves go on elsewhere in the map.
 */
module BroadcastSteps {
  import opened Messages
  import opened Connections
  import opened RoomIndex
  import opened Broadcasts
  import opened Runs
  import opened RoomSteps

  type Manager = RoomSteps.State

  /**
   `shards`: how the member map divides the ids; `at`: the locked shard; `todo`: who is yet to be visited in it;
   `visited`, `received`: whom the broadcast has visited, and whose send succeeded.
   */
  datatype Cast = Cast(
    room: RoomId,
    cell: nat,
    except: Option<ConnectionId>,
    message: Message,
    shards: seq<iset<ConnectionId>>,
    at: nat,
    todo: set<ConnectionId>,
    visited: seq<ConnectionId>,
    received: seq<ConnectionId>)

  datatype World = World(rooms: Manager, links: Links, cast: Cast)

  /** `Elsewhere`: other sends, the writers and the teardowns do what they do to the links. */
  datatype Action = Calls(step: RoomSteps.Step) | NextShard | Visit(c: ConnectionId) | Elsewhere(links: Links)

  predicate AtWork(cast: Cast) {
    cast.at < |cast.shards|
  }

  function MembersOf(w: World): set<ConnectionId> {
    if w.cast.cell < |w.rooms.cells| then w.rooms.cells[w.cast.cell].members else {}
  }

  /** The members in a shard, as the iteration finds them there. */
  function InShard(w: World, k: nat): set<ConnectionId> {
    if k < |w.cast.shards| then set c | c in MembersOf(w) && c in w.cast.shards[k] else {}
  }

  ghost predicate FallsInAShard(shards: seq<iset<ConnectionId>>, c: ConnectionId) {
    exists k :: 0 <= k < |shards| && c in shards[k]
  }

  /** Every id falls in exactly one shard. */
  ghost predicate Partition(shards: seq<iset<ConnectionId>>) {
    && (forall c :: FallsInAShard(shards, c))
    && (forall k, l, c :: 0 <= k < |shards| && 0 <= l < |shards| && c in shards[k] && c in shards[l] ==> k == l)
  }

  /** The room has just been found and its first shard locked. */
  ghost predicate Init(w: World) {
    && WellFormed(w.rooms) && Partition(w.cast.shards)
    && w.cast.room in w.rooms.rooms && w.rooms.rooms[w.cast.room] == w.cast.cell
    && w.cast.at == 0 && w.cast.todo == InShard(w, 0) && w.cast.visited == [] && w.cast.received == []
  }

  /** The operation needs the entry of the room for itself, or changes the member map in the locked shard. */
  predicate Waits(cast: Cast, pc: Pc, pick: string)
    requires AtWork(cast)
  {
    match pc
    case JoinCreate(_, r) => r == cast.room
    case CreateRoom(r) => r == cast.room
    case DeleteRemove(r) => r == cast.room
    case LeavePrune(_, r) => r == cast.room
    case UnregisterPrune(_, r, _) => r == cast.room
    case JoinMember(c, _, cell) => cell == cast.cell && c in cast.shards[cast.at]
    case LeaveMember(c, r) => r == cast.room && c in cast.shards[cast.at]
    case UnregisterVisit(c, todo) => todo != {} && pick == cast.room && c in cast.shards[cast.at]
    case _ => false
  }

  predicate Possible(w: World, a: Action) {
    match a
    case Calls(step) =>
      && RoomSteps.Enabled(w.rooms, step)
      && (AtWork(w.cast) && step.Do? ==> !Waits(w.cast, w.rooms.threads[step.t], step.pick))
    case NextShard => AtWork(w.cast) && w.cast.todo == {}
    case Visit(c) => AtWork(w.cast) && c in w.cast.todo
    case Elsewhere(_) => true
  }

  /** The visit sends: the member is not left out and is registered. */
  predicate Sends(w: World, c: ConnectionId) {
    w.cast.except != Some(c) && c in w.rooms.connections && c in w.links
  }

  function After(w: World, a: Action): World
    requires Possible(w, a)
  {
    var cast := w.cast;
    match a
    case Calls(step) => w.(rooms := RoomSteps.Apply(w.rooms, step))
    case NextShard => w.(cast := cast.(at := cast.at + 1, todo := InShard(w, cast.at + 1)))
    case Visit(c) =>
      var went := cast.(todo := cast.todo - {c}, visited := cast.visited + [c]);
      if !Sends(w, c) then w.(cast := went)
      else
        w.(links := w.links[c := AfterSend(w.links[c], cast.message)],
        cast := went.(received := if w.links[c].Accepts() then cast.received + [c] else cast.received))
    case Elsewhere(links) => w.(links := links)
  }

  ghost predicate Next(w: World, a: Action, w': World) {
    Possible(w, a) && w' == After(w, a)
  }

  // ---------------------------------------------------------- the locked shard stands still

  /** The room stays on file until the broadcast is through. */
  ghost predicate Filed(w: World) {
    && WellFormed(w.rooms)
    && (AtWork(w.cast) ==> w.cast.room in w.rooms.rooms && w.rooms.rooms[w.cast.room] == w.cast.cell)
  }

  /** Who is in the locked shard has been visited or will be, and not both. */
  predicate Frozen(w: World) {
    AtWork(w.cast) ==>
      && (forall c :: c in w.cast.todo ==> c in w.cast.shards[w.cast.at] && c in MembersOf(w) && c !in w.cast.visited)
      && (forall c :: c in MembersOf(w) && c in w.cast.shards[w.cast.at] ==> c in w.cast.todo || c in w.cast.visited)
  }

  /** Nobody is visited twice, and nobody ahead of the locked shard has been. */
  ghost predicate VisitedBehind(w: World) {
    && NoRepeats(w.cast.visited)
    && NoRepeats(w.cast.received)
    && (forall c :: c in w.cast.received ==> c in w.cast.visited)
    && (forall c, k :: c in w.cast.visited && w.cast.at < k < |w.cast.shards| ==> c !in w.cast.shards[k])
  }

  ghost predicate Inv(w: World) {
    Partition(w.cast.shards) && Filed(w) && Frozen(w) && VisitedBehind(w)
  }

  lemma EffectKeepsFiled(w: World, pc: Pc, pick: string)
    requires Filed(w) && AtWork(w.cast) && CanDo(w.rooms, pc, pick) && !Waits(w.cast, pc, pick)
    ensures var rooms := Effect(w.rooms, pc, pick);
            && w.cast.room in rooms.rooms && rooms.rooms[w.cast.room] == w.cast.cell
            && w.cast.cell < |rooms.cells|
  {
  }

  /** An operation that does not wait leaves the members in the locked shard as they are. */
  lemma EffectOnShard(w: World, pc: Pc, pick: string, c: ConnectionId)
    requires Filed(w) && AtWork(w.cast) && CanDo(w.rooms, pc, pick) && HoldsItsRoom(w.rooms.cells, pc)
    requires !Waits(w.cast, pc, pick) && c in w.cast.shards[w.cast.at]
    ensures var cells := Effect(w.rooms, pc, pick).cells;
            w.cast.cell < |cells| && (c in cells[w.cast.cell].members <==> c in w.rooms.cells[w.cast.cell].members)
  {
  }

  lemma CallsKeepTheShard(w: World, step: RoomSteps.Step, c: ConnectionId)
    requires Filed(w) && AtWork(w.cast) && Possible(w, Calls(step))
    ensures var w' := After(w, Calls(step));
            && w.cast.room in w'.rooms.rooms && w'.rooms.rooms[w.cast.room] == w.cast.cell
            && (c in w.cast.shards[w.cast.at] ==> (c in MembersOf(w') <==> c in MembersOf(w)))
  {
    if step.Do? {
      assert HoldsItsRoom(w.rooms.cells, w.rooms.threads[step.t]);
      EffectKeepsFiled(w, w.rooms.threads[step.t], step.pick);
      if c in w.cast.shards[w.cast.at] {
        EffectOnShard(w, w.rooms.threads[step.t], step.pick, c);
      }
    }
  }

  lemma FiledKept(w: World, a: Action, w': World)
    requires Filed(w) && Next(w, a, w')
    ensures Filed(w')
  {
    if a.Calls? {
      WellFormedKept(w.rooms, a.step, w'.rooms);
      if AtWork(w.cast) {
        CallsKeepTheShard(w, a.step, "");
      }
    }
  }

  lemma FrozenKept(w: World, a: Action, w': World)
    requires Inv(w) && Next(w, a, w')
    ensures Frozen(w')
  {
    if a.Calls? && AtWork(w.cast) {
      forall c
        ensures c in w.cast.shards[w.cast.at] ==> (c in MembersOf(w') <==> c in MembersOf(w))
      {
        CallsKeepTheShard(w, a.step, c);
      }
    }
  }

  lemma OneMoreVisit(ids: seq<ConnectionId>, c: ConnectionId)
    requires NoRepeats(ids) && c !in ids
    ensures NoRepeats(ids + [c])
  {
  }

  lemma VisitedBehindKept(w: World, a: Action, w': World)
    requires Inv(w) && Next(w, a, w')
    ensures VisitedBehind(w')
  {
    if a.Visit? {
      OneMoreVisit(w.cast.visited, a.c);
      OneMoreVisit(w.cast.received, a.c);
    }
  }

  lemma InvKept(w: World, a: Action, w': World)
    requires Inv(w) && Next(w, a, w')
    ensures Inv(w')
  {
    FiledKept(w, a, w');
    FrozenKept(w, a, w');
    VisitedBehindKept(w, a, w');
  }

  lemma InvAlways(ws: seq<World>, actions: seq<Action>, i: nat)
    requires IsRun(Init, Next, ws, actions) && i < |ws|
    ensures Inv(ws[i])
  {
    forall w, a, w' | Inv(w) && Next(w, a, w')
      ensures Inv(w')
    {
      InvKept(w, a, w');
    }
    Invariance(Init, Next, Inv, ws, actions);
  }

  // ------------------------------------------------------------------ over a whole broadcast

  /** `c` is in the room in every state up to `n` in which the broadcast is at work. */
  ghost predicate MemberThroughout(ws: seq<World>, n: nat, c: ConnectionId) {
    forall k :: 0 <= k < |ws| && k <= n && AtWork(ws[k].cast) ==> IsIn(ws[k].rooms, c, ws[k].cast.room)
  }

  /** And a send to it succeeds in each of them. */
  ghost predicate ReadyThroughout(ws: seq<World>, n: nat, c: ConnectionId) {
    forall k :: 0 <= k < |ws| && k <= n && AtWork(ws[k].cast) ==> Sends(ws[k], c) && ws[k].links[c].Accepts()
  }

  lemma MemberStep(w: World, a: Action, w': World, c: ConnectionId, k: nat)
    requires Inv(w) && Next(w, a, w') && k < |w.cast.shards| && c in w.cast.shards[k]
    requires AtWork(w.cast) ==> IsIn(w.rooms, c, w.cast.room)
    requires k < w.cast.at ==> c in w.cast.visited
    ensures w'.cast.shards == w.cast.shards && (k < w'.cast.at ==> c in w'.cast.visited)
  {
  }

  lemma MemberOneMore(ws: seq<World>, actions: seq<Action>, n: nat, c: ConnectionId, k: nat)
    requires IsRun(Init, Next, ws, actions) && n < |actions|
    requires k < |ws[n].cast.shards| && c in ws[n].cast.shards[k]
    requires AtWork(ws[n].cast) ==> IsIn(ws[n].rooms, c, ws[n].cast.room)
    requires k < ws[n].cast.at ==> c in ws[n].cast.visited
    ensures ws[n + 1].cast.shards == ws[n].cast.shards && (k < ws[n + 1].cast.at ==> c in ws[n + 1].cast.visited)
  {
    InvAlways(ws, actions, n);
    MemberStep(ws[n], actions[n], ws[n + 1], c, k);
  }

  /** Whoever is a member throughout has been visited when the iteration has passed its shard. */
  lemma {:induction false} MemberIsVisited(ws: seq<World>, actions: seq<Action>, n: nat, c: ConnectionId, k: nat)
    requires IsRun(Init, Next, ws, actions) && n < |ws| && MemberThroughout(ws, n, c)
    requires k < |ws[0].cast.shards| && c in ws[0].cast.shards[k]
    ensures ws[n].cast.shards == ws[0].cast.shards && (k < ws[n].cast.at ==> c in ws[n].cast.visited)
  {
    if n > 0 {
      MemberIsVisited(ws, actions, n - 1, c, k);
      MemberOneMore(ws, actions, n - 1, c, k);
    }
  }

  lemma VisitStep(w: World, a: Action, w': World, c: ConnectionId)
    requires Inv(w) && Next(w, a, w') && c in w'.cast.visited
    ensures c in w.cast.visited ==> (c in w'.cast.received <==> c in w.cast.received)
    ensures c !in w.cast.visited ==>
              && a == Visit(c) && IsIn(w.rooms, c, w.cast.room) && AtWork(w.cast)
              && (c in w'.cast.received <==> Sends(w, c) && w.links[c].Accepts())
  {
  }

  /** Whoever has been visited was a member then, and got the message if it was ready. */
  lemma {:induction false} VisitHappened(ws: seq<World>, actions: seq<Action>, n: nat, c: ConnectionId) returns (k: nat)
    requires IsRun(Init, Next, ws, actions) && n < |ws| && c in ws[n].cast.visited
    ensures k < n && actions[k] == Visit(c) && IsIn(ws[k].rooms, c, ws[k].cast.room) && AtWork(ws[k].cast)
    ensures c in ws[n].cast.received <==> Sends(ws[k], c) && ws[k].links[c].Accepts()
  {
    assert n > 0;
    InvAlways(ws, actions, n - 1);
    VisitStep(ws[n - 1], actions[n - 1], ws[n], c);
    if c in ws[n - 1].cast.visited {
      k := VisitHappened(ws, actions, n - 1, c);
    } else {
      k := n - 1;
    }
  }

  lemma {:induction false} VisitsStay(ws: seq<World>, actions: seq<Action>, i: nat, n: nat, c: ConnectionId)
    requires IsRun(Init, Next, ws, actions) && i <= n < |ws| && c in ws[i].cast.visited
    ensures c in ws[n].cast.visited
  {
    if i < n {
      VisitsStay(ws, actions, i, n - 1, c);
      assert Next(ws[n - 1], actions[n - 1], ws[n]);
    }
  }

  /** Nobody is sent to twice. */
  lemma NobodyTwice(ws: seq<World>, actions: seq<Action>, k: nat, l: nat, c: ConnectionId)
    requires IsRun(Init, Next, ws, actions) && k < |actions| && l < |actions|
    requires actions[k] == Visit(c) && actions[l] == Visit(c)
    ensures k == l
  {
    if k != l {
      var first, second := if k < l then k else l, if k < l then l else k;
      assert Next(ws[first], actions[first], ws[first + 1]) && Next(ws[second], actions[second], ws[second + 1]);
      VisitsStay(ws, actions, first + 1, second, c);
      InvAlways(ws, actions, second);
    }
  }

  /**
   Exactly one copy: when the broadcast is through, whoever was in the room throughout has been visited, at
   exactly one step, and has received the message then if it was registered and open with room in its
   queue throughout; and nobody has received it but a member, at the one step that visited it.
   */
  lemma ExactlyOneCopy(ws: seq<World>, actions: seq<Action>, i: nat, c: ConnectionId)
    requires IsRun(Init, Next, ws, actions) && i < |ws| && !AtWork(ws[i].cast)
    ensures MemberThroughout(ws, i, c) ==> c in ws[i].cast.visited
    ensures MemberThroughout(ws, i, c) && ReadyThroughout(ws, i, c) ==> c in ws[i].cast.received
    ensures c in ws[i].cast.received ==>
              exists k ::
                && 0 <= k < i && actions[k] == Visit(c)
                && IsIn(ws[k].rooms, c, ws[k].cast.room) && ws[k].cast.except != Some(c)
                && c in ws[k].links && c in ws[k + 1].links
                && ws[k + 1].links[c].queue == ws[k].links[c].queue + [ws[k].cast.message]
    ensures forall k, l :: 0 <= k < i && 0 <= l < i && actions[k] == Visit(c) && actions[l] == Visit(c) ==> k == l
    ensures NoRepeats(ws[i].cast.received)
  {
    InvAlways(ws, actions, i);
    InvAlways(ws, actions, 0);
    if MemberThroughout(ws, i, c) {
      assert FallsInAShard(ws[0].cast.shards, c);
      var k :| 0 <= k < |ws[0].cast.shards| && c in ws[0].cast.shards[k];
      MemberIsVisited(ws, actions, i, c, k);
    }
    if c in ws[i].cast.visited {
      var k := VisitHappened(ws, actions, i, c);
      assert Next(ws[k], actions[k], ws[k + 1]);
    }
    forall k, l | 0 <= k < i && 0 <= l < i && actions[k] == Visit(c) && actions[l] == Visit(c)
      ensures k == l
    {
      NobodyTwice(ws, actions, k, l, c);
    }
  }

  /**
   What the one visit does: a member that is left out or not registered is passed over; one that accepts gets the
   message and nothing else; one whose queue is full is evicted; one that is dead, and everybody else, stays
   as it is. The count goes up exactly if the message was taken.
   */
  lemma VisitIsExact(ws: seq<World>, actions: seq<Action>, k: nat, c: ConnectionId)
    requires IsRun(Init, Next, ws, actions) && k < |actions| && actions[k] == Visit(c)
    ensures var w, w' := ws[k], ws[k + 1];
            && w'.rooms == w.rooms && w'.links.Keys == w.links.Keys
            && (forall d :: d in w.links && d != c ==> w'.links[d] == w.links[d])
            && (c in w.links ==>
                  var l := w.links[c];
                  w'.links[c] ==
                  if w.cast.except == Some(c) || c !in w.rooms.connections then l
                  else if l.state == Open && l.live then
                    if |l.queue| < l.capacity then l.(queue := l.queue + [w.cast.message])
                    else l.(state := Closing, permit := true)
                  else l)
            && (w'.cast.received == w.cast.received + [c] || w'.cast.received == w.cast.received)
            && (w'.cast.received != w.cast.received <==>
                  c in w.links && w'.links[c].queue == w.links[c].queue + [w.cast.message])
  {
    assert Next(ws[k], actions[k], ws[k + 1]);
    assert c in ws[k].links ==> |ws[k].links[c].queue + [ws[k].cast.message]| == |ws[k].links[c].queue| + 1;
    assert |ws[k].cast.received + [c]| == |ws[k].cast.received| + 1;
  }

  /** A broadcast at work can always go on: it visits somebody or locks the next shard, with nobody to wait for. */
  lemma BroadcastGoesOn(w: World) returns (a: Action)
    requires AtWork(w.cast)
    ensures Possible(w, a) && !a.Calls? && !a.Elsewhere?
    ensures a.Visit? ==> After(w, a).cast.todo < w.cast.todo && After(w, a).cast.at == w.cast.at
    ensures a.NextShard? ==> After(w, a).cast.at == w.cast.at + 1
  {
    if w.cast.todo == {} {
      a := NextShard;
    } else {
      var c :| c in w.cast.todo;
      a := Visit(c);
    }
  }

  /** Joins and leaves in other shards than the locked one do not wait for the broadcast. */
  lemma OthersGoOnElsewhere(w: World, t: ThreadId, pick: string)
    requires WellFormed(w.rooms) && AtWork(w.cast) && t in w.rooms.threads && CanDo(w.rooms, w.rooms.threads[t], pick)
    requires var pc := w.rooms.threads[t];
             || (pc.JoinMember? && pc.c !in w.cast.shards[w.cast.at])
             || (pc.LeaveMember? && pc.c !in w.cast.shards[w.cast.at])
             || (HasRoom(pc) && pc.r != w.cast.room && !pc.JoinMember?)
    ensures Possible(w, Calls(RoomSteps.Do(t, pick)))
  {
  }
}
