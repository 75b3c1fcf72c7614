/**
 The room manager under every interleaving. No call of src/room.rs locks across its map operations,
 so each operation on `rooms`, on a room's members, on `connection_rooms` or on `connections` is one
 step; a lookup that keeps its guard while the member map changes is one step with that change.
 */
module RoomSteps {
  import opened Messages
  import opened Connections
  import opened RoomIndex

  type ThreadId = nat

  /** An allocated room. `rooms` maps ids to positions in `cells`; a cell no id maps to is held only by callers. */
  datatype Cell = Cell(id: RoomId, members: set<ConnectionId>)

  /** The operation a call performs next. */
  datatype Pc =
    | RegisterConnection(c: ConnectionId)
    | RegisterIndex(c: ConnectionId)
    | JoinCheck(c: ConnectionId, r: RoomId)
    | JoinCreate(c: ConnectionId, r: RoomId)
    | JoinMember(c: ConnectionId, r: RoomId, cell: nat)
    | JoinIndex(c: ConnectionId, r: RoomId)
    | LeaveMember(c: ConnectionId, r: RoomId)
    | LeaveIndex(c: ConnectionId, r: RoomId)
    | LeavePrune(c: ConnectionId, r: RoomId)
    | UnregisterIndex(c: ConnectionId)
    | UnregisterVisit(c: ConnectionId, todo: set<RoomId>)
    | UnregisterPrune(c: ConnectionId, r: RoomId, todo: set<RoomId>)
    | DeleteRemove(r: RoomId)
    | DeleteList(r: RoomId, cell: nat)
    | DeleteIndex(r: RoomId, members: set<ConnectionId>)
    | CreateRoom(r: RoomId)

  /** `ever`: ids whose registration has begun; `gone`: those of them an unregister has returned for. */
  datatype State = State(
    rooms: map<RoomId, nat>,
    cells: seq<Cell>,
    connectionRooms: map<ConnectionId, set<RoomId>>,
    connections: set<ConnectionId>,
    threads: map<ThreadId, Pc>,
    ever: set<ConnectionId>,
    gone: set<ConnectionId>)

  /** `pick` is the next element of the set a thread is iterating over. */
  datatype Step = Begin(t: ThreadId, pc: Pc) | Do(t: ThreadId, pick: string)

  predicate IsEntry(pc: Pc) {
    || pc.RegisterConnection? || pc.JoinCheck? || pc.LeaveMember?
    || pc.UnregisterIndex? || pc.DeleteRemove? || pc.CreateRoom?
  }

  /** The guard of a thread at `pc`: an iteration goes on with one of the elements that are left. */
  predicate CanDo(s: State, pc: Pc, pick: string) {
    match pc
    case UnregisterVisit(_, todo) => todo == {} || pick in todo
    case DeleteIndex(_, members) => members == {} || pick in members
    case JoinMember(_, _, cell) => cell < |s.cells|
    case DeleteList(_, cell) => cell < |s.cells|
    case _ => true
  }

  predicate Enabled(s: State, step: Step) {
    match step
    case Begin(t, pc) => t !in s.threads && IsEntry(pc)
    case Do(t, pick) => t in s.threads && CanDo(s, s.threads[t], pick)
  }

  function Goto(s: State, t: ThreadId, pc: Pc): State {
    s.(threads := s.threads[t := pc])
  }

  function Return(s: State, t: ThreadId): State {
    s.(threads := s.threads - {t})
  }

  /** The cell a call holds was made for the room the call is about. */
  predicate HoldsItsRoom(cells: seq<Cell>, pc: Pc) {
    pc.JoinMember? || pc.DeleteList? ==> pc.cell < |cells| && cells[pc.cell].id == pc.r
  }

  predicate RoomsFiled(s: State) {
    forall r :: r in s.rooms ==> s.rooms[r] < |s.cells| && s.cells[s.rooms[r]].id == r
  }

  predicate WellFormed(s: State) {
    RoomsFiled(s) && forall t :: t in s.threads ==> HoldsItsRoom(s.cells, s.threads[t])
  }

  predicate IsIn(s: State, c: ConnectionId, r: RoomId) {
    r in s.rooms && s.rooms[r] < |s.cells| && c in s.cells[s.rooms[r]].members
  }

  predicate IsListed(s: State, c: ConnectionId, r: RoomId) {
    c in s.connectionRooms && r in s.connectionRooms[c]
  }

  function SetMembers(s: State, cell: nat, members: set<ConnectionId>): State
    requires cell < |s.cells|
  {
    s.(cells := s.cells[cell := s.cells[cell].(members := members)])
  }

  /** `if let Some(room) = rooms.get(r) { room.leave(c) }`. */
  function RemoveMember(s: State, c: ConnectionId, r: RoomId): State {
    if r in s.rooms && s.rooms[r] < |s.cells| then SetMembers(s, s.rooms[r], s.cells[s.rooms[r]].members - {c}) else s
  }

  /** `rooms.remove_if(r, |_, room| room.is_empty())`. */
  function Prune(s: State, r: RoomId): State {
    if r in s.rooms && s.rooms[r] < |s.cells| && s.cells[s.rooms[r]].members == {} then s.(rooms := s.rooms - {r})
    else s
  }

  /** `if let Some(mut rooms) = connection_rooms.get_mut(c) { rooms.remove(r) }`. */
  function Unlist(s: State, c: ConnectionId, r: RoomId): State {
    if c in s.connectionRooms then s.(connectionRooms := s.connectionRooms[c := s.connectionRooms[c] - {r}]) else s
  }

  /** `if let Some(mut rooms) = connection_rooms.get_mut(c) { rooms.insert(r) }`. */
  function List(s: State, c: ConnectionId, r: RoomId): State {
    if c in s.connectionRooms then s.(connectionRooms := s.connectionRooms[c := s.connectionRooms[c] + {r}]) else s
  }

  /** `rooms.entry(r).or_insert_with(..)`. */
  function FileRoom(s: State, r: RoomId): (s': State)
    ensures r in s'.rooms
  {
    if r in s.rooms then s else s.(rooms := s.rooms[r := |s.cells|], cells := s.cells + [Cell(r, {})])
  }

  /** What the operation at `pc` does to the maps. */
  function Effect(s: State, pc: Pc, pick: string): State
    requires CanDo(s, pc, pick)
  {
    match pc
    case RegisterConnection(c) => s.(connections := s.connections + {c})
    case RegisterIndex(c) => s.(connectionRooms := s.connectionRooms[c := {}])
    case JoinCreate(_, r) => FileRoom(s, r)
    case JoinMember(c, _, cell) => SetMembers(s, cell, s.cells[cell].members + {c})
    case JoinIndex(c, r) => List(s, c, r)
    case LeaveMember(c, r) => RemoveMember(s, c, r)
    case LeaveIndex(c, r) => Unlist(s, c, r)
    case LeavePrune(_, r) => Prune(s, r)
    case UnregisterIndex(c) => s.(connectionRooms := s.connectionRooms - {c})
    case UnregisterVisit(c, todo) =>
      if todo != {} then RemoveMember(s, c, pick)
      else s.(connections := s.connections - {c}, gone := if c in s.ever then s.gone + {c} else s.gone)
    case UnregisterPrune(_, r, _) => Prune(s, r)
    case DeleteRemove(r) => s.(rooms := s.rooms - {r})
    case DeleteIndex(r, members) => if members != {} then Unlist(s, pick, r) else s
    case CreateRoom(r) => FileRoom(s, r)
    case JoinCheck(_, _) => s
    case DeleteList(_, _) => s
  }

  /** Where the call goes on, or that it returns. */
  function Onward(s: State, pc: Pc, pick: string): Option<Pc>
    requires CanDo(s, pc, pick)
  {
    match pc
    case RegisterConnection(c) => Some(RegisterIndex(c))
    case JoinCheck(c, r) => if c in s.connections then Some(JoinCreate(c, r)) else None
    case JoinCreate(c, r) => Some(JoinMember(c, r, FileRoom(s, r).rooms[r]))
    case JoinMember(c, r, _) => Some(JoinIndex(c, r))
    case LeaveMember(c, r) => Some(LeaveIndex(c, r))
    case LeaveIndex(c, r) => Some(LeavePrune(c, r))
    case UnregisterIndex(c) => Some(UnregisterVisit(c, if c in s.connectionRooms then s.connectionRooms[c] else {}))
    case UnregisterVisit(c, todo) => if todo != {} then Some(UnregisterPrune(c, pick, todo - {pick})) else None
    case UnregisterPrune(c, _, todo) => Some(UnregisterVisit(c, todo))
    case DeleteRemove(r) => if r in s.rooms then Some(DeleteList(r, s.rooms[r])) else None
    case DeleteList(r, cell) => Some(DeleteIndex(r, s.cells[cell].members))
    case DeleteIndex(r, members) => if members != {} then Some(DeleteIndex(r, members - {pick})) else None
    case _ => None
  }

  function DoStep(s: State, t: ThreadId, pick: string): State
    requires Enabled(s, Do(t, pick))
  {
    var after := Effect(s, s.threads[t], pick);
    match Onward(s, s.threads[t], pick)
    case Some(pc) => Goto(after, t, pc)
    case None => Return(after, t)
  }

  function Apply(s: State, step: Step): State
    requires Enabled(s, step)
  {
    match step
    case Begin(t, pc) => Goto(s, t, pc).(ever := if pc.RegisterConnection? then s.ever + {pc.c} else s.ever)
    case Do(t, pick) => DoStep(s, t, pick)
  }

  ghost predicate Next(s: State, step: Step, s': State) {
    Enabled(s, step) && s' == Apply(s, step)
  }
  // ------------------------------------------------- what every step keeps

  datatype Kind = Registration | Joining | Leaving | Unregistration | Deletion | Creation

  function KindOf(pc: Pc): Kind {
    match pc
    case RegisterConnection(_) => Registration
    case RegisterIndex(_) => Registration
    case JoinCheck(_, _) => Joining
    case JoinCreate(_, _) => Joining
    case JoinMember(_, _, _) => Joining
    case JoinIndex(_, _) => Joining
    case LeaveMember(_, _) => Leaving
    case LeaveIndex(_, _) => Leaving
    case LeavePrune(_, _) => Leaving
    case UnregisterIndex(_) => Unregistration
    case UnregisterVisit(_, _) => Unregistration
    case UnregisterPrune(_, _, _) => Unregistration
    case DeleteRemove(_) => Deletion
    case DeleteList(_, _) => Deletion
    case DeleteIndex(_, _) => Deletion
    case CreateRoom(_) => Creation
  }

  /** Creations and deletions are about a room only. */
  predicate HasConnection(pc: Pc) {
    !KindOf(pc).Deletion? && !KindOf(pc).Creation?
  }

  /** Registrations and unregistrations are about a connection only. */
  predicate HasRoom(pc: Pc) {
    !KindOf(pc).Registration? && !KindOf(pc).Unregistration?
  }

  predicate CallOf(pc: Pc, c: ConnectionId) {
    HasConnection(pc) && pc.c == c
  }

  /** An unregistration past its first operation. */
  predicate Unregistering(pc: Pc) {
    pc.UnregisterVisit? || pc.UnregisterPrune?
  }

  /** The call is going to take the pair out of the room. */
  predicate Removes(pc: Pc, c: ConnectionId, r: RoomId) {
    Unregistering(pc) && pc.c == c && r in pc.todo
  }

  /** The call is deleting the room and is going to unlist the pair. */
  predicate DeletionUnlists(cells: seq<Cell>, pc: Pc, c: ConnectionId, r: RoomId) {
    || (pc.DeleteList? && pc.r == r && pc.cell < |cells| && c in cells[pc.cell].members)
    || (pc.DeleteIndex? && pc.r == r && c in pc.members)
  }

  /** A leaver that is about to unlist the pair has it out of the room. */
  predicate HasLeft(s: State, pc: Pc) {
    pc.LeaveIndex? ==> !IsIn(s, pc.c, pc.r)
  }

  /** No call in flight is about `c`. */
  ghost predicate Idle(s: State, c: ConnectionId) {
    forall t :: t in s.threads ==> !CallOf(s.threads[t], c)
  }

  /** Both directions agree. */
  ghost predicate Agrees(s: State) {
    forall c, r :: IsIn(s, c, r) <==> IsListed(s, c, r)
  }

  ghost predicate InitEmpty(s: State) {
    s == State(map[], [], map[], {}, map[], {}, {})
  }

  ghost predicate InitAgreeing(s: State) {
    WellFormed(s) && s.threads == map[] && Agrees(s)
  }

  /** The thread is at its next operation, or has returned. */
  predicate Moved(before: map<ThreadId, Pc>, after: map<ThreadId, Pc>, t: ThreadId)
    requires t in before
  {
    || after == before - {t}
    || (t in after && after == before[t := after[t]] && SameCall(before[t], after[t]))
  }

  predicate SameCall(pc: Pc, pc': Pc) {
    && KindOf(pc) == KindOf(pc')
    && (HasConnection(pc) ==> pc.c == pc'.c)
    && (HasRoom(pc) ==> pc.r == pc'.r)
  }

  lemma EffectIsOnTheMaps(s: State, pc: Pc, pick: string)
    requires CanDo(s, pc, pick)
    ensures Effect(s, pc, pick).threads == s.threads && Effect(s, pc, pick).ever == s.ever
  {
  }

  lemma OnwardIsTheSameCall(s: State, pc: Pc, pick: string)
    requires CanDo(s, pc, pick)
    ensures Onward(s, pc, pick).Some? ==> SameCall(pc, Onward(s, pc, pick).value)
  {
  }

  /** A step moves one thread, within its own call. */
  lemma DoMovesOneThread(s: State, t: ThreadId, pick: string)
    requires Enabled(s, Do(t, pick))
    ensures Moved(s.threads, DoStep(s, t, pick).threads, t) && DoStep(s, t, pick).ever == s.ever
  {
    EffectIsOnTheMaps(s, s.threads[t], pick);
    OnwardIsTheSameCall(s, s.threads[t], pick);
  }

  /** No cell ever changes its id. */
  lemma EffectKeepsCellIds(s: State, pc: Pc, pick: string)
    requires CanDo(s, pc, pick)
    ensures var s' := Effect(s, pc, pick);
            && |s.cells| <= |s'.cells|
            && (forall i :: 0 <= i < |s.cells| ==> s'.cells[i].id == s.cells[i].id)
  {
  }

  lemma EffectKeepsRoomsFiled(s: State, pc: Pc, pick: string)
    requires CanDo(s, pc, pick) && RoomsFiled(s)
    ensures RoomsFiled(Effect(s, pc, pick))
  {
  }

  lemma OnwardHoldsItsRoom(s: State, pc: Pc, pick: string)
    requires CanDo(s, pc, pick) && RoomsFiled(s) && HoldsItsRoom(s.cells, pc)
    ensures var next := Onward(s, pc, pick); next.Some? ==> HoldsItsRoom(Effect(s, pc, pick).cells, next.value)
  {
  }

  lemma OnwardHasLeft(s: State, pc: Pc, pick: string)
    requires CanDo(s, pc, pick) && RoomsFiled(s)
    ensures var next := Onward(s, pc, pick); next.Some? ==> HasLeft(Effect(s, pc, pick), next.value)
  {
  }

  lemma WellFormedKept(s: State, step: Step, s': State)
    requires WellFormed(s) && Next(s, step, s')
    ensures WellFormed(s')
  {
    if step.Do? {
      var pc := s.threads[step.t];
      DoMovesOneThread(s, step.t, step.pick);
      EffectKeepsCellIds(s, pc, step.pick);
      EffectKeepsRoomsFiled(s, pc, step.pick);
      OnwardHoldsItsRoom(s, pc, step.pick);
    }
  }
}
