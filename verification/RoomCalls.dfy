/** The steps of one call of the room manager, left alone, are the whole call of `RoomIndex`. */
module RoomCalls {
  import opened Connections
  import opened RoomIndex
  import opened RoomSteps

  /** The three maps as `RoomIndex` sees them. */
  function View(s: State): Index {
    Index(Members(s.rooms, s.cells), s.connectionRooms, s.connections)
  }

  function Members(rooms: map<RoomId, nat>, cells: seq<Cell>): map<RoomId, set<ConnectionId>> {
    map r | r in rooms && rooms[r] < |cells| :: cells[rooms[r]].members
  }

  function Phase(pc: Pc): nat {
    match pc
    case RegisterConnection(_) => 1
    case JoinCheck(_, _) => 3
    case JoinCreate(_, _) => 2
    case JoinMember(_, _, _) => 1
    case LeaveMember(_, _) => 2
    case LeaveIndex(_, _) => 1
    case UnregisterIndex(_) => 1
    case DeleteRemove(_) => 2
    case DeleteList(_, _) => 1
    case _ => 0
  }

  function Pending(pc: Pc): nat {
    match pc
    case UnregisterVisit(_, todo) => 2 * |todo|
    case UnregisterPrune(_, _, todo) => 2 * |todo| + 1
    case DeleteIndex(_, members) => |members|
    case _ => 0
  }

  /** Some next element of the set the call iterates over. */
  ghost function Pick(pc: Pc): (pick: string)
    ensures pc.UnregisterVisit? && pc.todo != {} ==> pick in pc.todo
    ensures pc.DeleteIndex? && pc.members != {} ==> pick in pc.members
  {
    if pc.UnregisterVisit? && pc.todo != {} then var x :| x in pc.todo; x
    else if pc.DeleteIndex? && pc.members != {} then var x :| x in pc.members; x
    else ""
  }

  predicate Nearer(pc: Pc, pc': Pc) {
    Phase(pc') < Phase(pc) || (Phase(pc') == Phase(pc) && Pending(pc') < Pending(pc))
  }

  lemma IterationRunsOut(s: State, pc: Pc)
    requires CanDo(s, pc, Pick(pc)) && (Unregistering(pc) || pc.DeleteIndex?)
    ensures var next := Onward(s, pc, Pick(pc)); next.Some? ==> Nearer(pc, next.value)
  {
    if pc.UnregisterVisit? && pc.todo != {} {
      assert |pc.todo - {Pick(pc)}| == |pc.todo| - 1;
    } else if pc.DeleteIndex? && pc.members != {} {
      assert |pc.members - {Pick(pc)}| == |pc.members| - 1;
    }
  }

  /** The call returns or is nearer its end. */
  lemma StepsRunOut(s: State, pc: Pc)
    requires CanDo(s, pc, Pick(pc))
    ensures var next := Onward(s, pc, Pick(pc)); next.Some? ==> Nearer(pc, next.value)
  {
    if Unregistering(pc) || pc.DeleteIndex? {
      IterationRunsOut(s, pc);
    }
  }

  /** Runs one call to its end with nobody else moving. */
  ghost function Finish(s: State, t: ThreadId): State
    requires WellFormed(s)
    decreases if t in s.threads then 1 + Phase(s.threads[t]) else 0, if t in s.threads then Pending(s.threads[t]) else 0
  {
    if t !in s.threads then s
    else
      var pick := Pick(s.threads[t]);
      assert HoldsItsRoom(s.cells, s.threads[t]);
      WellFormedKept(s, Do(t, pick), DoStep(s, t, pick));
      StepsRunOut(s, s.threads[t]);
      Finish(DoStep(s, t, pick), t)
  }

  /** One step of the call, then the rest. */
  lemma FinishStep(s: State, t: ThreadId)
    requires WellFormed(s) && t in s.threads
    ensures var pc := s.threads[t];
            && CanDo(s, pc, Pick(pc))
            && WellFormed(DoStep(s, t, Pick(pc)))
            && Finish(s, t) == Finish(DoStep(s, t, Pick(pc)), t)
  {
    assert HoldsItsRoom(s.cells, s.threads[t]);
    WellFormedKept(s, Do(t, Pick(s.threads[t])), DoStep(s, t, Pick(s.threads[t])));
  }

  function EntryOf(call: Call): Pc {
    match call
    case Register(c) => RegisterConnection(c)
    case Unregister(c) => UnregisterIndex(c)
    case Create(r) => CreateRoom(r)
    case Delete(r) => DeleteRemove(r)
    case Join(c, r) => JoinCheck(c, r)
    case Leave(c, r) => LeaveMember(c, r)
  }

  lemma MembersSet(s: State, r: RoomId, members: set<ConnectionId>)
    requires RoomsFiled(s) && r in s.rooms
    ensures View(SetMembers(s, s.rooms[r], members)).rooms == View(s).rooms[r := members]
  {
  }

  lemma RoomRemoved(s: State, r: RoomId)
    requires RoomsFiled(s)
    ensures View(s.(rooms := s.rooms - {r})).rooms == View(s).rooms - {r}
  {
  }

  lemma RemoveAndPrune(s: State, c: ConnectionId, r: RoomId)
    requires RoomsFiled(s)
    ensures View(Prune(RemoveMember(s, c, r), r)).rooms == LeaveAndPrune(View(s).rooms, c, r)
  {
    if r in s.rooms {
      var s1 := RemoveMember(s, c, r);
      MembersSet(s, r, s.cells[s.rooms[r]].members - {c});
      RoomRemoved(s1, r);
      assert (View(s).rooms - {r}) == View(s).rooms[r := {}] - {r};
    }
  }

  lemma LeaveAllFirst(rooms: map<RoomId, set<ConnectionId>>, c: ConnectionId, todo: set<RoomId>, r: RoomId)
    requires r in todo
    ensures LeaveAll(LeaveAndPrune(rooms, c, r), c, todo - {r}) == LeaveAll(rooms, c, todo)
  {
  }

  /** One round of the loop over the rooms of an unregistration. */
  lemma UninterruptedVisit(s: State, t: ThreadId, c: ConnectionId, r: RoomId, todo: set<RoomId>) returns (s': State)
    requires WellFormed(s) && t in s.threads && s.threads[t] == UnregisterVisit(c, todo) && todo != {}
    requires r == Pick(s.threads[t])
    ensures WellFormed(s') && t in s'.threads && s'.threads[t] == UnregisterVisit(c, todo - {r})
    ensures Finish(s, t) == Finish(s', t)
    ensures View(s') == View(s).(rooms := LeaveAndPrune(View(s).rooms, c, r))
  {
    var s1 := Goto(RemoveMember(s, c, r), t, UnregisterPrune(c, r, todo - {r}));
    FinishStep(s, t);
    FinishStep(s1, t);
    RemoveAndPrune(s, c, r);
    s' := Goto(Prune(s1, r), t, UnregisterVisit(c, todo - {r}));
    assert View(s').rooms == View(Prune(RemoveMember(s, c, r), r)).rooms;
  }

  lemma {:induction false} UninterruptedVisits(s: State, t: ThreadId, c: ConnectionId, todo: set<RoomId>)
    requires WellFormed(s) && t in s.threads && s.threads[t] == UnregisterVisit(c, todo)
    ensures View(Finish(s, t)) ==
            Index(LeaveAll(View(s).rooms, c, todo), s.connectionRooms, s.connections - {c})
    decreases |todo|
  {
    if todo == {} {
      FinishStep(s, t);
      assert LeaveAll(View(s).rooms, c, todo) == View(s).rooms;
    } else {
      var pick := Pick(s.threads[t]);
      var s' := UninterruptedVisit(s, t, c, pick, todo);
      UninterruptedVisits(s', t, c, todo - {pick});
      LeaveAllFirst(View(s).rooms, c, todo, pick);
    }
  }

  function UnlistAll(listed: map<ConnectionId, set<RoomId>>, r: RoomId, members: set<ConnectionId>)
    : map<ConnectionId, set<RoomId>>
  {
    map c | c in listed :: if c in members then listed[c] - {r} else listed[c]
  }

  lemma UnlistAllFirst(s: State, r: RoomId, members: set<ConnectionId>, c: ConnectionId)
    requires c in members
    ensures UnlistAll(Unlist(s, c, r).connectionRooms, r, members - {c}) == UnlistAll(s.connectionRooms, r, members)
    ensures View(Unlist(s, c, r)).rooms == View(s).rooms
  {
  }

  lemma {:induction false} UninterruptedUnlisting(s: State, t: ThreadId, r: RoomId, members: set<ConnectionId>)
    requires WellFormed(s) && t in s.threads && s.threads[t] == DeleteIndex(r, members)
    ensures View(Finish(s, t)) == View(s).(connectionRooms := UnlistAll(s.connectionRooms, r, members))
    decreases |members|
  {
    FinishStep(s, t);
    var pick := Pick(s.threads[t]);
    if members == {} {
      assert UnlistAll(s.connectionRooms, r, members) == s.connectionRooms;
    } else {
      UnlistAllFirst(s, r, members, pick);
      var s1 := Goto(Unlist(s, pick, r), t, DeleteIndex(r, members - {pick}));
      UninterruptedUnlisting(s1, t, r, members - {pick});
      assert View(s1) == View(Unlist(s, pick, r));
    }
  }

  /** Left alone, the steps of each call amount to the whole call of `RoomIndex`. */
  lemma UninterruptedCalls(s: State, t: ThreadId, call: Call)
    requires WellFormed(s) && t !in s.threads
    ensures WellFormed(Goto(s, t, EntryOf(call)))
    ensures View(Finish(Goto(s, t, EntryOf(call)), t)) == RoomIndex.Apply(View(s), call)
  {
    var s0 := Goto(s, t, EntryOf(call));
    match call
    case Register(c) => UninterruptedRegister(s0, t, c);
    case Unregister(c) => UninterruptedUnregister(s0, t, c);
    case Create(r) => UninterruptedCreate(s0, t, r);
    case Delete(r) => UninterruptedDelete(s0, t, r);
    case Join(c, r) => UninterruptedJoin(s0, t, c, r);
    case Leave(c, r) => UninterruptedLeave(s0, t, c, r);
  }

  lemma FiledRoom(s: State, r: RoomId)
    requires RoomsFiled(s)
    ensures View(FileRoom(s, r)) == AfterCreate(View(s), r)
  {
  }

  lemma UninterruptedRegister(s: State, t: ThreadId, c: ConnectionId)
    requires WellFormed(s) && t in s.threads && s.threads[t] == RegisterConnection(c)
    ensures View(Finish(s, t)) == AfterRegister(View(s), c)
  {
    var s1 := Goto(s.(connections := s.connections + {c}), t, RegisterIndex(c));
    FinishStep(s, t);
    FinishStep(s1, t);
  }

  lemma UninterruptedCreate(s: State, t: ThreadId, r: RoomId)
    requires WellFormed(s) && t in s.threads && s.threads[t] == CreateRoom(r)
    ensures View(Finish(s, t)) == AfterCreate(View(s), r)
  {
    FinishStep(s, t);
    FiledRoom(s, r);
  }

  lemma UninterruptedUnregister(s: State, t: ThreadId, c: ConnectionId)
    requires WellFormed(s) && t in s.threads && s.threads[t] == UnregisterIndex(c)
    ensures View(Finish(s, t)) == AfterUnregister(View(s), c)
  {
    FinishStep(s, t);
    var todo := if c in s.connectionRooms then s.connectionRooms[c] else {};
    var s1 := Goto(s.(connectionRooms := s.connectionRooms - {c}), t, UnregisterVisit(c, todo));
    UninterruptedVisits(s1, t, c, todo);
    assert View(s1).rooms == View(s).rooms;
  }

  lemma UninterruptedDelete(s: State, t: ThreadId, r: RoomId)
    requires WellFormed(s) && t in s.threads && s.threads[t] == DeleteRemove(r)
    ensures View(Finish(s, t)) == AfterDelete(View(s), r)
  {
    FinishStep(s, t);
    RoomRemoved(s, r);
    if r in s.rooms {
      var s1 := Goto(s.(rooms := s.rooms - {r}), t, DeleteList(r, s.rooms[r]));
      FinishStep(s1, t);
      UninterruptedUnlisting(DoStep(s1, t, ""), t, r, View(s).rooms[r]);
      assert View(DoStep(s1, t, "")) == View(s1) == View(s).(rooms := View(s).rooms - {r});
    }
  }

  /** A join that holds the room on file. */
  lemma UninterruptedAdd(s: State, t: ThreadId, c: ConnectionId, r: RoomId)
    requires WellFormed(s) && t in s.threads && r in s.rooms && s.threads[t] == JoinMember(c, r, s.rooms[r])
    ensures View(Finish(s, t)) ==
            Index(View(s).rooms[r := View(s).rooms[r] + {c}], List(s, c, r).connectionRooms, s.connections)
  {
    var s1 := SetMembers(s, s.rooms[r], s.cells[s.rooms[r]].members + {c});
    FinishStep(s, t);
    MembersSet(s, r, s.cells[s.rooms[r]].members + {c});
    FinishStep(Goto(s1, t, JoinIndex(c, r)), t);
    assert View(List(s1, c, r)).rooms == View(s1).rooms;
  }

  lemma CreateThenAdd(ix: Index, c: ConnectionId, r: RoomId)
    requires c in ix.connections
    ensures AfterJoin(ix, c, r).rooms == AfterCreate(ix, r).rooms[r := AfterCreate(ix, r).rooms[r] + {c}]
  {
  }

  /** A join past its check. */
  lemma UninterruptedCreateAndAdd(s: State, t: ThreadId, c: ConnectionId, r: RoomId)
    requires WellFormed(s) && t in s.threads && s.threads[t] == JoinCreate(c, r)
    ensures View(Finish(s, t)) ==
            Index(AfterCreate(View(s), r).rooms[r := AfterCreate(View(s), r).rooms[r] + {c}],
                  List(s, c, r).connectionRooms, s.connections)
  {
    FinishStep(s, t);
    FiledRoom(s, r);
    var s1 := Goto(FileRoom(s, r), t, JoinMember(c, r, FileRoom(s, r).rooms[r]));
    UninterruptedAdd(s1, t, c, r);
    assert View(s1) == AfterCreate(View(s), r);
  }

  lemma UninterruptedJoin(s: State, t: ThreadId, c: ConnectionId, r: RoomId)
    requires WellFormed(s) && t in s.threads && s.threads[t] == JoinCheck(c, r)
    ensures View(Finish(s, t)) == AfterJoin(View(s), c, r)
  {
    FinishStep(s, t);
    if c in s.connections {
      UninterruptedCreateAndAdd(Goto(s, t, JoinCreate(c, r)), t, c, r);
      CreateThenAdd(View(s), c, r);
    }
  }

  /** The rest of a leave once the member is out. */
  lemma UninterruptedUnlist(s: State, t: ThreadId, c: ConnectionId, r: RoomId)
    requires WellFormed(s) && t in s.threads && s.threads[t] == LeaveIndex(c, r)
    ensures View(Finish(s, t)) == View(Prune(s, r)).(connectionRooms := Unlist(s, c, r).connectionRooms)
  {
    FinishStep(s, t);
    FinishStep(Goto(Unlist(s, c, r), t, LeavePrune(c, r)), t);
  }

  lemma UninterruptedLeave(s: State, t: ThreadId, c: ConnectionId, r: RoomId)
    requires WellFormed(s) && t in s.threads && s.threads[t] == LeaveMember(c, r)
    ensures View(Finish(s, t)) == AfterLeave(View(s), c, r)
  {
    var s1 := RemoveMember(s, c, r);
    FinishStep(s, t);
    UninterruptedUnlist(Goto(s1, t, LeaveIndex(c, r)), t, c, r);
    RemoveAndPrune(s, c, r);
  }
}
