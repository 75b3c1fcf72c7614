/**
 What each whole call of src/room.rs does to the three maps, and the single relation between
 connections and rooms those maps stand for.
 */
module RoomIndex {
  import opened Connections

  type RoomId = string

  type Memberships = map<RoomId, set<ConnectionId>>

  /** `rooms`: room to members; `connectionRooms`: connection to rooms; `connections`: the registered ids. */
  datatype Index = Index(
    rooms: Memberships,
    connectionRooms: map<ConnectionId, set<RoomId>>,
    connections: set<ConnectionId>)

  const EMPTY := Index(map[], map[], {})

  /** A connection leaves a room, and the room goes if that left it empty. */
  function LeaveAndPrune(rooms: Memberships, c: ConnectionId, r: RoomId): Memberships {
    if r !in rooms then rooms
    else if rooms[r] - {c} == {} then rooms - {r}
    else rooms[r := rooms[r] - {c}]
  }

  function AfterRegister(ix: Index, c: ConnectionId): Index {
    ix.(connections := ix.connections + {c}, connectionRooms := ix.connectionRooms[c := {}])
  }

  /** A connection leaves every room of `left`, and those it leaves empty go. */
  function LeaveAll(rooms: Memberships, c: ConnectionId, left: set<RoomId>): Memberships {
    map r | r in rooms && (r in left ==> rooms[r] - {c} != {}) :: if r in left then rooms[r] - {c} else rooms[r]
  }

  lemma NobodyLeaves(rooms: Memberships, c: ConnectionId)
    ensures LeaveAll(rooms, c, {}) == rooms
  {
  }

  lemma LeaveAllNext(rooms: Memberships, c: ConnectionId, left: set<RoomId>, r: RoomId)
    requires r !in left
    ensures LeaveAll(rooms, c, left + {r}) == LeaveAndPrune(LeaveAll(rooms, c, left), c, r)
  {
  }

  function AfterUnregister(ix: Index, c: ConnectionId): Index {
    Index(
      LeaveAll(ix.rooms, c, if c in ix.connectionRooms then ix.connectionRooms[c] else {}),
      ix.connectionRooms - {c},
      ix.connections - {c})
  }

  function AfterCreate(ix: Index, r: RoomId): Index {
    if r in ix.rooms then ix else ix.(rooms := ix.rooms[r := {}])
  }

  function AfterDelete(ix: Index, r: RoomId): Index {
    if r !in ix.rooms then ix
    else
      ix.(rooms := ix.rooms - {r},
      connectionRooms := map c | c in ix.connectionRooms ::
        if c in ix.rooms[r] then ix.connectionRooms[c] - {r} else ix.connectionRooms[c])
  }

  function AfterJoin(ix: Index, c: ConnectionId, r: RoomId): Index {
    if c !in ix.connections then ix
    else
      ix.(rooms := ix.rooms[r := (if r in ix.rooms then ix.rooms[r] else {}) + {c}],
      connectionRooms :=
        if c in ix.connectionRooms then ix.connectionRooms[c := ix.connectionRooms[c] + {r}] else ix.connectionRooms)
  }

  function AfterLeave(ix: Index, c: ConnectionId, r: RoomId): Index {
    ix.(rooms := LeaveAndPrune(ix.rooms, c, r),
    connectionRooms :=
      if c in ix.connectionRooms then ix.connectionRooms[c := ix.connectionRooms[c] - {r}] else ix.connectionRooms)
  }

  // ------------------------------------------------------ the relation they keep

  predicate IsMember(ix: Index, c: ConnectionId, r: RoomId) {
    r in ix.rooms && c in ix.rooms[r]
  }

  predicate IsIndexed(ix: Index, c: ConnectionId, r: RoomId) {
    c in ix.connectionRooms && r in ix.connectionRooms[c]
  }

  /** The two directions of the index agree, over the registered connections only. */
  ghost predicate Exact(ix: Index) {
    && ix.connectionRooms.Keys == ix.connections
    && forall c, r :: IsMember(ix, c, r) <==> IsIndexed(ix, c, r)
  }

  predicate NoEmptyRoom(ix: Index) {
    forall r :: r in ix.rooms ==> ix.rooms[r] != {}
  }

  /** The abstract state: who is registered, and who is in which room. */
  datatype Relation = Relation(connections: set<ConnectionId>, pairs: set<(ConnectionId, RoomId)>)

  ghost function Abstraction(ix: Index): Relation {
    Relation(ix.connections, set r, c | r in ix.rooms && c in ix.rooms[r] :: (c, r))
  }

  datatype Call =
    | Register(c: ConnectionId)
    | Unregister(c: ConnectionId)
    | Create(r: RoomId)
    | Delete(r: RoomId)
    | Join(c: ConnectionId, r: RoomId)
    | Leave(c: ConnectionId, r: RoomId)

  function Apply(ix: Index, call: Call): Index {
    match call
    case Register(c) => AfterRegister(ix, c)
    case Unregister(c) => AfterUnregister(ix, c)
    case Create(r) => AfterCreate(ix, r)
    case Delete(r) => AfterDelete(ix, r)
    case Join(c, r) => AfterJoin(ix, c, r)
    case Leave(c, r) => AfterLeave(ix, c, r)
  }

  /** The same calls on the relation: join adds a pair, leave removes one, unregister a row, delete a column. */
  function ApplyRelation(rel: Relation, call: Call): Relation {
    match call
    case Register(c) => rel.(connections := rel.connections + {c})
    case Unregister(c) => Relation(rel.connections - {c}, set p | p in rel.pairs && p.0 != c)
    case Create(_) => rel
    case Delete(r) => rel.(pairs := set p | p in rel.pairs && p.1 != r)
    case Join(c, r) => if c in rel.connections then rel.(pairs := rel.pairs + {(c, r)}) else rel
    case Leave(c, r) => rel.(pairs := rel.pairs - {(c, r)})
  }

  lemma MembershipAfter(ix: Index, call: Call, c: ConnectionId, r: RoomId)
    requires Exact(ix) && (call.Register? ==> call.c !in ix.connections)
    ensures IsMember(Apply(ix, call), c, r) <==>
              match call
              case Register(_) => IsMember(ix, c, r)
              case Unregister(d) => IsMember(ix, c, r) && c != d
              case Create(_) => IsMember(ix, c, r)
              case Delete(s) => IsMember(ix, c, r) && r != s
              case Join(d, s) => IsMember(ix, c, r) || (c == d && r == s && c in ix.connections)
              case Leave(d, s) => IsMember(ix, c, r) && !(c == d && r == s)
    ensures IsIndexed(Apply(ix, call), c, r) <==> IsMember(Apply(ix, call), c, r)
  {
    assert IsMember(ix, c, r) <==> IsIndexed(ix, c, r);
    match call
    case Unregister(d) => assert IsMember(ix, c, r) && c != d ==> c in ix.rooms[r] - {d};
    case Leave(d, s) => assert IsMember(ix, c, r) && c != d ==> c in ix.rooms[r] - {d};
    case _ =>
  }

  /** Each call keeps the two directions in agreement and does to the relation what it should. */
  lemma CallRefines(ix: Index, call: Call)
    requires Exact(ix) && (call.Register? ==> call.c !in ix.connections)
    ensures Exact(Apply(ix, call))
    ensures Abstraction(Apply(ix, call)) == ApplyRelation(Abstraction(ix), call)
    ensures NoEmptyRoom(ix) && !call.Create? ==> NoEmptyRoom(Apply(ix, call))
  {
    var ix' := Apply(ix, call);
    forall c, r
      ensures IsMember(ix', c, r) <==> IsIndexed(ix', c, r)
    {
      MembershipAfter(ix, call, c, r);
    }
    var rel, rel' := Abstraction(ix), ApplyRelation(Abstraction(ix), call);
    forall c, r
      ensures (c, r) in Abstraction(ix').pairs <==> (c, r) in rel'.pairs
    {
      MembershipAfter(ix, call, c, r);
      assert (c, r) in rel.pairs <==> IsMember(ix, c, r);
      assert (c, r) in Abstraction(ix').pairs <==> IsMember(ix', c, r);
    }
    assert forall p :: p in Abstraction(ix').pairs <==> p in rel'.pairs by {
      forall p: (ConnectionId, RoomId)
        ensures p in Abstraction(ix').pairs <==> p in rel'.pairs
      {
        assert p == (p.0, p.1);
      }
    }
  }

  function Run(ix: Index, calls: seq<Call>): Index {
    if calls == [] then ix else Apply(Run(ix, calls[..|calls| - 1]), calls[|calls| - 1])
  }

  function RunRelation(rel: Relation, calls: seq<Call>): Relation {
    if calls == [] then rel else ApplyRelation(RunRelation(rel, calls[..|calls| - 1]), calls[|calls| - 1])
  }

  lemma RunNext(ix: Index, rel: Relation, calls: seq<Call>, call: Call)
    ensures Run(ix, calls + [call]) == Apply(Run(ix, calls), call)
    ensures RunRelation(rel, calls + [call]) == ApplyRelation(RunRelation(rel, calls), call)
  {
    assert (calls + [call])[..|calls|] == calls;
  }

  lemma {:induction false} RunAppend(ix: Index, first: seq<Call>, second: seq<Call>)
    ensures Run(ix, first + second) == Run(Run(ix, first), second)
  {
    if second == [] {
      assert first + second == first;
    } else {
      var n := |second| - 1;
      assert first + second == first + second[..n] + [second[n]];
      RunNext(ix, Abstraction(ix), first + second[..n], second[n]);
      RunAppend(ix, first, second[..n]);
    }
  }

  /** No id is registered while it is registered already. */
  predicate FreshIds(rel: Relation, calls: seq<Call>) {
    calls == []
    || (var n := |calls| - 1;
        FreshIds(rel, calls[..n]) && (calls[n].Register? ==> calls[n].c !in RunRelation(rel, calls[..n]).connections))
  }

  /** From any exact index and over every sequence of calls the three maps are one set of pairs. */
  lemma {:induction false} ManagerRefinesRelation(ix: Index, calls: seq<Call>)
    requires Exact(ix) && FreshIds(Abstraction(ix), calls)
    ensures Exact(Run(ix, calls))
    ensures Abstraction(Run(ix, calls)) == RunRelation(Abstraction(ix), calls)
  {
    if calls != [] {
      var n := |calls| - 1;
      ManagerRefinesRelation(ix, calls[..n]);
      CallRefines(Run(ix, calls[..n]), calls[n]);
    }
  }

  lemma {:induction false} NoRoomIsLeftEmpty(ix: Index, calls: seq<Call>)
    requires Exact(ix) && FreshIds(Abstraction(ix), calls)
    requires NoEmptyRoom(ix) && forall call :: call in calls ==> !call.Create?
    ensures NoEmptyRoom(Run(ix, calls))
  {
    if calls != [] {
      var n := |calls| - 1;
      assert calls[n] in calls && forall call :: call in calls[..n] ==> call in calls;
      NoRoomIsLeftEmpty(ix, calls[..n]);
      ManagerRefinesRelation(ix, calls[..n]);
      CallRefines(Run(ix, calls[..n]), calls[n]);
    }
  }

  /** Unless a room was created directly, a room exists exactly while it has a member. */
  lemma RoomsAreThoseWithMembers(ix: Index, calls: seq<Call>, r: RoomId)
    requires Exact(ix) && FreshIds(Abstraction(ix), calls)
    requires NoEmptyRoom(ix) && forall call :: call in calls ==> !call.Create?
    ensures r in Run(ix, calls).rooms <==> exists c :: (c, r) in RunRelation(Abstraction(ix), calls).pairs
  {
    ManagerRefinesRelation(ix, calls);
    NoRoomIsLeftEmpty(ix, calls);
    var pairs := Abstraction(Run(ix, calls)).pairs;
    assert forall c :: (c, r) in pairs <==> IsMember(Run(ix, calls), c, r);
    if r in Run(ix, calls).rooms {
      var c :| c in Run(ix, calls).rooms[r];
      assert IsMember(Run(ix, calls), c, r);
    }
  }

  /**
   Registering an id again resets its room set, so the index stays exact precisely when the id was
   new or in no room.
   */
  lemma ReRegisteringIsExactIff(ix: Index, c: ConnectionId)
    requires Exact(ix)
    ensures Exact(AfterRegister(ix, c)) <==> c !in ix.connections || ix.connectionRooms[c] == {}
  {
    var ix' := AfterRegister(ix, c);
    if c in ix.connections && ix.connectionRooms[c] != {} {
      var r :| r in ix.connectionRooms[c];
      assert IsIndexed(ix, c, r);
      assert IsMember(ix', c, r) && !IsIndexed(ix', c, r);
    } else {
      forall d, r
        ensures IsMember(ix', d, r) <==> IsIndexed(ix', d, r)
      {
        assert IsMember(ix, d, r) <==> IsIndexed(ix, d, r);
      }
    }
  }

  lemma RegisteredTwice()
    ensures !Exact(AfterRegister(AfterJoin(AfterRegister(EMPTY, "c"), "c", "r"), "c"))
  {
    var ix := AfterRegister(AfterJoin(AfterRegister(EMPTY, "c"), "c", "r"), "c");
    assert ix.rooms["r"] == {"c"} && ix.connectionRooms["c"] == {};
    assert IsMember(ix, "c", "r") && !IsIndexed(ix, "c", "r");
  }

  lemma RunThree(ix: Index, a: Call, b: Call, c: Call)
    ensures Run(ix, [a, b, c]) == Apply(Apply(Apply(ix, a), b), c)
  {
    var rel := Relation({}, {});
    RunNext(ix, rel, [], a);
    RunNext(ix, rel, [a], b);
    RunNext(ix, rel, [a, b], c);
    assert [] + [a] == [a] && [a] + [b] == [a, b] && [a, b] + [c] == [a, b, c];
  }

  /** An id registered, put in a room and registered again is in the room without the index saying so. */
  lemma ReRegisteringBreaksTheIndex()
    ensures !Exact(Run(EMPTY, [Register("c"), Join("c", "r"), Register("c")]))
  {
    RunThree(EMPTY, Register("c"), Join("c", "r"), Register("c"));
    RegisteredTwice();
  }
}
