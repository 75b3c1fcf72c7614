/**
 What the calls of the room manager do to each other when they overlap: runs that end with all calls
 returned and the index wrong. For every overlap that `RoomGhosts` rules out there is one.
 */
module RoomRaces {
  import opened Connections
  import opened RoomIndex
  import opened Runs
  import opened RoomSteps
  import opened RoomJoins

  // ------------------------------------------------------------- joins that miss, as runs

  /** An exact index: `a` is the only member of the only room, `b` is registered and in none. */
  const LONELY_ROOM :=
    State(map["r" := 0], [Cell("r", {"a"})], map["a" := {"r"}, "b" := {}], {"a", "b"}, map[], {"a", "b"}, {})

  /** A join that nobody disturbs until it holds its room. */
  lemma JoinGetsHold(s0: State, c: ConnectionId, r: RoomId) returns (states: seq<State>, steps: seq<Step>)
    requires InitAgreeing(s0) && c in s0.connections
    ensures IsRun(InitAgreeing, Next, states, steps) && |steps| == 3
    ensures states[3] == Goto(FileRoom(s0, r), 1, JoinMember(c, r, FileRoom(s0, r).rooms[r]))
  {
    var s1 := Goto(s0, 1, JoinCheck(c, r));
    var s2 := Goto(s1, 1, JoinCreate(c, r));
    var s3 := Goto(FileRoom(s2, r), 1, JoinMember(c, r, FileRoom(s2, r).rooms[r]));
    states, steps := [s0], [];
    states, steps := Extend(InitAgreeing, Next, states, steps, Begin(1, JoinCheck(c, r)), s1);
    states, steps := Extend(InitAgreeing, Next, states, steps, Do(1, ""), s2);
    states, steps := Extend(InitAgreeing, Next, states, steps, Do(1, ""), s3);
    assert s3.threads == map[1 := s3.threads[1]] == s0.threads[1 := s3.threads[1]];
  }

  /** First half of the run below: `b` gets hold of the room while `a` is still in it; then `a` begins to leave. */
  lemma JoinerHoldsTheRoom() returns (states: seq<State>, steps: seq<Step>)
    ensures IsRun(InitAgreeing, Next, states, steps) && |steps| == 4
    ensures states[4] == LONELY_ROOM.(threads := map[1 := JoinMember("b", "r", 0), 2 := LeaveMember("a", "r")])
  {
    states, steps := JoinGetsHold(LONELY_ROOM, "b", "r");
    var s4 := Goto(states[3], 2, LeaveMember("a", "r"));
    states, steps := Extend(InitAgreeing, Next, states, steps, Begin(2, LeaveMember("a", "r")), s4);
    assert s4.threads == map[1 := JoinMember("b", "r", 0), 2 := LeaveMember("a", "r")];
  }

  /** Second half: `a` leaves, and the room goes with it. */
  lemma LastMemberLeaves() returns (states: seq<State>, steps: seq<Step>)
    ensures IsRun(InitAgreeing, Next, states, steps) && |steps| == 7
    ensures WellFormed(states[7]) && states[7].rooms == map[] && states[7].threads == map[1 := JoinMember("b", "r", 0)]
    ensures "b" in states[7].connectionRooms
  {
    states, steps := JoinerHoldsTheRoom();
    var s4 := states[4];
    var s5 := Goto(RemoveMember(s4, "a", "r"), 2, LeaveIndex("a", "r"));
    var s6 := Goto(Unlist(s5, "a", "r"), 2, LeavePrune("a", "r"));
    var s7 := Return(Prune(s6, "r"), 2);
    states, steps := Extend(InitAgreeing, Next, states, steps, Do(2, ""), s5);
    states, steps := Extend(InitAgreeing, Next, states, steps, Do(2, ""), s6);
    states, steps := Extend(InitAgreeing, Next, states, steps, Do(2, ""), s7);
    assert s6.cells[0].members == {};
    assert s7.rooms == map[] && s7.threads == map[1 := JoinMember("b", "r", 0)];
  }

  /** A join that misses: all calls have returned, and `b` is listed for a room that is gone. */
  lemma JoinCanMissItsRoom() returns (states: seq<State>, steps: seq<Step>)
    ensures IsRun(InitAgreeing, Next, states, steps) && |steps| == 9
    ensures states[9].threads == map[] && IsListed(states[9], "b", "r") && !IsIn(states[9], "b", "r")
  {
    states, steps := LastMemberLeaves();
    var s7 := states[7];
    var s8 := DoStep(s7, 1, "");
    var s9 := DoStep(s8, 1, "");
    states, steps := Extend(InitAgreeing, Next, states, steps, Do(1, ""), s8);
    states, steps := Extend(InitAgreeing, Next, states, steps, Do(1, ""), s9);
    assert s9.threads == map[];
  }

  // ------------------------------------------------------------- a deletion beside a join

  /** `b` is registered and in no room; its join has the room on file and has added its member. */
  lemma JoinLands() returns (states: seq<State>, steps: seq<Step>)
    ensures IsRun(InitAgreeing, Next, states, steps) && |steps| == 4
    ensures states[4] == State(map["r" := 0], [Cell("r", {"b"})], map["b" := {}], {"b"},
                               map[1 := JoinIndex("b", "r")], {"b"}, {})
    ensures AddsTo(states[3], steps[3], "b", "r") && Lands(states[3], steps[3], "b", "r")
  {
    states, steps := JoinGetsHold(State(map[], [], map["b" := {}], {"b"}, map[], {"b"}, {}), "b", "r");
    var s4 := Goto(SetMembers(states[3], 0, {} + {"b"}), 1, JoinIndex("b", "r"));
    states, steps := Extend(InitAgreeing, Next, states, steps, Do(1, ""), s4);
    assert s4.cells[0].members == {"b"};
    assert s4.threads == map[1 := JoinIndex("b", "r")] && s4.cells == [Cell("r", {"b"})];
  }

  lemma DeletionOvertakesTheListing() returns (states: seq<State>, steps: seq<Step>)
    ensures IsRun(InitAgreeing, Next, states, steps) && |steps| == 7 && Lands(states[3], steps[3], "b", "r")
    ensures states[7].rooms == map[] && states[7].connectionRooms == map["b" := {}]
    ensures states[7].threads == map[1 := JoinIndex("b", "r"), 2 := DeleteIndex("r", {"b"})]
  {
    states, steps := JoinLands();
    var s4 := states[4];
    var s5 := Goto(s4, 2, DeleteRemove("r"));
    var s6 := Goto(s5.(rooms := s5.rooms - {"r"}), 2, DeleteList("r", 0));
    var s7 := Goto(s6, 2, DeleteIndex("r", {"b"}));
    states, steps := Extend(InitAgreeing, Next, states, steps, Begin(2, DeleteRemove("r")), s5);
    states, steps := Extend(InitAgreeing, Next, states, steps, Do(2, ""), s6);
    states, steps := Extend(InitAgreeing, Next, states, steps, Do(2, ""), s7);
    assert s7.threads == map[1 := JoinIndex("b", "r"), 2 := DeleteIndex("r", {"b"})];
  }

  /**
   A join lands, its room is deleted before it lists the pair, and in the end all calls have returned and
   `b` is listed for a room that is gone.
   */
  lemma DeletionUndoesALandedJoin() returns (states: seq<State>, steps: seq<Step>)
    ensures IsRun(InitAgreeing, Next, states, steps) && |steps| == 10 && Lands(states[3], steps[3], "b", "r")
    ensures states[10].threads == map[] && IsListed(states[10], "b", "r") && !IsIn(states[10], "b", "r")
  {
    states, steps := DeletionOvertakesTheListing();
    var s7 := states[7];
    var s8 := Goto(Unlist(s7, "b", "r"), 2, DeleteIndex("r", {}));
    var s9 := Return(s8, 2);
    var s10 := Return(List(s9, "b", "r"), 1);
    assert {"b"} - {"b"} == {};
    states, steps := Extend(InitAgreeing, Next, states, steps, Do(2, "b"), s8);
    states, steps := Extend(InitAgreeing, Next, states, steps, Do(2, ""), s9);
    states, steps := Extend(InitAgreeing, Next, states, steps, Do(1, ""), s10);
    assert s10.threads == map[];
  }

  // ------------------------------------------------------- a join beside an unregistration

  /** `c` is registered and in no room, and there is none. */
  const REGISTERED := State(map[], [], map["c" := {}], {"c"}, map[], {"c"}, {})

  /** `c` has passed the check of a join when its unregister begins. */
  lemma UnregisterOvertakesJoin() returns (states: seq<State>, steps: seq<Step>)
    ensures IsRun(InitAgreeing, Next, states, steps) && |steps| == 3
    ensures states[3] == State(map[], [], map["c" := {}], {"c"},
                               map[1 := JoinCreate("c", "r"), 2 := UnregisterIndex("c")], {"c"}, {})
  {
    var s1 := Goto(REGISTERED, 1, JoinCheck("c", "r"));
    var s2 := Goto(s1, 1, JoinCreate("c", "r"));
    var s3 := Goto(s2, 2, UnregisterIndex("c"));
    states, steps := [REGISTERED], [];
    states, steps := Extend(InitAgreeing, Next, states, steps, Begin(1, JoinCheck("c", "r")), s1);
    states, steps := Extend(InitAgreeing, Next, states, steps, Do(1, ""), s2);
    states, steps := Extend(InitAgreeing, Next, states, steps, Begin(2, UnregisterIndex("c")), s3);
    assert s3.threads == map[1 := JoinCreate("c", "r"), 2 := UnregisterIndex("c")];
  }

  lemma UnregisteredMidJoin() returns (states: seq<State>, steps: seq<Step>)
    ensures IsRun(InitAgreeing, Next, states, steps) && |steps| == 5
    ensures states[5] == State(map[], [], map[], {}, map[1 := JoinCreate("c", "r")], {"c"}, {"c"})
  {
    states, steps := UnregisterOvertakesJoin();
    var s3 := states[3];
    var s4 := Goto(s3.(connectionRooms := s3.connectionRooms - {"c"}), 2, UnregisterVisit("c", {}));
    var s5 := Return(s4.(connections := s4.connections - {"c"}, gone := s4.gone + {"c"}), 2);
    states, steps := Extend(InitAgreeing, Next, states, steps, Do(2, ""), s4);
    states, steps := Extend(InitAgreeing, Next, states, steps, Do(2, ""), s5);
    assert s5.threads == map[1 := JoinCreate("c", "r")] && s5.connectionRooms == map[];
    assert s5.connections == {} && s5.gone == {"c"};
  }

  /** A join beside the unregistration of its connection leaves a ghost. */
  lemma RacingCallsLeaveAGhost() returns (states: seq<State>, steps: seq<Step>)
    ensures IsRun(InitAgreeing, Next, states, steps) && |steps| == 8
    ensures states[8].threads == map[] && "c" in states[8].gone && IsIn(states[8], "c", "r")
  {
    states, steps := UnregisteredMidJoin();
    var s5 := states[5];
    var s6 := Goto(FileRoom(s5, "r"), 1, JoinMember("c", "r", 0));
    var s7 := Goto(SetMembers(s6, 0, s6.cells[0].members + {"c"}), 1, JoinIndex("c", "r"));
    var s8 := Return(List(s7, "c", "r"), 1);
    states, steps := Extend(InitAgreeing, Next, states, steps, Do(1, ""), s6);
    states, steps := Extend(InitAgreeing, Next, states, steps, Do(1, ""), s7);
    states, steps := Extend(InitAgreeing, Next, states, steps, Do(1, ""), s8);
    assert s8.threads == map[];
  }

  // -------------------------------------------- members nobody lists, who then become ghosts

  /** A member of a room that is not listed for any is left there by its unregistration. */
  lemma UnlistedMemberBecomesAGhost(before: seq<State>, taken: seq<Step>)
    returns (states: seq<State>, steps: seq<Step>)
    requires IsRun(InitAgreeing, Next, before, taken)
    requires var s := before[|taken|];
             s.threads == map[] && s.connectionRooms == map["c" := {}] && "c" in s.ever && IsIn(s, "c", "r")
    ensures IsRun(InitAgreeing, Next, states, steps) && |steps| == |taken| + 3 && before <= states
    ensures var s := states[|steps|]; s.threads == map[] && "c" in s.gone && IsIn(s, "c", "r")
  {
    var s0 := before[|taken|];
    var s1 := Goto(s0, 3, UnregisterIndex("c"));
    var s2 := Goto(s1.(connectionRooms := s1.connectionRooms - {"c"}), 3, UnregisterVisit("c", {}));
    var s3 := Return(s2.(connections := s2.connections - {"c"}, gone := s2.gone + {"c"}), 3);
    states, steps := Extend(InitAgreeing, Next, before, taken, Begin(3, UnregisterIndex("c")), s1);
    states, steps := Extend(InitAgreeing, Next, states, steps, Do(3, ""), s2);
    states, steps := Extend(InitAgreeing, Next, states, steps, Do(3, ""), s3);
    assert s3.threads == map[];
  }

  /** `c` leaves the room it is about to enter. */
  lemma LeaveBeforeTheInsert() returns (states: seq<State>, steps: seq<Step>)
    ensures IsRun(InitAgreeing, Next, states, steps) && |steps| == 5
    ensures states[5] == State(map["r" := 0], [Cell("r", {})], map["c" := {}], {"c"},
                               map[1 := JoinMember("c", "r", 0), 2 := LeaveIndex("c", "r")], {"c"}, {})
  {
    states, steps := JoinGetsHold(REGISTERED, "c", "r");
    var s4 := Goto(states[3], 2, LeaveMember("c", "r"));
    var s5 := Goto(RemoveMember(s4, "c", "r"), 2, LeaveIndex("c", "r"));
    states, steps := Extend(InitAgreeing, Next, states, steps, Begin(2, LeaveMember("c", "r")), s4);
    states, steps := Extend(InitAgreeing, Next, states, steps, Do(2, ""), s5);
    assert s5.cells[0].members == {};
    assert s5.cells == [Cell("r", {})];
    assert s5.threads == map[1 := JoinMember("c", "r", 0), 2 := LeaveIndex("c", "r")];
  }

  /** The join adds and lists the pair, and the leave takes the listing away. */
  lemma LeaveUnlistsTheJoin() returns (states: seq<State>, steps: seq<Step>)
    ensures IsRun(InitAgreeing, Next, states, steps) && |steps| == 9
    ensures IsIn(states[9], "c", "r")
    ensures states[9].threads == map[] && states[9].connectionRooms == map["c" := {}] && states[9].ever == {"c"}
  {
    states, steps := LeaveBeforeTheInsert();
    var s6 := Goto(SetMembers(states[5], 0, {} + {"c"}), 1, JoinIndex("c", "r"));
    var s7 := Return(List(s6, "c", "r"), 1);
    var s8 := Goto(Unlist(s7, "c", "r"), 2, LeavePrune("c", "r"));
    var s9 := Return(Prune(s8, "r"), 2);
    states, steps := Extend(InitAgreeing, Next, states, steps, Do(1, ""), s6);
    states, steps := Extend(InitAgreeing, Next, states, steps, Do(1, ""), s7);
    states, steps := Extend(InitAgreeing, Next, states, steps, Do(2, ""), s8);
    states, steps := Extend(InitAgreeing, Next, states, steps, Do(2, ""), s9);
    assert {} + {"r"} - {"r"} == {} && s9.threads == map[];
  }

  /** A join beside a leave of the same room leaves a member nobody lists, and in the end a ghost. */
  lemma LeaveBesideJoinLeavesAGhost() returns (states: seq<State>, steps: seq<Step>)
    ensures IsRun(InitAgreeing, Next, states, steps) && |steps| == 12
    ensures states[9].threads == map[] && IsIn(states[9], "c", "r") && !IsListed(states[9], "c", "r")
    ensures states[12].threads == map[] && "c" in states[12].gone && IsIn(states[12], "c", "r")
  {
    states, steps := LeaveUnlistsTheJoin();
    states, steps := UnlistedMemberBecomesAGhost(states, steps);
  }

  /** `c` joins a room between the two maps of its own registration. */
  lemma JoinInsideTheRegistration() returns (states: seq<State>, steps: seq<Step>)
    ensures IsRun(InitAgreeing, Next, states, steps) && |steps| == 4
    ensures states[4] == State(map[], [], map[], {"c"},
                               map[1 := JoinCreate("c", "r"), 2 := RegisterIndex("c")], {"c"}, {})
  {
    var s0 := State(map[], [], map[], {}, map[], {}, {});
    var s1 := Goto(s0, 2, RegisterConnection("c")).(ever := {"c"});
    var s2 := Goto(s1.(connections := {"c"}), 2, RegisterIndex("c"));
    var s3 := Goto(s2, 1, JoinCheck("c", "r"));
    var s4 := Goto(s3, 1, JoinCreate("c", "r"));
    states, steps := [s0], [];
    assert {} + {"c"} == {"c"};
    states, steps := Extend(InitAgreeing, Next, states, steps, Begin(2, RegisterConnection("c")), s1);
    states, steps := Extend(InitAgreeing, Next, states, steps, Do(2, ""), s2);
    states, steps := Extend(InitAgreeing, Next, states, steps, Begin(1, JoinCheck("c", "r")), s3);
    states, steps := Extend(InitAgreeing, Next, states, steps, Do(1, ""), s4);
    assert s4.threads == map[1 := JoinCreate("c", "r"), 2 := RegisterIndex("c")];
  }

  lemma RegistrationForgetsTheJoin() returns (states: seq<State>, steps: seq<Step>)
    ensures IsRun(InitAgreeing, Next, states, steps) && |steps| == 8
    ensures IsIn(states[8], "c", "r")
    ensures states[8].threads == map[] && states[8].connectionRooms == map["c" := {}] && states[8].ever == {"c"}
  {
    states, steps := JoinInsideTheRegistration();
    var s5 := Goto(FileRoom(states[4], "r"), 1, JoinMember("c", "r", 0));
    var s6 := Goto(SetMembers(s5, 0, {} + {"c"}), 1, JoinIndex("c", "r"));
    var s7 := Return(s6, 1);
    var s8 := Return(s7.(connectionRooms := map["c" := {}]), 2);
    states, steps := Extend(InitAgreeing, Next, states, steps, Do(1, ""), s5);
    states, steps := Extend(InitAgreeing, Next, states, steps, Do(1, ""), s6);
    states, steps := Extend(InitAgreeing, Next, states, steps, Do(1, ""), s7);
    states, steps := Extend(InitAgreeing, Next, states, steps, Do(2, ""), s8);
    assert s8.threads == map[];
  }

  /** A join beside the registration of its connection leaves a member nobody lists, and in the end a ghost. */
  lemma RegistrationBesideJoinLeavesAGhost() returns (states: seq<State>, steps: seq<Step>)
    ensures IsRun(InitAgreeing, Next, states, steps) && |steps| == 11
    ensures states[8].threads == map[] && IsIn(states[8], "c", "r") && !IsListed(states[8], "c", "r")
    ensures states[11].threads == map[] && "c" in states[11].gone && IsIn(states[11], "c", "r")
  {
    states, steps := RegistrationForgetsTheJoin();
    states, steps := UnlistedMemberBecomesAGhost(states, steps);
  }

  /** A deletion that nobody disturbs until it has read the members of its room. */
  lemma DeletionReadsTheMembers(s0: State, r: RoomId) returns (states: seq<State>, steps: seq<Step>)
    requires InitAgreeing(s0) && r in s0.rooms
    ensures IsRun(InitAgreeing, Next, states, steps) && |steps| == 3
    ensures s0.rooms[r] < |s0.cells|
    ensures states[3] == Goto(s0.(rooms := s0.rooms - {r}), 2, DeleteIndex(r, s0.cells[s0.rooms[r]].members))
  {
    var s1 := Goto(s0, 2, DeleteRemove(r));
    var s2 := Goto(s1.(rooms := s1.rooms - {r}), 2, DeleteList(r, s0.rooms[r]));
    var s3 := Goto(s2, 2, DeleteIndex(r, s0.cells[s0.rooms[r]].members));
    states, steps := [s0], [];
    states, steps := Extend(InitAgreeing, Next, states, steps, Begin(2, DeleteRemove(r)), s1);
    states, steps := Extend(InitAgreeing, Next, states, steps, Do(2, ""), s2);
    states, steps := Extend(InitAgreeing, Next, states, steps, Do(2, ""), s3);
    assert s3.threads == map[2 := s3.threads[2]] == s0.threads[2 := s3.threads[2]];
  }

  /** Meanwhile `c` joins the room of that id again, a new one. */
  lemma RejoinDuringDeletion() returns (states: seq<State>, steps: seq<Step>)
    ensures IsRun(InitAgreeing, Next, states, steps) && |steps| == 6
    ensures states[6] == State(map["r" := 1], [Cell("r", {"c"}), Cell("r", {})], map["c" := {"r"}], {"c"},
                               map[1 := JoinMember("c", "r", 1), 2 := DeleteIndex("r", {"c"})], {"c"}, {})
  {
    var s0 := State(map["r" := 0], [Cell("r", {"c"})], map["c" := {"r"}], {"c"}, map[], {"c"}, {});
    states, steps := DeletionReadsTheMembers(s0, "r");
    var s4 := Goto(states[3], 1, JoinCheck("c", "r"));
    var s5 := Goto(s4, 1, JoinCreate("c", "r"));
    var s6 := Goto(FileRoom(s5, "r"), 1, JoinMember("c", "r", 1));
    states, steps := Extend(InitAgreeing, Next, states, steps, Begin(1, JoinCheck("c", "r")), s4);
    states, steps := Extend(InitAgreeing, Next, states, steps, Do(1, ""), s5);
    states, steps := Extend(InitAgreeing, Next, states, steps, Do(1, ""), s6);
    assert s6.threads == map[1 := JoinMember("c", "r", 1), 2 := DeleteIndex("r", {"c"})];
    assert s6.cells == [Cell("r", {"c"}), Cell("r", {})];
  }

  lemma RejoinCompletes() returns (states: seq<State>, steps: seq<Step>)
    ensures IsRun(InitAgreeing, Next, states, steps) && |steps| == 8
    ensures IsIn(states[8], "c", "r") && states[8].connectionRooms == map["c" := {"r"}] && states[8].ever == {"c"}
    ensures states[8].threads == map[2 := DeleteIndex("r", {"c"})]
  {
    states, steps := RejoinDuringDeletion();
    var s7 := Goto(SetMembers(states[6], 1, {} + {"c"}), 1, JoinIndex("c", "r"));
    var s8 := Return(List(s7, "c", "r"), 1);
    states, steps := Extend(InitAgreeing, Next, states, steps, Do(1, ""), s7);
    states, steps := Extend(InitAgreeing, Next, states, steps, Do(1, ""), s8);
    assert {"r"} + {"r"} == {"r"};
    assert s8.threads == map[2 := DeleteIndex("r", {"c"})];
  }

  /** The deletion then takes the new listing for the old one. */
  lemma DeletionUnlistsTheRejoin() returns (states: seq<State>, steps: seq<Step>)
    ensures IsRun(InitAgreeing, Next, states, steps) && |steps| == 10
    ensures IsIn(states[10], "c", "r")
    ensures states[10].threads == map[] && states[10].connectionRooms == map["c" := {}] && states[10].ever == {"c"}
  {
    states, steps := RejoinCompletes();
    var s9 := Goto(Unlist(states[8], "c", "r"), 2, DeleteIndex("r", {}));
    var s10 := Return(s9, 2);
    assert {"c"} - {"c"} == {} && {"r"} - {"r"} == {};
    states, steps := Extend(InitAgreeing, Next, states, steps, Do(2, "c"), s9);
    states, steps := Extend(InitAgreeing, Next, states, steps, Do(2, ""), s10);
    assert s10.threads == map[];
  }

  /** A deletion beside a join of its room leaves a member nobody lists, and in the end a ghost. */
  lemma DeletionLeavesAGhost() returns (states: seq<State>, steps: seq<Step>)
    ensures IsRun(InitAgreeing, Next, states, steps) && |steps| == 13
    ensures states[10].threads == map[] && IsIn(states[10], "c", "r") && !IsListed(states[10], "c", "r")
    ensures states[13].threads == map[] && "c" in states[13].gone && IsIn(states[13], "c", "r")
  {
    states, steps := DeletionUnlistsTheRejoin();
    states, steps := UnlistedMemberBecomesAGhost(states, steps);
  }

  // --------------------------------------------- a registration beside an unregistration

  lemma UnregistrationStartsFirst() returns (states: seq<State>, steps: seq<Step>)
    ensures IsRun(InitAgreeing, Next, states, steps) && |steps| == 3
    ensures states[3] == State(map[], [], map[], {},
                               map[1 := UnregisterVisit("c", {}), 2 := RegisterConnection("c")], {"c"}, {})
  {
    var s0 := State(map[], [], map[], {}, map[], {}, {});
    var s1 := Goto(s0, 1, UnregisterIndex("c"));
    var s2 := Goto(s1, 1, UnregisterVisit("c", {}));
    var s3 := Goto(s2, 2, RegisterConnection("c")).(ever := {"c"});
    states, steps := [s0], [];
    assert s1.connectionRooms - {"c"} == s1.connectionRooms && {} + {"c"} == {"c"};
    states, steps := Extend(InitAgreeing, Next, states, steps, Begin(1, UnregisterIndex("c")), s1);
    states, steps := Extend(InitAgreeing, Next, states, steps, Do(1, ""), s2);
    states, steps := Extend(InitAgreeing, Next, states, steps, Begin(2, RegisterConnection("c")), s3);
    assert s3.threads == map[1 := UnregisterVisit("c", {}), 2 := RegisterConnection("c")];
  }

  /** An unregistration beside the registration may come first: both have returned, and `c` is registered. */
  lemma UnregistrationMissesTheRegistration() returns (states: seq<State>, steps: seq<Step>)
    ensures IsRun(InitAgreeing, Next, states, steps) && |steps| == 6
    ensures states[6].threads == map[] && "c" in states[6].gone && "c" in states[6].connections
  {
    states, steps := UnregistrationStartsFirst();
    var s4 := Return(states[3].(gone := {"c"}), 1);
    var s5 := Goto(s4.(connections := {"c"}), 2, RegisterIndex("c"));
    var s6 := Return(s5.(connectionRooms := map["c" := {}]), 2);
    assert {} + {"c"} == {"c"} && {} - {"c"} == {};
    states, steps := Extend(InitAgreeing, Next, states, steps, Do(1, ""), s4);
    states, steps := Extend(InitAgreeing, Next, states, steps, Do(2, ""), s5);
    states, steps := Extend(InitAgreeing, Next, states, steps, Do(2, ""), s6);
    assert s6.threads == map[];
  }
}
