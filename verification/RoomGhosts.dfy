/**
 An unregistered connection stays behind in no room, as long as calls do not overlap in the ways `Clash`
 names; `RoomRaces` has a run for each of those.
 */
module RoomGhosts {
  import opened Connections
  import opened RoomIndex
  import opened Runs
  import opened RoomSteps

  /**
   The overlaps that are ruled out: a join with a leave of the pair, with a registration or unregistration of
   its connection, or with a deletion of its room; and a registration with an unregistration of the
   connection, or with another, which fresh ids exclude anyway.
   */
  predicate Clash(pc: Pc, pc': Pc) {
    match KindOf(pc)
    case Joining =>
      (match KindOf(pc')
       case Leaving => pc.c == pc'.c && pc.r == pc'.r
       case Registration => pc.c == pc'.c
       case Unregistration => pc.c == pc'.c
       case Deletion => pc.r == pc'.r
       case _ => false)
    case Registration => (KindOf(pc').Registration? || KindOf(pc').Unregistration?) && pc.c == pc'.c
    case _ => false
  }

  predicate Compatible(pc: Pc, pc': Pc) {
    !Clash(pc, pc') && !Clash(pc', pc)
  }

  /** Calls that overlap do not clash, and every id is registered once. */
  ghost predicate NextApart(s: State, step: Step, s': State) {
    && Next(s, step, s')
    && (step.Begin? ==>
          && (forall t :: t in s.threads ==> Compatible(s.threads[t], step.pc))
          && (step.pc.RegisterConnection? ==> step.pc.c !in s.ever))
  }

  /** The narrower discipline of one call at a time per connection. */
  ghost predicate NextOneEach(s: State, step: Step, s': State) {
    NextApart(s, step, s') && (step.Begin? ==> forall c :: CallOf(step.pc, c) ==> Idle(s, c))
  }

  /** The call is going to list the pair, or to take it out of the room. */
  predicate Settles(pc: Pc, c: ConnectionId, r: RoomId) {
    pc == JoinIndex(c, r) || Removes(pc, c, r)
  }

  predicate PastCheck(pc: Pc) {
    pc.JoinCreate? || pc.JoinMember? || pc.JoinIndex?
  }

  /** A registration or an unregistration of `c` is between its two maps. */
  predicate HoldsOpen(pc: Pc, c: ConnectionId) {
    (pc.RegisterIndex? || Unregistering(pc)) && pc.c == c
  }

  ghost predicate Apart(threads: map<ThreadId, Pc>) {
    forall t, u :: t in threads && u in threads && t != u ==> Compatible(threads[t], threads[u])
  }

  /** The room on file, if there is one, has no members. */
  predicate Unfilled(s: State, r: RoomId) {
    r in s.rooms && s.rooms[r] < |s.cells| ==> s.cells[s.rooms[r]].members == {}
  }

  /** What the program counter of a call says about its connection, or its room. */
  predicate CallFacts(s: State, pc: Pc) {
    && (PastCheck(pc) ==> pc.c in s.connectionRooms)
    && (Unregistering(pc) ==> pc.c !in s.connectionRooms)
    && (KindOf(pc).Registration? ==> pc.c in s.ever && pc.c !in s.gone && pc.c !in s.connectionRooms)
    && HasLeft(s, pc)
    && (pc.DeleteList? || pc.DeleteIndex? ==> Unfilled(s, pc.r))
  }

  ghost predicate CallsFacts(s: State) {
    forall t :: t in s.threads ==> CallFacts(s, s.threads[t])
  }

  ghost predicate HeldOpen(s: State, c: ConnectionId) {
    exists t :: t in s.threads && HoldsOpen(s.threads[t], c)
  }

  /** What the maps say about one connection. */
  ghost predicate RegistrationOf(s: State, c: ConnectionId) {
    && (c in s.connections ==> c in s.connectionRooms || HeldOpen(s, c))
    && (c in s.gone ==> c in s.ever && c !in s.connections && c !in s.connectionRooms)
    && (c in s.connectionRooms ==> c in s.ever)
  }

  ghost predicate BeingSettled(s: State, c: ConnectionId, r: RoomId) {
    exists t :: t in s.threads && Settles(s.threads[t], c, r)
  }

  ghost predicate MemberAccountedFor(s: State, c: ConnectionId, r: RoomId) {
    IsIn(s, c, r) ==> IsListed(s, c, r) || BeingSettled(s, c, r)
  }

  ghost predicate NoGhostInv(s: State) {
    && WellFormed(s)
    && Apart(s.threads)
    && CallsFacts(s)
    && (forall c :: RegistrationOf(s, c))
    && (forall c, r :: MemberAccountedFor(s, c, r))
  }

  lemma SameCallStaysCompatible(pc: Pc, pc': Pc, other: Pc)
    requires SameCall(pc, pc') && Compatible(pc, other)
    ensures Compatible(pc', other) && Compatible(other, pc')
  {
  }

  lemma ApartKept(s: State, step: Step, s': State)
    requires Apart(s.threads) && NextApart(s, step, s')
    ensures Apart(s'.threads)
  {
    if step.Do? {
      var t := step.t;
      DoMovesOneThread(s, t, step.pick);
      forall u | t in s'.threads && u in s'.threads && u != t
        ensures Compatible(s'.threads[t], s'.threads[u]) && Compatible(s'.threads[u], s'.threads[t])
      {
        SameCallStaysCompatible(s.threads[t], s'.threads[t], s.threads[u]);
      }
    }
  }

  // -------------------------------- one operation, seen from one call, connection or pair

  /** The only operation that puts a connection into a room is `JoinMember` of that pair. */
  lemma EffectOnMember(s: State, pc: Pc, pick: string, c: ConnectionId, r: RoomId)
    requires CanDo(s, pc, pick) && RoomsFiled(s) && HoldsItsRoom(s.cells, pc)
    ensures IsIn(Effect(s, pc, pick), c, r) && !IsIn(s, c, r) ==> pc.JoinMember? && pc.c == c && pc.r == r
  {
  }

  /** Who comes, or goes, in `connection_rooms` and in `gone`. */
  lemma EffectOnKeys(s: State, pc: Pc, pick: string, c: ConnectionId)
    requires CanDo(s, pc, pick)
    ensures var s' := Effect(s, pc, pick);
            && (c in s'.connectionRooms && c !in s.connectionRooms ==> pc == RegisterIndex(c))
            && (c in s.connectionRooms && c !in s'.connectionRooms ==> pc == UnregisterIndex(c))
            && (c in s'.gone && c !in s.gone ==> pc == UnregisterVisit(c, {}))
  {
  }

  /** Who lists the pair, and who takes it out of the listing. */
  lemma EffectOnListing(s: State, pc: Pc, pick: string, c: ConnectionId, r: RoomId)
    requires CanDo(s, pc, pick) && CallFacts(s, pc)
    ensures IsListed(Effect(s, pc, pick), c, r) && !IsListed(s, c, r) ==> pc == JoinIndex(c, r)
    ensures IsListed(s, c, r) && !IsListed(Effect(s, pc, pick), c, r) ==>
              pc == LeaveIndex(c, r) || pc == UnregisterIndex(c) || (pc.DeleteIndex? && pc.r == r && pick == c)
    ensures pc == LeaveIndex(c, r) || pc == UnregisterIndex(c) ==> !IsListed(Effect(s, pc, pick), c, r)
    ensures pc == JoinIndex(c, r) ==> IsListed(Effect(s, pc, pick), c, r)
  {
  }

  lemma EffectOnRemoval(s: State, pc: Pc, pick: string, c: ConnectionId, r: RoomId)
    requires CanDo(s, pc, pick) && RoomsFiled(s)
    requires Removes(pc, c, r)
    ensures IsIn(Effect(s, pc, pick), c, r) ==> Onward(s, pc, pick).Some? && Settles(Onward(s, pc, pick).value, c, r)
  {
  }

  /** A member of a room who is not listed for it any more, or not yet, has its own call settle that. */
  lemma EffectOnPair(s: State, pc: Pc, pick: string, c: ConnectionId, r: RoomId)
    requires CanDo(s, pc, pick) && RoomsFiled(s) && HoldsItsRoom(s.cells, pc)
    requires CallFacts(s, pc)
    ensures IsIn(Effect(s, pc, pick), c, r) && !IsListed(Effect(s, pc, pick), c, r)
            && (!IsIn(s, c, r) || IsListed(s, c, r) || Settles(pc, c, r)) ==>
              Onward(s, pc, pick).Some? && Settles(Onward(s, pc, pick).value, c, r)
  {
    EffectOnMember(s, pc, pick, c, r);
    EffectOnListing(s, pc, pick, c, r);
    if Removes(pc, c, r) {
      EffectOnRemoval(s, pc, pick, c, r);
    }
  }

  lemma EffectOnCall(s: State, pc: Pc, pick: string, pc': Pc)
    requires CanDo(s, pc, pick) && RoomsFiled(s) && HoldsItsRoom(s.cells, pc)
    requires CallFacts(s, pc') && Compatible(pc, pc')
    ensures CallFacts(Effect(s, pc, pick), pc')
  {
    EffectIsOnTheMaps(s, pc, pick);
    if HasConnection(pc') {
      EffectOnKeys(s, pc, pick, pc'.c);
      if pc'.LeaveIndex? {
        EffectOnMember(s, pc, pick, pc'.c, pc'.r);
      }
    } else if pc'.DeleteList? || pc'.DeleteIndex? {
      EffectOnUnfilled(s, pc, pick, pc'.r);
    }
  }

  lemma EffectOnUnfilled(s: State, pc: Pc, pick: string, r: RoomId)
    requires CanDo(s, pc, pick) && RoomsFiled(s) && HoldsItsRoom(s.cells, pc) && Unfilled(s, r)
    ensures Unfilled(Effect(s, pc, pick), r) || (pc.JoinMember? && pc.r == r)
  {
  }

  lemma OnwardUnfilled(s: State, pc: Pc, pick: string)
    requires CanDo(s, pc, pick) && CallFacts(s, pc)
    ensures var next := Onward(s, pc, pick);
            next.Some? && (next.value.DeleteList? || next.value.DeleteIndex?) ==>
              Unfilled(Effect(s, pc, pick), next.value.r)
  {
  }

  lemma OnwardKeepsFacts(s: State, pc: Pc, pick: string)
    requires CanDo(s, pc, pick) && RoomsFiled(s) && CallFacts(s, pc)
    requires pc.JoinCheck? && pc.c in s.connections ==> pc.c in s.connectionRooms
    ensures var next := Onward(s, pc, pick); next.Some? ==> CallFacts(Effect(s, pc, pick), next.value)
  {
    OnwardHasLeft(s, pc, pick);
    OnwardUnfilled(s, pc, pick);
  }

  lemma EffectOnRegistration(s: State, pc: Pc, pick: string, c: ConnectionId)
    requires CanDo(s, pc, pick) && CallFacts(s, pc) && RegistrationOf(s, c)
    ensures var s', next := Effect(s, pc, pick), Onward(s, pc, pick);
            && (c in s'.connections
                && (c !in s.connections || c in s.connectionRooms || HoldsOpen(pc, c)) ==>
                  c in s'.connectionRooms || (next.Some? && HoldsOpen(next.value, c)))
            && (c in s'.gone ==> c in s'.ever && c !in s'.connections && c !in s'.connectionRooms)
            && (c in s'.connectionRooms ==> c in s'.ever)
  {
  }

  // ------------------------------------------------------------ the invariant is kept

  lemma CallsFactsKept(s: State, t: ThreadId, pick: string)
    requires NoGhostInv(s) && Enabled(s, Do(t, pick))
    ensures CallsFacts(DoStep(s, t, pick))
  {
    var pc, s' := s.threads[t], DoStep(s, t, pick);
    DoMovesOneThread(s, t, pick);
    if pc.JoinCheck? {
      assert RegistrationOf(s, pc.c);
      assert CallOf(pc, pc.c);
      assert forall u :: u in s.threads && HoldsOpen(s.threads[u], pc.c) ==> CallOf(s.threads[u], pc.c);
    }
    OnwardKeepsFacts(s, pc, pick);
    forall u | u in s'.threads && u != t
      ensures CallFacts(s', s'.threads[u])
    {
      EffectOnCall(s, pc, pick, s.threads[u]);
    }
  }

  lemma RegistrationKept(s: State, t: ThreadId, pick: string, c: ConnectionId)
    requires NoGhostInv(s) && Enabled(s, Do(t, pick))
    ensures RegistrationOf(DoStep(s, t, pick), c)
  {
    var s' := DoStep(s, t, pick);
    DoMovesOneThread(s, t, pick);
    EffectOnRegistration(s, s.threads[t], pick, c);
    if u :| u in s.threads && u != t && HoldsOpen(s.threads[u], c) {
      assert u in s'.threads && HoldsOpen(s'.threads[u], c);
    }
    var next := Onward(s, s.threads[t], pick);
    assert next.Some? ==> t in s'.threads && s'.threads[t] == next.value;
  }

  lemma MemberStaysAccountedFor(s: State, t: ThreadId, pick: string, c: ConnectionId, r: RoomId)
    requires NoGhostInv(s) && Enabled(s, Do(t, pick))
    ensures MemberAccountedFor(DoStep(s, t, pick), c, r)
  {
    var s' := DoStep(s, t, pick);
    DoMovesOneThread(s, t, pick);
    EffectOnPair(s, s.threads[t], pick, c, r);
    assert MemberAccountedFor(s, c, r);
    if u :| u in s.threads && u != t && Settles(s.threads[u], c, r) {
      assert u in s'.threads && Settles(s'.threads[u], c, r);
    }
    var next := Onward(s, s.threads[t], pick);
    assert next.Some? ==> t in s'.threads && s'.threads[t] == next.value;
  }

  lemma BeginKeepsNoGhostInv(s: State, t: ThreadId, pc: Pc, s': State)
    requires NoGhostInv(s) && NextApart(s, Begin(t, pc), s') && WellFormed(s') && Apart(s'.threads)
    ensures NoGhostInv(s')
  {
    forall u | u in s'.threads
      ensures CallFacts(s', s'.threads[u])
    {
      assert u != t ==> CallFacts(s, s.threads[u]);
      assert u == t && pc.RegisterConnection? ==> RegistrationOf(s, pc.c);
    }
    forall c
      ensures RegistrationOf(s', c)
    {
      assert RegistrationOf(s, c);
      if u :| u in s.threads && HoldsOpen(s.threads[u], c) {
        assert u in s'.threads && HoldsOpen(s'.threads[u], c);
      }
    }
    forall c, r
      ensures MemberAccountedFor(s', c, r)
    {
      assert MemberAccountedFor(s, c, r);
      if u :| u in s.threads && Settles(s.threads[u], c, r) {
        assert u in s'.threads && Settles(s'.threads[u], c, r);
      }
    }
  }

  lemma NoGhostInvKept(s: State, step: Step, s': State)
    requires NoGhostInv(s) && NextApart(s, step, s')
    ensures NoGhostInv(s')
  {
    WellFormedKept(s, step, s');
    ApartKept(s, step, s');
    match step
    case Begin(t, pc) => BeginKeepsNoGhostInv(s, t, pc, s');
    case Do(t, pick) =>
      CallsFactsKept(s, t, pick);
      forall c
        ensures RegistrationOf(s', c)
      {
        RegistrationKept(s, t, pick, c);
      }
      forall c, r
        ensures MemberAccountedFor(s', c, r)
      {
        MemberStaysAccountedFor(s, t, pick, c, r);
      }
  }

  lemma NoGhostInvAlways(states: seq<State>, steps: seq<Step>)
    requires IsRun(InitEmpty, NextApart, states, steps)
    ensures forall i :: 0 <= i < |states| ==> NoGhostInv(states[i])
  {
    forall s, step, s' | NoGhostInv(s) && NextApart(s, step, s')
      ensures NoGhostInv(s')
    {
      NoGhostInvKept(s, step, s');
    }
    Invariance(InitEmpty, NextApart, NoGhostInv, states, steps);
  }

  // -------------------------------------------------------------------- no ghost members

  /** Some unregistration of `c` has yet to visit `r`. */
  ghost predicate BeingRemoved(s: State, c: ConnectionId, r: RoomId) {
    exists t :: t in s.threads && Removes(s.threads[t], c, r)
  }

  /**
   No ghost members, for calls that do not clash: once an unregistration of `c` has returned, `c` is in a
   room only while another unregistration that overlapped it has still to take it out there. And while
   no call for `c` is in flight, every room it is in is listed for it.
   */
  lemma NoGhostMembers(states: seq<State>, steps: seq<Step>, i: nat, c: ConnectionId, r: RoomId)
    requires IsRun(InitEmpty, NextApart, states, steps) && i < |states|
    ensures c in states[i].gone ==>
              c !in states[i].connections && (IsIn(states[i], c, r) ==> BeingRemoved(states[i], c, r))
    ensures Idle(states[i], c) && IsIn(states[i], c, r) ==> IsListed(states[i], c, r)
  {
    NoGhostInvAlways(states, steps);
    var s := states[i];
    assert NoGhostInv(s) && RegistrationOf(s, c) && MemberAccountedFor(s, c, r);
    if t :| t in s.threads && Settles(s.threads[t], c, r) {
      assert CallFacts(s, s.threads[t]);
      assert CallOf(s.threads[t], c);
    }
  }

  /** `c` is unregistered, and no unregistration has a room left to take it out of. */
  ghost predicate Vacated(s: State, c: ConnectionId) {
    && c in s.gone
    && forall t :: t in s.threads && CallOf(s.threads[t], c) && Unregistering(s.threads[t]) ==> s.threads[t].todo == {}
  }

  lemma VacatedKept(s: State, step: Step, s': State, c: ConnectionId)
    requires NoGhostInv(s) && NextApart(s, step, s') && Vacated(s, c)
    ensures Vacated(s', c)
  {
    assert RegistrationOf(s, c);
    if step.Do? {
      DoMovesOneThread(s, step.t, step.pick);
    }
  }

  /**
   The unregistration is for good: when one has returned and none is in flight any more, the connection is
   in no room from there on, whatever is begun for it later.
   */
  lemma GoneForGood(states: seq<State>, steps: seq<Step>, i: nat, j: nat, c: ConnectionId, r: RoomId)
    requires IsRun(InitEmpty, NextApart, states, steps) && i <= j < |states|
    requires c in states[i].gone
    requires forall t :: t in states[i].threads && CallOf(states[i].threads[t], c) ==>
                           !KindOf(states[i].threads[t]).Unregistration?
    ensures c in states[j].gone && c !in states[j].connections && !IsIn(states[j], c, r)
  {
    NoGhostInvAlways(states, steps);
    var kept := (s: State) => NoGhostInv(s) && Vacated(s, c);
    forall s, step, s' | kept(s) && NextApart(s, step, s')
      ensures kept(s')
    {
      NoGhostInvKept(s, step, s');
      VacatedKept(s, step, s', c);
    }
    Stability(InitEmpty, NextApart, kept, states, steps, i, j);
    NoGhostMembers(states, steps, j, c, r);
  }

  ghost predicate OneEach(s: State) {
    forall t, u, c :: t in s.threads && u in s.threads && CallOf(s.threads[t], c) && CallOf(s.threads[u], c) ==> t == u
  }

  lemma OneEachKept(s: State, step: Step, s': State)
    requires OneEach(s) && NextOneEach(s, step, s')
    ensures OneEach(s')
  {
    if step.Do? {
      DoMovesOneThread(s, step.t, step.pick);
    }
  }

  lemma GoneAreVacated(s: State, step: Step, s': State, c: ConnectionId)
    requires NoGhostInv(s) && OneEach(s) && NextOneEach(s, step, s')
    requires c in s'.gone && (c in s.gone ==> Vacated(s, c))
    ensures Vacated(s', c)
  {
    if c in s.gone {
      VacatedKept(s, step, s', c);
    } else {
      EffectOnKeys(s, s.threads[step.t], step.pick, c);
      DoMovesOneThread(s, step.t, step.pick);
      assert CallOf(s.threads[step.t], c);
      assert forall t :: t in s'.threads ==> !CallOf(s'.threads[t], c);
    }
  }

  /** With one call at a time per connection, an unregistered connection is in no room in any reachable state. */
  lemma OneEachHasNoGhosts(states: seq<State>, steps: seq<Step>, i: nat, c: ConnectionId, r: RoomId)
    requires IsRun(InitEmpty, NextOneEach, states, steps) && i < |states|
    ensures IsRun(InitEmpty, NextApart, states, steps)
    ensures c in states[i].gone ==> !IsIn(states[i], c, r) && c !in states[i].connections
  {
    var inv := (s: State) => NoGhostInv(s) && OneEach(s) && forall d :: d in s.gone ==> Vacated(s, d);
    forall s, step, s' | inv(s) && NextOneEach(s, step, s')
      ensures inv(s')
    {
      NoGhostInvKept(s, step, s');
      OneEachKept(s, step, s');
      forall d | d in s'.gone
        ensures Vacated(s', d)
      {
        GoneAreVacated(s, step, s', d);
      }
    }
    Invariance(InitEmpty, NextOneEach, inv, states, steps);
    NoGhostMembers(states, steps, i, c, r);
  }
}
