/**
 Leaves, unregistrations and room deletions alone are quiescently consistent: whatever the
 interleaving, the two directions of the index agree again once all have returned.
 */
module RoomRemovals {
  import opened Connections
  import opened RoomIndex
  import opened Runs
  import opened RoomSteps

  /** Any number of `leave_room`, `unregister_connection` and `delete_room` calls, nothing else. */
  ghost predicate NextRemoving(s: State, step: Step, s': State) {
    Next(s, step, s') && (step.Begin? ==> step.pc.LeaveMember? || step.pc.UnregisterIndex? || step.pc.DeleteRemove?)
  }

  predicate IsRemoval(pc: Pc) {
    KindOf(pc).Leaving? || KindOf(pc).Unregistration? || KindOf(pc).Deletion?
  }

  /** The call is going to unlist the pair. */
  predicate Unlists(cells: seq<Cell>, pc: Pc, c: ConnectionId, r: RoomId) {
    pc == LeaveIndex(c, r) || DeletionUnlists(cells, pc, c, r)
  }

  /** A pair on one side only has a call in flight that will take it from there. */
  ghost predicate PairSettled(s: State, c: ConnectionId, r: RoomId) {
    && (IsIn(s, c, r) ==> IsListed(s, c, r) || exists t :: t in s.threads && Removes(s.threads[t], c, r))
    && (IsListed(s, c, r) ==> IsIn(s, c, r) || exists t :: t in s.threads && Unlists(s.cells, s.threads[t], c, r))
  }

  /** A removal past its first operation has that first map behind it. */
  predicate RemovalFacts(s: State, pc: Pc) {
    && IsRemoval(pc)
    && HasLeft(s, pc)
    && (pc.DeleteList? || pc.DeleteIndex? ==> pc.r !in s.rooms)
    && (Unregistering(pc) ==> pc.c !in s.connectionRooms)
  }

  ghost predicate RemovingInv(s: State) {
    && WellFormed(s)
    && (forall t :: t in s.threads ==> RemovalFacts(s, s.threads[t]))
    && (forall c, r :: PairSettled(s, c, r))
  }

  /** The pair after a removal's operation, as far as it decides it: first in the room, then in the listing. */
  lemma RemovalSettlesMember(s: State, pc: Pc, pick: string, c: ConnectionId, r: RoomId)
    requires CanDo(s, pc, pick) && RoomsFiled(s) && RemovalFacts(s, pc)
    ensures var s', next := Effect(s, pc, pick), Onward(s, pc, pick);
            && (IsIn(s', c, r) ==> IsIn(s, c, r))
            && (IsIn(s', c, r) && !IsListed(s', c, r) && (IsListed(s, c, r) || Removes(pc, c, r)) ==>
                  next.Some? && Removes(next.value, c, r))
  {
  }

  /** Only the removals that are to unlist the pair do; the others leave its listing alone. */
  lemma RemovalUnlists(s: State, pc: Pc, pick: string, c: ConnectionId, r: RoomId)
    requires CanDo(s, pc, pick) && IsRemoval(pc)
    ensures var s' := Effect(s, pc, pick);
            && (IsListed(s', c, r) ==> IsListed(s, c, r))
            && (Unlists(s.cells, pc, c, r) && IsListed(s', c, r) ==>
                  Onward(s, pc, pick).Some? && Unlists(s'.cells, Onward(s, pc, pick).value, c, r))
  {
  }

  lemma RemovalSettlesListing(s: State, pc: Pc, pick: string, c: ConnectionId, r: RoomId)
    requires CanDo(s, pc, pick) && RoomsFiled(s) && RemovalFacts(s, pc)
    ensures var s', next := Effect(s, pc, pick), Onward(s, pc, pick);
            && (IsListed(s', c, r) ==> IsListed(s, c, r))
            && (IsListed(s', c, r) && !IsIn(s', c, r) && (IsIn(s, c, r) || Unlists(s.cells, pc, c, r)) ==>
                  next.Some? && Unlists(s'.cells, next.value, c, r))
  {
    RemovalUnlists(s, pc, pick, c, r);
    if IsIn(s, c, r) {
      RemovalTakesOut(s, pc, pick, c, r);
    }
  }

  lemma RemovalTakesOut(s: State, pc: Pc, pick: string, c: ConnectionId, r: RoomId)
    requires CanDo(s, pc, pick) && RoomsFiled(s) && RemovalFacts(s, pc) && IsIn(s, c, r)
    ensures var s', next := Effect(s, pc, pick), Onward(s, pc, pick);
            IsListed(s', c, r) && !IsIn(s', c, r) ==> next.Some? && Unlists(s'.cells, next.value, c, r)
  {
  }

  lemma RemovalAddsNoKeys(s: State, pc: Pc, pick: string)
    requires CanDo(s, pc, pick) && IsRemoval(pc)
    ensures var s' := Effect(s, pc, pick);
            s'.rooms.Keys <= s.rooms.Keys && s'.connectionRooms.Keys <= s.connectionRooms.Keys
  {
  }

  lemma RemovalMovesOn(s: State, pc: Pc, pick: string)
    requires CanDo(s, pc, pick) && RoomsFiled(s) && RemovalFacts(s, pc)
    ensures Onward(s, pc, pick).Some? ==> RemovalFacts(Effect(s, pc, pick), Onward(s, pc, pick).value)
  {
    OnwardIsTheSameCall(s, pc, pick);
    OnwardHasLeft(s, pc, pick);
    RemovalAddsNoKeys(s, pc, pick);
  }

  /** A room some call is deleting has nobody left to change its members. */
  lemma DoKeepsDeletedCells(s: State, t: ThreadId, pick: string, u: ThreadId)
    requires RemovingInv(s) && Enabled(s, Do(t, pick)) && u in s.threads && u != t && s.threads[u].DeleteList?
    ensures DoStep(s, t, pick).cells[s.threads[u].cell] == s.cells[s.threads[u].cell]
  {
    assert RemovalFacts(s, s.threads[t]) && RemovalFacts(s, s.threads[u]);
    assert HoldsItsRoom(s.cells, s.threads[u]);
  }

  lemma RemovalFactsKept(s: State, t: ThreadId, pick: string)
    requires RemovingInv(s) && Enabled(s, Do(t, pick))
    ensures var s' := DoStep(s, t, pick); forall u :: u in s'.threads ==> RemovalFacts(s', s'.threads[u])
  {
    var s' := DoStep(s, t, pick);
    DoMovesOneThread(s, t, pick);
    assert RemovalFacts(s, s.threads[t]);
    RemovalAddsNoKeys(s, s.threads[t], pick);
    RemovalMovesOn(s, s.threads[t], pick);
    forall u | u in s'.threads && u != t
      ensures RemovalFacts(s', s'.threads[u])
    {
      var pc := s.threads[u];
      assert s'.threads[u] == pc && RemovalFacts(s, pc);
      if pc.LeaveIndex? {
        RemovalSettlesMember(s, s.threads[t], pick, pc.c, pc.r);
      }
    }
  }

  lemma PairStaysSettled(s: State, t: ThreadId, pick: string, c: ConnectionId, r: RoomId)
    requires RemovingInv(s) && Enabled(s, Do(t, pick))
    ensures PairSettled(DoStep(s, t, pick), c, r)
  {
    var s' := DoStep(s, t, pick);
    DoMovesOneThread(s, t, pick);
    forall u | u in s.threads && u != t && s.threads[u].DeleteList?
      ensures s.threads[u].cell < |s'.cells| && s'.cells[s.threads[u].cell] == s.cells[s.threads[u].cell]
    {
      EffectKeepsCellIds(s, s.threads[t], pick);
      DoKeepsDeletedCells(s, t, pick, u);
    }
    assert RemovalFacts(s, s.threads[t]) && PairSettled(s, c, r);
    RemovalSettlesMember(s, s.threads[t], pick, c, r);
    RemovalSettlesListing(s, s.threads[t], pick, c, r);
    var next := Onward(s, s.threads[t], pick);
    assert next.Some? ==> t in s'.threads && s'.threads[t] == next.value;
    OthersStillSettle(s, s', t, c, r);
  }

  lemma RemovingInvKept(s: State, step: Step, s': State)
    requires RemovingInv(s) && NextRemoving(s, step, s')
    ensures RemovingInv(s')
  {
    WellFormedKept(s, step, s');
    match step
    case Begin(t, pc) =>
      forall u | u in s'.threads
        ensures RemovalFacts(s', s'.threads[u])
      {
        assert u != t ==> RemovalFacts(s, s.threads[u]);
      }
      forall c, r
        ensures PairSettled(s', c, r)
      {
        assert PairSettled(s, c, r);
        OthersStillSettle(s, s', t, c, r);
      }
    case Do(t, pick) =>
      RemovalFactsKept(s, t, pick);
      forall c, r
        ensures PairSettled(s', c, r)
      {
        PairStaysSettled(s, t, pick, c, r);
      }
  }

  /** The other threads still owe what they owed. */
  lemma OthersStillSettle(s: State, s': State, t: ThreadId, c: ConnectionId, r: RoomId)
    requires PairSettled(s, c, r)
    requires s'.threads - {t} == s.threads - {t}
    requires forall u :: u in s.threads && u != t && s.threads[u].DeleteList? && s.threads[u].cell < |s.cells| ==>
                           s.threads[u].cell < |s'.cells| && s'.cells[s.threads[u].cell] == s.cells[s.threads[u].cell]
    ensures IsIn(s, c, r) && !IsListed(s, c, r) ==>
              || (t in s.threads && Removes(s.threads[t], c, r))
              || exists u :: u in s'.threads && Removes(s'.threads[u], c, r)
    ensures IsListed(s, c, r) && !IsIn(s, c, r) ==>
              || (t in s.threads && Unlists(s.cells, s.threads[t], c, r))
              || exists u :: u in s'.threads && Unlists(s'.cells, s'.threads[u], c, r)
  {
    if IsIn(s, c, r) && !IsListed(s, c, r) {
      var u :| u in s.threads && Removes(s.threads[u], c, r);
      assert u != t ==> u in s'.threads - {t} && s'.threads[u] == s.threads[u];
    }
    if IsListed(s, c, r) && !IsIn(s, c, r) {
      var u :| u in s.threads && Unlists(s.cells, s.threads[u], c, r);
      assert u != t ==> u in (s'.threads - {t}) && s'.threads[u] == (s'.threads - {t})[u] == s.threads[u];
    }
  }

  /**
   Removals are quiescently consistent: from an exact index, after any interleaving of leaves,
   unregistrations and room deletions, once all have returned the two directions agree again.
   */
  lemma RemovalsAreQuiescentlyConsistent(states: seq<State>, steps: seq<Step>, i: nat)
    requires IsRun(InitAgreeing, NextRemoving, states, steps) && i < |states|
    requires states[i].threads == map[]
    ensures Agrees(states[i])
  {
    forall s | InitAgreeing(s)
      ensures RemovingInv(s)
    {
      forall c, r
        ensures PairSettled(s, c, r)
      {
        assert IsIn(s, c, r) <==> IsListed(s, c, r);
      }
    }
    forall s, step, s' | RemovingInv(s) && NextRemoving(s, step, s')
      ensures RemovingInv(s')
    {
      RemovingInvKept(s, step, s');
    }
    Invariance(InitAgreeing, NextRemoving, RemovingInv, states, steps);
    assert RemovingInv(states[i]);
    forall c, r
      ensures IsIn(states[i], c, r) <==> IsListed(states[i], c, r)
    {
      assert PairSettled(states[i], c, r);
    }
  }
}
