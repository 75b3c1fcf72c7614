/**
 Where a join ends up. It adds its member to the room it holds, and lists the pair, whatever became of
 that room meanwhile; `Missed` says for every state of a run which pairs are listed for nothing.
 */
module RoomJoins {
  import opened Connections
  import opened RoomIndex
  import opened Runs
  import opened RoomSteps
  import opened RoomGhosts

  /** `rooms` still maps the id to the room the joining call holds. */
  predicate OnFile(s: State, pc: Pc)
    requires pc.JoinMember?
  {
    pc.r in s.rooms && s.rooms[pc.r] == pc.cell
  }

  predicate AddsTo(s: State, step: Step, c: ConnectionId, r: RoomId) {
    && step.Do? && step.t in s.threads
    && s.threads[step.t].JoinMember? && s.threads[step.t].c == c && s.threads[step.t].r == r
  }

  /** The step adds the connection to the room on file. */
  predicate Lands(s: State, step: Step, c: ConnectionId, r: RoomId) {
    AddsTo(s, step, c, r) && OnFile(s, s.threads[step.t])
  }

  /** The step adds the connection to a room that is on file no more. */
  predicate Misses(s: State, step: Step, c: ConnectionId, r: RoomId) {
    AddsTo(s, step, c, r) && !OnFile(s, s.threads[step.t])
  }

  /** The step takes the pair out of the listing. */
  predicate Clears(s: State, step: Step, c: ConnectionId, r: RoomId) {
    && step.Do? && step.t in s.threads
    && (s.threads[step.t] == LeaveIndex(c, r) || s.threads[step.t] == UnregisterIndex(c))
  }

  predicate StillMissed(s: State, step: Step, missed: bool, c: ConnectionId, r: RoomId) {
    if AddsTo(s, step, c, r) then Misses(s, step, c, r) && !IsIn(s, c, r) else missed && !Clears(s, step, c, r)
  }

  /** Up to state `n` the last insert of the pair missed, and the pair has not been taken out of the listing since. */
  predicate Missed(states: seq<State>, steps: seq<Step>, n: nat, c: ConnectionId, r: RoomId)
    requires n < |states| == |steps| + 1
  {
    n > 0 && StillMissed(states[n - 1], steps[n - 1], Missed(states, steps, n - 1, c, r), c, r)
  }

  lemma {:induction false} MissedIsTheLastWord(states: seq<State>, steps: seq<Step>, n: nat, c: ConnectionId, r: RoomId)
    requires n < |states| == |steps| + 1
    ensures Missed(states, steps, n, c, r) <==>
              exists k ::
                && 0 <= k < n && Misses(states[k], steps[k], c, r) && !IsIn(states[k], c, r)
                && forall m :: k < m < n ==> !AddsTo(states[m], steps[m], c, r) && !Clears(states[m], steps[m], c, r)
  {
    if n > 0 {
      MissedIsTheLastWord(states, steps, n - 1, c, r);
    }
  }

  // ------------------------------------------------- one step, seen from one pair

  /** Nobody in a room loses it but by a leave or an unregistration of its own, or by the room's deletion. */
  lemma EffectKeepsMember(s: State, pc: Pc, pick: string, c: ConnectionId, r: RoomId)
    requires CanDo(s, pc, pick) && RoomsFiled(s) && IsIn(s, c, r)
    ensures IsIn(Effect(s, pc, pick), c, r) ||
            pc == LeaveMember(c, r) || (Unregistering(pc) && pc.c == c) || pc == DeleteRemove(r)
  {
  }

  lemma AddingLandsIff(s: State, pc: Pc, pick: string)
    requires CanDo(s, pc, pick) && RoomsFiled(s) && HoldsItsRoom(s.cells, pc) && pc.JoinMember?
    ensures IsIn(Effect(s, pc, pick), pc.c, pc.r) <==> IsIn(s, pc.c, pc.r) || OnFile(s, pc)
  {
  }

  // ------------------------------------------------- a join, from its insert to its listing

  /** The pair while a call is about to list it: in the room as soon as some join of it landed, and from then on. */
  lemma MemberUntilListed(s: State, step: Step, s': State, t: ThreadId, c: ConnectionId, r: RoomId)
    requires NoGhostInv(s) && NextApart(s, step, s') && t in s.threads && s.threads[t] == JoinIndex(c, r)
    ensures IsIn(s', c, r) <==> IsIn(s, c, r) || Lands(s, step, c, r)
  {
    if step.Do? {
      var pc := s.threads[step.t];
      assert step.t != t ==> Compatible(s.threads[t], pc);
      assert HoldsItsRoom(s.cells, pc);
      EffectOnMember(s, pc, step.pick, c, r);
      if IsIn(s, c, r) {
        EffectKeepsMember(s, pc, step.pick, c, r);
      }
      if pc.JoinMember? {
        AddingLandsIff(s, pc, step.pick);
      }
    }
  }

  lemma JoinerWaits(s: State, step: Step, s': State, t: ThreadId)
    requires Next(s, step, s') && t in s.threads && step.t != t
    ensures t in s'.threads && s'.threads[t] == s.threads[t]
  {
    if step.Do? {
      DoMovesOneThread(s, step.t, step.pick);
    }
  }

  lemma StepOf(states: seq<State>, steps: seq<Step>, k: nat)
    requires IsRun(InitEmpty, NextApart, states, steps) && k < |steps|
    ensures NoGhostInv(states[k]) && NextApart(states[k], steps[k], states[k + 1])
  {
    NoGhostInvAlways(states, steps);
  }

  /** A join of the pair lands at one of the steps from `i` up to `j`. */
  ghost predicate LandsWithin(states: seq<State>, steps: seq<Step>, i: nat, j: nat, c: ConnectionId, r: RoomId)
    requires |states| == |steps| + 1
  {
    exists k :: i <= k < j <= |steps| && Lands(states[k], steps[k], c, r)
  }

  lemma LandsWithinNext(states: seq<State>, steps: seq<Step>, i: nat, j: nat, c: ConnectionId, r: RoomId)
    requires |states| == |steps| + 1 && i < j <= |steps|
    ensures LandsWithin(states, steps, i, j, c, r) <==>
              LandsWithin(states, steps, i, j - 1, c, r) || Lands(states[j - 1], steps[j - 1], c, r)
    ensures LandsWithin(states, steps, i, j, c, r) <==>
              LandsWithin(states, steps, i + 1, j, c, r) || Lands(states[i], steps[i], c, r)
  {
  }

  lemma MemberOneStep(states: seq<State>, steps: seq<Step>, k: nat, t: ThreadId, c: ConnectionId, r: RoomId)
    requires IsRun(InitEmpty, NextApart, states, steps) && k < |steps| && steps[k].t != t
    requires t in states[k].threads && states[k].threads[t] == JoinIndex(c, r)
    ensures t in states[k + 1].threads && states[k + 1].threads[t] == JoinIndex(c, r)
    ensures IsIn(states[k + 1], c, r) <==> IsIn(states[k], c, r) || Lands(states[k], steps[k], c, r)
  {
    StepOf(states, steps, k);
    JoinerWaits(states[k], steps[k], states[k + 1], t);
    MemberUntilListed(states[k], steps[k], states[k + 1], t, c, r);
  }

  /** Along a run, while thread `t` waits at its listing from state `i` to state `j`. */
  lemma {:induction false} MemberFrom(
    states: seq<State>, steps: seq<Step>, i: nat, j: nat, t: ThreadId, c: ConnectionId, r: RoomId)
    requires IsRun(InitEmpty, NextApart, states, steps) && i <= j <= |steps|
    requires t in states[i].threads && states[i].threads[t] == JoinIndex(c, r)
    requires forall k :: i <= k < j ==> steps[k].t != t
    ensures t in states[j].threads && states[j].threads[t] == JoinIndex(c, r)
    ensures IsIn(states[j], c, r) <==> IsIn(states[i], c, r) || LandsWithin(states, steps, i, j, c, r)
    decreases j - i
  {
    if i < j {
      MemberFrom(states, steps, i, j - 1, t, c, r);
      MemberOneStep(states, steps, j - 1, t, c, r);
      LandsWithinNext(states, steps, i, j, c, r);
    }
  }

  /**
   A join adds its member at step `i` and makes its next move, the listing, at step `j`. The pair is
   listed then; and it is in the room exactly if it was before, or its own insert, or that of another
   join of the pair meanwhile, found the room on file.
   */
  lemma JoinLandsIff(
    states: seq<State>, steps: seq<Step>, i: nat, j: nat,
    t: ThreadId, pick: string, c: ConnectionId, r: RoomId, cell: nat)
    requires IsRun(InitEmpty, NextApart, states, steps) && i < j < |steps|
    requires t in states[i].threads && states[i].threads[t] == JoinMember(c, r, cell)
    requires steps[i] == Do(t, pick) && steps[j].Do? && steps[j].t == t && forall k :: i < k < j ==> steps[k].t != t
    ensures IsListed(states[j + 1], c, r)
    ensures IsIn(states[j + 1], c, r) <==> IsIn(states[i], c, r) || LandsWithin(states, steps, i, j, c, r)
  {
    StepOf(states, steps, i);
    AddingLandsIff(states[i], states[i].threads[t], pick);
    MemberFrom(states, steps, i + 1, j, t, c, r);
    LandsWithinNext(states, steps, i, j, c, r);
    StepOf(states, steps, j);
    MemberUntilListed(states[j], steps[j], states[j + 1], t, c, r);
    assert CallFacts(states[j], JoinIndex(c, r));
  }

  lemma OthersDoNotLand(s: State, step: Step, t: ThreadId, c: ConnectionId, r: RoomId)
    requires OneEach(s) && t in s.threads && CallOf(s.threads[t], c) && step.t != t
    ensures !Lands(s, step, c, r)
  {
    assert AddsTo(s, step, c, r) ==> CallOf(s.threads[step.t], c);
  }

  /** With one call at a time per connection only the join's own insert counts. */
  lemma LoneJoinLandsIff(
    states: seq<State>, steps: seq<Step>, i: nat, j: nat,
    t: ThreadId, pick: string, c: ConnectionId, r: RoomId, cell: nat)
    requires IsRun(InitEmpty, NextOneEach, states, steps) && i < j < |steps|
    requires t in states[i].threads && states[i].threads[t] == JoinMember(c, r, cell)
    requires steps[i] == Do(t, pick) && steps[j].Do? && steps[j].t == t && forall k :: i < k < j ==> steps[k].t != t
    ensures IsListed(states[j + 1], c, r)
    ensures IsIn(states[j + 1], c, r) <==> IsIn(states[i], c, r) || (r in states[i].rooms && states[i].rooms[r] == cell)
  {
    forall s, step, s' | OneEach(s) && NextOneEach(s, step, s')
      ensures OneEach(s')
    {
      OneEachKept(s, step, s');
    }
    Invariance(InitEmpty, NextOneEach, OneEach, states, steps);
    JoinLandsIff(states, steps, i, j, t, pick, c, r, cell);
    StepOf(states, steps, i);
    forall k | i < k < j
      ensures !Lands(states[k], steps[k], c, r)
    {
      MemberFrom(states, steps, i + 1, k, t, c, r);
      OthersDoNotLand(states[k], steps[k], t, c, r);
    }
    assert Lands(states[i], steps[i], c, r) <==> r in states[i].rooms && states[i].rooms[r] == cell;
  }

  // ------------------------------------------------- listed for nothing, over whole runs

  ghost predicate AboutToList(s: State, c: ConnectionId, r: RoomId) {
    exists t :: t in s.threads && s.threads[t] == JoinIndex(c, r)
  }

  ghost predicate AboutToUnlist(s: State, c: ConnectionId, r: RoomId) {
    exists t :: t in s.threads && s.threads[t] == LeaveIndex(c, r)
  }

  /** A deletion of the room has still to unlist the pair. */
  ghost predicate BeingDeleted(s: State, c: ConnectionId, r: RoomId) {
    exists t :: t in s.threads && DeletionUnlists(s.cells, s.threads[t], c, r)
  }

  /** One pair in one state, with `missed` what `Missed` says of it there. */
  ghost predicate PairAccountedFor(s: State, missed: bool, c: ConnectionId, r: RoomId) {
    && (missed ==> !IsIn(s, c, r))
    && (AboutToList(s, c, r) ==> IsIn(s, c, r) || missed)
    && (IsListed(s, c, r) ==> IsIn(s, c, r) || missed || AboutToUnlist(s, c, r) || BeingDeleted(s, c, r))
    && (missed ==> IsListed(s, c, r) || AboutToList(s, c, r))
    && (BeingDeleted(s, c, r) ==> !missed)
  }

  /** Who is about to list or unlist the pair after a step: who was, and who stepped up to it. */
  lemma AboutToAfter(s: State, t: ThreadId, pick: string, c: ConnectionId, r: RoomId)
    requires Enabled(s, Do(t, pick)) && HoldsItsRoom(s.cells, s.threads[t])
    ensures var s', pc := DoStep(s, t, pick), s.threads[t];
            && (AboutToList(s', c, r) ==> AboutToList(s, c, r) || AddsTo(s, Do(t, pick), c, r))
            && (AboutToList(s, c, r) ==> AboutToList(s', c, r) || pc == JoinIndex(c, r))
            && (AddsTo(s, Do(t, pick), c, r) ==> AboutToList(s', c, r))
            && (AboutToUnlist(s, c, r) ==> AboutToUnlist(s', c, r) || pc == LeaveIndex(c, r))
            && (pc == LeaveMember(c, r) ==> AboutToUnlist(s', c, r))
  {
    var s' := DoStep(s, t, pick);
    DoMovesOneThread(s, t, pick);
    var next := Onward(s, s.threads[t], pick);
    assert next.Some? ==> t in s'.threads && s'.threads[t] == next.value;
    if u :| u in s.threads && u != t && s.threads[u] == JoinIndex(c, r) {
      assert u in s'.threads && s'.threads[u] == JoinIndex(c, r);
    }
    if u :| u in s.threads && u != t && s.threads[u] == LeaveIndex(c, r) {
      assert u in s'.threads && s'.threads[u] == LeaveIndex(c, r);
    }
  }

  /** The members of a room being deleted change no more: nobody joins it, and a leave finds another room on file. */
  lemma DetachedCellKept(s: State, t: ThreadId, pick: string, u: ThreadId)
    requires NoGhostInv(s) && Enabled(s, Do(t, pick)) && u in s.threads && u != t && s.threads[u].DeleteList?
    ensures s.threads[u].cell < |s.cells|
    ensures var s' := DoStep(s, t, pick);
            |s.cells| <= |s'.cells| && s'.cells[s.threads[u].cell].members == s.cells[s.threads[u].cell].members
  {
    var pc := s.threads[t];
    assert HoldsItsRoom(s.cells, s.threads[u]) && HoldsItsRoom(s.cells, pc);
    assert CallFacts(s, s.threads[u]) && Compatible(pc, s.threads[u]);
    EffectKeepsCellIds(s, pc, pick);
  }

  lemma DeletionGoesOn(s: State, t: ThreadId, pick: string, u: ThreadId, c: ConnectionId, r: RoomId)
    requires NoGhostInv(s) && Enabled(s, Do(t, pick)) && u in s.threads && u != t
    ensures var s' := DoStep(s, t, pick);
            && u in s'.threads && s'.threads[u] == s.threads[u]
            && (DeletionUnlists(s'.cells, s'.threads[u], c, r) <==> DeletionUnlists(s.cells, s.threads[u], c, r))
  {
    DoMovesOneThread(s, t, pick);
    if s.threads[u].DeleteList? {
      DetachedCellKept(s, t, pick, u);
    }
  }

  lemma OwnDeletionGoesOn(s: State, pc: Pc, pick: string, c: ConnectionId, r: RoomId)
    requires CanDo(s, pc, pick)
    ensures var s', next := Effect(s, pc, pick), Onward(s, pc, pick);
            && (next.Some? && DeletionUnlists(s'.cells, next.value, c, r) ==>
                  DeletionUnlists(s.cells, pc, c, r) || (pc == DeleteRemove(r) && IsIn(s, c, r)))
            && (pc == DeleteRemove(r) && IsIn(s, c, r) ==> next.Some? && DeletionUnlists(s'.cells, next.value, c, r))
            && (DeletionUnlists(s.cells, pc, c, r) ==>
                  (next.Some? && DeletionUnlists(s'.cells, next.value, c, r)) || !IsListed(s', c, r))
  {
  }

  /** Who is being deleted after a step: who was, and the members of a room taken off file. */
  lemma BeingDeletedAfter(s: State, t: ThreadId, pick: string, c: ConnectionId, r: RoomId)
    requires NoGhostInv(s) && Enabled(s, Do(t, pick))
    ensures var s', pc := DoStep(s, t, pick), s.threads[t];
            && (BeingDeleted(s', c, r) ==> BeingDeleted(s, c, r) || (pc == DeleteRemove(r) && IsIn(s, c, r)))
            && (pc == DeleteRemove(r) && IsIn(s, c, r) ==> BeingDeleted(s', c, r))
            && (BeingDeleted(s, c, r) ==> BeingDeleted(s', c, r) || !IsListed(s', c, r))
  {
    var s' := DoStep(s, t, pick);
    DoMovesOneThread(s, t, pick);
    OwnDeletionGoesOn(s, s.threads[t], pick, c, r);
    var next := Onward(s, s.threads[t], pick);
    assert next.Some? ==> t in s'.threads && s'.threads[t] == next.value;
    forall u | u in s.threads && u != t
      ensures u in s'.threads
      ensures DeletionUnlists(s'.cells, s'.threads[u], c, r) <==> DeletionUnlists(s.cells, s.threads[u], c, r)
    {
      DeletionGoesOn(s, t, pick, u, c, r);
    }
  }

  /** Nobody adds to a room that is being deleted. */
  lemma NobodyAddsMeanwhile(s: State, t: ThreadId, pick: string, c: ConnectionId, r: RoomId)
    requires NoGhostInv(s) && Enabled(s, Do(t, pick)) && BeingDeleted(s, c, r)
    ensures !AddsTo(s, Do(t, pick), c, r)
  {
    var u :| u in s.threads && DeletionUnlists(s.cells, s.threads[u], c, r);
    assert u != t ==> Compatible(s.threads[u], s.threads[t]);
  }

  /** While a call is about to list the pair, no other step takes it out of the room or out of the listing. */
  lemma NothingRemovesMeanwhile(s: State, t: ThreadId, pick: string, c: ConnectionId, r: RoomId)
    requires NoGhostInv(s) && Enabled(s, Do(t, pick)) && AboutToList(s, c, r)
    ensures !Clears(s, Do(t, pick), c, r)
    ensures IsIn(s, c, r) ==> IsIn(DoStep(s, t, pick), c, r)
  {
    var u :| u in s.threads && s.threads[u] == JoinIndex(c, r);
    assert u != t ==> Compatible(s.threads[u], s.threads[t]);
    if IsIn(s, c, r) {
      EffectKeepsMember(s, s.threads[t], pick, c, r);
    }
  }

  lemma MissedIsOut(s: State, t: ThreadId, pick: string, missed: bool, c: ConnectionId, r: RoomId)
    requires NoGhostInv(s) && Enabled(s, Do(t, pick)) && PairAccountedFor(s, missed, c, r)
    ensures var s', missed' := DoStep(s, t, pick), StillMissed(s, Do(t, pick), missed, c, r);
            && (missed' ==> !IsIn(s', c, r))
            && (AboutToList(s', c, r) ==> IsIn(s', c, r) || missed')
  {
    var pc := s.threads[t];
    assert HoldsItsRoom(s.cells, pc);
    EffectOnMember(s, pc, pick, c, r);
    AboutToAfter(s, t, pick, c, r);
    if AddsTo(s, Do(t, pick), c, r) {
      AddingLandsIff(s, pc, pick);
    } else if AboutToList(s, c, r) {
      NothingRemovesMeanwhile(s, t, pick, c, r);
    }
  }

  lemma ListedIsExplained(s: State, t: ThreadId, pick: string, missed: bool, c: ConnectionId, r: RoomId)
    requires NoGhostInv(s) && Enabled(s, Do(t, pick)) && PairAccountedFor(s, missed, c, r)
    ensures var s', missed' := DoStep(s, t, pick), StillMissed(s, Do(t, pick), missed, c, r);
            IsListed(s', c, r) ==> IsIn(s', c, r) || missed' || AboutToUnlist(s', c, r) || BeingDeleted(s', c, r)
  {
    var pc := s.threads[t];
    assert HoldsItsRoom(s.cells, pc) && CallFacts(s, pc);
    EffectOnListing(s, pc, pick, c, r);
    AboutToAfter(s, t, pick, c, r);
    BeingDeletedAfter(s, t, pick, c, r);
    if AddsTo(s, Do(t, pick), c, r) {
      AddingLandsIff(s, pc, pick);
    } else if pc == JoinIndex(c, r) {
      assert AboutToList(s, c, r);
      NothingRemovesMeanwhile(s, t, pick, c, r);
    } else if IsIn(s, c, r) {
      EffectKeepsMember(s, pc, pick, c, r);
    }
  }

  lemma MissedIsListed(s: State, t: ThreadId, pick: string, missed: bool, c: ConnectionId, r: RoomId)
    requires NoGhostInv(s) && Enabled(s, Do(t, pick)) && PairAccountedFor(s, missed, c, r)
    ensures var s', missed' := DoStep(s, t, pick), StillMissed(s, Do(t, pick), missed, c, r);
            && (missed' ==> IsListed(s', c, r) || AboutToList(s', c, r))
            && (BeingDeleted(s', c, r) ==> !missed')
  {
    var pc := s.threads[t];
    assert HoldsItsRoom(s.cells, pc) && CallFacts(s, pc);
    EffectOnListing(s, pc, pick, c, r);
    AboutToAfter(s, t, pick, c, r);
    BeingDeletedAfter(s, t, pick, c, r);
    if BeingDeleted(s, c, r) {
      NobodyAddsMeanwhile(s, t, pick, c, r);
    }
    assert pc.DeleteIndex? && pc.r == r && pick == c && pc.members != {} ==> DeletionUnlists(s.cells, pc, c, r);
  }

  lemma PairStaysAccountedFor(s: State, step: Step, s': State, missed: bool, c: ConnectionId, r: RoomId)
    requires NoGhostInv(s) && NextApart(s, step, s') && PairAccountedFor(s, missed, c, r)
    ensures PairAccountedFor(s', StillMissed(s, step, missed, c, r), c, r)
  {
    match step
    case Begin(t, pc) =>
      assert forall u :: u in s.threads ==> u in s'.threads && s'.threads[u] == s.threads[u];
    case Do(t, pick) =>
      MissedIsOut(s, t, pick, missed, c, r);
      ListedIsExplained(s, t, pick, missed, c, r);
      MissedIsListed(s, t, pick, missed, c, r);
  }

  lemma {:induction false} PairAlwaysAccountedFor(
    states: seq<State>, steps: seq<Step>, n: nat, c: ConnectionId, r: RoomId)
    requires IsRun(InitEmpty, NextApart, states, steps) && n < |states|
    ensures PairAccountedFor(states[n], Missed(states, steps, n, c, r), c, r)
  {
    if n > 0 {
      PairAlwaysAccountedFor(states, steps, n - 1, c, r);
      StepOf(states, steps, n - 1);
      PairStaysAccountedFor(states[n - 1], steps[n - 1], states[n], Missed(states, steps, n - 1, c, r), c, r);
    }
  }

  lemma NobodyUnlists(s: State, c: ConnectionId, r: RoomId)
    requires Idle(s, c)
    ensures !AboutToList(s, c, r) && !AboutToUnlist(s, c, r)
  {
    assert forall t :: t in s.threads ==> !CallOf(s.threads[t], c);
  }

  lemma BeingDeletedIsOut(s: State, c: ConnectionId, r: RoomId)
    requires NoGhostInv(s) && BeingDeleted(s, c, r)
    ensures !IsIn(s, c, r)
  {
    var t :| t in s.threads && DeletionUnlists(s.cells, s.threads[t], c, r);
    assert CallFacts(s, s.threads[t]);
  }

  /**
   The index in any state of any run whose calls do not clash: a connection with no call in flight is
   listed for every room it is in and for those its last join of which missed, and for no other, unless
   a deletion of the room is still going to unlist it.
   */
  lemma ListedIffInOrMissed(states: seq<State>, steps: seq<Step>, i: nat, c: ConnectionId, r: RoomId)
    requires IsRun(InitEmpty, NextApart, states, steps) && i < |states| && Idle(states[i], c)
    ensures IsIn(states[i], c, r) || Missed(states, steps, i, c, r) ==> IsListed(states[i], c, r)
    ensures IsListed(states[i], c, r) ==>
              IsIn(states[i], c, r) || Missed(states, steps, i, c, r) || BeingDeleted(states[i], c, r)
    ensures !(IsIn(states[i], c, r) && Missed(states, steps, i, c, r))
    ensures BeingDeleted(states[i], c, r) ==> !IsIn(states[i], c, r) && !Missed(states, steps, i, c, r)
  {
    var s := states[i];
    NoGhostMembers(states, steps, i, c, r);
    PairAlwaysAccountedFor(states, steps, i, c, r);
    NobodyUnlists(s, c, r);
    if BeingDeleted(s, c, r) {
      NoGhostInvAlways(states, steps);
      BeingDeletedIsOut(s, c, r);
    }
  }

  /** So with no call for the connection and no deletion of the room in flight, exactly those. */
  lemma ListedIffInOrMissedAtRest(states: seq<State>, steps: seq<Step>, i: nat, c: ConnectionId, r: RoomId)
    requires IsRun(InitEmpty, NextApart, states, steps) && i < |states| && Idle(states[i], c)
    requires forall t :: t in states[i].threads && KindOf(states[i].threads[t]).Deletion? ==>
                           states[i].threads[t].r != r
    ensures IsListed(states[i], c, r) <==> IsIn(states[i], c, r) || Missed(states, steps, i, c, r)
  {
    ListedIffInOrMissed(states, steps, i, c, r);
    assert forall t :: t in states[i].threads && DeletionUnlists(states[i].cells, states[i].threads[t], c, r) ==>
        KindOf(states[i].threads[t]).Deletion?;
  }
}
