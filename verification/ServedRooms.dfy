/**
 The accept loop beside the room manager: connection tasks hold slots while they register and unregister
 their connections, one map operation at a time, among any other calls on the manager.
 */
module ServedRooms {
  import opened Connections
  import opened Runs
  import opened RoomSteps
  import opened Messages
  import Slots = AcceptLoop

  type Manager = RoomSteps.State

  /** Where a task is with its connection; a call of its own is a thread of the manager. */
  datatype Stage = Registering(thread: ThreadId) | Serving | Unregistering(thread: ThreadId)

  /** `stages`: the tasks between the beginning of their registration and the return of their unregistration. */
  datatype State = State(
    slots: Slots.State,
    rooms: Manager,
    stages: map<Slots.TaskId, Stage>,
    ids: map<Slots.TaskId, ConnectionId>)

  /**
   `Accepting`: a step of the accept loop or the end of a task. `Works`: the call of a task moves on. `Calls` and
   `Moves`: anybody else begins a call, or moves on with one.
   */
  datatype Step =
    | Accepting(step: Slots.Step)
    | Registers(task: Slots.TaskId, thread: ThreadId, id: ConnectionId)
    | Unregisters(task: Slots.TaskId, thread: ThreadId)
    | Works(task: Slots.TaskId, pick: string)
    | Calls(thread: ThreadId, pc: Pc)
    | Moves(thread: ThreadId, pick: string)

  ghost predicate Init(s: State) {
    Slots.Init(s.slots) && InitEmpty(s.rooms) && s.stages == map[] && s.ids == map[]
  }

  predicate OwnCall(stage: Stage, thread: ThreadId) {
    !stage.Serving? && stage.thread == thread
  }

  /** The map operation a step makes or the call it begins. */
  function Inner(s: State, step: Step): Option<RoomSteps.Step> {
    match step
    case Accepting(_) => None
    case Registers(_, u, id) => Some(Begin(u, RegisterConnection(id)))
    case Unregisters(t, u) => if t in s.ids then Some(Begin(u, UnregisterIndex(s.ids[t]))) else None
    case Works(t, pick) => if t in s.stages && !s.stages[t].Serving? then Some(Do(s.stages[t].thread, pick)) else None
    case Calls(u, pc) => Some(Begin(u, pc))
    case Moves(u, pick) => Some(Do(u, pick))
  }

  /** Ids are new; only the tasks register, each its own connection once; other calls are free. */
  ghost predicate Possible(s: State, step: Step) {
    match step
    case Accepting(a) => !a.Registers? && !a.Unregisters? && Slots.Enabled(s.slots, a)
    case Registers(t, _, id) => Slots.Enabled(s.slots, Slots.Registers(t)) && t !in s.ids && id !in s.rooms.ever
    case Unregisters(t, _) => t in s.stages && s.stages[t] == Serving && t in s.ids
    case Works(t, _) => t in s.stages && !s.stages[t].Serving? && Slots.Enabled(s.slots, Slots.Unregisters(t))
    case Calls(_, pc) => !pc.RegisterConnection?
    case Moves(u, _) => forall t :: t in s.stages ==> !OwnCall(s.stages[t], u)
  }

  ghost predicate Enabled(s: State, step: Step) {
    Possible(s, step) && (Inner(s, step).Some? ==> RoomSteps.Enabled(s.rooms, Inner(s, step).value))
  }

  function RoomsAfter(s: State, step: Step): Manager
    requires Inner(s, step).Some? ==> RoomSteps.Enabled(s.rooms, Inner(s, step).value)
  {
    if Inner(s, step).Some? then RoomSteps.Apply(s.rooms, Inner(s, step).value) else s.rooms
  }

  ghost function Apply(s: State, step: Step): State
    requires Enabled(s, step)
  {
    var after := s.(rooms := RoomsAfter(s, step));
    match step
    case Accepting(a) => s.(slots := Slots.Apply(s.slots, a))
    case Registers(t, u, id) =>
      after.(slots := Slots.Apply(s.slots, Slots.Registers(t)),
      stages := s.stages[t := Registering(u)],
      ids := s.ids[t := id])
    case Unregisters(t, u) => after.(stages := s.stages[t := Unregistering(u)])
    case Works(t, _) =>
      if s.stages[t].thread in after.rooms.threads then after
      else if s.stages[t].Registering? then after.(stages := s.stages[t := Serving])
      else after.(slots := Slots.Apply(s.slots, Slots.Unregisters(t)), stages := s.stages - {t})
    case _ => after
  }

  ghost predicate Next(s: State, step: Step, s': State) {
    Enabled(s, step) && s' == Apply(s, step)
  }

  // ------------------------------------------------------------------- tasks and threads

  /** The tasks with a stage are those the accept loop counts as served. */
  ghost predicate TasksServed(s: State) {
    && (forall t :: t in s.stages <==> t in s.slots.tasks && s.slots.tasks[t] == Slots.Served)
    && s.stages.Keys <= s.ids.Keys
  }

  predicate RegistrationOf(pc: Pc, id: ConnectionId) {
    KindOf(pc).Registration? && pc.c == id
  }

  /** The thread of a task is at the call its stage says. */
  predicate AtItsCall(s: State, t: Slots.TaskId)
    requires t in s.stages && t in s.ids
  {
    match s.stages[t]
    case Registering(u) => u in s.rooms.threads && RegistrationOf(s.rooms.threads[u], s.ids[t])
    case Serving => true
    case Unregistering(u) =>
      u in s.rooms.threads && KindOf(s.rooms.threads[u]).Unregistration? && s.rooms.threads[u].c == s.ids[t]
  }

  /** No two tasks share a thread. */
  ghost predicate ThreadsApart(stages: map<Slots.TaskId, Stage>) {
    forall t, t' :: t in stages && t' in stages && t != t' && !stages[t].Serving? ==>
                      !OwnCall(stages[t'], stages[t].thread)
  }

  ghost predicate ThreadsFollow(s: State)
    requires TasksServed(s)
  {
    ThreadsApart(s.stages) && forall t :: t in s.stages ==> AtItsCall(s, t)
  }

  /** Nobody registers but the tasks. */
  ghost predicate RegistrationsOwned(s: State) {
    forall u :: u in s.rooms.threads && KindOf(s.rooms.threads[u]).Registration? ==>
      exists t :: t in s.stages && s.stages[t] == Registering(u)
  }

  /** Each task has an id of its own. */
  ghost predicate IdsDistinct(s: State) {
    && s.ids.Values <= s.rooms.ever
    && (forall t, t' :: t in s.ids && t' in s.ids && t != t' ==> s.ids[t] != s.ids[t'])
  }

  ghost predicate HasTask(s: State, c: ConnectionId) {
    exists t :: t in s.stages && t in s.ids && s.ids[t] == c
  }

  ghost predicate ConnectionsOwned(s: State) {
    forall c :: c in s.rooms.connections ==> HasTask(s, c)
  }

  ghost predicate Inv(s: State) {
    && Slots.Inv(s.slots)
    && TasksServed(s)
    && ThreadsFollow(s)
    && RegistrationsOwned(s)
    && IdsDistinct(s)
    && ConnectionsOwned(s)
  }

  lemma InitHolds(s: State)
    requires Init(s)
    ensures Inv(s)
  {
  }

  lemma SlotsKept(s: State, step: Step, s': State)
    requires Slots.Inv(s.slots) && TasksServed(s) && Next(s, step, s')
    ensures Slots.Inv(s'.slots) && TasksServed(s')
  {
    if step.Accepting? {
      Slots.InvKept(s.slots, step.step, s'.slots);
    } else if step.Registers? {
      Slots.InvKept(s.slots, Slots.Registers(step.task), s'.slots);
    } else if s'.slots != s.slots {
      Slots.InvKept(s.slots, Slots.Unregisters(step.task), s'.slots);
    }
  }

  /** One operation on the registered ids: who comes, and that an unregistration takes its own away at its end. */
  lemma EffectOnConnections(m: Manager, pc: Pc, pick: string, c: ConnectionId)
    requires CanDo(m, pc, pick)
    ensures c in Effect(m, pc, pick).connections && c !in m.connections ==> pc == RegisterConnection(c)
    ensures KindOf(pc).Unregistration? && pc.c == c && Onward(m, pc, pick).None? ==>
              c !in Effect(m, pc, pick).connections
  {
  }

  lemma ThreadsApartKept(s: State, step: Step, s': State)
    requires TasksServed(s) && ThreadsFollow(s) && Next(s, step, s')
    ensures ThreadsApart(s'.stages)
  {
    assert forall t :: t in s.stages ==> AtItsCall(s, t);
  }

  lemma CallKept(s: State, step: Step, s': State, t: Slots.TaskId)
    requires TasksServed(s) && ThreadsFollow(s) && Next(s, step, s') && TasksServed(s') && t in s'.stages
    ensures AtItsCall(s', t)
  {
    if Inner(s, step).Some? && Inner(s, step).value.Do? {
      DoMovesOneThread(s.rooms, Inner(s, step).value.t, Inner(s, step).value.pick);
    }
    assert t in s.stages ==> AtItsCall(s, t);
  }

  lemma ThreadsFollowKept(s: State, step: Step, s': State)
    requires TasksServed(s) && ThreadsFollow(s) && Next(s, step, s') && TasksServed(s')
    ensures ThreadsFollow(s')
  {
    ThreadsApartKept(s, step, s');
    forall t | t in s'.stages
      ensures AtItsCall(s', t)
    {
      CallKept(s, step, s', t);
    }
  }

  lemma RegistrationsOwnedKept(s: State, step: Step, s': State)
    requires TasksServed(s) && ThreadsFollow(s) && RegistrationsOwned(s) && Next(s, step, s')
    ensures RegistrationsOwned(s')
  {
    if Inner(s, step).Some? && Inner(s, step).value.Do? {
      DoMovesOneThread(s.rooms, Inner(s, step).value.t, Inner(s, step).value.pick);
    }
    forall u | u in s'.rooms.threads && KindOf(s'.rooms.threads[u]).Registration?
      ensures exists t :: t in s'.stages && s'.stages[t] == Registering(u)
    {
      if step.Registers? && u == step.thread {
        assert s'.stages[step.task] == Registering(u);
      } else {
        assert u in s.rooms.threads && KindOf(s.rooms.threads[u]).Registration?;
        var t :| t in s.stages && s.stages[t] == Registering(u);
        assert AtItsCall(s, t);
        assert t in s'.stages && s'.stages[t] == Registering(u);
      }
    }
  }

  lemma IdsDistinctKept(s: State, step: Step, s': State)
    requires IdsDistinct(s) && Next(s, step, s')
    ensures IdsDistinct(s')
  {
    if Inner(s, step).Some? && Inner(s, step).value.Do? {
      DoMovesOneThread(s.rooms, Inner(s, step).value.t, Inner(s, step).value.pick);
    }
  }

  lemma ConnectionsOwnedKept(s: State, step: Step, s': State)
    requires Inv(s) && Next(s, step, s')
    ensures ConnectionsOwned(s')
  {
    forall c | c in s'.rooms.connections
      ensures HasTask(s', c)
    {
      if Inner(s, step).Some? && Inner(s, step).value.Do? {
        var u, pick := Inner(s, step).value.t, Inner(s, step).value.pick;
        EffectOnConnections(s.rooms, s.rooms.threads[u], pick, c);
        OwnerKept(s, step, s', u, pick, c);
      } else {
        var t :| t in s.stages && t in s.ids && s.ids[t] == c;
        assert t in s'.stages && t in s'.ids && s'.ids[t] == c;
      }
    }
  }

  /** A registered id after an operation has the task it had, or the one that has just registered it. */
  lemma OwnerKept(s: State, step: Step, s': State, u: ThreadId, pick: string, c: ConnectionId)
    requires Inv(s) && Next(s, step, s') && Inner(s, step) == Some(Do(u, pick)) && c in s'.rooms.connections
    requires c !in s.rooms.connections ==> s.rooms.threads[u] == RegisterConnection(c)
    requires var pc := s.rooms.threads[u];
             KindOf(pc).Unregistration? && pc.c == c ==> Onward(s.rooms, pc, pick).Some?
    ensures HasTask(s', c)
  {
    var t;
    if c in s.rooms.connections {
      t :| t in s.stages && t in s.ids && s.ids[t] == c;
    } else {
      t :| t in s.stages && s.stages[t] == Registering(u);
    }
    assert AtItsCall(s, t) && s.ids[t] == c;
    assert t in s'.stages && t in s'.ids && s'.ids[t] == c;
  }

  lemma InvKept(s: State, step: Step, s': State)
    requires Inv(s) && Next(s, step, s')
    ensures Inv(s')
  {
    SlotsKept(s, step, s');
    ThreadsFollowKept(s, step, s');
    RegistrationsOwnedKept(s, step, s');
    IdsDistinctKept(s, step, s');
    ConnectionsOwnedKept(s, step, s');
  }

  /** Owned by distinct tasks, the connections are no more than the tasks. */
  lemma {:induction false} NoMoreThanOwners(
    connections: set<ConnectionId>, ids: map<Slots.TaskId, ConnectionId>, tasks: set<Slots.TaskId>)
    requires forall c :: c in connections ==> exists t :: t in tasks && t in ids && ids[t] == c
    ensures |connections| <= |tasks|
    decreases tasks
  {
    if connections != {} {
      var c :| c in connections;
      var t :| t in tasks && t in ids && ids[t] == c;
      forall d | d in connections - {c}
        ensures exists t' :: t' in tasks - {t} && t' in ids && ids[t'] == d
      {
        var t' :| t' in tasks && t' in ids && ids[t'] == d;
        assert t' in tasks - {t};
      }
      NoMoreThanOwners(connections - {c}, ids, tasks - {t});
    }
  }

  /**
   The limit is one on the manager's own map: however tasks, their registrations, their unregistrations and all
   other calls interleave, the registered connections and the free slots together never exceed
   max_connections; and when a task has given back its slot its connection is not registered.
   */
  lemma TheManagerStaysWithinTheLimit(states: seq<State>, steps: seq<Step>, i: nat)
    requires IsRun(Init, Next, states, steps) && i < |states|
    ensures var s := states[i];
            && |s.rooms.connections| + s.slots.free <= s.slots.max
            && (forall t :: t in s.ids && t !in s.slots.tasks ==> s.ids[t] !in s.rooms.connections)
  {
    forall s, step, s' | Inv(s) && Next(s, step, s')
      ensures Inv(s')
    {
      InvKept(s, step, s');
    }
    Invariance(Init, Next, Inv, states, steps);
    var s := states[i];
    assert Inv(s);
    forall c | c in s.rooms.connections
      ensures exists t :: t in s.slots.tasks.Keys && t in s.ids && s.ids[t] == c
    {
      assert HasTask(s, c);
      var t :| t in s.stages && t in s.ids && s.ids[t] == c;
      assert t in s.slots.tasks.Keys;
    }
    NoMoreThanOwners(s.rooms.connections, s.ids, s.slots.tasks.Keys);
  }

  /** A task is never stuck: it can register, its own call can move on, or it can unregister. */
  lemma TasksGoOn(s: State, t: Slots.TaskId, thread: ThreadId, id: ConnectionId) returns (step: Step)
    requires Inv(s) && t in s.slots.tasks && s.slots.tasks[t] != Slots.Leaving
    requires thread !in s.rooms.threads && id !in s.rooms.ever && (t in s.ids ==> t in s.stages)
    ensures Enabled(s, step) && (step.Registers? || step.Works? || step.Unregisters?) && step.task == t
  {
    if t !in s.stages {
      step := Registers(t, thread, id);
    } else if s.stages[t].Serving? {
      step := Unregisters(t, thread);
    } else {
      assert AtItsCall(s, t);
      var pc := s.rooms.threads[s.stages[t].thread];
      var pick := "";
      if pc.UnregisterVisit? && pc.todo != {} {
        pick :| pick in pc.todo;
      }
      step := Works(t, pick);
    }
  }
}
