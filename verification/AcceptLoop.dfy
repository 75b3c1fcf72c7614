/**
 The accept loop of src/server.rs and the connection tasks it spawns: each task holds one permit of
 the slot semaphore from before its handshake until it ends, however it ends.
 */
module AcceptLoop {
  import opened Runs

  type TaskId = nat

  /** `Served`: in the room manager. `Leaving`: out of it again, the permit not yet dropped. */
  datatype Phase = Handshaking | Served | Leaving

  /** `ended` counts the tasks that are over. */
  datatype State = State(max: nat, free: nat, tasks: map<TaskId, Phase>, spawned: set<TaskId>, ended: nat)

  datatype Step =
    | Accepts(t: TaskId)
    | Rejects
    | AcceptFails
    | Registers(t: TaskId)
    | Unregisters(t: TaskId)
    | TaskEnds(t: TaskId)

  ghost predicate Init(s: State) {
    s.max > 0 && s == State(s.max, s.max, map[], {}, 0)
  }

  predicate Enabled(s: State, step: Step) {
    match step
    case Accepts(t) => s.free > 0 && t !in s.spawned
    case Rejects => s.free == 0
    case AcceptFails => true
    case Registers(t) => t in s.tasks && s.tasks[t] == Handshaking
    case Unregisters(t) => t in s.tasks && s.tasks[t] == Served
    case TaskEnds(t) => t in s.tasks && s.tasks[t] != Served
  }

  function Apply(s: State, step: Step): State
    requires Enabled(s, step)
  {
    match step
    case Accepts(t) => s.(free := s.free - 1, tasks := s.tasks[t := Handshaking], spawned := s.spawned + {t})
    case Rejects => s
    case AcceptFails => s
    case Registers(t) => s.(tasks := s.tasks[t := Served])
    case Unregisters(t) => s.(tasks := s.tasks[t := Leaving])
    case TaskEnds(t) => s.(tasks := s.tasks - {t}, free := s.free + 1, ended := s.ended + 1)
  }

  ghost predicate Next(s: State, step: Step, s': State) {
    Enabled(s, step) && s' == Apply(s, step)
  }

  ghost predicate Inv(s: State) {
    && s.free + |s.tasks.Keys| == s.max
    && s.tasks.Keys <= s.spawned
    && |s.spawned| == |s.tasks.Keys| + s.ended
  }

  lemma InvKept(s: State, step: Step, s': State)
    requires Inv(s) && Next(s, step, s')
    ensures Inv(s')
  {
    match step
    case Accepts(t) => assert s'.tasks.Keys == s.tasks.Keys + {t};
    case Registers(t) => assert s'.tasks.Keys == s.tasks.Keys;
    case Unregisters(t) => assert s'.tasks.Keys == s.tasks.Keys;
    case TaskEnds(t) => assert s'.tasks.Keys == s.tasks.Keys - {t};
    case _ =>
  }

  function ServedTasks(s: State): set<TaskId> {
    set t | t in s.tasks && s.tasks[t] == Served
  }

  /**
   Slots are conserved: free slots and live tasks always add up to the limit and every task that is
   over has given back exactly one slot. So no more than the limit are ever registered, and a peer
   is turned away only while the limit's worth of tasks is live.
   */
  lemma SlotsAreConserved(states: seq<State>, steps: seq<Step>, i: nat)
    requires IsRun(Init, Next, states, steps) && i < |states|
    ensures var s := states[i];
            && s.max == states[0].max
            && s.free + |s.tasks| == s.max
            && |s.spawned| == s.max - s.free + s.ended
            && |ServedTasks(s)| <= s.max
            && (i < |steps| && steps[i].Rejects? ==> |s.tasks| == s.max)
  {
    forall s, step, s' | Inv(s) && Next(s, step, s')
      ensures Inv(s')
    {
      InvKept(s, step, s');
    }
    Invariance(Init, Next, Inv, states, steps);
    Stability(Init, Next, (x: State) => x.max == states[0].max, states, steps, 0, i);
    var s := states[i];
    assert Inv(s) && |s.tasks.Keys| == |s.tasks|;
    SubsetSize(ServedTasks(s), s.tasks.Keys);
    if i < |steps| {
      assert Next(states[i], steps[i], states[i + 1]);
    }
  }

  lemma SubsetSize(a: set<TaskId>, b: set<TaskId>)
    requires a <= b
    ensures |a| <= |b|
  {
    assert b == a + (b - a);
  }

  /**
   A slot is all it takes: in every reachable state a new task can be accepted exactly if fewer than the limit are
   live, and a peer is turned away exactly if not; and an accepted task can be served at once.
   */
  lemma AcceptsWhileBelowTheLimit(states: seq<State>, steps: seq<Step>, i: nat, t: TaskId)
    requires IsRun(Init, Next, states, steps) && i < |states| && t !in states[i].spawned
    ensures Enabled(states[i], Accepts(t)) <==> |states[i].tasks| < states[i].max
    ensures Enabled(states[i], Rejects) <==> |states[i].tasks| == states[i].max
    ensures Enabled(states[i], Accepts(t)) ==>
              var s := Apply(states[i], Accepts(t));
              Enabled(s, Registers(t)) && ServedTasks(Apply(s, Registers(t))) == ServedTasks(states[i]) + {t}
    ensures states[0].max >= 1 && Enabled(states[0], Accepts(t))
  {
    SlotsAreConserved(states, steps, i);
    TasksWereSpawned(states, steps, i);
    var s := states[i];
    if Enabled(s, Accepts(t)) {
      var after := Apply(Apply(s, Accepts(t)), Registers(t));
      assert forall u :: u in ServedTasks(after) <==> u in ServedTasks(s) || u == t;
    }
    assert Init(states[0]);
  }

  lemma TasksWereSpawned(states: seq<State>, steps: seq<Step>, i: nat)
    requires IsRun(Init, Next, states, steps) && i < |states|
    ensures states[i].tasks.Keys <= states[i].spawned
  {
    forall s, step, s' | Inv(s) && Next(s, step, s')
      ensures Inv(s')
    {
      InvKept(s, step, s');
    }
    Invariance(Init, Next, Inv, states, steps);
  }

  /** A live task can always go on to the end of its connection, and give its slot back. */
  lemma TasksCanEnd(s: State, t: TaskId)
    requires t in s.tasks
    ensures s.tasks[t] == Served ==> Enabled(s, Unregisters(t)) && Enabled(Apply(s, Unregisters(t)), TaskEnds(t))
    ensures s.tasks[t] != Served ==> Enabled(s, TaskEnds(t)) && Apply(s, TaskEnds(t)).free == s.free + 1
  {
  }
}
