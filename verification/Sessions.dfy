/**
 What becomes of a served connection, described step by step: the index and the connection's own link,
 as the read loop, the handler's callbacks and other tasks use them in turn.
 */
module Sessions {
  import opened Messages
  import opened Connections
  import opened RoomIndex
  import opened ServerLoop

  /** The room manager's maps and the connection's link. */
  datatype Place = Place(index: Index, link: Link)

  /** How somebody other than the loop uses the connection: sending, closing, or as its writer. */
  datatype Use = Sends(message: Message) | Closes | WriterTakes | WriterGone

  /** What others do in a while: calls on the manager and uses of the connection, which do not touch each other. */
  datatype Deeds = Deeds(calls: seq<Call>, uses: seq<Use>)

  function AfterUse(l: Link, use: Use): Link {
    match use
    case Sends(m) => AfterSend(l, m)
    case Closes => AfterClose(l)
    case WriterTakes => if l.live && l.queue != [] then l.(queue := l.queue[1..]) else l
    case WriterGone => l.(live := false)
  }

  function UseAll(l: Link, uses: seq<Use>): Link {
    if uses == [] then l else AfterUse(UseAll(l, uses[..|uses| - 1]), uses[|uses| - 1])
  }

  lemma UseNext(l: Link, uses: seq<Use>, use: Use)
    ensures UseAll(l, uses + [use]) == AfterUse(UseAll(l, uses), use)
  {
    assert (uses + [use])[..|uses|] == uses;
  }

  function DoAll(place: Place, deeds: Deeds): Place {
    Place(Run(place.index, deeds.calls), UseAll(place.link, deeds.uses))
  }

  /**
   Around one event of the loop: what others do while its callback runs, what on_ping answers if that is the
   callback, and what others do after that until the next event.
   */
  datatype Around = Around(during: Deeds, answer: seq<byte>, after: Deeds)

  /**
   What others do: between registration and on_connect, from there to the loop's first event, around each event,
   while the teardown waits for the writer, and from on_disconnect to the unregistration.
   */
  datatype Meanwhile = Meanwhile(
    early: Deeds, connected: Deeds, events: seq<Around>, closing: Deeds, late: Deeds)

  /** A callback, with the ids registered and the connection's state when it is made. */
  datatype Made = Made(callback: Callback, registered: set<ConnectionId>, state: ConnectionState)

  function Tagged(callbacks: seq<Callback>, place: Place): seq<Made> {
    seq(|callbacks|, i requires 0 <= i < |callbacks| => Made(callbacks[i], place.index.connections, place.link.state))
  }

  function Callbacks(made: seq<Made>): seq<Callback> {
    seq(|made|, i requires 0 <= i < |made| => made[i].callback)
  }

  // ------------------------------------------------------------------- one event of the loop

  /** Whether the loop's ping goes into the queue is decided when it is sent. */
  function Resolved(e: Event, link: Link): Event {
    if e.Tick? then Tick(link.Accepts()) else e
  }

  /** The heartbeat sends an empty Ping, unless it gives up; noticing an eviction takes the permit. */
  function AtEvent(l: Link, e: Event, silent: nat): Link {
    if e.Tick? && silent < MAX_MISSED_HEARTBEATS then AfterSend(l, Message(Ping, []))
    else if e.EvictionNoticed? then l.(permit := false)
    else l
  }

  /** A Ping is answered with what on_ping has returned. */
  function Answered(l: Link, e: Event, answer: seq<byte>): Link {
    if e.Frame? && e.raw.RawPing? then AfterSend(l, Message(Pong, answer)) else l
  }

  /** The events so far as they turned out, where they have led, the callbacks made and what others called. */
  datatype Session = Session(script: Script, place: Place, made: seq<Made>, calls: seq<Call>)

  function Advance(p: Principal, s: Session, te: Timed, a: Around): Session {
    var e := Resolved(te.event, s.place.link);
    var at := s.place.(link := AtEvent(s.place.link, e, SilentTicks(s.script)));
    var done := DoAll(at, a.during);
    Session(
      s.script + [Timed(te.at, e)],
      DoAll(done.(link := Answered(done.link, e, a.answer)), a.after),
      s.made + Tagged(CallbackOf(p, e), at),
      s.calls + a.during.calls + a.after.calls)
  }

  /** `n` steps, one after the other. */
  function Fold<S>(first: S, step: (nat, S) -> S, n: nat): S {
    if n == 0 then first else step(n - 1, Fold(first, step, n - 1))
  }

  lemma {:induction false} FoldKeeps<S(!new)>(first: S, step: (nat, S) -> S, n: nat, kept: (nat, S) -> bool)
    requires kept(0, first)
    requires forall k: nat, s :: k < n && kept(k, s) ==> kept(k + 1, step(k, s))
    ensures kept(n, Fold(first, step, n))
  {
    if n > 0 {
      FoldKeeps(first, step, n - 1, kept);
    }
  }

  /** The loop's reaction to its `k`-th event. */
  function Stepper(p: Principal, script: Script, events: seq<Around>): (nat, Session) -> Session
    requires |script| <= |events|
  {
    (k: nat, s: Session) => if k < |script| then Advance(p, s, script[k], events[k]) else s
  }

  /** The first `n` events of the loop, which begins at `start`. */
  function Through(p: Principal, start: Place, script: Script, events: seq<Around>, n: nat): Session
    requires n <= |script| <= |events|
  {
    Fold(Session([], start, [], []), Stepper(p, script, events), n)
  }

  /** The maps are what the others' calls have made of them. */
  predicate OthersOnly(ix: Index, s: Session) {
    s.place.index == Run(ix, s.calls)
  }

  lemma OthersOnlyNext(ix: Index, p: Principal, s: Session, te: Timed, a: Around)
    requires OthersOnly(ix, s)
    ensures OthersOnly(ix, Advance(p, s, te, a))
  {
    RunAppend(ix, s.calls, a.during.calls);
    RunAppend(ix, s.calls + a.during.calls, a.after.calls);
  }

  /** The events are those of the script but for what became of the pings. */
  predicate TurnedOut(script: Script, resolved: Script) {
    && |resolved| <= |script|
    && forall k :: 0 <= k < |resolved| ==>
         && resolved[k].at == script[k].at
         && (resolved[k].event == script[k].event || (resolved[k].event.Tick? && script[k].event.Tick?))
  }

  lemma TurnedOutNext(p: Principal, s: Session, te: Timed, a: Around, script: Script)
    requires TurnedOut(script, s.script) && |s.script| < |script| && script[|s.script|] == te
    ensures TurnedOut(script, Advance(p, s, te, a).script)
    ensures |Advance(p, s, te, a).script| == |s.script| + 1
  {
  }

  predicate CallbacksFollow(p: Principal, s: Session) {
    Callbacks(s.made) == LoopCallbacks(p, s.script)
  }

  lemma TaggedCallbacks(made: seq<Made>, callbacks: seq<Callback>, place: Place)
    ensures Callbacks(made + Tagged(callbacks, place)) == Callbacks(made) + callbacks
  {
  }

  lemma CallbacksNext(p: Principal, s: Session, te: Timed, a: Around)
    requires CallbacksFollow(p, s)
    ensures CallbacksFollow(p, Advance(p, s, te, a))
  {
    var e := Resolved(te.event, s.place.link);
    TaggedCallbacks(s.made, CallbackOf(p, e), s.place.(link := AtEvent(s.place.link, e, SilentTicks(s.script))));
    assert Front(s.script + [Timed(te.at, e)]) == s.script;
  }

  // ------------------------------------------------------------------ it ends, and who stays

  /** The event ends the loop whatever went before. */
  predicate EndsAnyway(e: Event) {
    e.EvictionNoticed? || e.IdleElapsed? || e.ReadError? || e.EndOfStream? || (e.Frame? && e.raw.RawClose?)
  }

  /** Sooner or later the connection is evicted, falls idle, fails or is closed by its peer. */
  ghost predicate WillEnd(script: Script) {
    exists k :: 0 <= k < |script| && EndsAnyway(script[k].event)
  }

  lemma {:induction false} LiveHasNoEnd(script: Script, k: nat)
    requires Live(script) && k < |script|
    ensures !EndsAnyway(script[k].event)
  {
    if k < |script| - 1 {
      LiveHasNoEnd(Front(script), k);
    }
  }

  /** Nobody else registers or unregisters the connection. */
  predicate Spares(calls: seq<Call>, id: ConnectionId) {
    forall call :: call in calls ==> call != Register(id) && call != Unregister(id)
  }

  lemma {:induction false} StaysRegistered(ix: Index, calls: seq<Call>, id: ConnectionId)
    requires id in ix.connections && Spares(calls, id)
    ensures id in Run(ix, calls).connections
  {
    if calls != [] {
      var n := |calls| - 1;
      assert calls[n] in calls && forall call :: call in calls[..n] ==> call in calls;
      StaysRegistered(ix, calls[..n], id);
    }
  }

  predicate SparedAround(events: seq<Around>, id: ConnectionId) {
    forall i :: 0 <= i < |events| ==> Spares(events[i].during.calls, id) && Spares(events[i].after.calls, id)
  }

  /** The connection is registered, and was at every callback. */
  ghost predicate RegisteredSoFar(id: ConnectionId, s: Session) {
    && id in s.place.index.connections
    && Spares(s.calls, id)
    && forall made :: made in s.made ==> id in made.registered
  }

  lemma RegisteredNext(p: Principal, s: Session, te: Timed, a: Around, id: ConnectionId)
    requires RegisteredSoFar(id, s) && Spares(a.during.calls, id) && Spares(a.after.calls, id)
    ensures RegisteredSoFar(id, Advance(p, s, te, a))
  {
    StaysRegistered(s.place.index, a.during.calls, id);
    StaysRegistered(Run(s.place.index, a.during.calls), a.after.calls, id);
  }

  // ---------------------------------------------------------------- all of it, at every event

  /** What holds at the start and is kept by every event holds all along. */
  lemma ThroughKeeps(
    p: Principal, start: Place, script: Script, events: seq<Around>, n: nat, kept: (nat, Session) -> bool)
    requires n <= |script| <= |events|
    requires kept(0, Session([], start, [], []))
    requires forall k: nat, s :: k < n && kept(k, s) ==> kept(k + 1, Advance(p, s, script[k], events[k]))
    ensures kept(n, Through(p, start, script, events, n))
  {
    FoldKeeps(Session([], start, [], []), Stepper(p, script, events), n, kept);
  }

  lemma ThroughNext(p: Principal, start: Place, script: Script, events: seq<Around>, n: nat)
    requires n < |script| <= |events|
    ensures Through(p, start, script, events, n + 1) ==
            Advance(p, Through(p, start, script, events, n), script[n], events[n])
  {
  }

  lemma ThroughOthersOnly(p: Principal, start: Place, script: Script, events: seq<Around>, n: nat)
    requires n <= |script| <= |events|
    ensures OthersOnly(start.index, Through(p, start, script, events, n))
  {
    forall k: nat, s | k < n && OthersOnly(start.index, s)
      ensures OthersOnly(start.index, Advance(p, s, script[k], events[k]))
    {
      OthersOnlyNext(start.index, p, s, script[k], events[k]);
    }
    ThroughKeeps(p, start, script, events, n, (k: nat, s: Session) => OthersOnly(start.index, s));
  }

  predicate TurnedOutAfter(script: Script, k: nat, s: Session) {
    |s.script| == k && TurnedOut(script, s.script)
  }

  lemma ThroughTurnedOut(p: Principal, start: Place, script: Script, events: seq<Around>, n: nat)
    requires n <= |script| <= |events|
    ensures |Through(p, start, script, events, n).script| == n
    ensures TurnedOut(script, Through(p, start, script, events, n).script)
  {
    forall k: nat, s | k < n && TurnedOutAfter(script, k, s)
      ensures TurnedOutAfter(script, k + 1, Advance(p, s, script[k], events[k]))
    {
      TurnedOutNext(p, s, script[k], events[k], script);
    }
    ThroughKeeps(p, start, script, events, n, (k: nat, s: Session) => TurnedOutAfter(script, k, s));
    assert TurnedOutAfter(script, n, Through(p, start, script, events, n));
  }

  lemma ThroughCallbacks(p: Principal, start: Place, script: Script, events: seq<Around>, n: nat)
    requires n <= |script| <= |events|
    ensures CallbacksFollow(p, Through(p, start, script, events, n))
  {
    forall k: nat, s | k < n && CallbacksFollow(p, s)
      ensures CallbacksFollow(p, Advance(p, s, script[k], events[k]))
    {
      CallbacksNext(p, s, script[k], events[k]);
    }
    ThroughKeeps(p, start, script, events, n, (k: nat, s: Session) => CallbacksFollow(p, s));
  }

  lemma ThroughRegistered(p: Principal, start: Place, script: Script, events: seq<Around>, n: nat, id: ConnectionId)
    requires n <= |script| <= |events|
    requires id in start.index.connections && SparedAround(events, id)
    ensures RegisteredSoFar(id, Through(p, start, script, events, n))
  {
    var kept := (k: nat, s: Session) => RegisteredSoFar(id, s);
    forall k: nat, s | k < n && kept(k, s)
      ensures kept(k + 1, Advance(p, s, script[k], events[k]))
    {
      RegisteredNext(p, s, script[k], events[k], id);
    }
    ThroughKeeps(p, start, script, events, n, kept);
  }

  lemma StillRunning(script: Script, resolved: Script)
    requires TurnedOut(script, resolved) && WillEnd(script) && Live(resolved)
    ensures |resolved| < |script|
  {
    var k :| 0 <= k < |script| && EndsAnyway(script[k].event);
    if k < |resolved| {
      LiveHasNoEnd(resolved, k);
    }
  }

  predicate SparedBy(m: Meanwhile, id: ConnectionId) {
    && Spares(m.early.calls, id)
    && Spares(m.connected.calls, id)
    && SparedAround(m.events, id)
    && Spares(m.closing.calls, id)
    && Spares(m.late.calls, id)
  }

  // ------------------------------------------------------------------- the whole connection

  /** Registered, with a link of its own: open and empty. */
  function Registered(before: Index, id: ConnectionId, capacity: nat): Place {
    Place(AfterRegister(before, id), Link(Open, [], capacity, true, false))
  }

  function AtConnect(before: Index, id: ConnectionId, capacity: nat, m: Meanwhile): Place {
    DoAll(Registered(before, id, capacity), m.early)
  }

  /** The loop after `taken` events. */
  function AtEnd(
    p: Principal, before: Index, id: ConnectionId, capacity: nat, script: Script, m: Meanwhile, taken: nat): Session
    requires taken <= |script| <= |m.events|
  {
    Through(p, DoAll(AtConnect(before, id, capacity, m), m.connected), script, m.events, taken)
  }

  /** The teardown: close, wait for the writer, and only then Closed. */
  function AtDisconnect(ended: Place, m: Meanwhile): Place {
    var closed := DoAll(ended.(link := AfterClose(ended.link)), m.closing);
    closed.(link := closed.link.(state := Closed))
  }

  function AtReturn(ended: Place, id: ConnectionId, m: Meanwhile): Place {
    var left := DoAll(AtDisconnect(ended, m), m.late);
    left.(index := AfterUnregister(left.index, id))
  }

  function WholeTrace(
    p: Principal, before: Index, id: ConnectionId, capacity: nat, script: Script, m: Meanwhile, taken: nat): seq<Made>
    requires taken <= |script| <= |m.events|
  {
    var ended := AtEnd(p, before, id, capacity, script, m, taken);
    Tagged([OnConnect(p)], AtConnect(before, id, capacity, m)) + ended.made
    + Tagged([OnDisconnect(p)], AtDisconnect(ended.place, m))
  }

  /** Everybody else's calls on the manager, `during` those made while the loop ran. */
  function Others(m: Meanwhile, during: seq<Call>): seq<Call> {
    m.early.calls + m.connected.calls + during + m.closing.calls + m.late.calls
  }

  lemma RunInFive(ix: Index, a: seq<Call>, b: seq<Call>, c: seq<Call>, d: seq<Call>, e: seq<Call>)
    ensures Run(Run(Run(Run(Run(ix, a), b), c), d), e) == Run(ix, a + b + c + d + e)
  {
    RunAppend(ix, a, b);
    RunAppend(ix, a + b, c);
    RunAppend(ix, a + b + c, d);
    RunAppend(ix, a + b + c + d, e);
  }

  lemma IndexAtReturn(before: Index, id: ConnectionId, capacity: nat, m: Meanwhile, ended: Session)
    requires OthersOnly(DoAll(AtConnect(before, id, capacity, m), m.connected).index, ended)
    ensures AtReturn(ended.place, id, m).index ==
            AfterUnregister(Run(AfterRegister(before, id), Others(m, ended.calls)), id)
  {
    RunInFive(AfterRegister(before, id), m.early.calls, m.connected.calls, ended.calls, m.closing.calls, m.late.calls);
  }

  // ---------------------------------------------------------- what the loop itself does to the link

  /** Nobody else acts around the event. */
  predicate Undisturbed(a: Around) {
    a.during == Deeds([], []) && a.after == Deeds([], [])
  }

  /**
   The loop's own messages. A heartbeat with less than three silent ticks behind it sends one empty Ping, and the
   loop goes on exactly if that is accepted; a Ping is answered with one Pong that carries what on_ping
   returned, accepted or not; no other event sends anything.
   */
  lemma TheLoopPingsAndAnswers(p: Principal, s: Session, te: Timed, a: Around)
    requires Live(s.script) && Undisturbed(a)
    ensures var s' := Advance(p, s, te, a);
            var l, l' := s.place.link, s'.place.link;
            && s'.place.index == s.place.index
            && (te.event.Tick? && SilentTicks(s.script) < 3 ==>
                  && l' == AfterSend(l, Message(Ping, []))
                  && (Live(s'.script) <==> l'.queue == l.queue + [Message(Ping, [])]))
            && (te.event.Frame? && te.event.raw.RawPing? ==>
                  l' == AfterSend(l, Message(Pong, a.answer)) && Live(s'.script)
                  && s'.made == s.made + [Made(OnPing(te.event.raw.data), s.place.index.connections, l.state)])
            && (te.event.Tick? && SilentTicks(s.script) >= 3 ==> l' == l && !Live(s'.script))
            && (!te.event.Tick? && !(te.event.Frame? && te.event.raw.RawPing?) ==>
                  l'.queue == l.queue && l'.state == l.state)
  {
    ScriptNext(Config(0, 0), 0, s.script, Timed(te.at, Resolved(te.event, s.place.link)));
    assert |s.place.link.queue + [Message(Ping, [])]| == |s.place.link.queue| + 1;
  }

  /**
   The teardown says goodbye: it queues one Close behind what was queued, or leaves a permit if the queue takes
   none; the state is Closed when on_disconnect is called.
   */
  lemma TheTeardownSaysGoodbye(ended: Place, m: Meanwhile)
    ensures AtDisconnect(ended, m).link.state == Closed
    ensures m.closing.uses == [] ==>
              var l, l' := ended.link, AtDisconnect(ended, m).link;
              if l.live && |l.queue| < l.capacity then l'.queue == l.queue + [CLOSE] && l'.permit == l.permit
              else l'.queue == l.queue && l'.permit
  {
  }

  /** The Close is there while the teardown waits: a writer that takes what is queued, and one more, leaves nothing. */
  lemma TheWriterCanTakeTheClose(ended: Place, m: Meanwhile)
    requires ended.link.live && |ended.link.queue| < ended.link.capacity
    requires m.closing.uses == seq(|ended.link.queue| + 1, _ => WriterTakes)
    ensures AtDisconnect(ended, m).link.queue == []
  {
    TakingAll(AfterClose(ended.link), |ended.link.queue| + 1);
  }

  lemma {:induction false} TakingAll(l: Link, n: nat)
    requires l.live && n <= |l.queue|
    ensures UseAll(l, seq(n, _ => WriterTakes)) == l.(queue := l.queue[n..])
  {
    if n > 0 {
      TakingAll(l, n - 1);
      assert seq(n, _ => WriterTakes) == seq(n - 1, _ => WriterTakes) + [WriterTakes];
      UseNext(l, seq(n - 1, _ => WriterTakes), WriterTakes);
    }
  }

  /** on_ping has run, with all it did to the connection, when its answer is queued. */
  lemma TheAnswerFollowsItsCallback(
    p: Principal, s: Session, at: nat, payload: seq<byte>, m: Message, answer: seq<byte>)
    requires var l := s.place.link; l.state == Open && l.live && |l.queue| + 2 <= l.capacity
    ensures var a := Around(Deeds([], [Sends(m)]), answer, Deeds([], []));
            Advance(p, s, Timed(at, Frame(RawPing(payload))), a).place.link.queue ==
            s.place.link.queue + [m] + [Message(Pong, answer)]
  {
    UseNext(s.place.link, [], Sends(m));
    assert [] + [Sends(m)] == [Sends(m)];
  }
}
