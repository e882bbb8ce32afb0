/** Cross-thread callers: the tasks they post are bound to bare objects. When can such a task go astray? */
module ServerWorkers {
  import opened PollerModel
  import opened ServerModel
  import opened ServerProofs
  import opened ServerSteps
  import Behaviors

  // ---------------------------------------------------------------- every run

  /** The head of some loop's batch is a task bound to a connection that is no more. */
  ghost predicate StrayAtHead(s: Server) {
    exists l :: l in s.loops && s.loops[l].phase.Calling? && s.loops[l].batch != [] && Stray(s, s.loops[l].batch[0])
  }

  /** This step of a run follows a pointer to a destroyed connection, or makes an epoll call that is refused. */
  ghost predicate Crashes(s: Server, s': Server) {
    !s.crashed && s'.crashed
  }

  lemma NextCrashes(s: Server, s': Server)
    requires Inv(s) && Next(s, s') && Crashes(s, s')
    ensures StrayAtHead(s)
  {
    hide Inv;
    var step :| Enabled(s, step) && s' == Apply(s, step);
    StepKeeps(s, step);
    if !RunsStray(s, step) {
      SafeStepKeepsFlag(s, step);
    }
  }

  lemma SafeStepKeepsFlag(s: Server, step: Step)
    requires Enabled(s, step) && Safe(s, step)
    ensures Apply(s, step).crashed == s.crashed
  {
    hide Held, FdIsFree, SetEvents, RemoveChannel;
  }

  /** The only way to crash, in any run: to run a task that a cross-thread call bound to the bare object. */
  lemma OnlyStrayTasksCrash(run: seq<Server>, i: nat)
    requires Behaviors.IsBehavior(Init, Next, run) && i + 1 < |run| && Crashes(run[i], run[i + 1])
    ensures StrayAtHead(run[i])
  {
    hide Inv, Init, Next, Crashes, StrayAtHead;
    Reachable(run, i);
    assert Next(run[i], run[i + 1]);
    NextCrashes(run[i], run[i + 1]);
  }

  // ---------------------------------------------------------------- careful callers

  /** The task with this ticket waits in a loop, or is about to run there. */
  predicate Outstanding(s: Server, c: Id, ticket: nat)
    requires Knows(s, c)
  {
    var q := s.loops[s.conns[c].loop];
    Raw(c, ticket) in q.pending || Raw(c, ticket) in q.batch
  }

  /** The thread would let go of its pointer before its task has run. */
  predicate Hasty(s: Server, step: Step) {
    step.Release? && step.t in s.calls && s.calls[step.t].Posted?
    && Knows(s, s.calls[step.t].c) && Outstanding(s, s.calls[step.t].c, s.calls[step.t].ticket)
  }

  /** Any step, but every cross-thread caller keeps its shared pointer until its task has run. */
  ghost predicate CarefulNext(s: Server, s': Server) {
    exists step :: Enabled(s, step) && !Hasty(s, step) && s' == Apply(s, step)
  }

  /** The poster of the task still keeps the connection. */
  predicate Kept(s: Server, f: Functor)
    requires f.Raw?
  {
    exists t :: t in s.calls && s.calls[t] == Posted(f.c, f.ticket)
  }

  /** Every waiting task is kept. */
  ghost predicate TasksKept(s: Server) {
    forall l, f: Functor :: l in s.loops && (f in s.loops[l].pending || f in s.loops[l].batch) && f.Raw? ==>
      Kept(s, f)
  }

  ghost predicate CarefulInv(s: Server) {
    Inv(s) && TasksKept(s) && !s.crashed
  }

  /** No bound task is new, and every call stays as it is. */
  ghost predicate NoNewTasks(s: Server, s': Server) {
    && s'.loops.Keys == s.loops.Keys
    && (forall l, f: Functor :: l in s.loops && f.Raw? && (f in s'.loops[l].pending || f in s'.loops[l].batch) ==>
          f in s.loops[l].pending || f in s.loops[l].batch)
    && (forall t :: t in s.calls ==> t in s'.calls && (s.calls[t].Posted? ==> s'.calls[t] == s.calls[t]))
  }

  lemma TasksFrame(s: Server, s': Server)
    requires TasksKept(s) && NoNewTasks(s, s')
    ensures TasksKept(s')
  {
    forall l, f: Functor | l in s'.loops && (f in s'.loops[l].pending || f in s'.loops[l].batch) && f.Raw?
      ensures Kept(s', f)
    {
      assert Kept(s, f);
      var t :| t in s.calls && s.calls[t] == Posted(f.c, f.ticket);
      assert s'.calls[t] == Posted(f.c, f.ticket);
    }
  }

  lemma CloseTasks(s: Server, c: Id)
    requires InPoller(s, c)
    ensures NoNewTasks(s, HandleClose(s, c))
  {
    hide SetEvents;
  }

  lemma PerformTasks(s: Server, f: Functor)
    requires InPoller(s, f.c)
    ensures NoNewTasks(s, Perform(s, f))
  {
    hide SetEvents, RemoveChannel;
  }

  lemma FunctorTasks(s: Server, l: LoopId)
    requires l in s.loops && s.loops[l].batch != [] && InPoller(s, s.loops[l].batch[0].c)
    ensures NoNewTasks(s, ApplyFunctor(s, l))
  {
    hide Perform;
    var s0 := WithLoop(s, l, Advanced(s.loops[l]));
    PerformTasks(s0, s.loops[l].batch[0]);
    assert NoNewTasks(s, s0);
  }

  lemma CallbackTasks(s: Server, l: LoopId, eof: bool)
    requires l in s.loops && s.loops[l].handler.Handling? && s.loops[l].handler.todo != []
    requires InPoller(s, s.loops[l].handler.c)
    ensures NoNewTasks(s, ApplyCallback(s, l, eof))
  {
    hide HandleClose;
    var h := s.loops[l].handler;
    CloseTasks(WithLoop(s, l, s.loops[l].(handler := Handling(h.c, h.revents, h.todo[1..]))), h.c);
  }

  lemma AcceptTasks(s: Server, fd: int, io: LoopId)
    requires io in s.loops && BASE in s.loops
    ensures NoNewTasks(s, ApplyAccept(s, fd, io))
  {
    hide SetEvents;
  }

  lemma PlainTasks(s: Server, step: Step)
    requires Enabled(s, step) && Safe(s, step) && !step.Post? && !step.Release?
    requires !step.RunFunctor? && !step.RunCallback?
    ensures NoNewTasks(s, Apply(s, step))
  {
    hide Held, FdIsFree, SetEvents, ApplyAccept;
    if step.Accept? {
      AcceptTasks(s, step.fd, step.io);
    }
  }

  lemma PostTasks(s: Server, t: Thread)
    requires TasksKept(s) && t in s.calls && s.calls[t].Checked? && Knows(s, s.calls[t].c)
    ensures TasksKept(ApplyPost(s, t))
  {
    var s' := ApplyPost(s, t);
    forall l, f: Functor | l in s'.loops && (f in s'.loops[l].pending || f in s'.loops[l].batch) && f.Raw?
      ensures Kept(s', f)
    {
      if f == Raw(s.calls[t].c, s.tickets) {
        assert s'.calls[t] == Posted(f.c, f.ticket);
      } else {
        assert Kept(s, f);
        var u :| u in s.calls && s.calls[u] == Posted(f.c, f.ticket);
        assert s'.calls[u] == Posted(f.c, f.ticket);
      }
    }
  }

  lemma TaskFits(s: Server, l: LoopId, f: Functor)
    requires Inv(s) && l in s.loops && (f in s.loops[l].pending || f in s.loops[l].batch) && f.Raw?
    ensures Knows(s, f.c) && s.conns[f.c].loop == l
  {
    hide Registered, Lives, RoundsIntact;
    assert FunctorFits(s, l, f);
    assert BASE in s.loops by { CallsFit(s); }
  }

  /** Letting go once the task has run takes nothing from anybody else's task. */
  lemma ReleaseTasks(s: Server, t: Thread)
    requires Inv(s) && TasksKept(s) && t in s.calls && s.calls[t].Posted? && !Hasty(s, Release(t))
    ensures TasksKept(s.(calls := s.calls - {t}))
  {
    hide Inv;
    var s' := s.(calls := s.calls - {t});
    forall l, f: Functor | l in s'.loops && (f in s'.loops[l].pending || f in s'.loops[l].batch) && f.Raw?
      ensures Kept(s', f)
    {
      assert Kept(s, f);
      TaskFits(s, l, f);
      var u :| u in s.calls && s.calls[u] == Posted(f.c, f.ticket);
      assert u != t;
      assert s'.calls[u] == Posted(f.c, f.ticket);
    }
  }

  lemma StepNoNewTasks(s: Server, step: Step)
    requires Enabled(s, step) && Safe(s, step) && !step.Post? && !step.Release?
    ensures NoNewTasks(s, Apply(s, step))
  {
    hide NoNewTasks;
    if step.RunFunctor? {
      FunctorTasks(s, step.l);
    } else if step.RunCallback? {
      CallbackTasks(s, step.l, step.eof);
    } else {
      PlainTasks(s, step);
    }
  }

  lemma StepTasks(s: Server, step: Step)
    requires Inv(s) && TasksKept(s) && Enabled(s, step) && Safe(s, step) && !Hasty(s, step)
    ensures TasksKept(Apply(s, step))
  {
    hide Inv, TasksKept, NoNewTasks, Hasty;
    if step.Post? {
      PostTasks(s, step.t);
    } else if step.Release? {
      ReleaseTasks(s, step.t);
    } else {
      StepNoNewTasks(s, step);
      TasksFrame(s, Apply(s, step));
    }
  }

  /** A task whose poster keeps the connection is never stray. */
  lemma KeptIsNotStray(s: Server, step: Step)
    requires Inv(s) && TasksKept(s) && Enabled(s, step)
    ensures !RunsStray(s, step)
  {
    hide Inv;
    CallsFit(s);
    if step.RunFunctor? && s.loops[step.l].batch[0].Raw? {
      assert s.loops[step.l].batch[0] in s.loops[step.l].batch;
      assert Kept(s, s.loops[step.l].batch[0]);
    }
  }

  lemma CarefulKeeps(s: Server, step: Step)
    requires CarefulInv(s) && Enabled(s, step) && !Hasty(s, step)
    ensures CarefulInv(Apply(s, step))
  {
    hide Inv, TasksKept, Hasty, Enabled;
    KeptIsNotStray(s, step);
    StepKeeps(s, step);
    StepTasks(s, step);
    SafeStepKeepsFlag(s, step);
  }

  lemma CarefulInitially(s: Server)
    requires Init(s)
    ensures CarefulInv(s)
  {
  }

  lemma CarefulInductive()
    ensures Behaviors.IsInductive(Init, CarefulNext, CarefulInv)
  {
    forall s | Init(s) ensures CarefulInv(s) {
      CarefulInitially(s);
    }
    hide CarefulInv, Init, Hasty, Enabled;
    forall s, s' | CarefulInv(s) && CarefulNext(s, s') ensures CarefulInv(s') {
      var step :| Enabled(s, step) && !Hasty(s, step) && s' == Apply(s, step);
      CarefulKeeps(s, step);
    }
  }

  /**
   When every cross-thread caller keeps its shared pointer until its task has run, no pointer to a destroyed
   connection is ever followed and no epoll call is ever refused.
   */
  lemma CarefulCallersAreSafe(run: seq<Server>, i: nat)
    requires Behaviors.IsBehavior(Init, CarefulNext, run) && i < |run|
    ensures !run[i].crashed
    ensures forall l :: l in run[i].loops ==>
              !run[i].loops[l].poller.aborted && run[i].loops[l].poller.failedDels == 0
  {
    CarefulInductive();
    Behaviors.InvariantHolds(Init, CarefulNext, CarefulInv, run, i);
    assert forall l :: l in run[i].loops ==> Simulates(run[i].loops[l].poller);
  }

  // ---------------------------------------------------------------- what haste leads to

  /** What loop l does next, when nothing more is reported to it. */
  function OwnStep(q: Loop, l: LoopId): Step {
    match q.phase
    case Polling => Poll(l, [])
    case Dispatching =>
      if q.handler.Handling? then if q.handler.todo != [] then RunCallback(l, false) else EndHandler(l)
      else if q.active != [] then Pick(l) else Swap(l)
    case Calling => if q.batch != [] then RunFunctor(l) else EndBatch(l)
  }

  function PhaseRank(q: Loop): nat {
    match q.phase case Dispatching => 0 case Polling => 1 case Calling => 2
  }

  function HandlerRank(q: Loop): nat {
    if q.handler.Handling? then |q.handler.todo| + 1 else 0
  }

  /** The loop holds this task of a connection that is no more. */
  predicate Doomed(s: Server, l: LoopId, f: Functor) {
    Holding(s, l, f) && Stray(s, f)
  }

  /** The functor is still to run in this loop. */
  predicate Holding(s: Server, l: LoopId, f: Functor) {
    l in s.loops && (f in s.loops[l].pending || f in s.loops[l].batch)
  }

  /** No connection has gone, moved, or come into the map, and no pointer to one was taken or dropped outside the loops. */
  predicate Persists(s: Server, s': Server) {
    && s'.connections <= s.connections && s'.userRefs == s.userRefs && s'.calls == s.calls
    && forall c :: c in s.conns ==>
         c in s'.conns && s'.conns[c].alive == s.conns[c].alive && s'.conns[c].loop == s.conns[c].loop
  }

  /** How far the loop is from running its pending tasks. */
  predicate Closer(q: Loop, q': Loop, f: Functor) {
    if f in q.batch then f in q'.batch && |q'.batch| < |q.batch|
    else
      || f in q'.batch
      || (f in q'.pending
          && (|| PhaseRank(q') < PhaseRank(q)
              || (PhaseRank(q') == PhaseRank(q) && |q'.active| < |q.active|)
              || (PhaseRank(q') == PhaseRank(q) && |q'.active| == |q.active| && HandlerRank(q') < HandlerRank(q))
              || (PhaseRank(q') == PhaseRank(q) && |q'.active| == |q.active| && HandlerRank(q') == HandlerRank(q)
                  && |q'.batch| < |q.batch|)))
  }

  /** Pointers and queues of the loop only grow under a callback or a functor. */
  predicate Ahead(s: Server, s': Server, l: LoopId) {
    && l in s.loops && l in s'.loops
    && s.loops[l].pending <= s'.loops[l].pending
    && s'.loops[l] == s.loops[l].(pending := s'.loops[l].pending, poller := s'.loops[l].poller)
    && Persists(s, s')
  }

  lemma CloseAhead(s: Server, c: Id, l: LoopId)
    requires InPoller(s, c) && l in s.loops
    ensures Ahead(s, HandleClose(s, c), l)
  {
    hide SetEvents;
  }

  lemma PerformAhead(s: Server, f: Functor, l: LoopId)
    requires InPoller(s, f.c) && l in s.loops
    ensures Ahead(s, Perform(s, f), l)
  {
    hide SetEvents, ConnectDestroyed;
    if f.Destroyed? {
      DestroyAhead(s, f.c, l);
    }
  }

  lemma DestroyAhead(s: Server, c: Id, l: LoopId)
    requires InPoller(s, c) && l in s.loops
    ensures Ahead(s, ConnectDestroyed(s, c), l)
  {
    hide SetEvents, RemoveChannel;
  }

  lemma CallbackCloser(s: Server, l: LoopId, f: Functor)
    requires Holding(s, l, f) && s.loops[l].phase.Dispatching? && s.loops[l].handler.Handling? && s.loops[l].handler.todo != []
    requires f !in s.loops[l].batch && InPoller(s, s.loops[l].handler.c)
    ensures var s' := ApplyCallback(s, l, false); Holding(s', l, f) && Persists(s, s') && Closer(s.loops[l], s'.loops[l], f)
  {
    hide HandleClose;
    var h := s.loops[l].handler;
    var s1 := WithLoop(s, l, s.loops[l].(handler := Handling(h.c, h.revents, h.todo[1..])));
    CloseAhead(s1, h.c, l);
  }

  lemma FunctorCloser(s: Server, l: LoopId, f: Functor)
    requires Holding(s, l, f) && s.loops[l].batch != [] && s.loops[l].batch[0] != f
    requires InPoller(s, s.loops[l].batch[0].c)
    ensures var s' := ApplyFunctor(s, l); Holding(s', l, f) && Persists(s, s') && Closer(s.loops[l], s'.loops[l], f)
  {
    hide Perform;
    var q := s.loops[l];
    PerformAhead(WithLoop(s, l, Advanced(q)), q.batch[0], l);
    assert q.batch == [q.batch[0]] + q.batch[1..];
  }

  lemma RestCloser(s: Server, l: LoopId, f: Functor)
    requires Holding(s, l, f) && (!s.loops[l].phase.Calling? ==> s.loops[l].batch == [])
    requires var step := OwnStep(s.loops[l], l);
             Enabled(s, step) && Safe(s, step) && !step.RunCallback? && !step.RunFunctor?
    ensures var s' := Apply(s, OwnStep(s.loops[l], l)); Holding(s', l, f) && Persists(s, s') && Closer(s.loops[l], s'.loops[l], f)
  {
    hide FdIsFree, Reported, Callbacks, ApplyAccept, ApplyBegin, ApplyPost, ApplyReap, ApplyCallback, ApplyFunctor, SetMask, Held;
  }

  lemma OwnStepEnabled(s: Server, l: LoopId)
    requires l in s.loops
    ensures Enabled(s, OwnStep(s.loops[l], l)) && !Hasty(s, OwnStep(s.loops[l], l))
  {
  }

  lemma BatchesIntact(s: Server, l: LoopId)
    requires Inv(s) && l in s.loops
    ensures !s.loops[l].phase.Calling? ==> s.loops[l].batch == []
  {
    hide Registered, PointersFit, Lives;
    assert RoundIntact(s, l);
  }

  lemma OwnStepCloser(s: Server, l: LoopId, f: Functor)
    requires Inv(s) && Holding(s, l, f) && (s.loops[l].batch != [] ==> s.loops[l].batch[0] != f)
    requires Enabled(s, OwnStep(s.loops[l], l)) && !RunsStray(s, OwnStep(s.loops[l], l))
    ensures var s' := Apply(s, OwnStep(s.loops[l], l));
            Holding(s', l, f) && Persists(s, s') && Closer(s.loops[l], s'.loops[l], f)
  {
    hide Inv, Closer, Enabled, FdIsFree, ApplyCallback, ApplyFunctor;
    var step := OwnStep(s.loops[l], l);
    StepKeeps(s, step);
    BatchesIntact(s, l);
    if step.RunCallback? {
      CallbackCloser(s, l, f);
    } else if step.RunFunctor? {
      FunctorCloser(s, l, f);
    } else {
      RestCloser(s, l, f);
    }
  }

  /** Left to itself, the loop comes to the stray task, and crashes. */
  lemma Doom(s: Server, l: LoopId, f: Functor) returns (path: seq<Server>)
    requires Inv(s) && Doomed(s, l, f)
    ensures Behaviors.IsPath(CarefulNext, path) && path[0] == s && path[|path| - 1].crashed
    decreases if f in s.loops[l].batch then 0 else 1,
              if f in s.loops[l].batch then 0 else PhaseRank(s.loops[l]),
              if f in s.loops[l].batch then 0 else |s.loops[l].active|,
              if f in s.loops[l].batch then 0 else HandlerRank(s.loops[l]),
              |s.loops[l].batch|
  {
    hide Inv, CarefulNext, Enabled, Hasty, Apply;
    var step := OwnStep(s.loops[l], l);
    OwnStepEnabled(s, l);
    var s' := Apply(s, step);
    assert CarefulNext(s, s') by { CarefulStep(s, step); }
    StepKeeps(s, step);
    var rest := [s'];
    if RunsStray(s, step) {
      StrayCrashes(s, step);
    } else {
      BatchesIntact(s, l);
      OwnStepCloser(s, l, f);
      rest := Doom(s', l, f);
    }
    Behaviors.Precede(CarefulNext, s, rest);
    path := [s] + rest;
  }

  lemma CarefulStep(s: Server, step: Step)
    requires Enabled(s, step) && !Hasty(s, step)
    ensures CarefulNext(s, Apply(s, step))
  {
  }

  lemma StrayCrashes(s: Server, step: Step)
    requires Enabled(s, step) && RunsStray(s, step)
    ensures Apply(s, step).crashed
  {
    StrayIsUnsafe(s, step);
  }

  /** Some continuation, in which every caller is careful, crashes. */
  ghost predicate CanCrash(s: Server) {
    exists path: seq<Server> ::
      Behaviors.IsPath(CarefulNext, path) && path[0] == s && path[|path| - 1].crashed
  }

  lemma {:induction false} CarefulPath(path: seq<Server>, i: nat)
    requires Behaviors.IsPath(CarefulNext, path) && CarefulInv(path[0]) && i < |path|
    ensures CarefulInv(path[i])
  {
    hide CarefulInv, CarefulNext;
    if i > 0 {
      CarefulPath(path, i - 1);
      assert CarefulNext(path[i - 1], path[i]);
      CarefulInductive();
    }
  }

  lemma CarefulCannotCrash(s: Server)
    requires CarefulInv(s)
    ensures !CanCrash(s)
  {
    forall path: seq<Server> | Behaviors.IsPath(CarefulNext, path) && path[0] == s
      ensures !path[|path| - 1].crashed
    {
      CarefulPath(path, |path| - 1);
    }
  }

  /** The thread has let go of its pointer. */
  function Released(s: Server, t: Thread): Server {
    s.(calls := s.calls - {t})
  }

  /**
   When letting go is safe. All callers were careful so far, and this thread holds the last pointer to the
   connection of its call: letting it go now can lead to a crash, however careful everybody is from then
   on, if and only if the task has not run yet.
   */
  lemma ReleaseExactly(run: seq<Server>, t: Thread)
    requires Behaviors.IsBehavior(Init, CarefulNext, run)
    requires var s := run[|run| - 1];
             t in s.calls && s.calls[t].Posted? && !Held(Released(s, t), s.calls[t].c)
    ensures var s := run[|run| - 1];
            Enabled(s, Release(t)) && Apply(s, Release(t)) == Released(s, t)
            && (CanCrash(Released(s, t)) <==> Hasty(s, Release(t)))
  {
    hide CarefulInv, CarefulNext, Init, Held, Hasty, CanCrash;
    var s := run[|run| - 1];
    CarefulInductive();
    Behaviors.InvariantHolds(Init, CarefulNext, CarefulInv, run, |run| - 1);
    assert Safe(s, Release(t));
    if Hasty(s, Release(t)) {
      HasteCrashes(s, t);
    } else {
      CarefulKeeps(s, Release(t));
      CarefulCannotCrash(Released(s, t));
    }
  }

  lemma ReapDooms(s: Server, c: Id, f: Functor)
    requires InPoller(s, c) && f.Raw? && f.c == c && Outstanding(s, c, f.ticket)
    ensures Doomed(ApplyReap(s, c), s.conns[c].loop, f)
  {
  }

  /** The connection goes at once, and its loop comes to the task. */
  lemma ReapCrashes(s: Server, f: Functor) returns (path: seq<Server>)
    requires Inv(s) && f.Raw? && Knows(s, f.c) && Outstanding(s, f.c, f.ticket)
    requires s.conns[f.c].alive && !Held(s, f.c)
    ensures Behaviors.IsPath(CarefulNext, path) && path[0] == s && path[|path| - 1].crashed
  {
    hide Inv, Held, CarefulNext, Doomed, Outstanding, Hasty;
    var step := Reap(f.c);
    assert !Hasty(s, step) by { ReapIsCareful(s, f.c); }
    CarefulStep(s, step);
    StepKeeps(s, step);
    ReapDooms(s, f.c, f);
    hide Apply;
    var rest := Doom(Apply(s, step), s.conns[f.c].loop, f);
    Behaviors.Precede(CarefulNext, s, rest);
    path := [s] + rest;
  }

  lemma ReapIsCareful(s: Server, c: Id)
    ensures !Hasty(s, Reap(c))
  {
  }

  lemma HasteCrashes(s: Server, t: Thread)
    requires CarefulInv(s) && Hasty(s, Release(t)) && !Held(Released(s, t), s.calls[t].c)
    ensures CanCrash(Released(s, t))
  {
    hide Inv, TasksKept, Held, CarefulNext;
    CallsFit(s);
    ReleaseKeeps(s, t);
    var path := ReapCrashes(Released(s, t), Raw(s.calls[t].c, s.calls[t].ticket));
  }

  lemma CarefulIsNext(s: Server, s': Server)
    requires CarefulNext(s, s')
    ensures Next(s, s')
  {
  }
}
