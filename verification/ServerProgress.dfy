/** What the server asks of its pollers, and that a connection which has closed does get out of the server. */
module ServerProgress {
  import opened PollerModel
  import opened ServerModel
  import opened ServerProofs
  import opened ServerSteps
  import opened ServerCallbacks
  import opened ServerWorkers
  import opened ServerTasks
  import opened ServerLatePosts
  import opened ServerChannels
  import Behaviors

  // ---------------------------------------------------------------- a closed connection is to be removed

  /** The server will hear of every closed connection that is in its map. */
  ghost predicate RemovalsDue(s: Server) {
    BASE in s.loops && forall c :: c in s.connections && IsDown(s, c) ==> RemovalDue(s, c)
  }

  /** What was in the map and goes down without leaving it has its removal pushed. */
  ghost predicate Tells(s: Server, s': Server)
    requires BASE in s.loops && BASE in s'.loops
  {
    && Grown(s.loops[BASE], s'.loops[BASE])
    && forall c :: c in s'.connections && IsDown(s', c) ==> (c in s.connections && IsDown(s, c)) || RemovalDue(s', c)
  }

  lemma TellsKeeps(s: Server, s': Server)
    requires RemovalsDue(s) && BASE in s'.loops && Tells(s, s')
    ensures RemovalsDue(s')
  {
    forall c | c in s'.connections && IsDown(s', c) ensures RemovalDue(s', c) {
      if c in s.connections && IsDown(s, c) {
        assert RemovalDue(s, c);
      }
    }
  }

  lemma CloseTells(s: Server, d: Id)
    requires InPoller(s, d)
    ensures BASE in HandleClose(s, d).loops && Tells(s, HandleClose(s, d))
  {
    hide SetEvents;
    var s' := HandleClose(s, d);
    if s.conns[d].loop != BASE {
      assert RemoveInLoop(d) in s'.loops[BASE].pending;
    }
  }

  lemma EstablishTells(s: Server, d: Id)
    requires InPoller(s, d)
    ensures BASE in ConnectEstablished(s, d).loops && Tells(s, ConnectEstablished(s, d))
  {
    hide SetEvents;
  }

  lemma DestroyTells(s: Server, d: Id)
    requires InPoller(s, d) && IsDown(s, d)
    ensures BASE in ConnectDestroyed(s, d).loops && Tells(s, ConnectDestroyed(s, d))
  {
    hide SetEvents, RemoveChannel;
  }

  lemma RemovalTells(s: Server, d: Id)
    requires Knows(s, d)
    ensures BASE in RemoveConnectionInLoop(s, d).loops && Tells(s, RemoveConnectionInLoop(s, d))
    ensures d !in RemoveConnectionInLoop(s, d).connections
  {
  }

  lemma AcceptTells(s: Server, fd: int, io: LoopId)
    requires io in s.loops && BASE in s.loops && s.nextConnId !in s.conns
    ensures BASE in ApplyAccept(s, fd, io).loops && Tells(s, ApplyAccept(s, fd, io))
  {
    hide SetEvents;
  }

  lemma PlainTells(s: Server, step: Step)
    requires BASE in s.loops && Enabled(s, step) && Safe(s, step) && !MovesBatch(step) && !step.RunCallback?
    ensures BASE in Apply(s, step).loops && Tells(s, Apply(s, step))
  {
    hide Held, FdIsFree, SetEvents, ApplyAccept;
    if step.Accept? {
      AcceptTells(s, step.fd, step.io);
    }
  }

  lemma CallbackTells(s: Server, l: LoopId, eof: bool)
    requires RemovalsDue(s) && l in s.loops && s.loops[l].handler.Handling? && s.loops[l].handler.todo != []
    requires InPoller(s, s.loops[l].handler.c)
    ensures RemovalsDue(ApplyCallback(s, l, eof))
  {
    hide HandleClose, RemovalDue, Tells;
    var s1 := Popped(s, l);
    assert Tells(s, s1) by { PopTells(s, l); }
    TellsKeeps(s, s1);
    CloseTells(s1, s.loops[l].handler.c);
    TellsKeeps(s1, HandleClose(s1, s.loops[l].handler.c));
  }

  lemma PopTells(s: Server, l: LoopId)
    requires BASE in s.loops && l in s.loops && s.loops[l].handler.Handling? && s.loops[l].handler.todo != []
    ensures Tells(s, Popped(s, l))
  {
  }

  /** The head goes off a batch; only the removal of its own connection is no longer due for it. */
  lemma AdvanceTells(s: Server, l: LoopId)
    requires RemovalsDue(s) && l in s.loops && s.loops[l].batch != []
    ensures var s0 := WithLoop(s, l, Advanced(s.loops[l]));
            forall c :: c in s0.connections && IsDown(s0, c) && s.loops[l].batch[0] != RemoveInLoop(c) ==> RemovalDue(s0, c)
  {
    var q := s.loops[l];
    assert q.batch == [q.batch[0]] + q.batch[1..];
    forall c | c in s.connections && IsDown(s, c) && q.batch[0] != RemoveInLoop(c)
      ensures RemovalDue(WithLoop(s, l, Advanced(q)), c)
    {
      assert RemovalDue(s, c);
    }
  }

  lemma RemovedTells(s: Server, l: LoopId)
    requires RemovalsDue(s) && l in s.loops && s.loops[l].batch != []
    requires s.loops[l].batch[0].RemoveInLoop? && Knows(s, s.loops[l].batch[0].c)
    ensures var s0 := WithLoop(s, l, Advanced(s.loops[l]));
            RemovalsDue(RemoveConnectionInLoop(s0, s.loops[l].batch[0].c))
  {
    AdvanceTells(s, l);
    var s0 := WithLoop(s, l, Advanced(s.loops[l]));
    var d := s.loops[l].batch[0].c;
    RemovalTells(s0, d);
    var s' := RemoveConnectionInLoop(s0, d);
    forall c | c in s'.connections && IsDown(s', c) ensures RemovalDue(s', c) {
      assert c != d && RemovalDue(s0, c);
    }
  }

  lemma FunctorTells(s: Server, l: LoopId, g: Functor)
    requires Inv(s) && RemovalsDue(s) && Runs(s, l, g) && !Stray(s, g)
    ensures InPoller(s, g.c) && RemovalsDue(ApplyFunctor(s, l))
  {
    hide Inv, FdIsFree, ConnectEstablished, ConnectDestroyed, RemoveConnectionInLoop, RemovalDue, Tells;
    RunsOn(s, l, g);
    assert g.Destroyed? ==> IsDown(s, g.c);
    hide Life;
    var s0 := WithLoop(s, l, Advanced(s.loops[l]));
    AdvanceTells(s, l);
    if g.RemoveInLoop? {
      RemovedTells(s, l);
    } else {
      assert RemovalsDue(s0);
      if g.Established? {
        EstablishTells(s0, g.c);
        TellsKeeps(s0, ConnectEstablished(s0, g.c));
      } else if g.Destroyed? {
        DestroyTells(s0, g.c);
        TellsKeeps(s0, ConnectDestroyed(s0, g.c));
      }
    }
  }

  lemma BatchTells(s: Server, l: LoopId, q': Loop)
    requires RemovalsDue(s) && l in s.loops
    requires forall g :: g in s.loops[l].pending || g in s.loops[l].batch ==> g in q'.pending || g in q'.batch
    ensures RemovalsDue(WithLoop(s, l, q'))
  {
    var s' := WithLoop(s, l, q');
    forall c | c in s'.connections && IsDown(s', c) ensures RemovalDue(s', c) {
      assert RemovalDue(s, c);
    }
  }

  lemma StepTells(s: Server, step: Step)
    requires Inv(s) && RemovalsDue(s) && Enabled(s, step)
    ensures RemovalsDue(Apply(s, step))
  {
    hide Inv, RemovalDue, Tells, FdIsFree, Held, ApplyCallback, ApplyFunctor, ApplyAccept;
    StepKeeps(s, step);
    if RunsStray(s, step) {
      CrashTells(s);
    } else if step.RunCallback? {
      CallbackTells(s, step.l, step.eof);
    } else if step.RunFunctor? {
      FunctorTells(s, step.l, s.loops[step.l].batch[0]);
    } else if step.Swap? {
      BatchesIntact(s, step.l);
      BatchTells(s, step.l, s.loops[step.l].(phase := Calling, batch := s.loops[step.l].pending, pending := []));
    } else if step.EndBatch? {
      BatchTells(s, step.l, s.loops[step.l].(phase := Polling, done := []));
    } else {
      hide Apply, Safe;
      PlainTells(s, step);
      TellsKeeps(s, Apply(s, step));
    }
  }

  lemma CrashTells(s: Server)
    requires RemovalsDue(s)
    ensures RemovalsDue(s.(crashed := true))
  {
    forall c | c in s.connections && IsDown(s, c) ensures RemovalDue(s.(crashed := true), c) {
      assert RemovalDue(s, c);
    }
  }

  ghost predicate DueInv(s: Server) {
    Inv(s) && RemovalsDue(s)
  }

  lemma AlwaysDue(run: seq<Server>, i: nat)
    requires Behaviors.IsBehavior(Init, Next, run) && i < |run|
    ensures DueInv(run[i])
  {
    Inductive();
    forall s | Init(s) ensures DueInv(s) {
      assert Inv(s);
    }
    hide Inv, RemovalsDue, Init;
    forall s, s' | DueInv(s) && Next(s, s') ensures DueInv(s') {
      var step :| Enabled(s, step) && s' == Apply(s, step);
      StepKeeps(s, step);
      StepTells(s, step);
    }
    Behaviors.InvariantHolds(Init, Next, DueInv, run, i);
  }

  /**
   Over every run: a connection in the map that has been reported down is on its way out, the base loop
   holding the task that removes it.
   */
  lemma ClosedIsBeingRemoved(run: seq<Server>, i: nat, c: Id)
    requires Behaviors.IsBehavior(Init, Next, run) && i < |run|
    requires c in run[i].connections && c in run[i].conns && run[i].conns[c].downs > 0
    ensures BASE in run[i].loops
    ensures RemoveInLoop(c) in run[i].loops[BASE].pending || RemoveInLoop(c) in run[i].loops[BASE].batch
  {
    AlwaysDue(run, i);
    DownIsDown(run[i], c);
  }

  lemma DownIsDown(s: Server, c: Id)
    requires DueInv(s) && c in s.connections && c in s.conns && s.conns[c].downs > 0
    ensures RemovalDue(s, c)
  {
    assert Knows(s, c) && Life(s, c);
  }

  // ---------------------------------------------------------------- and it is torn down

  /** Left to itself, a loop comes to each functor it holds. */
  lemma Comes(s: Server, l: LoopId, g: Functor) returns (s': Server)
    requires AnchoredInv(s) && Holding(s, l, g)
    ensures Behaviors.Leads(Next, s, s') && AnchoredInv(s') && Persists(s, s')
    ensures l in s'.loops && s'.loops[l].phase.Calling? && s'.loops[l].batch != [] && s'.loops[l].batch[0] == g
    decreases if g in s.loops[l].batch then 0 else 1,
              if g in s.loops[l].batch then 0 else PhaseRank(s.loops[l]),
              if g in s.loops[l].batch then 0 else |s.loops[l].active|,
              if g in s.loops[l].batch then 0 else HandlerRank(s.loops[l]),
              |s.loops[l].batch|
  {
    hide Inv, TasksAnchored, Next, Enabled, Apply;
    BatchesIntact(s, l);
    if s.loops[l].batch != [] && s.loops[l].batch[0] == g {
      Behaviors.LeadsNowhere(Next, s);
      return s;
    }
    var step := OwnStep(s.loops[l], l);
    OwnStepEnabled(s, l);
    assert !RunsStray(s, step) by { AnchoredHasNoStray(s, step); }
    OwnStepCloser(s, l, g);
    AnchoredKeeps(s, step);
    StepLeads(s, step);
    s' := Comes(Apply(s, step), l, g);
    Behaviors.LeadsOn(Next, s, Apply(s, step), s');
  }

  lemma AnchoredHasNoStray(s: Server, step: Step)
    requires AnchoredInv(s) && Enabled(s, step)
    ensures !RunsStray(s, step)
  {
    hide Inv, Anchored, Kept;
    assert TasksGuarded(s);
    GuardedIsNotStray(s, step);
  }

  /** A loop's own step takes no connection into the map, and no pointer away from anybody outside the loops. */
  lemma OwnStepPersists(s: Server, l: LoopId)
    requires l in s.loops && Enabled(s, OwnStep(s.loops[l], l)) && Safe(s, OwnStep(s.loops[l], l))
    ensures Persists(s, Apply(s, OwnStep(s.loops[l], l)))
  {
    hide FdIsFree, Reported, Callbacks, HandleClose, Perform, Held;
    var q := s.loops[l];
    if q.phase.Dispatching? && q.handler.Handling? && q.handler.todo != [] {
      CloseAhead(Popped(s, l), q.handler.c, l);
    } else if q.phase.Calling? && q.batch != [] {
      PerformAhead(WithLoop(s, l, Advanced(q)), q.batch[0], l);
    }
  }

  lemma RunsTeardown(s: Server, l: LoopId, c: Id) returns (s': Server)
    requires AnchoredInv(s) && Runs(s, l, Destroyed(c))
    ensures Behaviors.Leads(Next, s, s') && AnchoredInv(s') && Persists(s, s')
    ensures c in s'.conns && s'.conns[c].destroys > 0
  {
    hide TasksAnchored, Next, Inv, Enabled;
    var step := RunFunctor(l);
    assert Enabled(s, step) by { RunEnabled(s, l); }
    assert !RunsStray(s, step);
    StepKeeps(s, step);
    OwnStepPersists(s, l);
    TeardownCounts(s, l, c);
    AnchoredKeeps(s, step);
    StepLeads(s, step);
    s' := Apply(s, step);
  }

  lemma RunEnabled(s: Server, l: LoopId)
    requires l in s.loops && s.loops[l].phase.Calling? && s.loops[l].batch != []
    ensures Enabled(s, RunFunctor(l))
  {
  }

  lemma TeardownCounts(s: Server, l: LoopId, c: Id)
    requires Runs(s, l, Destroyed(c)) && Safe(s, RunFunctor(l))
    ensures InPoller(s, c) && c in ApplyFunctor(s, l).conns && ApplyFunctor(s, l).conns[c].destroys > 0
  {
    hide SetEvents, RemoveChannel, FdIsFree;
  }

  lemma RunsRemoval(s: Server, c: Id) returns (s': Server)
    requires AnchoredInv(s) && Runs(s, BASE, RemoveInLoop(c)) && Knows(s, c)
    ensures Behaviors.Leads(Next, s, s') && AnchoredInv(s') && Persists(s, s') && c !in s'.connections
    ensures Knows(s', c) && Holding(s', s.conns[c].loop, Destroyed(c)) && s'.conns[c].loop == s.conns[c].loop
  {
    hide TasksAnchored, Next, Inv, Enabled;
    var step := RunFunctor(BASE);
    assert Enabled(s, step) by { RunEnabled(s, BASE); }
    assert !RunsStray(s, step);
    StepKeeps(s, step);
    OwnStepPersists(s, BASE);
    RemovalPushes(s, c);
    AnchoredKeeps(s, step);
    StepLeads(s, step);
    s' := Apply(s, step);
  }

  lemma RemovalPushes(s: Server, c: Id)
    requires Runs(s, BASE, RemoveInLoop(c)) && Knows(s, c) && Safe(s, RunFunctor(BASE))
    ensures InPoller(s, c)
    ensures var s' := ApplyFunctor(s, BASE);
            && Knows(s', c) && s'.conns[c].loop == s.conns[c].loop && c !in s'.connections
            && Destroyed(c) in s'.loops[s.conns[c].loop].pending
  {
    hide FdIsFree;
  }

  lemma PersistsKnows(s: Server, s': Server, c: Id)
    requires Knows(s, c) && Persists(s, s') && AnchoredInv(s')
    ensures Knows(s', c)
  {
    hide Owned, TasksAnchored, PollersSimulate, FdsDistinct, Bound;
  }

  /** Which functor the removal waits for: the one in the base loop, or the teardown itself. */
  lemma ClosedHasFunctor(s: Server, c: Id)
    requires DueInv(s) && c in s.conns && s.conns[c].downs > 0 && s.conns[c].destroys == 0
    ensures Knows(s, c)
    ensures if c in s.connections then Holding(s, BASE, RemoveInLoop(c)) else Holding(s, s.conns[c].loop, Destroyed(c))
  {
    assert Knows(s, c) && Life(s, c);
  }

  lemma PersistsTrans(s: Server, a: Server, s': Server)
    requires Persists(s, a) && Persists(a, s')
    ensures Persists(s, s')
  {
  }

  /** The base loop takes the connection out of the map, and posts its teardown. */
  lemma TakeOut(s: Server, c: Id) returns (s': Server)
    requires AnchoredInv(s) && Knows(s, c) && Holding(s, BASE, RemoveInLoop(c))
    ensures Behaviors.Leads(Next, s, s') && AnchoredInv(s') && Persists(s, s') && Knows(s', c)
    ensures c !in s'.connections && Holding(s', s'.conns[c].loop, Destroyed(c))
  {
    hide Next, AnchoredInv, Holding;
    var a := Comes(s, BASE, RemoveInLoop(c));
    PersistsKnows(s, a, c);
    s' := RunsRemoval(a, c);
    PersistsTrans(s, a, s');
    Behaviors.LeadsOn(Next, s, a, s');
  }

  lemma TearDown(s: Server, c: Id) returns (s': Server)
    requires AnchoredInv(s) && RemovalsDue(s) && c in s.conns && s.conns[c].downs > 0 && s.conns[c].destroys == 0
    ensures Behaviors.Leads(Next, s, s') && AnchoredInv(s') && Persists(s, s')
    ensures c in s'.conns && s'.conns[c].destroys > 0 && c !in s'.connections
  {
    ClosedHasFunctor(s, c);
    hide Next, AnchoredInv, RemovalsDue, Holding;
    var b := s;
    Behaviors.LeadsNowhere(Next, s);
    if c in s.connections {
      b := TakeOut(s, c);
    }
    var d := Comes(b, b.conns[c].loop, Destroyed(c));
    s' := RunsTeardown(d, b.conns[c].loop, c);
    PersistsTrans(b, d, s');
    PersistsTrans(s, b, s');
    Behaviors.LeadsOn(Next, s, b, d);
    Behaviors.LeadsOn(Next, s, d, s');
  }

  lemma BackedIsNext(run: seq<Server>)
    requires Behaviors.IsBehavior(Init, BackedNext, run)
    ensures Behaviors.IsBehavior(Init, Next, run)
  {
    hide Init;
    forall i, j | 0 <= i && j == i + 1 && j < |run| ensures Next(run[i], run[j]) {
      assert BackedNext(run[i], run[j]);
      BackedStepIsNext(run[i], run[j]);
    }
  }

  lemma BackedStepIsNext(s: Server, s': Server)
    requires BackedNext(s, s')
    ensures Next(s, s')
  {
    hide Apply, Backed;
    var step :| Enabled(s, step) && (step.Post? ==> Backed(s, s.calls[step.t].c)) && s' == Apply(s, step);
  }

  /**
   From every state of a run in which tasks of other threads are posted in time, a connection that has been
   reported down gets out of the map and is torn down, the loops doing no more than their own work.
   */
  lemma ClosedIsTornDown(run: seq<Server>, i: nat, c: Id) returns (s': Server)
    requires Behaviors.IsBehavior(Init, BackedNext, run) && i < |run|
    requires c in run[i].conns && run[i].conns[c].downs > 0 && run[i].conns[c].destroys == 0
    ensures Behaviors.Leads(Next, run[i], s')
    ensures c in s'.conns && s'.conns[c].destroys > 0 && c !in s'.connections
  {
    hide Init, BackedNext, Next, RemovalsDue, AnchoredInv;
    BackedIsNext(run);
    AlwaysDue(run, i);
    BackedInductive();
    Behaviors.InvariantHolds(Init, BackedNext, AnchoredInv, run, i);
    s' := TearDown(run[i], c);
  }

  // ---------------------------------------------------------------- what is posted runs

  /** What a step posts waits in the loop it was meant for, under a ticket of its own. */
  lemma PostsMean(s: Server, step: Step)
    requires Inv(s) && Enabled(s, step)
    ensures step.Queue? ==> Holding(Apply(s, step), step.l, Other(step.c))
    ensures step.Post? ==>
              var c := s.calls[step.t].c; var s' := Apply(s, step);
              Holding(s', s.conns[c].loop, Raw(c, s.tickets)) && step.t in s'.calls
              && s'.calls[step.t] == Posted(c, s.tickets) && s.tickets < s'.tickets
  {
    hide Inv, Held, FdIsFree, SetEvents, RemoveChannel, ApplyAccept, ApplyCallback, ApplyFunctor;
    StepKeeps(s, step);
  }

  ghost predicate PointersKept(s: Server, step: Step, s': Server) {
    && (forall c :: c in s'.userRefs <==> step == TakeRef(c) || (c in s.userRefs && step != DropRef(c)))
    && (forall t :: t in s'.calls <==> (step.Begin? && step.t == t) || (t in s.calls && step != Release(t)))
    && (forall t :: t in s.calls && t in s'.calls ==> s'.calls[t].c == s.calls[t].c)
    && (step.Begin? ==> step.t in s'.calls && s'.calls[step.t] == Checked(step.c))
  }

  /** Pointers outside the loops are there from the step that takes them to the step that lets go. */
  lemma PointersMean(s: Server, step: Step)
    requires Inv(s) && Enabled(s, step)
    ensures PointersKept(s, step, Apply(s, step))
  {
    hide Inv, Held, FdIsFree, SetEvents, RemoveChannel, Enabled, Safe;
    if !step.TakeRef? && !step.DropRef? && !step.Begin? && !step.Release? && !step.Post? {
      OthersLetBe(s, step);
      hide Apply;
    } else {
      PointerStepMeans(s, step);
      hide Apply;
    }
  }

  lemma OthersLetBe(s: Server, step: Step)
    requires Enabled(s, step) && !step.TakeRef? && !step.DropRef? && !step.Begin? && !step.Release? && !step.Post?
    ensures Apply(s, step).userRefs == s.userRefs && Apply(s, step).calls == s.calls
  {
    hide Held, FdIsFree, SetMask, Perform, HandleClose, ConnectEstablished, Reported, Callbacks;
    if Safe(s, step) {
      hide Safe;
      match step
      case RunCallback(l, _) => CallbackLetsBe(s, l, step.eof);
      case RunFunctor(l) => PerformAhead(WithLoop(s, l, Advanced(s.loops[l])), s.loops[l].batch[0], l);
      case Accept(fd, io) => AcceptLetsBe(s, fd, io);
      case Toggle(c, mask) => hide Apply; ToggleLetsBe(s, step);
      case _ =>
    }
  }

  lemma ToggleLetsBe(s: Server, step: Step)
    requires Enabled(s, step) && step.Toggle?
    ensures Apply(s, step).userRefs == s.userRefs && Apply(s, step).calls == s.calls
  {
    hide Held, FdIsFree, SetEvents;
  }

  lemma CallbackLetsBe(s: Server, l: LoopId, eof: bool)
    requires l in s.loops && s.loops[l].handler.Handling? && s.loops[l].handler.todo != []
    requires InPoller(s, s.loops[l].handler.c)
    ensures ApplyCallback(s, l, eof).userRefs == s.userRefs && ApplyCallback(s, l, eof).calls == s.calls
  {
    hide HandleClose;
    CloseAhead(Popped(s, l), s.loops[l].handler.c, l);
  }

  lemma AcceptLetsBe(s: Server, fd: int, io: LoopId)
    requires io in s.loops && BASE in s.loops
    ensures ApplyAccept(s, fd, io).userRefs == s.userRefs && ApplyAccept(s, fd, io).calls == s.calls
  {
    hide SetEvents;
  }

  lemma PointerStepMeans(s: Server, step: Step)
    requires Enabled(s, step) && (step.TakeRef? || step.DropRef? || step.Begin? || step.Release? || step.Post?)
    ensures PointersKept(s, step, Apply(s, step))
  {
    hide Held;
  }

  /** In runs whose posts are backed, every loop can get round to every functor it holds. */
  lemma HeldFunctorRuns(run: seq<Server>, i: nat, l: LoopId, g: Functor) returns (s': Server)
    requires Behaviors.IsBehavior(Init, BackedNext, run) && i < |run| && Holding(run[i], l, g)
    ensures Behaviors.Leads(Next, run[i], s') && Runs(s', l, g)
  {
    hide AnchoredInv, BackedNext, Init, Next, Holding;
    BackedInductive();
    Behaviors.InvariantHolds(Init, BackedNext, AnchoredInv, run, i);
    s' := Comes(run[i], l, g);
  }

  // ---------------------------------------------------------------- an accepted connection comes up

  /** An accepted descriptor belongs to a new connection, in the map, on the loop that was chosen. */
  lemma AcceptMakes(s: Server, fd: int, io: LoopId)
    requires Inv(s) && Enabled(s, Accept(fd, io))
    ensures var s' := Apply(s, Accept(fd, io)); var c := s.nextConnId;
            && c !in s.conns && c in s'.conns && c in s'.connections && s'.nextConnId == c + 1
            && s'.conns[c].fd == fd && s'.conns[c].loop == io && s'.conns[c].alive && s'.conns[c].downs == 0
            && (io == BASE ==> s'.conns[c].st.Connected?)
  {
    hide Inv, SetEvents;
    StepKeeps(s, Accept(fd, io));
  }

  lemma NewIsDue(s: Server, c: Id)
    requires Inv(s) && c in s.conns && s.conns[c].ups == 0
    ensures Knows(s, c) && Holding(s, s.conns[c].loop, Established(c))
  {
    assert Knows(s, c) && Life(s, c);
  }

  lemma SetUpCounts(s: Server, l: LoopId, c: Id)
    requires Inv(s) && Runs(s, l, Established(c)) && Safe(s, RunFunctor(l)) && InPoller(s, c)
    requires Inv(ApplyFunctor(s, l))
    ensures c in ApplyFunctor(s, l).conns
    ensures ApplyFunctor(s, l).conns[c].ups == 1 && ApplyFunctor(s, l).conns[c].st.Connected?
  {
    RunsOn(s, l, Established(c));
    hide Registered, PointersFit, RoundsIntact, FdIsFree;
    EstablishedLife(s, l, c);
    assert Knows(ApplyFunctor(s, l), c) && Life(ApplyFunctor(s, l), c);
  }

  lemma RunsSetUp(s: Server, l: LoopId, c: Id) returns (s': Server)
    requires AnchoredInv(s) && Runs(s, l, Established(c))
    ensures Behaviors.Leads(Next, s, s') && AnchoredInv(s')
    ensures c in s'.conns && s'.conns[c].ups == 1 && s'.conns[c].st.Connected?
  {
    hide TasksAnchored, Next, Inv, Enabled;
    var step := RunFunctor(l);
    assert Enabled(s, step) by { RunEnabled(s, l); }
    assert !RunsStray(s, step);
    StepKeeps(s, step);
    AnchoredKeeps(s, step);
    StepLeads(s, step);
    s' := Apply(s, step);
    SetUpCounts(s, l, c);
  }

  lemma ListensOn(s: Server, s': Server)
    requires ListenInv(s) && Behaviors.Leads(Next, s, s')
    ensures ListenInv(s')
  {
    hide ListenInv, Next, Init;
    ListenInductive();
    Behaviors.LeadsKeeps(Next, ListenInv, s, s');
  }

  /**
   From every state of a run whose posts are backed, a connection that has not been reported up gets there:
   its loop reports it up once, and the kernel watches its descriptor for input there.
   */
  lemma AcceptedComesUp(run: seq<Server>, i: nat, c: Id) returns (s': Server)
    requires Behaviors.IsBehavior(Init, BackedNext, run) && i < |run| && c in run[i].conns && run[i].conns[c].ups == 0
    ensures Behaviors.Leads(Next, run[i], s') && c in s'.conns && s'.conns[c].ups == 1 && s'.conns[c].st.Connected?
    ensures var k := s'.conns[c];
            k.loop in s'.loops && k.fd in s'.loops[k.loop].poller.kernel
            && s'.loops[k.loop].poller.kernel[k.fd].chan == c && READ_EVENT <= s'.loops[k.loop].poller.kernel[k.fd].mask
  {
    BackedIsNext(run);
    AlwaysListens(run, i);
    NewIsDue(run[i], c);
    hide ListenInv, Init, BackedNext, Next, TasksAnchored, Inv, Holding;
    BackedInductive();
    Behaviors.InvariantHolds(Init, BackedNext, AnchoredInv, run, i);
    var a := Comes(run[i], run[i].conns[c].loop, Established(c));
    s' := RunsSetUp(a, run[i].conns[c].loop, c);
    Behaviors.LeadsOn(Next, run[i], a, s');
    ListensOn(run[i], s');
    ListensInKernel(s', c);
  }

  // ---------------------------------------------------------------- what is reported is handled

  /** The loop is handling the connection, with all the callbacks of the event still to run. */
  predicate Handles(s: Server, l: LoopId, r: Ready) {
    l in s.loops && s.loops[l].phase.Dispatching? && s.loops[l].handler == Handling(r.c, r.revents, Callbacks(r.revents))
  }

  /** In its round, a loop finishes the event it handles and goes on to the next one. */
  lemma DispatchGoesOn(s: Server, l: LoopId)
    requires l in s.loops && s.loops[l].phase.Dispatching? && (s.loops[l].handler.Handling? || s.loops[l].active != [])
    requires Enabled(s, OwnStep(s.loops[l], l)) && Safe(s, OwnStep(s.loops[l], l))
    ensures var s' := Apply(s, OwnStep(s.loops[l], l)); var q := s.loops[l];
            && l in s'.loops && s'.loops[l].phase.Dispatching?
            && (q.handler.Handling? ==>
                  s'.loops[l].active == q.active && HandlerRank(s'.loops[l]) < HandlerRank(q))
            && (q.handler.NoHandler? ==> s'.loops[l].active == q.active[1..] && Handles(s', l, q.active[0]))
  {
    hide FdIsFree, Callbacks, HandleClose, Held;
    var q := s.loops[l];
    if q.handler.Handling? && q.handler.todo != [] {
      CloseAhead(Popped(s, l), q.handler.c, l);
    }
  }

  lemma ComesToHandle(s: Server, l: LoopId, r: Ready) returns (s': Server)
    requires AnchoredInv(s) && l in s.loops && r in s.loops[l].active && s.loops[l].phase.Dispatching?
    ensures Behaviors.Leads(Next, s, s') && Handles(s', l, r)
    decreases |s.loops[l].active|, HandlerRank(s.loops[l])
  {
    hide Inv, TasksAnchored, Next, Enabled, Apply, Handles;
    var q := s.loops[l];
    var step := OwnStep(q, l);
    OwnStepEnabled(s, l);
    assert !RunsStray(s, step);
    StepKeeps(s, step);
    DispatchGoesOn(s, l);
    AnchoredKeeps(s, step);
    StepLeads(s, step);
    s' := Apply(s, step);
    if q.handler.Handling? || q.active[0] != r {
      var s1 := s';
      s' := ComesToHandle(s1, l, r);
      Behaviors.LeadsOn(Next, s, s1, s');
    }
  }

  /**
   From every state of a run whose posts are backed, whatever the poll of a loop reports: the loop comes to
   handle each reported channel, with all the callbacks its mask stands for.
   */
  lemma ReportedIsHandled(run: seq<Server>, i: nat, l: LoopId, report: seq<Ready>, r: Ready) returns (s': Server)
    requires Behaviors.IsBehavior(Init, BackedNext, run) && i < |run|
    requires Enabled(run[i], Poll(l, report)) && r in report
    ensures Behaviors.Leads(Next, run[i], s') && Handles(s', l, r)
  {
    hide Init, BackedNext, Next, TasksAnchored, Inv, Reported, Handles;
    BackedInductive();
    Behaviors.InvariantHolds(Init, BackedNext, AnchoredInv, run, i);
    var s, step := run[i], Poll(l, report);
    StepKeeps(s, step);
    AnchoredKeeps(s, step);
    StepLeads(s, step);
    s' := ComesToHandle(Apply(s, step), l, r);
    Behaviors.LeadsOn(Next, s, Apply(s, step), s');
  }
}
