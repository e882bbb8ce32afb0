/** A connection that has closed, and that its users have let go of, is destroyed: the server keeps nothing back. */
module ServerReclaim {
  import opened PollerModel
  import opened ServerModel
  import opened ServerProofs
  import opened ServerSteps
  import opened ServerCallbacks
  import opened ServerWorkers
  import opened ServerTasks
  import opened ServerLatePosts
  import opened ServerChannels
  import opened ServerProgress
  import Behaviors

  /** Torn down and out of the map, with nobody outside the loops keeping a pointer. */
  ghost predicate Torn(s: Server, c: Id) {
    && AnchoredInv(s) && ListenInv(s) && Knows(s, c) && s.conns[c].destroys > 0
    && c !in s.connections && c !in s.userRefs && forall t :: t in s.calls ==> s.calls[t].c != c
  }

  // ---------------------------------------------------------------- users let go

  ghost function Callers(s: Server, c: Id): set<Thread> {
    set t | t in s.calls && s.calls[t].c == c
  }

  /** The state, but for who outside the loops keeps a pointer. */
  predicate SameInside(s: Server, s': Server) {
    s' == s.(userRefs := s'.userRefs, calls := s'.calls)
  }

  lemma DropKeeps(s: Server, c: Id)
    requires AnchoredInv(s) && c in s.userRefs
    ensures Enabled(s, DropRef(c)) && AnchoredInv(Apply(s, DropRef(c))) && SameInside(s, Apply(s, DropRef(c)))
    ensures Apply(s, DropRef(c)).userRefs == s.userRefs - {c} && Apply(s, DropRef(c)).calls == s.calls
  {
    hide Inv, TasksAnchored;
    AnchoredKeeps(s, DropRef(c));
  }

  lemma ReleaseKeepsAll(s: Server, t: Thread)
    requires AnchoredInv(s) && t in s.calls && s.calls[t].Posted?
    ensures Enabled(s, Release(t)) && AnchoredInv(Apply(s, Release(t))) && SameInside(s, Apply(s, Release(t)))
    ensures Apply(s, Release(t)).userRefs == s.userRefs && Apply(s, Release(t)).calls == s.calls - {t}
  {
    hide Inv, TasksAnchored;
    AnchoredKeeps(s, Release(t));
  }

  /** User code drops its pointer, and the callers that have posted let go of theirs. */
  lemma LetGo(s: Server, c: Id) returns (s': Server)
    requires AnchoredInv(s) && forall t :: t in s.calls && s.calls[t].c == c ==> s.calls[t].Posted?
    ensures Behaviors.Leads(Next, s, s') && AnchoredInv(s') && SameInside(s, s')
    ensures c !in s'.userRefs && forall t :: t in s'.calls ==> s'.calls[t].c != c
    decreases if c in s.userRefs then 1 else 0, Callers(s, c)
  {
    hide AnchoredInv, Next, Enabled, Apply;
    if c in s.userRefs {
      DropKeeps(s, c);
      StepLeads(s, DropRef(c));
      var s1 := Apply(s, DropRef(c));
      s' := LetGo(s1, c);
      Behaviors.LeadsOn(Next, s, s1, s');
    } else if t :| t in s.calls && s.calls[t].c == c {
      ReleaseKeepsAll(s, t);
      StepLeads(s, Release(t));
      var s1 := Apply(s, Release(t));
      assert t in Callers(s, c) && t !in Callers(s1, c);
      assert forall u :: u in Callers(s1, c) ==> u in Callers(s, c);
      s' := LetGo(s1, c);
      Behaviors.LeadsOn(Next, s, s1, s');
    } else {
      Behaviors.LeadsNowhere(Next, s);
      s' := s;
    }
  }

  // ---------------------------------------------------------------- what a loop's own step does to what is torn down

  /** How the queue of a loop moves on in its own step; a removal of c is not posted anew. */
  predicate RoundOn(q: Loop, q': Loop, c: Id) {
    && (q.phase.Calling? && q.batch != [] ==>
          q'.phase.Calling? && q'.batch == q.batch[1..] && q'.active == q.active && q'.handler == q.handler)
    && (q.phase.Calling? && q.batch == [] ==> q'.phase.Polling? && q'.batch == [])
    && (q.phase.Polling? ==> q'.phase.Dispatching? && q'.batch == q.batch)
    && (q.phase.Dispatching? ==>
          || (q'.phase.Calling? && q'.batch == q.pending && q'.pending == [])
          || (q'.phase.Dispatching? && q'.batch == q.batch
              && (|q'.active| < |q.active| || (|q'.active| == |q.active| && HandlerRank(q') < HandlerRank(q)))))
    && (RemoveInLoop(c) in q'.pending ==> RemoveInLoop(c) in q.pending)
  }

  lemma ClosePosts(s: Server, d: Id, l: LoopId, c: Id)
    requires InPoller(s, d) && l in s.loops && d != c
    ensures var s' := HandleClose(s, d);
            l in s'.loops && (RemoveInLoop(c) in s'.loops[l].pending ==> RemoveInLoop(c) in s.loops[l].pending)
  {
    hide SetEvents;
  }

  lemma PerformPosts(s: Server, g: Functor, l: LoopId, c: Id)
    requires InPoller(s, g.c) && l in s.loops
    ensures var s' := Perform(s, g);
            l in s'.loops && (RemoveInLoop(c) in s'.loops[l].pending ==> RemoveInLoop(c) in s.loops[l].pending)
  {
    hide SetEvents, ConnectDestroyed;
    if g.Destroyed? {
      DestroyPosts(s, g.c, l, c);
    }
  }

  lemma DestroyPosts(s: Server, d: Id, l: LoopId, c: Id)
    requires InPoller(s, d) && l in s.loops
    ensures l in ConnectDestroyed(s, d).loops && ConnectDestroyed(s, d).loops[l].pending == s.loops[l].pending
  {
    hide SetEvents, RemoveChannel;
  }

  lemma CallbackOn(s: Server, l: LoopId, c: Id)
    requires l in s.loops && s.loops[l].phase.Dispatching? && s.loops[l].handler.Handling?
    requires s.loops[l].handler.todo != [] && s.loops[l].handler.c != c && InPoller(s, s.loops[l].handler.c)
    ensures l in ApplyCallback(s, l, false).loops && RoundOn(s.loops[l], ApplyCallback(s, l, false).loops[l], c)
  {
    hide HandleClose;
    CloseAhead(Popped(s, l), s.loops[l].handler.c, l);
    ClosePosts(Popped(s, l), s.loops[l].handler.c, l, c);
  }

  lemma FunctorOn(s: Server, l: LoopId, c: Id)
    requires l in s.loops && s.loops[l].phase.Calling? && s.loops[l].batch != [] && InPoller(s, s.loops[l].batch[0].c)
    ensures l in ApplyFunctor(s, l).loops && RoundOn(s.loops[l], ApplyFunctor(s, l).loops[l], c)
  {
    hide Perform;
    var q := s.loops[l];
    PerformAhead(WithLoop(s, l, Advanced(q)), q.batch[0], l);
    PerformPosts(WithLoop(s, l, Advanced(q)), q.batch[0], l, c);
  }

  /** The loop as it is after an own step that runs nothing. */
  function Rested(q: Loop): Loop {
    match q.phase
    case Polling => q.(phase := Dispatching, active := [])
    case Dispatching =>
      if q.handler.Handling? then q.(handler := NoHandler)
      else if q.active != [] then Picked(q) else q.(phase := Calling, batch := q.pending, pending := [])
    case Calling => q.(phase := Polling, done := [])
  }

  lemma RestStep(s: Server, l: LoopId)
    requires l in s.loops
    requires var step := OwnStep(s.loops[l], l);
             Enabled(s, step) && Safe(s, step) && !step.RunCallback? && !step.RunFunctor?
    ensures Apply(s, OwnStep(s.loops[l], l)) == WithLoop(s, l, Rested(s.loops[l]))
    ensures s.loops[l].phase.Calling? ==> s.loops[l].batch == []
    ensures s.loops[l].handler.Handling? && s.loops[l].phase.Dispatching? ==> s.loops[l].handler.todo == []
  {
    hide FdIsFree, Reported, Callbacks, ApplyCallback, ApplyFunctor, Held;
  }

  lemma RestOn(s: Server, l: LoopId, c: Id)
    requires l in s.loops
    requires var step := OwnStep(s.loops[l], l);
             Enabled(s, step) && Safe(s, step) && !step.RunCallback? && !step.RunFunctor?
    ensures var s' := Apply(s, OwnStep(s.loops[l], l)); l in s'.loops && RoundOn(s.loops[l], s'.loops[l], c)
  {
    RestStep(s, l);
    hide Apply, Enabled, Safe, Callbacks, OwnStep;
  }

  lemma OwnStepOn(s: Server, l: LoopId, c: Id)
    requires l in s.loops && (s.loops[l].handler.Handling? ==> s.loops[l].handler.c != c)
    requires Enabled(s, OwnStep(s.loops[l], l)) && Safe(s, OwnStep(s.loops[l], l))
    ensures var s' := Apply(s, OwnStep(s.loops[l], l)); l in s'.loops && RoundOn(s.loops[l], s'.loops[l], c)
  {
    hide RoundOn, FdIsFree, ApplyCallback, ApplyFunctor, Reported;
    var step := OwnStep(s.loops[l], l);
    if step.RunCallback? {
      CallbackOn(s, l, c);
    } else if step.RunFunctor? {
      FunctorOn(s, l, c);
    } else {
      RestOn(s, l, c);
    }
  }

  lemma TornIsNotHandled(s: Server, m: LoopId, c: Id)
    requires Torn(s, c) && m in s.loops
    ensures s.loops[m].handler.Handling? ==> s.loops[m].handler.c != c
    ensures !RemovalDue(s, c) && s.loops[m].batch != [] ==> s.loops[m].batch[0] != RemoveInLoop(c)
  {
    hide Registered, Lives, TasksAnchored, AllListen;
    assert RoundIntact(s, m);
    if s.loops[m].batch != [] {
      assert s.loops[m].batch[0] in s.loops[m].batch;
      assert FunctorFits(s, m, s.loops[m].batch[0]);
    }
  }

  /** A step that takes nothing into the map and no pointer leaves what is torn down torn down. */
  lemma StaysTorn(s: Server, s': Server, c: Id)
    requires Torn(s, c) && Persists(s, s') && Ages(s, s') && AnchoredInv(s') && ListenInv(s')
    ensures Torn(s', c)
  {
    hide AnchoredInv, ListenInv;
    assert c in s'.conns;
    assert Knows(s', c) by { KnownAgain(s', c); }
  }

  lemma KnownAgain(s: Server, c: Id)
    requires ListenInv(s) && c in s.conns
    ensures Knows(s, c)
  {
    hide AllListen, Owned, PollersSimulate, FdsDistinct;
  }

  lemma AnchoredStep(s: Server, step: Step)
    requires AnchoredInv(s) && Enabled(s, step) && !step.Post?
    ensures !RunsStray(s, step) && Safe(s, step) && AnchoredInv(Apply(s, step))
  {
    AnchoredHasNoStray(s, step);
    AnchoredKeeps(s, step);
    hide Enabled, Apply, RunsStray, Safe, TasksAnchored, Registered, Owned;
    StepKeeps(s, step);
  }

  lemma OwnStepAnchored(s: Server, m: LoopId)
    requires AnchoredInv(s) && m in s.loops
    ensures Enabled(s, OwnStep(s.loops[m], m)) && !RunsStray(s, OwnStep(s.loops[m], m))
    ensures Safe(s, OwnStep(s.loops[m], m))
    ensures var s' := Apply(s, OwnStep(s.loops[m], m));
            AnchoredInv(s') && Persists(s, s') && Behaviors.Leads(Next, s, s')
  {
    hide AnchoredInv, Next, Enabled, Apply, Safe, Persists, RunsStray;
    OwnStepEnabled(s, m);
    assert !OwnStep(s.loops[m], m).Post?;
    hide OwnStep;
    AnchoredStep(s, OwnStep(s.loops[m], m));
    OwnStepPersists(s, m);
    StepLeads(s, OwnStep(s.loops[m], m));
  }

  lemma ListensNext(s: Server, step: Step)
    requires ListenInv(s) && Enabled(s, step)
    ensures ListenInv(Apply(s, step)) && Ages(s, Apply(s, step))
  {
    hide Inv, AllListen, Enabled, Apply, Ages;
    StepKeeps(s, step);
    StepFine(s, step);
    FineParts(s, Apply(s, step));
  }

  lemma OwnStepTorn(s: Server, m: LoopId, c: Id)
    requires Torn(s, c) && m in s.loops
    ensures Enabled(s, OwnStep(s.loops[m], m)) && !RunsStray(s, OwnStep(s.loops[m], m))
    ensures Safe(s, OwnStep(s.loops[m], m))
    ensures var s' := Apply(s, OwnStep(s.loops[m], m)); Torn(s', c) && Behaviors.Leads(Next, s, s')
  {
    assert AnchoredInv(s) && ListenInv(s);
    hide Torn, AnchoredInv, ListenInv, Next, Enabled, Apply, RunsStray, Safe, Persists, Ages;
    OwnStepAnchored(s, m);
    ListensNext(s, OwnStep(s.loops[m], m));
    StaysTorn(s, Apply(s, OwnStep(s.loops[m], m)), c);
  }

  // ---------------------------------------------------------------- no removal is due any more

  lemma RemovalOnly(s: Server, c: Id)
    requires Torn(s, c) && RemovalDue(s, c)
    ensures RemoveInLoop(c) in s.loops[BASE].pending || s.loops[BASE].phase.Calling?
  {
    hide TasksAnchored, AllListen;
    BatchesIntact(s, BASE);
  }

  /** The base loop runs the removals that are still due, if the connection closed more than once. */
  lemma RemovalsRun(s: Server, c: Id) returns (s': Server)
    requires Torn(s, c)
    ensures Behaviors.Leads(Next, s, s') && Torn(s', c) && !RemovalDue(s', c)
    decreases if RemoveInLoop(c) in s.loops[BASE].pending then 1 else 0,
              PhaseRank(s.loops[BASE]), |s.loops[BASE].active|, HandlerRank(s.loops[BASE]), |s.loops[BASE].batch|
  {
    hide Torn, Next, Enabled, Apply, Safe;
    assert BASE in s.loops by { TornBase(s, c); }
    if !RemovalDue(s, c) {
      Behaviors.LeadsNowhere(Next, s);
      return s;
    }
    RemovalOnly(s, c);
    OwnStepTorn(s, BASE, c);
    TornIsNotHandled(s, BASE, c);
    OwnStepOn(s, BASE, c);
    var s1 := Apply(s, OwnStep(s.loops[BASE], BASE));
    s' := RemovalsRun(s1, c);
    Behaviors.LeadsOn(Next, s, s1, s');
  }

  lemma TornBase(s: Server, c: Id)
    requires Torn(s, c)
    ensures Knows(s, c) && BASE in s.loops
  {
    hide AnchoredInv, ListenInv;
  }

  // ---------------------------------------------------------------- the loops let go

  /** A loop, left to itself, lets go of a connection that is torn down. */
  lemma Empties(s: Server, m: LoopId, c: Id) returns (s': Server)
    requires Torn(s, c) && Knows(s, c) && !RemovalDue(s, c) && m in s.loops
    ensures Behaviors.Leads(Next, s, s') && Torn(s', c) && Emptier(s, s', m, c) && !RemovalDue(s', c)
    ensures !HeldByLoop(s'.loops[m], c)
    decreases if Owning(s.loops[m].pending, c) then 1 else 0,
              PhaseRank(s.loops[m]), |s.loops[m].active|, HandlerRank(s.loops[m]), |s.loops[m].batch|
  {
    hide Torn, Inv, Next, Enabled, Apply, Safe, RunsStray, HeldByLoop, Turned, Emptier, RemovalDue, OwnStep;
    var q := s.loops[m];
    HeldIsOwned(q, c);
    if !HeldByLoop(q, c) {
      Behaviors.LeadsNowhere(Next, s);
      EmptierSelf(s, m, c);
      return s;
    }
    TornInv(s, c);
    RoundEmpty(s, m);
    EmptyOwnsNothing(c);
    OwnStepTorn(s, m, c);
    TornIsNotHandled(s, m, c);
    OwnStepTurned(s, m, c);
    var s1 := Apply(s, OwnStep(q, m));
    TurnedOn(s, s1, m, c);
    TurnedIsEmptier(s, s1, m, c);
    s' := Empties(s1, m, c);
    Behaviors.LeadsOn(Next, s, s1, s');
    EmptierTrans(s, s1, s', m, c);
  }

  lemma TornInv(s: Server, c: Id)
    requires Torn(s, c)
    ensures Inv(s)
  {
    hide Inv, TasksAnchored, AllListen;
  }

  lemma TurnedOn(s: Server, s': Server, m: LoopId, c: Id)
    requires Knows(s, c) && m in s.loops && Turned(s, s', m, c)
    ensures Knows(s', c) && m in s'.loops && QueueTurned(s.loops[m], s'.loops[m], c)
    ensures RemovalDue(s', c) ==> RemovalDue(s, c)
  {
  }

  ghost function Keepers(s: Server, c: Id): set<LoopId> {
    set k | k in s.loops && HeldByLoop(s.loops[k], c)
  }

  lemma FewerKeepers(s: Server, s': Server, m: LoopId, c: Id)
    requires Knows(s, c) && Emptier(s, s', m, c) && m in Keepers(s, c) && !HeldByLoop(s'.loops[m], c)
    ensures Keepers(s', c) < Keepers(s, c)
  {
    hide HeldByLoop;
    assert m !in Keepers(s', c);
    assert forall k :: k in Keepers(s', c) ==> k in Keepers(s, c);
  }

  /** One loop after another lets go. */
  lemma AllEmpty(s: Server, c: Id) returns (s': Server)
    requires Torn(s, c) && Knows(s, c) && !RemovalDue(s, c)
    ensures Behaviors.Leads(Next, s, s') && Torn(s', c) && forall k :: k in s'.loops ==> !HeldByLoop(s'.loops[k], c)
    decreases Keepers(s, c)
  {
    hide Torn, Next, HeldByLoop, Emptier, RemovalDue;
    if m :| m in Keepers(s, c) {
      var s1 := Empties(s, m, c);
      FewerKeepers(s, s1, m, c);
      TornBase(s1, c);
      s' := AllEmpty(s1, c);
      Behaviors.LeadsOn(Next, s, s1, s');
    } else {
      Behaviors.LeadsNowhere(Next, s);
      s' := s;
      assert forall k :: k in s.loops && HeldByLoop(s.loops[k], c) ==> k in Keepers(s, c);
    }
  }

  /** The last pointer gone, the destructor runs. */
  lemma Reaped(s: Server, c: Id) returns (s': Server)
    requires Torn(s, c) && forall k :: k in s.loops ==> !HeldByLoop(s.loops[k], c)
    ensures Behaviors.Leads(Next, s, s') && c in s'.conns && !s'.conns[c].alive
  {
    hide Inv, TasksAnchored, AllListen, Next, HeldByLoop;
    if !s.conns[c].alive {
      Behaviors.LeadsNowhere(Next, s);
      return s;
    }
    assert Enabled(s, Reap(c));
    StepKeeps(s, Reap(c));
    StepLeads(s, Reap(c));
    s' := Apply(s, Reap(c));
  }

  lemma TornIsReaped(s: Server, c: Id) returns (s': Server)
    requires Torn(s, c)
    ensures Behaviors.Leads(Next, s, s') && c in s'.conns && !s'.conns[c].alive
  {
    hide Torn, Next, HeldByLoop, RemovalDue;
    var a := RemovalsRun(s, c);
    TornBase(a, c);
    var b := AllEmpty(a, c);
    s' := Reaped(b, c);
    Behaviors.LeadsOn(Next, s, a, b);
    Behaviors.LeadsOn(Next, s, b, s');
  }

  // ---------------------------------------------------------------- over whole runs

  /** What `TearDown` leaves of a closed connection that nobody outside the loops keeps. */
  lemma TearDownIsTorn(s: Server, c: Id) returns (s': Server)
    requires AnchoredInv(s) && ListenInv(s) && RemovalsDue(s) && c in s.conns && s.conns[c].downs > 0
    requires c !in s.userRefs && forall t :: t in s.calls ==> s.calls[t].c != c
    ensures Behaviors.Leads(Next, s, s') && Torn(s', c)
  {
    hide AnchoredInv, ListenInv, RemovalsDue, Next;
    s' := s;
    Behaviors.LeadsNowhere(Next, s);
    if s.conns[c].destroys == 0 {
      s' := TearDown(s, c);
    } else if c in s.connections {
      assert Knows(s, c) && Holding(s, BASE, RemoveInLoop(c)) by { ClosedIsDue(s, c); }
      s' := TakeOut(s, c);
      assert Ages(s, s') by { LeadsAges(s, s'); }
    }
    ListensOn(s, s');
    KnownAgain(s', c);
  }

  lemma ClosedIsDue(s: Server, c: Id)
    requires ListenInv(s) && RemovalsDue(s) && c in s.connections && c in s.conns && s.conns[c].downs > 0
    ensures Knows(s, c) && Holding(s, BASE, RemoveInLoop(c))
  {
    KnownAgain(s, c);
    DownIsDown(s, c);
  }

  ghost predicate AgedFrom(s: Server, x: Server) {
    ListenInv(x) && Ages(s, x)
  }

  lemma LeadsAges(s: Server, s': Server)
    requires ListenInv(s) && Behaviors.Leads(Next, s, s')
    ensures Ages(s, s')
  {
    var inv := (x: Server) => AgedFrom(s, x);
    hide ListenInv, Next, Init;
    ListenInductive();
    forall a, b | inv(a) && Next(a, b) ensures inv(b) {
      NextAges(a, b);
    }
    Behaviors.LeadsKeeps(Next, inv, s, s');
  }

  lemma InsideIsSame(s: Server, s': Server)
    requires ListenInv(s) && RemovalsDue(s) && SameInside(s, s') && Behaviors.Leads(Next, s, s')
    ensures ListenInv(s') && RemovalsDue(s')
  {
    ListensOn(s, s');
    hide ListenInv, Next;
    forall c | c in s'.connections && IsDown(s', c) ensures RemovalDue(s', c) {
      assert RemovalDue(s, c);
    }
  }

  /**
   From every state of a run whose posts are backed: a connection that has been reported down is destroyed and
   its descriptor closed, once user code drops its pointer and the callers that have posted let go of theirs. The
   loops do no more than their own work for it.
   */
  lemma ClosedIsDestroyed(run: seq<Server>, i: nat, c: Id) returns (s': Server)
    requires Behaviors.IsBehavior(Init, BackedNext, run) && i < |run|
    requires c in run[i].conns && run[i].conns[c].downs > 0
    requires forall t :: t in run[i].calls && run[i].calls[t].c == c ==> run[i].calls[t].Posted?
    ensures Behaviors.Leads(Next, run[i], s') && c in s'.conns && !s'.conns[c].alive
  {
    BackedIsNext(run);
    AlwaysDue(run, i);
    AlwaysListens(run, i);
    hide Init, BackedNext, Next, RemovalsDue, AnchoredInv, ListenInv, Torn;
    BackedInductive();
    Behaviors.InvariantHolds(Init, BackedNext, AnchoredInv, run, i);
    var a := LetGo(run[i], c);
    InsideIsSame(run[i], a);
    var b := TearDownIsTorn(a, c);
    s' := TornIsReaped(b, c);
    Behaviors.LeadsOn(Next, run[i], a, b);
    Behaviors.LeadsOn(Next, run[i], b, s');
  }
}
