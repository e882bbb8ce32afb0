/** The converse: a task posted when nothing will keep its connection can go astray. */
module ServerLatePosts {
  import opened PollerModel
  import opened ServerModel
  import opened ServerProofs
  import opened ServerSteps
  import opened ServerTheorems
  import opened ServerWorkers
  import opened ServerTasks
  import ConnectionModel
  import Behaviors

  /** The loop is about to run the task, and its connection is no more. */
  ghost predicate AtHead(s: Server, f: Functor) {
    Stray(s, f) && exists l :: l in s.loops && s.loops[l].phase.Calling? && s.loops[l].batch != [] && s.loops[l].batch[0] == f
  }

  /** Some continuation leads to that. */
  ghost predicate CanStray(s: Server, f: Functor) {
    exists s' :: Behaviors.Leads(Next, s, s') && AtHead(s', f)
  }

  lemma StepLeads(s: Server, step: Step)
    requires Enabled(s, step)
    ensures Behaviors.Leads(Next, s, Apply(s, step))
  {
    assert Next(s, Apply(s, step));
    hide Next;
    Behaviors.LeadsStep(Next, s, Apply(s, step));
  }

  // ---------------------------------------------------------------- an anchored task cannot

  /** The task is not posted again, and is anchored wherever it waits. */
  ghost predicate Settled(s: Server, f: Functor) {
    Inv(s) && f.Raw? && f.ticket < s.tickets && Knows(s, f.c) && Anchored(s, f)
  }

  lemma TicketsGrow(s: Server, step: Step)
    requires Enabled(s, step)
    ensures s.tickets <= Apply(s, step).tickets
  {
    hide Held, FdIsFree, SetEvents, RemoveChannel;
  }

  lemma SettledStays(s: Server, s': Server, f: Functor)
    requires Settled(s, f) && Next(s, s')
    ensures Settled(s', f)
  {
    hide Inv, Anchored;
    var step :| Enabled(s, step) && s' == Apply(s, step);
    StepKeeps(s, step);
    TicketsGrow(s, step);
    if RunsStray(s, step) {
      assert s' == s.(crashed := true);
      AnchoredIgnoresFlag(s, f);
    } else {
      hide Apply, Enabled, Safe;
      AnchoredStays(s, step, f);
    }
  }

  lemma AnchoredIgnoresFlag(s: Server, f: Functor)
    requires Knows(s, f.c) && Anchored(s, f)
    ensures Anchored(s.(crashed := true), f)
  {
  }

  lemma SettledIsNotAtHead(s: Server, f: Functor)
    requires Settled(s, f)
    ensures !AtHead(s, f)
  {
    hide Inv, Anchored;
    if AtHead(s, f) {
      var l :| l in s.loops && s.loops[l].phase.Calling? && s.loops[l].batch != [] && s.loops[l].batch[0] == f;
      assert f in s.loops[l].batch;
      AnchoredIsNotStray(s, l, f);
    }
  }

  lemma SettledCannotStray(s: Server, f: Functor)
    requires Settled(s, f)
    ensures !CanStray(s, f)
  {
    var inv := (x: Server) => Settled(x, f);
    hide Settled, Next, AtHead;
    forall a, b | inv(a) && Next(a, b) ensures inv(b) {
      SettledStays(a, b, f);
    }
    forall s' | Behaviors.Leads(Next, s, s') ensures !AtHead(s', f) {
      Behaviors.LeadsKeeps(Next, inv, s, s');
      SettledIsNotAtHead(s', f);
    }
  }

  // ---------------------------------------------------------------- what one loop's own step does to a connection

  /** Other queues have only grown, and by nothing that owns c or will. */
  ghost predicate Aside(s: Server, s': Server, c: Id)
    requires Knows(s, c)
  {
    && Knows(s', c) && s'.conns[c].loop == s.conns[c].loop && s'.conns[c].alive == s.conns[c].alive
    && s'.userRefs == s.userRefs && s'.calls == s.calls && s'.loops.Keys == s.loops.Keys
    && (c in s'.connections ==> c in s.connections)
    && (forall k :: k in s.loops ==>
          s'.loops[k] == s.loops[k].(pending := s'.loops[k].pending, poller := s'.loops[k].poller)
          && s.loops[k].pending <= s'.loops[k].pending
          && (Owning(s'.loops[k].pending, c) ==> Owning(s.loops[k].pending, c)))
    && (RemovalDue(s', c) ==> RemovalDue(s, c))
  }

  lemma AsideTrans(s: Server, a: Server, s': Server, c: Id)
    requires Knows(s, c) && Aside(s, a, c) && Aside(a, s', c)
    ensures Aside(s, s', c)
  {
    hide Owning, RemovalDue;
  }

  lemma OwningPush(fs: seq<Functor>, g: Functor, c: Id)
    requires Owning(fs + [g], c) && g.c != c
    ensures Owning(fs, c)
  {
    var h :| h in fs + [g] && h.c == c && !h.Raw?;
    assert h in fs;
  }

  lemma PushSame(fs: seq<Functor>, g: Functor, h: Functor)
    requires h in fs + [g] && g.c != h.c
    ensures h in fs
  {
  }

  lemma PushAside(s: Server, l: LoopId, g: Functor, c: Id)
    requires l in s.loops && Knows(s, c) && g.c != c
    ensures Aside(s, Push(s, l, g), c)
  {
    hide Owning;
    var s' := Push(s, l, g);
    assert s.loops[l].pending <= s'.loops[l].pending;
    if Owning(s'.loops[l].pending, c) {
      OwningPush(s.loops[l].pending, g, c);
    }
    if RemovalDue(s', c) && l == BASE && RemoveInLoop(c) in s'.loops[BASE].pending {
      PushSame(s.loops[BASE].pending, g, RemoveInLoop(c));
    }
  }

  /** Masks and states of connections do not touch the queues. */
  lemma MaskAside(s: Server, d: Id, k: Conn, mask: set<Ev>, c: Id)
    requires InPoller(s, d) && Knows(s, c) && k.loop == s.conns[d].loop && k.alive == s.conns[d].alive
    ensures Aside(s, SetMask(WithConn(s, d, k), d, mask), c)
  {
    hide SetEvents, Owning;
  }

  lemma EraseAside(s: Server, d: Id, c: Id)
    requires Knows(s, c)
    ensures Aside(s, s.(connections := s.connections - {d}), c)
  {
    hide Owning;
  }

  lemma RemovalAside(s: Server, d: Id, c: Id)
    requires Knows(s, c) && Knows(s, d) && d != c
    ensures Aside(s, RemoveConnectionInLoop(s, d), c)
  {
    hide Aside;
    var s1 := s.(connections := s.connections - {d});
    EraseAside(s, d, c);
    PushAside(s1, s.conns[d].loop, Destroyed(d), c);
    AsideTrans(s, s1, RemoveConnectionInLoop(s, d), c);
  }

  lemma CloseAside(s: Server, d: Id, c: Id)
    requires InPoller(s, d) && Knows(s, c) && d != c
    ensures Aside(s, HandleClose(s, d), c)
  {
    hide Aside, SetMask;
    var k := s.conns[d];
    var s1 := Closed(s, d);
    MaskAside(s, d, k.(st := ConnectionModel.Disconnected, downs := k.downs + 1), {}, c);
    assert Knows(s1, c) && Knows(s1, d) && s1.conns[d].loop == k.loop by { ClosedKnows(s, d, c); }
    if k.loop == BASE {
      RemovalAside(s1, d, c);
    } else {
      PushAside(s1, BASE, RemoveInLoop(d), c);
    }
    AsideTrans(s, s1, HandleClose(s, d), c);
  }

  lemma ClosedKnows(s: Server, d: Id, c: Id)
    requires InPoller(s, d) && Knows(s, c)
    ensures Knows(Closed(s, d), c) && Knows(Closed(s, d), d) && Closed(s, d).conns[d].loop == s.conns[d].loop
  {
    hide SetEvents;
  }

  lemma ConnAside(s: Server, d: Id, k: Conn, c: Id)
    requires Knows(s, c) && d in s.conns && k.loop == s.conns[d].loop && k.alive == s.conns[d].alive
    ensures Aside(s, WithConn(s, d, k), c)
  {
    hide Owning;
  }

  lemma PollerAside(s: Server, l: LoopId, p: PollerModel.Poller<Id>, c: Id)
    requires Knows(s, c) && l in s.loops
    ensures Aside(s, WithPoller(s, l, p), c)
  {
    hide Owning;
  }

  lemma DestroyAside(s: Server, d: Id, c: Id)
    requires InPoller(s, d) && Knows(s, c)
    ensures Aside(s, ConnectDestroyed(s, d), c)
  {
    hide SetEvents, RemoveChannel, Aside;
    var k := s.conns[d];
    var k1 := k.(destroys := k.destroys + 1);
    var s1 := if k.st.Connected?
              then SetMask(WithConn(s, d, k1.(st := ConnectionModel.Disconnected, downs := k.downs + 1)), d, {})
              else WithConn(s, d, k1);
    SetEventsLocal(s.loops[k.loop].poller, d, {});
    if k.st.Connected? {
      MaskAside(s, d, k1.(st := ConnectionModel.Disconnected, downs := k.downs + 1), {}, c);
    } else {
      ConnAside(s, d, k1, c);
    }
    PollerAside(s1, k.loop, RemoveChannel(s1.loops[k.loop].poller, d), c);
    AsideTrans(s, s1, ConnectDestroyed(s, d), c);
  }

  lemma PerformAside(s: Server, g: Functor, c: Id)
    requires InPoller(s, g.c) && Knows(s, c) && g != RemoveInLoop(c)
    ensures Aside(s, Perform(s, g), c)
  {
    hide SetEvents, RemoveChannel, Owning, Aside, ConnectDestroyed, RemoveConnectionInLoop;
    match g
    case Established(d) =>
      MaskAside(s, d, s.conns[d].(st := ConnectionModel.Connected, ups := s.conns[d].ups + 1), READ_EVENT, c);
    case RemoveInLoop(d) => RemovalAside(s, d, c);
    case Destroyed(d) => DestroyAside(s, d, c);
    case _ => AsideSelf(s, c);
  }

  lemma AsideSelf(s: Server, c: Id)
    requires Knows(s, c)
    ensures Aside(s, s, c)
  {
  }

  /** What a loop's own step does to its queue, as far as the connection is concerned. */
  predicate QueueTurned(q: Loop, q': Loop, c: Id) {
    && (q.phase.Calling? && q.batch != [] ==>
          && q'.phase.Calling? && q'.batch == q.batch[1..] && q.pending <= q'.pending
          && q'.active == q.active && q'.handler == q.handler
          && (Owning(q'.done, c) ==> Owning(q.done, c) || Owning(q.batch, c)))
    && (q.phase.Calling? && q.batch == [] ==>
          q'.phase.Polling? && q'.batch == [] && q'.done == [] && q'.pending == q.pending)
    && (q.phase.Polling? ==>
          q'.phase.Dispatching? && q'.batch == q.batch && q'.done == q.done && q'.pending == q.pending)
    && (q.phase.Dispatching? ==>
          || (q'.phase.Calling? && q'.batch == q.pending && q'.pending == [] && q'.done == q.done)
          || (q'.phase.Dispatching? && q'.batch == q.batch && q'.done == q.done && q.pending <= q'.pending
              && (|| |q'.active| < |q.active|
                  || (|q'.active| == |q.active| && HandlerRank(q') < HandlerRank(q)))))
    && (Owning(q'.pending, c) ==> Owning(q.pending, c))
  }

  ghost predicate Turned(s: Server, s': Server, m: LoopId, c: Id)
    requires Knows(s, c) && m in s.loops
  {
    && Knows(s', c) && s'.conns[c].loop == s.conns[c].loop && s'.conns[c].alive == s.conns[c].alive
    && s'.userRefs == s.userRefs && s'.calls == s.calls && s'.loops.Keys == s.loops.Keys
    && (c in s'.connections ==> c in s.connections)
    && (forall k :: k in s.loops && k != m ==>
          Grown(s.loops[k], s'.loops[k]) && s'.loops[k].phase == s.loops[k].phase
          && (Owning(s'.loops[k].pending, c) ==> Owning(s.loops[k].pending, c)))
    && QueueTurned(s.loops[m], s'.loops[m], c)
    && (RemovalDue(s', c) ==> RemovalDue(s, c))
  }

  /** Only the queue of loop m turns. */
  lemma LoopTurned(s: Server, m: LoopId, q': Loop, c: Id)
    requires m in s.loops && Knows(s, c) && QueueTurned(s.loops[m], q', c)
    requires forall g :: g in q'.pending || g in q'.batch ==> g in s.loops[m].pending || g in s.loops[m].batch
    ensures Turned(s, WithLoop(s, m, q'), m, c)
  {
    hide Owning, QueueTurned;
  }

  /** What goes on aside does not undo a turn. */
  lemma TurnedAside(s: Server, a: Server, s': Server, m: LoopId, c: Id)
    requires Knows(s, c) && m in s.loops && Turned(s, a, m, c) && Aside(a, s', c)
    requires !s.loops[m].phase.Dispatching? || a.loops[m].phase.Dispatching?
    requires (s.loops[m].phase.Calling? && s.loops[m].batch != []) || s.loops[m].phase.Dispatching?
    ensures Turned(s, s', m, c)
  {
    hide Owning, RemovalDue;
  }

  lemma CallbackTurned(s: Server, m: LoopId, c: Id)
    requires m in s.loops && Knows(s, c) && s.loops[m].phase.Dispatching? && s.loops[m].handler.Handling?
    requires s.loops[m].handler.todo != [] && s.loops[m].handler.c != c && InPoller(s, s.loops[m].handler.c)
    ensures Turned(s, ApplyCallback(s, m, false), m, c)
  {
    hide HandleClose, Turned, Aside, Owning;
    var h := s.loops[m].handler;
    var q' := s.loops[m].(handler := Handling(h.c, h.revents, h.todo[1..]));
    LoopTurned(s, m, q', c);
    if h.todo[0].Close? {
      CloseAside(WithLoop(s, m, q'), h.c, c);
      TurnedAside(s, WithLoop(s, m, q'), HandleClose(WithLoop(s, m, q'), h.c), m, c);
    }
  }

  lemma OwningAfterHead(q: Loop, c: Id)
    requires q.batch != [] && Owning(q.done + [q.batch[0]], c)
    ensures Owning(q.done, c) || Owning(q.batch, c)
  {
    var g :| g in q.done + [q.batch[0]] && g.c == c && !g.Raw?;
    assert g in q.done || g in q.batch;
  }

  lemma FunctorTurned(s: Server, m: LoopId, c: Id)
    requires m in s.loops && Knows(s, c) && s.loops[m].phase.Calling? && s.loops[m].batch != []
    requires s.loops[m].batch[0] != RemoveInLoop(c) && InPoller(s, s.loops[m].batch[0].c)
    ensures Turned(s, ApplyFunctor(s, m), m, c)
  {
    hide Perform, Turned, Aside;
    var q := s.loops[m];
    if Owning(q.done + [q.batch[0]], c) {
      OwningAfterHead(q, c);
    }
    hide Owning;
    assert forall g :: g in q.batch[1..] ==> g in q.batch;
    LoopTurned(s, m, Advanced(q), c);
    var s0 := WithLoop(s, m, Advanced(q));
    PerformAside(s0, q.batch[0], c);
    TurnedAside(s, s0, ApplyFunctor(s, m), m, c);
  }

  lemma RestTurned(s: Server, m: LoopId, c: Id)
    requires m in s.loops && Knows(s, c) && (!s.loops[m].phase.Calling? ==> s.loops[m].batch == [])
    requires var step := OwnStep(s.loops[m], m);
             Enabled(s, step) && Safe(s, step) && !step.RunCallback? && !step.RunFunctor?
    ensures Turned(s, Apply(s, OwnStep(s.loops[m], m)), m, c)
  {
    hide FdIsFree, Reported, Callbacks, Turned, Owning;
    var q := s.loops[m];
    var q' := match q.phase
      case Polling => q.(phase := Dispatching, active := [])
      case Dispatching =>
        if q.handler.Handling? then q.(handler := NoHandler)
        else if q.active != [] then Picked(q) else q.(phase := Calling, batch := q.pending, pending := [])
      case Calling => q.(phase := Polling, done := []);
    assert Apply(s, OwnStep(q, m)) == WithLoop(s, m, q');
    hide Apply, Enabled, Safe;
    assert QueueTurned(q, q', c) by { EmptyOwnsNothing(c); }
    LoopTurned(s, m, q', c);
  }

  lemma EmptyOwnsNothing(c: Id)
    ensures !Owning([], c)
  {
  }

  lemma OwnStepTurned(s: Server, m: LoopId, c: Id)
    requires Inv(s) && m in s.loops && Knows(s, c)
    requires Enabled(s, OwnStep(s.loops[m], m)) && !RunsStray(s, OwnStep(s.loops[m], m))
    requires s.loops[m].handler.Handling? ==> s.loops[m].handler.c != c
    requires s.loops[m].batch != [] ==> s.loops[m].batch[0] != RemoveInLoop(c)
    ensures Turned(s, Apply(s, OwnStep(s.loops[m], m)), m, c)
  {
    hide Inv, Turned, FdIsFree, ApplyCallback, ApplyFunctor;
    var step := OwnStep(s.loops[m], m);
    StepKeeps(s, step);
    BatchesIntact(s, m);
    if step.RunCallback? {
      CallbackTurned(s, m, c);
    } else if step.RunFunctor? {
      FunctorTurned(s, m, c);
    } else {
      RestTurned(s, m, c);
    }
  }

  // ---------------------------------------------------------------- a task that nothing backs waits

  ghost predicate OthersAnchored(s: Server, f: Functor) {
    forall l, g: Functor ::
      l in s.loops && (g in s.loops[l].pending || g in s.loops[l].batch) && g.Raw? && Knows(s, g.c) && g != f ==>
        Anchored(s, g)
  }

  ghost predicate Waits(s: Server, f: Functor) {
    && Inv(s) && f.Raw? && Knows(s, f.c) && !Backed(s, f.c)
    && f in s.loops[s.conns[f.c].loop].pending
    && OthersAnchored(s, f)
  }

  /** The loop may go on without handling the connection, or taking it out of the map. */
  lemma NotHandled(s: Server, m: LoopId, f: Functor)
    requires Waits(s, f) && m in s.loops && (m == s.conns[f.c].loop ==> s.loops[m].phase.Calling?)
    ensures s.loops[m].handler.Handling? ==> s.loops[m].handler.c != f.c
    ensures s.loops[m].batch != [] ==> s.loops[m].batch[0] != RemoveInLoop(f.c)
  {
    hide Registered, Lives, OthersAnchored;
    assert RoundIntact(s, m);
    if s.loops[m].batch != [] {
      assert s.loops[m].batch[0] in s.loops[m].batch;
      assert FunctorFits(s, m, s.loops[m].batch[0]);
    }
  }

  lemma UnbackedStays(s: Server, s': Server, m: LoopId, c: Id)
    requires Knows(s, c) && m in s.loops && Turned(s, s', m, c) && !Backed(s, c)
    ensures !Backed(s', c)
  {
    hide Owning;
  }

  lemma PendingStays(s: Server, s': Server, m: LoopId, f: Functor)
    requires Knows(s, f.c) && m in s.loops && Turned(s, s', m, f.c)
    requires f in s.loops[s.conns[f.c].loop].pending && (m == s.conns[f.c].loop ==> s.loops[m].phase.Calling?)
    ensures f in s'.loops[s'.conns[f.c].loop].pending
  {
    hide Owning;
  }

  lemma OthersStayAnchored(s: Server, step: Step, f: Functor)
    requires Inv(s) && OthersAnchored(s, f) && Enabled(s, step) && Safe(s, step) && !step.Post?
    ensures OthersAnchored(Apply(s, step), f)
  {
    hide Inv, Anchored, Enabled, Safe, Apply;
    forall l, g: Functor |
      l in Apply(s, step).loops && g.Raw? && Knows(Apply(s, step), g.c) && g != f
      && (g in Apply(s, step).loops[l].pending || g in Apply(s, step).loops[l].batch)
      ensures Anchored(Apply(s, step), g)
    {
      WaitedBefore(s, step, l, g);
      TaskFits(s, l, g);
      AnchoredStays(s, step, g);
    }
  }

  /** No other task stands in the way. */
  lemma OthersAreNotStray(s: Server, m: LoopId, f: Functor)
    requires Inv(s) && OthersAnchored(s, f) && m in s.loops && s.loops[m].batch != []
    ensures Stray(s, s.loops[m].batch[0]) ==> s.loops[m].batch[0] == f
  {
    hide Inv, Anchored;
    var g := s.loops[m].batch[0];
    if g.Raw? && g != f {
      assert g in s.loops[m].batch;
      TaskFits(s, m, g);
      AnchoredIsNotStray(s, m, g);
    }
  }

  lemma OwnStepWaits(s: Server, m: LoopId, f: Functor)
    requires Waits(s, f) && m in s.loops && (m == s.conns[f.c].loop ==> s.loops[m].phase.Calling?)
    requires Enabled(s, OwnStep(s.loops[m], m)) && !RunsStray(s, OwnStep(s.loops[m], m))
    ensures var s' := Apply(s, OwnStep(s.loops[m], m)); Waits(s', f) && Turned(s, s', m, f.c)
  {
    hide Inv, Backed, OthersAnchored, Enabled, Safe, Turned, Apply;
    NotHandled(s, m, f);
    var step := OwnStep(s.loops[m], m);
    StepKeeps(s, step);
    OwnStepTurned(s, m, f.c);
    UnbackedStays(s, Apply(s, step), m, f.c);
    PendingStays(s, Apply(s, step), m, f);
    OthersStayAnchored(s, step, f);
    assert Knows(Apply(s, step), f.c) by { TurnedKnows(s, Apply(s, step), m, f.c); }
  }

  lemma TurnedKnows(s: Server, s': Server, m: LoopId, c: Id)
    requires Knows(s, c) && m in s.loops && Turned(s, s', m, c)
    ensures Knows(s', c) && s'.conns[c].loop == s.conns[c].loop && s'.conns[c].alive == s.conns[c].alive
  {
  }

  // ---------------------------------------------------------------- emptying the queues of what owns the connection

  /** No loop but perhaps m holds the connection that did not before, and nobody else has moved. */
  ghost predicate Emptier(s: Server, s': Server, m: LoopId, c: Id)
    requires Knows(s, c)
  {
    && Knows(s', c) && s'.conns[c].loop == s.conns[c].loop && s'.loops.Keys == s.loops.Keys
    && s'.userRefs == s.userRefs && s'.calls == s.calls
    && forall k :: k in s.loops && k != m ==>
         (HeldByLoop(s'.loops[k], c) ==> HeldByLoop(s.loops[k], c)) && s'.loops[k].phase == s.loops[k].phase
  }

  lemma HeldIsOwned(q: Loop, c: Id)
    ensures HeldByLoop(q, c) <==> Owning(q.pending, c) || Owning(q.batch, c) || Owning(q.done, c)
  {
  }

  lemma TurnedIsEmptier(s: Server, s': Server, m: LoopId, c: Id)
    requires Knows(s, c) && m in s.loops && Turned(s, s', m, c)
    ensures Emptier(s, s', m, c)
  {
    hide HeldByLoop, Owning, QueueTurned;
    forall k | k in s.loops && k != m ensures HeldByLoop(s'.loops[k], c) ==> HeldByLoop(s.loops[k], c) {
      HeldIsOwned(s.loops[k], c);
      HeldIsOwned(s'.loops[k], c);
    }
  }

  lemma EmptierTrans(s: Server, a: Server, s': Server, m: LoopId, c: Id)
    requires Knows(s, c) && Emptier(s, a, m, c) && Emptier(a, s', m, c)
    ensures Emptier(s, s', m, c)
  {
    hide HeldByLoop;
  }

  lemma RoundEmpty(s: Server, m: LoopId)
    requires Inv(s) && m in s.loops
    ensures !s.loops[m].phase.Calling? ==> s.loops[m].batch == [] && s.loops[m].done == []
  {
    hide Registered, PointersFit, Lives;
    assert RoundIntact(s, m);
  }

  lemma OwningSlice(fs: seq<Functor>, c: Id)
    requires fs != [] && Owning(fs[1..], c)
    ensures Owning(fs, c)
  {
    var g :| g in fs[1..] && g.c == c && !g.Raw?;
    assert g in fs;
  }

  /** Another loop, left to itself, lets go of the connection. */
  lemma Drain(s: Server, m: LoopId, f: Functor) returns (s': Server)
    requires Waits(s, f) && m in s.loops && m != s.conns[f.c].loop
    ensures Behaviors.Leads(Next, s, s') && Waits(s', f) && Emptier(s, s', m, f.c)
    ensures !HeldByLoop(s'.loops[m], f.c)
    decreases if Owning(s.loops[m].pending, f.c) then 1 else 0,
              PhaseRank(s.loops[m]), |s.loops[m].active|, HandlerRank(s.loops[m]), |s.loops[m].batch|
  {
    hide Inv, Backed, OthersAnchored, Next, Enabled, Apply, HeldByLoop, Turned, Emptier;
    var q := s.loops[m];
    HeldIsOwned(q, f.c);
    if !HeldByLoop(q, f.c) {
      Behaviors.LeadsNowhere(Next, s);
      EmptierSelf(s, m, f.c);
      return s;
    }
    RoundEmpty(s, m);
    var step := OwnStep(q, m);
    OwnStepEnabled(s, m);
    assert !RunsStray(s, step) by { NotStrayElsewhere(s, m, f); }
    OwnStepWaits(s, m, f);
    var s1 := Apply(s, step);
    StepLeads(s, step);
    assert QueueTurned(q, s1.loops[m], f.c) && m in s1.loops && s1.conns[f.c].loop == s.conns[f.c].loop by {
      TurnedQueue(s, s1, m, f.c);
    }
    TurnedIsEmptier(s, s1, m, f.c);
    s' := Drain(s1, m, f);
    Behaviors.LeadsOn(Next, s, s1, s');
    EmptierTrans(s, s1, s', m, f.c);
  }

  lemma EmptierSelf(s: Server, m: LoopId, c: Id)
    requires Knows(s, c)
    ensures Emptier(s, s, m, c)
  {
  }

  lemma TurnedQueue(s: Server, s': Server, m: LoopId, c: Id)
    requires Knows(s, c) && m in s.loops && Turned(s, s', m, c)
    ensures m in s'.loops && QueueTurned(s.loops[m], s'.loops[m], c) && s'.conns[c].loop == s.conns[c].loop
  {
  }

  lemma NotStrayElsewhere(s: Server, m: LoopId, f: Functor)
    requires Inv(s) && OthersAnchored(s, f) && m in s.loops && Knows(s, f.c) && f.Raw? && m != s.conns[f.c].loop
    ensures !RunsStray(s, OwnStep(s.loops[m], m))
  {
    hide Inv, OthersAnchored;
    if s.loops[m].batch != [] {
      OthersAreNotStray(s, m, f);
      if s.loops[m].batch[0] == f {
        assert f in s.loops[m].batch;
        TaskFits(s, m, f);
      }
    }
  }

  /** The connection's own loop finishes its batch, and stops before it takes the task. */
  lemma FinishBatch(s: Server, f: Functor) returns (s': Server)
    requires Waits(s, f)
    ensures Behaviors.Leads(Next, s, s')
    ensures AtHead(s', f)
            || (Waits(s', f) && Emptier(s, s', s.conns[f.c].loop, f.c) && !s'.loops[s.conns[f.c].loop].phase.Calling?)
    decreases PhaseRank(s.loops[s.conns[f.c].loop]), |s.loops[s.conns[f.c].loop].batch|
  {
    hide Inv, Backed, OthersAnchored, Next, Enabled, Apply, HeldByLoop, Turned, Emptier;
    var l := s.conns[f.c].loop;
    var q := s.loops[l];
    var step := OwnStep(q, l);
    if !q.phase.Calling? || RunsStray(s, step) {
      Behaviors.LeadsNowhere(Next, s);
      EmptierSelf(s, l, f.c);
      if q.phase.Calling? {
        OthersAreNotStray(s, l, f);
      }
      return s;
    }
    OwnStepEnabled(s, l);
    OwnStepWaits(s, l, f);
    var s1 := Apply(s, step);
    StepLeads(s, step);
    assert QueueTurned(q, s1.loops[l], f.c) && l in s1.loops && s1.conns[f.c].loop == l by {
      TurnedQueue(s, s1, l, f.c);
    }
    TurnedIsEmptier(s, s1, l, f.c);
    s' := FinishBatch(s1, f);
    Behaviors.LeadsOn(Next, s, s1, s');
    if !AtHead(s', f) {
      EmptierTrans(s, s1, s', l, f.c);
    }
  }

  /** The loops that hold the connection, but its own. */
  ghost function Holders(s: Server, c: Id): set<LoopId>
    requires Knows(s, c)
  {
    set k | k in s.loops && k != s.conns[c].loop && HeldByLoop(s.loops[k], c)
  }

  lemma EmptierHolders(s: Server, s': Server, m: LoopId, c: Id)
    requires Knows(s, c) && Emptier(s, s', m, c) && m in Holders(s, c) && !HeldByLoop(s'.loops[m], c)
    ensures Holders(s', c) < Holders(s, c)
  {
    hide HeldByLoop;
    assert m !in Holders(s', c);
    assert forall k :: k in Holders(s', c) ==> k in Holders(s, c);
  }

  /** One loop after another lets go; the connection's own stays where it is. */
  lemma DrainAll(s: Server, f: Functor) returns (s': Server)
    requires Waits(s, f) && !s.loops[s.conns[f.c].loop].phase.Calling?
    ensures Behaviors.Leads(Next, s, s') && Waits(s', f) && !s'.loops[s'.conns[f.c].loop].phase.Calling?
    ensures forall k :: k in s'.loops ==> !HeldByLoop(s'.loops[k], f.c)
    decreases Holders(s, f.c)
  {
    hide Inv, Backed, OthersAnchored, Next, HeldByLoop;
    if m :| m in Holders(s, f.c) {
      var s1 := Drain(s, m, f);
      EmptierHolders(s, s1, m, f.c);
      s' := DrainAll(s1, f);
      Behaviors.LeadsOn(Next, s, s1, s');
    } else {
      Behaviors.LeadsNowhere(Next, s);
      s' := s;
      OwnLoopEmpty(s, f);
      assert forall k :: k in s.loops && k != s.conns[f.c].loop && HeldByLoop(s.loops[k], f.c) ==> k in Holders(s, f.c);
    }
  }

  lemma OwnLoopEmpty(s: Server, f: Functor)
    requires Waits(s, f) && !s.loops[s.conns[f.c].loop].phase.Calling?
    ensures !HeldByLoop(s.loops[s.conns[f.c].loop], f.c)
  {
    hide Inv, OthersAnchored;
    RoundEmpty(s, s.conns[f.c].loop);
    HeldIsOwned(s.loops[s.conns[f.c].loop], f.c);
  }

  // ---------------------------------------------------------------- everybody lets go

  /** In these functors the task comes before any other that is bound to its connection. */
  predicate First(fs: seq<Functor>, f: Functor) {
    fs != [] && (fs[0] == f || (!(fs[0].Raw? && fs[0].c == f.c) && First(fs[1..], f)))
  }

  lemma {:induction false} FirstIn(fs: seq<Functor>, f: Functor)
    requires f in fs && forall g :: g in fs && g.Raw? && g.c == f.c ==> g == f
    ensures First(fs, f)
  {
    if fs[0] != f {
      assert fs[0] in fs;
      assert forall g :: g in fs[1..] ==> g in fs;
      FirstIn(fs[1..], f);
    }
  }

  lemma {:induction false} FirstGrows(fs: seq<Functor>, fs': seq<Functor>, f: Functor)
    requires First(fs, f) && fs <= fs'
    ensures First(fs', f)
  {
    if fs[0] != f {
      FirstGrows(fs[1..], fs'[1..], f);
    }
  }

  lemma {:induction false} FirstIsIn(fs: seq<Functor>, f: Functor)
    requires First(fs, f)
    ensures f in fs
  {
    if fs[0] != f {
      FirstIsIn(fs[1..], f);
    }
  }

  /** Every task bound to another connection is anchored. */
  ghost predicate ElsewhereAnchored(s: Server, c: Id) {
    forall l, g: Functor ::
      l in s.loops && (g in s.loops[l].pending || g in s.loops[l].batch) && g.Raw? && Knows(s, g.c) && g.c != c ==>
        Anchored(s, g)
  }

  /** No queue holds the connection, nor does the map, and its loop has the task before all others bound to it. */
  ghost predicate Alone(s: Server, f: Functor) {
    && Inv(s) && f.Raw? && Knows(s, f.c) && ElsewhereAnchored(s, f.c)
    && QueuesEmpty(s, f.c)
    && !s.loops[s.conns[f.c].loop].phase.Calling? && First(s.loops[s.conns[f.c].loop].pending, f)
  }

  ghost predicate QueuesEmpty(s: Server, c: Id) {
    c !in s.connections && forall k :: k in s.loops ==> !HeldByLoop(s.loops[k], c)
  }

  lemma WaitsIsFirst(s: Server, f: Functor)
    requires Waits(s, f)
    ensures First(s.loops[s.conns[f.c].loop].pending, f)
  {
    hide Inv, Backed;
    var fs := s.loops[s.conns[f.c].loop].pending;
    forall g | g in fs && g.Raw? && g.c == f.c ensures g == f {
      assert g != f ==> Anchored(s, g);
    }
    FirstIn(fs, f);
  }

  lemma ElsewhereStays(s: Server, step: Step, c: Id)
    requires Inv(s) && ElsewhereAnchored(s, c) && Enabled(s, step) && Safe(s, step)
    requires step.Post? ==> s.calls[step.t].c == c
    ensures ElsewhereAnchored(Apply(s, step), c)
  {
    hide Inv, Anchored, Safe, Apply;
    forall l, g: Functor |
      l in Apply(s, step).loops && g.Raw? && Knows(Apply(s, step), g.c) && g.c != c
      && (g in Apply(s, step).loops[l].pending || g in Apply(s, step).loops[l].batch)
      ensures Anchored(Apply(s, step), g)
    {
      WaitedBefore(s, step, l, g);
      TaskFits(s, l, g);
      AnchoredStays(s, step, g);
    }
  }

  predicate LetsGo(s: Server, step: Step, c: Id) {
    || step == DropRef(c)
    || ((step.Post? || step.Release?) && step.t in s.calls && s.calls[step.t].c == c)
  }

  lemma LetGoQueues(s: Server, step: Step, f: Functor)
    requires Enabled(s, step) && LetsGo(s, step, f.c) && Knows(s, f.c) && QueuesEmpty(s, f.c)
    requires !s.loops[s.conns[f.c].loop].phase.Calling? && First(s.loops[s.conns[f.c].loop].pending, f)
    ensures var s' := Apply(s, step);
            && Knows(s', f.c) && s'.conns == s.conns && QueuesEmpty(s', f.c)
            && !s'.loops[s.conns[f.c].loop].phase.Calling? && First(s'.loops[s.conns[f.c].loop].pending, f)
  {
    hide Held, First;
    if step.Post? {
      FirstGrows(s.loops[s.conns[f.c].loop].pending,
                 s.loops[s.conns[f.c].loop].pending + [Raw(f.c, s.tickets)], f);
    }
  }

  lemma LetGoStays(s: Server, step: Step, f: Functor)
    requires Alone(s, f) && Enabled(s, step) && LetsGo(s, step, f.c)
    ensures Alone(Apply(s, step), f) && Behaviors.Leads(Next, s, Apply(s, step))
  {
    hide Inv, ElsewhereAnchored, First, QueuesEmpty, Enabled;
    StepKeeps(s, step);
    LetGoQueues(s, step, f);
    ElsewhereStays(s, step, f.c);
    hide Apply;
    StepLeads(s, step);
  }

  ghost function Callers(s: Server, c: Id): set<Thread> {
    set t | t in s.calls && s.calls[t].c == c
  }

  lemma Hang(s: Server, f: Functor, t: Thread) returns (s': Server)
    requires Alone(s, f) && t in Callers(s, f.c)
    ensures Behaviors.Leads(Next, s, s') && Alone(s', f) && s'.calls == s.calls - {t} && s'.userRefs == s.userRefs
  {
    hide Inv, ElsewhereAnchored, First, QueuesEmpty, Next;
    s' := s;
    Behaviors.LeadsNowhere(Next, s);
    if s.calls[t].Checked? {
      LetGoStays(s, Post(t), f);
      s' := Apply(s, Post(t));
    }
    LetGoStays(s', Release(t), f);
    Behaviors.LeadsOn(Next, s, s', Apply(s', Release(t)));
    s' := Apply(s', Release(t));
  }

  lemma HangAll(s: Server, f: Functor) returns (s': Server)
    requires Alone(s, f)
    ensures Behaviors.Leads(Next, s, s') && Alone(s', f) && Callers(s', f.c) == {} && s'.userRefs == s.userRefs
    decreases Callers(s, f.c)
  {
    hide Inv, ElsewhereAnchored, First, QueuesEmpty, Next, Alone;
    if t :| t in Callers(s, f.c) {
      var s1 := Hang(s, f, t);
      assert t !in Callers(s1, f.c) && Callers(s1, f.c) <= Callers(s, f.c);
      s' := HangAll(s1, f);
      Behaviors.LeadsOn(Next, s, s1, s');
    } else {
      Behaviors.LeadsNowhere(Next, s);
      s' := s;
    }
  }

  lemma AllLetGo(s: Server, f: Functor) returns (s': Server)
    requires Alone(s, f)
    ensures Behaviors.Leads(Next, s, s') && Alone(s', f) && !Held(s', f.c)
  {
    hide Inv, ElsewhereAnchored, First, Next;
    s' := HangAll(s, f);
    if f.c in s'.userRefs {
      LetGoStays(s', DropRef(f.c), f);
      Behaviors.LeadsOn(Next, s, s', Apply(s', DropRef(f.c)));
      s' := Apply(s', DropRef(f.c));
    }
    assert forall t :: t in s'.calls && s'.calls[t].c == f.c ==> t in Callers(s', f.c);
  }

  // ---------------------------------------------------------------- and the loop comes to the task

  /** The connection is no more, and its loop comes to this task before any other that is bound to it. */
  ghost predicate Behind(s: Server, f: Functor) {
    && Inv(s) && Knows(s, f.c) && Stray(s, f) && ElsewhereAnchored(s, f.c)
    && (First(s.loops[s.conns[f.c].loop].batch, f)
        || (!s.loops[s.conns[f.c].loop].phase.Calling? && First(s.loops[s.conns[f.c].loop].pending, f)))
  }

  /** A connection that is no more is not handled any more, nor taken out of the map. */
  lemma DeadNotHandled(s: Server, m: LoopId, c: Id)
    requires Inv(s) && m in s.loops && Knows(s, c) && !s.conns[c].alive
    ensures s.loops[m].handler.Handling? ==> s.loops[m].handler.c != c
    ensures s.loops[m].batch != [] ==> s.loops[m].batch[0] != RemoveInLoop(c)
  {
    hide Registered;
    assert RoundIntact(s, m) && Life(s, c);
    if s.loops[m].batch != [] {
      assert s.loops[m].batch[0] in s.loops[m].batch;
      assert FunctorFits(s, m, s.loops[m].batch[0]);
    }
  }

  lemma EarlierIsNotStray(s: Server, m: LoopId, f: Functor)
    requires Inv(s) && ElsewhereAnchored(s, f.c) && m in s.loops && s.loops[m].batch != []
    requires f.Raw? && First(s.loops[m].batch, f) && s.loops[m].batch[0] != f
    ensures !Stray(s, s.loops[m].batch[0]) && First(s.loops[m].batch[1..], f)
  {
    hide Inv, Anchored;
    var g := s.loops[m].batch[0];
    if g.Raw? {
      assert g in s.loops[m].batch;
      TaskFits(s, m, g);
      AnchoredIsNotStray(s, m, g);
    }
  }

  lemma FirstTurns(q: Loop, q': Loop, f: Functor)
    requires QueueTurned(q, q', f.c)
    requires !q.phase.Calling? ==> q.batch == []
    requires (First(q.batch, f) && q.batch[0] != f) || (!q.phase.Calling? && First(q.pending, f))
    ensures First(q'.batch, f) || (!q'.phase.Calling? && First(q'.pending, f))
    ensures First(q.batch, f) ==> First(q'.batch, f) && |q'.batch| < |q.batch|
  {
    hide Owning;
    if !First(q.batch, f) && q'.phase.Dispatching? {
      FirstGrows(q.pending, q'.pending, f);
    }
  }

  lemma BehindStep(s: Server, f: Functor)
    requires Behind(s, f)
    requires var l := s.conns[f.c].loop; First(s.loops[l].batch, f) ==> s.loops[l].batch[0] != f
    ensures var l := s.conns[f.c].loop; var step := OwnStep(s.loops[l], l);
            && Enabled(s, step) && Behind(Apply(s, step), f) && Apply(s, step).conns[f.c].loop == l
            && QueueTurned(s.loops[l], Apply(s, step).loops[l], f.c)
            && (First(s.loops[l].batch, f) ==>
                  First(Apply(s, step).loops[l].batch, f) && |Apply(s, step).loops[l].batch| < |s.loops[l].batch|)
  {
    hide Inv, ElsewhereAnchored, First, Enabled, Apply, Turned, QueueTurned;
    var l := s.conns[f.c].loop;
    var step := OwnStep(s.loops[l], l);
    OwnStepEnabled(s, l);
    RoundEmpty(s, l);
    DeadNotHandled(s, l, f.c);
    assert !RunsStray(s, step) by {
      if First(s.loops[l].batch, f) {
        FirstIsIn(s.loops[l].batch, f);
        EarlierIsNotStray(s, l, f);
      }
    }
    StepKeeps(s, step);
    OwnStepTurned(s, l, f.c);
    TurnedKnows(s, Apply(s, step), l, f.c);
    TurnedQueue(s, Apply(s, step), l, f.c);
    FirstTurns(s.loops[l], Apply(s, step).loops[l], f);
    ElsewhereStays(s, step, f.c);
  }

  lemma ComeTo(s: Server, f: Functor) returns (s': Server)
    requires Behind(s, f)
    ensures Behaviors.Leads(Next, s, s') && AtHead(s', f)
    decreases if First(s.loops[s.conns[f.c].loop].batch, f) then 0 else 1,
              PhaseRank(s.loops[s.conns[f.c].loop]), |s.loops[s.conns[f.c].loop].active|,
              HandlerRank(s.loops[s.conns[f.c].loop]), |s.loops[s.conns[f.c].loop].batch|
  {
    hide Inv, ElsewhereAnchored, Enabled, Apply, Next, First;
    var l := s.conns[f.c].loop;
    var q := s.loops[l];
    RoundEmpty(s, l);
    if First(q.batch, f) {
      FirstIsIn(q.batch, f);
    }
    if First(q.batch, f) && q.batch[0] == f {
      Behaviors.LeadsNowhere(Next, s);
      return s;
    }
    BehindStep(s, f);
    var step := OwnStep(q, l);
    StepLeads(s, step);
    var s1 := Apply(s, step);
    s' := ComeTo(s1, f);
    Behaviors.LeadsOn(Next, s, s1, s');
  }

  lemma ReapStays(s: Server, f: Functor)
    requires Alone(s, f) && !Held(s, f.c) && s.conns[f.c].alive
    ensures Enabled(s, Reap(f.c)) && Behind(Apply(s, Reap(f.c)), f)
  {
    hide Inv, ElsewhereAnchored, First, Held;
    var step := Reap(f.c);
    assert Enabled(s, step);
    StepKeeps(s, step);
    ElsewhereStays(s, step, f.c);
  }

  lemma AloneStrays(s: Server, f: Functor) returns (s': Server)
    requires Alone(s, f)
    ensures Behaviors.Leads(Next, s, s') && AtHead(s', f)
  {
    hide Inv, ElsewhereAnchored, First, Held, Next, Enabled, Apply, AtHead, QueuesEmpty;
    var a := AllLetGo(s, f);
    var b := a;
    Behaviors.LeadsNowhere(Next, a);
    if a.conns[f.c].alive {
      ReapStays(a, f);
      StepLeads(a, Reap(f.c));
      b := Apply(a, Reap(f.c));
    }
    s' := ComeTo(b, f);
    Behaviors.LeadsOn(Next, s, a, b);
    Behaviors.LeadsOn(Next, s, b, s');
  }

  lemma WaitsIsAlone(s: Server, f: Functor)
    requires Waits(s, f) && !s.loops[s.conns[f.c].loop].phase.Calling?
    requires forall k :: k in s.loops ==> !HeldByLoop(s.loops[k], f.c)
    ensures Alone(s, f)
  {
    WaitsIsFirst(s, f);
    hide Inv, First, HeldByLoop, Anchored;
  }

  lemma WaitsStrays(s: Server, f: Functor) returns (s': Server)
    requires Waits(s, f)
    ensures Behaviors.Leads(Next, s, s') && AtHead(s', f)
  {
    hide Waits, Alone, Next, AtHead, HeldByLoop, Emptier;
    assert Knows(s, f.c) by { WaitsKnows(s, f); }
    s' := FinishBatch(s, f);
    if !AtHead(s', f) {
      var a := s';
      assert Knows(a, f.c) && a.conns[f.c].loop == s.conns[f.c].loop by { EmptierKnows(s, a, s.conns[f.c].loop, f.c); }
      var b := DrainAll(a, f);
      WaitsIsAlone(b, f);
      s' := AloneStrays(b, f);
      Behaviors.LeadsOn(Next, s, a, b);
      Behaviors.LeadsOn(Next, s, b, s');
    }
  }

  lemma WaitsKnows(s: Server, f: Functor)
    requires Waits(s, f)
    ensures Knows(s, f.c)
  {
  }

  lemma EmptierKnows(s: Server, s': Server, m: LoopId, c: Id)
    requires Knows(s, c) && Emptier(s, s', m, c)
    ensures Knows(s', c) && s'.conns[c].loop == s.conns[c].loop
  {
  }

  // ---------------------------------------------------------------- the exact condition at the post

  lemma BackedPostSettles(s: Server, t: Thread)
    requires Inv(s) && t in s.calls && Knows(s, s.calls[t].c) && Backed(s, s.calls[t].c)
    ensures Settled(ApplyPost(s, t), Raw(s.calls[t].c, s.tickets))
  {
    var c := s.calls[t].c;
    PostKeeps(s, t);
    PostAdvances(s, t, c);
    BackedStays(s, ApplyPost(s, t), c);
    hide Inv, Backed;
    BackedAnchors(ApplyPost(s, t), Raw(c, s.tickets));
  }

  lemma UnbackedPost(s: Server, t: Thread)
    requires t in s.calls && Knows(s, s.calls[t].c) && !Backed(s, s.calls[t].c)
    ensures var c := s.calls[t].c; var s' := ApplyPost(s, t);
            Knows(s', c) && !Backed(s', c) && Raw(c, s.tickets) in s'.loops[s'.conns[c].loop].pending
  {
    var c := s.calls[t].c;
    var fs, f := s.loops[s.conns[c].loop].pending, Raw(c, s.tickets);
    assert forall g :: g in fs + [f] ==> g in fs || g == f;
    assert f in fs + [f];
  }

  lemma PostOther(s: Server, t: Thread, l: LoopId, g: Functor)
    requires AnchoredInv(s) && Enabled(s, Post(t)) && g != Raw(s.calls[t].c, s.tickets)
    requires l in ApplyPost(s, t).loops && g.Raw? && Knows(ApplyPost(s, t), g.c)
    requires g in ApplyPost(s, t).loops[l].pending || g in ApplyPost(s, t).loops[l].batch
    ensures Anchored(ApplyPost(s, t), g)
  {
    hide Inv, Anchored, ApplyPost, Held;
    WaitedBefore(s, Post(t), l, g);
    TaskFits(s, l, g);
    AnchoredStays(s, Post(t), g);
  }

  lemma PostOthers(s: Server, t: Thread)
    requires AnchoredInv(s) && Enabled(s, Post(t))
    ensures OthersAnchored(ApplyPost(s, t), Raw(s.calls[t].c, s.tickets))
  {
    hide AnchoredInv, Anchored, ApplyPost, Held;
    var s', f := ApplyPost(s, t), Raw(s.calls[t].c, s.tickets);
    forall l, g: Functor |
      l in s'.loops && g.Raw? && Knows(s', g.c) && g != f && (g in s'.loops[l].pending || g in s'.loops[l].batch)
      ensures Anchored(s', g)
    {
      PostOther(s, t, l, g);
    }
  }

  lemma UnbackedPostWaits(s: Server, t: Thread)
    requires AnchoredInv(s) && Enabled(s, Post(t)) && !Backed(s, s.calls[t].c)
    ensures Waits(ApplyPost(s, t), Raw(s.calls[t].c, s.tickets))
  {
    hide Inv, Backed, TasksAnchored, OthersAnchored;
    UnbackedPost(s, t);
    PostOthers(s, t);
    PostKeeps(s, t);
  }

  /** About to run a stray task, the loop can crash at once. */
  lemma AtHeadCrashes(s: Server, f: Functor) returns (l: LoopId)
    requires AtHead(s, f)
    ensures Enabled(s, RunFunctor(l)) && Apply(s, RunFunctor(l)).crashed
  {
    l :| l in s.loops && s.loops[l].phase.Calling? && s.loops[l].batch != [] && s.loops[l].batch[0] == f;
    StrayIsUnsafe(s, RunFunctor(l));
  }

  /**
   The exact condition, at the post. As long as every earlier task was posted while its connection was backed:
   the task that this thread posts now can go astray, in some continuation in which everybody lets go when
   they like, if and only if nothing backs the connection now.
   */
  lemma PostExactly(run: seq<Server>, t: Thread)
    requires Behaviors.IsBehavior(Init, BackedNext, run)
    requires var s := run[|run| - 1]; t in s.calls && s.calls[t].Checked?
    ensures var s := run[|run| - 1];
            && Enabled(s, Post(t)) && Apply(s, Post(t)) == ApplyPost(s, t)
            && (CanStray(ApplyPost(s, t), Raw(s.calls[t].c, s.tickets)) <==> !Backed(s, s.calls[t].c))
  {
    var s := run[|run| - 1];
    BackedInductive();
    hide Init, BackedNext, AnchoredInv;
    Behaviors.InvariantHolds(Init, BackedNext, AnchoredInv, run, |run| - 1);
    PostIsExact(s, t);
  }

  lemma PostIsExact(s: Server, t: Thread)
    requires AnchoredInv(s) && t in s.calls && s.calls[t].Checked?
    ensures Enabled(s, Post(t)) && Apply(s, Post(t)) == ApplyPost(s, t)
    ensures CanStray(ApplyPost(s, t), Raw(s.calls[t].c, s.tickets)) <==> !Backed(s, s.calls[t].c)
  {
    hide Inv, TasksAnchored, ApplyPost, Backed, Next, AtHead, Waits, Settled;
    CallsFit(s);
    if Backed(s, s.calls[t].c) {
      BackedPostSettles(s, t);
      SettledCannotStray(ApplyPost(s, t), Raw(s.calls[t].c, s.tickets));
    } else {
      UnbackedPostWaits(s, t);
      var s' := WaitsStrays(ApplyPost(s, t), Raw(s.calls[t].c, s.tickets));
    }
  }
}
