/** When a task bound to a bare object is safe, however early its poster lets go: the queue it waits in decides. */
module ServerTasks {
  import opened PollerModel
  import opened ServerModel
  import opened ServerProofs
  import opened ServerSteps
  import opened ServerTheorems
  import opened ServerWorkers
  import Behaviors

  // ---------------------------------------------------------------- what keeps a connection until a task has run

  /** One of the functors owns the connection. */
  predicate Owning(fs: seq<Functor>, c: Id) {
    exists g :: g in fs && g.c == c && !g.Raw?
  }

  /** The server is still to take the connection out of its map, and to queue its teardown then. */
  predicate RemovalDue(s: Server, c: Id)
    requires BASE in s.loops
  {
    RemoveInLoop(c) in s.loops[BASE].pending || RemoveInLoop(c) in s.loops[BASE].batch
  }

  /**
   A task posted now will find the connection alive: its teardown is not queued yet, or something that owns
   the connection will be swapped out together with the task.
   */
  predicate Backed(s: Server, c: Id)
    requires Knows(s, c)
  {
    c in s.connections || RemovalDue(s, c) || Owning(s.loops[s.conns[c].loop].pending, c)
  }

  /** What a waiting task relies on: in the batch, also what the batch or its functors already run own. */
  predicate Anchored(s: Server, f: Functor)
    requires Knows(s, f.c)
  {
    var q := s.loops[s.conns[f.c].loop];
    && (f in q.pending ==> Backed(s, f.c))
    && (f in q.batch ==> Backed(s, f.c) || Owning(q.batch, f.c) || Owning(q.done, f.c))
  }

  /** The teardown of the connection has not been swapped out. */
  predicate InTime(s: Server, c: Id)
    requires Knows(s, c)
  {
    s.conns[c].destroys == 0 && Destroyed(c) !in s.loops[s.conns[c].loop].batch
  }

  lemma InTimeIsBacked(s: Server, c: Id)
    requires Inv(s) && Knows(s, c) && InTime(s, c)
    ensures Backed(s, c)
  {
    hide Registered, PointersFit, RoundsIntact;
    assert Life(s, c);
    if c !in s.connections {
      assert Destroyed(c) in s.loops[s.conns[c].loop].pending;
    }
  }

  lemma AnchoredIsHeld(s: Server, f: Functor)
    requires Knows(s, f.c) && Anchored(s, f)
    requires f in s.loops[s.conns[f.c].loop].pending || f in s.loops[s.conns[f.c].loop].batch
    ensures Held(s, f.c)
  {
    if RemovalDue(s, f.c) {
      assert HeldByLoop(s.loops[BASE], f.c);
    } else if f.c !in s.connections {
      assert HeldByLoop(s.loops[s.conns[f.c].loop], f.c);
    }
  }

  /** A task that is anchored where it waits is not stray. */
  lemma AnchoredIsNotStray(s: Server, l: LoopId, f: Functor)
    requires Inv(s) && l in s.loops && (f in s.loops[l].pending || f in s.loops[l].batch) && f.Raw?
    requires Knows(s, f.c) && Anchored(s, f)
    ensures !Stray(s, f)
  {
    hide Registered, Lives, RoundsIntact, Held, Anchored;
    assert FunctorFits(s, l, f);
    AnchoredIsHeld(s, f);
    if Stray(s, f) {
      hide PointersFit;
      DeadIsUnheld(s, f.c);
    }
  }

  // ---------------------------------------------------------------- every step keeps an anchor

  /** The queue has only grown at its end. */
  predicate Grown(q: Loop, q': Loop) {
    q.pending <= q'.pending && q'.batch == q.batch && q'.done == q.done
  }

  lemma GrownOwns(q: Loop, q': Loop, c: Id)
    requires Grown(q, q') && Owning(q.pending, c)
    ensures Owning(q'.pending, c)
  {
    var g :| g in q.pending && g.c == c && !g.Raw?;
    assert g in q'.pending;
  }

  /** All queues have only grown, and the entry of c has not gone from the map without its teardown being queued. */
  ghost predicate Advances(s: Server, s': Server, c: Id)
    requires Knows(s, c)
  {
    && Knows(s', c) && s'.conns[c].loop == s.conns[c].loop
    && (forall m :: m in s.loops ==> m in s'.loops && Grown(s.loops[m], s'.loops[m]))
    && (c in s.connections ==> c in s'.connections || Owning(s'.loops[s.conns[c].loop].pending, c))
  }

  lemma BackedStays(s: Server, s': Server, c: Id)
    requires Knows(s, c) && Advances(s, s', c) && Backed(s, c)
    ensures Backed(s', c)
  {
    var l := s.conns[c].loop;
    assert Grown(s.loops[l], s'.loops[l]) && Grown(s.loops[BASE], s'.loops[BASE]);
    if RemovalDue(s, c) {
      assert RemovalDue(s', c);
    } else if Owning(s.loops[l].pending, c) {
      GrownOwns(s.loops[l], s'.loops[l], c);
    }
  }

  lemma AnchorFrame(s: Server, s': Server, f: Functor)
    requires Knows(s, f.c) && Anchored(s, f) && Advances(s, s', f.c)
    requires f in s'.loops[s.conns[f.c].loop].pending ==> f in s.loops[s.conns[f.c].loop].pending || Backed(s, f.c)
    ensures Anchored(s', f)
  {
    if Backed(s, f.c) {
      BackedStays(s, s', f.c);
    } else {
      assert Grown(s.loops[s.conns[f.c].loop], s'.loops[s.conns[f.c].loop]);
    }
  }

  lemma OwnsIt(fs: seq<Functor>, g: Functor)
    requires g in fs && !g.Raw?
    ensures Owning(fs, g.c)
  {
  }

  /** No task in a queue is new. */
  ghost predicate NoNewRaw(s: Server, s': Server) {
    forall l, f: Functor :: l in s.loops && l in s'.loops && f.Raw? && f in s'.loops[l].pending ==> f in s.loops[l].pending
  }

  lemma RemovalAdvances(s: Server, d: Id, c: Id)
    requires Knows(s, d) && Knows(s, c)
    ensures Advances(s, RemoveConnectionInLoop(s, d), c) && NoNewRaw(s, RemoveConnectionInLoop(s, d))
    ensures d == c ==> Owning(RemoveConnectionInLoop(s, d).loops[s.conns[c].loop].pending, c)
  {
    hide Owning;
    if d == c {
      OwnsIt(RemoveConnectionInLoop(s, d).loops[s.conns[c].loop].pending, Destroyed(c));
    }
  }

  lemma AdvancesTrans(s: Server, a: Server, s': Server, c: Id)
    requires Knows(s, c) && Advances(s, a, c) && Advances(a, s', c)
    ensures Advances(s, s', c)
  {
    hide Owning;
    forall m | m in s.loops ensures m in s'.loops && Grown(s.loops[m], s'.loops[m]) {
      assert Grown(s.loops[m], a.loops[m]) && Grown(a.loops[m], s'.loops[m]);
    }
    var l := s.conns[c].loop;
    if Owning(a.loops[l].pending, c) {
      assert Grown(a.loops[l], s'.loops[l]);
      GrownOwns(a.loops[l], s'.loops[l], c);
    }
  }

  lemma ClosedAdvances(s: Server, d: Id, c: Id)
    requires InPoller(s, d) && Knows(s, c)
    ensures Advances(s, Closed(s, d), c) && NoNewRaw(s, Closed(s, d))
    ensures Knows(Closed(s, d), d) && Closed(s, d).loops.Keys == s.loops.Keys
    ensures Closed(s, d).conns[d].loop == s.conns[d].loop
  {
    hide SetEvents, Owning;
  }

  lemma CloseAdvances(s: Server, d: Id, c: Id)
    requires InPoller(s, d) && Knows(s, c)
    ensures Advances(s, HandleClose(s, d), c) && NoNewRaw(s, HandleClose(s, d))
  {
    hide SetMask, Owning, Advances;
    var s1 := Closed(s, d);
    ClosedAdvances(s, d, c);
    assert Knows(s1, c) by { AdvancesKnows(s, s1, c); }
    if s.conns[d].loop == BASE {
      RemovalAdvances(s1, d, c);
    } else {
      PushAdvances(s1, BASE, RemoveInLoop(d), c);
    }
    AdvancesTrans(s, s1, HandleClose(s, d), c);
  }

  lemma AdvancesKnows(s: Server, s': Server, c: Id)
    requires Knows(s, c) && Advances(s, s', c)
    ensures Knows(s', c) && s'.conns[c].loop == s.conns[c].loop
  {
  }

  lemma PushAdvances(s: Server, l: LoopId, g: Functor, c: Id)
    requires l in s.loops && Knows(s, c)
    ensures Advances(s, Push(s, l, g), c) && (!g.Raw? ==> NoNewRaw(s, Push(s, l, g)))
  {
    hide Owning;
  }

  lemma EstablishAdvances(s: Server, d: Id, c: Id)
    requires InPoller(s, d) && Knows(s, c)
    ensures Advances(s, ConnectEstablished(s, d), c) && NoNewRaw(s, ConnectEstablished(s, d))
  {
    hide SetEvents, Owning;
  }

  lemma DestroyAdvances(s: Server, d: Id, c: Id)
    requires InPoller(s, d) && Knows(s, c)
    ensures Advances(s, ConnectDestroyed(s, d), c) && NoNewRaw(s, ConnectDestroyed(s, d))
  {
    hide SetEvents, RemoveChannel, Owning;
  }

  lemma PerformAdvances(s: Server, g: Functor, c: Id)
    requires InPoller(s, g.c) && Knows(s, c)
    ensures Advances(s, Perform(s, g), c) && NoNewRaw(s, Perform(s, g))
    ensures g == RemoveInLoop(c) ==> Owning(Perform(s, g).loops[s.conns[c].loop].pending, c)
  {
    hide ConnectEstablished, ConnectDestroyed, RemoveConnectionInLoop, Owning, Advances, NoNewRaw;
    match g
    case Established(d) => EstablishAdvances(s, d, c);
    case Destroyed(d) => DestroyAdvances(s, d, c);
    case RemoveInLoop(d) => RemovalAdvances(s, d, c);
    case _ => AdvancesSelf(s, c);
  }

  lemma AdvancesSelf(s: Server, c: Id)
    requires Knows(s, c)
    ensures Advances(s, s, c) && NoNewRaw(s, s)
  {
  }

  lemma AcceptAdvances(s: Server, fd: int, io: LoopId, c: Id)
    requires io in s.loops && BASE in s.loops && s.nextConnId !in s.conns && Knows(s, c)
    ensures Advances(s, ApplyAccept(s, fd, io), c)
  {
    hide SetEvents, Owning;
  }

  lemma AcceptNoNewRaw(s: Server, fd: int, io: LoopId)
    requires io in s.loops && BASE in s.loops
    ensures NoNewRaw(s, ApplyAccept(s, fd, io))
  {
    hide SetEvents;
  }

  predicate MovesBatch(step: Step) {
    step.Swap? || step.RunFunctor? || step.EndBatch?
  }

  lemma PlainAdvances(s: Server, step: Step, c: Id)
    requires Enabled(s, step) && Safe(s, step) && Knows(s, c)
    requires !MovesBatch(step) && !step.RunCallback? && !step.Post?
    ensures Advances(s, Apply(s, step), c)
  {
    hide Held, FdIsFree, SetEvents, ApplyAccept, Owning;
    if step.Accept? {
      AcceptAdvances(s, step.fd, step.io, c);
    }
  }

  lemma PlainNoNewRaw(s: Server, step: Step)
    requires Enabled(s, step) && Safe(s, step) && !MovesBatch(step) && !step.RunCallback? && !step.Post?
    ensures NoNewRaw(s, Apply(s, step))
  {
    hide Held, FdIsFree, SetEvents, ApplyAccept;
    if step.Accept? {
      AcceptNoNewRaw(s, step.fd, step.io);
    }
  }

  lemma PostAdvances(s: Server, t: Thread, c: Id)
    requires t in s.calls && Knows(s, s.calls[t].c) && Knows(s, c)
    ensures Advances(s, ApplyPost(s, t), c)
    ensures forall l, f :: l in s.loops && f in ApplyPost(s, t).loops[l].pending && f != Raw(s.calls[t].c, s.tickets) ==>
              f in s.loops[l].pending
  {
  }

  lemma CallbackAnchors(s: Server, l: LoopId, eof: bool, f: Functor)
    requires l in s.loops && s.loops[l].handler.Handling? && s.loops[l].handler.todo != []
    requires InPoller(s, s.loops[l].handler.c) && f.Raw? && Knows(s, f.c) && Anchored(s, f)
    ensures Knows(ApplyCallback(s, l, eof), f.c) && Anchored(ApplyCallback(s, l, eof), f)
  {
    hide HandleClose, Anchored;
    var h := s.loops[l].handler;
    var s1 := WithLoop(s, l, s.loops[l].(handler := Handling(h.c, h.revents, h.todo[1..])));
    AnchorFrame(s, s1, f);
    CloseAdvances(s1, h.c, f.c);
    AnchorFrame(s1, HandleClose(s1, h.c), f);
  }

  lemma SwapAnchors(s: Server, l: LoopId, f: Functor)
    requires l in s.loops && s.loops[l].batch == [] && Knows(s, f.c) && Anchored(s, f)
    ensures var s' := WithLoop(s, l, s.loops[l].(phase := Calling, batch := s.loops[l].pending, pending := []));
            Knows(s', f.c) && Anchored(s', f)
  {
  }

  lemma EndBatchAnchors(s: Server, l: LoopId, f: Functor)
    requires l in s.loops && s.loops[l].batch == [] && Knows(s, f.c) && Anchored(s, f)
    ensures var s' := WithLoop(s, l, s.loops[l].(phase := Polling, done := []));
            Knows(s', f.c) && Anchored(s', f)
  {
  }

  /** Unless it is the removal of the connection itself, taking the head off the batch leaves the anchor in place. */
  lemma AdvancedAnchors(s: Server, l: LoopId, f: Functor)
    requires l in s.loops && s.loops[l].batch != [] && Knows(s, f.c) && Anchored(s, f)
    requires s.loops[l].batch[0] != RemoveInLoop(f.c)
    ensures var s' := WithLoop(s, l, Advanced(s.loops[l])); Knows(s', f.c) && Anchored(s', f)
  {
    var q := s.loops[l];
    assert q.batch == [q.batch[0]] + q.batch[1..];
    forall c | Owning(q.batch, c) ensures Owning(Advanced(q).batch, c) || Owning(Advanced(q).done, c) {
      var g :| g in q.batch && g.c == c && !g.Raw?;
      assert g in Advanced(q).batch || g in Advanced(q).done;
    }
    forall c | Owning(q.done, c) ensures Owning(Advanced(q).done, c) {
      var g :| g in q.done && g.c == c && !g.Raw?;
      assert g in Advanced(q).done;
    }
  }

  lemma FunctorAnchors(s: Server, l: LoopId, f: Functor)
    requires l in s.loops && s.loops[l].batch != [] && InPoller(s, s.loops[l].batch[0].c)
    requires f.Raw? && Knows(s, f.c) && Anchored(s, f)
    ensures Knows(ApplyFunctor(s, l), f.c) && Anchored(ApplyFunctor(s, l), f)
  {
    hide Perform;
    var g := s.loops[l].batch[0];
    var s0 := WithLoop(s, l, Advanced(s.loops[l]));
    PerformAdvances(s0, g, f.c);
    if g != RemoveInLoop(f.c) {
      AdvancedAnchors(s, l, f);
      hide Anchored;
      AnchorFrame(s0, ApplyFunctor(s, l), f);
    }
  }

  lemma BatchAnchors(s: Server, step: Step, f: Functor)
    requires Inv(s) && Enabled(s, step) && Safe(s, step) && MovesBatch(step)
    requires f.Raw? && Knows(s, f.c) && Anchored(s, f)
    ensures Knows(Apply(s, step), f.c) && Anchored(Apply(s, step), f)
  {
    hide Inv, Anchored, FdIsFree, ApplyFunctor;
    match step
    case Swap(l) =>
      BatchesIntact(s, l);
      SwapAnchors(s, l, f);
    case EndBatch(l) => EndBatchAnchors(s, l, f);
    case RunFunctor(l) => FunctorAnchors(s, l, f);
  }

  /** Whatever anybody does, an anchored task stays anchored, if it is not posted again. */
  lemma AnchoredStays(s: Server, step: Step, f: Functor)
    requires Inv(s) && Enabled(s, step) && Safe(s, step) && f.Raw? && Knows(s, f.c) && Anchored(s, f)
    requires step.Post? ==> f != Raw(s.calls[step.t].c, s.tickets) || Backed(s, f.c)
    ensures Knows(Apply(s, step), f.c) && Anchored(Apply(s, step), f)
  {
    hide Inv, Anchored, Backed, FdIsFree, Held, ApplyCallback, ApplyFunctor, ApplyAccept, ApplyPost, Advances;
    if MovesBatch(step) {
      BatchAnchors(s, step, f);
    } else if step.RunCallback? {
      CallbackAnchors(s, step.l, step.eof, f);
    } else if step.Post? {
      PostAnchors(s, step.t, f);
    } else {
      PlainAnchors(s, step, f);
    }
  }

  lemma PostAnchors(s: Server, t: Thread, f: Functor)
    requires t in s.calls && Knows(s, s.calls[t].c) && Knows(s, f.c) && Anchored(s, f)
    requires f != Raw(s.calls[t].c, s.tickets) || Backed(s, f.c)
    ensures Knows(ApplyPost(s, t), f.c) && Anchored(ApplyPost(s, t), f)
  {
    hide Anchored, Backed;
    PostAdvances(s, t, f.c);
    AnchorFrame(s, ApplyPost(s, t), f);
  }

  lemma PlainAnchors(s: Server, step: Step, f: Functor)
    requires Enabled(s, step) && Safe(s, step) && f.Raw? && Knows(s, f.c) && Anchored(s, f)
    requires !MovesBatch(step) && !step.RunCallback? && !step.Post?
    ensures Knows(Apply(s, step), f.c) && Anchored(Apply(s, step), f)
  {
    hide Anchored, Backed, Enabled, Safe, Apply;
    PlainAdvances(s, step, f.c);
    PlainNoNewRaw(s, step);
    AnchorFrame(s, Apply(s, step), f);
  }

  // ---------------------------------------------------------------- guarded tasks

  /** Every waiting task is kept by its poster, or anchored. */
  ghost predicate TasksGuarded(s: Server) {
    forall l, f: Functor ::
      l in s.loops && (f in s.loops[l].pending || f in s.loops[l].batch) && f.Raw? && Knows(s, f.c) ==>
        Kept(s, f) || Anchored(s, f)
  }

  /** The thread would let go before its task has run, and nothing else keeps the connection until then. */
  predicate Rash(s: Server, step: Step) {
    Hasty(s, step) && !Anchored(s, Raw(s.calls[step.t].c, s.calls[step.t].ticket))
  }

  /** Any step but a rash one. */
  ghost predicate GuardedNext(s: Server, s': Server) {
    exists step :: Enabled(s, step) && !Rash(s, step) && s' == Apply(s, step)
  }

  ghost predicate GuardedInv(s: Server) {
    Inv(s) && TasksGuarded(s) && !s.crashed
  }

  lemma GuardedIsNotStray(s: Server, step: Step)
    requires Inv(s) && TasksGuarded(s) && Enabled(s, step)
    ensures !RunsStray(s, step)
  {
    hide Inv, Anchored;
    if step.RunFunctor? && s.loops[step.l].batch[0].Raw? {
      var f := s.loops[step.l].batch[0];
      assert f in s.loops[step.l].batch;
      TaskFits(s, step.l, f);
      if Anchored(s, f) {
        AnchoredIsNotStray(s, step.l, f);
      } else {
        CallsFit(s);
      }
    }
  }

  /** A task that waits after the step, and is not the one it posts, waited before. */
  lemma WaitedBefore(s: Server, step: Step, l: LoopId, f: Functor)
    requires Enabled(s, step) && Safe(s, step) && l in Apply(s, step).loops && f.Raw?
    requires f in Apply(s, step).loops[l].pending || f in Apply(s, step).loops[l].batch
    requires step.Post? ==> f != Raw(s.calls[step.t].c, s.tickets)
    ensures l in s.loops && (f in s.loops[l].pending || f in s.loops[l].batch)
  {
    if step.Post? {
      PostAdvances(s, step.t, s.calls[step.t].c);
    } else if step.Release? {
    } else {
      hide Apply, Enabled, Safe;
      StepNoNewTasks(s, step);
    }
  }

  lemma KeptStays(s: Server, step: Step, f: Functor)
    requires Enabled(s, step) && Safe(s, step) && f.Raw? && Kept(s, f)
    requires step.Release? ==> s.calls[step.t] != Posted(f.c, f.ticket)
    ensures Kept(Apply(s, step), f)
  {
    var t :| t in s.calls && s.calls[t] == Posted(f.c, f.ticket);
    if !step.Post? && !step.Release? {
      hide Apply, Enabled, Safe;
      StepNoNewTasks(s, step);
    }
    assert t in Apply(s, step).calls && Apply(s, step).calls[t] == Posted(f.c, f.ticket);
  }

  lemma PostedIsKept(s: Server, t: Thread)
    requires t in s.calls && Knows(s, s.calls[t].c)
    ensures Kept(ApplyPost(s, t), Raw(s.calls[t].c, s.tickets))
  {
    assert ApplyPost(s, t).calls[t] == Posted(s.calls[t].c, s.tickets);
  }

  lemma TaskStaysGuarded(s: Server, step: Step, l: LoopId, f: Functor)
    requires Inv(s) && TasksGuarded(s) && Enabled(s, step) && Safe(s, step) && !Rash(s, step)
    requires l in Apply(s, step).loops && f.Raw? && Knows(Apply(s, step), f.c)
    requires f in Apply(s, step).loops[l].pending || f in Apply(s, step).loops[l].batch
    ensures Kept(Apply(s, step), f) || Anchored(Apply(s, step), f)
  {
    hide Inv, Anchored, Held, FdIsFree, ApplyCallback, ApplyFunctor, ApplyAccept;
    if step.Post? && f == Raw(s.calls[step.t].c, s.tickets) {
      PostedIsKept(s, step.t);
    } else {
      WaitedBefore(s, step, l, f);
      TaskFits(s, l, f);
      if Anchored(s, f) {
        AnchoredStays(s, step, f);
      } else {
        assert Kept(s, f);
        KeptStays(s, step, f);
      }
    }
  }

  lemma GuardedKeeps(s: Server, step: Step)
    requires GuardedInv(s) && Enabled(s, step) && !Rash(s, step)
    ensures GuardedInv(Apply(s, step))
  {
    hide Inv, Rash, Enabled, Anchored, Kept;
    GuardedIsNotStray(s, step);
    StepKeeps(s, step);
    SafeStepKeepsFlag(s, step);
    hide Apply;
    forall l, f: Functor |
      l in Apply(s, step).loops && f.Raw? && Knows(Apply(s, step), f.c)
      && (f in Apply(s, step).loops[l].pending || f in Apply(s, step).loops[l].batch)
      ensures Kept(Apply(s, step), f) || Anchored(Apply(s, step), f)
    {
      TaskStaysGuarded(s, step, l, f);
    }
  }

  lemma GuardedInitially(s: Server)
    requires Init(s)
    ensures GuardedInv(s)
  {
  }

  lemma GuardedInductive()
    ensures Behaviors.IsInductive(Init, GuardedNext, GuardedInv)
  {
    forall s | Init(s) ensures GuardedInv(s) {
      GuardedInitially(s);
    }
    hide GuardedInv, Init, Rash, Enabled;
    forall s, s' | GuardedInv(s) && GuardedNext(s, s') ensures GuardedInv(s') {
      var step :| Enabled(s, step) && !Rash(s, step) && s' == Apply(s, step);
      GuardedKeeps(s, step);
    }
  }

  /**
   When no cross-thread caller lets go of its shared pointer while its task is waiting and nothing else will
   keep the connection until the task has run, no pointer to a destroyed connection is ever followed.
   */
  lemma NoUseAfterFree(run: seq<Server>, i: nat)
    requires Behaviors.IsBehavior(Init, GuardedNext, run) && i < |run|
    ensures !run[i].crashed
  {
    GuardedInductive();
    Behaviors.InvariantHolds(Init, GuardedNext, GuardedInv, run, i);
  }

  /** Careful callers are never rash. */
  lemma CarefulIsGuarded(s: Server, s': Server)
    requires CarefulNext(s, s')
    ensures GuardedNext(s, s')
  {
  }

  // ---------------------------------------------------------------- careless callers

  /** Any step, but tasks are posted only while something will keep the connection; callers let go when they like. */
  ghost predicate BackedNext(s: Server, s': Server) {
    exists step :: Enabled(s, step) && (step.Post? ==> Backed(s, s.calls[step.t].c)) && s' == Apply(s, step)
  }

  /** Any step, but tasks are posted only before the teardown of the connection is swapped out. */
  ghost predicate InTimeNext(s: Server, s': Server) {
    exists step :: Enabled(s, step) && (step.Post? ==> InTime(s, s.calls[step.t].c)) && s' == Apply(s, step)
  }

  ghost predicate TasksAnchored(s: Server) {
    forall l, f: Functor ::
      l in s.loops && (f in s.loops[l].pending || f in s.loops[l].batch) && f.Raw? && Knows(s, f.c) ==> Anchored(s, f)
  }

  ghost predicate AnchoredInv(s: Server) {
    Inv(s) && TasksAnchored(s) && !s.crashed
  }

  lemma TaskStaysAnchored(s: Server, step: Step, l: LoopId, f: Functor)
    requires Inv(s) && TasksAnchored(s) && Enabled(s, step) && Safe(s, step)
    requires step.Post? ==> Backed(s, s.calls[step.t].c)
    requires l in Apply(s, step).loops && f.Raw? && Knows(Apply(s, step), f.c)
    requires f in Apply(s, step).loops[l].pending || f in Apply(s, step).loops[l].batch
    ensures Anchored(Apply(s, step), f)
  {
    hide Inv, Anchored, Backed, Held, FdIsFree, ApplyCallback, ApplyFunctor, ApplyAccept;
    if step.Post? && f == Raw(s.calls[step.t].c, s.tickets) {
      assert Anchored(s, f) by { BackedAnchors(s, f); }
    } else {
      WaitedBefore(s, step, l, f);
      TaskFits(s, l, f);
    }
    AnchoredStays(s, step, f);
  }

  lemma BackedAnchors(s: Server, f: Functor)
    requires Knows(s, f.c) && Backed(s, f.c)
    ensures Anchored(s, f)
  {
  }

  lemma AnchoredKeeps(s: Server, step: Step)
    requires AnchoredInv(s) && Enabled(s, step) && (step.Post? ==> Backed(s, s.calls[step.t].c))
    ensures AnchoredInv(Apply(s, step))
  {
    hide Inv, Anchored, Backed, Kept;
    assert TasksGuarded(s);
    GuardedIsNotStray(s, step);
    StepKeeps(s, step);
    SafeStepKeepsFlag(s, step);
    hide Apply, TasksGuarded;
    forall l, f: Functor |
      l in Apply(s, step).loops && f.Raw? && Knows(Apply(s, step), f.c)
      && (f in Apply(s, step).loops[l].pending || f in Apply(s, step).loops[l].batch)
      ensures Anchored(Apply(s, step), f)
    {
      TaskStaysAnchored(s, step, l, f);
    }
  }

  lemma AnchoredInitially(s: Server)
    requires Init(s)
    ensures AnchoredInv(s)
  {
  }

  lemma BackedStep(s: Server, s': Server)
    requires AnchoredInv(s) && BackedNext(s, s')
    ensures AnchoredInv(s')
  {
    hide AnchoredInv, Backed, Apply;
    var step :| Enabled(s, step) && (step.Post? ==> Backed(s, s.calls[step.t].c)) && s' == Apply(s, step);
    AnchoredKeeps(s, step);
  }

  lemma BackedInductive()
    ensures Behaviors.IsInductive(Init, BackedNext, AnchoredInv)
  {
    forall s | Init(s) ensures AnchoredInv(s) {
      AnchoredInitially(s);
    }
    hide AnchoredInv, Init, BackedNext;
    forall s, s' | AnchoredInv(s) && BackedNext(s, s') ensures AnchoredInv(s') {
      BackedStep(s, s');
    }
  }

  /** However early callers let go: when every task is posted while the connection is backed, nothing crashes. */
  lemma BackedPostsAreSafe(run: seq<Server>, i: nat)
    requires Behaviors.IsBehavior(Init, BackedNext, run) && i < |run|
    ensures !run[i].crashed
  {
    BackedInductive();
    Behaviors.InvariantHolds(Init, BackedNext, AnchoredInv, run, i);
  }

  lemma InTimeStep(s: Server, s': Server)
    requires AnchoredInv(s) && InTimeNext(s, s')
    ensures AnchoredInv(s')
  {
    hide Inv, TasksAnchored, Apply;
    var step :| Enabled(s, step) && (step.Post? ==> InTime(s, s.calls[step.t].c)) && s' == Apply(s, step);
    if step.Post? {
      InTimeIsBacked(s, s.calls[step.t].c);
    }
    AnchoredKeeps(s, step);
  }

  /**
   In particular, when every task is posted before the teardown of its connection is swapped out: functors
   run in the order of their pushes, and the vector of a batch keeps what has run until the batch ends.
   */
  lemma TasksPostedInTimeAreSafe(run: seq<Server>, i: nat)
    requires Behaviors.IsBehavior(Init, InTimeNext, run) && i < |run|
    ensures !run[i].crashed
  {
    forall s | Init(s) ensures AnchoredInv(s) {
      AnchoredInitially(s);
    }
    hide AnchoredInv, Init, InTimeNext;
    forall s, s' | AnchoredInv(s) && InTimeNext(s, s') ensures AnchoredInv(s') {
      InTimeStep(s, s');
    }
    Behaviors.InvariantHolds(Init, InTimeNext, AnchoredInv, run, i);
    assert !run[i].crashed by { NotCrashed(run[i]); }
  }

  lemma NotCrashed(s: Server)
    requires AnchoredInv(s)
    ensures !s.crashed
  {
  }
}
