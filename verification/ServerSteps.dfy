/** Every step of the server, in any interleaving of its loops, keeps the lifetime invariant. */
module ServerSteps {
  import opened PollerModel
  import opened ServerModel
  import opened ServerProofs
  import ConnectionModel
  import Behaviors

  // ---------------------------------------------------------------- user steps and callbacks

  /** Nothing but who keeps a pointer, and the history, is different. */
  predicate SameButRefs(s: Server, s': Server) {
    s' == s.(userRefs := s'.userRefs, calls := s'.calls, tickets := s'.tickets, crashed := s'.crashed)
  }

  lemma RefsKeep(s: Server, s': Server)
    requires Inv(s) && SameButRefs(s, s')
    requires forall c :: c in s'.userRefs ==> c in s.conns && s.conns[c].alive
    requires forall t :: t in s'.calls ==> s'.calls[t].c in s.conns && s.conns[s'.calls[t].c].alive
    ensures Inv(s')
  {
    hide Registered, Life, RoundIntact, FunctorFits;
    RefsRegistered(s, s');
    RefsPointers(s, s');
    forall d | Knows(s', d) ensures Life(s', d) {
      assert Knows(s, d) && Life(s, d);
      RefsLife(s, s', d);
    }
    forall m | m in s'.loops ensures RoundIntact(s', m) {
      assert RoundIntact(s, m);
      RefsRound(s, s', m);
    }
  }

  lemma RefsRegistered(s: Server, s': Server)
    requires Registered(s) && SameButRefs(s, s')
    ensures Registered(s')
  {
    hide Registered;
    RegistrationFrame(s, s');
  }

  lemma RefsPointers(s: Server, s': Server)
    requires PointersFit(s) && SameButRefs(s, s')
    requires forall c :: c in s'.userRefs ==> c in s.conns && s.conns[c].alive
    requires forall t :: t in s'.calls ==> s'.calls[t].c in s.conns && s.conns[s'.calls[t].c].alive
    ensures PointersFit(s')
  {
    assert forall m, g :: m in s.loops && FunctorFits(s, m, g) ==> FunctorFits(s', m, g);
  }

  lemma RefsLife(s: Server, s': Server, d: Id)
    requires Knows(s, d) && Life(s, d) && SameButRefs(s, s')
    ensures Life(s', d)
  {
    LifeFrame(s, s', d);
  }

  lemma RefsRound(s: Server, s': Server, m: LoopId)
    requires m in s.loops && RoundIntact(s, m) && SameButRefs(s, s')
    ensures RoundIntact(s', m)
  {
  }

  lemma ToggleKeeps(s: Server, c: Id, mask: set<Ev>)
    requires Inv(s) && Knows(s, c) && s.conns[c].alive
    requires s.conns[c].st.Connected? || s.conns[c].st.Disconnecting?
    ensures Touchable(s, c) && Inv(SetMask(s, c, mask))
  {
    AliveIsTouchable(s, c);
    ToggleLife(s, c, mask);
    SetMaskKeeps(s, c, mask);
    ToggleOwned(s, c, mask);
  }

  lemma ToggleOwned(s: Server, c: Id, mask: set<Ev>)
    requires Owned(s) && InPoller(s, c) && Life(SetMask(s, c, mask), c) && !s.conns[c].st.Connecting?
    ensures Owned(SetMask(s, c, mask))
  {
    hide Owned, Life, SetEvents;
    MaskIsOnlyConn(s, c, s.conns[c], mask);
    assert WithConn(s, c, s.conns[c]) == s;
    ConnStepOwned(s, SetMask(s, c, mask), c);
  }

  lemma ToggleLife(s: Server, c: Id, mask: set<Ev>)
    requires Knows(s, c) && InPoller(s, c) && Life(s, c)
    requires s.conns[c].st.Connected? || s.conns[c].st.Disconnecting?
    ensures Life(SetMask(s, c, mask), c)
  {
  }

  lemma ShutdownKeeps(s: Server, c: Id)
    requires Inv(s) && Knows(s, c) && s.conns[c].st.Connected?
    ensures Inv(WithConn(s, c, s.conns[c].(st := ConnectionModel.Disconnecting)))
  {
    hide Registered, Owned;
    var s' := WithConn(s, c, s.conns[c].(st := ConnectionModel.Disconnecting));
    RegistrationFrame(s, s');
    ShutdownOwned(s, c);
  }

  lemma ShutdownOwned(s: Server, c: Id)
    requires Owned(s) && Knows(s, c) && s.conns[c].st.Connected?
    ensures Owned(WithConn(s, c, s.conns[c].(st := ConnectionModel.Disconnecting)))
  {
    var s' := WithConn(s, c, s.conns[c].(st := ConnectionModel.Disconnecting));
    assert Life(s, c);
    assert forall d :: Knows(s, d) ==> Unregistered(s', d) == Unregistered(s, d);
    ConnStepOwned(s, s', c);
  }

  lemma CallbackKeeps(s: Server, l: LoopId, eof: bool)
    requires Inv(s) && l in s.loops && s.loops[l].handler.Handling? && s.loops[l].handler.todo != []
    ensures var c := s.loops[l].handler.c; Touchable(s, c) && s.conns[c].loop == l
    ensures Inv(ApplyCallback(s, l, eof))
  {
    hide Registered, Lives, PointersFit, Touchable;
    var h := s.loops[l].handler;
    assert RoundIntact(s, l);
    InRoundIsTouchable(s, l, h.c);
    var h' := Handling(h.c, h.revents, h.todo[1..]);
    HandlerKeeps(s, l, h');
    HandleCloseKeeps(WithLoop(s, l, s.loops[l].(handler := h')), l, h.c);
  }

  // ---------------------------------------------------------------- functors

  function Advanced(q: Loop): Loop
    requires q.batch != []
  {
    q.(batch := q.batch[1..], done := q.done + [q.batch[0]])
  }

  lemma AdvancedDue(q: Loop)
    requires q.batch != []
    ensures NoNewFunctors(q, Advanced(q))
    ensures forall f :: Due(Advanced(q), f) == Due(q, f) - if f == q.batch[0] then 1 else 0
  {
    assert q.batch == [q.batch[0]] + q.batch[1..];
  }

  predicate Runs(s: Server, l: LoopId, f: Functor) {
    l in s.loops && s.loops[l].phase.Calling? && s.loops[l].batch != [] && s.loops[l].batch[0] == f
  }

  /** A task bound to a bare object that is no more. */
  predicate Stray(s: Server, f: Functor) {
    f.Raw? && f.c in s.conns && !s.conns[f.c].alive
  }

  /** After a functor of connection c, only c has moved on. */
  lemma FunctorStep(s: Server, l: LoopId, s': Server, f: Functor)
    requires Owned(s) && Runs(s, l, f) && f.c in s.conns && s.conns[f.c].loop == l
    requires OnlyConn(WithLoop(s, l, Advanced(s.loops[l])), s', f.c)
    requires Knows(s', f.c) && Life(s', f.c) && !s'.conns[f.c].st.Connecting?
    ensures Owned(s')
  {
    var q' := Advanced(s.loops[l]);
    var s0 := WithLoop(s, l, q');
    AdvancedDue(s.loops[l]);
    LoopStepPointers(s, l, q');
    OnlyConnPointers(s0, s', f.c);
    forall d | Knows(s', d) && d != f.c ensures Life(s', d) {
      FunctorStepLife(s, l, s', f, d);
    }
    AdvancedRound(s, l);
    forall m | m in s'.loops ensures RoundIntact(s', m) {
      OnlyConnRound(s0, s', f.c, m);
    }
  }

  lemma FunctorStepLife(s: Server, l: LoopId, s': Server, f: Functor, d: Id)
    requires Lives(s) && Runs(s, l, f) && d != f.c && Knows(s', d)
    requires OnlyConn(WithLoop(s, l, Advanced(s.loops[l])), s', f.c)
    ensures Life(s', d)
  {
    AdvancedDue(s.loops[l]);
    assert Knows(s, d);
    LoopStepLife(s, l, Advanced(s.loops[l]), d);
    OnlyConnLife(WithLoop(s, l, Advanced(s.loops[l])), s', f.c, d);
  }

  lemma AdvancedRound(s: Server, l: LoopId)
    requires RoundsIntact(s) && l in s.loops && s.loops[l].batch != []
    ensures RoundsIntact(WithLoop(s, l, Advanced(s.loops[l])))
  {
    assert RoundIntact(s, l);
    LoopStepRounds(s, l, Advanced(s.loops[l]));
  }

  /** What is known of the connection of the functor about to run. */
  lemma RunsOn(s: Server, l: LoopId, f: Functor)
    requires Inv(s) && Runs(s, l, f) && !Stray(s, f)
    ensures Touchable(s, f.c) && FunctorFits(s, l, f) && Knows(s, f.c) && Life(s, f.c)
    ensures Due(s.loops[l], f) > 0
  {
    assert f in s.loops[l].batch;
    assert FunctorFits(s, l, f);
    AliveIsTouchable(s, f.c);
  }

  lemma EstablishRegistered(s: Server, c: Id)
    requires Registered(s) && Touchable(s, c)
    ensures Registered(ConnectEstablished(s, c))
  {
    SetMaskKeeps(s, c, READ_EVENT);
    EstablishSame(s, c);
    RegistrationFrame(SetMask(s, c, READ_EVENT), ConnectEstablished(s, c));
  }

  /** For the pollers, it is one change of mask. */
  lemma EstablishSame(s: Server, c: Id)
    requires InPoller(s, c)
    ensures SameRegistration(SetMask(s, c, READ_EVENT), ConnectEstablished(s, c))
  {
  }

  lemma DestroyRegistered(s: Server, c: Id)
    requires Registered(s) && Touchable(s, c) && s.conns[c].st.Disconnected?
    ensures Registered(ConnectDestroyed(s, c))
  {
    RemovedKeeps(s, c);
    DestroySame(s, c);
    RegistrationFrame(Removed(s, c), ConnectDestroyed(s, c));
  }

  lemma DestroySame(s: Server, c: Id)
    requires InPoller(s, c) && s.conns[c].st.Disconnected?
    ensures SameRegistration(Removed(s, c), ConnectDestroyed(s, c))
  {
  }

  lemma AdvancedRegistered(s: Server, l: LoopId, c: Id)
    requires Registered(s) && l in s.loops && s.loops[l].batch != [] && c in s.conns && s.conns[c].alive
    ensures var s0 := WithLoop(s, l, Advanced(s.loops[l])); Registered(s0) && Touchable(s0, c)
  {
    hide Registered, Touchable;
    RegistrationFrame(s, WithLoop(s, l, Advanced(s.loops[l])));
    AliveIsTouchable(WithLoop(s, l, Advanced(s.loops[l])), c);
  }

  lemma EstablishedEffect(s: Server, l: LoopId, c: Id)
    requires Runs(s, l, Established(c)) && InPoller(s, c)
    ensures OnlyConn(WithLoop(s, l, Advanced(s.loops[l])), ApplyFunctor(s, l), c)
  {
    var k := s.conns[c];
    var s0 := WithLoop(s, l, Advanced(s.loops[l]));
    MaskIsOnlyConn(s0, c, k.(st := ConnectionModel.Connected, ups := k.ups + 1), READ_EVENT);
  }

  lemma EstablishedKeeps(s: Server, l: LoopId, c: Id)
    requires Inv(s) && Runs(s, l, Established(c))
    ensures Touchable(s, c) && Inv(ApplyFunctor(s, l))
  {
    RunsOn(s, l, Established(c));
    AdvancedRegistered(s, l, c);
    EstablishRegistered(WithLoop(s, l, Advanced(s.loops[l])), c);
    EstablishedEffect(s, l, c);
    EstablishedLife(s, l, c);
    FunctorStep(s, l, ApplyFunctor(s, l), Established(c));
  }

  lemma EstablishedLife(s: Server, l: LoopId, c: Id)
    requires Runs(s, l, Established(c)) && Knows(s, c) && Life(s, c) && InPoller(s, c)
    requires FunctorFits(s, l, Established(c)) && Due(s.loops[l], Established(c)) > 0
    ensures Life(ApplyFunctor(s, l), c) && ApplyFunctor(s, l).conns[c].st.Connected?
  {
    AdvancedDue(s.loops[l]);
  }

  lemma DestroyedEffect(s: Server, l: LoopId, c: Id)
    requires Runs(s, l, Destroyed(c)) && InPoller(s, c) && s.conns[c].st.Disconnected?
    ensures OnlyConn(WithLoop(s, l, Advanced(s.loops[l])), ApplyFunctor(s, l), c)
    ensures Unregistered(ApplyFunctor(s, l), c)
  {
    hide OnlyConn, OnlyChannel, RemoveChannel;
    var k := s.conns[c];
    var k' := k.(destroys := k.destroys + 1);
    var s0 := WithLoop(s, l, Advanced(s.loops[l]));
    assert ApplyFunctor(s, l) == Removed(WithConn(s0, c, k'), c);
    RemoveIsOnlyConn(s0, c, k');
    RemovedEffect(WithConn(s0, c, k'), c);
  }

  lemma DestroyedKeeps(s: Server, l: LoopId, c: Id)
    requires Inv(s) && Runs(s, l, Destroyed(c))
    ensures Touchable(s, c) && Inv(ApplyFunctor(s, l))
  {
    RunsOn(s, l, Destroyed(c));
    assert s.conns[c].st.Disconnected?;
    AdvancedRegistered(s, l, c);
    DestroyRegistered(WithLoop(s, l, Advanced(s.loops[l])), c);
    DestroyedEffect(s, l, c);
    DestroyedLife(s, l, c);
    FunctorStep(s, l, ApplyFunctor(s, l), Destroyed(c));
  }

  lemma DestroyedLife(s: Server, l: LoopId, c: Id)
    requires Runs(s, l, Destroyed(c)) && Knows(s, c) && Life(s, c) && InPoller(s, c)
    requires FunctorFits(s, l, Destroyed(c)) && Due(s.loops[l], Destroyed(c)) > 0
    ensures Life(ApplyFunctor(s, l), c)
    ensures s.conns[c].st.Disconnected? && ApplyFunctor(s, l).conns[c].st.Disconnected?
  {
    AdvancedDue(s.loops[l]);
  }

  /** The functor is off the queue and has changed nothing yet. */
  lemma AdvancedKeeps(s: Server, l: LoopId)
    requires Inv(s) && l in s.loops && s.loops[l].batch != []
    requires s.loops[l].batch[0].Other? || s.loops[l].batch[0].Raw? || s.loops[l].batch[0].RemoveInLoop?
    ensures Inv(WithLoop(s, l, Advanced(s.loops[l])))
  {
    hide Registered, Lives, PointersFit;
    AdvancedDue(s.loops[l]);
    AdvancedRound(s, l);
    hide RoundsIntact, Inv;
    assert RoundIntact(WithLoop(s, l, Advanced(s.loops[l])), l) by { AdvancedRoundAt(s, l); }
    LoopStep(s, l, Advanced(s.loops[l]));
  }

  lemma AdvancedRoundAt(s: Server, l: LoopId)
    requires l in s.loops && s.loops[l].batch != [] && RoundsIntact(WithLoop(s, l, Advanced(s.loops[l])))
    ensures RoundIntact(WithLoop(s, l, Advanced(s.loops[l])), l)
  {
  }

  lemma RemovalKeeps(s: Server, l: LoopId, c: Id)
    requires Inv(s) && Runs(s, l, RemoveInLoop(c))
    ensures Touchable(s, c) && Inv(ApplyFunctor(s, l))
  {
    RunsOn(s, l, RemoveInLoop(c));
    assert s.conns[c].st.Disconnected? && s.conns[c].alive;
    hide Inv, Life, FdIsFree;
    AdvancedKeeps(s, l);
    RemoveKeeps(WithLoop(s, l, Advanced(s.loops[l])), c);
  }

  lemma PlainKeeps(s: Server, l: LoopId, f: Functor)
    requires Inv(s) && Runs(s, l, f) && (f.Other? || f.Raw?) && !Stray(s, f)
    ensures Touchable(s, f.c) && Inv(ApplyFunctor(s, l))
  {
    RunsOn(s, l, f);
    hide Inv, Life, FdIsFree;
    AdvancedKeeps(s, l);
  }

  lemma FunctorKeeps(s: Server, l: LoopId, f: Functor)
    requires Inv(s) && Runs(s, l, f) && !Stray(s, f)
    ensures Touchable(s, f.c) && Inv(ApplyFunctor(s, l))
  {
    match f
    case Established(c) => EstablishedKeeps(s, l, c);
    case Destroyed(c) => DestroyedKeeps(s, l, c);
    case RemoveInLoop(c) => RemovalKeeps(s, l, c);
    case _ => PlainKeeps(s, l, f);
  }

  // ---------------------------------------------------------------- birth

  /** A connection object has been made and is in the map; nothing is queued for it yet. */
  function Born(s: Server, fd: int, io: LoopId): Server
    requires io in s.loops
  {
    var c := s.nextConnId;
    var q := s.loops[io];
    s.(conns := s.conns[c := Conn(fd, io, ConnectionModel.Connecting, true, 0, 0, 0)],
       connections := s.connections + {c}, nextConnId := c + 1,
       loops := s.loops[io := q.(poller := q.poller.(chans := q.poller.chans[c := Chan(fd, {}, New)]))])
  }

  lemma BornRegistered(s: Server, fd: int, io: LoopId)
    requires Registered(s) && io in s.loops
    requires forall c :: c in s.conns && s.conns[c].alive ==> s.conns[c].fd != fd
    ensures Registered(Born(s, fd, io)) && Touchable(Born(s, fd, io), s.nextConnId)
  {
    hide Wired, Simulates, Touchable;
    var s' := Born(s, fd, io);
    BornWired(s, fd, io);
    forall l | l in s'.loops ensures Simulates(s'.loops[l].poller) {
      assert Simulates(s.loops[l].poller);
      if l == io {
        CreateKeeps(s.loops[io].poller, s.nextConnId, fd);
      }
    }
    AliveIsTouchable(s', s.nextConnId);
  }

  lemma BornWired(s: Server, fd: int, io: LoopId)
    requires Wired(s) && io in s.loops
    ensures Wired(Born(s, fd, io)) && s.nextConnId !in s.loops[io].poller.chans
  {
    assert s.nextConnId !in s.conns;
    BornNumbered(s, fd, io);
    BornBound(s, fd, io);
  }

  lemma BornNumbered(s: Server, fd: int, io: LoopId)
    requires Numbered(s) && io in s.loops
    ensures Numbered(Born(s, fd, io))
  {
    var s' := Born(s, fd, io);
    assert forall c :: c in s'.conns <==> c in s.conns || c == s.nextConnId;
  }

  lemma BornBound(s: Server, fd: int, io: LoopId)
    requires Bound(s) && BASE in s.loops && io in s.loops && s.nextConnId !in s.conns
    ensures Bound(Born(s, fd, io))
  {
    var s' := Born(s, fd, io);
    forall c | c in s'.conns && s'.conns[c].alive
      ensures InPoller(s', c) && s'.loops[s'.conns[c].loop].poller.chans[c].fd == s'.conns[c].fd
    {
      if c != s.nextConnId {
        assert InPoller(s, c);
      }
    }
    forall l, c | l in s'.loops && c in s'.loops[l].poller.chans
      ensures c in s'.conns && s'.conns[c].alive && s'.conns[c].loop == l
    {
      if c != s.nextConnId {
        assert c in s.loops[l].poller.chans;
      }
    }
  }

  /** No functor speaks of a connection that does not exist yet. */
  lemma NothingDue(s: Server, l: LoopId, f: Functor)
    requires PointersFit(s) && l in s.loops && f.c !in s.conns
    ensures Due(s.loops[l], f) == 0
  {
    assert f !in s.loops[l].batch && f !in s.loops[l].pending;
  }

  lemma BornPointers(s: Server, fd: int, io: LoopId)
    requires PointersFit(s) && io in s.loops && s.nextConnId !in s.conns
    ensures PointersFit(Born(s, fd, io))
  {
    var s' := Born(s, fd, io);
    assert forall m, g :: m in s.loops && FunctorFits(s, m, g) ==> FunctorFits(s', m, g);
  }

  lemma BornLife(s: Server, fd: int, io: LoopId, d: Id)
    requires Lives(s) && io in s.loops && s.nextConnId !in s.conns
    requires Knows(Born(s, fd, io), d) && d != s.nextConnId
    ensures Life(Born(s, fd, io), d)
  {
    assert Knows(s, d);
    LifeFrame(s, Born(s, fd, io), d);
  }

  lemma BornRounds(s: Server, fd: int, io: LoopId)
    requires RoundsIntact(s) && io in s.loops && s.nextConnId !in s.conns
    ensures RoundsIntact(Born(s, fd, io))
  {
    forall m | m in s.loops ensures RoundIntact(Born(s, fd, io), m) {
      assert RoundIntact(s, m);
    }
  }

  lemma QueueEstablished(s: Server, fd: int, io: LoopId)
    requires Owned(s) && io in s.loops && BASE in s.loops && s.nextConnId !in s.conns
    ensures Owned(Push(Born(s, fd, io), io, Established(s.nextConnId)))
  {
    var c := s.nextConnId;
    var s1 := Born(s, fd, io);
    var s' := Push(s1, io, Established(c));
    BornPointers(s, fd, io);
    assert forall m, g :: m in s1.loops && FunctorFits(s1, m, g) ==> FunctorFits(s', m, g);
    forall d | Knows(s', d) ensures Life(s', d) {
      if d == c {
        FirstLife(s, fd, io);
      } else {
        BornLife(s, fd, io, d);
        PushOtherLife(s1, io, Established(c), d);
      }
    }
    BornRounds(s, fd, io);
    forall m | m in s'.loops ensures RoundIntact(s', m) {
      assert RoundIntact(s1, m);
    }
  }

  lemma PushOtherLife(s: Server, l: LoopId, f: Functor, d: Id)
    requires l in s.loops && Knows(s, d) && Life(s, d) && f.c != d
    ensures Life(Push(s, l, f), d)
  {
    var s' := Push(s, l, f);
    assert forall g :: g != f ==> multiset(s'.loops[l].pending)[g] == multiset(s.loops[l].pending)[g];
    assert Unregistered(s', d) == Unregistered(s, d);
  }

  lemma FirstLife(s: Server, fd: int, io: LoopId)
    requires PointersFit(s) && io in s.loops && BASE in s.loops && s.nextConnId !in s.conns
    ensures Life(Push(Born(s, fd, io), io, Established(s.nextConnId)), s.nextConnId)
  {
    var c := s.nextConnId;
    NothingDue(s, io, Established(c));
    NothingDue(s, io, Destroyed(c));
    NothingDue(s, BASE, RemoveInLoop(c));
  }

  lemma EstablishedNow(s: Server, fd: int)
    requires PointersFit(s) && BASE in s.loops && s.nextConnId !in s.conns
    ensures InPoller(Born(s, fd, BASE), s.nextConnId)
    ensures Life(ConnectEstablished(Born(s, fd, BASE), s.nextConnId), s.nextConnId)
    ensures OnlyConn(Born(s, fd, BASE), ConnectEstablished(Born(s, fd, BASE), s.nextConnId), s.nextConnId)
  {
    hide PointersFit, SetEvents;
    var c := s.nextConnId;
    var s1 := Born(s, fd, BASE);
    NothingDue(s, BASE, Established(c));
    NothingDue(s, BASE, Destroyed(c));
    NothingDue(s, BASE, RemoveInLoop(c));
    MaskIsOnlyConn(s1, c, s1.conns[c].(st := ConnectionModel.Connected, ups := 1), READ_EVENT);
  }

  lemma EstablishNow(s: Server, fd: int)
    requires Owned(s) && BASE in s.loops && s.nextConnId !in s.conns
    ensures InPoller(Born(s, fd, BASE), s.nextConnId)
    ensures Owned(ConnectEstablished(Born(s, fd, BASE), s.nextConnId))
  {
    hide PointersFit, Life, RoundIntact, Lives, SetEvents;
    var c := s.nextConnId;
    var s1 := Born(s, fd, BASE);
    var s' := ConnectEstablished(s1, c);
    EstablishedNow(s, fd);
    BornPointers(s, fd, BASE);
    BornRounds(s, fd, BASE);
    OnlyConnPointers(s1, s', c);
    EstablishNowLives(s, fd);
    forall m | m in s'.loops ensures RoundIntact(s', m) {
      OnlyConnRound(s1, s', c, m);
    }
  }

  lemma EstablishNowLives(s: Server, fd: int)
    requires Lives(s) && BASE in s.loops && s.nextConnId !in s.conns
    requires InPoller(Born(s, fd, BASE), s.nextConnId)
    requires Life(ConnectEstablished(Born(s, fd, BASE), s.nextConnId), s.nextConnId)
    requires OnlyConn(Born(s, fd, BASE), ConnectEstablished(Born(s, fd, BASE), s.nextConnId), s.nextConnId)
    ensures Lives(ConnectEstablished(Born(s, fd, BASE), s.nextConnId))
  {
    hide Life;
    var c := s.nextConnId;
    var s1 := Born(s, fd, BASE);
    var s' := ConnectEstablished(s1, c);
    hide ConnectEstablished;
    forall d | Knows(s', d) && d != c ensures Life(s', d) {
      BornLife(s, fd, BASE, d);
      OnlyConnLife(s1, s', c, d);
    }
  }

  lemma AcceptKeeps(s: Server, fd: int, io: LoopId)
    requires Inv(s) && io in s.loops
    requires forall c :: c in s.conns && s.conns[c].alive ==> s.conns[c].fd != fd
    ensures s.nextConnId !in s.connections && s.nextConnId !in s.conns
    ensures Inv(ApplyAccept(s, fd, io))
  {
    AcceptRegistered(s, fd, io);
    if io == BASE {
      EstablishNow(s, fd);
    } else {
      QueueEstablished(s, fd, io);
    }
  }

  lemma AcceptRegistered(s: Server, fd: int, io: LoopId)
    requires Registered(s) && io in s.loops
    requires forall c :: c in s.conns && s.conns[c].alive ==> s.conns[c].fd != fd
    ensures Registered(ApplyAccept(s, fd, io))
  {
    BornRegistered(s, fd, io);
    var s1 := Born(s, fd, io);
    if io == BASE {
      EstablishRegistered(s1, s.nextConnId);
    } else {
      PushRegistered(s1, io, Established(s.nextConnId));
    }
  }

  // ---------------------------------------------------------------- death

  /** A connection nobody holds has been torn down. */
  lemma UnheldIsTornDown(s: Server, c: Id)
    requires Owned(s) && Knows(s, c) && !Held(s, c)
    ensures s.conns[c].destroys > 0 && Unregistered(s, c)
    ensures forall l :: l in s.loops ==>
              forall f :: f in s.loops[l].pending || f in s.loops[l].batch || f in s.loops[l].done ==> f.Raw? || f.c != c
    ensures forall t :: t in s.calls ==> s.calls[t].c != c
  {
    assert Life(s, c);
    forall l | l in s.loops
      ensures forall f :: f in s.loops[l].pending || f in s.loops[l].batch || f in s.loops[l].done ==> f.Raw? || f.c != c
    {
      assert !HeldByLoop(s.loops[l], c);
    }
    var q := s.loops[s.conns[c].loop];
    assert Destroyed(c) !in q.pending && Destroyed(c) !in q.batch;
  }

  lemma ReapKeeps(s: Server, c: Id)
    requires Inv(s) && c in s.conns && s.conns[c].alive && !Held(s, c)
    ensures InPoller(s, c) && s.loops[s.conns[c].loop].poller.chans[c].index.New?
    ensures Inv(ApplyReap(s, c))
  {
    UnheldIsTornDown(s, c);
    ReapRegistered(s, c);
    ReapOwned(s, c);
  }

  lemma ReapRegistered(s: Server, c: Id)
    requires Registered(s) && c in s.conns && s.conns[c].alive && Unregistered(s, c)
    ensures InPoller(s, c) && Registered(ApplyReap(s, c))
  {
    hide Simulates;
    var s' := ApplyReap(s, c);
    ReapWired(s, c);
    forall l | l in s'.loops ensures Simulates(s'.loops[l].poller) {
      assert Simulates(s.loops[l].poller);
      if l == s.conns[c].loop {
        DestroyKeeps(s.loops[l].poller, c);
      }
    }
  }

  lemma ReapWired(s: Server, c: Id)
    requires Wired(s) && c in s.conns && s.conns[c].alive
    ensures InPoller(s, c) && Wired(ApplyReap(s, c))
  {
    var s' := ApplyReap(s, c);
    forall d | d in s'.conns && s'.conns[d].alive
      ensures InPoller(s', d) && s'.loops[s'.conns[d].loop].poller.chans[d].fd == s'.conns[d].fd
    {
      assert InPoller(s, d);
    }
  }

  lemma ReapOwned(s: Server, c: Id)
    requires Owned(s) && InPoller(s, c) && !Held(s, c)
    ensures Owned(ApplyReap(s, c))
  {
    ReapPointers(s, c);
    ReapLives(s, c);
    forall m | m in s.loops ensures RoundIntact(ApplyReap(s, c), m) {
      assert RoundIntact(s, m);
    }
  }

  lemma ReapPointers(s: Server, c: Id)
    requires Owned(s) && InPoller(s, c) && !Held(s, c)
    ensures PointersFit(ApplyReap(s, c))
  {
    var s' := ApplyReap(s, c);
    UnheldIsTornDown(s, c);
    assert forall m, g :: m in s.loops && FunctorFits(s, m, g) && (g.Raw? || g.c != c) ==> FunctorFits(s', m, g);
  }

  lemma ReapLives(s: Server, c: Id)
    requires Owned(s) && InPoller(s, c) && !Held(s, c)
    ensures Lives(ApplyReap(s, c))
  {
    UnheldIsTornDown(s, c);
    forall d | Knows(ApplyReap(s, c), d) ensures Life(ApplyReap(s, c), d) {
      assert Life(s, d);
      ReapLife(s, c, d);
    }
  }

  lemma ReapLife(s: Server, c: Id, d: Id)
    requires InPoller(s, c) && Knows(s, d) && Life(s, d) && (d == c ==> s.conns[c].destroys > 0)
    ensures Life(ApplyReap(s, c), d)
  {
    if d != c {
      LifeFrame(s, ApplyReap(s, c), d);
    }
  }

  // ---------------------------------------------------------------- all steps

  /** The step runs a stray task. */
  predicate RunsStray(s: Server, step: Step) {
    step.RunFunctor? && step.l in s.loops && s.loops[step.l].batch != [] && Stray(s, s.loops[step.l].batch[0])
  }

  lemma StrayIsUnsafe(s: Server, step: Step)
    requires RunsStray(s, step)
    ensures !Safe(s, step)
  {
  }

  lemma RoundKeeps(s: Server, step: Step)
    requires Inv(s) && Enabled(s, step)
    requires step.Poll? || step.Pick? || step.RunCallback? || step.EndHandler?
    ensures Safe(s, step) && Inv(Apply(s, step))
  {
    hide Inv, Touchable;
    match step
    case Poll(l, report) => PollKeeps(s, l, report);
    case Pick(l) => PickKeeps(s, l);
    case RunCallback(l, eof) => CallbackKeeps(s, l, eof);
    case EndHandler(l) => HandlerKeeps(s, l, NoHandler);
  }

  lemma BatchKeeps(s: Server, step: Step)
    requires Inv(s) && Enabled(s, step) && !RunsStray(s, step)
    requires step.Swap? || step.RunFunctor? || step.EndBatch?
    ensures Safe(s, step) && Inv(Apply(s, step))
  {
    hide Inv;
    match step
    case Swap(l) => SwapKeeps(s, l);
    case RunFunctor(l) => FunctorKeeps(s, l, s.loops[l].batch[0]);
    case EndBatch(l) => EndBatchKeeps(s, l);
  }

  lemma UserKeeps(s: Server, step: Step)
    requires Inv(s) && Enabled(s, step)
    requires step.Accept? || step.Toggle? || step.Shutdown? || step.Reap?
    ensures Safe(s, step) && Inv(Apply(s, step))
  {
    hide Inv, Held;
    match step
    case Accept(fd, io) => AcceptKeeps(s, fd, io);
    case Toggle(c, mask) => ToggleKeeps(s, c, mask);
    case Shutdown(c) => ShutdownKeeps(s, c);
    case Reap(c) => ReapKeeps(s, c);
  }

  lemma CallsFit(s: Server)
    requires Inv(s)
    ensures BASE in s.loops
    ensures forall c :: c in s.userRefs ==> c in s.conns && s.conns[c].alive
    ensures forall t :: t in s.calls ==>
              s.calls[t].c in s.conns && s.conns[s.calls[t].c].alive && s.conns[s.calls[t].c].loop in s.loops
  {
  }

  /** The threads in a call are others than they were. */
  lemma CallsKeep(s: Server, calls: map<Thread, Call>, tickets: nat)
    requires Inv(s)
    requires forall t :: t in calls ==> calls[t].c in s.conns && s.conns[calls[t].c].alive
    ensures Inv(s.(calls := calls, tickets := tickets))
  {
    hide Inv;
    CallsFit(s);
    RefsKeep(s, s.(calls := calls, tickets := tickets));
  }

  lemma BeginKeeps(s: Server, t: Thread, c: Id, half: bool)
    requires Inv(s) && Knows(s, c) && s.conns[c].alive && s.conns[c].st.Connected?
    ensures Inv(ApplyBegin(s, t, c, half))
  {
    hide Inv;
    CallsFit(s);
    var s1 := if half then WithConn(s, c, s.conns[c].(st := ConnectionModel.Disconnecting)) else s;
    if half {
      ShutdownKeeps(s, c);
    }
    CallsKeep(s1, s.calls[t := Checked(c)], s1.tickets);
    assert ApplyBegin(s, t, c, half) == s1.(calls := s.calls[t := Checked(c)], tickets := s1.tickets);
  }

  lemma PostKeeps(s: Server, t: Thread)
    requires Inv(s) && t in s.calls && Knows(s, s.calls[t].c)
    ensures Inv(ApplyPost(s, t))
  {
    hide Inv;
    var c := s.calls[t].c;
    var l := s.conns[c].loop;
    CallsFit(s);
    PushKeeps(s, l, Raw(c, s.tickets));
    CallsKeep(Push(s, l, Raw(c, s.tickets)), s.calls[t := Posted(c, s.tickets)], s.tickets + 1);
  }

  lemma ReleaseKeeps(s: Server, t: Thread)
    requires Inv(s) && t in s.calls
    ensures Inv(s.(calls := s.calls - {t}))
  {
    hide Inv;
    CallsFit(s);
    RefsKeep(s, s.(calls := s.calls - {t}));
  }

  lemma UserRefsKeep(s: Server, refs: set<Id>)
    requires Inv(s) && forall c :: c in refs ==> c in s.conns && s.conns[c].alive
    ensures Inv(s.(userRefs := refs))
  {
    hide Inv;
    CallsFit(s);
    RefsKeep(s, s.(userRefs := refs));
  }

  lemma PointerKeeps(s: Server, step: Step)
    requires Inv(s) && Enabled(s, step)
    requires step.Queue? || step.Begin? || step.Post? || step.Release? || step.TakeRef? || step.DropRef?
    ensures Safe(s, step) && Inv(Apply(s, step))
  {
    hide Inv, Held;
    CallsFit(s);
    match step
    case Queue(c, l) => PushKeeps(s, l, Other(c));
    case Begin(t, c, half) => BeginKeeps(s, t, c, half);
    case Post(t) => PostKeeps(s, t);
    case Release(t) => ReleaseKeeps(s, t);
    case TakeRef(c) => UserRefsKeep(s, s.userRefs + {c});
    case DropRef(c) => UserRefsKeep(s, s.userRefs - {c});
  }

  lemma CrashKeeps(s: Server)
    requires Inv(s)
    ensures Inv(s.(crashed := true))
  {
    hide Inv;
    CallsFit(s);
    RefsKeep(s, s.(crashed := true));
  }

  /** Every step keeps the invariant, and is safe exactly when it does not run a stray task. */
  lemma StepKeeps(s: Server, step: Step)
    requires Inv(s) && Enabled(s, step)
    ensures Safe(s, step) <==> !RunsStray(s, step)
    ensures Inv(Apply(s, step))
  {
    hide Inv;
    if RunsStray(s, step) {
      StrayIsUnsafe(s, step);
      CrashKeeps(s);
    } else if step.Accept? || step.Toggle? || step.Shutdown? || step.Reap? {
      UserKeeps(s, step);
    } else if step.Poll? || step.Pick? || step.RunCallback? || step.EndHandler? {
      RoundKeeps(s, step);
    } else if step.Swap? || step.RunFunctor? || step.EndBatch? {
      BatchKeeps(s, step);
    } else {
      PointerKeeps(s, step);
    }
  }

  lemma Inductive()
    ensures Behaviors.IsInductive(Init, Next, Inv)
  {
    forall s, s' | Inv(s) && Next(s, s') ensures Inv(s') {
      var step :| Enabled(s, step) && s' == Apply(s, step);
      StepKeeps(s, step);
    }
  }

  lemma Reachable(run: seq<Server>, i: nat)
    requires Behaviors.IsBehavior(Init, Next, run) && i < |run|
    ensures Inv(run[i])
  {
    Inductive();
    Behaviors.InvariantHolds(Init, Next, Inv, run, i);
  }
}
