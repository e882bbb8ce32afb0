/** What the building blocks of the server's steps keep of the lifetime invariant. */
module ServerProofs {
  import opened PollerModel
  import opened ServerModel
  import ConnectionModel

  // ---------------------------------------------------------------- registration

  lemma AliveIsTouchable(s: Server, c: Id)
    requires Registered(s) && c in s.conns && s.conns[c].alive
    ensures Touchable(s, c)
  {
    var p := s.loops[s.conns[c].loop].poller;
    forall d | d in p.chans && d != c ensures p.chans[d].fd != p.chans[c].fd {
      assert d in s.conns && s.conns[d].alive;
      assert InPoller(s, d);
    }
  }

  /** The same connections and channels, wherever their masks and indexes are. */
  ghost predicate SameWiring(s: Server, s': Server) {
    && s'.loops.Keys == s.loops.Keys && s'.conns.Keys == s.conns.Keys && s'.nextConnId == s.nextConnId
    && (forall l :: l in s.loops ==> s'.loops[l].poller.chans.Keys == s.loops[l].poller.chans.Keys)
    && (forall l, c :: l in s.loops && c in s.loops[l].poller.chans ==>
          s'.loops[l].poller.chans[c].fd == s.loops[l].poller.chans[c].fd)
    && (forall c :: c in s.conns ==>
          s'.conns[c].fd == s.conns[c].fd && s'.conns[c].loop == s.conns[c].loop && s'.conns[c].alive == s.conns[c].alive)
  }

  lemma WiredFrame(s: Server, s': Server)
    requires Wired(s) && SameWiring(s, s')
    ensures Wired(s')
  {
    hide Bound;
    BoundFrame(s, s');
    assert forall c :: c in s'.conns <==> c in s.conns;
  }

  lemma BoundFrame(s: Server, s': Server)
    requires Bound(s) && BASE in s.loops && SameWiring(s, s')
    ensures Bound(s')
  {
    forall c | c in s'.conns && s'.conns[c].alive
      ensures InPoller(s', c) && s'.loops[s'.conns[c].loop].poller.chans[c].fd == s'.conns[c].fd
    {
      assert c in s.conns && s.conns[c].alive && InPoller(s, c);
    }
    forall l, c | l in s'.loops && c in s'.loops[l].poller.chans
      ensures c in s'.conns && s'.conns[c].alive && s'.conns[c].loop == l
    {
      assert l in s.loops && c in s.loops[l].poller.chans;
    }
  }

  /** Only the poller of one loop changed, and in it only the state of channel c. */
  ghost predicate OnlyChannel(s: Server, s': Server, c: Id)
    requires InPoller(s, c)
  {
    var l := s.conns[c].loop;
    && s'.loops.Keys == s.loops.Keys
    && s' == s.(loops := s'.loops)
    && (forall m :: m in s.loops && m != l ==> s'.loops[m] == s.loops[m])
    && s'.loops[l] == s.loops[l].(poller := s'.loops[l].poller)
    && s'.loops[l].poller.chans.Keys == s.loops[l].poller.chans.Keys
    && s'.loops[l].poller.chans[c].fd == s.loops[l].poller.chans[c].fd
    && forall d :: d in s.loops[l].poller.chans && d != c ==>
         s'.loops[l].poller.chans[d] == s.loops[l].poller.chans[d]
  }

  lemma OnlyChannelWiring(s: Server, s': Server, c: Id)
    requires InPoller(s, c) && OnlyChannel(s, s', c)
    ensures SameWiring(s, s')
  {
    var l := s.conns[c].loop;
    forall m, d | m in s.loops && d in s.loops[m].poller.chans
      ensures s'.loops[m].poller.chans[d].fd == s.loops[m].poller.chans[d].fd
    {
      if m == l && d != c {
        assert s'.loops[l].poller.chans[d] == s.loops[l].poller.chans[d];
      }
    }
  }

  lemma ChannelUpdate(s: Server, s': Server, c: Id)
    requires Registered(s) && InPoller(s, c) && OnlyChannel(s, s', c)
    requires Simulates(s'.loops[s.conns[c].loop].poller)
    ensures Registered(s')
  {
    OnlyChannelWiring(s, s', c);
    WiredFrame(s, s');
    forall m | m in s'.loops ensures Simulates(s'.loops[m].poller) {
      if m != s.conns[c].loop {
        assert s'.loops[m].poller == s.loops[m].poller;
      }
    }
  }

  lemma SetMaskKeeps(s: Server, c: Id, mask: set<Ev>)
    requires Registered(s) && Touchable(s, c)
    ensures Registered(SetMask(s, c, mask))
  {
    SetEventsKeeps(s.loops[s.conns[c].loop].poller, c, mask);
    SetMaskEffect(s, c, mask);
    ChannelUpdate(s, SetMask(s, c, mask), c);
  }

  /** In a poller, setting a mask touches the state of one channel. */
  lemma SetEventsLocal(p: PollerModel.Poller<Id>, c: Id, mask: set<Ev>)
    requires c in p.chans
    ensures var p' := SetEvents(p, c, mask);
            && p'.chans.Keys == p.chans.Keys && p'.chans[c].fd == p.chans[c].fd
            && forall d :: d in p.chans && d != c ==> p'.chans[d] == p.chans[d]
  {
  }

  lemma SetMaskEffect(s: Server, c: Id, mask: set<Ev>)
    requires InPoller(s, c)
    ensures OnlyChannel(s, SetMask(s, c, mask), c)
  {
    hide SetEvents;
    SetEventsLocal(s.loops[s.conns[c].loop].poller, c, mask);
  }

  function Removed(s: Server, c: Id): Server
    requires InPoller(s, c)
  {
    WithPoller(s, s.conns[c].loop, RemoveChannel(s.loops[s.conns[c].loop].poller, c))
  }

  lemma RemovedKeeps(s: Server, c: Id)
    requires Registered(s) && Touchable(s, c)
    ensures Registered(Removed(s, c))
  {
    RemoveSimulates(s.loops[s.conns[c].loop].poller, c);
    RemovedEffect(s, c);
    ChannelUpdate(s, Removed(s, c), c);
  }

  lemma RemovedEffect(s: Server, c: Id)
    requires InPoller(s, c)
    ensures OnlyChannel(s, Removed(s, c), c) && Unregistered(Removed(s, c), c)
  {
  }

  /** Nothing the registration part looks at has changed. */
  ghost predicate SameRegistration(s: Server, s': Server) {
    SameWiring(s, s') && forall l :: l in s.loops ==> s'.loops[l].poller == s.loops[l].poller
  }

  lemma RegistrationFrame(s: Server, s': Server)
    requires Registered(s) && SameRegistration(s, s')
    ensures Registered(s')
    ensures forall c :: Knows(s, c) ==> Unregistered(s', c) == Unregistered(s, c)
  {
    WiredFrame(s, s');
    forall l | l in s'.loops ensures Simulates(s'.loops[l].poller) {
      assert s'.loops[l].poller == s.loops[l].poller;
    }
  }

  // ---------------------------------------------------------------- frames

  lemma LifeFrame(s: Server, s': Server, c: Id)
    requires Knows(s, c) && Knows(s', c) && Life(s, c)
    requires s'.conns[c] == s.conns[c] && (c in s'.connections <==> c in s.connections)
    requires Unregistered(s, c) ==> Unregistered(s', c)
    requires var q, q' := s.loops[s.conns[c].loop], s'.loops[s.conns[c].loop];
             Due(q', Established(c)) == Due(q, Established(c)) && Due(q', Destroyed(c)) == Due(q, Destroyed(c))
    requires Due(s'.loops[BASE], RemoveInLoop(c)) == Due(s.loops[BASE], RemoveInLoop(c))
    ensures Life(s', c)
  {
  }

  // ---------------------------------------------------------------- steps of one loop

  /** The queues of a loop hold no new functor. */
  ghost predicate NoNewFunctors(q: Loop, q': Loop) {
    && q'.poller == q.poller
    && (forall f :: f in q'.pending ==> f in q.pending || f in q.batch)
    && (forall f :: f in q'.batch ==> f in q.pending || f in q.batch)
    && (forall f :: f in q'.done ==> f in q.done || f in q.batch)
    && (forall f :: Due(q', f) <= Due(q, f))
  }

  /** The same set-up and teardown work is due for c. */
  predicate KeepsDue(q: Loop, q': Loop, c: Id) {
    Due(q', Established(c)) == Due(q, Established(c)) && Due(q', Destroyed(c)) == Due(q, Destroyed(c))
  }

  lemma LoopStep(s: Server, l: LoopId, q': Loop)
    requires Inv(s) && l in s.loops
    requires NoNewFunctors(s.loops[l], q') && forall c :: KeepsDue(s.loops[l], q', c)
    requires RoundIntact(WithLoop(s, l, q'), l)
    ensures Inv(WithLoop(s, l, q'))
  {
    hide Registered, Life, RoundIntact, PointersFit;
    var s' := WithLoop(s, l, q');
    RegistrationFrame(s, s');
    LoopStepPointers(s, l, q');
    forall c | Knows(s', c) ensures Life(s', c) {
      LoopStepLife(s, l, q', c);
    }
    LoopStepRounds(s, l, q');
  }

  lemma LoopStepRounds(s: Server, l: LoopId, q': Loop)
    requires RoundsIntact(s) && l in s.loops && RoundIntact(WithLoop(s, l, q'), l)
    ensures RoundsIntact(WithLoop(s, l, q'))
  {
    forall m | m in s.loops && m != l ensures RoundIntact(WithLoop(s, l, q'), m) {
      assert RoundIntact(s, m);
    }
  }

  lemma LoopStepPointers(s: Server, l: LoopId, q': Loop)
    requires PointersFit(s) && l in s.loops && NoNewFunctors(s.loops[l], q')
    ensures PointersFit(WithLoop(s, l, q'))
  {
    var s' := WithLoop(s, l, q');
    assert forall m, f :: m in s.loops && FunctorFits(s, m, f) ==> FunctorFits(s', m, f);
  }

  lemma LoopStepLife(s: Server, l: LoopId, q': Loop, c: Id)
    requires Knows(s, c) && Life(s, c) && l in s.loops
    requires NoNewFunctors(s.loops[l], q') && KeepsDue(s.loops[l], q', c)
    ensures Life(WithLoop(s, l, q'), c)
  {
    var s' := WithLoop(s, l, q');
    assert Due(s'.loops[BASE], RemoveInLoop(c)) <= Due(s.loops[BASE], RemoveInLoop(c));
    assert Unregistered(s', c) == Unregistered(s, c);
  }

  lemma PollKeeps(s: Server, l: LoopId, report: seq<Ready>)
    requires Inv(s) && l in s.loops && s.loops[l].phase.Polling? && Reported(s.loops[l].poller, report)
    ensures forall r :: r in report ==> Touchable(s, r.c)
    ensures Inv(WithLoop(s, l, s.loops[l].(phase := Dispatching, active := report)))
  {
    hide Registered, Lives, PointersFit, Touchable, Reported;
    var q' := s.loops[l].(phase := Dispatching, active := report);
    assert RoundIntact(s, l);
    forall r | r in report ensures Touchable(s, r.c) && InRound(s, l, r.c) {
      ReportedIsUp(s, l, report, r);
    }
    PollRound(s, l, report);
    hide Inv, RoundIntact;
    LoopStep(s, l, q');
  }

  lemma PollRound(s: Server, l: LoopId, report: seq<Ready>)
    requires l in s.loops && RoundIntact(s, l) && s.loops[l].phase.Polling?
    requires forall r :: r in report ==> InRound(s, l, r.c)
    ensures RoundIntact(WithLoop(s, l, s.loops[l].(phase := Dispatching, active := report)), l)
  {
    var s' := WithLoop(s, l, s.loops[l].(phase := Dispatching, active := report));
    assert forall r :: r in report ==> InRound(s', l, r.c);
  }

  /** What the kernel reports is registered, hence alive and not torn down. */
  lemma ReportedIsUp(s: Server, l: LoopId, report: seq<Ready>, r: Ready)
    requires Inv(s) && l in s.loops && Reported(s.loops[l].poller, report) && r in report
    ensures Touchable(s, r.c) && InRound(s, l, r.c)
  {
    var p := s.loops[l].poller;
    var fd :| fd in p.kernel && p.kernel[fd].chan == r.c;
    assert Simulates(p);
    assert IndexMatches(p, r.c) && p.chans[r.c].fd == fd;
    assert Knows(s, r.c) && Life(s, r.c);
    AliveIsTouchable(s, r.c);
  }

  function Picked(q: Loop): Loop
    requires q.active != []
  {
    var r := q.active[0];
    q.(active := q.active[1..], handler := Handling(r.c, r.revents, Callbacks(r.revents)))
  }

  lemma PickKeeps(s: Server, l: LoopId)
    requires Inv(s) && l in s.loops && s.loops[l].active != []
    ensures Touchable(s, s.loops[l].active[0].c) && Inv(WithLoop(s, l, Picked(s.loops[l])))
  {
    hide Registered, Lives, PointersFit, Touchable, Callbacks;
    assert RoundIntact(s, l);
    ActiveInRound(s, l);
    InRoundIsTouchable(s, l, s.loops[l].active[0].c);
    PickRound(s, l);
    hide Inv, RoundIntact;
    LoopStep(s, l, Picked(s.loops[l]));
  }

  lemma ActiveInRound(s: Server, l: LoopId)
    requires l in s.loops && s.loops[l].active != [] && RoundIntact(s, l)
    ensures InRound(s, l, s.loops[l].active[0].c)
  {
    assert s.loops[l].active[0] in s.loops[l].active;
  }

  lemma PickRound(s: Server, l: LoopId)
    requires l in s.loops && s.loops[l].active != [] && RoundIntact(s, l)
    ensures RoundIntact(WithLoop(s, l, Picked(s.loops[l])), l)
  {
    var q, q' := s.loops[l], Picked(s.loops[l]);
    assert forall x :: x in q'.active ==> x in q.active;
    assert forall c :: InRound(s, l, c) ==> InRound(WithLoop(s, l, q'), l, c);
  }

  lemma InRoundIsTouchable(s: Server, l: LoopId, c: Id)
    requires Inv(s) && InRound(s, l, c)
    ensures Touchable(s, c)
  {
    assert Knows(s, c) && Life(s, c);
    AliveIsTouchable(s, c);
  }

  /** The handler moves on inside its round. */
  lemma HandlerKeeps(s: Server, l: LoopId, h: Handler)
    requires Inv(s) && l in s.loops && s.loops[l].handler.Handling?
    requires h.Handling? ==> h.c == s.loops[l].handler.c
    ensures Inv(WithLoop(s, l, s.loops[l].(handler := h)))
  {
    hide Registered, Lives, PointersFit, RoundIntact;
    HandlerRound(s, l, h);
    hide Inv;
    LoopStep(s, l, s.loops[l].(handler := h));
  }

  lemma HandlerRound(s: Server, l: LoopId, h: Handler)
    requires RoundsIntact(s) && l in s.loops && s.loops[l].handler.Handling?
    requires h.Handling? ==> h.c == s.loops[l].handler.c
    ensures RoundIntact(WithLoop(s, l, s.loops[l].(handler := h)), l)
  {
    assert RoundIntact(s, l);
    assert forall c :: InRound(s, l, c) ==> InRound(WithLoop(s, l, s.loops[l].(handler := h)), l, c);
  }

  lemma SwapKeeps(s: Server, l: LoopId)
    requires Inv(s) && l in s.loops && s.loops[l].phase.Dispatching?
    requires s.loops[l].handler.NoHandler? && s.loops[l].active == []
    ensures Inv(WithLoop(s, l, s.loops[l].(phase := Calling, batch := s.loops[l].pending, pending := [])))
  {
    assert RoundIntact(s, l);
    LoopStep(s, l, s.loops[l].(phase := Calling, batch := s.loops[l].pending, pending := []));
  }

  lemma EndBatchKeeps(s: Server, l: LoopId)
    requires Inv(s) && l in s.loops && s.loops[l].phase.Calling? && s.loops[l].batch == []
    ensures Inv(WithLoop(s, l, s.loops[l].(phase := Polling, done := [])))
  {
    assert RoundIntact(s, l);
    LoopStep(s, l, s.loops[l].(phase := Polling, done := []));
  }

  // ---------------------------------------------------------------- pushing and erasing

  lemma PushKeeps(s: Server, l: LoopId, f: Functor)
    requires Inv(s) && l in s.loops && FunctorFits(s, l, f)
    requires f.Other? || f.Raw? || (!f.Established? && s.conns[f.c].st.Disconnected?)
    ensures Inv(Push(s, l, f))
    ensures f.Destroyed? ==> Due(Push(s, l, f).loops[l], f) > 0
  {
    PushRegistered(s, l, f);
    PushOwned(s, l, f);
  }

  lemma PushRegistered(s: Server, l: LoopId, f: Functor)
    requires Registered(s) && l in s.loops
    ensures Registered(Push(s, l, f))
  {
    RegistrationFrame(s, Push(s, l, f));
  }

  lemma PushOwned(s: Server, l: LoopId, f: Functor)
    requires Owned(s) && l in s.loops && FunctorFits(s, l, f)
    requires f.Other? || f.Raw? || (!f.Established? && s.conns[f.c].st.Disconnected?)
    ensures Owned(Push(s, l, f))
    ensures f.Destroyed? ==> Due(Push(s, l, f).loops[l], f) > 0
  {
    var s' := Push(s, l, f);
    assert forall m, g :: m in s.loops && FunctorFits(s, m, g) ==> FunctorFits(s', m, g);
    forall c | Knows(s', c) ensures Life(s', c) {
      PushLife(s, l, f, c);
    }
    forall m | m in s'.loops ensures RoundIntact(s', m) {
      assert RoundIntact(s, m);
    }
    assert f in s'.loops[l].pending;
  }

  lemma PushDue(q: Loop, f: Functor)
    ensures forall g :: Due(q.(pending := q.pending + [f]), g) == Due(q, g) + if g == f then 1 else 0
  {
  }

  lemma PushLife(s: Server, l: LoopId, f: Functor, c: Id)
    requires Knows(s, c) && Life(s, c) && l in s.loops && FunctorFits(s, l, f)
    requires f.Other? || f.Raw? || (!f.Established? && s.conns[f.c].st.Disconnected?)
    ensures Life(Push(s, l, f), c)
  {
    PushDue(s.loops[l], f);
    hide Due;
    assert Unregistered(Push(s, l, f), c) == Unregistered(s, c);
  }

  /** The map entry goes only once the teardown is queued. */
  lemma EraseKeeps(s: Server, c: Id)
    requires Inv(s) && Knows(s, c) && Due(s.loops[s.conns[c].loop], Destroyed(c)) > 0
    ensures Inv(s.(connections := s.connections - {c}))
  {
    RegistrationFrame(s, s.(connections := s.connections - {c}));
    EraseOwned(s, c);
  }

  lemma EraseOwned(s: Server, c: Id)
    requires Owned(s) && Knows(s, c) && Due(s.loops[s.conns[c].loop], Destroyed(c)) > 0
    ensures Owned(s.(connections := s.connections - {c}))
  {
    var s' := s.(connections := s.connections - {c});
    forall d | Knows(s', d) ensures Life(s', d) {
      assert Life(s, d);
      assert Unregistered(s', d) == Unregistered(s, d);
    }
    forall m | m in s'.loops ensures RoundIntact(s', m) {
      assert RoundIntact(s, m);
    }
  }

  lemma RemoveKeeps(s: Server, c: Id)
    requires Inv(s) && Knows(s, c) && s.conns[c].alive && s.conns[c].st.Disconnected?
    ensures Inv(RemoveConnectionInLoop(s, c))
  {
    var l := s.conns[c].loop;
    PushKeeps(s, l, Destroyed(c));
    EraseKeeps(Push(s, l, Destroyed(c)), c);
  }

  // ---------------------------------------------------------------- closing

  /** The state and mask part of a teardown, before the server hears of it. */
  function Closed(s: Server, c: Id): Server
    requires InPoller(s, c)
  {
    var k := s.conns[c];
    SetMask(WithConn(s, c, k.(st := ConnectionModel.Disconnected, downs := k.downs + 1)), c, {})
  }

  /** A change of state and mask that `Life` allows for c leaves every other connection alone. */
  lemma ConnStep(s: Server, c: Id, k': Conn, mask: set<Ev>)
    requires Inv(s) && Touchable(s, c)
    requires s.conns[c] == k'.(st := s.conns[c].st, ups := s.conns[c].ups, downs := s.conns[c].downs)
    requires !k'.st.Connecting? && !s.conns[c].st.Connecting?
    requires Life(SetMask(WithConn(s, c, k'), c, mask), c)
    ensures Inv(SetMask(WithConn(s, c, k'), c, mask))
  {
    hide Registered, Life, SetEvents, Lives, RoundsIntact, PointersFit, FdIsFree;
    var s1 := WithConn(s, c, k');
    RegistrationFrame(s, s1);
    AliveIsTouchable(s1, c);
    SetMaskKeeps(s1, c, mask);
    MaskIsOnlyConn(s, c, k', mask);
    ConnStepOwned(s, SetMask(s1, c, mask), c);
  }

  /** The queues and rounds are the same, and so is every connection but c. */
  ghost predicate OnlyConn(s: Server, s': Server, c: Id) {
    && c in s.conns && c in s'.conns && s'.conns == s.conns[c := s'.conns[c]]
    && s'.connections == s.connections && s'.userRefs == s.userRefs && s'.calls == s.calls
    && s'.loops.Keys == s.loops.Keys
    && (forall m :: m in s.loops ==> s'.loops[m] == s.loops[m].(poller := s'.loops[m].poller))
    && (forall d :: Knows(s, d) && d != c && Unregistered(s, d) ==> Knows(s', d) && Unregistered(s', d))
    && SameButState(s.conns[c], s'.conns[c])
  }

  lemma ChannelIsOnlyConn(s: Server, s': Server, c: Id)
    requires InPoller(s, c) && c in s'.conns
    requires s'.conns == s.conns[c := s'.conns[c]] && OnlyChannel(s, s'.(conns := s.conns), c)
    requires SameButState(s.conns[c], s'.conns[c])
    ensures OnlyConn(s, s', c)
  {
    forall d | Knows(s, d) && d != c && Unregistered(s, d) ensures Unregistered(s', d) {
      assert s'.conns[d] == s.conns[d];
    }
  }

  predicate SameButState(k: Conn, k': Conn) {
    k == k'.(st := k.st, ups := k.ups, downs := k.downs, destroys := k.destroys)
  }

  lemma MaskIsOnlyConn(s: Server, c: Id, k': Conn, mask: set<Ev>)
    requires InPoller(s, c) && SameButState(s.conns[c], k')
    ensures OnlyConn(s, SetMask(WithConn(s, c, k'), c, mask), c)
  {
    SetMaskEffect(s, c, mask);
    assert SetMask(WithConn(s, c, k'), c, mask).(conns := s.conns) == SetMask(s, c, mask);
    ChannelIsOnlyConn(s, SetMask(WithConn(s, c, k'), c, mask), c);
  }

  lemma RemoveIsOnlyConn(s: Server, c: Id, k': Conn)
    requires InPoller(s, c) && SameButState(s.conns[c], k')
    ensures OnlyConn(s, Removed(WithConn(s, c, k'), c), c)
  {
    RemovedEffect(s, c);
    assert Removed(WithConn(s, c, k'), c).(conns := s.conns) == Removed(s, c);
    ChannelIsOnlyConn(s, Removed(WithConn(s, c, k'), c), c);
  }

  lemma OnlyConnLife(s: Server, s': Server, c: Id, d: Id)
    requires OnlyConn(s, s', c) && d != c && Knows(s', d) && Life(s, d)
    ensures Life(s', d)
  {
    LifeFrame(s, s', d);
  }

  lemma OnlyConnRound(s: Server, s': Server, c: Id, m: LoopId)
    requires OnlyConn(s, s', c) && m in s.loops && RoundIntact(s, m) && !s'.conns[c].st.Connecting?
    requires s'.conns[c].destroys == s.conns[c].destroys || (m == s.conns[c].loop ==> s.loops[m].phase.Calling?)
    ensures RoundIntact(s', m)
  {
  }

  lemma OnlyConnPointers(s: Server, s': Server, c: Id)
    requires OnlyConn(s, s', c) && PointersFit(s)
    ensures PointersFit(s')
  {
    assert forall m, g :: m in s.loops && FunctorFits(s, m, g) ==> FunctorFits(s', m, g);
  }

  lemma ConnStepOwned(s: Server, s': Server, c: Id)
    requires Owned(s) && OnlyConn(s, s', c) && s'.conns[c].destroys == s.conns[c].destroys
    requires !s'.conns[c].st.Connecting? && Knows(s', c) && Life(s', c)
    ensures Owned(s')
  {
    OnlyConnPointers(s, s', c);
    forall d | Knows(s', d) && d != c ensures Life(s', d) {
      OnlyConnLife(s, s', c, d);
    }
    forall m | m in s'.loops ensures RoundIntact(s', m) {
      OnlyConnRound(s, s', c, m);
    }
  }

  lemma ClosedLife(s: Server, c: Id)
    requires InPoller(s, c) && Life(s, c) && !s.conns[c].st.Connecting? && s.conns[c].destroys == 0
    ensures Life(Closed(s, c), c)
  {
    SetMaskEffect(s, c, {});
  }

  lemma ClosedKeeps(s: Server, l: LoopId, c: Id)
    requires Inv(s) && Touchable(s, c) && InRound(s, l, c)
    ensures Inv(Closed(s, c)) && Knows(Closed(s, c), c) && Closed(s, c).loops.Keys == s.loops.Keys
    ensures Closed(s, c).conns[c] == s.conns[c].(st := ConnectionModel.Disconnected, downs := s.conns[c].downs + 1)
  {
    hide Registered, SetEvents, RoundsIntact, PointersFit, FdIsFree;
    assert Life(s, c);
    ClosedLife(s, c);
    hide Inv, Life;
    ConnStep(s, c, s.conns[c].(st := ConnectionModel.Disconnected, downs := s.conns[c].downs + 1), {});
  }

  lemma HandleCloseKeeps(s: Server, l: LoopId, c: Id)
    requires Inv(s) && l in s.loops && InRound(s, l, c)
    ensures Touchable(s, c) && Inv(HandleClose(s, c))
  {
    InRoundIsTouchable(s, l, c);
    ClosedKeeps(s, l, c);
    var s1 := Closed(s, c);
    hide Inv, SetEvents, FdIsFree;
    if l == BASE {
      RemoveKeeps(s1, c);
    } else {
      PushKeeps(s1, BASE, RemoveInLoop(c));
    }
  }
}
