/** When every readiness mask is tame, a connection is reported down at most once. */
module ServerCallbacks {
  import opened PollerModel
  import opened ServerModel
  import opened ServerProofs
  import opened ServerSteps
  import ConnectionModel
  import Behaviors

  /** Hang-up without input never comes together with another reason to read. */
  predicate Tame(revents: set<Ev>) {
    !(Hup in revents && In !in revents && (Pri in revents || RdHup in revents))
  }

  /** A read that finds end of stream in an event whose mask is not tame: the close callback ran before it. */
  predicate ReadsTwice(s: Server, step: Step) {
    && step.RunCallback? && step.eof && step.l in s.loops
    && s.loops[step.l].handler.Handling? && s.loops[step.l].handler.todo != []
    && s.loops[step.l].handler.todo[0].Read? && !Tame(s.loops[step.l].handler.revents)
  }

  /** Any step but that. */
  ghost predicate OnceNext(s: Server, s': Server) {
    exists step :: Enabled(s, step) && !ReadsTwice(s, step) && s' == Apply(s, step)
  }

  /** The channel of a connection; of one that is no more, a channel without interest. */
  function ChannelOf(s: Server, c: Id): Chan
    requires Knows(s, c)
  {
    if InPoller(s, c) then s.loops[s.conns[c].loop].poller.chans[c] else Chan(s.conns[c].fd, {}, New)
  }

  function IndexOf(s: Server, c: Id): Index
    requires Knows(s, c)
  {
    ChannelOf(s, c).index
  }

  /** In the interest set exactly while up, and reported down once when not. */
  predicate Once(s: Server, c: Id)
    requires Knows(s, c)
  {
    && (s.conns[c].st.Connected? || s.conns[c].st.Disconnecting? ==> IndexOf(s, c).Added?)
    && (s.conns[c].st.Disconnected? ==> !IndexOf(s, c).Added? && s.conns[c].downs == 1)
  }

  /** A callback that may close the connection, in an event with this mask. */
  predicate Closing(cb: Callback, revents: set<Ev>) { cb.Close? || (cb.Read? && Tame(revents)) }

  predicate AtMostOneClosing(todo: seq<Callback>, revents: set<Ev>) {
    forall i, j :: 0 <= i < j < |todo| ==> !(Closing(todo[i], revents) && Closing(todo[j], revents))
  }

  predicate IsDown(s: Server, c: Id) {
    c in s.conns && s.conns[c].st.Disconnected?
  }

  /** Nothing left in the round would close a connection again. */
  ghost predicate RoundOnce(s: Server, l: LoopId)
    requires l in s.loops
  {
    var q := s.loops[l];
    && (forall r :: r in q.active ==> !IsDown(s, r.c))
    && (forall i, j :: 0 <= i < j < |q.active| ==> q.active[i].c != q.active[j].c)
    && (q.handler.Handling? ==>
          && AtMostOneClosing(q.handler.todo, q.handler.revents)
          && (forall r :: r in q.active ==> r.c != q.handler.c)
          && (IsDown(s, q.handler.c) ==> forall cb :: cb in q.handler.todo ==> !Closing(cb, q.handler.revents)))
  }

  ghost predicate Onces(s: Server) {
    && (forall c :: Knows(s, c) ==> Once(s, c))
    && (forall l :: l in s.loops ==> RoundOnce(s, l))
  }

  ghost predicate OnceInv(s: Server) {
    Inv(s) && Onces(s)
  }

  lemma OneClosing(revents: set<Ev>)
    ensures AtMostOneClosing(Callbacks(revents), revents)
  {
    CloseAndRead(revents);
  }

  /** Rounds are as before, and so are connections and their channels, except for c. */
  ghost predicate Untouched(s: Server, s': Server, c: Id) {
    && s'.loops.Keys == s.loops.Keys
    && (forall l :: l in s.loops ==>
          s'.loops[l].active == s.loops[l].active && s'.loops[l].handler == s.loops[l].handler)
    && (forall d :: d in s.conns ==> d in s'.conns)
    && forall d :: Knows(s', d) && d != c ==> Knows(s, d) && s'.conns[d] == s.conns[d] && ChannelOf(s', d) == ChannelOf(s, d)
  }

  /** If c goes down in this step, nothing in its round would take it down again. */
  ghost predicate RoundAllows(s: Server, s': Server, c: Id, l: LoopId)
    requires l in s.loops
  {
    var q := s.loops[l];
    IsDown(s', c) && !IsDown(s, c) ==>
      && (forall r :: r in q.active ==> r.c != c)
      && (q.handler.Handling? && q.handler.c == c ==>
             forall cb :: cb in q.handler.todo ==> !Closing(cb, q.handler.revents))
  }

  lemma RoundFrame(s: Server, s': Server, c: Id, l: LoopId)
    requires Wired(s) && Wired(s') && l in s.loops && RoundOnce(s, l) && RoundIntact(s, l)
    requires Untouched(s, s', c) && RoundAllows(s, s', c, l)
    ensures RoundOnce(s', l)
  {
    assert forall d :: IsDown(s', d) && d != c ==> Knows(s', d) && IsDown(s, d);
  }

  /** The general step: one connection moves, and stays within its rules. */
  lemma OnceStep(s: Server, s': Server, c: Id)
    requires OnceInv(s) && Wired(s') && Untouched(s, s', c)
    requires Knows(s', c) ==> Once(s', c)
    requires forall l :: l in s.loops ==> RoundAllows(s, s', c, l)
    ensures Onces(s')
  {
    forall l | l in s'.loops ensures RoundOnce(s', l) {
      assert RoundIntact(s, l) && RoundOnce(s, l);
      RoundFrame(s, s', c, l);
    }
    forall d | Knows(s', d) ensures Once(s', d) {
      if d != c {
        assert Once(s, d);
      }
    }
  }

  /** A loop moves on in its round or its queues. */
  lemma OnceLoop(s: Server, l: LoopId, q': Loop)
    requires Onces(s) && l in s.loops && q'.poller == s.loops[l].poller
    requires RoundOnce(WithLoop(s, l, q'), l)
    ensures Onces(WithLoop(s, l, q'))
  {
    var s' := WithLoop(s, l, q');
    forall d | Knows(s', d) ensures Once(s', d) {
      assert Once(s, d) && IndexOf(s', d) == IndexOf(s, d);
    }
    forall m | m in s'.loops && m != l ensures RoundOnce(s', m) {
      assert RoundOnce(s, m);
    }
  }

  // ---------------------------------------------------------------- steps of a round

  lemma OncePoll(s: Server, l: LoopId, report: seq<Ready>)
    requires OnceInv(s) && l in s.loops && s.loops[l].phase.Polling? && Reported(s.loops[l].poller, report)
    ensures Onces(WithLoop(s, l, s.loops[l].(phase := Dispatching, active := report)))
  {
    assert RoundIntact(s, l);
    forall r | r in report ensures !IsDown(s, r.c) {
      ReportedNotDown(s, l, report, r);
    }
    OnceLoop(s, l, s.loops[l].(phase := Dispatching, active := report));
  }

  lemma ReportedIsAdded(p: PollerModel.Poller<Id>, report: seq<Ready>, r: Ready)
    requires Simulates(p) && Reported(p, report) && r in report
    ensures r.c in p.chans && p.chans[r.c].index.Added?
  {
    var fd :| fd in p.kernel && p.kernel[fd].chan == r.c;
    assert IndexMatches(p, r.c);
  }

  lemma ReportedNotDown(s: Server, l: LoopId, report: seq<Ready>, r: Ready)
    requires OnceInv(s) && l in s.loops && Reported(s.loops[l].poller, report) && r in report
    ensures !IsDown(s, r.c)
  {
    hide Simulates, Reported, Owned;
    assert Simulates(s.loops[l].poller);
    ReportedIsAdded(s.loops[l].poller, report, r);
    assert Knows(s, r.c) && Once(s, r.c);
  }

  lemma PickRoundOnce(s: Server, l: LoopId)
    requires l in s.loops && s.loops[l].active != [] && RoundOnce(s, l)
    ensures RoundOnce(WithLoop(s, l, Picked(s.loops[l])), l)
  {
    var active := s.loops[l].active;
    assert active[0] in active;
    OneClosing(active[0].revents);
    assert forall r :: r in active[1..] ==> r in active;
  }

  lemma OncePick(s: Server, l: LoopId)
    requires Onces(s) && l in s.loops && s.loops[l].active != []
    ensures Onces(WithLoop(s, l, Picked(s.loops[l])))
  {
    PickRoundOnce(s, l);
    OnceLoop(s, l, Picked(s.loops[l]));
  }

  /** The event with its first callback taken off. */
  function Advance(h: Handler): Handler
    requires h.Handling? && h.todo != []
  {
    Handling(h.c, h.revents, h.todo[1..])
  }

  function Popped(s: Server, l: LoopId): Server
    requires l in s.loops && s.loops[l].handler.Handling? && s.loops[l].handler.todo != []
  {
    WithLoop(s, l, s.loops[l].(handler := Advance(s.loops[l].handler)))
  }

  lemma PopRound(s: Server, l: LoopId)
    requires l in s.loops && s.loops[l].handler.Handling? && s.loops[l].handler.todo != [] && RoundOnce(s, l)
    ensures RoundOnce(Popped(s, l), l)
    ensures var h := s.loops[l].handler;
            Closing(h.todo[0], h.revents) ==>
              !IsDown(s, h.c) && forall cb :: cb in h.todo[1..] ==> !Closing(cb, h.revents)
  {
    var todo := s.loops[l].handler.todo;
    assert forall cb :: cb in todo[1..] ==> cb in todo;
    assert todo[0] in todo;
  }

  lemma OncePop(s: Server, l: LoopId)
    requires OnceInv(s) && l in s.loops && s.loops[l].handler.Handling? && s.loops[l].handler.todo != []
    ensures OnceInv(Popped(s, l))
    ensures var h := s.loops[l].handler;
            Closing(h.todo[0], h.revents) ==>
              !IsDown(s, h.c) && forall cb :: cb in h.todo[1..] ==> !Closing(cb, h.revents)
  {
    var h' := Advance(s.loops[l].handler);
    PopRound(s, l);
    OnceLoop(s, l, s.loops[l].(handler := h'));
    HandlerKeeps(s, l, h');
  }

  /** In a poller, setting a mask registers the channel under it, or takes a registered channel off. */
  lemma SetEventsAt(p: PollerModel.Poller<Id>, c: Id, mask: set<Ev>)
    requires c in p.chans
    ensures var ch, ch' := p.chans[c], SetEvents(p, c, mask).chans[c];
            && ch'.events == mask && (mask != {} ==> ch'.index.Added?)
            && (mask == {} && ch.index.Added? ==> ch'.index.Deleted?)
  {
  }

  /** For the pollers, going down is one change of mask. */
  lemma ClosedSame(s: Server, c: Id)
    requires InPoller(s, c)
    ensures SameRegistration(SetMask(s, c, {}), Closed(s, c)) && SameRounds(s, Closed(s, c), c)
  {
    hide SetEvents;
    SetEventsLocal(s.loops[s.conns[c].loop].poller, c, {});
  }

  lemma ClosedChannel(s: Server, c: Id)
    requires InPoller(s, c)
    ensures Knows(Closed(s, c), c) && ChannelOf(Closed(s, c), c).events == {}
    ensures IndexOf(s, c).Added? ==> IndexOf(Closed(s, c), c).Deleted?
  {
    hide SetEvents;
    SetEventsAt(s.loops[s.conns[c].loop].poller, c, {});
    SetEventsLocal(s.loops[s.conns[c].loop].poller, c, {});
  }

  lemma ClosedEffect(s: Server, c: Id)
    requires InPoller(s, c)
    ensures Untouched(s, Closed(s, c), c) && Knows(Closed(s, c), c)
    ensures ChannelOf(Closed(s, c), c).events == {} && (IndexOf(s, c).Added? ==> IndexOf(Closed(s, c), c).Deleted?)
  {
    hide Closed, SetMask, ChannelOf, IndexOf, Untouched, OnlyChannel, SameRegistration;
    SetMaskEffect(s, c, {});
    ClosedSame(s, c);
    ClosedChannel(s, c);
    UntouchedThrough(s, SetMask(s, c, {}), Closed(s, c), c);
  }

  /** Telling the server touches only queues and the map. */
  lemma NotifyEffect(s: Server, c: Id)
    requires InPoller(s, c)
    ensures var s1 := Closed(s, c); var s' := HandleClose(s, c);
            && s'.conns == s1.conns && s'.loops.Keys == s1.loops.Keys
            && forall l :: l in s1.loops ==>
                 s'.loops[l].poller == s1.loops[l].poller && s'.loops[l].active == s1.loops[l].active
                 && s'.loops[l].handler == s1.loops[l].handler
  {
    hide SetEvents;
  }

  lemma CloseEffect(s: Server, c: Id)
    requires InPoller(s, c)
    ensures var s' := HandleClose(s, c);
            Untouched(s, s', c) && Knows(s', c) && s'.conns == Closed(s, c).conns && ChannelOf(s', c).events == {}
            && (IndexOf(s, c).Added? ==> IndexOf(s', c).Deleted?)
  {
    hide SetEvents, HandleClose, Closed;
    ClosedEffect(s, c);
    NotifyEffect(s, c);
    var s1, s' := Closed(s, c), HandleClose(s, c);
    assert forall d :: Knows(s', d) ==> Knows(s1, d) && ChannelOf(s', d) == ChannelOf(s1, d);
  }

  lemma OnceCallback(s: Server, l: LoopId, eof: bool)
    requires OnceInv(s) && l in s.loops && s.loops[l].handler.Handling? && s.loops[l].handler.todo != []
    requires InPoller(s, s.loops[l].handler.c) && !ReadsTwice(s, ServerModel.RunCallback(l, eof))
    ensures Onces(ApplyCallback(s, l, eof))
  {
    OncePop(s, l);
    var h := s.loops[l].handler;
    if h.todo[0].Close? || (h.todo[0].Read? && eof) {
      CallbackKeeps(s, l, eof);
      OnceClose(Popped(s, l), l, h.c);
    }
  }

  lemma CloseAllowed(s: Server, l: LoopId, c: Id, s': Server, m: LoopId)
    requires l in s.loops && m in s.loops && RoundIntact(s, m) && RoundOnce(s, m)
    requires c in s.conns && s.conns[c].loop == l
    requires s.loops[l].handler.Handling? && s.loops[l].handler.c == c
    requires forall cb :: cb in s.loops[l].handler.todo ==> !Closing(cb, s.loops[l].handler.revents)
    ensures RoundAllows(s, s', c, m)
  {
  }

  lemma OnceClose(s: Server, l: LoopId, c: Id)
    requires OnceInv(s) && l in s.loops && InRound(s, l, c) && InPoller(s, c) && !IsDown(s, c)
    requires s.loops[l].handler.Handling? && s.loops[l].handler.c == c
    requires forall cb :: cb in s.loops[l].handler.todo ==> !Closing(cb, s.loops[l].handler.revents)
    requires Wired(HandleClose(s, c))
    ensures Onces(HandleClose(s, c))
  {
    assert Once(s, c) && Life(s, c);
    CloseEffect(s, c);
    forall m | m in s.loops ensures RoundAllows(s, HandleClose(s, c), c, m) {
      assert RoundIntact(s, m) && RoundOnce(s, m);
      CloseAllowed(s, l, c, HandleClose(s, c), m);
    }
    OnceStep(s, HandleClose(s, c), c);
  }

  // ---------------------------------------------------------------- functors and user steps

  /** The pollers are those of `m`, where only the channel of c changed. */
  lemma UntouchedThrough(s: Server, m: Server, s': Server, c: Id)
    requires InPoller(s, c) && OnlyChannel(s, m, c) && SameRegistration(m, s')
    requires s'.conns == s.conns[c := s'.conns[c]]
    requires forall l :: l in s.loops && l in s'.loops ==>
               s'.loops[l].active == s.loops[l].active && s'.loops[l].handler == s.loops[l].handler
    ensures Untouched(s, s', c)
  {
    forall d | Knows(s', d) && d != c ensures Knows(s, d) && ChannelOf(s', d) == ChannelOf(s, d) {
      UntouchedAt(s, m, s', c, d);
    }
  }

  lemma UntouchedAt(s: Server, m: Server, s': Server, c: Id, d: Id)
    requires InPoller(s, c) && OnlyChannel(s, m, c) && SameRegistration(m, s')
    requires s'.conns == s.conns[c := s'.conns[c]] && Knows(s', d) && d != c
    ensures Knows(s, d) && ChannelOf(s', d) == ChannelOf(s, d)
  {
    assert s'.conns[d] == s.conns[d];
    assert s'.loops[s.conns[d].loop].poller == m.loops[s.conns[d].loop].poller;
  }

  /** The rounds are untouched, and so are the connections but c. */
  ghost predicate SameRounds(s: Server, s': Server, c: Id) {
    && s'.loops.Keys == s.loops.Keys && c in s'.conns && s'.conns == s.conns[c := s'.conns[c]]
    && forall m :: m in s.loops ==>
         s'.loops[m].active == s.loops[m].active && s'.loops[m].handler == s.loops[m].handler
  }

  lemma EstablishRounds(s: Server, c: Id)
    requires InPoller(s, c)
    ensures SameRounds(s, ConnectEstablished(s, c), c)
  {
  }

  lemma DestroyRounds(s: Server, c: Id)
    requires InPoller(s, c) && s.conns[c].st.Disconnected?
    ensures SameRounds(s, ConnectDestroyed(s, c), c)
  {
  }

  lemma EstablishEffect(s: Server, c: Id)
    requires InPoller(s, c) && Unregistered(s, c)
    ensures var s' := ConnectEstablished(s, c);
            Untouched(s, s', c) && Knows(s', c) && Once(s', c) && !IsDown(s', c)
  {
    EstablishRounds(s, c);
    EstablishSame(s, c);
    SetMaskEffect(s, c, READ_EVENT);
    UntouchedThrough(s, SetMask(s, c, READ_EVENT), ConnectEstablished(s, c), c);
  }

  lemma DestroyEffect(s: Server, c: Id)
    requires InPoller(s, c) && s.conns[c].st.Disconnected?
    ensures var s' := ConnectDestroyed(s, c);
            Untouched(s, s', c) && Knows(s', c) && IndexOf(s', c).New?
            && s'.conns[c].st == s.conns[c].st && s'.conns[c].downs == s.conns[c].downs
  {
    DestroyRounds(s, c);
    DestroySame(s, c);
    RemovedEffect(s, c);
    UntouchedThrough(s, Removed(s, c), ConnectDestroyed(s, c), c);
  }

  lemma AdvancedEffect(s: Server, l: LoopId)
    requires l in s.loops && s.loops[l].batch != []
    ensures SamePollers(s, WithLoop(s, l, Advanced(s.loops[l])))
    ensures forall c :: Untouched(s, WithLoop(s, l, Advanced(s.loops[l])), c)
  {
    var s0 := WithLoop(s, l, Advanced(s.loops[l]));
    forall c ensures Untouched(s, s0, c) {
      PlainUntouched(s, s0, c);
    }
  }

  lemma OnceEstablished(s: Server, l: LoopId, c: Id)
    requires OnceInv(s) && Runs(s, l, Established(c))
    ensures InPoller(s, c) && Onces(ApplyFunctor(s, l))
  {
    RunsOn(s, l, Established(c));
    EstablishedKeeps(s, l, c);
    AdvancedEffect(s, l);
    EstablishEffect(WithLoop(s, l, Advanced(s.loops[l])), c);
    UntouchedTrans(s, WithLoop(s, l, Advanced(s.loops[l])), ApplyFunctor(s, l), c);
    OnceStep(s, ApplyFunctor(s, l), c);
  }

  lemma OnceDestroyed(s: Server, l: LoopId, c: Id)
    requires OnceInv(s) && Runs(s, l, Destroyed(c))
    ensures InPoller(s, c) && Onces(ApplyFunctor(s, l))
  {
    RunsOn(s, l, Destroyed(c));
    DestroyedKeeps(s, l, c);
    assert IsDown(s, c) && Once(s, c);
    AdvancedEffect(s, l);
    DestroyEffect(WithLoop(s, l, Advanced(s.loops[l])), c);
    UntouchedTrans(s, WithLoop(s, l, Advanced(s.loops[l])), ApplyFunctor(s, l), c);
    OnceStep(s, ApplyFunctor(s, l), c);
  }

  lemma OnceQuietFunctor(s: Server, l: LoopId, f: Functor)
    requires OnceInv(s) && Runs(s, l, f) && (f.Other? || f.Raw? || f.RemoveInLoop?) && !Stray(s, f)
    ensures InPoller(s, f.c) && Onces(ApplyFunctor(s, l))
  {
    RunsOn(s, l, f);
    AdvancedEffect(s, l);
    var s0 := WithLoop(s, l, Advanced(s.loops[l]));
    OncePlain(s, s0);
    if f.RemoveInLoop? {
      RemovalEffect(s0, f.c);
      OncePlain(s0, RemoveConnectionInLoop(s0, f.c));
    }
  }

  lemma RemovalEffect(s: Server, c: Id)
    requires Knows(s, c)
    ensures SamePollers(s, RemoveConnectionInLoop(s, c))
  {
  }

  ghost predicate SamePollers(s: Server, s': Server) {
    && s'.conns == s.conns && s'.loops.Keys == s.loops.Keys
    && forall l :: l in s.loops ==>
         s'.loops[l].poller == s.loops[l].poller && s'.loops[l].active == s.loops[l].active
         && s'.loops[l].handler == s.loops[l].handler
  }

  lemma OnceFunctor(s: Server, l: LoopId, f: Functor)
    requires OnceInv(s) && Runs(s, l, f) && !Stray(s, f)
    ensures InPoller(s, f.c) && Onces(ApplyFunctor(s, l))
  {
    match f
    case Established(c) => OnceEstablished(s, l, c);
    case Destroyed(c) => OnceDestroyed(s, l, c);
    case _ => OnceQuietFunctor(s, l, f);
  }

  lemma OnceToggle(s: Server, c: Id, mask: set<Ev>)
    requires OnceInv(s) && Knows(s, c) && s.conns[c].alive && mask != {}
    requires s.conns[c].st.Connected? || s.conns[c].st.Disconnecting?
    ensures InPoller(s, c) && Onces(SetMask(s, c, mask))
  {
    ToggleKeeps(s, c, mask);
    assert Once(s, c);
    ToggleEffect(s, c, mask);
    OnceStep(s, SetMask(s, c, mask), c);
  }

  lemma ToggleEffect(s: Server, c: Id, mask: set<Ev>)
    requires InPoller(s, c) && IndexOf(s, c).Added? && mask != {}
    ensures var s' := SetMask(s, c, mask);
            Untouched(s, s', c) && s'.conns == s.conns && Knows(s', c) && IndexOf(s', c).Added?
  {
    var s' := SetMask(s, c, mask);
    SetMaskEffect(s, c, mask);
    assert SameRegistration(s', s');
    assert s.conns[c := s.conns[c]] == s.conns;
    UntouchedThrough(s, s', s', c);
  }

  lemma OnceShutdown(s: Server, c: Id)
    requires OnceInv(s) && Knows(s, c) && s.conns[c].st.Connected?
    ensures Onces(WithConn(s, c, s.conns[c].(st := ConnectionModel.Disconnecting)))
  {
    var s' := WithConn(s, c, s.conns[c].(st := ConnectionModel.Disconnecting));
    ShutdownKeeps(s, c);
    assert Once(s, c);
    ShutdownEffect(s, c);
    OnceStep(s, s', c);
  }

  lemma ShutdownEffect(s: Server, c: Id)
    requires Knows(s, c)
    ensures var s' := WithConn(s, c, s.conns[c].(st := ConnectionModel.Disconnecting));
            Untouched(s, s', c) && Knows(s', c) && ChannelOf(s', c) == ChannelOf(s, c)
  {
    var s' := WithConn(s, c, s.conns[c].(st := ConnectionModel.Disconnecting));
    assert forall d :: Knows(s', d) ==> InPoller(s', d) == InPoller(s, d);
  }

  lemma OnceReap(s: Server, c: Id)
    requires OnceInv(s) && c in s.conns && s.conns[c].alive && !Held(s, c)
    ensures InPoller(s, c) && Onces(ApplyReap(s, c))
  {
    ReapKeeps(s, c);
    UnheldIsTornDown(s, c);
    assert Life(s, c) && Once(s, c);
    ReapEffect(s, c);
    OnceStep(s, ApplyReap(s, c), c);
  }

  lemma ReapEffect(s: Server, c: Id)
    requires InPoller(s, c)
    ensures var s' := ApplyReap(s, c);
            Untouched(s, s', c) && Knows(s', c) && !InPoller(s', c)
  {
  }

  /** Queues, the map and user references play no part. */
  lemma OncePlain(s: Server, s': Server)
    requires Onces(s) && SamePollers(s, s')
    ensures Onces(s')
  {
    forall d | Knows(s', d) ensures Once(s', d) {
      assert Once(s, d) && IndexOf(s', d) == IndexOf(s, d);
    }
    forall l | l in s'.loops ensures RoundOnce(s', l) {
      assert RoundOnce(s, l);
    }
  }

  lemma OnceAccept(s: Server, fd: int, io: LoopId)
    requires OnceInv(s) && io in s.loops
    requires forall c :: c in s.conns && s.conns[c].alive ==> s.conns[c].fd != fd
    ensures Onces(ApplyAccept(s, fd, io))
  {
    AcceptKeeps(s, fd, io);
    AcceptEffect(s, fd, io);
    OnceStep(s, ApplyAccept(s, fd, io), s.nextConnId);
  }

  lemma BornEffect(s: Server, fd: int, io: LoopId)
    requires io in s.loops && BASE in s.loops && s.nextConnId !in s.conns
    ensures Untouched(s, Born(s, fd, io), s.nextConnId)
  {
    var s' := Born(s, fd, io);
    forall d | Knows(s', d) && d != s.nextConnId ensures Knows(s, d) && ChannelOf(s', d) == ChannelOf(s, d) {
      assert s'.conns[d] == s.conns[d];
    }
  }

  lemma AcceptEffect(s: Server, fd: int, io: LoopId)
    requires io in s.loops && BASE in s.loops && s.nextConnId !in s.conns
    ensures var s' := ApplyAccept(s, fd, io);
            Untouched(s, s', s.nextConnId) && Knows(s', s.nextConnId) && Once(s', s.nextConnId)
            && !IsDown(s', s.nextConnId)
  {
    hide Untouched, SetEvents, ConnectEstablished;
    var c := s.nextConnId;
    var s1 := Born(s, fd, io);
    BornEffect(s, fd, io);
    if io == BASE {
      EstablishEffect(s1, c);
      UntouchedTrans(s, s1, ConnectEstablished(s1, c), c);
    } else {
      assert SamePollers(s1, Push(s1, io, Established(c)));
      PlainUntouched(s1, Push(s1, io, Established(c)), c);
      UntouchedTrans(s, s1, Push(s1, io, Established(c)), c);
    }
  }

  lemma PlainUntouched(s: Server, s': Server, c: Id)
    requires SamePollers(s, s')
    ensures Untouched(s, s', c)
  {
    assert forall d :: Knows(s', d) ==> Knows(s, d) && ChannelOf(s', d) == ChannelOf(s, d);
  }

  lemma UntouchedTrans(s: Server, m: Server, s': Server, c: Id)
    requires Untouched(s, m, c) && Untouched(m, s', c)
    ensures Untouched(s, s', c)
  {
  }

  // ---------------------------------------------------------------- all steps

  lemma OnceLoopStep(s: Server, step: Step)
    requires OnceInv(s) && Enabled(s, step) && Safe(s, step) && !ReadsTwice(s, step) && !RunsStray(s, step)
    requires step.Poll? || step.Pick? || step.RunCallback? || step.RunFunctor?
    ensures Onces(Apply(s, step))
  {
    hide OnceInv, Onces;
    match step
    case Poll(l, report) => OncePoll(s, l, report);
    case Pick(l) => OnceInvOnces(s); OncePick(s, l);
    case RunCallback(l, eof) => OnceCallback(s, l, eof);
    case RunFunctor(l) => OnceFunctor(s, l, s.loops[l].batch[0]);
  }

  lemma OnceInvOnces(s: Server)
    requires OnceInv(s)
    ensures Inv(s) && Onces(s)
  {
    hide Inv, Onces;
  }

  lemma OnceUserStep(s: Server, step: Step)
    requires OnceInv(s) && Enabled(s, step) && Safe(s, step)
    requires step.Accept? || step.Toggle? || step.Shutdown? || step.Begin? || step.Reap?
    ensures Onces(Apply(s, step))
  {
    hide OnceInv, Onces;
    match step
    case Accept(fd, io) => OnceAccept(s, fd, io);
    case Toggle(c, mask) =>
      assert In in mask;
      OnceToggle(s, c, mask);
    case Shutdown(c) => OnceShutdown(s, c);
    case Begin(t, c, half) => OnceBegin(s, t, c, half);
    case Reap(c) => OnceReap(s, c);
  }

  lemma OnceBegin(s: Server, t: Thread, c: Id, half: bool)
    requires OnceInv(s) && Knows(s, c) && s.conns[c].st.Connected?
    ensures Onces(ApplyBegin(s, t, c, half))
  {
    hide OnceInv, Onces;
    OnceInvOnces(s);
    var s1 := if half then WithConn(s, c, s.conns[c].(st := ConnectionModel.Disconnecting)) else s;
    if half {
      OnceShutdown(s, c);
    }
    OncePlain(s1, ApplyBegin(s, t, c, half));
  }

  lemma OnceEndHandler(s: Server, l: LoopId)
    requires Onces(s) && l in s.loops
    ensures Onces(WithLoop(s, l, s.loops[l].(handler := NoHandler)))
  {
    assert RoundOnce(s, l);
    OnceLoop(s, l, s.loops[l].(handler := NoHandler));
  }

  predicate Quiet(step: Step) {
    step.Swap? || step.EndBatch? || step.Queue? || step.Post? || step.Release? || step.TakeRef? || step.DropRef?
  }

  lemma QuietStep(s: Server, step: Step)
    requires Enabled(s, step) && Safe(s, step) && Quiet(step)
    ensures SamePollers(s, Apply(s, step))
  {
    hide Held, Touchable;
  }

  lemma OnceQuietStep(s: Server, step: Step)
    requires Onces(s) && Enabled(s, step) && Safe(s, step) && (step.EndHandler? || Quiet(step))
    ensures Onces(Apply(s, step))
  {
    hide Onces;
    if step.EndHandler? {
      OnceEndHandler(s, step.l);
    } else {
      QuietStep(s, step);
      OncePlain(s, Apply(s, step));
    }
  }

  lemma OnceKeeps(s: Server, step: Step)
    requires OnceInv(s) && Enabled(s, step) && !ReadsTwice(s, step)
    ensures OnceInv(Apply(s, step))
  {
    hide Inv, Onces, ReadsTwice, Enabled;
    StepKeeps(s, step);
    if RunsStray(s, step) {
      OncePlain(s, Apply(s, step));
    } else if step.Poll? || step.Pick? || step.RunCallback? || step.RunFunctor? {
      OnceLoopStep(s, step);
    } else if step.Accept? || step.Toggle? || step.Shutdown? || step.Begin? || step.Reap? {
      OnceUserStep(s, step);
    } else {
      OnceQuietStep(s, step);
    }
  }

  lemma OnceInitially(s: Server)
    requires Init(s)
    ensures OnceInv(s)
  {
  }

  /**
   As long as no event reads end of stream after its own close callback, a connection is reported down
   exactly once when it is down, and never again.
   */
  lemma DownAtMostOnce(run: seq<Server>, i: nat, c: Id)
    requires Behaviors.IsBehavior(Init, OnceNext, run) && i < |run| && c in run[i].conns
    ensures run[i].conns[c].downs == (if run[i].conns[c].st.Disconnected? then 1 else 0)
    ensures run[i].conns[c].downs <= run[i].conns[c].ups
  {
    forall s | Init(s) ensures OnceInv(s) {
      OnceInitially(s);
    }
    forall s, s' | OnceInv(s) && OnceNext(s, s') ensures OnceInv(s') {
      var step :| Enabled(s, step) && !ReadsTwice(s, step) && s' == Apply(s, step);
      OnceKeeps(s, step);
    }
    Behaviors.InvariantHolds(Init, OnceNext, OnceInv, run, i);
    OnceCounts(run[i], c);
  }

  lemma OnceCounts(s: Server, c: Id)
    requires OnceInv(s) && c in s.conns
    ensures s.conns[c].downs == (if s.conns[c].st.Disconnected? then 1 else 0)
    ensures s.conns[c].downs <= s.conns[c].ups
  {
    assert Knows(s, c) && Once(s, c) && Life(s, c);
  }
}
