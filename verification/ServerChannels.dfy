/** What becomes of a connection and of its channel over a run: it only gets older, and it listens while it is up. */
module ServerChannels {
  import opened PollerModel
  import opened ServerModel
  import opened ServerProofs
  import opened ServerSteps
  import opened ServerCallbacks
  import ConnectionModel
  import Behaviors

  predicate Up(k: Conn) {
    k.st.Connected? || k.st.Disconnecting?
  }

  /** A channel listens for input exactly while its connection is up, and for nothing otherwise. */
  predicate Listens(s: Server, c: Id)
    requires Knows(s, c)
  {
    var ch := ChannelOf(s, c);
    if Up(s.conns[c]) then ch.index.Added? && READ_EVENT <= ch.events else ch.events == {}
  }

  ghost predicate AllListen(s: Server) {
    forall c :: Knows(s, c) ==> Listens(s, c)
  }

  function Rank(st: ConnState): nat {
    match st case Connecting => 0 case Connected => 1 case Disconnecting => 2 case Disconnected => 3
  }

  /** The same object, further on in its life. */
  predicate Older(k: Conn, k': Conn) {
    && k'.fd == k.fd && k'.loop == k.loop && (k'.alive ==> k.alive)
    && Rank(k.st) <= Rank(k'.st) && k.ups <= k'.ups && k.downs <= k'.downs && k.destroys <= k'.destroys
  }

  ghost predicate Ages(s: Server, s': Server) {
    forall c :: c in s.conns ==> c in s'.conns && Older(s.conns[c], s'.conns[c])
  }

  /** The general step: one connection moves on. */
  ghost predicate Moves(s: Server, s': Server, c: Id) {
    && Untouched(s, s', c) && (Knows(s', c) ==> Listens(s', c))
    && (c in s.conns && c in s'.conns ==> Older(s.conns[c], s'.conns[c]))
  }

  ghost predicate Fine(s: Server, s': Server) {
    AllListen(s') && Ages(s, s')
  }

  lemma MovesFine(s: Server, s': Server, c: Id)
    requires Inv(s) && Inv(s') && AllListen(s) && Moves(s, s', c)
    ensures Fine(s, s')
  {
    hide PollersSimulate, FdsDistinct, Owned, Bound;
    forall d | Knows(s', d) ensures Listens(s', d) {
      if d != c {
        assert Listens(s, d);
      }
    }
    forall d | d in s.conns ensures d in s'.conns && Older(s.conns[d], s'.conns[d]) {
      assert Knows(s', d);
    }
  }

  /** The loop has moved on in its round or its queues. */
  lemma LoopFine(s: Server, l: LoopId, q': Loop)
    requires AllListen(s) && l in s.loops && q'.poller == s.loops[l].poller
    ensures Fine(s, WithLoop(s, l, q'))
  {
    var s' := WithLoop(s, l, q');
    forall d | Knows(s', d) ensures Listens(s', d) {
      assert Listens(s, d) && ChannelOf(s', d) == ChannelOf(s, d);
    }
  }

  lemma PlainFine(s: Server, s': Server)
    requires AllListen(s) && SamePollers(s, s')
    ensures Fine(s, s')
  {
    forall d | Knows(s', d) ensures Listens(s', d) {
      assert Listens(s, d) && ChannelOf(s', d) == ChannelOf(s, d);
    }
  }

  lemma FineTrans(s: Server, m: Server, s': Server)
    requires Ages(s, m) && Fine(m, s')
    ensures Fine(s, s')
  {
  }

  // ---------------------------------------------------------------- steps

  lemma CloseMoves(s: Server, c: Id)
    requires InPoller(s, c)
    ensures Moves(s, HandleClose(s, c), c)
  {
    CloseEffect(s, c);
    hide HandleClose, Untouched, SetMask;
  }

  lemma EstablishMoves(s: Server, c: Id)
    requires InPoller(s, c) && s.conns[c].st.Connecting?
    ensures Moves(s, ConnectEstablished(s, c), c)
  {
    EstablishRounds(s, c);
    EstablishSame(s, c);
    SetMaskEffect(s, c, READ_EVENT);
    UntouchedThrough(s, SetMask(s, c, READ_EVENT), ConnectEstablished(s, c), c);
    hide SetEvents, Untouched;
    assert In in READ_EVENT;
    SetEventsAt(s.loops[s.conns[c].loop].poller, c, READ_EVENT);
    SetEventsLocal(s.loops[s.conns[c].loop].poller, c, READ_EVENT);
  }

  lemma DestroyMoves(s: Server, c: Id)
    requires InPoller(s, c) && s.conns[c].st.Disconnected? && Listens(s, c)
    ensures Moves(s, ConnectDestroyed(s, c), c)
  {
    DestroyEffect(s, c);
    hide Untouched;
  }

  lemma ToggleMoves(s: Server, c: Id, mask: set<Ev>)
    requires InPoller(s, c) && Up(s.conns[c]) && READ_EVENT <= mask
    ensures Moves(s, SetMask(s, c, mask), c)
  {
    var s' := SetMask(s, c, mask);
    SetMaskEffect(s, c, mask);
    assert SameRegistration(s', s');
    assert s.conns[c := s.conns[c]] == s.conns;
    UntouchedThrough(s, s', s', c);
    hide SetEvents, Untouched;
    assert In in READ_EVENT && In in mask;
    SetEventsAt(s.loops[s.conns[c].loop].poller, c, mask);
  }

  lemma ShutdownMoves(s: Server, c: Id)
    requires Knows(s, c) && s.conns[c].st.Connected? && Listens(s, c)
    ensures Moves(s, WithConn(s, c, s.conns[c].(st := ConnectionModel.Disconnecting)), c)
  {
    ShutdownEffect(s, c);
    hide Untouched;
  }

  lemma ReapMoves(s: Server, c: Id)
    requires InPoller(s, c) && s.conns[c].st.Disconnected?
    ensures Moves(s, ApplyReap(s, c), c)
  {
    ReapEffect(s, c);
    hide Untouched;
  }

  lemma AcceptMoves(s: Server, fd: int, io: LoopId)
    requires io in s.loops && BASE in s.loops && s.nextConnId !in s.conns
    ensures Moves(s, ApplyAccept(s, fd, io), s.nextConnId)
  {
    var c := s.nextConnId;
    AcceptEffect(s, fd, io);
    var s1 := Born(s, fd, io);
    assert Listens(ApplyAccept(s, fd, io), c) by {
      hide Untouched;
      if io == BASE {
        EstablishMoves(s1, c);
        hide ConnectEstablished;
      }
    }
    hide Untouched, ApplyAccept;
  }

  lemma CallbackFine(s: Server, l: LoopId, eof: bool)
    requires Inv(s) && AllListen(s) && l in s.loops && s.loops[l].handler.Handling? && s.loops[l].handler.todo != []
    ensures InPoller(s, s.loops[l].handler.c) && Fine(s, ApplyCallback(s, l, eof))
  {
    hide Inv, AllListen, HandleClose, Fine, Ages, Moves;
    CallbackKeeps(s, l, eof);
    var h := s.loops[l].handler;
    LoopFine(s, l, s.loops[l].(handler := Advance(h)));
    var s1 := Popped(s, l);
    assert AllListen(s1) && Ages(s, s1) by { FineParts(s, s1); }
    if h.todo[0].Close? || (h.todo[0].Read? && eof) {
      HandlerKeeps(s, l, Advance(h));
      CloseMoves(s1, h.c);
      MovesFine(s1, HandleClose(s1, h.c), h.c);
      FineTrans(s, s1, HandleClose(s1, h.c));
    }
  }

  lemma FineParts(s: Server, s': Server)
    requires Fine(s, s')
    ensures AllListen(s') && Ages(s, s')
  {
  }

  lemma FunctorMoves(s: Server, l: LoopId, g: Functor)
    requires Inv(s) && AllListen(s) && Runs(s, l, g) && (g.Established? || g.Destroyed?)
    ensures InPoller(s, g.c) && Moves(s, ApplyFunctor(s, l), g.c)
  {
    RunsOn(s, l, g);
    assert g.Established? ==> s.conns[g.c].st.Connecting?;
    assert g.Destroyed? ==> s.conns[g.c].st.Disconnected?;
    hide Inv, Life, FdIsFree, Untouched, ConnectEstablished, ConnectDestroyed;
    AdvancedEffect(s, l);
    var s0 := WithLoop(s, l, Advanced(s.loops[l]));
    PlainFine(s, s0);
    if g.Established? {
      EstablishMoves(s0, g.c);
    } else {
      DestroyMoves(s0, g.c);
    }
    UntouchedTrans(s, s0, ApplyFunctor(s, l), g.c);
  }

  lemma FunctorFine(s: Server, l: LoopId, g: Functor)
    requires Inv(s) && AllListen(s) && Runs(s, l, g) && !Stray(s, g)
    ensures InPoller(s, g.c) && Fine(s, ApplyFunctor(s, l))
  {
    hide Inv, AllListen, Fine, Moves, Ages, SamePollers, Untouched, FdIsFree, Life, ConnectEstablished, ConnectDestroyed;
    RunsOn(s, l, g);
    if g.Established? || g.Destroyed? {
      FunctorMoves(s, l, g);
      FunctorKeeps(s, l, g);
      MovesFine(s, ApplyFunctor(s, l), g.c);
    } else {
      AdvancedEffect(s, l);
      var s0 := WithLoop(s, l, Advanced(s.loops[l]));
      PlainFine(s, s0);
      FineParts(s, s0);
      if g.RemoveInLoop? {
        RemovalEffect(s0, g.c);
        PlainFine(s0, RemoveConnectionInLoop(s0, g.c));
        FineTrans(s, s0, RemoveConnectionInLoop(s0, g.c));
      }
    }
  }

  lemma BeginFine(s: Server, t: Thread, c: Id, half: bool)
    requires Inv(s) && AllListen(s) && Knows(s, c) && s.conns[c].st.Connected?
    ensures Fine(s, ApplyBegin(s, t, c, half))
  {
    var s1 := if half then WithConn(s, c, s.conns[c].(st := ConnectionModel.Disconnecting)) else s;
    if half {
      assert Listens(s, c);
      ShutdownMoves(s, c);
      ShutdownKeeps(s, c);
      MovesFine(s, s1, c);
    }
    PlainFine(s1, ApplyBegin(s, t, c, half));
  }

  /** One connection moves on in these steps, and the invariant stays. */
  lemma UserMoves(s: Server, step: Step, c: Id)
    requires Inv(s) && AllListen(s) && Enabled(s, step) && Safe(s, step)
    requires match step
             case Accept(_, _) => c == s.nextConnId
             case Toggle(d, _) => c == d
             case Shutdown(d) => c == d
             case Reap(d) => c == d
             case _ => false
    ensures Moves(s, Apply(s, step), c)
  {
    match step
    case Accept(fd, io) =>
      hide Moves, ApplyAccept, Inv;
      CallsFit(s);
      AcceptMoves(s, fd, io);
    case Toggle(d, mask) =>
      hide Moves, Inv, SetMask, Held;
      ToggleMoves(s, d, mask);
    case Shutdown(d) =>
      hide Moves, Inv, Held;
      assert Listens(s, d);
      ShutdownMoves(s, d);
    case Reap(d) =>
      ReapIsDown(s, d);
      hide Moves, Inv, Held;
      ReapMoves(s, d);
  }

  lemma ReapIsDown(s: Server, c: Id)
    requires Inv(s) && c in s.conns && !Held(s, c)
    ensures Knows(s, c) && s.conns[c].st.Disconnected?
  {
    hide Registered, Held, PointersFit, RoundsIntact;
    assert Knows(s, c) by { hide Owned; KnowsAll(s, c); }
    assert Life(s, c);
    UnheldIsTornDown(s, c);
  }

  lemma KnowsAll(s: Server, c: Id)
    requires Inv(s) && c in s.conns
    ensures Knows(s, c)
  {
  }

  lemma LoopStepFine(s: Server, step: Step)
    requires AllListen(s) && Enabled(s, step) && Safe(s, step)
    requires step.Poll? || step.Pick? || step.EndHandler? || step.Swap? || step.EndBatch?
    ensures Fine(s, Apply(s, step))
  {
    hide AllListen, Fine, Touchable, Reported, Callbacks;
    match step
    case Poll(l, report) => LoopFine(s, l, s.loops[l].(phase := Dispatching, active := report));
    case Pick(l) => LoopFine(s, l, Picked(s.loops[l]));
    case EndHandler(l) => LoopFine(s, l, s.loops[l].(handler := NoHandler));
    case Swap(l) => LoopFine(s, l, s.loops[l].(phase := Calling, batch := s.loops[l].pending, pending := []));
    case EndBatch(l) => LoopFine(s, l, s.loops[l].(phase := Polling, done := []));
  }

  lemma StepFine(s: Server, step: Step)
    requires Inv(s) && AllListen(s) && Enabled(s, step)
    ensures Fine(s, Apply(s, step))
  {
    hide Inv, AllListen, Fine, Enabled, Moves;
    StepKeeps(s, step);
    if RunsStray(s, step) {
      PlainFine(s, Apply(s, step));
    } else if step.RunCallback? {
      assert Enabled(s, step);
      CallbackStepFine(s, step);
    } else if step.RunFunctor? {
      FunctorStepFine(s, step);
    } else if step.Begin? {
      BeginStepFine(s, step);
    } else if step.Accept? || step.Toggle? || step.Shutdown? || step.Reap? {
      var c := if step.Accept? then s.nextConnId else step.c;
      UserMoves(s, step, c);
      MovesFine(s, Apply(s, step), c);
    } else if Quiet(step) && !step.Swap? && !step.EndBatch? {
      QuietStep(s, step);
      PlainFine(s, Apply(s, step));
    } else {
      LoopStepFine(s, step);
    }
  }

  lemma CallbackStepFine(s: Server, step: Step)
    requires Inv(s) && AllListen(s) && Enabled(s, step) && Safe(s, step) && step.RunCallback?
    ensures Fine(s, Apply(s, step))
  {
    hide Inv, AllListen, Fine, Touchable, ApplyCallback;
    CallbackFine(s, step.l, step.eof);
  }

  lemma FunctorStepFine(s: Server, step: Step)
    requires Inv(s) && AllListen(s) && Enabled(s, step) && Safe(s, step) && step.RunFunctor? && !RunsStray(s, step)
    ensures Fine(s, Apply(s, step))
  {
    hide Inv, AllListen, Fine, Touchable, ApplyFunctor;
    FunctorFine(s, step.l, s.loops[step.l].batch[0]);
  }

  lemma BeginStepFine(s: Server, step: Step)
    requires Inv(s) && AllListen(s) && Enabled(s, step) && step.Begin?
    ensures Fine(s, Apply(s, step))
  {
    hide Inv, AllListen, Fine, Held, ApplyBegin;
    BeginFine(s, step.t, step.c, step.half);
  }

  // ---------------------------------------------------------------- over whole runs

  ghost predicate ListenInv(s: Server) {
    Inv(s) && AllListen(s)
  }

  lemma ListenInductive()
    ensures Behaviors.IsInductive(Init, Next, ListenInv)
  {
    Inductive();
    hide Inv;
    forall s | Init(s) ensures ListenInv(s) {
      assert Inv(s);
    }
    hide AllListen, Init;
    forall s, s' | ListenInv(s) && Next(s, s') ensures ListenInv(s') {
      var step :| Enabled(s, step) && s' == Apply(s, step);
      StepKeeps(s, step);
      StepFine(s, step);
    }
  }

  lemma AlwaysListens(run: seq<Server>, i: nat)
    requires Behaviors.IsBehavior(Init, Next, run) && i < |run|
    ensures ListenInv(run[i])
  {
    hide ListenInv, Init, Next;
    ListenInductive();
    Behaviors.InvariantHolds(Init, Next, ListenInv, run, i);
  }

  lemma ListensInKernel(s: Server, c: Id)
    requires ListenInv(s) && c in s.conns
    ensures s.conns[c].loop in s.loops
    ensures var k := s.conns[c]; var kernel := s.loops[k.loop].poller.kernel;
            if Up(k) then k.fd in kernel && kernel[k.fd].chan == c && READ_EVENT <= kernel[k.fd].mask
            else forall fd :: fd in kernel && kernel[fd].chan == c ==> kernel[fd].mask == {}
  {
    hide Owned, FdsDistinct;
    assert Knows(s, c) && Listens(s, c);
    var p := s.loops[s.conns[c].loop].poller;
    assert Simulates(p);
    if Up(s.conns[c]) {
      assert IndexMatches(p, c);
    } else {
      forall fd | fd in p.kernel && p.kernel[fd].chan == c ensures p.kernel[fd].mask == {} {
        assert IndexMatches(p, c);
      }
    }
  }

  /**
   Over every run: the kernel watches the descriptor of a connection for input, on the loop of that
   connection, exactly while it is up; before and after that it is asked for nothing.
   */
  lemma UpIsReading(run: seq<Server>, i: nat, c: Id)
    requires Behaviors.IsBehavior(Init, Next, run) && i < |run| && c in run[i].conns
    ensures run[i].conns[c].loop in run[i].loops
    ensures var k := run[i].conns[c]; var kernel := run[i].loops[k.loop].poller.kernel;
            if Up(k) then k.fd in kernel && kernel[k.fd].chan == c && READ_EVENT <= kernel[k.fd].mask
            else forall fd :: fd in kernel && kernel[fd].chan == c ==> kernel[fd].mask == {}
  {
    AlwaysListens(run, i);
    ListensInKernel(run[i], c);
  }

  lemma NextAges(s: Server, s': Server)
    requires ListenInv(s) && Next(s, s')
    ensures Ages(s, s')
  {
    hide Inv, AllListen, Enabled;
    var step :| Enabled(s, step) && s' == Apply(s, step);
    StepFine(s, step);
  }

  /** No connection is forgotten, comes back to life, or goes back in its states; each keeps its loop and descriptor. */
  lemma {:induction false} NeverBack(run: seq<Server>, i: nat, j: nat)
    requires Behaviors.IsBehavior(Init, Next, run) && i <= j < |run|
    ensures Ages(run[i], run[j])
    decreases j
  {
    hide ListenInv, Init, Next;
    if i < j {
      NeverBack(run, i, j - 1);
      AlwaysListens(run, j - 1);
      assert Next(run[j - 1], run[j]);
      NextAges(run[j - 1], run[j]);
    }
  }

  /**
   What user code does to a connection: a send sets the interest the kernel holds to just what it asks for, and
   a half-close, from any thread, leaves the state in which no more is sent.
   */
  lemma UserCallsMean(s: Server, step: Step)
    requires Inv(s) && Enabled(s, step)
    ensures step.Toggle? ==>
              var s' := Apply(s, step); var k := s.conns[step.c];
              k.loop in s'.loops && k.fd in s'.loops[k.loop].poller.kernel
              && s'.loops[k.loop].poller.kernel[k.fd] == Interest(step.mask, step.c) && s'.conns == s.conns
    ensures step.Shutdown? || (step.Begin? && step.half) ==>
              s.conns[step.c].st.Connected? && Apply(s, step).conns[step.c].st.Disconnecting?
    ensures step.Begin? && !step.half ==> Apply(s, step).conns == s.conns
  {
    hide Inv, Held, FdIsFree;
    StepKeeps(s, step);
    if step.Toggle? {
      ToggleInKernel(s, step.c, step.mask);
    }
  }

  lemma ToggleInKernel(s: Server, c: Id, mask: set<Ev>)
    requires InPoller(s, c) && mask != {} && Inv(s) && Inv(SetMask(s, c, mask)) && s.conns[c].alive
    ensures var s' := SetMask(s, c, mask); var k := s.conns[c];
            k.loop in s'.loops && k.fd in s'.loops[k.loop].poller.kernel
            && s'.loops[k.loop].poller.kernel[k.fd] == Interest(mask, c) && s'.conns == s.conns
  {
    var s' := SetMask(s, c, mask);
    hide SetEvents, Owned, FdsDistinct;
    var p := s.loops[s.conns[c].loop].poller;
    SetEventsAt(p, c, mask);
    var p' := s'.loops[s.conns[c].loop].poller;
    assert Simulates(p') && InPoller(s', c);
    assert IndexMatches(p', c);
  }
}
