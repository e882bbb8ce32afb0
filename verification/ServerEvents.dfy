/** Which events report a connection down more than once. */
module ServerEvents {
  import opened PollerModel
  import opened ServerModel
  import opened ServerProofs
  import opened ServerSteps
  import opened ServerCallbacks
  import ConnectionModel
  import Behaviors

  // ---------------------------------------------------------------- one event

  /** How many of the callbacks close the connection, when reads find end of stream or not. */
  function Closings(todo: seq<Callback>, eof: bool): nat {
    if todo == [] then 0
    else (if todo[0].Close? || (todo[0].Read? && eof) then 1 else 0) + Closings(todo[1..], eof)
  }

  predicate Handles(s: Server, l: LoopId, c: Id) {
    l in s.loops && s.loops[l].handler.Handling? && s.loops[l].handler.c == c
  }

  lemma CallbackDowns(s: Server, l: LoopId, c: Id, eof: bool)
    requires Handles(s, l, c) && s.loops[l].handler.todo != [] && InPoller(s, c)
    ensures var s' := ApplyCallback(s, l, eof); var cb := s.loops[l].handler.todo[0];
            && Handles(s', l, c) && s'.loops[l].handler.todo == s.loops[l].handler.todo[1..] && c in s'.conns
            && s'.conns[c].downs == s.conns[c].downs + if cb.Close? || (cb.Read? && eof) then 1 else 0
  {
    NotifyEffect(Popped(s, l), c);
  }

  lemma HandlingDispatches(s: Server, l: LoopId)
    requires Inv(s) && l in s.loops && s.loops[l].handler.Handling?
    ensures s.loops[l].phase.Dispatching? && s.loops[l].handler.c in s.conns
  {
    hide Registered, PointersFit, Lives;
    assert RoundIntact(s, l);
  }

  /** A callback of the event being handled is a step of its loop. */
  lemma CallbackIsStep(s: Server, l: LoopId, c: Id, eof: bool)
    requires Inv(s) && Handles(s, l, c) && s.loops[l].handler.todo != []
    ensures InPoller(s, c) && Next(s, ApplyCallback(s, l, eof)) && Inv(ApplyCallback(s, l, eof))
  {
    hide Inv, FdIsFree, ApplyCallback;
    HandlingDispatches(s, l);
    var step := RunCallback(l, eof);
    assert Enabled(s, step);
    StepKeeps(s, step);
    CallbackKeeps(s, l, eof);
  }

  /** The rest of one event, callback by callback, every read with the same outcome. */
  lemma EventRun(s: Server, l: LoopId, c: Id, eof: bool) returns (path: seq<Server>)
    requires Inv(s) && Handles(s, l, c)
    ensures Behaviors.IsPath(Next, path) && path[0] == s
    ensures var s' := path[|path| - 1];
            && Handles(s', l, c) && s'.loops[l].handler.todo == [] && c in s.conns && c in s'.conns
            && s'.conns[c].downs == s.conns[c].downs + Closings(s.loops[l].handler.todo, eof)
    decreases |s.loops[l].handler.todo|
  {
    assert c in s.conns by { assert RoundIntact(s, l); }
    hide Inv, Next;
    path := [s];
    if s.loops[l].handler.todo != [] {
      CallbackIsStep(s, l, c, eof);
      CallbackDowns(s, l, c, eof);
      hide ApplyCallback;
      var rest := EventRun(ApplyCallback(s, l, eof), l, c, eof);
      Behaviors.Precede(Next, s, rest);
      path := [s] + rest;
    }
  }

  /** The callbacks of a mask, by what can close the connection. */
  lemma CallbackClosings(revents: set<Ev>, eof: bool)
    ensures Closings(Callbacks(revents), eof) ==
            (if Hup in revents && In !in revents then 1 else 0)
            + (if eof && revents * {In, Pri, RdHup} != {} then 1 else 0)
  {
    var close := if Hup in revents && In !in revents then [Close] else [];
    var error := if Err in revents then [Error] else [];
    var read := if revents * {In, Pri, RdHup} != {} then [Read] else [];
    var write := if Out in revents then [Write] else [];
    ClosingsOfSum(close + error + read, write, eof);
    ClosingsOfSum(close + error, read, eof);
    ClosingsOfSum(close, error, eof);
  }

  /** At end of stream a mask's callbacks close more than once exactly when it is not tame. */
  lemma TameExactly(revents: set<Ev>)
    ensures Closings(Callbacks(revents), true) <= 1 <==> Tame(revents)
    ensures Closings(Callbacks(revents), false) <= 1
  {
    hide Closings, Callbacks;
    CallbackClosings(revents, true);
    CallbackClosings(revents, false);
    ReadsMean(revents);
  }

  lemma {:induction false} ClosingsOfSum(a: seq<Callback>, b: seq<Callback>, eof: bool)
    ensures Closings(a + b, eof) == Closings(a, eof) + Closings(b, eof)
  {
    if a == [] {
      assert a + b == b;
    } else {
      assert (a + b)[1..] == a[1..] + b;
      ClosingsOfSum(a[1..], b, eof);
    }
  }

  lemma NotYetDown(s: Server, l: LoopId, c: Id)
    requires Inv(s) && Handles(s, l, c) && !IsDown(s, c)
    ensures c in s.conns && s.conns[c].downs == 0
  {
    assert RoundIntact(s, l) && Knows(s, c) && Life(s, c);
  }

  /**
   A connection that is up when its event is picked is reported down at most once by the whole event if
   and only if the mask is tame or its read does not find end of stream.
   */
  lemma EventReportsOnce(s: Server, l: LoopId, c: Id, eof: bool) returns (path: seq<Server>)
    requires Inv(s) && Handles(s, l, c) && s.loops[l].handler.todo == Callbacks(s.loops[l].handler.revents)
    requires !IsDown(s, c)
    ensures Behaviors.IsPath(Next, path) && path[0] == s
    ensures var s' := path[|path| - 1];
            && Handles(s', l, c) && s'.loops[l].handler.todo == [] && c in s'.conns
            && (s'.conns[c].downs <= 1 <==> !eof || Tame(s.loops[l].handler.revents))
  {
    NotYetDown(s, l, c);
    hide Inv, Next, Callbacks;
    TameExactly(s.loops[l].handler.revents);
    path := EventRun(s, l, c, eof);
  }

  // ---------------------------------------------------------------- whole runs

  lemma CloseFirst(revents: set<Ev>)
    ensures Close in Callbacks(revents) <==> Hup in revents && In !in revents
    ensures Close in Callbacks(revents) ==> Callbacks(revents)[0].Close?
    ensures Callbacks(revents) != [] ==> Close !in Callbacks(revents)[1..]
  {
  }

  /** Nothing of the event has run, or its close callback has, if it has one. */
  predicate ToldIn(s: Server, h: Handler)
    requires h.Handling?
  {
    h.todo == Callbacks(h.revents)
    || (Close !in h.todo && (Close in Callbacks(h.revents) ==> IsDown(s, h.c)))
  }

  ghost predicate Told(s: Server) {
    forall l :: l in s.loops && s.loops[l].handler.Handling? ==> ToldIn(s, s.loops[l].handler)
  }

  /** What is down stays down, and the count of reports never goes back. */
  predicate Grows(s: Server, s': Server) {
    forall c :: c in s.conns ==>
      c in s'.conns && s.conns[c].downs <= s'.conns[c].downs && (IsDown(s, c) ==> IsDown(s', c))
  }

  lemma CloseGrows(s: Server, c: Id)
    requires InPoller(s, c)
    ensures Grows(s, HandleClose(s, c))
  {
    NotifyEffect(s, c);
  }

  /** A functor moves its own connection only, never back from down. */
  lemma PerformGrows(s: Server, f: Functor)
    requires InPoller(s, f.c) && (f.Established? ==> !IsDown(s, f.c))
    ensures Grows(s, Perform(s, f))
  {
    hide SetEvents, RemoveChannel;
  }

  lemma FunctorGrows(s: Server, l: LoopId, f: Functor)
    requires Inv(s) && Runs(s, l, f) && !Stray(s, f)
    ensures InPoller(s, f.c) && Grows(s, ApplyFunctor(s, l))
  {
    hide Inv, Perform, FdIsFree;
    RunsOn(s, l, f);
    assert f.Established? ==> !IsDown(s, f.c);
    hide Life;
    PerformGrows(WithLoop(s, l, Advanced(s.loops[l])), f);
  }

  lemma AcceptGrows(s: Server, fd: int, io: LoopId)
    requires io in s.loops && BASE in s.loops && s.nextConnId !in s.conns
    ensures Grows(s, ApplyAccept(s, fd, io))
  {
    hide SetEvents;
  }

  lemma PlainGrows(s: Server, step: Step)
    requires Enabled(s, step) && Safe(s, step) && !step.RunFunctor? && !step.RunCallback?
    ensures Grows(s, Apply(s, step))
  {
    hide Held, FdIsFree, SetEvents, ApplyAccept;
    if step.Accept? {
      AcceptGrows(s, step.fd, step.io);
    }
  }

  lemma StepGrows(s: Server, step: Step)
    requires Inv(s) && Enabled(s, step)
    ensures Grows(s, Apply(s, step))
  {
    hide Inv, Grows;
    StepKeeps(s, step);
    if RunsStray(s, step) {
      SameGrows(s, Apply(s, step));
    } else if step.RunFunctor? {
      FunctorGrows(s, step.l, s.loops[step.l].batch[0]);
    } else if step.RunCallback? {
      CallbackGrows(s, step.l, step.eof);
    } else {
      PlainGrows(s, step);
    }
  }

  lemma SameGrows(s: Server, s': Server)
    requires s'.conns == s.conns
    ensures Grows(s, s')
  {
  }

  lemma CallbackGrows(s: Server, l: LoopId, eof: bool)
    requires l in s.loops && s.loops[l].handler.Handling? && s.loops[l].handler.todo != []
    requires InPoller(s, s.loops[l].handler.c)
    ensures Grows(s, ApplyCallback(s, l, eof))
  {
    CloseGrows(Popped(s, l), s.loops[l].handler.c);
  }

  /** The handlers are where they were, but perhaps that of loop l, and it is told. */
  lemma ToldFrame(s: Server, s': Server, l: LoopId)
    requires Told(s) && Grows(s, s') && s'.loops.Keys == s.loops.Keys
    requires forall m :: m in s.loops && m != l ==> s'.loops[m].handler == s.loops[m].handler
    requires l in s.loops && s'.loops[l].handler.Handling? ==> ToldIn(s', s'.loops[l].handler)
    ensures Told(s')
  {
  }

  predicate SameHandlers(s: Server, s': Server) {
    s'.loops.Keys == s.loops.Keys && forall m :: m in s.loops ==> s'.loops[m].handler == s.loops[m].handler
  }

  lemma CloseHandlers(s: Server, c: Id)
    requires InPoller(s, c)
    ensures SameHandlers(s, HandleClose(s, c)) && IsDown(HandleClose(s, c), c)
  {
    hide SetEvents;
    assert SameHandlers(s, Closed(s, c));
    NotifyEffect(s, c);
    hide HandleClose;
  }

  lemma CallbackHandlers(s: Server, l: LoopId, eof: bool)
    requires l in s.loops && s.loops[l].handler.Handling? && s.loops[l].handler.todo != []
    requires InPoller(s, s.loops[l].handler.c)
    ensures SameHandlers(Popped(s, l), ApplyCallback(s, l, eof))
    ensures s.loops[l].handler.todo[0].Close? ==> IsDown(ApplyCallback(s, l, eof), s.loops[l].handler.c)
  {
    CloseHandlers(Popped(s, l), s.loops[l].handler.c);
    hide HandleClose;
  }

  lemma CallbackTold(s: Server, l: LoopId, eof: bool)
    requires Told(s) && l in s.loops && s.loops[l].handler.Handling? && s.loops[l].handler.todo != []
    requires InPoller(s, s.loops[l].handler.c)
    ensures Told(ApplyCallback(s, l, eof))
  {
    var h, s' := s.loops[l].handler, ApplyCallback(s, l, eof);
    CloseFirst(h.revents);
    CallbackHandlers(s, l, eof);
    CallbackGrows(s, l, eof);
    hide ApplyCallback;
    assert ToldIn(s', Advance(h)) by {
      assert forall cb :: cb in h.todo[1..] ==> cb in h.todo;
    }
    ToldFrame(s, s', l);
  }

  lemma FunctorHandlers(s: Server, l: LoopId)
    requires l in s.loops && s.loops[l].batch != [] && InPoller(s, s.loops[l].batch[0].c)
    ensures SameHandlers(s, ApplyFunctor(s, l))
  {
    hide SetEvents, RemoveChannel;
  }

  lemma AcceptHandlers(s: Server, fd: int, io: LoopId)
    requires io in s.loops && BASE in s.loops
    ensures SameHandlers(s, ApplyAccept(s, fd, io))
  {
    hide SetEvents;
  }

  /** One loop goes on to another event, or to none; all others stay. */
  lemma RoundHandlers(s: Server, step: Step)
    requires Enabled(s, step) && Safe(s, step) && (step.Pick? || step.EndHandler?)
    ensures var s' := Apply(s, step);
            && s'.loops.Keys == s.loops.Keys
            && (forall m :: m in s.loops && m != step.l ==> s'.loops[m].handler == s.loops[m].handler)
            && (step.Pick? ==> s'.loops[step.l].handler.todo == Callbacks(s'.loops[step.l].handler.revents))
            && (step.EndHandler? ==> s'.loops[step.l].handler.NoHandler?)
  {
    hide Callbacks;
  }

  lemma PlainHandlers(s: Server, step: Step)
    requires Enabled(s, step) && Safe(s, step)
    requires !step.RunFunctor? && !step.RunCallback? && !step.Pick? && !step.EndHandler?
    ensures SameHandlers(s, Apply(s, step))
  {
    hide Held, FdIsFree, SetEvents, ApplyAccept;
    if step.Accept? {
      AcceptHandlers(s, step.fd, step.io);
    }
  }

  lemma StepTold(s: Server, step: Step)
    requires Inv(s) && Told(s) && Enabled(s, step)
    ensures Told(Apply(s, step))
  {
    hide Inv, Told, Callbacks;
    StepKeeps(s, step);
    StepGrows(s, step);
    if RunsStray(s, step) {
      CrashTold(s);
    } else if step.RunCallback? {
      CallbackTold(s, step.l, step.eof);
    } else if step.RunFunctor? {
      FunctorHandlers(s, step.l);
      ToldByFrame(s, Apply(s, step), step.l);
    } else if step.Pick? || step.EndHandler? {
      RoundHandlers(s, step);
      ToldByFrame(s, Apply(s, step), step.l);
    } else {
      PlainHandlers(s, step);
      ToldByFrame(s, Apply(s, step), BASE);
    }
  }

  lemma CrashTold(s: Server)
    requires Told(s)
    ensures Told(s.(crashed := true))
  {
  }

  lemma ToldByFrame(s: Server, s': Server, l: LoopId)
    requires Told(s) && Grows(s, s') && s'.loops.Keys == s.loops.Keys
    requires forall m :: m in s.loops && m != l ==> s'.loops[m].handler == s.loops[m].handler
    requires l in s.loops ==>
               || s'.loops[l].handler == s.loops[l].handler
               || s'.loops[l].handler.NoHandler?
               || s'.loops[l].handler.todo == Callbacks(s'.loops[l].handler.revents)
    ensures Told(s')
  {
  }

  /** This step of a run reads end of stream after the event's close callback. */
  ghost predicate IsReadTwice(s: Server, s': Server) {
    exists step :: Enabled(s, step) && ReadsTwice(s, step) && s' == Apply(s, step)
  }

  ghost predicate Good(s: Server) {
    OnceInv(s) && Told(s)
  }

  ghost predicate Twice(s: Server) {
    Inv(s) && exists c :: c in s.conns && s.conns[c].downs >= 2
  }

  lemma ReadTwiceIsDownTwice(s: Server, step: Step)
    requires Good(s) && Enabled(s, step) && ReadsTwice(s, step)
    ensures Twice(Apply(s, step))
  {
    var h := s.loops[step.l].handler;
    CloseFirst(h.revents);
    assert IsDown(s, h.c);
    OnceCounts(s, h.c);
    hide OnceInv, Told, Callbacks;
    CallbackIsStep(s, step.l, h.c, true);
    hide Inv;
    StepKeeps(s, step);
    CallbackDowns(s, step.l, h.c, true);
  }

  lemma GoodStep(s: Server, s': Server)
    requires Good(s) && Next(s, s')
    ensures if IsReadTwice(s, s') then Twice(s') else Good(s')
  {
    hide OnceInv, Told, Enabled, ReadsTwice;
    if IsReadTwice(s, s') {
      var step :| Enabled(s, step) && ReadsTwice(s, step) && s' == Apply(s, step);
      ReadTwiceIsDownTwice(s, step);
    } else {
      var step :| Enabled(s, step) && s' == Apply(s, step);
      OnceKeeps(s, step);
      OnceInvOnces(s);
      StepTold(s, step);
    }
  }

  lemma TwiceStep(s: Server, s': Server)
    requires Twice(s) && Next(s, s')
    ensures Twice(s')
  {
    hide Inv, Enabled;
    var step :| Enabled(s, step) && s' == Apply(s, step);
    StepKeeps(s, step);
    StepGrows(s, step);
  }

  /**
   Over a whole run no connection is reported down twice if and only if no event with an untame mask has
   read end of stream.
   */
  lemma DownsExactly(run: seq<Server>, i: nat)
    requires Behaviors.IsBehavior(Init, Next, run) && i < |run|
    ensures (forall c :: c in run[i].conns ==> run[i].conns[c].downs <= 1)
       <==> Behaviors.Never(IsReadTwice, run, i)
  {
    forall s | Init(s) ensures Good(s) {
      OnceInitially(s);
    }
    hide Good, Twice, Init, Next;
    forall s, s' | Good(s) && Next(s, s') ensures if IsReadTwice(s, s') then Twice(s') else Good(s') {
      GoodStep(s, s');
    }
    forall s, s' | Twice(s) && Next(s, s') ensures Twice(s') {
      TwiceStep(s, s');
    }
    Behaviors.GoodUntilSlip(Init, Next, IsReadTwice, Good, Twice, run, i);
    Verdict(run[i]);
  }

  lemma Verdict(s: Server)
    ensures Good(s) ==> forall c :: c in s.conns ==> s.conns[c].downs <= 1
    ensures Twice(s) ==> !(forall c :: c in s.conns ==> s.conns[c].downs <= 1)
  {
    if Good(s) {
      forall c | c in s.conns ensures s.conns[c].downs <= 1 {
        OnceCounts(s, c);
      }
    }
  }

  // ---------------------------------------------------------------- the failing family is inhabited

  /** One more step of a run that has not crashed. */
  lemma Take(run: seq<Server>, step: Step)
    requires Behaviors.IsBehavior(Init, Next, run)
    requires Enabled(run[|run| - 1], step) && !RunsStray(run[|run| - 1], step)
    ensures Safe(run[|run| - 1], step)
    ensures Behaviors.IsBehavior(Init, Next, run + [Apply(run[|run| - 1], step)])
  {
    Reachable(run, |run| - 1);
    StepKeeps(run[|run| - 1], step);
    Behaviors.Continue(Init, Next, run, Apply(run[|run| - 1], step));
  }

  const READING := PollerModel.Poller(map[1 := Chan(5, READ_EVENT, Added)], map[5 := 1],
                                      map[5 := Interest(READ_EVENT, 1)], false, 0)

  /** A server with a single loop, and on it one connection that is up. */
  const UP := Server(map[BASE := FRESH_LOOP.(poller := READING)],
                     map[1 := Conn(5, BASE, ConnectionModel.Connected, true, 1, 0, 0)],
                     2, {1}, {}, map[], 0, false)

  const FRESH := Server(map[BASE := FRESH_LOOP], map[], 1, {}, {}, map[], 0, false)

  lemma FirstAccept(s: Server)
    requires s == WithLoop(FRESH, BASE, FRESH_LOOP.(phase := Dispatching))
    ensures ApplyAccept(s, 5, BASE) == WithLoop(UP, BASE, UP.loops[BASE].(phase := Dispatching))
  {
    var c := Chan(5, {}, New);
    var p := PollerModel.Empty().(chans := map[1 := c]);
    assert PollerModel.Empty<Id>().chans[1 := c] == map[1 := c];
    assert SetEvents(p, 1, READ_EVENT) == READING;
    var s' := ApplyAccept(s, 5, BASE);
    assert s'.loops[BASE] == UP.loops[BASE].(phase := Dispatching);
    assert s'.loops == map[BASE := UP.loops[BASE].(phase := Dispatching)];
    assert s'.conns == UP.conns;
  }

  const ACCEPTED := WithLoop(UP, BASE, UP.loops[BASE].(phase := Dispatching))

  lemma OneAccept() returns (run: seq<Server>)
    ensures Behaviors.IsBehavior(Init, Next, run) && run[|run| - 1] == ACCEPTED
  {
    hide ApplyAccept;
    run := [FRESH];
    Take(run, Poll(BASE, []));
    var s1 := WithLoop(FRESH, BASE, FRESH_LOOP.(phase := Dispatching));
    assert s1 == Apply(FRESH, Poll(BASE, []));
    run := run + [s1];
    Take(run, Accept(5, BASE));
    FirstAccept(s1);
    assert ACCEPTED == Apply(s1, Accept(5, BASE));
    run := run + [ACCEPTED];
  }

  lemma OneConnection() returns (run: seq<Server>)
    ensures Behaviors.IsBehavior(Init, Next, run) && run[|run| - 1] == UP
  {
    hide Init, Next;
    run := OneAccept();
    Take(run, Swap(BASE));
    var s1 := WithLoop(UP, BASE, UP.loops[BASE].(phase := Calling));
    assert s1 == Apply(ACCEPTED, Swap(BASE));
    run := run + [s1];
    Take(run, EndBatch(BASE));
    assert UP == Apply(s1, EndBatch(BASE));
    run := run + [UP];
  }

  /** The kernel reports a mask for that connection, and its event is picked. */
  lemma OneEvent(revents: set<Ev>) returns (run: seq<Server>)
    requires Reportable(READ_EVENT, revents)
    ensures Behaviors.IsBehavior(Init, Next, run)
    ensures run[|run| - 1] == WithLoop(UP, BASE, UP.loops[BASE].(
                                phase := Dispatching, handler := Handling(1, revents, Callbacks(revents))))
  {
    hide Init, Next, Callbacks;
    run := OneConnection();
    var report := [Ready(1, revents)];
    assert Reported(READING, report) by { assert READING.kernel[5].chan == 1; }
    Take(run, Poll(BASE, report));
    var s1 := WithLoop(UP, BASE, UP.loops[BASE].(phase := Dispatching, active := report));
    assert s1 == Apply(UP, Poll(BASE, report));
    run := run + [s1];
    Take(run, Pick(BASE));
    assert report[1..] == [];
    var s2 := WithLoop(UP, BASE, UP.loops[BASE].(
                         phase := Dispatching, handler := Handling(1, revents, Callbacks(revents))));
    assert s2 == Apply(s1, Pick(BASE));
    run := run + [s2];
  }

  /** A peer that hangs up with urgent data pending: one event, and the connection is down twice. */
  lemma DownTwice() returns (run: seq<Server>)
    ensures Behaviors.IsBehavior(Init, Next, run)
    ensures 1 in run[|run| - 1].conns && run[|run| - 1].conns[1].downs == 2
  {
    var revents := {Hup, Pri};
    run := OneEvent(revents);
    var s := run[|run| - 1];
    Reachable(run, |run| - 1);
    hide Inv, Init, Next;
    assert Closings(Callbacks(revents), true) == 2 by { TwoClosings(); }
    var path := EventRun(s, BASE, 1, true);
    Behaviors.Join(Init, Next, run, path);
    run := run + path[1..];
  }

  lemma TwoClosings()
    ensures Closings(Callbacks({Hup, Pri}), true) == 2
  {
    CallbackClosings({Hup, Pri}, true);
    assert Pri in {Hup, Pri} * {In, Pri, RdHup};
  }
}
