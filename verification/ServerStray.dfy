/** A run in which a posted task goes astray. */
module ServerStray {
  import opened PollerModel
  import opened ServerModel
  import opened ServerProofs
  import opened ServerSteps
  import opened ServerEvents
  import opened ServerWorkers
  import ConnectionModel
  import Behaviors

  const DELETED := PollerModel.Poller(map[1 := Chan(5, {}, Deleted)], map[5 := 1], map[], false, 0)
  const REMOVED := PollerModel.Poller(map[1 := Chan(5, {}, New)], map[], map[], false, 0)

  /** The connection of `UP` has closed, while a thread is inside a call on it. */
  const CLOSED := UP.(
    conns := map[1 := UP.conns[1].(st := ConnectionModel.Disconnected, downs := 1)],
    connections := {}, calls := map[7 := Checked(1)])

  /** It has been torn down too. */
  const TORN := CLOSED.(
    conns := map[1 := CLOSED.conns[1].(destroys := 1)],
    loops := map[BASE := FRESH_LOOP.(poller := REMOVED)])

  function InClose(todo: seq<Callback>): Loop {
    FRESH_LOOP.(phase := Dispatching, handler := Handling(1, {Hup}, todo), poller := READING)
  }

  lemma CloseCallback()
    ensures var s := UP.(loops := map[BASE := InClose([Close])], calls := map[7 := Checked(1)]);
            InPoller(s, 1)
            && ApplyCallback(s, BASE, false) ==
               CLOSED.(loops := map[BASE := InClose([]).(pending := [Destroyed(1)], poller := DELETED)])
  {
    var s := UP.(loops := map[BASE := InClose([Close])], calls := map[7 := Checked(1)]);
    assert SetEvents(READING, 1, {}) == DELETED;
    hide SetEvents;
    assert [Close][1..] == [] && [] + [Destroyed(1)] == [Destroyed(1)];
    var s' := ApplyCallback(s, BASE, false);
    assert s'.loops[BASE] == InClose([]).(pending := [Destroyed(1)], poller := DELETED);
    assert s'.loops == map[BASE := s'.loops[BASE]];
    assert s'.conns == CLOSED.conns;
    assert s'.connections == {};
  }

  lemma Teardown()
    ensures var q := FRESH_LOOP.(phase := Calling, poller := DELETED);
            var s := CLOSED.(loops := map[BASE := q.(batch := [Destroyed(1)])]);
            InPoller(s, 1)
            && ApplyFunctor(s, BASE) ==
               TORN.(loops := map[BASE := q.(done := [Destroyed(1)], poller := REMOVED)])
  {
    var q := FRESH_LOOP.(phase := Calling, poller := DELETED);
    var s := CLOSED.(loops := map[BASE := q.(batch := [Destroyed(1)])]);
    assert RemoveChannel(DELETED, 1) == REMOVED by {
      assert DELETED.channels - {5} == map[] && DELETED.chans[1 := Chan(5, {}, New)] == REMOVED.chans;
    }
    hide RemoveChannel, SetEvents, CtlDel;
    assert s.conns[1].st.Disconnected?;
    var s' := ApplyFunctor(s, BASE);
    assert s'.loops[BASE] == q.(done := [Destroyed(1)], poller := REMOVED);
    assert s'.loops == map[BASE := s'.loops[BASE]];
    assert s'.conns == TORN.conns;
  }

  /** A worker checks the state of the connection; then its loop picks the event of a hang-up. */
  lemma HangUp() returns (run: seq<Server>)
    ensures Behaviors.IsBehavior(Init, Next, run)
    ensures run[|run| - 1] == UP.(loops := map[BASE := InClose([Close])], calls := map[7 := Checked(1)])
  {
    hide Init, Next;
    run := OneConnection();
    Take(run, Begin(7, 1, false));
    var s1 := UP.(calls := map[7 := Checked(1)]);
    assert s1 == Apply(UP, Begin(7, 1, false)) by { assert UP.calls[7 := Checked(1)] == map[7 := Checked(1)]; }
    run := run + [s1];
    var report := [Ready(1, {Hup})];
    assert Reported(READING, report) by { assert READING.kernel[5].chan == 1; }
    Take(run, Poll(BASE, report));
    var s2 := WithLoop(s1, BASE, FRESH_LOOP.(phase := Dispatching, active := report, poller := READING));
    assert s2 == Apply(s1, Poll(BASE, report));
    run := run + [s2];
    Take(run, Pick(BASE));
    assert report[1..] == [] && Callbacks({Hup}) == [Close] by { assert {Hup} * {In, Pri, RdHup} == {}; }
    var s3 := UP.(loops := map[BASE := InClose([Close])], calls := map[7 := Checked(1)]);
    assert s3 == Apply(s2, Pick(BASE)) by { assert s2.loops[BASE := InClose([Close])] == s3.loops; }
    run := run + [s3];
  }

  /** The loop closes the connection. */
  lemma ClosedEvent() returns (run: seq<Server>)
    ensures Behaviors.IsBehavior(Init, Next, run)
    ensures run[|run| - 1] == CLOSED.(loops := map[BASE := InClose([]).(pending := [Destroyed(1)], poller := DELETED)])
  {
    hide Init, Next, ApplyCallback;
    run := HangUp();
    var s0 := run[|run| - 1];
    Take(run, RunCallback(BASE, false));
    CloseCallback();
    var s1 := CLOSED.(loops := map[BASE := InClose([]).(pending := [Destroyed(1)], poller := DELETED)]);
    assert s1 == Apply(s0, RunCallback(BASE, false));
    run := run + [s1];
  }

  /** The round ends. */
  lemma HungUp() returns (run: seq<Server>)
    ensures Behaviors.IsBehavior(Init, Next, run)
    ensures run[|run| - 1] ==
            CLOSED.(loops := map[BASE := FRESH_LOOP.(phase := Calling, batch := [Destroyed(1)], poller := DELETED)])
  {
    hide Init, Next;
    run := ClosedEvent();
    var q := InClose([]).(pending := [Destroyed(1)], poller := DELETED);
    var s1 := run[|run| - 1];
    Take(run, EndHandler(BASE));
    var s2 := CLOSED.(loops := map[BASE := q.(handler := NoHandler)]);
    assert s2 == Apply(s1, EndHandler(BASE)) by { assert s1.loops[BASE := q.(handler := NoHandler)] == s2.loops; }
    run := run + [s2];
    Take(run, Swap(BASE));
    var q' := FRESH_LOOP.(phase := Calling, batch := [Destroyed(1)], poller := DELETED);
    var s3 := CLOSED.(loops := map[BASE := q']);
    assert s3 == Apply(s2, Swap(BASE)) by { assert s2.loops[BASE := q'] == s3.loops; }
    run := run + [s3];
  }

  /** The loop tears the connection down, and its batch ends. */
  lemma TornDown() returns (run: seq<Server>)
    ensures Behaviors.IsBehavior(Init, Next, run) && run[|run| - 1] == TORN
  {
    hide Init, Next, ApplyFunctor;
    run := HungUp();
    var s0 := run[|run| - 1];
    Take(run, RunFunctor(BASE));
    Teardown();
    var q := FRESH_LOOP.(phase := Calling, done := [Destroyed(1)], poller := REMOVED);
    var s1 := TORN.(loops := map[BASE := q]);
    assert s1 == Apply(s0, RunFunctor(BASE));
    run := run + [s1];
    Take(run, EndBatch(BASE));
    assert TORN == Apply(s1, EndBatch(BASE)) by { assert s1.loops[BASE := TORN.loops[BASE]] == TORN.loops; }
    run := run + [TORN];
  }

  /** The worker posts its task after all. */
  const LATE := TORN.(loops := map[BASE := FRESH_LOOP.(pending := [Raw(1, 0)], poller := REMOVED)],
                      calls := map[7 := Posted(1, 0)], tickets := 1)

  lemma LatePost()
    ensures ApplyPost(TORN, 7) == LATE
  {
    var s' := ApplyPost(TORN, 7);
    assert [] + [Raw(1, 0)] == [Raw(1, 0)];
    assert s'.loops[BASE] == FRESH_LOOP.(pending := [Raw(1, 0)], poller := REMOVED);
    assert s'.loops == map[BASE := s'.loops[BASE]];
    assert s'.calls == map[7 := Posted(1, 0)];
  }

  lemma LetGo() returns (run: seq<Server>)
    ensures Behaviors.IsBehavior(Init, Next, run) && run[|run| - 1] == Released(LATE, 7)
  {
    hide Init, Next, ApplyPost;
    run := TornDown();
    Take(run, Post(7));
    LatePost();
    run := run + [LATE];
    Take(run, Release(7));
    run := run + [Released(LATE, 7)];
  }

  lemma LetGoIsLast()
    ensures var s := Released(LATE, 7);
            Knows(s, 1) && s.conns[1].alive && !Held(s, 1) && Outstanding(s, 1, 0)
  {
    assert Released(LATE, 7).calls == map[];
    assert LATE.loops[BASE].pending == [Raw(1, 0)];
  }

  /**
   The run: a worker finds the connection up, its loop closes it and tears it down, the worker posts its task
   and drops the last pointer, and the loop runs the task on what is left.
   */
  lemma StrayRun() returns (run: seq<Server>)
    ensures Behaviors.IsBehavior(Init, Next, run) && run[|run| - 1].crashed
  {
    hide Init, Next, CarefulNext, Inv;
    run := LetGo();
    Reachable(run, |run| - 1);
    LetGoIsLast();
    var path := ReapCrashes(Released(LATE, 7), Raw(1, 0));
    CarefulPathIsNext(path);
    Behaviors.Join(Init, Next, run, path);
    run := run + path[1..];
  }

  lemma CarefulPathIsNext(path: seq<Server>)
    requires Behaviors.IsPath(CarefulNext, path)
    ensures Behaviors.IsPath(Next, path)
  {
    forall i, j | 0 <= i && j == i + 1 && j < |path| ensures Next(path[i], path[j]) {
      CarefulIsNext(path[i], path[j]);
    }
  }
}
