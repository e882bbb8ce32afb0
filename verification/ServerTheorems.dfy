/** What holds of connection lifetimes in every interleaving of the loops. */
module ServerTheorems {
  import opened PollerModel
  import opened ServerModel
  import opened ServerProofs
  import opened ServerSteps
  import Behaviors

  /**
   While a channel is in the fd table or the interest set of any loop, its connection is alive, lives on
   that loop, has not been torn down, and is held by the map or by a teardown still queued there.
   */
  lemma RegisteredIsHeld(run: seq<Server>, i: nat, l: LoopId, fd: int)
    requires Behaviors.IsBehavior(Init, Next, run) && i < |run| && l in run[i].loops
    ensures var s := run[i]; var p := s.loops[l].poller;
            (fd in p.kernel ==> fd in p.channels && p.channels[fd] == p.kernel[fd].chan)
            && (fd in p.channels ==>
                  var c := p.channels[fd];
                  c in s.conns && s.conns[c].alive && s.conns[c].loop == l && s.conns[c].fd == fd
                  && s.conns[c].destroys == 0 && Held(s, c)
                  && (c in s.connections || Destroyed(c) in s.loops[l].pending || Destroyed(c) in s.loops[l].batch))
  {
    var s := run[i];
    Reachable(run, i);
    assert Simulates(s.loops[l].poller);
    if fd in s.loops[l].poller.channels {
      var c := s.loops[l].poller.channels[fd];
      assert IndexMatches(s.loops[l].poller, c);
      assert InPoller(s, c) && Life(s, c);
      HeldWhileUp(s, c);
    }
  }

  /** Until `connectDestroyed` has run, a shared pointer to the connection exists. */
  lemma HeldWhileUp(s: Server, c: Id)
    requires Owned(s) && Knows(s, c) && s.conns[c].destroys == 0
    ensures Held(s, c)
    ensures var q := s.loops[s.conns[c].loop];
            c in s.connections || Destroyed(c) in q.pending || Destroyed(c) in q.batch
  {
    assert Life(s, c);
    if c !in s.connections {
      assert HeldByLoop(s.loops[s.conns[c].loop], c);
    }
  }

  /** Every channel still to be handled in a round, and the one being handled, belongs to a held, live connection. */
  lemma ActiveIsLive(run: seq<Server>, i: nat, l: LoopId)
    requires Behaviors.IsBehavior(Init, Next, run) && i < |run| && l in run[i].loops
    ensures var s := run[i]; var q := s.loops[l];
            && (forall r :: r in q.active ==> r.c in s.conns && s.conns[r.c].alive && Held(s, r.c))
            && (q.handler.Handling? ==>
                  q.handler.c in s.conns && s.conns[q.handler.c].alive && Held(s, q.handler.c))
  {
    var s := run[i];
    Reachable(run, i);
    assert RoundIntact(s, l);
    forall c | InRound(s, l, c) ensures s.conns[c].alive && Held(s, c) {
      assert Knows(s, c) && Life(s, c);
      HeldWhileUp(s, c);
    }
  }

  /** No epoll call is ever refused, whatever becomes of connections. */
  lemma NoCallRefused(run: seq<Server>, i: nat, l: LoopId)
    requires Behaviors.IsBehavior(Init, Next, run) && i < |run| && l in run[i].loops
    ensures !run[i].loops[l].poller.aborted && run[i].loops[l].poller.failedDels == 0
  {
    Reachable(run, i);
    assert Simulates(run[i].loops[l].poller);
  }

  /** A connection is destroyed, and its descriptor closed, only after its teardown took its channel out of every poller. */
  lemma DestroyedAfterTeardown(run: seq<Server>, i: nat, c: Id)
    requires Behaviors.IsBehavior(Init, Next, run) && i < |run|
    requires c in run[i].conns && !run[i].conns[c].alive
    ensures run[i].conns[c].destroys > 0 && !Held(run[i], c)
    ensures forall l, fd :: l in run[i].loops && fd in run[i].loops[l].poller.channels ==>
              run[i].loops[l].poller.channels[fd] != c
    ensures forall l, fd :: l in run[i].loops && fd in run[i].loops[l].poller.kernel ==>
              run[i].loops[l].poller.kernel[fd].chan != c
  {
    Reachable(run, i);
    DeadIsGone(run[i], c);
  }

  lemma DeadIsUnheld(s: Server, c: Id)
    requires PointersFit(s) && c in s.conns && !s.conns[c].alive
    ensures !Held(s, c)
  {
    forall l | l in s.loops ensures !HeldByLoop(s.loops[l], c) {
      assert forall f :: FunctorFits(s, l, f) ==> f.Raw? || f.c != c;
    }
  }

  lemma DeadIsGone(s: Server, c: Id)
    requires Inv(s) && c in s.conns && !s.conns[c].alive
    ensures s.conns[c].destroys > 0 && !Held(s, c)
    ensures forall l, fd :: l in s.loops && fd in s.loops[l].poller.channels ==> s.loops[l].poller.channels[fd] != c
    ensures forall l, fd :: l in s.loops && fd in s.loops[l].poller.kernel ==> s.loops[l].poller.kernel[fd].chan != c
  {
    DeadIsUnheld(s, c);
    hide Held, PointersFit, RoundsIntact;
    assert Knows(s, c) && Life(s, c);
    assert forall l :: l in s.loops ==> Simulates(s.loops[l].poller);
  }

  /** Each connection is announced once, before any "down"; and no entry of the map is ever overwritten. */
  lemma UpBeforeDown(run: seq<Server>, i: nat, c: Id)
    requires Behaviors.IsBehavior(Init, Next, run) && i < |run|
    ensures c in run[i].conns ==>
              run[i].conns[c].ups <= 1 && (run[i].conns[c].downs > 0 ==> run[i].conns[c].ups == 1)
    ensures run[i].nextConnId !in run[i].connections
  {
    Reachable(run, i);
    if c in run[i].conns {
      assert Knows(run[i], c) && Life(run[i], c);
    }
  }
}
