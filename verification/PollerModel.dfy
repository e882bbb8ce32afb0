/** Channel registration: the poller's three-state index against the kernel's interest set. */
module PollerModel {
  datatype Ev = In | Pri | Out | Err | Hup | RdHup
  const READ_EVENT: set<Ev> := {In, Pri}
  const WRITE_EVENT: set<Ev> := {Out}

  datatype Index = New | Added | Deleted
  datatype Chan = Chan(fd: int, events: set<Ev>, index: Index)

  /** What the kernel holds for a descriptor: the mask, and the channel to report. */
  datatype Interest<C> = Interest(mask: set<Ev>, chan: C)

  /**
   `chans` are the channels bound to this poller, `channels` its fd table, `kernel` the epoll
   interest set. A failed ADD or MOD aborts the process, a failed DEL is only logged.
   */
  datatype Poller<C> = Poller(
    chans: map<C, Chan>,
    channels: map<int, C>,
    kernel: map<int, Interest<C>>,
    aborted: bool,
    failedDels: nat)

  function Empty<C>(): Poller<C> {
    Poller(map[], map[], map[], false, 0)
  }

  // ---------------------------------------------------------------- epoll_ctl

  function CtlAdd<C>(p: Poller<C>, c: C): Poller<C>
    requires c in p.chans
  {
    var fd := p.chans[c].fd;
    if fd in p.kernel then p.(aborted := true)
    else p.(kernel := p.kernel[fd := Interest(p.chans[c].events, c)])
  }

  function CtlMod<C>(p: Poller<C>, c: C): Poller<C>
    requires c in p.chans
  {
    var fd := p.chans[c].fd;
    if fd !in p.kernel then p.(aborted := true)
    else p.(kernel := p.kernel[fd := Interest(p.chans[c].events, c)])
  }

  function CtlDel<C>(p: Poller<C>, c: C): Poller<C>
    requires c in p.chans
  {
    var fd := p.chans[c].fd;
    if fd !in p.kernel then p.(failedDels := p.failedDels + 1)
    else p.(kernel := p.kernel - {fd})
  }

  // ---------------------------------------------------------------- the poller

  function SetIndex<C>(p: Poller<C>, c: C, index: Index): Poller<C>
    requires c in p.chans
  {
    p.(chans := p.chans[c := p.chans[c].(index := index)])
  }

  function UpdateChannel<C>(p: Poller<C>, c: C): Poller<C>
    requires c in p.chans
  {
    var ch := p.chans[c];
    if ch.index.Added? then
      if ch.events == {} then SetIndex(CtlDel(p, c), c, Deleted) else CtlMod(p, c)
    else
      var p1 := if ch.index.New? then p.(channels := p.channels[ch.fd := c]) else p;
      SetIndex(CtlAdd(p1, c), c, Added)
  }

  function RemoveChannel<C>(p: Poller<C>, c: C): Poller<C>
    requires c in p.chans
  {
    var p1 := p.(channels := p.channels - {p.chans[c].fd});
    SetIndex(if p.chans[c].index.Added? then CtlDel(p1, c) else p1, c, New)
  }

  /** `enableReading` and its siblings: set the mask, then update the poller. */
  function SetEvents<C>(p: Poller<C>, c: C, events: set<Ev>): Poller<C>
    requires c in p.chans
  {
    UpdateChannel(p.(chans := p.chans[c := p.chans[c].(events := events)]), c)
  }

  // ---------------------------------------------------------------- simulation

  ghost predicate IndexMatches<C>(p: Poller<C>, c: C)
    requires c in p.chans
  {
    var ch := p.chans[c];
    && (ch.index.Added? <==> ch.fd in p.kernel && p.kernel[ch.fd].chan == c)
    && (ch.index.Added? ==> p.kernel[ch.fd].mask == ch.events)
    && (!ch.index.New? <==> ch.fd in p.channels && p.channels[ch.fd] == c)
  }

  /** kAdded iff in the interest set with the channel's own mask; kDeleted iff only in the table. */
  ghost predicate Simulates<C>(p: Poller<C>) {
    && (forall c :: c in p.chans ==> IndexMatches(p, c))
    && (forall fd :: fd in p.channels ==> p.channels[fd] in p.chans && p.chans[p.channels[fd]].fd == fd)
    && (forall fd :: fd in p.kernel ==> fd in p.channels && p.channels[fd] == p.kernel[fd].chan)
    && !p.aborted && p.failedDels == 0
  }

  /** The descriptor of `c` is used by no other registered channel. */
  ghost predicate FdIsFree<C>(p: Poller<C>, c: C)
    requires c in p.chans
  {
    forall d :: d in p.chans && d != c && p.chans[d].fd == p.chans[c].fd ==> p.chans[d].index.New?
  }

  /**
   Setting the mask keeps the simulation if and only if it does not register a descriptor that
   another channel has registered.
   */
  lemma SetEventsSimulates<C>(p: Poller<C>, c: C, events: set<Ev>)
    requires Simulates(p) && c in p.chans
    ensures Simulates(SetEvents(p, c, events)) <==> FdIsFree(p, c)
  {
    var p' := SetEvents(p, c, events);
    var fd := p.chans[c].fd;
    if !FdIsFree(p, c) {
      var d :| d in p.chans && d != c && p.chans[d].fd == fd && !p.chans[d].index.New?;
      assert IndexMatches(p, d) && IndexMatches(p, c);
      assert p.chans[c].index.New?;
      assert p'.chans[d] == p.chans[d];
      assert !IndexMatches(p', d);
    } else {
      SetEventsKeeps(p, c, events);
    }
  }

  lemma SetEventsKeeps<C>(p: Poller<C>, c: C, events: set<Ev>)
    requires Simulates(p) && c in p.chans && FdIsFree(p, c)
    ensures Simulates(SetEvents(p, c, events))
  {
    var p' := SetEvents(p, c, events);
    assert IndexMatches(p, c);
    forall d | d in p'.chans ensures IndexMatches(p', d) {
      assert IndexMatches(p, d);
    }
  }

  /** Removal keeps the simulation if and only if it does not take out another channel's entry. */
  lemma RemoveSimulates<C>(p: Poller<C>, c: C)
    requires Simulates(p) && c in p.chans
    ensures Simulates(RemoveChannel(p, c)) <==> FdIsFree(p, c)
    ensures FdIsFree(p, c) ==>
              p.chans[c].fd !in RemoveChannel(p, c).channels && p.chans[c].fd !in RemoveChannel(p, c).kernel
  {
    var p' := RemoveChannel(p, c);
    var fd := p.chans[c].fd;
    assert IndexMatches(p, c);
    if !FdIsFree(p, c) {
      var d :| d in p.chans && d != c && p.chans[d].fd == fd && !p.chans[d].index.New?;
      assert IndexMatches(p, d);
      assert p'.chans[d] == p.chans[d];
      assert !IndexMatches(p', d);
    } else {
      forall d | d in p'.chans ensures IndexMatches(p', d) {
        assert IndexMatches(p, d);
      }
      if fd in p.kernel {
        assert IndexMatches(p, p.kernel[fd].chan);
      }
    }
  }

  lemma CreateKeeps<C>(p: Poller<C>, c: C, fd: int)
    requires Simulates(p) && c !in p.chans
    ensures Simulates(p.(chans := p.chans[c := Chan(fd, {}, New)]))
  {
    var p' := p.(chans := p.chans[c := Chan(fd, {}, New)]);
    forall d | d in p'.chans ensures IndexMatches(p', d) {
      if d != c {
        assert IndexMatches(p, d);
      }
    }
  }

  lemma DestroyKeeps<C>(p: Poller<C>, c: C)
    requires Simulates(p) && c in p.chans && p.chans[c].index.New?
    ensures Simulates(p.(chans := p.chans - {c}))
  {
    var p' := p.(chans := p.chans - {c});
    assert IndexMatches(p, c);
    forall d | d in p'.chans ensures IndexMatches(p', d) {
      assert IndexMatches(p, d);
    }
  }

  // ---------------------------------------------------------------- dispatch of one event

  datatype Callback = Close | Error | Read | Write

  /** `handleEventWithGuard`: the callbacks a readiness mask leads to, in order. */
  function Callbacks(revents: set<Ev>): seq<Callback> {
    (if Hup in revents && In !in revents then [Close] else [])
    + (if Err in revents then [Error] else [])
    + (if revents * {In, Pri, RdHup} != {} then [Read] else [])
    + (if Out in revents then [Write] else [])
  }

  function Turn(cb: Callback): nat {
    match cb case Close => 0 case Error => 1 case Read => 2 case Write => 3
  }

  /** Which callbacks a mask leads to, each at most once, and in which order. */
  lemma CallbacksMean(revents: set<Ev>)
    ensures var cbs := Callbacks(revents);
            && (Close in cbs <==> Hup in revents && In !in revents)
            && (Error in cbs <==> Err in revents)
            && (Read in cbs <==> In in revents || Pri in revents || RdHup in revents)
            && (Write in cbs <==> Out in revents)
            && forall i, j :: 0 <= i < j < |cbs| ==> Turn(cbs[i]) < Turn(cbs[j])
  {
    ReadsMean(revents);
    CallbacksTakeTurns(revents);
  }

  lemma CallbacksTakeTurns(revents: set<Ev>)
    ensures forall i, j :: 0 <= i < j < |Callbacks(revents)| ==> Turn(Callbacks(revents)[i]) < Turn(Callbacks(revents)[j])
  {
  }

  lemma ReadsMean(revents: set<Ev>)
    ensures revents * {In, Pri, RdHup} != {} <==> In in revents || Pri in revents || RdHup in revents
  {
    if In in revents { assert In in revents * {In, Pri, RdHup}; }
    if Pri in revents { assert Pri in revents * {In, Pri, RdHup}; }
    if RdHup in revents { assert RdHup in revents * {In, Pri, RdHup}; }
  }

  /** The kernel reports what was asked for, and hang-up and error unasked. */
  predicate Reportable(mask: set<Ev>, revents: set<Ev>) {
    revents <= mask + {Hup, Err}
  }

  /** A single event makes both the close and the read callback run exactly on these masks. */
  lemma CloseAndRead(revents: set<Ev>)
    ensures Close in Callbacks(revents) && Read in Callbacks(revents)
       <==> Hup in revents && In !in revents && (Pri in revents || RdHup in revents)
  {
    ReadsMean(revents);
  }
}

/** Registration over whole runs of one poller. */
module PollerRuns {
  import opened PollerModel
  import Behaviors

  datatype Step<C> =
    | Create(c: C, fd: int)
    | Update(c: C, events: set<Ev>)
    | Remove(c: C)
    | Destroy(c: C)

  /** Callers register a channel only under a descriptor no other registered channel has. */
  ghost predicate Enabled<C>(p: Poller<C>, step: Step<C>) {
    match step
    case Create(c, _) => c !in p.chans
    case Update(c, _) => c in p.chans && FdIsFree(p, c)
    case Remove(c) => c in p.chans && FdIsFree(p, c)
    case Destroy(c) => c in p.chans && p.chans[c].index.New?
  }

  ghost function Apply<C>(p: Poller<C>, step: Step<C>): Poller<C>
    requires Enabled(p, step)
  {
    match step
    case Create(c, fd) => p.(chans := p.chans[c := Chan(fd, {}, New)])
    case Update(c, events) => SetEvents(p, c, events)
    case Remove(c) => RemoveChannel(p, c)
    case Destroy(c) => p.(chans := p.chans - {c})
  }

  ghost predicate Init<C(!new)>(p: Poller<C>) { p == Empty() }

  ghost predicate Next<C(!new)>(p: Poller<C>, p': Poller<C>) {
    exists step :: Enabled(p, step) && p' == Apply(p, step)
  }

  /** Over any run with distinct descriptors every ADD finds the fd absent and every MOD and DEL present. */
  lemma PollerSimulatesKernel<C(!new)>(run: seq<Poller<C>>, i: nat)
    requires Behaviors.IsBehavior(Init, Next, run) && i < |run|
    ensures Simulates(run[i]) && !run[i].aborted && run[i].failedDels == 0
  {
    forall p: Poller<C>, p': Poller<C> | Simulates(p) && Next(p, p') ensures Simulates(p') {
      var step :| Enabled(p, step) && p' == Apply(p, step);
      match step
      case Create(c, fd) => CreateKeeps(p, c, fd);
      case Update(c, events) => SetEventsSimulates(p, c, events);
      case Remove(c) => RemoveSimulates(p, c);
      case Destroy(c) => DestroyKeeps(p, c);
    }
    var inv := (p: Poller<C>) => Simulates(p);
    assert Behaviors.IsInductive(Init, Next, inv);
    Behaviors.InvariantHolds(Init, Next, inv, run, i);
  }
}
