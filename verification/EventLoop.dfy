/**
 The task queue and wakeup protocol of one event loop: the loop thread and any number of posting
 threads, interleaved at every lock, flag and eventfd access.
 */
module EventLoops {
  import Behaviors

  type Thread = nat
  type Functor = nat

  /** An eventfd counter saturates here; a non-blocking write then fails and leaves it positive. */
  const EVENTFD_MAX: nat := 0xffff_ffff_ffff_fffe

  /**
   Where the loop thread stands. `wake` says that the wakeup channel is still to be handled in this
   round; `owes` that a running functor has pushed and not yet written the eventfd.
   */
  datatype Pc =
    | NotStarted
    | CheckQuit
    | AtPoll
    | Dispatch(wake: bool)
    | AtSwap
    | Running(owes: bool)
    | Exited

  datatype Loop = Loop(
    pc: Pc,
    calling: bool,
    quit: bool,
    eventfd: nat,
    pending: seq<Functor>,
    batch: seq<Functor>,
    /** Posters between their push (or quit) and their wakeup. */
    owing: set<Thread>,
    /** History: functors run, functors pushed in mutex order. */
    ran: seq<Functor>,
    pushed: seq<Functor>,
    /** History: the loop thread queued before `loop()`, and that functor has not been swapped out. */
    early: bool,
    /** History: returns from poll since the standing quit request. */
    pollsAfterQuit: nat)

  const FRESH := Loop(NotStarted, false, false, 0, [], [], {}, [], [], false, 0)

  datatype Step =
    | PosterPush(t: Thread, f: Functor)
    | PosterQuit(t: Thread)
    | PosterWake(t: Thread)
    | Start
    | Check
    | PollReturn(wake: bool)
    | Drain
    | LoopPush(f: Functor)
    | LoopWake
    | LoopQuit
    | EndDispatch
    | Swap
    | RunNext
    | Finish

  predicate Enabled(s: Loop, step: Step) {
    match step
    case PosterPush(t, _) => t !in s.owing
    case PosterQuit(t) => t !in s.owing
    case PosterWake(t) => t in s.owing
    case Start => s.pc.NotStarted?
    case Check => s.pc.CheckQuit?
    case PollReturn(wake) => s.pc.AtPoll? && (wake ==> s.eventfd > 0)
    case Drain => s.pc == Dispatch(true)
    case LoopPush(_) => s.pc.NotStarted? || s.pc.Dispatch? || s.pc == Running(false)
    case LoopWake => s.pc == Running(true)
    case LoopQuit => s.pc.Dispatch? || s.pc.Running?
    case EndDispatch => s.pc == Dispatch(false)
    case Swap => s.pc.AtSwap?
    case RunNext => s.pc == Running(false) && s.batch != []
    case Finish => s.pc == Running(false) && s.batch == []
  }

  function Wakeup(s: Loop): Loop {
    s.(eventfd := if s.eventfd < EVENTFD_MAX then s.eventfd + 1 else s.eventfd)
  }

  function Push(s: Loop, f: Functor): Loop {
    s.(pending := s.pending + [f], pushed := s.pushed + [f])
  }

  function Apply(s: Loop, step: Step): Loop
    requires Enabled(s, step)
  {
    match step
    case PosterPush(t, f) => Push(s, f).(owing := s.owing + {t})
    case PosterQuit(t) => s.(quit := true, owing := s.owing + {t})
    case PosterWake(t) => Wakeup(s).(owing := s.owing - {t})
    case Start => s.(pc := CheckQuit, quit := false, pollsAfterQuit := 0)
    case Check => s.(pc := if s.quit then Exited else AtPoll)
    case PollReturn(wake) =>
      s.(pc := Dispatch(wake), pollsAfterQuit := s.pollsAfterQuit + if s.quit then 1 else 0)
    case Drain => s.(pc := Dispatch(false), eventfd := 0)
    case LoopPush(f) =>
      if s.calling then Push(s, f).(pc := Running(true))
      else Push(s, f).(early := s.early || s.pc.NotStarted?)
    case LoopWake => Wakeup(s).(pc := Running(false))
    case LoopQuit => s.(quit := true)
    case EndDispatch => s.(pc := AtSwap, calling := true)
    case Swap => s.(pc := Running(false), batch := s.pending, pending := [], early := false)
    case RunNext => s.(ran := s.ran + [s.batch[0]], batch := s.batch[1..])
    case Finish => s.(pc := CheckQuit, calling := false)
  }

  ghost predicate Init(s: Loop) { s == FRESH }

  ghost predicate Next(s: Loop, s': Loop) {
    exists step :: Enabled(s, step) && s' == Apply(s, step)
  }

  // ---------------------------------------------------------------- invariant

  /** Somebody has woken the loop, or is about to. */
  predicate WakeupDue(s: Loop) {
    s.eventfd > 0 || s.owing != {}
  }

  predicate QueueInOrder(s: Loop) {
    && s.ran + s.batch + s.pending == s.pushed
    && (s.pc.Running? || s.batch == [])
    && (s.calling <==> s.pc.AtSwap? || s.pc.Running?)
    && (s.pc.Running? ==> !s.early)
  }

  /** From the swap to the next poll, every later push has its wakeup. */
  predicate PushesCovered(s: Loop) {
    s.pending != [] && (s.pc.NotStarted? || s.pc.Running? || s.pc.CheckQuit? || s.pc.AtPoll?) ==>
      WakeupDue(s) || s.early || s.pc == Running(true)
  }

  predicate QuitCovered(s: Loop) {
    && (s.quit && s.pc.AtPoll? ==> WakeupDue(s) && s.pollsAfterQuit == 0)
    && (!s.quit ==> s.pollsAfterQuit == 0)
    && s.pollsAfterQuit <= 1
    && (s.pc.NotStarted? ==> s.pollsAfterQuit == 0)
  }

  ghost predicate Inv(s: Loop) {
    QueueInOrder(s) && PushesCovered(s) && QuitCovered(s)
  }

  lemma StepKeepsOrder(s: Loop, step: Step)
    requires QueueInOrder(s) && Enabled(s, step)
    ensures QueueInOrder(Apply(s, step))
  {
    if step.RunNext? {
      assert s.batch == [s.batch[0]] + s.batch[1..];
    } else if step.PosterPush? || step.LoopPush? {
      assert s.ran + s.batch + (s.pending + [step.f]) == s.ran + s.batch + s.pending + [step.f];
    }
  }

  lemma StepKeepsCover(s: Loop, step: Step)
    requires Inv(s) && Enabled(s, step)
    ensures PushesCovered(Apply(s, step)) && QuitCovered(Apply(s, step))
  {
    if step.PosterPush? || step.PosterQuit? {
      assert step.t in Apply(s, step).owing;
    }
  }

  lemma Inductive()
    ensures Behaviors.IsInductive(Init, Next, Inv)
  {
    forall s, s' | Inv(s) && Next(s, s') ensures Inv(s') {
      var step :| Enabled(s, step) && s' == Apply(s, step);
      StepKeepsOrder(s, step);
      StepKeepsCover(s, step);
    }
  }

  lemma Reachable(run: seq<Loop>, i: nat)
    requires Behaviors.IsBehavior(Init, Next, run) && i < |run|
    ensures Inv(run[i])
  {
    Inductive();
    Behaviors.InvariantHolds(Init, Next, Inv, run, i);
  }

  // ---------------------------------------------------------------- theorems over whole runs

  /**
   Whenever the loop is at poll with work queued, the eventfd is readable or a poster is about to
   write it, unless the loop thread itself queued before it entered `loop()`.
   */
  lemma NoLostWakeup(run: seq<Loop>, i: nat)
    requires Behaviors.IsBehavior(Init, Next, run) && i < |run|
    ensures run[i].pc.AtPoll? && run[i].pending != [] && !run[i].early ==>
              run[i].eventfd > 0 || run[i].owing != {}
  {
    Reachable(run, i);
  }

  /**
   The exception is real, however the loop was prepared: as long as nobody woke it before it started, a
   functor queued by the loop thread before `loop()` waits for a timeout.
   */
  lemma EarlyPushSleeps(before: seq<Loop>, f: Functor) returns (run: seq<Loop>)
    requires Behaviors.IsBehavior(Init, Next, before)
    requires var s := before[|before| - 1];
             s.pc.NotStarted? && s.eventfd == 0 && s.owing == {}
    ensures Behaviors.IsBehavior(Init, Next, run) && before <= run
    ensures var s := run[|run| - 1];
            s.pc.AtPoll? && s.pending == before[|before| - 1].pending + [f] && s.eventfd == 0 && s.owing == {}
  {
    var s := before[|before| - 1];
    Reachable(before, |before| - 1);
    var s1 := Apply(s, LoopPush(f));
    var s2 := Apply(s1, Start);
    var s3 := Apply(s2, Check);
    assert Next(s, s1) by { assert Enabled(s, LoopPush(f)); }
    assert Next(s1, s2) by { assert Enabled(s1, Start); }
    assert Next(s2, s3) by { assert Enabled(s2, Check); }
    Behaviors.Continue(Init, Next, before, s1);
    Behaviors.Continue(Init, Next, before + [s1], s2);
    Behaviors.Continue(Init, Next, before + [s1] + [s2], s3);
    run := before + [s1] + [s2] + [s3];
  }

  /** It can only happen in the first round: after any swap there is no such functor left. */
  lemma {:induction false} EarlyOnlyFirstRound(run: seq<Loop>, i: nat, j: nat)
    requires Behaviors.IsBehavior(Init, Next, run) && i <= j < |run|
    requires run[i].pc.Running?
    ensures !run[j].early && !run[j].pc.NotStarted?
    decreases j
  {
    Reachable(run, i);
    if i < j {
      EarlyOnlyFirstRound(run, i, j - 1);
      assert Next(run[j - 1], run[j]);
    }
  }

  /** Every functor pushed is run at most once, in mutex order, and none is lost on the way. */
  lemma ExactlyOnceFifo(run: seq<Loop>, i: nat)
    requires Behaviors.IsBehavior(Init, Next, run) && i < |run|
    ensures run[i].ran + run[i].batch + run[i].pending == run[i].pushed
  {
    Reachable(run, i);
  }

  /** What the round has run and what is left of it. */
  function Snapshot(s: Loop): seq<Functor> {
    s.ran + s.batch
  }

  lemma StepInRound(s: Loop, step: Step)
    requires Enabled(s, step) && s.pc.Running? && Apply(s, step).pc.Running?
    ensures var s' := Apply(s, step);
            s'.ran + s'.batch == s.ran + s.batch
  {
    if step.RunNext? {
      assert s.ran + s.batch == (s.ran + [s.batch[0]]) + s.batch[1..];
    }
  }

  lemma NextInRound(run: seq<Loop>, i: nat)
    requires Behaviors.IsBehavior(Init, Next, run) && i + 1 < |run|
    requires run[i].pc.Running? && run[i + 1].pc.Running?
    ensures Snapshot(run[i + 1]) == Snapshot(run[i])
  {
    assert Next(run[i], run[i + 1]);
    var step :| Enabled(run[i], step) && run[i + 1] == Apply(run[i], step);
    StepInRound(run[i], step);
  }

  lemma NextSwaps(run: seq<Loop>, i: nat)
    requires Behaviors.IsBehavior(Init, Next, run) && i + 1 < |run|
    requires run[i].pc.AtSwap? && run[i + 1].pc.Running?
    ensures run[i + 1].batch == run[i].pending && run[i + 1].ran == run[i].ran
  {
    assert Next(run[i], run[i + 1]);
  }

  /**
   One round runs exactly the functors that were pending at its swap, whatever is pushed meanwhile; so it
   makes that many calls and ends.
   */
  lemma RoundRunsSnapshot(run: seq<Loop>, i: nat, j: nat)
    requires Behaviors.IsBehavior(Init, Next, run) && i < j < |run|
    requires run[i].pc.AtSwap? && forall k :: i < k <= j ==> run[k].pc.Running?
    ensures run[j].ran + run[j].batch == run[i].ran + run[i].pending
    ensures |run[j].ran| - |run[i].ran| == |run[i].pending| - |run[j].batch|
  {
    NextSwaps(run, i);
    forall k | i + 1 <= k < j ensures Snapshot(run[k + 1]) == Snapshot(run[k]) {
      NextInRound(run, k);
    }
    SnapshotStays(run, i + 1, j);
    assert |Snapshot(run[j])| == |Snapshot(run[i + 1])|;
  }

  lemma {:induction false} SnapshotStays(run: seq<Loop>, i: nat, j: nat)
    requires i <= j < |run| && forall k :: i <= k < j ==> Snapshot(run[k + 1]) == Snapshot(run[k])
    ensures Snapshot(run[j]) == Snapshot(run[i])
    decreases j
  {
    if i < j {
      SnapshotStays(run, i, j - 1);
      assert Snapshot(run[j - 1 + 1]) == Snapshot(run[j - 1]);
    }
  }

  /** A quit request made while the loop runs is seen after at most one more return from poll. */
  lemma QuitEndsLoop(run: seq<Loop>, i: nat)
    requires Behaviors.IsBehavior(Init, Next, run) && i < |run|
    ensures run[i].pollsAfterQuit <= 1
    ensures run[i].quit && run[i].pc.AtPoll? ==>
              run[i].pollsAfterQuit == 0 && (run[i].eventfd > 0 || run[i].owing != {})
  {
    Reachable(run, i);
  }

  /** Once set in a running loop, the request stands until the loop has exited. */
  lemma {:induction false} QuitStands(run: seq<Loop>, i: nat, j: nat)
    requires Behaviors.IsBehavior(Init, Next, run) && i <= j < |run|
    requires run[i].quit && !run[i].pc.NotStarted?
    ensures run[j].quit && !run[j].pc.NotStarted?
    ensures run[j].pollsAfterQuit == 1 ==> !run[j].pc.AtPoll?
    decreases j
  {
    Reachable(run, j);
    if i < j {
      QuitStands(run, i, j - 1);
      assert Next(run[j - 1], run[j]);
    }
  }

  // ---------------------------------------------------------------- leaving, and getting on

  /** What the flag and the eventfd are for: quit steps raise the one, wakeups the other, and a drain lowers it. */
  lemma StepSignals(s: Loop, step: Step)
    requires Enabled(s, step)
    ensures step.PosterQuit? || step.LoopQuit? ==> Apply(s, step).quit
    ensures Apply(s, step).quit && !s.quit ==> step.PosterQuit? || step.LoopQuit?
    ensures step.PosterWake? || step.LoopWake? ==> Apply(s, step).eventfd > 0
    ensures Apply(s, step).eventfd > s.eventfd ==> step.PosterWake? || step.LoopWake?
    ensures step.Drain? ==> Apply(s, step).eventfd == 0
    ensures Apply(s, step).eventfd < s.eventfd ==> step.Drain?
    ensures step.PosterPush? || step.PosterQuit? ==> step.t in Apply(s, step).owing
    ensures Apply(s, step).owing != s.owing ==> step.PosterPush? || step.PosterQuit? || step.PosterWake?
    ensures Apply(s, step).pushed == if step.PosterPush? || step.LoopPush? then s.pushed + [step.f] else s.pushed
    ensures Apply(s, step).ran != s.ran ==> step.RunNext?
    ensures step.Start? ==> !Apply(s, step).quit
    ensures Apply(s, step).pollsAfterQuit > s.pollsAfterQuit <==> step.PollReturn? && s.quit
  {
  }

  ghost predicate LeavesOnQuit(s: Loop) {
    s.pc.Exited? ==> s.quit
  }

  /** `loop()` returns only after a quit request. */
  lemma ExitsOnlyOnQuit(run: seq<Loop>, i: nat)
    requires Behaviors.IsBehavior(Init, Next, run) && i < |run|
    ensures run[i].pc.Exited? ==> run[i].quit
  {
    assert Behaviors.IsInductive(Init, Next, LeavesOnQuit);
    Behaviors.InvariantHolds(Init, Next, LeavesOnQuit, run, i);
  }

  /** What the loop thread does next when its callbacks and functors post nothing. */
  function OwnStep(s: Loop): Step
    requires !s.pc.Exited?
  {
    match s.pc
    case NotStarted => Start
    case CheckQuit => Check
    case AtPoll => PollReturn(s.eventfd > 0)
    case Dispatch(wake) => if wake then Drain else EndDispatch
    case AtSwap => Swap
    case Running(owes) => if owes then LoopWake else if s.batch != [] then RunNext else Finish
  }

  function ToSwap(pc: Pc): nat {
    match pc
    case Running(owes) => if owes then 7 else 6
    case CheckQuit => 5
    case AtPoll => 4
    case Dispatch(wake) => if wake then 3 else 2
    case AtSwap => 1
    case _ => 8
  }

  function ToCheck(pc: Pc): nat {
    match pc
    case AtPoll => 7
    case Dispatch(wake) => if wake then 6 else 5
    case AtSwap => 4
    case Running(owes) => if owes then 3 else 2
    case CheckQuit => 1
    case _ => 8
  }

  lemma OwnStepLeads(s: Loop)
    requires Inv(s) && !s.pc.Exited?
    ensures Enabled(s, OwnStep(s))
    ensures Inv(Apply(s, OwnStep(s))) && Behaviors.Leads(Next, s, Apply(s, OwnStep(s)))
    ensures Apply(s, OwnStep(s)).pushed == s.pushed && Apply(s, OwnStep(s)).owing == s.owing
  {
    var step := OwnStep(s);
    StepKeepsOrder(s, step);
    StepKeepsCover(s, step);
    assert Next(s, Apply(s, step));
    Behaviors.LeadsStep(Next, s, Apply(s, step));
  }

  /** A running loop that is not asked to quit gets round to everything that has been pushed, and goes on. */
  lemma PendingRuns(s: Loop) returns (s': Loop)
    requires Inv(s) && !s.quit && !s.pc.NotStarted? && !s.pc.Exited?
    ensures Behaviors.Leads(Next, s, s') && s'.ran == s.pushed == s'.pushed && !s'.quit
    ensures Inv(s') && s'.owing == s.owing && !s'.pc.NotStarted? && !s'.pc.Exited?
    decreases if s.pending != [] then 1 else 0, ToSwap(s.pc), |s.batch|
  {
    if s.pending == [] && s.batch == [] {
      Behaviors.LeadsNowhere(Next, s);
      assert s.ran + s.batch + s.pending == s.ran;
      return s;
    }
    OwnStepLeads(s);
    hide Next;
    var s1 := Apply(s, OwnStep(s));
    s' := PendingRuns(s1);
    Behaviors.LeadsOn(Next, s, s1, s');
  }

  /** A wakeup still to be written comes first, then one still to be read. */
  function Unrest(s: Loop): nat {
    if s.pc == Running(true) then 2 else if s.eventfd > 0 then 1 else 0
  }

  function ToPoll(pc: Pc): nat {
    if pc.AtPoll? then 0 else ToCheck(pc)
  }

  function ToDrain(pc: Pc): nat {
    match pc
    case Dispatch(wake) => if wake then 0 else 5
    case AtPoll => 1
    case CheckQuit => 2
    case Running(_) => 3
    case _ => 4
  }

  /** With nothing left to run, the loop reads its eventfd and goes to poll. */
  lemma ComesToRest(s: Loop) returns (s': Loop)
    requires Inv(s) && !s.quit && !s.pc.NotStarted? && !s.pc.Exited? && s.pending == [] && s.batch == []
    ensures Behaviors.Leads(Next, s, s') && s'.pc.AtPoll? && s'.eventfd == 0 && s'.pending == []
    ensures s'.ran == s.ran && s'.pushed == s.pushed
    decreases Unrest(s), if s.eventfd > 0 then ToDrain(s.pc) else ToPoll(s.pc)
  {
    if s.pc.AtPoll? && s.eventfd == 0 {
      Behaviors.LeadsNowhere(Next, s);
      return s;
    }
    OwnStepLeads(s);
    hide Next;
    var s1 := Apply(s, OwnStep(s));
    s' := ComesToRest(s1);
    Behaviors.LeadsOn(Next, s, s1, s');
  }

  /** A loop that is asked to quit gets round to leaving. */
  lemma QuitLeaves(s: Loop) returns (s': Loop)
    requires Inv(s) && s.quit && !s.pc.NotStarted?
    ensures Behaviors.Leads(Next, s, s') && s'.pc.Exited?
    decreases ToCheck(s.pc), |s.batch|
  {
    if s.pc.Exited? {
      Behaviors.LeadsNowhere(Next, s);
      return s;
    }
    OwnStepLeads(s);
    hide Next;
    var s1 := Apply(s, OwnStep(s));
    if s1.pc.Exited? {
      return s1;
    }
    s' := QuitLeaves(s1);
    Behaviors.LeadsOn(Next, s, s1, s');
  }

  /** Over every run: what has been pushed can still run while nobody has asked to quit, and only a quit ends the loop. */
  lemma LoopGetsOn(run: seq<Loop>, i: nat) returns (s': Loop)
    requires Behaviors.IsBehavior(Init, Next, run) && i < |run| && !run[i].pc.NotStarted?
    ensures Behaviors.Leads(Next, run[i], s')
    ensures if run[i].quit then s'.pc.Exited? else s'.ran == run[i].pushed && !s'.pc.Exited?
  {
    Reachable(run, i);
    ExitsOnlyOnQuit(run, i);
    if run[i].quit {
      s' := QuitLeaves(run[i]);
    } else {
      s' := PendingRuns(run[i]);
    }
  }

  /** It does not spin: when nobody posts, a loop not asked to quit comes to sleep at poll with all work done. */
  lemma LoopRests(run: seq<Loop>, i: nat) returns (s': Loop)
    requires Behaviors.IsBehavior(Init, Next, run) && i < |run| && !run[i].pc.NotStarted?
    requires !run[i].quit
    ensures Behaviors.Leads(Next, run[i], s') && s'.pc.AtPoll? && s'.eventfd == 0 && s'.pending == []
    ensures s'.ran == run[i].pushed
  {
    Reachable(run, i);
    ExitsOnlyOnQuit(run, i);
    var a := PendingRuns(run[i]);
    AllRan(a);
    s' := ComesToRest(a);
    Behaviors.LeadsOn(Next, run[i], a, s');
  }

  lemma AllRan(s: Loop)
    requires Inv(s) && s.ran == s.pushed
    ensures s.batch == [] && s.pending == []
  {
    assert |s.ran + s.batch + s.pending| == |s.pushed|;
  }
}
