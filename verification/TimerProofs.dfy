/** Every step of the timer queue keeps its invariant; the theorems over whole runs follow. */
module TimerProofs {
  import opened TimerModel
  import Behaviors

  // ---------------------------------------------------------------- memory and indexes

  lemma InvIsSafe(s: Queue, step: Step)
    requires Sound(s) && Enabled(s, step)
    ensures Safe(s, step)
  {
  }

  lemma NewSound(s: Queue, a: Addr, when: int, delta: nat, repeat: bool)
    requires Sound(s) && Enabled(s, New(a, when, delta, repeat))
    ensures Sound(ApplyNew(s, a, when, delta, repeat))
  {
    NewOwned(s, a, when, delta, repeat);
  }

  lemma NewOwned(s: Queue, a: Addr, when: int, delta: nat, repeat: bool)
    requires Sound(s) && Enabled(s, New(a, when, delta, repeat))
    ensures Owned(ApplyNew(s, a, when, delta, repeat))
    ensures IndexesAgree(ApplyNew(s, a, when, delta, repeat))
  {
  }

  lemma AddSound(s: Queue, a: Addr)
    requires Sound(s) && Enabled(s, Add(a)) && a in s.heap
    ensures Sound(ApplyAdd(s, a))
  {
  }

  lemma CancelOwned(s: Queue, id: TimerId)
    requires Sound(s) && Enabled(s, Cancel(id)) && (id in s.active ==> id.addr in s.heap)
    ensures Owned(ApplyCancel(s, id))
  {
  }

  lemma CancelIndexes(s: Queue, id: TimerId)
    requires Sound(s) && Enabled(s, Cancel(id)) && (id in s.active ==> id.addr in s.heap)
    ensures IndexesAgree(ApplyCancel(s, id))
  {
  }

  lemma CancelSound(s: Queue, id: TimerId)
    requires Sound(s) && Enabled(s, Cancel(id)) && (id in s.active ==> id.addr in s.heap)
    ensures Sound(ApplyCancel(s, id))
  {
    CancelOwned(s, id);
    CancelIndexes(s, id);
  }

  lemma FireSound(s: Queue, expired: seq<Due>)
    requires Sound(s) && Enabled(s, Fire(expired))
    ensures Sound(ApplyFire(s, expired))
  {
  }

  lemma ReinsertOwned(s: Queue)
    requires Sound(s) && Enabled(s, ResetOne) && s.batch[s.phase.k].addr in s.heap
    ensures Owned(Reinsert(s, s.phase.now, s.phase.k))
  {
  }

  lemma ReinsertIndexes(s: Queue)
    requires Sound(s) && Enabled(s, ResetOne) && s.batch[s.phase.k].addr in s.heap
    ensures IndexesAgree(Reinsert(s, s.phase.now, s.phase.k))
  {
  }

  lemma ReinsertSound(s: Queue)
    requires Sound(s) && Enabled(s, ResetOne) && s.batch[s.phase.k].addr in s.heap
    ensures Sound(Reinsert(s, s.phase.now, s.phase.k))
  {
    ReinsertOwned(s);
    ReinsertIndexes(s);
  }

  lemma DiscardOwned(s: Queue)
    requires Sound(s) && Enabled(s, ResetOne)
    ensures Owned(Discard(s, s.phase.now, s.phase.k))
  {
  }

  lemma DiscardIndexes(s: Queue)
    requires Sound(s) && Enabled(s, ResetOne)
    ensures IndexesAgree(Discard(s, s.phase.now, s.phase.k))
  {
  }

  lemma DiscardSound(s: Queue)
    requires Sound(s) && Enabled(s, ResetOne)
    ensures Sound(Discard(s, s.phase.now, s.phase.k))
  {
    DiscardOwned(s);
    DiscardIndexes(s);
  }

  lemma ClockSound(s: Queue, step: Step)
    requires Sound(s) && Enabled(s, step) && (step.Tick? || step.Elsewhere?)
    ensures Sound(Apply(s, step))
  {
  }

  lemma RunNextSound(s: Queue)
    requires Sound(s) && Enabled(s, RunNext)
    ensures Sound(Apply(s, RunNext))
  {
  }

  lemma EndCallingSound(s: Queue)
    requires Sound(s) && Enabled(s, EndCalling)
    ensures Sound(Apply(s, EndCalling))
  {
  }

  lemma EndResetSound(s: Queue, first: Entry)
    requires Sound(s) && Enabled(s, EndReset(first))
    ensures Sound(ApplyEndReset(s, first))
  {
  }

  lemma ResetOneSound(s: Queue)
    requires Sound(s) && Enabled(s, ResetOne) && Safe(s, ResetOne)
    ensures Sound(Apply(s, ResetOne))
  {
    hide Sound;
    if GoesBack(s, s.phase.k) {
      ReinsertSound(s);
    } else {
      DiscardSound(s);
    }
  }

  lemma StepSound(s: Queue, step: Step)
    requires Sound(s) && Enabled(s, step)
    ensures Sound(Apply(s, step))
  {
    hide Sound;
    InvIsSafe(s, step);
    match step
    case New(a, when, delta, repeat) => NewSound(s, a, when, delta, repeat);
    case Add(a) => AddSound(s, a);
    case Cancel(id) => CancelSound(s, id);
    case Fire(expired) => FireSound(s, expired);
    case ResetOne => ResetOneSound(s);
    case EndReset(first) => EndResetSound(s, first);
    case RunNext => RunNextSound(s);
    case EndCalling => EndCallingSound(s);
    case _ => ClockSound(s, step);
  }

  // ---------------------------------------------------------------- cancellation

  lemma NewCancels(s: Queue, a: Addr, when: int, delta: nat, repeat: bool)
    requires Sound(s) && CancelsKept(s) && Enabled(s, New(a, when, delta, repeat))
    ensures CancelsKept(ApplyNew(s, a, when, delta, repeat))
  {
  }

  lemma AddCancels(s: Queue, a: Addr)
    requires Sound(s) && CancelsKept(s) && Enabled(s, Add(a)) && a in s.heap
    ensures CancelsKept(ApplyAdd(s, a))
  {
  }

  lemma CancelCancels(s: Queue, id: TimerId)
    requires Sound(s) && CancelsKept(s) && Enabled(s, Cancel(id)) && (id in s.active ==> id.addr in s.heap)
    ensures CancelsKept(ApplyCancel(s, id))
  {
  }

  lemma FireCancels(s: Queue, expired: seq<Due>)
    requires Sound(s) && CancelsKept(s) && Enabled(s, Fire(expired))
    ensures CancelsKept(ApplyFire(s, expired))
  {
  }

  lemma RunNextCancels(s: Queue)
    requires Sound(s) && CancelsKept(s) && Enabled(s, RunNext) && Safe(s, RunNext)
    ensures CancelsKept(Apply(s, RunNext))
  {
    var s' := Apply(s, RunNext);
    assert forall r :: r in s.runs ==> r in s'.runs;
  }

  lemma ReinsertCancels(s: Queue)
    requires Sound(s) && CancelsKept(s) && Enabled(s, ResetOne)
    requires s.batch[s.phase.k].addr in s.heap && GoesBack(s, s.phase.k)
    ensures CancelsKept(Reinsert(s, s.phase.now, s.phase.k))
  {
  }

  lemma DiscardCancels(s: Queue)
    requires Sound(s) && CancelsKept(s) && RunsSpaced(s) && Enabled(s, ResetOne)
    requires s.batch[s.phase.k].addr in s.heap && !GoesBack(s, s.phase.k)
    ensures CancelsKept(Discard(s, s.phase.now, s.phase.k))
  {
    var d := s.batch[s.phase.k];
    assert InBatch(s, TimerId(d.addr, d.sequence));
  }

  lemma StepCancels(s: Queue, step: Step)
    requires Inv(s) && Enabled(s, step)
    ensures CancelsKept(Apply(s, step))
  {
    InvIsSafe(s, step);
    match step
    case New(a, when, delta, repeat) => NewCancels(s, a, when, delta, repeat);
    case Add(a) => AddCancels(s, a);
    case Cancel(id) => CancelCancels(s, id);
    case Fire(expired) => FireCancels(s, expired);
    case RunNext => RunNextCancels(s);
    case ResetOne =>
      if GoesBack(s, s.phase.k) {
        ReinsertCancels(s);
      } else {
        DiscardCancels(s);
      }
    case _ =>
  }

  // ---------------------------------------------------------------- spacing of runs

  lemma NewRuns(s: Queue, a: Addr, when: int, delta: nat, repeat: bool)
    requires Sound(s) && RunsSpaced(s) && Enabled(s, New(a, when, delta, repeat))
    ensures RunsSpaced(ApplyNew(s, a, when, delta, repeat))
  {
  }

  lemma AddSpaced(s: Queue, a: Addr, r: Run)
    requires Sound(s) && Enabled(s, Add(a)) && a in s.heap && Spaced(s, r)
    ensures Spaced(ApplyAdd(s, a), r)
  {
  }

  lemma AddRuns(s: Queue, a: Addr)
    requires Sound(s) && RunsSpaced(s) && Enabled(s, Add(a)) && a in s.heap
    ensures RunsSpaced(ApplyAdd(s, a))
  {
    forall r | r in s.runs ensures Spaced(ApplyAdd(s, a), r) {
      AddSpaced(s, a, r);
    }
  }

  lemma CancelRuns(s: Queue, id: TimerId)
    requires Sound(s) && RunsSpaced(s) && Enabled(s, Cancel(id)) && (id in s.active ==> id.addr in s.heap)
    ensures RunsSpaced(ApplyCancel(s, id))
  {
  }

  lemma FireRuns(s: Queue, expired: seq<Due>)
    requires Sound(s) && RunsSpaced(s) && Enabled(s, Fire(expired))
    ensures RunsSpaced(ApplyFire(s, expired))
  {
  }

  /** The new run is at least the interval after every earlier run of the same timer. */
  lemma RunNextPairs(s: Queue, i: nat)
    requires Sound(s) && RunsSpaced(s) && Enabled(s, RunNext)
    requires i < |s.runs| && s.runs[i].sequence == s.batch[s.phase.k].sequence
    ensures var n := s.runs[i].sequence;
            n in s.born && s.born[n].repeat && s.runs[i].at + s.born[n].delta <= s.phase.now
  {
    assert Spaced(s, s.runs[i]);
  }

  lemma RunNextSpaced(s: Queue, r: Run)
    requires Sound(s) && RunsSpaced(s) && Enabled(s, RunNext) && Safe(s, RunNext)
    requires r in Apply(s, RunNext).runs
    ensures Spaced(Apply(s, RunNext), r)
  {
    if r in s.runs {
      assert Spaced(s, r);
    }
  }

  lemma RunNextAllPairs(s: Queue)
    requires Sound(s) && RunsSpaced(s) && Enabled(s, RunNext)
    ensures PairsSpaced(s.runs + [Run(s.batch[s.phase.k].sequence, s.phase.now)], s.born)
  {
    forall i | 0 <= i < |s.runs| && s.runs[i].sequence == s.batch[s.phase.k].sequence
      ensures var n := s.runs[i].sequence;
              n in s.born && s.born[n].repeat && s.runs[i].at + s.born[n].delta <= s.phase.now
    {
      RunNextPairs(s, i);
    }
  }

  lemma RunNextBatchRan(s: Queue)
    requires Sound(s) && BatchRan(s) && Enabled(s, RunNext) && Safe(s, RunNext)
    ensures BatchRan(Apply(s, RunNext))
  {
    var s' := Apply(s, RunNext);
    assert s'.runs[|s.runs|] in s'.runs;
    assert forall r :: r in s.runs ==> r in s'.runs;
  }

  lemma RunNextRuns(s: Queue)
    requires Sound(s) && RunsSpaced(s) && Enabled(s, RunNext) && Safe(s, RunNext)
    ensures RunsSpaced(Apply(s, RunNext))
  {
    hide Sound;
    hide Spaced;
    var s' := Apply(s, RunNext);
    forall r | r in s'.runs ensures Spaced(s', r) {
      RunNextSpaced(s, r);
    }
    RunNextAllPairs(s);
    RunNextBatchRan(s);
  }

  lemma ReinsertSpaced(s: Queue, r: Run)
    requires Sound(s) && RunsSpaced(s) && r in s.runs && Enabled(s, ResetOne)
    requires s.batch[s.phase.k].addr in s.heap && s.heap[s.batch[s.phase.k].addr].repeat
    ensures Spaced(Reinsert(s, s.phase.now, s.phase.k), r)
  {
    assert Spaced(s, r);
    assert r.sequence == s.batch[s.phase.k].sequence ==> r.at <= s.phase.now;
  }

  lemma ReinsertRuns(s: Queue)
    requires Sound(s) && RunsSpaced(s) && Enabled(s, ResetOne)
    requires s.batch[s.phase.k].addr in s.heap && s.heap[s.batch[s.phase.k].addr].repeat
    ensures RunsSpaced(Reinsert(s, s.phase.now, s.phase.k))
  {
    forall r | r in s.runs ensures Spaced(Reinsert(s, s.phase.now, s.phase.k), r) {
      ReinsertSpaced(s, r);
    }
  }

  lemma DiscardRuns(s: Queue)
    requires Sound(s) && RunsSpaced(s) && Enabled(s, ResetOne)
    ensures RunsSpaced(Discard(s, s.phase.now, s.phase.k))
  {
    forall r | r in s.runs ensures Spaced(Discard(s, s.phase.now, s.phase.k), r) {
      assert Spaced(s, r);
    }
  }

  lemma EndCallingRuns(s: Queue)
    requires Sound(s) && RunsSpaced(s) && Enabled(s, EndCalling)
    ensures RunsSpaced(Apply(s, EndCalling))
  {
  }

  lemma EndResetRuns(s: Queue, first: Entry)
    requires Sound(s) && RunsSpaced(s) && Enabled(s, EndReset(first))
    ensures RunsSpaced(ApplyEndReset(s, first))
  {
  }

  lemma ClockRuns(s: Queue, step: Step)
    requires RunsSpaced(s) && Enabled(s, step) && (step.Tick? || step.Elsewhere?)
    ensures RunsSpaced(Apply(s, step))
  {
  }

  lemma ResetOneRuns(s: Queue)
    requires Sound(s) && RunsSpaced(s) && Enabled(s, ResetOne) && Safe(s, ResetOne)
    ensures RunsSpaced(Apply(s, ResetOne))
  {
    hide Sound;
    hide RunsSpaced;
    if GoesBack(s, s.phase.k) {
      ReinsertRuns(s);
    } else {
      DiscardRuns(s);
    }
  }

  lemma StepRuns(s: Queue, step: Step)
    requires Inv(s) && Enabled(s, step)
    ensures RunsSpaced(Apply(s, step))
  {
    hide Sound;
    hide RunsSpaced;
    InvIsSafe(s, step);
    match step
    case New(a, when, delta, repeat) => NewRuns(s, a, when, delta, repeat);
    case Add(a) => AddRuns(s, a);
    case Cancel(id) => CancelRuns(s, id);
    case Fire(expired) => FireRuns(s, expired);
    case RunNext => RunNextRuns(s);
    case EndCalling => EndCallingRuns(s);
    case EndReset(first) => EndResetRuns(s, first);
    case ResetOne => ResetOneRuns(s);
    case _ => ClockRuns(s, step);
  }

  // ---------------------------------------------------------------- the timerfd

  lemma StepNotStranded(s: Queue, step: Step)
    requires Sound(s) && NotStranded(s) && Enabled(s, step)
    ensures NotStranded(Apply(s, step))
  {
    InvIsSafe(s, step);
  }

  lemma Inductive()
    ensures Behaviors.IsInductive(Init, Next, Inv)
  {
    forall s, s' | Inv(s) && Next(s, s') ensures Inv(s') {
      var step :| Enabled(s, step) && s' == Apply(s, step);
      StepSound(s, step);
      StepCancels(s, step);
      StepRuns(s, step);
      StepNotStranded(s, step);
    }
  }

  lemma Reachable(run: seq<Queue>, i: nat)
    requires Behaviors.IsBehavior(Init, Next, run) && i < |run|
    ensures Inv(run[i])
  {
    Inductive();
    Behaviors.InvariantHolds(Init, Next, Inv, run, i);
  }
}
