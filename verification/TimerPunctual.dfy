/** A timer's runs against the time it was asked for. */
module TimerPunctual {
  import opened TimerModel
  import opened TimerProofs
  import opened TimerTheorems
  import Behaviors

  /** The expiration of a timer that has not run is what was asked for; of one that has, its last run plus the interval. */
  ghost predicate DueOnTime(s: Queue, n: nat, expiration: int)
    requires n in s.born
  {
    && s.born[n].when <= expiration
    && if n in Ran(s) then Run(n, expiration - s.born[n].delta) in s.runs else expiration == s.born[n].when
  }

  ghost predicate EntriesOnTime(s: Queue) {
    forall a :: a in s.heap && (a in s.queued || a in TimerAddrs(s)) && s.heap[a].sequence in s.born ==>
      DueOnTime(s, s.heap[a].sequence, s.heap[a].expiration)
  }

  /** The batch member has not run in this batch and is due, or has run in it. */
  ghost predicate MemberOnTime(s: Queue, i: nat)
    requires i < |s.batch| && s.batch[i].sequence in s.born && !s.phase.Idle?
  {
    && s.born[s.batch[i].sequence].when <= s.batch[i].when
    && if s.phase.Calling? && s.phase.k <= i
       then DueOnTime(s, s.batch[i].sequence, s.batch[i].when)
       else Run(s.batch[i].sequence, s.phase.now) in s.runs
  }

  ghost predicate BatchOnTime(s: Queue) {
    !s.phase.Idle? ==>
      forall i :: From(s) <= i < |s.batch| && s.batch[i].sequence in s.born ==> MemberOnTime(s, i)
  }

  ghost predicate RunsOnTime(s: Queue) {
    forall r :: r in s.runs ==> r.sequence in s.born && s.born[r.sequence].when <= r.at
  }

  ghost predicate Punctual(s: Queue) {
    EntriesOnTime(s) && BatchOnTime(s) && RunsOnTime(s)
  }

  lemma NewEntries(s: Queue, a: Addr, when: int, delta: nat, repeat: bool)
    requires Sound(s) && RunsSpaced(s) && Punctual(s) && Enabled(s, New(a, when, delta, repeat))
    ensures EntriesOnTime(ApplyNew(s, a, when, delta, repeat))
  {
    hide BatchOnTime, RunsOnTime;
  }

  lemma NewBatch(s: Queue, a: Addr, when: int, delta: nat, repeat: bool)
    requires Sound(s) && RunsSpaced(s) && Punctual(s) && Enabled(s, New(a, when, delta, repeat))
    ensures BatchOnTime(ApplyNew(s, a, when, delta, repeat)) && RunsOnTime(ApplyNew(s, a, when, delta, repeat))
  {
    hide EntriesOnTime;
  }

  lemma NewPunctual(s: Queue, a: Addr, when: int, delta: nat, repeat: bool)
    requires Sound(s) && RunsSpaced(s) && Punctual(s) && Enabled(s, New(a, when, delta, repeat))
    ensures Punctual(ApplyNew(s, a, when, delta, repeat))
  {
    hide Sound, EntriesOnTime, BatchOnTime, RunsOnTime;
    NewEntries(s, a, when, delta, repeat);
    NewBatch(s, a, when, delta, repeat);
  }

  lemma AddEntries(s: Queue, a: Addr)
    requires Sound(s) && Punctual(s) && Enabled(s, Add(a)) && a in s.heap
    ensures EntriesOnTime(ApplyAdd(s, a))
  {
    hide BatchOnTime, RunsOnTime;
  }

  lemma AddBatch(s: Queue, a: Addr)
    requires Sound(s) && Punctual(s) && Enabled(s, Add(a)) && a in s.heap
    ensures BatchOnTime(ApplyAdd(s, a)) && RunsOnTime(ApplyAdd(s, a))
  {
    hide EntriesOnTime;
  }

  lemma AddPunctual(s: Queue, a: Addr)
    requires Sound(s) && Punctual(s) && Enabled(s, Add(a)) && a in s.heap
    ensures Punctual(ApplyAdd(s, a))
  {
    hide Sound, EntriesOnTime, BatchOnTime, RunsOnTime;
    AddEntries(s, a);
    AddBatch(s, a);
  }

  lemma CancelEntries(s: Queue, id: TimerId)
    requires Sound(s) && Punctual(s) && Enabled(s, Cancel(id)) && (id in s.active ==> id.addr in s.heap)
    ensures EntriesOnTime(ApplyCancel(s, id))
  {
    hide BatchOnTime, RunsOnTime;
  }

  lemma CancelBatch(s: Queue, id: TimerId)
    requires Sound(s) && Punctual(s) && Enabled(s, Cancel(id)) && (id in s.active ==> id.addr in s.heap)
    ensures BatchOnTime(ApplyCancel(s, id)) && RunsOnTime(ApplyCancel(s, id))
  {
    hide EntriesOnTime;
  }

  lemma CancelPunctual(s: Queue, id: TimerId)
    requires Sound(s) && Punctual(s) && Enabled(s, Cancel(id)) && (id in s.active ==> id.addr in s.heap)
    ensures Punctual(ApplyCancel(s, id))
  {
    hide Sound, EntriesOnTime, BatchOnTime, RunsOnTime;
    CancelEntries(s, id);
    CancelBatch(s, id);
  }

  lemma FireEntries(s: Queue, expired: seq<Due>)
    requires Sound(s) && Punctual(s) && Enabled(s, Fire(expired))
    ensures EntriesOnTime(ApplyFire(s, expired))
  {
    hide BatchOnTime, RunsOnTime;
  }

  lemma FireBatch(s: Queue, expired: seq<Due>)
    requires Sound(s) && Punctual(s) && Enabled(s, Fire(expired))
    ensures BatchOnTime(ApplyFire(s, expired)) && RunsOnTime(ApplyFire(s, expired))
  {
  }

  lemma FirePunctual(s: Queue, expired: seq<Due>)
    requires Sound(s) && Punctual(s) && Enabled(s, Fire(expired))
    ensures Punctual(ApplyFire(s, expired))
  {
    hide Sound, EntriesOnTime, BatchOnTime, RunsOnTime;
    FireEntries(s, expired);
    FireBatch(s, expired);
  }

  lemma RunNextEntries(s: Queue)
    requires Sound(s) && Punctual(s) && Enabled(s, RunNext) && Safe(s, RunNext)
    ensures EntriesOnTime(Apply(s, RunNext))
  {
    hide BatchOnTime, RunsOnTime;
    assert forall r :: r in s.runs ==> r in Apply(s, RunNext).runs;
  }

  lemma RunNextRunsOnTime(s: Queue)
    requires Sound(s) && Punctual(s) && Enabled(s, RunNext) && Safe(s, RunNext)
    ensures RunsOnTime(Apply(s, RunNext))
  {
    hide EntriesOnTime;
    assert MemberOnTime(s, s.phase.k);
  }

  lemma RunNextMember(s: Queue, i: nat)
    requires Sound(s) && Punctual(s) && Enabled(s, RunNext) && Safe(s, RunNext)
    requires i < |s.batch| && s.batch[i].sequence in s.born
    ensures MemberOnTime(Apply(s, RunNext), i)
  {
    hide EntriesOnTime, RunsOnTime;
    var s' := Apply(s, RunNext);
    assert forall r :: r in s.runs ==> r in s'.runs;
    assert s'.runs[|s.runs|] in s'.runs;
    assert MemberOnTime(s, i);
  }

  lemma RunNextPunctual(s: Queue)
    requires Sound(s) && Punctual(s) && Enabled(s, RunNext) && Safe(s, RunNext)
    ensures Punctual(Apply(s, RunNext))
  {
    hide Sound, EntriesOnTime, RunsOnTime, MemberOnTime;
    RunNextEntries(s);
    RunNextRunsOnTime(s);
    forall i: nat | i < |s.batch| && s.batch[i].sequence in s.born ensures MemberOnTime(Apply(s, RunNext), i) {
      RunNextMember(s, i);
    }
  }

  lemma ReinsertPunctual(s: Queue)
    requires Sound(s) && Punctual(s) && Enabled(s, ResetOne)
    requires s.batch[s.phase.k].addr in s.heap && s.heap[s.batch[s.phase.k].addr].repeat
    ensures Punctual(Reinsert(s, s.phase.now, s.phase.k))
  {
  }

  lemma DiscardPunctual(s: Queue)
    requires Sound(s) && Punctual(s) && Enabled(s, ResetOne)
    ensures Punctual(Discard(s, s.phase.now, s.phase.k))
  {
  }

  lemma EndCallingPunctual(s: Queue)
    requires Sound(s) && Punctual(s) && Enabled(s, EndCalling)
    ensures Punctual(Apply(s, EndCalling))
  {
  }

  lemma EndResetPunctual(s: Queue, first: Entry)
    requires Punctual(s) && Enabled(s, EndReset(first))
    ensures Punctual(ApplyEndReset(s, first))
  {
  }

  lemma ClockPunctual(s: Queue, step: Step)
    requires Punctual(s) && Enabled(s, step) && (step.Tick? || step.Elsewhere?)
    ensures Punctual(Apply(s, step))
  {
  }

  lemma ResetOnePunctual(s: Queue)
    requires Sound(s) && Punctual(s) && Enabled(s, ResetOne) && Safe(s, ResetOne)
    ensures Punctual(Apply(s, ResetOne))
  {
    hide Sound, Punctual;
    if GoesBack(s, s.phase.k) {
      ReinsertPunctual(s);
    } else {
      DiscardPunctual(s);
    }
  }

  lemma StepPunctual(s: Queue, step: Step)
    requires Inv(s) && Punctual(s) && Enabled(s, step)
    ensures Punctual(Apply(s, step))
  {
    hide Sound, Punctual;
    InvIsSafe(s, step);
    match step
    case New(a, when, delta, repeat) => NewPunctual(s, a, when, delta, repeat);
    case Add(a) => AddPunctual(s, a);
    case Cancel(id) => CancelPunctual(s, id);
    case Fire(expired) => FirePunctual(s, expired);
    case RunNext => RunNextPunctual(s);
    case EndCalling => EndCallingPunctual(s);
    case EndReset(first) => EndResetPunctual(s, first);
    case ResetOne => ResetOnePunctual(s);
    case _ => ClockPunctual(s, step);
  }

  ghost predicate PunctualInv(s: Queue) {
    Inv(s) && Punctual(s)
  }

  lemma AlwaysPunctual(run: seq<Queue>, i: nat)
    requires Behaviors.IsBehavior(Init, Next, run) && i < |run|
    ensures PunctualInv(run[i])
  {
    forall s | Init(s) ensures PunctualInv(s) {
      assert Inv(s) by { Inductive(); }
    }
    hide Inv, Punctual;
    forall s, s' | PunctualInv(s) && Next(s, s') ensures PunctualInv(s') {
      var step :| Enabled(s, step) && s' == Apply(s, step);
      assert Inv(s') by { Inductive(); }
      StepPunctual(s, step);
    }
    Behaviors.InvariantHolds(Init, Next, PunctualInv, run, i);
  }

  /** What is on record of a timer is what was asked for, under the next number. */
  lemma NewRecords(s: Queue, a: Addr, when: int, delta: nat, repeat: bool)
    requires Enabled(s, New(a, when, delta, repeat))
    ensures var s' := Apply(s, New(a, when, delta, repeat));
            && s'.created == s.created + 1 && s'.born == s.born[s'.created := Birth(a, when, delta, repeat)]
            && a in s'.heap && a in s'.queued
            && s'.heap[a].expiration == when && s'.heap[a].delta == delta && s'.heap[a].repeat == repeat
            && s'.heap[a].sequence == s'.created
  {
  }

  /** No timer runs before the time it was asked for. */
  lemma RunsNotEarly(run: seq<Queue>, i: nat, k: nat)
    requires Behaviors.IsBehavior(Init, Next, run) && i < |run| && k < |run[i].runs|
    ensures var r := run[i].runs[k]; r.sequence in run[i].born && run[i].born[r.sequence].when <= r.at
  {
    AlwaysPunctual(run, i);
    assert run[i].runs[k] in run[i].runs;
  }

  /**
   A timer in the list is due exactly when it was asked for, as long as it has not run, and after that exactly
   its interval after its last run.
   */
  lemma ListedOnTime(run: seq<Queue>, i: nat, e: Entry)
    requires Behaviors.IsBehavior(Init, Next, run) && i < |run| && e in run[i].timers
    ensures e.addr in run[i].heap && run[i].heap[e.addr].sequence in run[i].born
    ensures var n := run[i].heap[e.addr].sequence;
            if n in Ran(run[i]) then Run(n, e.when - run[i].born[n].delta) in run[i].runs
            else e.when == run[i].born[n].when
  {
    AlwaysPunctual(run, i);
    hide RunsSpaced, CancelsKept, NotStranded, BatchOnTime;
    assert e.addr in TimerAddrs(run[i]) && BirthOf(run[i], e.addr);
  }
}
