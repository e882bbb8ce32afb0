/** What the timer queue promises over every run. */
module TimerTheorems {
  import opened TimerModel
  import opened TimerProofs
  import Behaviors

  function One(b: bool): nat { if b then 1 else 0 }

  /** In how many places the n-th timer created is. */
  function Owners(s: Queue, n: nat): nat
    requires n in s.born
  {
    var a := s.born[n].addr;
    One(n in s.freed)
    + One(Live(s, a, n) && a in s.queued)
    + One(Live(s, a, n) && a in TimerAddrs(s))
    + One(Live(s, a, n) && a in Held(s))
  }

  /**
   Every timer ever created is in exactly one of: queued for add, the timer list, the running batch,
   freed. No freed timer is touched and none is deleted twice.
   */
  lemma OwnershipPartition(run: seq<Queue>, i: nat)
    requires Behaviors.IsBehavior(Init, Next, run) && i < |run|
    ensures !run[i].crashed
    ensures forall n :: n in run[i].born ==> 1 <= n <= run[i].created
    ensures forall n :: n in run[i].born ==> Owners(run[i], n) == 1
  {
    Reachable(run, i);
    assert Sound(run[i]);
  }

  /** The two indexes hold the same timers under their current keys. */
  lemma IndexesAlwaysAgree(run: seq<Queue>, i: nat)
    requires Behaviors.IsBehavior(Init, Next, run) && i < |run|
    ensures IndexesAgree(run[i])
    ensures forall e, e' :: e in run[i].timers && e' in run[i].timers && e.addr == e'.addr ==> e == e'
    ensures |run[i].timers| == |run[i].active|
  {
    Reachable(run, i);
    SameSize(run[i].heap, run[i].timers, run[i].active);
  }

  lemma {:induction false} SameSize(heap: map<Addr, Timer>, timers: set<Entry>, active: set<TimerId>)
    requires forall e :: e in timers ==> e.addr in heap && e.when == heap[e.addr].expiration
                                         && TimerId(e.addr, heap[e.addr].sequence) in active
    requires forall x :: x in active ==> x.addr in heap && x.sequence == heap[x.addr].sequence
                                         && Entry(heap[x.addr].expiration, x.addr) in timers
    ensures |timers| == |active|
    decreases timers
  {
    if e :| e in timers {
      SameSize(heap, timers - {e}, active - {TimerId(e.addr, heap[e.addr].sequence)});
    } else {
      assert active == {};
    }
  }

  /** A handle whose timer is gone changes nothing, even when its address has been reused. */
  lemma StaleCancelIsHarmless(s: Queue, id: TimerId)
    requires Inv(s) && Enabled(s, Cancel(id)) && !Live(s, id.addr, id.sequence)
    ensures var s' := Apply(s, Cancel(id));
            s' == s.(canceling := s'.canceling) && forall a, n :: Live(s, a, n) ==> TimerId(a, n) != id
  {
    InvIsSafe(s, Cancel(id));
    if InBatch(s, id) {
      assert false;
    }
  }

  /**
   Cancelling a live timer is never lost once the timer has been added: it is deleted at once, or
   marked in the batch. A cancel that overtakes the add has no effect.
   */
  lemma CancelRegisters(s: Queue, id: TimerId)
    requires Inv(s) && Enabled(s, Cancel(id)) && Live(s, id.addr, id.sequence)
    ensures id.sequence in Apply(s, Cancel(id)).cancelled <==> id.addr !in s.queued
  {
    InvIsSafe(s, Cancel(id));
    if id.addr in Held(s) {
      assert InBatch(s, id);
    }
  }

  /** History only grows, and no run is of a timer freed before it. */
  predicate Extends(s: Queue, s': Queue) {
    && s.freed <= s'.freed && s.cancelled <= s'.cancelled && s.runs <= s'.runs
    && forall m :: |s.runs| <= m < |s'.runs| ==> s'.runs[m].sequence !in s.freed
  }

  lemma StepExtends(s: Queue, step: Step)
    requires Inv(s) && Enabled(s, step)
    ensures Extends(s, Apply(s, step))
  {
    InvIsSafe(s, step);
  }

  lemma NextExtends(run: seq<Queue>, i: nat)
    requires Behaviors.IsBehavior(Init, Next, run) && i + 1 < |run|
    ensures Extends(run[i], run[i + 1])
  {
    Reachable(run, i);
    assert Next(run[i], run[i + 1]);
    var step :| Enabled(run[i], step) && run[i + 1] == Apply(run[i], step);
    StepExtends(run[i], step);
  }

  lemma ExtendsTrans(s: Queue, m: Queue, s': Queue)
    requires Extends(s, m) && Extends(m, s')
    ensures Extends(s, s')
  {
    forall k | |s.runs| <= k < |s'.runs| ensures s'.runs[k].sequence !in s.freed {
      if k < |m.runs| {
        assert s'.runs[k] == m.runs[k];
      }
    }
  }

  lemma {:induction false} ExtendsStays(run: seq<Queue>, i: nat, j: nat)
    requires i <= j < |run|
    requires forall k, m :: i <= k && m == k + 1 && m <= j ==> Extends(run[k], run[m])
    ensures Extends(run[i], run[j])
    decreases j
  {
    if i < j {
      ExtendsStays(run, i, j - 1);
      ExtendsTrans(run[i], run[j - 1], run[j]);
    }
  }

  lemma RunExtends(run: seq<Queue>, i: nat, j: nat)
    requires Behaviors.IsBehavior(Init, Next, run) && i <= j < |run|
    ensures Extends(run[i], run[j])
  {
    hide Extends;
    hide Next;
    forall k, m | i <= k && m == k + 1 && m <= j ensures Extends(run[k], run[m]) {
      NextExtends(run, k);
    }
    ExtendsStays(run, i, j);
  }

  /**
   A timer cancelled by step i does not run at any time k after the batch running at i is over
   (j is any later moment between event handlers), even if it repeats and cancelled itself.
   */
  lemma CancellationHolds(run: seq<Queue>, i: nat, j: nat, k: nat, n: nat)
    requires Behaviors.IsBehavior(Init, Next, run) && i <= j <= k < |run|
    requires n in run[i].cancelled && run[j].phase.Idle?
    ensures n in run[k].freed && |run[j].runs| <= |run[k].runs|
    ensures forall m :: |run[j].runs| <= m < |run[k].runs| ==> run[k].runs[m].sequence != n
  {
    RunExtends(run, i, j);
    RunExtends(run, j, k);
    Reachable(run, j);
    assert Held(run[j]) == {};
  }

  /**
   Between event handlers a timer is gone exactly when it was cancelled or was one-shot and ran; one that
   ran and is not gone repeats and is back in the list.
   */
  lemma FreedExactly(run: seq<Queue>, i: nat, n: nat)
    requires Behaviors.IsBehavior(Init, Next, run) && i < |run| && run[i].phase.Idle?
    requires n in run[i].born
    ensures n in run[i].freed <==> n in run[i].cancelled || (!run[i].born[n].repeat && n in Ran(run[i]))
    ensures n !in run[i].freed ==>
              Live(run[i], run[i].born[n].addr, n)
              && (run[i].born[n].addr in run[i].queued || run[i].born[n].addr in TimerAddrs(run[i]))
    ensures n !in run[i].freed && n in Ran(run[i]) ==>
              run[i].born[n].repeat && run[i].born[n].addr in TimerAddrs(run[i])
  {
    var s := run[i];
    Reachable(run, i);
    assert Held(s) == {};
    if n !in s.freed && n in Ran(s) {
      var r :| r in s.runs && r.sequence == n;
      assert Spaced(s, r);
    }
  }

  /** Runs of one timer are its interval apart; in particular a one-shot timer runs at most once. */
  lemma RunsAreSpaced(run: seq<Queue>, i: nat, a: nat, b: nat)
    requires Behaviors.IsBehavior(Init, Next, run) && i < |run|
    requires a < b < |run[i].runs| && run[i].runs[a].sequence == run[i].runs[b].sequence
    ensures var n := run[i].runs[a].sequence;
            n in run[i].born && run[i].born[n].repeat
            && run[i].runs[a].at + run[i].born[n].delta <= run[i].runs[b].at
  {
    Reachable(run, i);
  }

  /**
   Between event handlers a pending timer cannot be slept through: the timerfd is readable by the
   time the earliest one is due and MIN_DELAY has passed since it was armed.
   */
  lemma NoTimerStranded(run: seq<Queue>, i: nat, e: Entry)
    requires Behaviors.IsBehavior(Init, Next, run) && i < |run|
    requires run[i].phase.Idle? && e in run[i].timers
    ensures run[i].fd.Armed? && run[i].fd.armedAt <= run[i].clock
    ensures run[i].fd.at <= Max(e.when, run[i].fd.armedAt + MIN_DELAY)
    ensures e.when <= run[i].clock && run[i].fd.armedAt + MIN_DELAY <= run[i].clock ==>
              Readable(run[i].fd, run[i].clock)
  {
    Reachable(run, i);
  }
}
