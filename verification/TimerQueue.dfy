/** The timer queue itself: ordered sets and a heap updated in place, refining the state machine. */
module TimerQueues {
  import opened TimerModel
  import opened TimerProofs
  import Behaviors

  /** What a user callback may do to the queue it runs from. */
  datatype Action =
    | AddAction(addr: Addr, when: int, delta: nat, repeat: bool)
    | CancelAction(id: TimerId)
    | TimePasses(t: int)

  predicate Before(a: Entry, b: Entry) {
    a.when < b.when || (a.when == b.when && a.addr < b.addr)
  }

  /** An ordered set is kept as its elements in order. */
  predicate Ordered(s: seq<Entry>) {
    forall i, j :: 0 <= i < j < |s| ==> Before(s[i], s[j])
  }

  function Elements(s: seq<Entry>): set<Entry> {
    set e | e in s
  }

  /** One step of the machine after another leads from `s` to `s'`. */
  ghost predicate Reaches(s: Queue, s': Queue) {
    Behaviors.Leads(Next, s, s')
  }

  lemma ReachesNext(s: Queue, m: Queue, s': Queue)
    requires Reaches(s, m) && Next(m, s')
    ensures Reaches(s, s')
  {
    Behaviors.LeadsStep(Next, m, s');
    Behaviors.LeadsOn(Next, s, m, s');
  }

  lemma ReachesSelf(s: Queue)
    ensures Reaches(s, s)
  {
    Behaviors.LeadsNowhere(Next, s);
  }

  /** The value handed to `timerfd_settime`: a valid time that is never the disarming zero. */
  function HowMuchTimeFromNow(when: int, now: int): (ts: (nat, nat))
    ensures ts.1 < 1_000_000_000 && ts != (0, 0)
    ensures ts.0 * 1_000_000_000 + ts.1 == 1000 * Max(when - now, MIN_DELAY)
  {
    var microseconds := if when - now < 100 then 100 else when - now;
    (microseconds / 1_000_000, (microseconds % 1_000_000) * 1000)
  }

  class TimerQueue {
    var heap: map<Addr, Timer>
    var numCreated: nat
    var timers: seq<Entry>
    var activeTimers: set<TimerId>
    var cancelingTimers: set<TimerId>
    var callingExpiredTimers: bool
    var timerfd: Fd
    /** What `Timestamp::now()` answers; only the environment advances it. */
    var clock: int
    ghost var model: Queue

    ghost predicate Valid()
      reads this
    {
      && Matches() && Inv(model)
    }

    /** The fields are those of the model. */
    ghost predicate Matches()
      reads this
    {
      && model.heap == heap && model.created == numCreated
      && Ordered(timers) && Elements(timers) == model.timers
      && model.active == activeTimers && model.canceling == cancelingTimers
      && (callingExpiredTimers <==> model.phase.Calling?)
      && model.fd == timerfd && model.clock == clock
    }

    constructor (clock: int)
      ensures Valid() && model == Empty(clock)
    {
      heap, numCreated, timers, activeTimers, cancelingTimers := map[], 0, [], {}, {};
      callingExpiredTimers, timerfd := false, Off;
      this.clock, model := clock, Empty(clock);
    }

    method Observe(now: int)
      requires Matches() && clock <= now
      modifies this`clock, this`model
      ensures Matches() && model == Apply(old(model), Tick(now)) && clock == now
    {
      model := Apply(model, Tick(now));
      clock := now;
    }

    /** Another queue took a sequence number. */
    method CreatedElsewhere()
      requires Matches()
      modifies this`numCreated, this`model
      ensures Matches() && model == Apply(old(model), Elsewhere) && numCreated == old(numCreated) + 1
    {
      model := Apply(model, Elsewhere);
      numCreated := numCreated + 1;
    }

    /** Puts an entry in both indexes and tells whether it is now the earliest. */
    method Insert(a: Addr) returns (earliestChanged: bool)
      requires a in heap && Ordered(timers)
      requires Entry(heap[a].expiration, a) !in timers
      modifies this`timers, this`activeTimers
      ensures Ordered(timers) && Elements(timers) == Elements(old(timers)) + {Entry(heap[a].expiration, a)}
      ensures activeTimers == old(activeTimers) + {TimerId(a, heap[a].sequence)}
      ensures earliestChanged == EarliestChanged(Elements(old(timers)), heap[a].expiration)
    {
      var e := Entry(heap[a].expiration, a);
      earliestChanged := timers == [] || e.when < timers[0].when;
      if timers != [] {
        assert timers[0] in Elements(timers);
      }
      var i := 0;
      while i < |timers| && Before(timers[i], e)
        invariant i <= |timers|
        invariant forall j :: 0 <= j < i ==> Before(timers[j], e)
      {
        i := i + 1;
      }
      InsertOrdered(timers, e, i);
      timers := timers[..i] + [e] + timers[i..];
      activeTimers := activeTimers + {TimerId(a, heap[a].sequence)};
    }

    method ResetTimerfd(expiration: int)
      modifies this`timerfd
      ensures timerfd == Armed(if expiration - clock < 100 then clock + 100 else expiration, clock)
    {
      var ts := HowMuchTimeFromNow(expiration, clock);
      timerfd := Armed(clock + (ts.0 * 1_000_000_000 + ts.1) / 1000, clock);
    }

    /** `new Timer` at an address the allocator had free. */
    method NewTimer(a: Addr, when: int, delta: nat, repeat: bool)
      requires Matches() && a !in heap && a < UINTPTR_MAX
      modifies this`heap, this`numCreated, this`model
      ensures Matches() && model == Apply(old(model), New(a, when, delta, repeat))
      ensures numCreated == old(numCreated) + 1 && heap == old(heap)[a := heap[a]]
      ensures heap[a].expiration == when && heap[a].delta == delta && heap[a].repeat == repeat
      ensures heap[a].sequence == numCreated
    {
      model := Apply(model, New(a, when, delta, repeat));
      numCreated := numCreated + 1;
      heap := heap[a := Timer(when, delta, repeat, numCreated)];
    }

    method AddTimerInLoop(a: Addr)
      requires Matches() && Enabled(model, Add(a)) && Safe(model, Add(a))
      modifies this`timers, this`activeTimers, this`timerfd, this`model
      ensures Matches() && model == Apply(old(model), Add(a))
      ensures Elements(timers) == Elements(old(timers)) + {Entry(heap[a].expiration, a)}
      ensures activeTimers == old(activeTimers) + {TimerId(a, heap[a].sequence)}
      ensures timerfd == if forall e :: e in old(timers) ==> heap[a].expiration < e.when
                         then Armed(if heap[a].expiration - clock < 100 then clock + 100 else heap[a].expiration, clock)
                         else old(timerfd)
    {
      var earliestChanged := Insert(a);
      assert forall e :: e in Elements(old(timers)) <==> e in old(timers);
      if earliestChanged {
        ResetTimerfd(heap[a].expiration);
      }
      model := Apply(model, Add(a));
    }

    method CancelInLoop(id: TimerId)
      requires Matches() && Enabled(model, Cancel(id)) && Safe(model, Cancel(id))
      modifies this`heap, this`timers, this`activeTimers, this`cancelingTimers, this`model
      ensures Matches() && model == Apply(old(model), Cancel(id))
      ensures id in old(activeTimers) ==>
                && heap == old(heap) - {id.addr} && activeTimers == old(activeTimers) - {id}
                && Elements(timers) == Elements(old(timers)) - {Entry(old(heap)[id.addr].expiration, id.addr)}
                && cancelingTimers == old(cancelingTimers)
      ensures id !in old(activeTimers) ==>
                && heap == old(heap) && timers == old(timers) && activeTimers == old(activeTimers)
                && cancelingTimers == old(cancelingTimers) + if callingExpiredTimers then {id} else {}
    {
      if id in activeTimers {
        EraseTimer(Entry(heap[id.addr].expiration, id.addr));
        heap := heap - {id.addr};
        activeTimers := activeTimers - {id};
      } else if callingExpiredTimers {
        cancelingTimers := cancelingTimers + {id};
      }
      model := Apply(model, Cancel(id));
    }

    method EraseTimer(e: Entry)
      requires Ordered(timers) && e in timers
      modifies this`timers
      ensures Ordered(timers) && Elements(timers) == Elements(old(timers)) - {e}
    {
      var i := 0;
      while timers[i] != e
        invariant i < |timers| && e in timers[i..]
        decreases |timers| - i
      {
        i := i + 1;
      }
      EraseOrdered(timers, i);
      timers := timers[..i] + timers[i + 1..];
    }

    /** `lower_bound` of the sentinel (now, UINTPTR_MAX): the number of entries that are due. */
    method LowerBound(now: int) returns (end: nat)
      requires Ordered(timers) && forall e :: e in timers ==> e.addr < UINTPTR_MAX
      ensures end <= |timers|
      ensures forall i :: 0 <= i < |timers| ==> (i < end <==> timers[i].when <= now)
    {
      var sentry := Entry(now, UINTPTR_MAX);
      end := 0;
      while end < |timers| && Before(timers[end], sentry)
        invariant end <= |timers|
        invariant forall i :: 0 <= i < end ==> timers[i].when <= now
      {
        end := end + 1;
      }
      if end < |timers| {
        assert timers[end] in timers;
      }
    }

    method GetExpired(now: int) returns (expired: seq<Entry>)
      requires Ordered(timers) && forall e :: e in timers ==> e.addr < UINTPTR_MAX && e.addr in heap
      modifies this`timers, this`activeTimers
      ensures expired + timers == old(timers) && Ordered(expired) && Ordered(timers)
      ensures forall e :: e in expired ==> e.when <= now
      ensures forall e :: e in timers ==> e.when > now
      ensures activeTimers == old(activeTimers) - Ids(heap, expired)
    {
      var end := LowerBound(now);
      expired := timers[..end];
      assert expired + timers[end..] == timers;
      timers := timers[end..];
      EraseActive(expired);
    }

    method EraseActive(expired: seq<Entry>)
      requires InHeap(heap, expired)
      modifies this`activeTimers
      ensures activeTimers == old(activeTimers) - Ids(heap, expired)
    {
      for i := 0 to |expired|
        invariant activeTimers == old(activeTimers) - Ids(heap, expired[..i])
      {
        activeTimers := activeTimers - {TimerId(expired[i].addr, heap[expired[i].addr].sequence)};
        assert expired[..i + 1] == expired[..i] + [expired[i]];
      }
      assert expired[..|expired|] == expired;
    }

    /** The first half of `handleRead`: drain the timerfd and take the due timers out. */
    method BeginBatch() returns (expired: seq<Entry>)
      requires Matches() && model.phase.Idle? && Safe(model, Fire([]))
      modifies this
      ensures Matches() && heap == old(heap) && InHeap(heap, expired)
      ensures Enabled(old(model), Fire(Dues(heap, expired)))
      ensures model == Apply(old(model), Fire(Dues(heap, expired)))
      ensures expired + timers == old(timers) && callingExpiredTimers && cancelingTimers == {}
      ensures (forall e :: e in expired ==> e.when <= clock) && forall e :: e in timers ==> e.when > clock
      ensures timerfd == if old(timerfd).Armed? && old(timerfd).at <= clock then Off else old(timerfd)
    {
      var now := clock;
      if Readable(timerfd, now) {
        timerfd := Off;
      }
      expired := GetExpired(now);
      callingExpiredTimers := true;
      cancelingTimers := {};
      ghost var dues := Dues(heap, expired);
      ExpiredIsDue(model, old(timers), expired, timers);
      model := Apply(model, Fire(dues));
    }

    /** One user callback, run from inside the batch. */
    method RunCallback(actions: seq<Action>)
      requires Valid() && model.phase.Calling?
      modifies this
      ensures Valid() && Reaches(old(model), model) && SameBatch(old(model), model)
    {
      ReachesSelf(model);
      for i := 0 to |actions|
        invariant Valid() && Reaches(old(model), model) && SameBatch(old(model), model)
      {
        ghost var before := model;
        Perform(actions[i]);
        ReachesTrans(old(model), before, model);
      }
    }

    /** An allocation the allocator could not have made, or a clock that goes back, is no action. */
    method Perform(action: Action)
      requires Valid() && model.phase.Calling?
      modifies this
      ensures Valid() && Reaches(old(model), model) && SameBatch(old(model), model)
      ensures action.CancelAction? ==> model == Apply(old(model), Cancel(action.id))
      ensures action.AddAction? && action.addr !in old(heap) && action.addr < UINTPTR_MAX ==>
                Entry(action.when, action.addr) in timers && TimerId(action.addr, numCreated) in activeTimers
      ensures action.TimePasses? && old(clock) <= action.t ==> clock == action.t
    {
      ReachesSelf(model);
      match action {
        case CancelAction(id) =>
          StepKeeps(model, Cancel(id));
          ReachesNext(model, model, Apply(model, Cancel(id)));
          CancelInLoop(id);
        case AddAction(a, when, delta, repeat) =>
          if a !in heap && a < UINTPTR_MAX {
            AddFromCallback(a, when, delta, repeat);
          }
        case TimePasses(t) =>
          if clock <= t {
            StepKeeps(model, Tick(t));
            Observe(t);
            ReachesNext(old(model), old(model), model);
          }
      }
    }

    /** `addTimer` on the loop thread: the add runs at once. */
    method AddFromCallback(a: Addr, when: int, delta: nat, repeat: bool)
      requires Valid() && model.phase.Calling? && a !in heap && a < UINTPTR_MAX
      modifies this
      ensures Valid() && Reaches(old(model), model) && SameBatch(old(model), model)
      ensures a in heap && heap[a] == Timer(when, delta, repeat, numCreated) && numCreated == old(numCreated) + 1
      ensures Elements(timers) == Elements(old(timers)) + {Entry(when, a)}
      ensures activeTimers == old(activeTimers) + {TimerId(a, numCreated)}
    {
      ReachesSelf(model);
      StepKeeps(model, New(a, when, delta, repeat));
      NewTimer(a, when, delta, repeat);
      ReachesNext(old(model), old(model), model);
      StepKeeps(model, Add(a));
      ghost var before := model;
      AddTimerInLoop(a);
      ReachesNext(old(model), before, model);
    }

    /** What `reset` does with one member of the batch. */
    method ResetTimer(a: Addr, now: int)
      requires Matches() && Enabled(model, ResetOne) && Safe(model, ResetOne)
      requires a == model.batch[model.phase.k].addr && now == model.phase.now
      modifies this`heap, this`timers, this`activeTimers, this`model
      ensures Matches() && model == Apply(old(model), ResetOne)
      ensures old(heap[a].repeat) && TimerId(a, old(heap[a].sequence)) !in cancelingTimers ==>
                && heap == old(heap)[a := old(heap[a]).(expiration := now + old(heap[a].delta))]
                && Elements(timers) == Elements(old(timers)) + {Entry(now + old(heap[a].delta), a)}
                && activeTimers == old(activeTimers) + {TimerId(a, old(heap[a].sequence))}
      ensures !(old(heap[a].repeat) && TimerId(a, old(heap[a].sequence)) !in cancelingTimers) ==>
                heap == old(heap) - {a} && timers == old(timers) && activeTimers == old(activeTimers)
    {
      if heap[a].repeat && TimerId(a, heap[a].sequence) !in cancelingTimers {
        heap := heap[a := Restart(heap[a], now)];
        var _ := Insert(a);
      } else {
        heap := heap - {a};
      }
      model := Apply(model, ResetOne);
    }

    method ResetMember(a: Addr, now: int)
      requires Valid() && Enabled(model, ResetOne)
      requires a == model.batch[model.phase.k].addr && now == model.phase.now
      modifies this`heap, this`timers, this`activeTimers, this`model
      ensures Valid() && Next(old(model), model) && model.phase == Resetting(now, old(model).phase.k + 1)
      ensures model.batch == old(model).batch && model.runs == old(model).runs
    {
      StepKeeps(model, ResetOne);
      ResetTimer(a, now);
    }

    /** `timers_.begin()`, when there is one. */
    ghost function First(): Entry
      reads this
    {
      if timers != [] then timers[0] else Entry(0, 0)
    }

    lemma FirstIsMin()
      requires Matches() && model.phase.Resetting? && model.phase.k == |model.batch|
      ensures Enabled(model, EndReset(First()))
    {
      assert timers != [] ==> timers[0] in Elements(timers);
    }

    method Rearm()
      requires Matches() && Enabled(model, EndReset(First())) && Safe(model, EndReset(First()))
      modifies this`timerfd, this`model
      ensures Matches() && model == Apply(old(model), EndReset(old(First())))
      ensures timerfd == if timers == [] then old(timerfd)
                         else Armed(if timers[0].when - clock < 100 then clock + 100 else timers[0].when, clock)
    {
      assert timers != [] ==> timers[0] in Elements(timers);
      if timers != [] {
        ResetTimerfd(heap[timers[0].addr].expiration);
      }
      model := Apply(model, EndReset(First()));
    }

    method ResetAll(expired: seq<Entry>, now: int)
      requires Valid() && model.phase == Resetting(now, 0) && BatchIs(model, expired)
      modifies this
      ensures Valid() && model.phase == Resetting(now, |model.batch|)
      ensures model.runs == old(model.runs) && Reaches(old(model), model)
    {
      hide TimerModel.Inv;
      ReachesSelf(model);
      for i := 0 to |expired|
        invariant Valid() && model.phase == Resetting(now, i) && BatchIs(model, expired)
        invariant model.runs == old(model.runs) && Reaches(old(model), model)
      {
        ghost var before := model;
        ResetMember(expired[i].addr, now);
        ReachesNext(old(model), before, model);
      }
    }

    method Reset(expired: seq<Entry>, now: int)
      requires Valid() && model.phase == Resetting(now, 0) && BatchIs(model, expired)
      modifies this
      ensures Valid() && model.phase.Idle? && model.runs == old(model.runs) && Reaches(old(model), model)
    {
      ResetAll(expired, now);
      ghost var before := model;
      FirstIsMin();
      StepKeeps(model, EndReset(First()));
      Rearm();
      ReachesNext(old(model), before, model);
    }

    /** The timer is run, and its callback re-enters the queue. */
    method RunTimer(a: Addr, actions: seq<Action>)
      requires Valid() && Enabled(model, RunNext) && a == model.batch[model.phase.k].addr
      modifies this
      ensures Valid() && Reaches(old(model), model) && model.batch == old(model.batch)
      ensures model.phase == Calling(old(model).phase.now, old(model).phase.k + 1)
      ensures model.runs == old(model.runs) + [Run(old(model).batch[old(model).phase.k].sequence, old(model).phase.now)]
    {
      ReachesSelf(model);
      StepKeeps(model, RunNext);
      assert a in heap;
      model := Apply(model, RunNext);
      ReachesNext(old(model), old(model), model);
      ghost var before := model;
      RunCallback(actions);
      ReachesTrans(old(model), before, model);
    }

    /**
     A timerfd event, with `script` the callbacks of the batch in order: the run it makes is one of the
     state machine's, and it runs exactly the timers that were due, each once, in order.
     */
    method HandleRead(script: seq<seq<Action>>) returns (ghost dues: seq<Due>)
      requires Valid() && model.phase.Idle?
      modifies this
      ensures Valid() && model.phase.Idle? && Reaches(old(model), model)
      ensures Enabled(old(model), Fire(dues))
      ensures model.runs == old(model.runs) + RunsOf(dues, old(clock))
    {
      var now := clock;
      ReachesSelf(model);
      assert Safe(model, Fire([]));
      var expired := BeginBatch();
      dues := Dues(heap, expired);
      StepKeeps(old(model), Fire(dues));
      ReachesNext(old(model), old(model), model);
      ghost var begun := model;
      RunBatch(expired, script, now);
      ReachesTrans(old(model), begun, model);
      ghost var called := model;
      StepKeeps(model, EndCalling);
      EndCalls();
      ReachesNext(old(model), called, model);
      ghost var ended := model;
      Reset(expired, now);
      ReachesTrans(old(model), ended, model);
    }

    method EndCalls()
      requires Matches() && Enabled(model, EndCalling)
      modifies this`callingExpiredTimers, this`model
      ensures Matches() && model == Apply(old(model), EndCalling) && !callingExpiredTimers
    {
      callingExpiredTimers := false;
      model := Apply(model, EndCalling);
    }

    method RunBatch(expired: seq<Entry>, script: seq<seq<Action>>, now: int)
      requires Valid() && model.phase == Calling(now, 0) && BatchIs(model, expired)
      modifies this
      ensures Valid() && Reaches(old(model), model)
      ensures model.batch == old(model.batch) && model.phase == Calling(now, |expired|)
      ensures model.runs == old(model.runs) + RunsOf(model.batch, now)
    {
      hide TimerModel.Inv, Reaches;
      ReachesSelf(model);
      for i := 0 to |expired|
        invariant Valid() && model.phase == Calling(now, i) && model.batch == old(model.batch)
        invariant model.runs == old(model.runs) + RunsOf(model.batch[..i], now)
        invariant Reaches(old(model), model)
      {
        ghost var before := model;
        RunTimer(expired[i].addr, if i < |script| then script[i] else []);
        ReachesTrans(old(model), before, model);
        RunsOfNext(old(model.runs), model.batch, i, now);
      }
      assert model.batch[..|expired|] == model.batch;
    }
  }

  /** The batch of the model is this one. */
  ghost predicate BatchIs(s: Queue, expired: seq<Entry>) {
    |s.batch| == |expired| && forall i :: 0 <= i < |expired| ==> s.batch[i].addr == expired[i].addr
  }

  ghost predicate SameBatch(s: Queue, s': Queue) {
    s'.batch == s.batch && s'.phase == s.phase && s'.runs == s.runs
  }

  function RunsOf(dues: seq<Due>, now: int): seq<Run> {
    seq(|dues|, i requires 0 <= i < |dues| => Run(dues[i].sequence, now))
  }

  lemma RunsOfNext(runs: seq<Run>, batch: seq<Due>, i: nat, now: int)
    requires i < |batch|
    ensures runs + RunsOf(batch[..i], now) + [Run(batch[i].sequence, now)] == runs + RunsOf(batch[..i + 1], now)
  {
    assert RunsOf(batch[..i], now) + [Run(batch[i].sequence, now)] == RunsOf(batch[..i + 1], now);
  }

  lemma ReachesTrans(s: Queue, m: Queue, s': Queue)
    requires Reaches(s, m) && Reaches(m, s')
    ensures Reaches(s, s')
  {
    Behaviors.LeadsOn(Next, s, m, s');
  }

  predicate InHeap(heap: map<Addr, Timer>, es: seq<Entry>) {
    forall e :: e in es ==> e.addr in heap
  }

  function Ids(heap: map<Addr, Timer>, es: seq<Entry>): set<TimerId>
    requires InHeap(heap, es)
  {
    set e | e in es :: TimerId(e.addr, heap[e.addr].sequence)
  }

  /** The batch with the identities its timers have now. */
  function Dues(heap: map<Addr, Timer>, es: seq<Entry>): (ds: seq<Due>)
    requires InHeap(heap, es)
    ensures |ds| == |es|
  {
    seq(|es|, i requires 0 <= i < |es| => Due(es[i].when, es[i].addr, heap[es[i].addr].sequence))
  }

  ghost predicate DueSplit(s: Queue, all: seq<Entry>, expired: seq<Entry>, rest: seq<Entry>) {
    && Elements(all) == s.timers && all == expired + rest && Ordered(expired) && InHeap(s.heap, all)
    && (forall e :: e in expired ==> e.when <= s.clock)
    && (forall e :: e in rest ==> e.when > s.clock)
  }

  lemma SplitElements(s: Queue, all: seq<Entry>, expired: seq<Entry>, rest: seq<Entry>)
    requires DueSplit(s, all, expired, rest)
    ensures InHeap(s.heap, expired)
    ensures forall e :: e in s.timers <==> e in expired || e in rest
  {
    assert forall e :: e in all <==> e in expired || e in rest;
    assert forall e :: e in Elements(all) <==> e in all;
  }

  lemma DuesExpire(s: Queue, all: seq<Entry>, expired: seq<Entry>, rest: seq<Entry>)
    requires DueSplit(s, all, expired, rest) && InHeap(s.heap, expired)
    ensures IsExpired(s, Dues(s.heap, expired))
  {
    SplitElements(s, all, expired, rest);
    var ds := Dues(s.heap, expired);
    forall e | e in s.timers && e.when <= s.clock
      ensures exists i :: 0 <= i < |ds| && ds[i].addr == e.addr && ds[i].when == e.when
    {
      var i :| 0 <= i < |expired| && expired[i] == e;
      assert ds[i].addr == e.addr && ds[i].when == e.when;
    }
    assert forall i :: 0 <= i < |ds| ==> expired[i] in expired;
  }

  /** Which entries and identities a batch stands for. */
  lemma DuesStandFor(heap: map<Addr, Timer>, expired: seq<Entry>)
    requires InHeap(heap, expired)
    ensures var ds := Dues(heap, expired);
            && (set d | d in ds :: Entry(d.when, d.addr)) == Elements(expired)
            && (set d | d in ds :: TimerId(d.addr, d.sequence)) == Ids(heap, expired)
  {
    var ds := Dues(heap, expired);
    forall e | e in expired
      ensures exists d :: d in ds && e == Entry(d.when, d.addr) && d.sequence == heap[e.addr].sequence
    {
      var i :| 0 <= i < |expired| && expired[i] == e;
      assert ds[i] in ds;
    }
    forall d | d in ds
      ensures Entry(d.when, d.addr) in expired && d.sequence == heap[d.addr].sequence
    {
      var i :| 0 <= i < |ds| && ds[i] == d;
      assert expired[i] in expired;
    }
  }

  /** The prefix of the ordered set that is due is the batch the model asks for. */
  lemma ExpiredIsDue(s: Queue, all: seq<Entry>, expired: seq<Entry>, rest: seq<Entry>)
    requires DueSplit(s, all, expired, rest)
    ensures InHeap(s.heap, expired) && IsExpired(s, Dues(s.heap, expired))
    ensures var ds := Dues(s.heap, expired);
            && Elements(rest) == s.timers - (set d | d in ds :: Entry(d.when, d.addr))
            && Ids(s.heap, expired) == (set d | d in ds :: TimerId(d.addr, d.sequence))
  {
    SplitElements(s, all, expired, rest);
    DuesExpire(s, all, expired, rest);
    DuesStandFor(s.heap, expired);
    assert Elements(rest) == s.timers - Elements(expired);
  }

  lemma StepKeeps(s: Queue, step: Step)
    requires Inv(s) && Enabled(s, step)
    ensures Safe(s, step) && Inv(Apply(s, step)) && Next(s, Apply(s, step))
  {
    InvIsSafe(s, step);
    StepSound(s, step);
    StepCancels(s, step);
    StepRuns(s, step);
    StepNotStranded(s, step);
  }

  lemma InsertOrdered(s: seq<Entry>, e: Entry, i: nat)
    requires Ordered(s) && e !in s && i <= |s|
    requires forall j :: 0 <= j < i ==> Before(s[j], e)
    requires i < |s| ==> !Before(s[i], e)
    ensures Ordered(s[..i] + [e] + s[i..])
    ensures Elements(s[..i] + [e] + s[i..]) == Elements(s) + {e}
  {
    assert s == s[..i] + s[i..];
    forall j | i <= j < |s| ensures Before(e, s[j]) {
      assert s[i] in s;
    }
  }

  lemma EraseOrdered(s: seq<Entry>, i: nat)
    requires Ordered(s) && i < |s|
    ensures Ordered(s[..i] + s[i + 1..])
    ensures Elements(s[..i] + s[i + 1..]) == Elements(s) - {s[i]}
  {
    assert s == s[..i] + [s[i]] + s[i + 1..];
  }
}
