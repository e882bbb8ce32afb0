/**
 The timer queue as a state machine over memory: timers live at addresses that the allocator may
 hand out again, callbacks re-enter the queue between the runs of a batch, and other threads
 allocate timers at any moment.
 */
module TimerModel {
  type Addr = nat
  /** No object lives at the highest address; the queue uses it as a search sentinel. */
  const UINTPTR_MAX: nat := 0xffff_ffff_ffff_ffff
  const MIN_DELAY: int := 100

  /** Times and `delta` are microseconds; `delta` is the truncated interval. */
  datatype Timer = Timer(expiration: int, delta: nat, repeat: bool, sequence: nat)
  datatype Entry = Entry(when: int, addr: Addr)
  /** A TimerId, and also a member of the active and canceling sets. */
  datatype TimerId = TimerId(addr: Addr, sequence: nat)
  /** A member of the expired batch, with the identity its timer had when it was taken out. */
  datatype Due = Due(when: int, addr: Addr, sequence: nat)

  /** The one-shot timerfd: armed to become readable at `at`, by a call made at `armedAt`. */
  datatype Fd = Off | Armed(at: int, armedAt: int)

  datatype Phase = Idle | Calling(now: int, k: nat) | Resetting(now: int, k: nat)

  /** What was asked for when the timer was created. */
  datatype Birth = Birth(addr: Addr, when: int, delta: nat, repeat: bool)
  datatype Run = Run(sequence: nat, at: int)

  datatype Queue = Queue(
    heap: map<Addr, Timer>,
    created: nat,
    /** Allocated, and waiting in the loop's task queue to be added. */
    queued: set<Addr>,
    timers: set<Entry>,
    active: set<TimerId>,
    canceling: set<TimerId>,
    phase: Phase,
    batch: seq<Due>,
    fd: Fd,
    clock: int,
    /** History. A crash is an access to freed memory or a second delete. */
    crashed: bool,
    born: map<nat, Birth>,
    freed: set<nat>,
    cancelled: set<nat>,
    runs: seq<Run>)

  function Empty(clock: int): Queue {
    Queue(map[], 0, {}, {}, {}, {}, Idle, [], Off, clock, false, map[], {}, {}, [])
  }

  // ---------------------------------------------------------------- steps

  /** `Elsewhere` is a timer created for another queue: sequence numbers are global to the process. */
  datatype Step =
    | Tick(t: int)
    | Elsewhere
    | New(addr: Addr, when: int, delta: nat, repeat: bool)
    | Add(addr: Addr)
    | Cancel(id: TimerId)
    | Fire(expired: seq<Due>)
    | RunNext
    | EndCalling
    | ResetOne
    | EndReset(first: Entry)

  function Max(a: int, b: int): int { if a < b then b else a }

  /** `resetTimerfd`: at least MIN_DELAY from now. */
  function Arm(when: int, clock: int): Fd {
    Armed(clock + Max(when - clock, MIN_DELAY), clock)
  }

  predicate Readable(fd: Fd, clock: int) {
    fd.Armed? && fd.at <= clock
  }

  predicate DueBefore(a: Due, b: Due) {
    a.when < b.when || (a.when == b.when && a.addr < b.addr)
  }

  /** `expired` lists exactly the timers that are due, in set order. */
  ghost predicate IsExpired(s: Queue, expired: seq<Due>) {
    && (forall i, j :: 0 <= i < j < |expired| ==> DueBefore(expired[i], expired[j]))
    && (forall d :: d in expired ==>
          Entry(d.when, d.addr) in s.timers && d.when <= s.clock
          && (d.addr in s.heap ==> d.sequence == s.heap[d.addr].sequence))
    && (forall e :: e in s.timers && e.when <= s.clock ==>
          exists i :: 0 <= i < |expired| && expired[i].addr == e.addr && expired[i].when == e.when)
  }

  ghost predicate Enabled(s: Queue, step: Step) {
    match step
    case Tick(t) => s.clock <= t
    case Elsewhere => true
    case New(a, _, _, _) => a !in s.heap && a < UINTPTR_MAX
    case Add(a) => a in s.queued && !s.phase.Resetting?
    case Cancel(_) => !s.phase.Resetting?
    case Fire(expired) => s.phase.Idle? && IsExpired(s, expired)
    case RunNext => s.phase.Calling? && s.phase.k < |s.batch|
    case EndCalling => s.phase.Calling? && s.phase.k == |s.batch|
    case ResetOne => s.phase.Resetting? && s.phase.k < |s.batch|
    case EndReset(first) =>
      && s.phase.Resetting? && s.phase.k == |s.batch|
      && (s.timers != {} ==> first in s.timers && forall e :: e in s.timers ==> first.when <= e.when)
  }

  /** The timer at `addr` is alive and is the one with this sequence, never yet deleted. */
  predicate Live(s: Queue, addr: Addr, sequence: nat) {
    addr in s.heap && s.heap[addr].sequence == sequence && sequence !in s.freed
  }

  /** Every dereference, delete and index update of the step hits the timer it is meant for. */
  ghost predicate Safe(s: Queue, step: Step) {
    match step
    case Add(a) => a in s.heap && a !in TimerAddrs(s)
    case Cancel(id) => id in s.active ==>
      Live(s, id.addr, id.sequence) && Entry(s.heap[id.addr].expiration, id.addr) in s.timers
    case Fire(_) => forall e :: e in s.timers ==> e.addr in s.heap && e.addr < UINTPTR_MAX
    case RunNext => s.phase.Calling? && s.phase.k < |s.batch| ==>
      Live(s, s.batch[s.phase.k].addr, s.batch[s.phase.k].sequence)
    case ResetOne => s.phase.Resetting? && s.phase.k < |s.batch| ==>
      Live(s, s.batch[s.phase.k].addr, s.batch[s.phase.k].sequence)
      && s.batch[s.phase.k].addr !in TimerAddrs(s)
    case EndReset(_) => forall e :: e in s.timers ==> e.addr in s.heap && e.when == s.heap[e.addr].expiration
    case _ => true
  }

  /** `insert`: one entry in each index. */
  function Insert(s: Queue, a: Addr): Queue
    requires a in s.heap
  {
    s.(timers := s.timers + {Entry(s.heap[a].expiration, a)},
       active := s.active + {TimerId(a, s.heap[a].sequence)})
  }

  predicate EarliestChanged(timers: set<Entry>, when: int) {
    timers == {} || forall e :: e in timers ==> when < e.when
  }

  function ApplyNew(s: Queue, a: Addr, when: int, delta: nat, repeat: bool): Queue {
    var n := s.created + 1;
    s.(heap := s.heap[a := Timer(when, delta, repeat, n)], created := n, queued := s.queued + {a},
       born := s.born[n := Birth(a, when, delta, repeat)])
  }

  function ApplyAdd(s: Queue, a: Addr): Queue
    requires a in s.heap
  {
    var when := s.heap[a].expiration;
    Insert(s, a).(queued := s.queued - {a},
                  fd := if EarliestChanged(s.timers, when) then Arm(when, s.clock) else s.fd)
  }

  /** Out of both indexes and deleted; or, for a timer of the running batch, remembered. */
  function ApplyCancel(s: Queue, id: TimerId): Queue
    requires id in s.active ==> id.addr in s.heap
  {
    if id in s.active then
      s.(timers := s.timers - {Entry(s.heap[id.addr].expiration, id.addr)},
         active := s.active - {id},
         heap := s.heap - {id.addr},
         freed := s.freed + {id.sequence},
         cancelled := s.cancelled + {id.sequence})
    else if s.phase.Calling? then
      s.(canceling := s.canceling + {id},
         cancelled := s.cancelled + if InBatch(s, id) then {id.sequence} else {})
    else s
  }

  function ApplyFire(s: Queue, expired: seq<Due>): Queue {
    s.(phase := Calling(s.clock, 0), batch := expired, canceling := {},
       fd := if Readable(s.fd, s.clock) then Off else s.fd,
       timers := s.timers - (set d | d in expired :: Entry(d.when, d.addr)),
       active := s.active - (set d | d in expired :: TimerId(d.addr, d.sequence)))
  }

  function Restart(t: Timer, now: int): Timer {
    t.(expiration := if t.repeat then now + t.delta else 0)
  }

  /** A repeating timer of the batch that nobody cancelled goes back with a new expiration. */
  function Reinsert(s: Queue, now: int, k: nat): Queue
    requires k < |s.batch| && s.batch[k].addr in s.heap
  {
    var a := s.batch[k].addr;
    Insert(s.(phase := Resetting(now, k + 1), heap := s.heap[a := Restart(s.heap[a], now)]), a)
  }

  function Discard(s: Queue, now: int, k: nat): Queue
    requires k < |s.batch|
  {
    s.(phase := Resetting(now, k + 1), heap := s.heap - {s.batch[k].addr},
       freed := s.freed + {s.batch[k].sequence})
  }

  predicate GoesBack(s: Queue, k: nat)
    requires k < |s.batch| && s.batch[k].addr in s.heap
  {
    s.heap[s.batch[k].addr].repeat && TimerId(s.batch[k].addr, s.batch[k].sequence) !in s.canceling
  }

  function ApplyResetOne(s: Queue, now: int, k: nat): Queue
    requires k < |s.batch| && s.batch[k].addr in s.heap
  {
    if GoesBack(s, k) then Reinsert(s, now, k) else Discard(s, now, k)
  }

  function ApplyEndReset(s: Queue, first: Entry): Queue {
    s.(phase := Idle, batch := [],
       fd := if s.timers == {} then s.fd else Arm(first.when, s.clock))
  }

  ghost function Apply(s: Queue, step: Step): Queue
    requires Enabled(s, step)
  {
    if !Safe(s, step) then s.(crashed := true)
    else
      match step
      case Tick(t) => s.(clock := t)
      case Elsewhere => s.(created := s.created + 1)
      case New(a, when, delta, repeat) => ApplyNew(s, a, when, delta, repeat)
      case Add(a) => ApplyAdd(s, a)
      case Cancel(id) => ApplyCancel(s, id)
      case Fire(expired) => ApplyFire(s, expired)
      case RunNext =>
        s.(phase := Calling(s.phase.now, s.phase.k + 1),
           runs := s.runs + [Run(s.batch[s.phase.k].sequence, s.phase.now)])
      case EndCalling => s.(phase := Resetting(s.phase.now, 0))
      case ResetOne => ApplyResetOne(s, s.phase.now, s.phase.k)
      case EndReset(first) => ApplyEndReset(s, first)
  }

  ghost predicate Init(s: Queue) { s == Empty(s.clock) }

  ghost predicate Next(s: Queue, s': Queue) {
    exists step :: Enabled(s, step) && s' == Apply(s, step)
  }

  // ---------------------------------------------------------------- invariant

  /** The batch members still owned by the batch. */
  function From(s: Queue): nat { if s.phase.Resetting? then s.phase.k else 0 }

  function Held(s: Queue): set<Addr> {
    set i | From(s) <= i < |s.batch| :: s.batch[i].addr
  }

  function TimerAddrs(s: Queue): set<Addr> {
    set e | e in s.timers :: e.addr
  }

  predicate InBatch(s: Queue, id: TimerId) {
    exists i :: From(s) <= i < |s.batch| && s.batch[i].addr == id.addr && s.batch[i].sequence == id.sequence
  }

  /** Each allocated address has exactly one owner. */
  ghost predicate Owned(s: Queue) {
    && s.heap.Keys == s.queued + TimerAddrs(s) + Held(s)
    && s.queued !! TimerAddrs(s) && s.queued !! Held(s) && TimerAddrs(s) !! Held(s)
    && (forall a :: a in s.heap ==> a < UINTPTR_MAX)
    && !s.crashed
  }

  /** The two indexes hold the same timers, one entry each, under their current keys. */
  ghost predicate IndexesAgree(s: Queue) {
    && (forall e :: e in s.timers ==> e.addr in s.heap && e.when == s.heap[e.addr].expiration
                                      && TimerId(e.addr, s.heap[e.addr].sequence) in s.active)
    && (forall x :: x in s.active ==> x.addr in s.heap && x.sequence == s.heap[x.addr].sequence
                                      && Entry(s.heap[x.addr].expiration, x.addr) in s.timers)
  }

  /** Sequence numbers name timers for ever. */
  ghost predicate Births(s: Queue) {
    && (forall n :: n in s.born ==> 1 <= n <= s.created)
    && (forall a :: a in s.heap ==> BirthOf(s, a))
    && (forall n :: n in s.born && n !in s.freed ==>
          s.born[n].addr in s.heap && s.heap[s.born[n].addr].sequence == n)
    && s.freed <= s.born.Keys
  }

  predicate BirthOf(s: Queue, a: Addr)
    requires a in s.heap
  {
    var t := s.heap[a];
    && t.sequence in s.born && t.sequence !in s.freed
    && s.born[t.sequence] == Birth(a, s.born[t.sequence].when, t.delta, t.repeat)
  }

  ghost predicate BatchIntact(s: Queue) {
    && (s.phase.Idle? ==> s.batch == [])
    && (!s.phase.Idle? ==> s.phase.k <= |s.batch| && s.phase.now <= s.clock)
    && (forall i :: From(s) <= i < |s.batch| ==>
          && Live(s, s.batch[i].addr, s.batch[i].sequence)
          && s.heap[s.batch[i].addr].expiration == s.batch[i].when <= s.phase.now)
    && (forall i, j :: From(s) <= i < j < |s.batch| ==> s.batch[i].addr != s.batch[j].addr)
  }

  ghost predicate CancelsKept(s: Queue) {
    && s.cancelled <= s.born.Keys
    && (forall n :: n in s.cancelled && n !in s.freed ==>
          TimerId(s.born[n].addr, n) in s.canceling && s.born[n].addr in Held(s))
    && (forall x :: x in s.canceling && InBatch(s, x) ==> x.sequence in s.cancelled)
    && (forall n :: n in s.freed ==> n in s.cancelled || (n in s.born && !s.born[n].repeat && n in Ran(s)))
  }

  function Ran(s: Queue): set<nat> {
    set r | r in s.runs :: r.sequence
  }

  /** What an earlier run of a timer implies for where that timer now is. */
  ghost predicate Spaced(s: Queue, r: Run) {
    && r.sequence in s.born
    && (forall a :: a in s.heap && s.heap[a].sequence == r.sequence ==>
          && a !in s.queued
          && (a in TimerAddrs(s) ==> s.heap[a].repeat && r.at + s.heap[a].delta <= s.heap[a].expiration))
    && (forall i :: From(s) <= i < |s.batch| && s.batch[i].sequence == r.sequence ==>
          if s.phase.Calling? && s.phase.k <= i
          then s.born[r.sequence].repeat && r.at + s.born[r.sequence].delta <= s.batch[i].when
          else !s.phase.Idle? && r.at <= s.phase.now)
  }

  /** Two runs of one timer: it repeats, and they are at least its interval apart. */
  ghost predicate PairsSpaced(runs: seq<Run>, born: map<nat, Birth>) {
    forall i, j :: 0 <= i < j < |runs| && runs[i].sequence == runs[j].sequence ==>
      var n := runs[i].sequence;
      n in born && born[n].repeat && runs[i].at + born[n].delta <= runs[j].at
  }

  ghost predicate BatchRan(s: Queue) {
    forall i :: From(s) <= i < |s.batch| && (s.phase.Resetting? || (s.phase.Calling? && i < s.phase.k)) ==>
      s.batch[i].sequence in Ran(s)
  }

  ghost predicate RunsSpaced(s: Queue) {
    && (forall r :: r in s.runs ==> Spaced(s, r))
    && PairsSpaced(s.runs, s.born)
    && BatchRan(s)
  }

  ghost predicate NotStranded(s: Queue) {
    s.phase.Idle? ==>
      forall e :: e in s.timers ==>
        s.fd.Armed? && s.fd.armedAt <= s.clock && s.fd.at <= Max(e.when, s.fd.armedAt + MIN_DELAY)
  }

  /** The memory and index part of the invariant. */
  ghost predicate Sound(s: Queue) {
    Owned(s) && IndexesAgree(s) && Births(s) && BatchIntact(s)
  }

  ghost predicate Inv(s: Queue) {
    Sound(s) && CancelsKept(s) && RunsSpaced(s) && NotStranded(s)
  }
}
