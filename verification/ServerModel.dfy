/**
 The life of connections across the base loop and the I/O loops: who holds a connection, where its
 raw channel pointer is, and when it is destroyed. Each step makes at most one access to state that
 another thread can reach.
 */
module ServerModel {
  import opened PollerModel
  import ConnectionModel

  type Id = nat
  type LoopId = nat
  type ConnState = ConnectionModel.ConnState
  /** A thread that runs none of the loops. */
  type Thread = nat

  /** The loop of the acceptor and of the connection map. */
  const BASE: LoopId := 0
  const INT_MAX: nat := 0x7fff_ffff

  /**
   Tasks in a loop's queue, bound to a shared pointer; `Other` is any user task, such as write-complete.
   `Raw` is what a cross-thread `send` or `shutdown` posts: it is bound to the bare object and holds nothing.
   */
  datatype Functor =
    | Established(c: Id)
    | RemoveInLoop(c: Id)
    | Destroyed(c: Id)
    | Other(c: Id)
    | Raw(c: Id, ticket: nat)

  /**
   A cross-thread call in progress. Its thread keeps a shared pointer to the connection from the check of
   the state until it lets go, some time after it has posted its task.
   */
  datatype Call = Checked(c: Id) | Posted(c: Id, ticket: nat)

  datatype Ready = Ready(c: Id, revents: set<Ev>)
  datatype Phase = Polling | Dispatching | Calling
  datatype Handler = NoHandler | Handling(c: Id, revents: set<Ev>, todo: seq<Callback>)

  /** `done` are the functors of the batch that have run; the vector keeps them until the round ends. */
  datatype Loop = Loop(
    phase: Phase,
    pending: seq<Functor>,
    batch: seq<Functor>,
    done: seq<Functor>,
    active: seq<Ready>,
    handler: Handler,
    poller: PollerModel.Poller<Id>)

  datatype Conn = Conn(
    fd: int,
    loop: LoopId,
    st: ConnState,
    alive: bool,
    /** History: calls of the connection callback, and of `connectDestroyed`. */
    ups: nat,
    downs: nat,
    destroys: nat)

  datatype Server = Server(
    loops: map<LoopId, Loop>,
    conns: map<Id, Conn>,
    nextConnId: nat,
    connections: set<Id>,
    /** Connections that user code keeps a shared pointer to. */
    userRefs: set<Id>,
    calls: map<Thread, Call>,
    /** The number of cross-thread tasks posted; each has its own ticket. */
    tickets: nat,
    /** A pointer to a destroyed connection was followed, or an epoll call was refused. */
    crashed: bool)

  const FRESH_LOOP := Loop(Polling, [], [], [], [], NoHandler, PollerModel.Empty())

  // ---------------------------------------------------------------- building blocks

  predicate Knows(s: Server, c: Id) {
    c in s.conns && s.conns[c].loop in s.loops && BASE in s.loops
  }

  function Push(s: Server, l: LoopId, f: Functor): Server
    requires l in s.loops
  {
    s.(loops := s.loops[l := s.loops[l].(pending := s.loops[l].pending + [f])])
  }

  function WithPoller(s: Server, l: LoopId, p: PollerModel.Poller<Id>): Server
    requires l in s.loops
  {
    s.(loops := s.loops[l := s.loops[l].(poller := p)])
  }

  function WithConn(s: Server, c: Id, k: Conn): Server {
    s.(conns := s.conns[c := k])
  }

  /** Sets the interest of the connection's channel. */
  function SetMask(s: Server, c: Id, mask: set<Ev>): Server
    requires Knows(s, c) && c in s.loops[s.conns[c].loop].poller.chans
  {
    WithPoller(s, s.conns[c].loop, SetEvents(s.loops[s.conns[c].loop].poller, c, mask))
  }

  predicate InPoller(s: Server, c: Id) {
    Knows(s, c) && c in s.loops[s.conns[c].loop].poller.chans
  }

  function ConnectEstablished(s: Server, c: Id): Server
    requires InPoller(s, c)
  {
    var k := s.conns[c];
    SetMask(WithConn(s, c, k.(st := ConnectionModel.Connected, ups := k.ups + 1)), c, READ_EVENT)
  }

  function RemoveConnectionInLoop(s: Server, c: Id): Server
    requires Knows(s, c)
  {
    Push(s.(connections := s.connections - {c}), s.conns[c].loop, Destroyed(c))
  }

  /** The close callback goes to the server, directly on the base loop and through its queue elsewhere. */
  function HandleClose(s: Server, c: Id): Server
    requires InPoller(s, c)
  {
    var k := s.conns[c];
    var s1 := SetMask(WithConn(s, c, k.(st := ConnectionModel.Disconnected, downs := k.downs + 1)), c, {});
    if k.loop == BASE then RemoveConnectionInLoop(s1, c) else Push(s1, BASE, RemoveInLoop(c))
  }

  function ConnectDestroyed(s: Server, c: Id): Server
    requires InPoller(s, c)
  {
    var k := s.conns[c];
    var k1 := k.(destroys := k.destroys + 1);
    var s1 := if k.st.Connected?
              then SetMask(WithConn(s, c, k1.(st := ConnectionModel.Disconnected, downs := k.downs + 1)), c, {})
              else WithConn(s, c, k1);
    WithPoller(s1, k.loop, RemoveChannel(s1.loops[k.loop].poller, c))
  }

  /** What sends do to the mask, posted or not, are `Toggle` steps of the connection's loop. */
  function Perform(s: Server, f: Functor): Server
    requires InPoller(s, f.c)
  {
    match f
    case Established(c) => ConnectEstablished(s, c)
    case RemoveInLoop(c) => RemoveConnectionInLoop(s, c)
    case Destroyed(c) => ConnectDestroyed(s, c)
    case Other(_) => s
    case Raw(_, _) => s
  }

  // ---------------------------------------------------------------- who holds a connection

  ghost predicate HeldByLoop(q: Loop, c: Id) {
    exists f :: (f in q.pending || f in q.batch || f in q.done) && f.c == c && !f.Raw?
  }

  /** Some shared pointer to the connection exists. */
  ghost predicate Held(s: Server, c: Id) {
    || c in s.connections
    || c in s.userRefs
    || (exists t :: t in s.calls && s.calls[t].c == c)
    || exists l :: l in s.loops && HeldByLoop(s.loops[l], c)
  }

  // ---------------------------------------------------------------- steps

  datatype Step =
    | Accept(fd: int, io: LoopId)
    | Poll(l: LoopId, report: seq<Ready>)
    | Pick(l: LoopId)
    | RunCallback(l: LoopId, eof: bool)
    | EndHandler(l: LoopId)
    | Swap(l: LoopId)
    | RunFunctor(l: LoopId)
    | EndBatch(l: LoopId)
    | Toggle(c: Id, mask: set<Ev>)
    | Shutdown(c: Id)
    | Queue(c: Id, l: LoopId)
    | Begin(t: Thread, c: Id, half: bool)
    | Post(t: Thread)
    | Release(t: Thread)
    | TakeRef(c: Id)
    | DropRef(c: Id)
    | Reap(c: Id)

  /** What epoll may report to loop l: registered channels, each once, with reportable masks. */
  ghost predicate Reported(p: PollerModel.Poller<Id>, report: seq<Ready>) {
    && (forall r :: r in report ==>
          exists fd :: fd in p.kernel && p.kernel[fd].chan == r.c && Reportable(p.kernel[fd].mask, r.revents))
    && (forall i, j :: 0 <= i < j < |report| ==> report[i].c != report[j].c)
  }

  /** User code and sends act on connections they hold a pointer to, on the connection's own loop. */
  ghost predicate Usable(s: Server, c: Id) {
    && Knows(s, c) && s.conns[c].alive && Held(s, c)
    && !s.loops[s.conns[c].loop].phase.Polling?
  }

  ghost predicate Enabled(s: Server, step: Step) {
    match step
    case Accept(fd, io) =>
      && BASE in s.loops && io in s.loops && s.nextConnId < INT_MAX
      && s.loops[BASE].phase.Dispatching? && s.loops[BASE].handler.NoHandler?
      && (forall c :: c in s.conns && s.conns[c].alive ==> s.conns[c].fd != fd)
    case Poll(l, report) => l in s.loops && s.loops[l].phase.Polling? && Reported(s.loops[l].poller, report)
    case Pick(l) =>
      l in s.loops && s.loops[l].phase.Dispatching? && s.loops[l].handler.NoHandler? && s.loops[l].active != []
    case RunCallback(l, _) =>
      l in s.loops && s.loops[l].phase.Dispatching? && s.loops[l].handler.Handling? && s.loops[l].handler.todo != []
    case EndHandler(l) =>
      l in s.loops && s.loops[l].phase.Dispatching? && s.loops[l].handler.Handling? && s.loops[l].handler.todo == []
    case Swap(l) =>
      l in s.loops && s.loops[l].phase.Dispatching? && s.loops[l].handler.NoHandler? && s.loops[l].active == []
    case RunFunctor(l) => l in s.loops && s.loops[l].phase.Calling? && s.loops[l].batch != []
    case EndBatch(l) => l in s.loops && s.loops[l].phase.Calling? && s.loops[l].batch == []
    case Toggle(c, mask) =>
      Usable(s, c) && (s.conns[c].st.Connected? || s.conns[c].st.Disconnecting?)
      && (mask == READ_EVENT || mask == READ_EVENT + WRITE_EVENT)
    case Shutdown(c) => Usable(s, c) && s.conns[c].st.Connected?
    case Queue(c, l) => l in s.loops && c in s.conns && s.conns[c].alive && Held(s, c)
    case Begin(t, c, _) =>
      t !in s.calls && Knows(s, c) && s.conns[c].alive && Held(s, c) && s.conns[c].st.Connected?
    case Post(t) => t in s.calls && s.calls[t].Checked? && Knows(s, s.calls[t].c)
    case Release(t) => t in s.calls && s.calls[t].Posted?
    case TakeRef(c) => c in s.conns && s.conns[c].alive && Held(s, c)
    case DropRef(c) => c in s.userRefs
    case Reap(c) => c in s.conns && s.conns[c].alive && !Held(s, c)
  }

  /** The step may follow this pointer and touch this channel's registration. */
  ghost predicate Touchable(s: Server, c: Id) {
    InPoller(s, c) && s.conns[c].alive && FdIsFree(s.loops[s.conns[c].loop].poller, c)
  }

  ghost predicate Safe(s: Server, step: Step) {
    match step
    case Poll(_, report) => forall r :: r in report ==> Touchable(s, r.c)
    case Pick(l) => l in s.loops && s.loops[l].active != [] ==> Touchable(s, s.loops[l].active[0].c)
    case RunCallback(l, _) =>
      l in s.loops && s.loops[l].handler.Handling? ==>
        Touchable(s, s.loops[l].handler.c) && s.conns[s.loops[l].handler.c].loop == l
    case RunFunctor(l) =>
      l in s.loops && s.loops[l].batch != [] ==> Touchable(s, s.loops[l].batch[0].c)
    case Toggle(c, _) => Touchable(s, c)
    case Reap(c) => InPoller(s, c) && s.loops[s.conns[c].loop].poller.chans[c].index.New?
    case Accept(_, _) => s.nextConnId !in s.connections && s.nextConnId !in s.conns
    case _ => true
  }

  /** `shutdown` also sets the state; `send` only looks at it. */
  function ApplyBegin(s: Server, t: Thread, c: Id, half: bool): Server
    requires c in s.conns
  {
    (if half then WithConn(s, c, s.conns[c].(st := ConnectionModel.Disconnecting)) else s)
    .(calls := s.calls[t := Checked(c)])
  }

  function ApplyPost(s: Server, t: Thread): Server
    requires t in s.calls && Knows(s, s.calls[t].c)
  {
    var c := s.calls[t].c;
    Push(s, s.conns[c].loop, Raw(c, s.tickets))
    .(calls := s.calls[t := Posted(c, s.tickets)], tickets := s.tickets + 1)
  }

  function ApplyAccept(s: Server, fd: int, io: LoopId): Server
    requires io in s.loops && BASE in s.loops
  {
    var c := s.nextConnId;
    var q := s.loops[io];
    var s1 := s.(
      conns := s.conns[c := Conn(fd, io, ConnectionModel.Connecting, true, 0, 0, 0)],
      connections := s.connections + {c}, nextConnId := c + 1,
      loops := s.loops[io := q.(poller := q.poller.(chans := q.poller.chans[c := Chan(fd, {}, New)]))]);
    if io == BASE then ConnectEstablished(s1, c) else Push(s1, io, Established(c))
  }

  function WithLoop(s: Server, l: LoopId, q: Loop): Server {
    s.(loops := s.loops[l := q])
  }

  function ApplyCallback(s: Server, l: LoopId, eof: bool): Server
    requires l in s.loops && s.loops[l].handler.Handling? && s.loops[l].handler.todo != []
    requires InPoller(s, s.loops[l].handler.c)
  {
    var h := s.loops[l].handler;
    var s1 := WithLoop(s, l, s.loops[l].(handler := Handling(h.c, h.revents, h.todo[1..])));
    if h.todo[0].Close? || (h.todo[0].Read? && eof) then HandleClose(s1, h.c) else s1
  }

  function ApplyFunctor(s: Server, l: LoopId): Server
    requires l in s.loops && s.loops[l].batch != [] && InPoller(s, s.loops[l].batch[0].c)
  {
    var q := s.loops[l];
    Perform(WithLoop(s, l, q.(batch := q.batch[1..], done := q.done + [q.batch[0]])), q.batch[0])
  }

  /** The destructor closes the descriptor and ends the channel. */
  function ApplyReap(s: Server, c: Id): Server
    requires InPoller(s, c)
  {
    var k := s.conns[c];
    var p := s.loops[k.loop].poller;
    WithPoller(WithConn(s, c, k.(alive := false)), k.loop, p.(chans := p.chans - {c}))
  }

  ghost function Apply(s: Server, step: Step): Server
    requires Enabled(s, step)
  {
    if !Safe(s, step) then s.(crashed := true)
    else
      match step
      case Accept(fd, io) => ApplyAccept(s, fd, io)
      case Poll(l, report) => WithLoop(s, l, s.loops[l].(phase := Dispatching, active := report))
      case Pick(l) =>
        var q := s.loops[l];
        var r := q.active[0];
        WithLoop(s, l, q.(active := q.active[1..], handler := Handling(r.c, r.revents, Callbacks(r.revents))))
      case RunCallback(l, eof) => ApplyCallback(s, l, eof)
      case EndHandler(l) => WithLoop(s, l, s.loops[l].(handler := NoHandler))
      case Swap(l) => WithLoop(s, l, s.loops[l].(phase := Calling, batch := s.loops[l].pending, pending := []))
      case RunFunctor(l) => ApplyFunctor(s, l)
      case EndBatch(l) => WithLoop(s, l, s.loops[l].(phase := Polling, done := []))
      case Toggle(c, mask) => SetMask(s, c, mask)
      case Shutdown(c) => WithConn(s, c, s.conns[c].(st := ConnectionModel.Disconnecting))
      case Queue(c, l) => Push(s, l, Other(c))
      case Begin(t, c, half) => ApplyBegin(s, t, c, half)
      case Post(t) => ApplyPost(s, t)
      case Release(t) => s.(calls := s.calls - {t})
      case TakeRef(c) => s.(userRefs := s.userRefs + {c})
      case DropRef(c) => s.(userRefs := s.userRefs - {c})
      case Reap(c) => ApplyReap(s, c)
  }

  ghost predicate Init(s: Server) {
    && BASE in s.loops && (forall l :: l in s.loops ==> s.loops[l] == FRESH_LOOP)
    && s.conns == map[] && s.nextConnId == 1 && s.connections == {} && s.userRefs == {} && s.calls == map[]
    && s.tickets == 0 && !s.crashed
  }

  ghost predicate Next(s: Server, s': Server) {
    exists step :: Enabled(s, step) && s' == Apply(s, step)
  }

  // ---------------------------------------------------------------- invariant

  /** Connection numbers run from 1, and every connection has its loop. */
  ghost predicate Numbered(s: Server) {
    && BASE in s.loops
    && s.nextConnId >= 1 && (forall c :: c in s.conns <==> 1 <= c < s.nextConnId)
    && (forall c :: c in s.conns ==> s.conns[c].loop in s.loops)
  }

  /** The channels of a loop's poller are those of its live connections. */
  ghost predicate Bound(s: Server) {
    && (forall c :: c in s.conns && s.conns[c].alive ==>
          InPoller(s, c) && s.loops[s.conns[c].loop].poller.chans[c].fd == s.conns[c].fd)
    && (forall l, c :: l in s.loops && c in s.loops[l].poller.chans ==>
          c in s.conns && s.conns[c].alive && s.conns[c].loop == l)
  }

  /** Connections, loops and channels refer to each other consistently. */
  ghost predicate Wired(s: Server) {
    Numbered(s) && Bound(s)
  }

  ghost predicate PollersSimulate(s: Server) {
    forall l :: l in s.loops ==> Simulates(s.loops[l].poller)
  }

  /** Open descriptors are distinct. */
  ghost predicate FdsDistinct(s: Server) {
    forall c, d :: c in s.conns && d in s.conns && c != d && s.conns[c].alive && s.conns[d].alive ==>
      s.conns[c].fd != s.conns[d].fd
  }

  /** The registration part of the invariant. */
  ghost predicate Registered(s: Server) {
    Wired(s) && PollersSimulate(s) && FdsDistinct(s)
  }

  /** The channel is in no fd table and no interest set. */
  predicate Unregistered(s: Server, c: Id)
    requires Knows(s, c)
  {
    InPoller(s, c) ==> s.loops[s.conns[c].loop].poller.chans[c].index.New?
  }

  /** What a functor held by loop l says about its connection. */
  ghost predicate FunctorFits(s: Server, l: LoopId, f: Functor) {
    && f.c in s.conns && (f.Raw? || s.conns[f.c].alive)
    && (f.Established? || f.Destroyed? || f.Raw? ==> s.conns[f.c].loop == l)
    && (f.RemoveInLoop? ==> l == BASE)
  }

  ghost predicate PointersFit(s: Server) {
    && (forall l, f :: l in s.loops && f in s.loops[l].pending ==> FunctorFits(s, l, f))
    && (forall l, f :: l in s.loops && f in s.loops[l].batch ==> FunctorFits(s, l, f))
    && (forall l, f :: l in s.loops && f in s.loops[l].done ==> FunctorFits(s, l, f))
    && (forall c :: c in s.connections ==> c in s.conns && s.conns[c].alive)
    && (forall c :: c in s.userRefs ==> c in s.conns && s.conns[c].alive)
    && (forall t :: t in s.calls ==> s.calls[t].c in s.conns && s.conns[s.calls[t].c].alive)
  }

  /** How often a functor is still to run in this loop. */
  function Due(q: Loop, f: Functor): nat {
    multiset(q.batch)[f] + multiset(q.pending)[f]
  }

  /** The life of one connection. */
  ghost predicate Life(s: Server, c: Id)
    requires Knows(s, c)
  {
    var k := s.conns[c];
    var q := s.loops[k.loop];
    && Due(q, Established(c)) == (if k.st.Connecting? then 1 else 0)
    && (Due(q, Destroyed(c)) > 0 || Due(s.loops[BASE], RemoveInLoop(c)) > 0 ==> k.st.Disconnected?)
    && (c in s.connections || Due(q, Destroyed(c)) > 0 || k.destroys > 0)
    && (k.st.Connecting? ==> c in s.connections && Unregistered(s, c) && k.downs == 0)
    && k.ups == (if k.st.Connecting? then 0 else 1)
    && (k.downs > 0 <==> k.st.Disconnected?)
    && (k.destroys > 0 ==> k.st.Disconnected? && Unregistered(s, c))
    && (!k.alive ==> k.destroys > 0)
  }

  ghost predicate Lives(s: Server) {
    forall c :: Knows(s, c) ==> Life(s, c)
  }

  /** A connection whose channel is about to be handled has not been torn down. */
  ghost predicate InRound(s: Server, l: LoopId, c: Id) {
    c in s.conns && s.conns[c].loop == l && s.conns[c].destroys == 0 && !s.conns[c].st.Connecting?
  }

  ghost predicate RoundIntact(s: Server, l: LoopId)
    requires l in s.loops
  {
    var q := s.loops[l];
    && (forall r :: r in q.active ==> q.phase.Dispatching? && InRound(s, l, r.c))
    && (q.handler.Handling? ==> q.phase.Dispatching? && InRound(s, l, q.handler.c))
    && (!q.phase.Calling? ==> q.batch == [] && q.done == [])
  }

  ghost predicate RoundsIntact(s: Server) {
    forall l :: l in s.loops ==> RoundIntact(s, l)
  }

  /** The ownership part of the invariant. */
  ghost predicate Owned(s: Server) {
    PointersFit(s) && Lives(s) && RoundsIntact(s)
  }

  ghost predicate Inv(s: Server) {
    Registered(s) && Owned(s)
  }
}
