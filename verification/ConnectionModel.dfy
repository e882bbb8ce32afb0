/**
 The output, half-close and echo behaviour of one connection as a state machine over its
 handlers. Socket calls are logged in `io`, so the claims below are about what the kernel saw.
 */
module ConnectionModel {
  import opened Buffers
  import Behaviors

  datatype ConnState = Connecting | Connected | Disconnecting | Disconnected

  datatype Errno = WouldBlock | Pipe | ConnReset | OtherErrno
  datatype WriteResult = Wrote(n: nat) | WriteError(errno: Errno)

  /** What the connection asked of the kernel or of its loop, in order. */
  datatype Io = Write(bytes: seq<byte>) | WriteFailed | Complete | ShutWr

  /** Calls made to user code and the server, and the removal of the channel, in order. */
  datatype Call = Up | Message | Down | Closed | Removed

  /** A message offered while connected; it is kept unless the peer was found gone. */
  datatype Offer = Offer(msg: seq<byte>, kept: bool)

  datatype Conn = Conn(
    st: ConnState,
    reading: bool,
    writing: bool,
    /** The task of a cross-thread `shutdown` is in the loop's queue. */
    posted: bool,
    input: seq<byte>,
    output: seq<byte>,
    io: seq<Io>,
    calls: seq<Call>,
    sent: seq<Offer>,
    received: seq<byte>)

  const INITIAL := Conn(Connecting, false, false, false, [], [], [], [], [], [])

  // ---------------------------------------------------------------- handlers

  function Buffered(c: Conn, rest: seq<byte>): Conn {
    if rest == [] then c else c.(output := c.output + rest, writing := true)
  }

  /** The peer is gone: the message is dropped. */
  predicate IsFault(r: WriteResult) {
    r.WriteError? && (r.errno.Pipe? || r.errno.ConnReset?)
  }

  /** What a write attempt of `msg` adds to the log. */
  function Attempt(msg: seq<byte>, r: WriteResult): seq<Io>
    requires r.Wrote? ==> r.n <= |msg|
  {
    match r
    case Wrote(n) => [Write(msg[..n])] + if n == |msg| then [Complete] else []
    case WriteError(_) => [WriteFailed]
  }

  function SendInLoop(c: Conn, msg: seq<byte>, r: WriteResult): Conn
    requires r.Wrote? ==> r.n <= |msg|
  {
    if c.st.Disconnected? then c
    else if c.writing || c.output != [] then
      Buffered(c.(sent := c.sent + [Offer(msg, true)]), msg)
    else
      var c1 := c.(io := c.io + Attempt(msg, r), sent := c.sent + [Offer(msg, !IsFault(r))]);
      if IsFault(r) then c1 else Buffered(c1, msg[if r.Wrote? then r.n else 0..])
  }

  function Send(c: Conn, msg: seq<byte>, r: WriteResult): Conn
    requires r.Wrote? ==> r.n <= |msg|
  {
    if c.st.Connected? then SendInLoop(c, msg, r) else c
  }

  function ShutdownInLoop(c: Conn): Conn {
    if c.writing then c else c.(io := c.io + [ShutWr])
  }

  function Shutdown(c: Conn): Conn {
    if c.st.Connected? then ShutdownInLoop(c.(st := Disconnecting)) else c
  }

  /** A `shutdown` called from another thread: only the state is set at once. */
  function PostShutdown(c: Conn): Conn {
    if c.st.Connected? then c.(st := Disconnecting, posted := true) else c
  }

  /** The task it posted. */
  function RunPosted(c: Conn): Conn {
    ShutdownInLoop(c.(posted := false))
  }

  function HandleWrite(c: Conn, r: WriteResult): Conn
    requires r.Wrote? ==> r.n <= |c.output|
  {
    if !c.writing then c
    else if r.WriteError? then c.(io := c.io + [WriteFailed])
    else
      var c1 := c.(io := c.io + [Write(c.output[..r.n])], output := c.output[r.n..]);
      if r.n == 0 || c1.output != [] then c1 else Drained(c1)
  }

  /** The last buffered byte went out: no more write interest, and a pending half-close is due. */
  function Drained(c: Conn): Conn {
    var c1 := c.(writing := false, io := c.io + [Complete]);
    if c.st.Disconnecting? then ShutdownInLoop(c1) else c1
  }

  function HandleClose(c: Conn): Conn {
    c.(st := Disconnected, reading := false, writing := false, calls := c.calls + [Down, Closed])
  }

  /** Bytes are buffered for the message callback, end of stream closes, an error is only logged. */
  function HandleRead(c: Conn, r: ReadResult): Conn {
    match r
    case Failed => c
    case Got(data) =>
      if data == [] then HandleClose(c)
      else c.(input := c.input + data, received := c.received + data, calls := c.calls + [Message])
  }

  lemma ReadResults(c: Conn, r: ReadResult)
    ensures r.Failed? ==> HandleRead(c, r) == c
    ensures r == Got([]) ==> HandleRead(c, r) == HandleClose(c)
    ensures r.Got? && r.data != [] ==>
              HandleRead(c, r) == c.(input := c.input + r.data, received := c.received + r.data,
                                     calls := c.calls + [Message])
  {
  }

  function ConnectEstablished(c: Conn): Conn {
    c.(st := Connected, reading := true, calls := c.calls + [Up])
  }

  function ConnectDestroyed(c: Conn): Conn {
    if c.st.Connected?
    then c.(st := Disconnected, reading := false, writing := false, calls := c.calls + [Down, Removed])
    else c.(calls := c.calls + [Removed])
  }

  function Retrieve(c: Conn, n: nat): Conn {
    c.(input := c.input[Min(n, |c.input|)..])
  }

  // ---------------------------------------------------------------- runs

  /**
   `DeferredSend` is the half of a cross-thread `send` that runs later in the loop, the other half having
   found the connection connected; `ShutdownElsewhere` and `DeferredShutdown` are the halves of a
   cross-thread `shutdown`.
   */
  datatype Step =
    | Establish
    | Readable(r: ReadResult)
    | UserRetrieve(len: nat)
    | UserSend(msg: seq<byte>, w: WriteResult)
    | UserShutdown
    | Writable(w: WriteResult)
    | PeerClose
    | Destroy
    | DeferredSend(msg: seq<byte>, w: WriteResult)
    | ShutdownElsewhere
    | DeferredShutdown

  predicate Enabled(c: Conn, step: Step) {
    match step
    case Establish => c.st.Connecting?
    case UserSend(msg, w) => w.Wrote? ==> w.n <= |msg|
    case DeferredSend(msg, w) => !c.st.Connecting? && (w.Wrote? ==> w.n <= |msg|)
    case Writable(w) => w.Wrote? ==> w.n <= |c.output|
    case DeferredShutdown => c.posted
    case _ => true
  }

  function Apply(c: Conn, step: Step): Conn
    requires Enabled(c, step)
  {
    match step
    case Establish => ConnectEstablished(c)
    case Readable(r) => HandleRead(c, r)
    case UserRetrieve(len) => Retrieve(c, len)
    case UserSend(msg, w) => Send(c, msg, w)
    case UserShutdown => Shutdown(c)
    case Writable(w) => HandleWrite(c, w)
    case PeerClose => HandleClose(c)
    case Destroy => ConnectDestroyed(c)
    case DeferredSend(msg, w) => SendInLoop(c, msg, w)
    case ShutdownElsewhere => PostShutdown(c)
    case DeferredShutdown => RunPosted(c)
  }

  ghost predicate Init(c: Conn) { c == INITIAL }

  /** Any handler or user call. */
  ghost predicate Next(c: Conn, c': Conn) {
    exists step :: Enabled(c, step) && c' == Apply(c, step)
  }

  /**
   A deferred task that comes too late: a send after SHUT_WR, a second SHUT_WR, or one on a closed
   connection with bytes left over.
   */
  predicate Late(c: Conn, step: Step) {
    match step
    case DeferredSend(_, _) => ShutWr in c.io && !c.st.Disconnected?
    case DeferredShutdown => !c.writing && (ShutWr in c.io || c.output != [])
    case _ => false
  }

  /** Any handler or user call but a late one. */
  ghost predicate TimelyNext(c: Conn, c': Conn) {
    exists step :: Enabled(c, step) && !Late(c, step) && c' == Apply(c, step)
  }

  // ---------------------------------------------------------------- what the kernel saw

  /** The bytes put on the wire. */
  function Wire(io: seq<Io>): seq<byte> {
    if io == [] then []
    else Wire(io[..|io| - 1]) + if io[|io| - 1].Write? then io[|io| - 1].bytes else []
  }

  /** The in-order concatenation of the messages that were kept. */
  function Stream(sent: seq<Offer>): seq<byte> {
    if sent == [] then []
    else Stream(sent[..|sent| - 1]) + if sent[|sent| - 1].kept then sent[|sent| - 1].msg else []
  }

  /** The concatenation of everything offered, kept or not. */
  function Offered(sent: seq<Offer>): seq<byte> {
    if sent == [] then [] else Offered(sent[..|sent| - 1]) + sent[|sent| - 1].msg
  }

  lemma WireAppend(io: seq<Io>, e: Io)
    ensures Wire(io + [e]) == Wire(io) + if e.Write? then e.bytes else []
  {
    assert (io + [e])[..|io|] == io;
  }

  lemma SentAppend(sent: seq<Offer>, o: Offer)
    ensures Stream(sent + [o]) == Stream(sent) + if o.kept then o.msg else []
    ensures Offered(sent + [o]) == Offered(sent) + o.msg
  {
    assert (sent + [o])[..|sent|] == sent;
  }

  // ---------------------------------------------------------------- invariant

  ghost predicate StreamIntact(c: Conn) {
    Wire(c.io) + c.output == Stream(c.sent)
  }

  predicate WriteInterestExact(c: Conn) {
    !c.st.Disconnected? ==> (c.writing <==> c.output != [])
  }

  /** SHUT_WR is issued exactly when the connection is half-closed and drained, and ends the log. */
  predicate HalfCloseOrdered(c: Conn) {
    && (ShutWr in c.io ==> c.st.Disconnecting? || c.st.Disconnected?)
    && (ShutWr in c.io ==> !c.writing && c.output == [])
    && (forall i :: 0 <= i < |c.io| - 1 ==> c.io[i] != ShutWr)
    && (c.st.Disconnecting? && !c.writing && !c.posted ==> ShutWr in c.io)
  }

  predicate Quiet(c: Conn) {
    && (c.st.Disconnected? ==> !c.writing)
    && (c.st.Connecting? ==> c.output == [] && c.io == [] && c.sent == [])
    && (c.posted ==> c.st.Disconnecting? || c.st.Disconnected?)
  }

  ghost predicate Inv(c: Conn) {
    StreamIntact(c) && WriteInterestExact(c) && HalfCloseOrdered(c) && Quiet(c)
  }

  // ---------------------------------------------------------------- one step

  lemma Assoc(a: seq<byte>, b: seq<byte>, c: seq<byte>)
    ensures (a + b) + c == a + (b + c)
  {
  }

  lemma Unit(a: seq<byte>)
    ensures a + [] == a && [] + a == a
  {
  }

  /** A send puts its message on record, kept unless it was tried at once and the peer was gone. */
  lemma SendOffers(c: Conn, msg: seq<byte>, r: WriteResult)
    requires !c.st.Disconnected? && (r.Wrote? ==> r.n <= |msg|)
    ensures var c' := SendInLoop(c, msg, r);
            && c'.sent == c.sent + [Offer(msg, c.writing || c.output != [] || !IsFault(r))]
            && c'.input == c.input && c'.received == c.received && c'.st == c.st
  {
  }

  lemma QueueKeepsStream(c: Conn, msg: seq<byte>)
    requires StreamIntact(c)
    ensures StreamIntact(Buffered(c.(sent := c.sent + [Offer(msg, true)]), msg))
  {
    SentAppend(c.sent, Offer(msg, true));
    Assoc(Wire(c.io), c.output, msg);
    Unit(c.output);
  }

  lemma FaultKeepsStream(c: Conn, msg: seq<byte>)
    requires StreamIntact(c)
    ensures StreamIntact(c.(io := c.io + [WriteFailed], sent := c.sent + [Offer(msg, false)]))
  {
    SentAppend(c.sent, Offer(msg, false));
    WireAppend(c.io, WriteFailed);
    Unit(Wire(c.io));
    Unit(Stream(c.sent));
  }

  lemma DirectKeepsStream(c: Conn, msg: seq<byte>, r: WriteResult)
    requires StreamIntact(c) && c.output == [] && !IsFault(r) && (r.Wrote? ==> r.n <= |msg|)
    ensures StreamIntact(Buffered(c.(io := c.io + Attempt(msg, r), sent := c.sent + [Offer(msg, true)]),
                                  msg[if r.Wrote? then r.n else 0..]))
  {
    var n := if r.Wrote? then r.n else 0;
    var c' := Buffered(c.(io := c.io + Attempt(msg, r), sent := c.sent + [Offer(msg, true)]), msg[n..]);
    assert Wire(c'.io) == Wire(c.io) + msg[..n] by { AttemptWire(c.io, msg, r); }
    assert Stream(c'.sent) == Stream(c.sent) + msg by { SentAppend(c.sent, Offer(msg, true)); }
    assert c'.output == msg[n..] by { Unit(msg[n..]); }
    assert Wire(c.io) == Stream(c.sent) by { Unit(Wire(c.io)); }
    Rejoin(Wire(c.io), msg, n);
  }

  /** The log and the buffer move together: nothing is lost, doubled or reordered by a send. */
  lemma SendKeepsStream(c: Conn, msg: seq<byte>, r: WriteResult)
    requires StreamIntact(c) && (r.Wrote? ==> r.n <= |msg|)
    ensures StreamIntact(SendInLoop(c, msg, r))
  {
    if c.st.Disconnected? {
    } else if c.writing || c.output != [] {
      QueueKeepsStream(c, msg);
    } else if IsFault(r) {
      FaultKeepsStream(c, msg);
    } else {
      DirectKeepsStream(c, msg, r);
    }
  }

  lemma AttemptWire(io: seq<Io>, msg: seq<byte>, r: WriteResult)
    requires r.Wrote? ==> r.n <= |msg|
    ensures Wire(io + Attempt(msg, r)) == Wire(io) + msg[..if r.Wrote? then r.n else 0]
  {
    if r.Wrote? {
      var io1 := io + [Write(msg[..r.n])];
      WireAppend(io, Write(msg[..r.n]));
      WireAppend(io1, Complete);
      assert io + Attempt(msg, r) == io1 + if r.n == |msg| then [Complete] else [];
      assert io1 + [] == io1;
    } else {
      WireAppend(io, WriteFailed);
    }
  }

  lemma DrainWire(c: Conn, n: nat)
    requires c.writing && n <= |c.output|
    ensures Wire(HandleWrite(c, Wrote(n)).io) == Wire(c.io) + c.output[..n]
  {
    var io1 := c.io + [Write(c.output[..n])];
    WireAppend(c.io, Write(c.output[..n]));
    WireAppend(io1, Complete);
    WireAppend(io1 + [Complete], ShutWr);
  }

  lemma WriteKeepsStream(c: Conn, r: WriteResult)
    requires StreamIntact(c) && (r.Wrote? ==> r.n <= |c.output|)
    ensures StreamIntact(HandleWrite(c, r))
  {
    if !c.writing {
    } else if r.WriteError? {
      WireAppend(c.io, WriteFailed);
      Unit(Wire(c.io));
    } else {
      DrainWire(c, r.n);
      Rejoin(Wire(c.io), c.output, r.n);
    }
  }

  lemma SendKeepsOrder(c: Conn, msg: seq<byte>, r: WriteResult)
    requires Inv(c) && !c.st.Connecting? && !Late(c, DeferredSend(msg, r)) && (r.Wrote? ==> r.n <= |msg|)
    ensures var c' := SendInLoop(c, msg, r);
            WriteInterestExact(c') && HalfCloseOrdered(c') && Quiet(c')
  {
  }

  lemma WriteKeepsOrder(c: Conn, r: WriteResult)
    requires Inv(c) && (r.Wrote? ==> r.n <= |c.output|)
    ensures var c' := HandleWrite(c, r);
            WriteInterestExact(c') && HalfCloseOrdered(c') && Quiet(c')
  {
  }

  lemma ShutKeepsStream(c: Conn)
    requires StreamIntact(c)
    ensures Wire(c.io + [ShutWr]) + c.output == Stream(c.sent)
  {
    WireAppend(c.io, ShutWr);
    Unit(Wire(c.io));
  }

  lemma StepKeepsStream(c: Conn, step: Step)
    requires StreamIntact(c) && Enabled(c, step)
    ensures StreamIntact(Apply(c, step))
  {
    hide Wire, Stream, SendInLoop, HandleWrite;
    match step
    case UserSend(msg, w) => SendKeepsStream(c, msg, w);
    case DeferredSend(msg, w) => SendKeepsStream(c, msg, w);
    case Writable(w) => WriteKeepsStream(c, w);
    case UserShutdown => ShutKeepsStream(c);
    case DeferredShutdown => ShutKeepsStream(c);
    case _ =>
  }

  lemma StepKeepsOrder(c: Conn, step: Step)
    requires Inv(c) && Enabled(c, step) && !Late(c, step)
    ensures var c' := Apply(c, step);
            WriteInterestExact(c') && HalfCloseOrdered(c') && Quiet(c')
  {
    match step
    case UserSend(msg, w) => if c.st.Connected? { SendKeepsOrder(c, msg, w); }
    case DeferredSend(msg, w) => SendKeepsOrder(c, msg, w);
    case Writable(w) => WriteKeepsOrder(c, w);
    case _ =>
  }

  lemma StepKeepsInv(c: Conn, step: Step)
    requires Inv(c) && Enabled(c, step) && !Late(c, step)
    ensures Inv(Apply(c, step))
  {
    StepKeepsStream(c, step);
    StepKeepsOrder(c, step);
  }

  lemma StreamInductive()
    ensures Behaviors.IsInductive(Init, Next, StreamIntact)
  {
    forall c, c' | StreamIntact(c) && Next(c, c') ensures StreamIntact(c') {
      var step :| Enabled(c, step) && c' == Apply(c, step);
      StepKeepsStream(c, step);
    }
  }

  lemma Inductive()
    ensures Behaviors.IsInductive(Init, TimelyNext, Inv)
  {
    forall c, c' | Inv(c) && TimelyNext(c, c') ensures Inv(c') {
      var step :| Enabled(c, step) && !Late(c, step) && c' == Apply(c, step);
      StepKeepsInv(c, step);
    }
  }

  // ---------------------------------------------------------------- theorems over whole runs

  /**
   Wire bytes followed by the buffered bytes are the kept messages, in order, at every moment, the calls
   of other threads included.
   */
  lemma OutputStreamIntegrity(run: seq<Conn>, i: nat)
    requires Behaviors.IsBehavior(Init, Next, run) && i < |run|
    ensures Wire(run[i].io) + run[i].output == Stream(run[i].sent)
  {
    StreamInductive();
    Behaviors.InvariantHolds(Init, Next, StreamIntact, run, i);
  }

  /** Half-close: once, drained, last; and write interest is exactly a non-empty buffer. */
  lemma DeferredHalfClose(run: seq<Conn>, i: nat)
    requires Behaviors.IsBehavior(Init, TimelyNext, run) && i < |run|
    ensures !run[i].st.Disconnected? ==> (run[i].writing <==> run[i].output != [])
    ensures forall k :: 0 <= k < |run[i].io| && run[i].io[k] == ShutWr ==>
              k == |run[i].io| - 1 && Wire(run[i].io) == Stream(run[i].sent)
    ensures run[i].st.Disconnecting? && run[i].output == [] && !run[i].posted ==> ShutWr in run[i].io
  {
    Inductive();
    Behaviors.InvariantHolds(Init, TimelyNext, Inv, run, i);
    var c := run[i];
    assert c.output == [] ==> Wire(c.io) + c.output == Wire(c.io);
  }

  function Rank(st: ConnState): nat {
    match st case Connecting => 0 case Connected => 1 case Disconnecting => 2 case Disconnected => 3
  }

  lemma StepForward(c: Conn, step: Step)
    requires Enabled(c, step)
    ensures Forward(c, Apply(c, step))
  {
  }

  /** The state, the I/O log and the calls made only move forward. */
  predicate Forward(c: Conn, c': Conn) {
    Rank(c.st) <= Rank(c'.st) && c.io <= c'.io && c.calls <= c'.calls
  }

  lemma NextForward(c: Conn, c': Conn)
    requires Next(c, c')
    ensures Forward(c, c')
  {
    var step :| Enabled(c, step) && c' == Apply(c, step);
    StepForward(c, step);
  }

  lemma {:induction false} ForwardStays(run: seq<Conn>, i: nat, j: nat)
    requires i <= j < |run|
    requires forall k, m :: i <= k && m == k + 1 && m <= j ==> Forward(run[k], run[m])
    ensures Forward(run[i], run[j])
    decreases j
  {
    if i < j {
      ForwardStays(run, i, j - 1);
      assert Forward(run[j - 1], run[j]);
    }
  }

  /** The connection state, the I/O log and the calls made only move forward over a run. */
  lemma MovesForward(run: seq<Conn>, i: nat, j: nat)
    requires Behaviors.IsBehavior(Init, Next, run) && i <= j < |run|
    ensures Rank(run[i].st) <= Rank(run[j].st) && run[i].io <= run[j].io && run[i].calls <= run[j].calls
  {
    forall k, m | i <= k && m == k + 1 && m <= j ensures Forward(run[k], run[m]) {
      NextForward(run[k], run[m]);
    }
    ForwardStays(run, i, j);
  }

  /**
   A faulted write drops its message whole: no byte of it is on the wire or buffered. Any other send that
   is not ignored takes its message in whole.
   */
  lemma FaultDropsWhole(c: Conn, msg: seq<byte>, r: WriteResult)
    requires StreamIntact(c) && WriteInterestExact(c) && !c.st.Disconnected? && (r.Wrote? ==> r.n <= |msg|)
    ensures var c' := SendInLoop(c, msg, r);
            if c.output == [] && IsFault(r)
            then Wire(c'.io) + c'.output == Wire(c.io) + c.output && Stream(c'.sent) == Stream(c.sent)
            else Wire(c'.io) + c'.output == Wire(c.io) + c.output + msg
  {
    var kept := !(c.output == [] && IsFault(r));
    assert SendInLoop(c, msg, r).sent == c.sent + [Offer(msg, kept)] by { SendOffers(c, msg, r); }
    SendKeepsStream(c, msg, r);
    SentAppend(c.sent, Offer(msg, kept));
    Unit(Stream(c.sent));
  }

  /** Something was done on the socket after SHUT_WR, or SHUT_WR overtook bytes that will never go out. */
  ghost predicate Broken(c: Conn) {
    || (exists k :: 0 <= k < |c.io| - 1 && c.io[k] == ShutWr)
    || (c.st.Disconnected? && !c.writing && c.output != [] && ShutWr in c.io)
  }

  lemma BrokenIsUnordered(c: Conn)
    requires Broken(c)
    ensures !HalfCloseOrdered(c)
  {
  }

  /** A send deferred from another thread keeps the half-close order exactly when SHUT_WR has not been issued. */
  lemma DeferredSendOrder(c: Conn, msg: seq<byte>, r: WriteResult)
    requires Inv(c) && !c.st.Connecting? && (r.Wrote? ==> r.n <= |msg|)
    ensures HalfCloseOrdered(SendInLoop(c, msg, r)) <==> !Late(c, DeferredSend(msg, r))
    ensures Late(c, DeferredSend(msg, r)) ==> Broken(SendInLoop(c, msg, r))
  {
    if Late(c, DeferredSend(msg, r)) {
      var k := |c.io| - 1;
      assert c.io[k] == ShutWr;
      assert SendInLoop(c, msg, r).io[k] == ShutWr;
    } else {
      SendKeepsOrder(c, msg, r);
    }
  }

  /**
   The task of a cross-thread `shutdown` keeps the order exactly when write interest stands, or nothing is
   left to write and SHUT_WR has not been issued.
   */
  lemma DeferredShutdownOrder(c: Conn)
    requires Inv(c) && c.posted
    ensures HalfCloseOrdered(RunPosted(c)) <==> !Late(c, DeferredShutdown)
    ensures Late(c, DeferredShutdown) ==> Broken(RunPosted(c))
  {
    var c' := RunPosted(c);
    if !c.writing {
      assert c'.io[|c.io|] == ShutWr;
      if ShutWr in c.io {
        assert c'.io[|c.io| - 1] == ShutWr;
      }
    }
  }

  /** This step of a run is a late one. */
  ghost predicate IsLate(c: Conn, c': Conn) {
    exists step :: Enabled(c, step) && Late(c, step) && c' == Apply(c, step)
  }

  lemma LeftOverStays(c: Conn, step: Step)
    requires c.st.Disconnected? && !c.writing && Enabled(c, step)
    ensures var c' := Apply(c, step); c'.st.Disconnected? && !c'.writing && c'.output == c.output
  {
  }

  lemma BrokenStays(c: Conn, c': Conn)
    requires Broken(c) && Next(c, c')
    ensures Broken(c')
  {
    NextForward(c, c');
    if k :| 0 <= k < |c.io| - 1 && c.io[k] == ShutWr {
      assert c'.io[k] == ShutWr;
    } else {
      var step :| Enabled(c, step) && c' == Apply(c, step);
      LeftOverStays(c, step);
      assert forall e :: e in c.io ==> e in c'.io;
    }
  }

  lemma LateBreaks(c: Conn, step: Step)
    requires Inv(c) && Enabled(c, step) && Late(c, step)
    ensures Broken(Apply(c, step))
  {
    if step.DeferredSend? {
      DeferredSendOrder(c, step.msg, step.w);
    } else {
      DeferredShutdownOrder(c);
    }
  }

  lemma AfterOrder(c: Conn, c': Conn)
    requires Inv(c) && Next(c, c')
    ensures if IsLate(c, c') then Broken(c') else Inv(c')
  {
    if IsLate(c, c') {
      var step :| Enabled(c, step) && Late(c, step) && c' == Apply(c, step);
      LateBreaks(c, step);
    } else {
      var step :| Enabled(c, step) && c' == Apply(c, step);
      StepKeepsInv(c, step);
    }
  }

  /** Over a whole run, calls of other threads included, the half-close order holds exactly when none came late. */
  lemma HalfCloseExactly(run: seq<Conn>, i: nat)
    requires Behaviors.IsBehavior(Init, Next, run) && i < |run|
    ensures HalfCloseOrdered(run[i]) <==> Behaviors.Never(IsLate, run, i)
  {
    forall c, c' | Inv(c) && Next(c, c') ensures if IsLate(c, c') then Broken(c') else Inv(c') {
      AfterOrder(c, c');
    }
    forall c, c' | Broken(c) && Next(c, c') ensures Broken(c') {
      BrokenStays(c, c');
    }
    Behaviors.GoodUntilSlip(Init, Next, IsLate, Inv, Broken, run, i);
    if Broken(run[i]) {
      BrokenIsUnordered(run[i]);
    }
  }

  /** One more step of a run. */
  lemma Take(run: seq<Conn>, step: Step)
    requires Behaviors.IsBehavior(Init, Next, run) && Enabled(run[|run| - 1], step)
    ensures Behaviors.IsBehavior(Init, Next, run + [Apply(run[|run| - 1], step)])
  {
    Behaviors.Continue(Init, Next, run, Apply(run[|run| - 1], step));
  }

  /** The failing family is inhabited: a send from a worker, a shutdown on the loop, then the send runs. */
  lemma DeferredSendAfterShutdown() returns (run: seq<Conn>)
    ensures Behaviors.IsBehavior(Init, Next, run) && Broken(run[|run| - 1])
    ensures run[|run| - 1].io == [ShutWr, Write([1]), Complete]
  {
    var c1 := ConnectEstablished(INITIAL);
    var c2 := Shutdown(c1);
    var c3 := SendInLoop(c2, [1], Wrote(1));
    run := [INITIAL];
    Take(run, Establish);
    run := run + [c1];
    Take(run, UserShutdown);
    run := run + [c2];
    Take(run, DeferredSend([1], Wrote(1)));
    run := run + [c3];
    assert c2.io == [ShutWr] && Attempt([1], Wrote(1)) == [Write([1]), Complete] by {
      var msg: seq<byte> := [1];
      assert msg[..1] == msg;
    }
    assert c3.io[0] == ShutWr;
  }

  /** A byte is buffered, and another thread has called `shutdown`. */
  const HALF := Conn(Disconnecting, true, true, true, [], [1], [Write([])], [Up], [Offer([1], true)], [])
  /** The byte has gone out, and SHUT_WR with it. */
  const SHUT := HALF.(writing := false, output := [], io := [Write([]), Write([1]), Complete, ShutWr])

  lemma HalfThenShut()
    ensures PostShutdown(Send(ConnectEstablished(INITIAL), [1], Wrote(0))) == HALF
    ensures HandleWrite(HALF, Wrote(1)) == SHUT
  {
    var msg: seq<byte> := [1];
    assert msg[..0] == [] && msg[0..] == msg && [] + msg == msg && msg[..1] == msg && msg[1..] == [];
    assert HandleWrite(HALF, Wrote(1)).io == SHUT.io;
  }

  /** And so is its other half: the output drains between the worker's `shutdown` and its task. */
  lemma ShutdownTwice() returns (run: seq<Conn>)
    ensures Behaviors.IsBehavior(Init, Next, run) && Broken(run[|run| - 1])
    ensures run[|run| - 1].io == [Write([]), Write([1]), Complete, ShutWr, ShutWr]
  {
    hide Next, Send, HandleWrite;
    HalfThenShut();
    var c1 := ConnectEstablished(INITIAL);
    var c2 := Send(c1, [1], Wrote(0));
    run := [INITIAL];
    Take(run, Establish);
    run := run + [c1];
    Take(run, UserSend([1], Wrote(0)));
    run := run + [c2];
    Take(run, ShutdownElsewhere);
    run := run + [HALF];
    Take(run, Writable(Wrote(1)));
    run := run + [SHUT];
    Take(run, DeferredShutdown);
    run := run + [RunPosted(SHUT)];
    assert RunPosted(SHUT).io[3] == ShutWr;
  }

  // ---------------------------------------------------------------- completion, silence, callbacks

  predicate Off(c: Conn) {
    c.st.Disconnected? ==> !c.reading && !c.writing
  }

  /** Each completion follows a write, and SHUT_WR follows one only with bytes left over. */
  ghost predicate Paired(io: seq<Io>, left: bool) {
    && (forall k :: 0 <= k < |io| && io[k].Complete? ==> k > 0 && io[k - 1].Write?)
    && (forall k, m :: 0 <= k && m == k + 1 && m < |io| && io[k].Write? && io[m].ShutWr? ==> left)
  }

  lemma PairOn(io: seq<Io>, left: bool, e: Io)
    requires Paired(io, left)
    requires e.Complete? ==> io != [] && io[|io| - 1].Write?
    requires e.ShutWr? && io != [] && io[|io| - 1].Write? ==> left
    ensures Paired(io + [e], left)
  {
    assert forall k :: 0 <= k < |io| ==> (io + [e])[k] == io[k];
  }

  /** A completion follows the write that left nothing buffered, and no other. */
  ghost predicate CompletionExact(c: Conn) {
    && Paired(c.io, c.st.Disconnected? && c.output != [])
    && (c.io != [] && c.io[|c.io| - 1].Write? ==> c.output != [])
    && (c.io != [] && c.io[|c.io| - 1].Complete? ==> c.output == [])
  }

  ghost predicate Settled(c: Conn) {
    WriteInterestExact(c) && Off(c) && CompletionExact(c)
  }

  /** A write was logged, and with it that nothing is left, or not. */
  lemma LogSettles(c: Conn, c': Conn, bytes: seq<byte>, tail: seq<Io>)
    requires CompletionExact(c) && c'.io == c.io + ([Write(bytes)] + tail)
    requires !c.st.Disconnected? && !c'.st.Disconnected?
    requires (tail == [] && c'.output != []) || ((tail == [Complete] || tail == [Complete, ShutWr]) && c'.output == [])
    ensures CompletionExact(c')
  {
    hide Paired;
    var io1 := c.io + [Write(bytes)];
    PairOn(c.io, false, Write(bytes));
    if tail == [] {
      assert c'.io == io1;
    } else {
      PairOn(io1, false, Complete);
      PairOn(io1 + [Complete], false, ShutWr);
      assert c'.io == io1 + [Complete] + tail[1..];
      assert tail[1..] == [] || tail[1..] == [ShutWr];
      assert io1 + [Complete] + [] == io1 + [Complete];
    }
  }

  lemma FailSettles(c: Conn, c': Conn)
    requires CompletionExact(c) && c'.io == c.io + [WriteFailed] && !c.st.Disconnected? && !c'.st.Disconnected?
    ensures CompletionExact(c')
  {
    hide Paired;
    PairOn(c.io, false, WriteFailed);
  }

  lemma SameLogSettles(c: Conn, c': Conn)
    requires CompletionExact(c) && c'.io == c.io && c'.output == c.output && (c.st.Disconnected? ==> c'.st.Disconnected?)
    ensures CompletionExact(c')
  {
  }

  lemma AttemptSettles(c: Conn, msg: seq<byte>, r: WriteResult)
    requires Settled(c) && !c.st.Disconnected? && !c.writing && c.output == [] && (r.Wrote? ==> r.n <= |msg|)
    ensures Settled(SendInLoop(c, msg, r))
  {
    hide CompletionExact;
    var c' := SendInLoop(c, msg, r);
    if r.Wrote? {
      assert r.n == |msg| <==> msg[r.n..] == [];
    }
    if r.Wrote? {
      var tail := if r.n == |msg| then [Complete] else [];
      assert Attempt(msg, r) == [Write(msg[..r.n])] + tail;
      LogSettles(c, c', msg[..r.n], tail);
    } else {
      FailSettles(c, c');
    }
  }

  lemma QueueSettles(c: Conn, msg: seq<byte>)
    requires Settled(c) && !c.st.Disconnected? && c.output != []
    ensures Settled(Buffered(c.(sent := c.sent + [Offer(msg, true)]), msg))
  {
  }

  lemma SendSettles(c: Conn, msg: seq<byte>, r: WriteResult)
    requires Settled(c) && (r.Wrote? ==> r.n <= |msg|)
    ensures Settled(SendInLoop(c, msg, r))
  {
    hide CompletionExact;
    if c.st.Disconnected? {
    } else if !c.writing && c.output == [] {
      AttemptSettles(c, msg, r);
    } else {
      QueueSettles(c, msg);
    }
  }

  lemma WriteSettles(c: Conn, r: WriteResult)
    requires Settled(c) && (r.Wrote? ==> r.n <= |c.output|)
    ensures Settled(HandleWrite(c, r))
  {
    hide CompletionExact;
    var c' := HandleWrite(c, r);
    if c.writing {
      if r.WriteError? {
        FailSettles(c, c');
      } else {
        var tail := if c'.output != [] then [] else if c.st.Disconnecting? then [Complete, ShutWr] else [Complete];
        assert c'.io == c.io + ([Write(c.output[..r.n])] + tail);
        LogSettles(c, c', c.output[..r.n], tail);
      }
    }
  }

  lemma ShutSettles(c: Conn)
    requires Settled(c)
    ensures Settled(ShutdownInLoop(c))
  {
    hide Paired;
    if !c.writing {
      PairOn(c.io, c.st.Disconnected? && c.output != [], ShutWr);
    }
  }

  lemma OtherSettles(c: Conn, step: Step)
    requires Settled(c) && Enabled(c, step)
    requires !step.UserSend? && !step.DeferredSend? && !step.Writable? && !step.UserShutdown? && !step.DeferredShutdown?
    ensures Settled(Apply(c, step))
  {
    hide CompletionExact;
    SameLogSettles(c, Apply(c, step));
  }

  lemma StepSettles(c: Conn, step: Step)
    requires Settled(c) && Enabled(c, step)
    ensures Settled(Apply(c, step))
  {
    hide CompletionExact, ShutdownInLoop, HandleWrite, SendInLoop;
    match step
    case UserSend(msg, w) => SendSettles(c, msg, w);
    case DeferredSend(msg, w) => SendSettles(c, msg, w);
    case Writable(w) => WriteSettles(c, w);
    case UserShutdown =>
      if c.st.Connected? {
        StateSettles(c, c.(st := Disconnecting));
        ShutSettles(c.(st := Disconnecting));
      }
    case DeferredShutdown =>
      StateSettles(c, c.(posted := false));
      ShutSettles(c.(posted := false));
    case _ => OtherSettles(c, step);
  }

  lemma StateSettles(c: Conn, c': Conn)
    requires Settled(c) && c' == c.(st := c'.st, posted := c'.posted) && (c.st.Disconnected? <==> c'.st.Disconnected?)
    ensures Settled(c')
  {
  }

  lemma AlwaysSettled(run: seq<Conn>, i: nat)
    requires Behaviors.IsBehavior(Init, Next, run) && i < |run|
    ensures Settled(run[i])
  {
    forall c, c' | Settled(c) && Next(c, c') ensures Settled(c') {
      var step :| Enabled(c, step) && c' == Apply(c, step);
      StepSettles(c, step);
    }
    Behaviors.InvariantHolds(Init, Next, Settled, run, i);
  }

  /**
   Over every run: the write-complete callback is queued right after a write, exactly when that write left
   nothing buffered; the log only grows, so this holds of every write in it.
   */
  lemma CompletesExactly(run: seq<Conn>, i: nat)
    requires Behaviors.IsBehavior(Init, Next, run) && i < |run|
    ensures var c := run[i];
            && (c.io != [] && c.io[|c.io| - 1].Write? ==> c.output != [])
            && (c.io != [] && c.io[|c.io| - 1].Complete? ==> c.output == [])
            && (forall k :: 0 <= k < |c.io| && c.io[k].Complete? ==> k > 0 && c.io[k - 1].Write?)
            && (forall k, m :: 0 <= k && m == k + 1 && m < |c.io| && c.io[k].Write? && c.io[m].ShutWr? ==>
                  c.st.Disconnected? && c.output != [])
  {
    AlwaysSettled(run, i);
  }

  /** Nothing more is written, buffered or taken on. */
  predicate Silent(c: Conn, c': Conn) {
    && c'.st.Disconnected? && !c'.reading && !c'.writing && c'.output == c.output && c'.sent == c.sent
    && (c'.io == c.io || c'.io == c.io + [ShutWr])
  }

  lemma StepSilent(c: Conn, step: Step)
    requires c.st.Disconnected? && Off(c) && Enabled(c, step)
    ensures Silent(c, Apply(c, step))
  {
  }

  /** A closed connection is deaf and dumb: no byte goes out, and no message is taken on. */
  lemma {:induction false} SilentOnceClosed(run: seq<Conn>, i: nat, j: nat)
    requires Behaviors.IsBehavior(Init, Next, run) && i <= j < |run| && run[i].st.Disconnected?
    ensures run[j].st.Disconnected? && !run[j].reading && !run[j].writing
    ensures run[j].output == run[i].output && run[j].sent == run[i].sent && Wire(run[j].io) == Wire(run[i].io)
    decreases j
  {
    hide Next, Init, Wire, CompletionExact;
    AlwaysSettled(run, i);
    if i < j {
      SilentOnceClosed(run, i, j - 1);
      assert Next(run[j - 1], run[j]);
      NextSilent(run[j - 1], run[j]);
    }
  }

  lemma NextSilent(c: Conn, c': Conn)
    requires c.st.Disconnected? && Off(c) && Next(c, c')
    ensures Silent(c, c') && Wire(c'.io) == Wire(c.io)
  {
    var step :| Enabled(c, step) && c' == Apply(c, step);
    StepSilent(c, step);
    WireAppend(c.io, ShutWr);
    Unit(Wire(c.io));
  }

  /** The channel of the connection is in a poller. */
  predicate Registered(c: Conn) {
    !c.st.Connecting? && Removed !in c.calls
  }

  /** Events are handled only while the channel is in a poller, and a connection is destroyed only once established. */
  ghost predicate DispatchedNext(c: Conn, c': Conn) {
    exists step ::
      && Enabled(c, step) && c' == Apply(c, step)
      && (step.Readable? || step.Writable? || step.PeerClose? ==> Registered(c))
      && (step.Destroy? ==> !c.st.Connecting?)
  }

  /** Up comes first and once, Closed directly after Down, and nothing after the removal of the channel. */
  ghost predicate CallsShaped(calls: seq<Call>) {
    && (calls != [] ==> calls[0] == Up)
    && (forall k :: 0 < k < |calls| ==> calls[k] != Up)
    && (forall k :: 0 <= k < |calls| && calls[k] == Closed ==> k > 0 && calls[k - 1] == Down)
    && (forall k, m :: 0 <= k < m < |calls| && calls[k] == Removed ==> calls[m] == Removed)
  }

  ghost predicate CallsOrdered(c: Conn) {
    && CallsShaped(c.calls)
    && (c.calls == [] <==> c.st.Connecting?)
    && (c.st.Disconnected? <==> Down in c.calls)
    && (Removed in c.calls ==> c.st.Disconnecting? || c.st.Disconnected?)
    && (c.reading <==> c.st.Connected? || c.st.Disconnecting?)
  }

  lemma MoreCalls(calls: seq<Call>, more: seq<Call>)
    requires CallsShaped(calls) && calls != []
    requires more == [Removed] || (Removed !in calls && (more == [Message] || more == [Down, Closed] || more == [Down, Removed]))
    ensures CallsShaped(calls + more) && (Down in calls + more <==> Down in calls || Down in more)
    ensures Removed in calls + more <==> Removed in calls || Removed in more
  {
    assert forall k :: 0 <= k < |calls| ==> (calls + more)[k] == calls[k];
    assert forall k :: |calls| <= k < |calls + more| ==> (calls + more)[k] == more[k - |calls|];
  }

  lemma ReadCallsOrdered(c: Conn, r: ReadResult)
    requires CallsOrdered(c) && Registered(c)
    ensures CallsOrdered(HandleRead(c, r)) && CallsOrdered(HandleClose(c))
  {
    hide CallsShaped;
    MoreCalls(c.calls, [Message]);
    MoreCalls(c.calls, [Down, Closed]);
  }

  lemma DestroyCallsOrdered(c: Conn)
    requires CallsOrdered(c) && !c.st.Connecting?
    ensures CallsOrdered(ConnectDestroyed(c))
  {
    hide CallsShaped;
    MoreCalls(c.calls, [Removed]);
    if c.st.Connected? {
      MoreCalls(c.calls, [Down, Removed]);
    }
  }

  lemma QuietCallsOrdered(c: Conn, step: Step)
    requires CallsOrdered(c) && Enabled(c, step)
    requires !step.Establish? && !step.Readable? && !step.PeerClose? && !step.Destroy?
    ensures CallsOrdered(Apply(c, step))
  {
    hide CallsShaped;
  }

  lemma StepCallsOrdered(c: Conn, step: Step)
    requires CallsOrdered(c) && Enabled(c, step)
    requires step.Readable? || step.Writable? || step.PeerClose? ==> Registered(c)
    requires step.Destroy? ==> !c.st.Connecting?
    ensures CallsOrdered(Apply(c, step))
  {
    match step
    case Establish => assert c.calls + [Up] == [Up];
    case Readable(r) => ReadCallsOrdered(c, r);
    case PeerClose => ReadCallsOrdered(c, Failed);
    case Destroy => DestroyCallsOrdered(c);
    case _ => QuietCallsOrdered(c, step);
  }

  /** Over every run: what user code and the server are told, in which order, and for how long the channel reads. */
  lemma CallsInOrder(run: seq<Conn>, i: nat)
    requires Behaviors.IsBehavior(Init, DispatchedNext, run) && i < |run|
    ensures CallsOrdered(run[i])
  {
    forall c, c' | CallsOrdered(c) && DispatchedNext(c, c') ensures CallsOrdered(c') {
      var step :|
        && Enabled(c, step) && c' == Apply(c, step)
        && (step.Readable? || step.Writable? || step.PeerClose? ==> Registered(c))
        && (step.Destroy? ==> !c.st.Connecting?);
      StepCallsOrdered(c, step);
    }
    Behaviors.InvariantHolds(Init, DispatchedNext, CallsOrdered, run, i);
  }

  /** A read changes the state only at end of stream, and then it tells user code and the server. */
  lemma ReadCloses(c: Conn, r: ReadResult)
    requires !c.st.Disconnected?
    ensures HandleRead(c, r).st.Disconnected? <==> r == Got([])
    ensures Closed in HandleRead(c, r).calls[|c.calls|..] <==> r == Got([])
    ensures Message in HandleRead(c, r).calls[|c.calls|..] <==> r.Got? && r.data != []
  {
    ReadResults(c, r);
    assert forall cs: seq<Call> :: (c.calls + cs)[|c.calls|..] == cs;
  }

  // ---------------------------------------------------------------- echo

  predicate EchoEnabled(c: Conn, data: seq<byte>, w: WriteResult) {
    data != [] && (w.Wrote? ==> w.n <= |c.input + data|)
  }

  /** The echo message callback: everything readable is taken out and sent back. */
  function EchoRead(c: Conn, data: seq<byte>, w: WriteResult): Conn
    requires EchoEnabled(c, data, w)
  {
    var c1 := HandleRead(c, Got(data));
    Send(Retrieve(c1, |c1.input|), c1.input, w)
  }

  /** The events of an echo connection, which may still read in the event that closed it. The server never half-closes. */
  ghost predicate EchoNext(c: Conn, c': Conn) {
    || (c.st.Connecting? && c' == ConnectEstablished(c))
    || (exists data, w :: !c.st.Connecting? && EchoEnabled(c, data, w) && c' == EchoRead(c, data, w))
    || (exists w :: Enabled(c, Writable(w)) && c' == HandleWrite(c, w))
    || c' == HandleClose(c)
    || c' == ConnectDestroyed(c)
  }

  ghost predicate EchoInv(c: Conn) {
    && Inv(c)
    && !c.st.Disconnecting?
    && c.input == []
    && Offered(c.sent) <= c.received
    && (!c.st.Disconnected? ==> Offered(c.sent) == c.received)
    && forall o :: o in c.sent ==> o.msg != []
  }

  function Noted(c: Conn, data: seq<byte>): Conn {
    c.(received := c.received + data, calls := c.calls + [Message])
  }

  /** An echo step is the send of what was just read. */
  lemma EchoReadSends(c: Conn, data: seq<byte>, w: WriteResult)
    requires c.input == [] && EchoEnabled(c, data, w)
    ensures w.Wrote? ==> w.n <= |data|
    ensures EchoRead(c, data, w) == Send(Noted(c, data), data, w)
  {
    assert c.input + data == data && data[|data|..] == [];
  }

  lemma EchoReadKeeps(c: Conn, data: seq<byte>, w: WriteResult)
    requires EchoInv(c) && !c.st.Connecting? && EchoEnabled(c, data, w)
    ensures EchoInv(EchoRead(c, data, w))
    ensures !c.st.Disconnected? ==> Offered(EchoRead(c, data, w).sent) == Offered(c.sent) + data
  {
    EchoReadSends(c, data, w);
    StepKeepsInv(Noted(c, data), UserSend(data, w));
    if c.st.Connected? {
      EchoSendKeeps(Noted(c, data), data, w);
    }
  }

  /** Whatever becomes of the message, it is on record as offered. */
  lemma EchoSendKeeps(c: Conn, data: seq<byte>, w: WriteResult)
    requires c.st.Connected? && (w.Wrote? ==> w.n <= |data|)
    ensures var c' := SendInLoop(c, data, w);
            Offered(c'.sent) == Offered(c.sent) + data && c'.input == c.input && c'.received == c.received
            && c'.st == c.st && exists kept :: c'.sent == c.sent + [Offer(data, kept)]
  {
    SendOffers(c, data, w);
    SentAppend(c.sent, Offer(data, c.writing || c.output != [] || !IsFault(w)));
  }

  lemma EchoWriteKeeps(c: Conn, w: WriteResult)
    requires EchoInv(c) && Enabled(c, Writable(w))
    ensures EchoInv(HandleWrite(c, w))
  {
    StepKeepsInv(c, Writable(w));
  }

  lemma EchoOtherKeeps(c: Conn)
    requires EchoInv(c)
    ensures c.st.Connecting? ==> EchoInv(ConnectEstablished(c))
    ensures EchoInv(HandleClose(c)) && EchoInv(ConnectDestroyed(c))
  {
    StepKeepsInv(c, PeerClose);
    StepKeepsInv(c, Destroy);
    if c.st.Connecting? {
      StepKeepsInv(c, Establish);
    }
  }

  lemma EchoStepKeeps(c: Conn, c': Conn)
    requires EchoInv(c) && EchoNext(c, c')
    ensures EchoInv(c')
  {
    if data, w :| !c.st.Connecting? && EchoEnabled(c, data, w) && c' == EchoRead(c, data, w) {
      EchoReadKeeps(c, data, w);
    } else if w :| Enabled(c, Writable(w)) && c' == HandleWrite(c, w) {
      EchoWriteKeeps(c, w);
    } else {
      EchoOtherKeeps(c);
    }
  }

  lemma EchoInductive()
    ensures Behaviors.IsInductive(Init, EchoNext, EchoInv)
  {
    forall c, c' | EchoInv(c) && EchoNext(c, c') ensures EchoInv(c') {
      EchoStepKeeps(c, c');
    }
  }

  /** Nothing is missing from the stream exactly when no (non-empty) message was dropped. */
  lemma {:induction false} StreamIsOffered(sent: seq<Offer>)
    requires forall o :: o in sent ==> o.msg != []
    ensures |Stream(sent)| <= |Offered(sent)|
    ensures Stream(sent) == Offered(sent) <==> forall o :: o in sent ==> o.kept
  {
    if sent != [] {
      var init, last := sent[..|sent| - 1], sent[|sent| - 1];
      assert sent == init + [last];
      StreamIsOffered(init);
      if !last.kept {
        assert last in sent;
        assert |Stream(sent)| < |Offered(sent)|;
      } else if Stream(sent) == Offered(sent) {
        assert Stream(init) == Stream(sent)[..|Stream(sent)| - |last.msg|] == Offered(init);
      }
    }
  }

  /** This step of a run reads after the connection has closed. */
  ghost predicate ReadsAfterClose(c: Conn, c': Conn) {
    c.st.Disconnected? && exists data, w :: EchoEnabled(c, data, w) && c' == EchoRead(c, data, w)
  }

  ghost predicate AllOffered(c: Conn) {
    EchoInv(c) && Offered(c.sent) == c.received
  }

  ghost predicate SomeNotOffered(c: Conn) {
    EchoInv(c) && |Offered(c.sent)| < |c.received|
  }

  lemma ClosedRead(c: Conn, data: seq<byte>, w: WriteResult)
    requires EchoInv(c) && c.st.Disconnected? && EchoEnabled(c, data, w)
    ensures EchoRead(c, data, w) == Noted(c, data)
  {
    EchoReadSends(c, data, w);
  }

  /** No step of a closed connection but a read changes what was read or offered. */
  lemma ClosedStep(c: Conn, c': Conn)
    requires EchoInv(c) && c.st.Disconnected? && EchoNext(c, c')
    ensures c'.sent == c.sent && c'.st.Disconnected? && c.received <= c'.received
    ensures ReadsAfterClose(c, c') <==> |c.received| < |c'.received|
  {
    if data, w :| EchoEnabled(c, data, w) && c' == EchoRead(c, data, w) {
      ClosedRead(c, data, w);
    }
  }

  lemma OpenStep(c: Conn, c': Conn)
    requires AllOffered(c) && !c.st.Disconnected? && EchoNext(c, c')
    ensures Offered(c'.sent) == c'.received
  {
    if data, w :| !c.st.Connecting? && EchoEnabled(c, data, w) && c' == EchoRead(c, data, w) {
      EchoReadKeeps(c, data, w);
      EchoReadSends(c, data, w);
      SendOffers(Noted(c, data), data, w);
    }
  }

  lemma OfferedStep(c: Conn, c': Conn)
    requires AllOffered(c) && EchoNext(c, c')
    ensures if ReadsAfterClose(c, c') then SomeNotOffered(c') else AllOffered(c')
  {
    hide EchoInv, EchoNext;
    EchoStepKeeps(c, c');
    if c.st.Disconnected? {
      ClosedStep(c, c');
    } else {
      OpenStep(c, c');
    }
  }

  lemma NotOfferedStep(c: Conn, c': Conn)
    requires SomeNotOffered(c) && EchoNext(c, c')
    ensures SomeNotOffered(c')
  {
    EchoStepKeeps(c, c');
    hide EchoNext;
    assert c.st.Disconnected?;
    ClosedStep(c, c');
  }

  lemma EchoInitially()
    ensures AllOffered(INITIAL)
  {
  }

  /** Everything read was offered back exactly when nothing was read after the close. */
  lemma OfferedExactly(run: seq<Conn>, i: nat)
    requires Behaviors.IsBehavior(Init, EchoNext, run) && i < |run|
    ensures EchoInv(run[i])
    ensures Offered(run[i].sent) == run[i].received <==> Behaviors.Never(ReadsAfterClose, run, i)
  {
    EchoInitially();
    forall c, c' | AllOffered(c) && EchoNext(c, c')
      ensures if ReadsAfterClose(c, c') then SomeNotOffered(c') else AllOffered(c')
    {
      OfferedStep(c, c');
    }
    forall c, c' | SomeNotOffered(c) && EchoNext(c, c') ensures SomeNotOffered(c') {
      NotOfferedStep(c, c');
    }
    Behaviors.GoodUntilSlip(Init, EchoNext, ReadsAfterClose, AllOffered, SomeNotOffered, run, i);
  }

  /**
   End to end: everything read is echoed, in order, if and only if no write was faulted and nothing was
   read after the connection closed.
   */
  lemma EchoEndToEnd(run: seq<Conn>, i: nat)
    requires Behaviors.IsBehavior(Init, EchoNext, run) && i < |run|
    ensures var c := run[i];
            && c.input == [] && Offered(c.sent) <= c.received
            && (!c.st.Disconnected? ==> Offered(c.sent) == c.received)
            && (Wire(c.io) + c.output == c.received <==>
                  Behaviors.Never(ReadsAfterClose, run, i) && forall o :: o in c.sent ==> o.kept)
  {
    OfferedExactly(run, i);
    StreamIsOffered(run[i].sent);
  }
}
