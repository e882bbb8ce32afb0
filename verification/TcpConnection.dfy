/** The connection object: its handlers update fields and buffers and refine the state machine. */
module TcpConnections {
  import opened Buffers
  import opened ConnectionModel

  class TcpConnection {
    var state: ConnState
    /** The interest of the connection's channel. */
    var reading: bool
    var writing: bool
    /** The task of a cross-thread `shutdown` is in the loop's queue. */
    var posted: bool
    var inputBuffer: Buffer
    var outputBuffer: Buffer
    /** The socket calls made and the completion callbacks queued so far. */
    var io: seq<Io>
    /** The calls made to user code and the server, and the removal of the channel. */
    var calls: seq<Call>
    /** What this object refines; each method brings it up to date in its own step. */
    ghost var model: Conn

    ghost function Footprint(): set<object>
      reads this, inputBuffer, outputBuffer
    {
      {this, inputBuffer, outputBuffer, inputBuffer.storage, outputBuffer.storage}
    }

    /** Between handlers: the object stands for a state of an orderly run. */
    ghost predicate Valid()
      reads this, inputBuffer, outputBuffer, inputBuffer.storage, outputBuffer.storage
    {
      Matches() && Inv(model)
    }

    /** The fields are those of the model. */
    ghost predicate Matches()
      reads this, inputBuffer, outputBuffer, inputBuffer.storage, outputBuffer.storage
    {
      && inputBuffer != outputBuffer && inputBuffer.storage != outputBuffer.storage
      && inputBuffer.Valid() && outputBuffer.Valid()
      && model.st == state && model.reading == reading && model.writing == writing
      && model.posted == posted && model.io == io && model.calls == calls
      && model.input == inputBuffer.Contents() && model.output == outputBuffer.Contents()
    }

    constructor ()
      ensures Valid() && fresh(Footprint()) && model == INITIAL
    {
      state, reading, writing, posted, io, calls := Connecting, false, false, false, [], [];
      inputBuffer := new Buffer(INITIAL_SIZE);
      outputBuffer := new Buffer(INITIAL_SIZE);
      model := INITIAL;
    }

    method ConnectEstablished()
      requires Matches()
      modifies this`state, this`reading, this`calls, this`model
      ensures Matches() && model == ConnectionModel.ConnectEstablished(old(model))
      ensures state == Connected && reading && calls == old(calls) + [Up]
      ensures old(Valid()) && old(state) == Connecting ==> Valid()
    {
      state, reading := Connected, true;
      calls := calls + [Up];
      if Inv(model) && model.st == Connecting {
        StepKeepsInv(model, Establish);
      }
      model := ConnectionModel.ConnectEstablished(model);
    }

    method ConnectDestroyed()
      requires Matches()
      modifies this`state, this`reading, this`writing, this`calls, this`model
      ensures Matches() && model == ConnectionModel.ConnectDestroyed(old(model))
      ensures old(state) == Connected ==>
                state == Disconnected && !reading && !writing && calls == old(calls) + [Down, Removed]
      ensures old(state) != Connected ==>
                state == old(state) && reading == old(reading) && writing == old(writing) && calls == old(calls) + [Removed]
      ensures old(Valid()) ==> Valid()
    {
      hide ConnectionModel.Inv;
      if Inv(model) {
        StepKeepsInv(model, Destroy);
      }
      if state == Connected {
        GoDown(Removed);
      } else {
        calls := calls + [Removed];
        model := model.(calls := calls);
      }
    }

    method HandleClose()
      requires Matches()
      modifies this`state, this`reading, this`writing, this`calls, this`model
      ensures Matches() && model == ConnectionModel.HandleClose(old(model))
      ensures state == Disconnected && !reading && !writing && calls == old(calls) + [Down, Closed]
      ensures old(Valid()) ==> Valid()
    {
      hide ConnectionModel.Inv;
      if Inv(model) {
        StepKeepsInv(model, PeerClose);
      }
      GoDown(Closed);
    }

    /** The state is set and the channel disabled; the connection callback is called, and then the other. */
    method GoDown(last: Call)
      requires Matches()
      modifies this`state, this`reading, this`writing, this`calls, this`model
      ensures Matches()
      ensures state == Disconnected && !reading && !writing && calls == old(calls) + [Down, last]
      ensures model == old(model).(st := Disconnected, reading := false, writing := false,
                                   calls := old(model).calls + [Down, last])
    {
      state, reading, writing := Disconnected, false, false;
      calls := calls + [Down, last];
      model := model.(st := Disconnected, reading := false, writing := false, calls := calls);
    }

    /** `received` says that the message callback is called. */
    method HandleRead(r: ReadResult) returns (received: bool)
      requires Matches() && (r.Got? ==> |r.data| <= inputBuffer.ReadCapacity())
      modifies this`state, this`reading, this`writing, this`calls, this`model, inputBuffer, inputBuffer.storage
      ensures Matches() && model == ConnectionModel.HandleRead(old(model), r)
      ensures fresh(Footprint() - old(Footprint()))
      ensures received <==> r.Got? && r.data != []
      ensures inputBuffer.Contents() == old(inputBuffer.Contents()) + if r.Got? then r.data else []
      ensures received ==> calls == old(calls) + [Message]
      ensures r == Got([]) ==>
                state == Disconnected && !reading && !writing && calls == old(calls) + [Down, Closed]
      ensures r != Got([]) ==> state == old(state) && reading == old(reading) && writing == old(writing)
      ensures r.Failed? ==> calls == old(calls)
      ensures old(Valid()) ==> Valid()
    {
      hide ConnectionModel.Inv;
      if Inv(model) {
        StepKeepsInv(model, Readable(r));
      }
      hide ConnectionModel.HandleRead, ConnectionModel.HandleClose;
      ReadResults(model, r);
      var n := inputBuffer.ReadFd(r);
      received := n > 0;
      if n > 0 {
        calls := calls + [Message];
        model := ConnectionModel.HandleRead(model, r);
      } else if n == 0 {
        HandleClose();
      }
    }

    lemma KeptBySend(msg: seq<byte>, r: WriteResult)
      requires r.Wrote? ==> r.n <= |msg|
      ensures StreamIntact(model) ==> StreamIntact(ConnectionModel.SendInLoop(model, msg, r))
      ensures Inv(model) && !model.st.Connecting? && !Late(model, DeferredSend(msg, r)) ==>
                Inv(ConnectionModel.SendInLoop(model, msg, r))
    {
      if StreamIntact(model) {
        SendKeepsStream(model, msg, r);
      }
      if Inv(model) && !model.st.Connecting? && !Late(model, DeferredSend(msg, r)) {
        StepKeepsInv(model, DeferredSend(msg, r));
      }
    }

    /** `nwrote` bytes were taken by the kernel at once; the rest waits for writability. */
    method SendInLoop(msg: seq<byte>, r: WriteResult)
      requires Matches() && (r.Wrote? ==> r.n <= |msg|)
      modifies this`writing, this`io, this`model, outputBuffer, outputBuffer.storage
      ensures Matches() && model == ConnectionModel.SendInLoop(old(model), msg, r)
      ensures fresh(Footprint() - old(Footprint()))
      ensures old(Valid()) && old(state) != Connecting && !(ShutWr in old(io) && old(state) != Disconnected) ==> Valid()
      ensures StreamIntact(old(model)) ==> StreamIntact(model)
      ensures old(state) == Disconnected ==>
                io == old(io) && writing == old(writing) && outputBuffer.Contents() == old(outputBuffer.Contents())
      ensures old(state) != Disconnected && (old(writing) || old(outputBuffer.Contents()) != []) ==>
                && io == old(io) && outputBuffer.Contents() == old(outputBuffer.Contents()) + msg
                && writing == (old(writing) || msg != [])
      ensures old(state) != Disconnected && !old(writing) && old(outputBuffer.Contents()) == [] ==>
                && old(io) < io && (r.Wrote? <==> io[|old(io)|] == Write(msg[..if r.Wrote? then r.n else 0]))
                && outputBuffer.Contents() == (if IsFault(r) then [] else msg[if r.Wrote? then r.n else 0..])
                && (writing <==> outputBuffer.Contents() != [])
    {
      KeptBySend(msg, r);
      if state == Disconnected {
        return;
      }
      hide StreamIntact, Inv;
      if writing || outputBuffer.ReadableBytes() > 0 {
        model := model.(sent := model.sent + [Offer(msg, true)]);
        QueueOutput(msg);
      } else {
        SendDirectly(msg, r);
      }
    }

    /** Nothing is waiting: the kernel is tried at once, and the rest is queued. */
    method SendDirectly(msg: seq<byte>, r: WriteResult)
      requires Matches() && state != Disconnected && !writing && outputBuffer.Contents() == []
      requires r.Wrote? ==> r.n <= |msg|
      modifies this`writing, this`io, this`model, outputBuffer, outputBuffer.storage
      ensures Matches() && model == ConnectionModel.SendInLoop(old(model), msg, r)
      ensures fresh(Footprint() - old(Footprint()))
      ensures old(io) < io && (r.Wrote? <==> io[|old(io)|] == Write(msg[..if r.Wrote? then r.n else 0]))
      ensures outputBuffer.Contents() == if IsFault(r) then [] else msg[if r.Wrote? then r.n else 0..]
      ensures writing <==> outputBuffer.Contents() != []
    {
      var nwrote, faultError := WriteNow(msg, r);
      if !faultError {
        QueueOutput(msg[nwrote..]);
        assert outputBuffer.Contents() == msg[nwrote..];
      }
    }

    /** The direct write of a send: how much the kernel took, or that the peer is gone. */
    method WriteNow(msg: seq<byte>, r: WriteResult) returns (nwrote: nat, faultError: bool)
      requires Matches() && (r.Wrote? ==> r.n <= |msg|)
      modifies this`io, this`model
      ensures Matches() && nwrote == (if r.Wrote? then r.n else 0)
      ensures faultError <==> r.WriteError? && (r.errno == Pipe || r.errno == ConnReset)
      ensures r.Wrote? ==> io == old(io) + [Write(msg[..r.n])] + if r.n == |msg| then [Complete] else []
      ensures r.WriteError? ==> io == old(io) + [WriteFailed]
      ensures model == old(model).(io := old(model).io + Attempt(msg, r),
                                   sent := old(model).sent + [Offer(msg, !faultError)])
    {
      nwrote, faultError := 0, false;
      match r {
        case Wrote(n) =>
          nwrote := n;
          io := io + [Write(msg[..n])];
          if |msg| - nwrote == 0 {
            io := io + [Complete];
          }
        case WriteError(errno) =>
          io := io + [WriteFailed];
          faultError := errno == Pipe || errno == ConnReset;
      }
      model := model.(io := model.io + Attempt(msg, r), sent := model.sent + [Offer(msg, !faultError)]);
    }

    method QueueOutput(rest: seq<byte>)
      requires Matches()
      modifies this`writing, this`model, outputBuffer, outputBuffer.storage
      ensures Matches() && model == Buffered(old(model), rest)
      ensures outputBuffer.Contents() == old(outputBuffer.Contents()) + rest && writing == (old(writing) || rest != [])
      ensures fresh(Footprint() - old(Footprint()))
    {
      if |rest| > 0 {
        outputBuffer.Append(rest);
        if !writing {
          writing := true;
        }
      }
      model := Buffered(model, rest);
    }

    method Send(msg: seq<byte>, r: WriteResult)
      requires Matches() && (r.Wrote? ==> r.n <= |msg|)
      modifies this`writing, this`io, this`model, outputBuffer, outputBuffer.storage
      ensures Matches() && model == ConnectionModel.Send(old(model), msg, r)
      ensures old(state) != Connected ==>
                io == old(io) && writing == old(writing) && outputBuffer.Contents() == old(outputBuffer.Contents())
      ensures fresh(Footprint() - old(Footprint()))
      ensures old(Valid()) ==> Valid()
    {
      if state == Connected {
        SendInLoop(msg, r);
      }
    }

    method ShutdownInLoop()
      requires Matches()
      modifies this`io, this`model
      ensures Matches() && model == ConnectionModel.ShutdownInLoop(old(model))
      ensures io == old(io) + if writing then [] else [ShutWr]
    {
      model := ConnectionModel.ShutdownInLoop(model);
      if !writing {
        io := io + [ShutWr];
      }
    }

    /** On the loop's thread the half-close is done at once, on another it is left to a task. */
    method Shutdown(isInLoopThread: bool)
      requires Matches()
      modifies this`state, this`posted, this`io, this`model
      ensures Matches()
      ensures model == if isInLoopThread then ConnectionModel.Shutdown(old(model)) else PostShutdown(old(model))
      ensures old(state) == Connected ==> state == Disconnecting && posted == (old(posted) || !isInLoopThread)
      ensures old(state) == Connected ==> io == old(io) + if isInLoopThread && !writing then [ShutWr] else []
      ensures old(state) != Connected ==> state == old(state) && posted == old(posted) && io == old(io)
      ensures old(Valid()) ==> Valid()
    {
      hide ConnectionModel.Inv;
      if Inv(model) {
        StepKeepsInv(model, if isInLoopThread then UserShutdown else ShutdownElsewhere);
      }
      if state == Connected {
        state := Disconnecting;
        if isInLoopThread {
          model := model.(st := Disconnecting);
          ShutdownInLoop();
        } else {
          posted := true;
          model := PostShutdown(model);
        }
      }
    }

    /** The loop runs the task. */
    method RunPosted()
      requires Matches() && posted
      modifies this`posted, this`io, this`model
      ensures Matches() && model == ConnectionModel.RunPosted(old(model))
      ensures !posted && io == old(io) + if writing then [] else [ShutWr]
      ensures old(Valid()) && !Late(old(model), DeferredShutdown) ==> Valid()
    {
      hide ConnectionModel.Inv;
      if Inv(model) && !Late(model, DeferredShutdown) {
        StepKeepsInv(model, DeferredShutdown);
      }
      posted := false;
      model := model.(posted := false);
      ShutdownInLoop();
    }

    method HandleWrite(r: WriteResult)
      requires Matches() && (r.Wrote? ==> r.n <= outputBuffer.ReadableBytes())
      modifies this`writing, this`io, this`model, outputBuffer
      ensures Matches() && model == ConnectionModel.HandleWrite(old(model), r)
      ensures Footprint() == old(Footprint())
      ensures old(writing) && r.Wrote? ==>
                old(io) + [Write(old(outputBuffer.Contents())[..r.n])] <= io
                && outputBuffer.Contents() == old(outputBuffer.Contents())[r.n..]
                && (writing <==> r.n == 0 || outputBuffer.Contents() != [])
      ensures !(old(writing) && r.Wrote?) ==>
                writing == old(writing) && outputBuffer.Contents() == old(outputBuffer.Contents())
                && io == old(io) + if old(writing) then [WriteFailed] else []
      ensures old(Valid()) ==> Valid()
    {
      hide ConnectionModel.Inv;
      if Inv(model) {
        StepKeepsInv(model, Writable(r));
      }
      if writing {
        match r
        case WriteError(_) =>
          io := io + [WriteFailed];
          model := model.(io := io);
        case Wrote(n) =>
          WriteOut(n);
          if n > 0 && outputBuffer.ReadableBytes() == 0 {
            Drained();
          }
      }
    }

    /** The kernel took the first `n` buffered bytes. */
    method WriteOut(n: nat)
      requires Matches() && n <= outputBuffer.ReadableBytes()
      modifies this`io, this`model, outputBuffer
      ensures Matches() && Footprint() == old(Footprint())
      ensures io == old(io) + [Write(old(outputBuffer.Contents())[..n])]
      ensures outputBuffer.Contents() == old(outputBuffer.Contents())[n..]
      ensures model == old(model).(io := old(model).io + [Write(old(model).output[..n])],
                                   output := old(model).output[n..])
    {
      io := io + [Write(outputBuffer.Peek(n))];
      outputBuffer.Retrieve(n);
      model := model.(io := io, output := model.output[n..]);
    }

    method Drained()
      requires Matches()
      modifies this`writing, this`io, this`model
      ensures Matches() && model == ConnectionModel.Drained(old(model))
      ensures !writing && io == old(io) + [Complete] + if state == Disconnecting then [ShutWr] else []
    {
      writing := false;
      io := io + [Complete];
      model := model.(writing := false, io := io);
      if state == Disconnecting {
        ShutdownInLoop();
      }
    }

    /** The echo server's reaction to one readable event, callback included. */
    method EchoOnReadable(data: seq<byte>, w: WriteResult)
      requires Matches() && |data| <= inputBuffer.ReadCapacity()
      requires EchoEnabled(model, data, w)
      modifies Footprint()
      ensures Matches() && model == EchoRead(old(model), data, w)
      ensures fresh(Footprint() - old(Footprint()))
      ensures old(EchoInv(model)) && old(state) != Connecting ==> EchoInv(model)
    {
      hide ConnectionModel.EchoInv;
      hide ConnectionModel.Inv;
      if EchoInv(model) && state != Connecting {
        EchoReadKeeps(model, data, w);
      }
      var received := HandleRead(Got(data));
      var msg := TakeInput();
      Send(msg, w);
    }

    /** `retrieveAllAsString` on the input buffer. */
    method TakeInput() returns (msg: seq<byte>)
      requires Matches()
      modifies this`model, inputBuffer
      ensures Matches() && Footprint() == old(Footprint()) && msg == old(model).input
      ensures model == ConnectionModel.Retrieve(old(model), |msg|)
    {
      msg := inputBuffer.RetrieveAllAsString();
      model := ConnectionModel.Retrieve(model, |model.input|);
    }
  }
}
