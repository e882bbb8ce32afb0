/** Channels and the epoll poller as objects updated in place, refining the registration model. */
module EPollPollers {
  import opened PollerModel
  import PollerRuns

  class Channel {
    const fd: int
    /** The poller of the channel's loop; a channel without a loop is never registered by itself. */
    const loop: EPollPoller?
    var events: set<Ev>
    var revents: set<Ev>
    var index: Index

    /** The channel is now bound to the poller of its loop, and registered nowhere. */
    constructor (loop: EPollPoller?, fd: int)
      requires loop != null ==> loop.Valid()
      modifies loop
      ensures this.loop == loop && this.fd == fd
      ensures events == {} && revents == {} && index == New
      ensures CanUpdate()
      ensures loop != null ==>
                && this !in old(loop.bound) && loop.bound == old(loop.bound) + {this}
                && loop.Model() == PollerRuns.Apply(old(loop.Model()), PollerRuns.Create(this, fd))
                && (old(Simulates(loop.Model())) ==> Simulates(loop.Model()))
    {
      this.loop, this.fd := loop, fd;
      events, revents, index := {}, {}, New;
      new;
      if loop != null {
        loop.Bind(this);
      }
    }

    /** The destructor: only a channel that is registered nowhere may go. */
    ghost method Destroy()
      requires CanUpdate() && (loop != null ==> index == New)
      modifies loop
      ensures loop != null ==>
                && loop.Valid() == old(loop.ValidWithout(this)) && loop.bound == old(loop.bound) - {this}
                && loop.Model() == PollerRuns.Apply(old(loop.Model()), PollerRuns.Destroy(this))
                && (old(Simulates(loop.Model())) ==> loop.Valid() && Simulates(loop.Model()))
    {
      if loop != null {
        loop.Unbind(this);
      }
    }

    ghost predicate CanUpdate()
      reads this, loop
    {
      loop != null ==> loop.Valid() && this in loop.bound
    }

    /** The mask is set and, for a channel with a loop, the poller has been told. */
    twostate predicate MaskBecame(mask: set<Ev>)
      requires old(CanUpdate())
      reads this, loop, if loop == null then {} else loop.bound
    {
      && events == mask
      && (loop == null ==> index == old(index))
      && (loop != null ==>
            && loop.Valid() && loop.bound == old(loop.bound)
            && loop.Model() == SetEvents(old(loop.Model()), this, mask)
            && loop.StaysInStep(this))
    }

    predicate IsWriting()
      reads this`events
    {
      Out in events
    }

    method EnableReading()
      requires CanUpdate()
      modifies this`events, this`index, loop
      ensures MaskBecame(old(events) + READ_EVENT)
    {
      Update(events + READ_EVENT);
    }

    method DisableReading()
      requires CanUpdate()
      modifies this`events, this`index, loop
      ensures MaskBecame(old(events) - READ_EVENT)
    {
      Update(events - READ_EVENT);
    }

    method EnableWriting()
      requires CanUpdate()
      modifies this`events, this`index, loop
      ensures MaskBecame(old(events) + WRITE_EVENT) && IsWriting()
    {
      Update(events + WRITE_EVENT);
    }

    method DisableWriting()
      requires CanUpdate()
      modifies this`events, this`index, loop
      ensures MaskBecame(old(events) - WRITE_EVENT) && !IsWriting()
    {
      Update(events - WRITE_EVENT);
    }

    method DisableAll()
      requires CanUpdate()
      modifies this`events, this`index, loop
      ensures MaskBecame({})
    {
      Update({});
    }

    method Update(mask: set<Ev>)
      requires CanUpdate()
      modifies this`events, this`index, loop
      ensures MaskBecame(mask)
    {
      ghost var before := if loop != null then loop.Model() else Empty();
      events := mask;
      if loop != null {
        assert loop.Model() == before.(chans := before.chans[this := before.chans[this].(events := mask)]);
        loop.UpdateChannel(this);
        if old(Simulates(loop.Model())) {
          SetEventsSimulates(old(loop.Model()), this, mask);
        }
      }
    }

    method Remove()
      requires CanUpdate()
      modifies this`index, loop
      ensures loop == null ==> index == old(index)
      ensures loop != null ==> loop.Valid() && loop.bound == old(loop.bound)
      ensures loop != null ==> loop.Model() == RemoveChannel(old(loop.Model()), this) && loop.StaysInStep(this)
    {
      if loop != null {
        loop.RemoveChannel(this);
        if old(Simulates(loop.Model())) {
          RemoveSimulates(old(loop.Model()), this);
        }
      }
    }

    /** Runs the callbacks that the readiness mask calls for; `called` records them. */
    method HandleEvent() returns (called: seq<Callback>)
      ensures called == Callbacks(revents)
      ensures Close in called <==> Hup in revents && In !in revents
      ensures Error in called <==> Err in revents
      ensures Read in called <==> In in revents || Pri in revents || RdHup in revents
      ensures Write in called <==> Out in revents
      ensures forall i, j :: 0 <= i < j < |called| ==> Turn(called[i]) < Turn(called[j])
    {
      called := [];
      if Hup in revents && In !in revents {
        called := [Close];
      }
      if Err in revents {
        called := called + [Error];
      }
      assert called == (if Hup in revents && In !in revents then [Close] else []) + if Err in revents then [Error] else [];
      ghost var first := called;
      if revents * {In, Pri, RdHup} != {} {
        called := called + [Read];
      }
      assert called == first + if revents * {In, Pri, RdHup} != {} then [Read] else [];
      ghost var second := called;
      if Out in revents {
        called := called + [Write];
      }
      assert called == second + if Out in revents then [Write] else [];
      assert called == Callbacks(revents);
      hide PollerModel.Callbacks;
      CallbacksMean(revents);
    }

    method SetIndex(idx: Index, ghost poller: EPollPoller)
      requires this in poller.bound
      modifies this`index
      ensures poller.Model() == PollerModel.SetIndex(old(poller.Model()), this, idx) && index == idx
    {
      index := idx;
    }
  }

  class EPollPoller {
    var channels: map<int, Channel>
    /** The epoll instance, and what its calls have reported. */
    var kernel: map<int, Interest<Channel>>
    var aborted: bool
    var failedDels: nat
    /** The channels created for this poller's loop and not yet destroyed. */
    ghost var bound: set<Channel>

    ghost predicate Valid()
      reads this
    {
      forall fd :: fd in channels ==> channels[fd] in bound
    }

    ghost function Model(): PollerModel.Poller<Channel>
      reads this, bound
    {
      Poller(map c | c in bound :: Chan(c.fd, c.events, c.index), channels, kernel, aborted, failedDels)
    }

    constructor ()
      ensures Valid() && bound == {} && Model() == PollerModel.Empty()
    {
      channels, kernel, aborted, failedDels := map[], map[], false, 0;
      bound := {};
    }

    /** An operation on `c` keeps table, indexes and interest set in step exactly when it may. */
    twostate predicate StaysInStep(c: Channel)
      requires c in old(bound)
      reads this, bound
    {
      old(Simulates(Model())) ==> (Simulates(Model()) <==> old(FdIsFree(Model(), c)))
    }

    /** No entry of the table is `c`. */
    ghost predicate ValidWithout(c: Channel)
      reads this
    {
      forall fd :: fd in channels ==> channels[fd] in bound && channels[fd] != c
    }

    ghost method Bind(c: Channel)
      requires Valid() && c !in bound && c.events == {} && c.index == New
      modifies this`bound
      ensures Valid() && bound == old(bound) + {c}
      ensures Model() == PollerRuns.Apply(old(Model()), PollerRuns.Create(c, c.fd))
      ensures old(Simulates(Model())) ==> Simulates(Model())
    {
      if Simulates(Model()) {
        CreateKeeps(Model(), c, c.fd);
      }
      bound := bound + {c};
      assert Model() == PollerRuns.Apply(old(Model()), PollerRuns.Create(c, c.fd));
    }

    ghost method Unbind(c: Channel)
      requires c in bound && c.index == New
      modifies this`bound
      ensures Valid() == old(ValidWithout(c)) && bound == old(bound) - {c}
      ensures Model() == PollerRuns.Apply(old(Model()), PollerRuns.Destroy(c))
      ensures old(Simulates(Model())) ==> Valid() && Simulates(Model())
    {
      ghost var before := Model();
      if Simulates(before) {
        DestroyKeeps(before, c);
        assert IndexMatches(before, c);
      }
      bound := bound - {c};
      assert Model() == PollerRuns.Apply(before, PollerRuns.Destroy(c));
    }

    method UpdateChannel(channel: Channel)
      requires Valid() && channel in bound
      modifies this, channel`index
      ensures Valid() && bound == old(bound)
      ensures Model() == PollerModel.UpdateChannel(old(Model()), channel)
      ensures old(channel.index) == Added && channel.events == {} ==>
                channel.index == Deleted && channels == old(channels) && kernel == old(kernel) - {channel.fd}
      ensures !(old(channel.index) == Added && channel.events == {}) ==>
                && channel.index == Added
                && channels == (if old(channel.index) == New then old(channels)[channel.fd := channel] else old(channels))
                && if (old(channel.index) == Added) == (channel.fd in old(kernel))
                   then kernel == old(kernel)[channel.fd := Interest(channel.events, channel)] && aborted == old(aborted)
                   else kernel == old(kernel) && aborted
    {
      if channel.index == New || channel.index == Deleted {
        if channel.index == New {
          Register(channel);
        }
        Add(channel);
        channel.SetIndex(Added, this);
      } else {
        if channel.events == {} {
          Del(channel);
          channel.SetIndex(Deleted, this);
        } else {
          Mod(channel);
        }
      }
    }

    method RemoveChannel(channel: Channel)
      requires Valid() && channel in bound
      modifies this, channel`index
      ensures Valid() && bound == old(bound)
      ensures Model() == PollerModel.RemoveChannel(old(Model()), channel)
      ensures channel.index == New && channels == old(channels) - {channel.fd}
      ensures kernel == if old(channel.index) == Added then old(kernel) - {channel.fd} else old(kernel)
      ensures aborted == old(aborted)
    {
      Forget(channel.fd);
      if channel.index == Added {
        Del(channel);
      }
      channel.SetIndex(New, this);
    }

    method Register(channel: Channel)
      requires Valid() && channel in bound
      modifies this`channels
      ensures Valid() && Model() == old(Model()).(channels := old(channels)[channel.fd := channel])
    {
      channels := channels[channel.fd := channel];
    }

    method Forget(fd: int)
      requires Valid()
      modifies this`channels
      ensures Valid() && Model() == old(Model()).(channels := old(channels) - {fd})
    {
      channels := channels - {fd};
    }

    /** EEXIST is fatal. */
    method Add(channel: Channel)
      requires channel in bound
      modifies this`kernel, this`aborted
      ensures Model() == CtlAdd(old(Model()), channel)
      ensures channel.fd in old(kernel) ==> aborted && kernel == old(kernel)
      ensures channel.fd !in old(kernel) ==>
                aborted == old(aborted) && kernel == old(kernel)[channel.fd := Interest(channel.events, channel)]
    {
      if channel.fd in kernel {
        aborted := true;
      } else {
        kernel := kernel[channel.fd := Interest(channel.events, channel)];
      }
    }

    /** ENOENT is fatal. */
    method Mod(channel: Channel)
      requires channel in bound
      modifies this`kernel, this`aborted
      ensures Model() == CtlMod(old(Model()), channel)
      ensures channel.fd !in old(kernel) ==> aborted && kernel == old(kernel)
      ensures channel.fd in old(kernel) ==>
                aborted == old(aborted) && kernel == old(kernel)[channel.fd := Interest(channel.events, channel)]
    {
      if channel.fd in kernel {
        kernel := kernel[channel.fd := Interest(channel.events, channel)];
      } else {
        aborted := true;
      }
    }

    /** ENOENT is only logged. */
    method Del(channel: Channel)
      requires channel in bound
      modifies this`kernel, this`failedDels
      ensures Model() == CtlDel(old(Model()), channel)
      ensures kernel == old(kernel) - {channel.fd}
      ensures failedDels == old(failedDels) + if channel.fd in old(kernel) then 0 else 1
    {
      if channel.fd in kernel {
        kernel := kernel - {channel.fd};
      } else {
        failedDels := failedDels + 1;
      }
    }

    /** Copies the kernel's report into the channels and lists them in the order reported. */
    method FillActiveChannels(report: seq<Interest<Channel>>) returns (active: seq<Channel>)
      requires forall i, j :: 0 <= i < j < |report| ==> report[i].chan != report[j].chan
      modifies (set i | 0 <= i < |report| :: report[i].chan)`revents
      ensures |active| == |report|
      ensures forall i :: 0 <= i < |report| ==> active[i] == report[i].chan && active[i].revents == report[i].mask
    {
      active := [];
      for i := 0 to |report|
        invariant |active| == i
        invariant forall k :: 0 <= k < i ==> active[k] == report[k].chan && active[k].revents == report[k].mask
      {
        report[i].chan.revents := report[i].mask;
        active := active + [report[i].chan];
      }
    }
  }
}
