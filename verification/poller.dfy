/**
 * The epoll poller: the fd -> channel map, the ready-event array, and the
 * epoll_ctl calls it issues (a ghost log of operation, fd and mask).
 *
 * The two drafts, src/EPollPoller.cc and src/EpollPoller.cpp, perform the
 * same map, index and array updates and issue the same epoll_ctl calls, so
 * one class models both. They differ only in which failed waits are logged;
 * that difference is the pair WaitErrorLoggedCc / WaitErrorLoggedCpp.
 *
 * epoll_wait's result is an input (WaitResult); epoll_create1's result is
 * the constructor's argument; whether an epoll_ctl call succeeds is an input.
 */
module Pollers {
  import opened Sys
  import opened Channels
  import opened Registration

  /** One entry the kernel wrote into the ready-event array. */
  datatype ReadyEvent = ReadyEvent(channel: Channel, events: bv32)

  /** What epoll_wait returned: the ready entries (none on timeout), or -1 with errno. */
  datatype WaitResult = WaitReady(entries: seq<ReadyEvent>) | WaitFailed(errno: int)

  /** Which branch of poll ran. */
  datatype PollReport = Polled(numEvents: nat) | TimedOut | WaitError(errno: int)

  /** src/EPollPoller.cc: a failed wait is logged unless it was interrupted by a signal. */
  predicate WaitErrorLoggedCc(r: PollReport)
  {
    r.WaitError? && r.errno != EINTR
  }

  /** src/EpollPoller.cpp: every failed wait is logged. */
  predicate WaitErrorLoggedCpp(r: PollReport)
  {
    r.WaitError?
  }

  /** The drafts' logging differs exactly on an interrupted wait. */
  lemma LoggingDiffersOnlyOnEintr(r: PollReport)
    ensures WaitErrorLoggedCc(r) ==> WaitErrorLoggedCpp(r)
    ensures WaitErrorLoggedCpp(r) && !WaitErrorLoggedCc(r) <==> r == WaitError(EINTR)
  {
  }

  function NumEvents(w: WaitResult): int
  {
    match w
    case WaitReady(entries) => |entries|
    case WaitFailed(_) => -1
  }

  /** The channels of the entries, in array order. */
  function ChannelsOf(entries: seq<ReadyEvent>): (cs: seq<Channel>)
    ensures |cs| == |entries|
    ensures forall i :: 0 <= i < |entries| ==> cs[i] == entries[i].channel
    decreases |entries|
  {
    if entries == [] then []
    else ChannelsOf(entries[..|entries| - 1]) + [entries[|entries| - 1].channel]
  }

  function ChannelSet(entries: seq<ReadyEvent>): set<Channel>
  {
    set e | e in entries :: e.channel
  }

  function WaitChannels(w: WaitResult): set<Channel>
  {
    if w.WaitReady? then ChannelSet(w.entries) else {}
  }

  /** The kernel reports each registered channel at most once per wait. */
  predicate DistinctChannels(entries: seq<ReadyEvent>)
  {
    forall i, j :: 0 <= i < j < |entries| ==> entries[i].channel != entries[j].channel
  }

  /** The ctl operations issued for one fd, in order. */
  function OpsFor(log: seq<CtlCall>, fd: int): (ops: seq<CtlOp>)
    ensures |ops| <= |log|
    decreases |log|
  {
    if log == [] then []
    else
      var last := log[|log| - 1];
      OpsFor(log[..|log| - 1], fd) + (if last.fd == fd then [last.op] else [])
  }

  lemma OpsForSnoc(log: seq<CtlCall>, c: CtlCall, fd: int)
    ensures OpsFor(log + [c], fd) == OpsFor(log, fd) + (if c.fd == fd then [c.op] else [])
  {
    assert (log + [c])[..|log|] == log;
  }

  /** The registration view of one channel, for the pure state machine. */
  function RegView(index: int, channels: map<int, Channel>, log: seq<CtlCall>, fd: int): RegState
  {
    RegState(index, fd in channels, OpsFor(log, fd))
  }

  class EPollPoller {
    const epollfd: int
    var channels: map<int, Channel>
    var eventCapacity: nat
    var ready: seq<ReadyEvent>
    ghost var ctlLog: seq<CtlCall>
    ghost var fatalLogged: bool

    /** Every map entry is filed under its own channel's fd. */
    ghost predicate Valid()
      reads this
    {
      forall fd :: fd in channels ==> channels[fd].fd == fd
    }

    /** The constructor: an empty map and a 16-entry array; a failed epoll_create1 is fatal. */
    constructor (epollfd: int)
      ensures Valid()
      ensures this.epollfd == epollfd && channels == map[] && ctlLog == []
      ensures eventCapacity == InitEventListSize && |ready| == 0
      ensures fatalLogged <==> epollfd < 0
    {
      this.epollfd := epollfd;
      channels := map[];
      eventCapacity := InitEventListSize;
      ready := [];
      ctlLog := [];
      fatalLogged := epollfd < 0;
    }

    /** update(operation, channel): one epoll_ctl with the channel's current mask. */
    method Ctl(op: CtlOp, ch: Channel, succeeded: bool) returns (outcome: CtlOutcome)
      modifies this`ctlLog, this`fatalLogged
      ensures ctlLog == old(ctlLog) + [CtlCall(op, ch.fd, ch.events)]
      ensures outcome == CtlResult(op, succeeded)
      ensures fatalLogged <==> old(fatalLogged) || outcome == CtlFatal
    {
      ctlLog := ctlLog + [CtlCall(op, ch.fd, ch.events)];
      outcome := CtlResult(op, succeeded);
      if outcome == CtlFatal {
        fatalLogged := true;
      }
    }

    /** updateChannel: ADD a new or deleted channel, DEL one whose mask emptied, MOD otherwise. */
    method UpdateChannel(ch: Channel, succeeded: bool) returns (outcome: CtlOutcome)
      requires Valid()
      modifies this`channels, this`ctlLog, this`fatalLogged, ch`index
      ensures Valid()
      ensures var step := UpdateStepFor(old(ch.index), ch.events == NoneEvent);
        && ch.index == step.newIndex
        && channels == (if step.insert then old(channels)[ch.fd := ch] else old(channels))
        && ctlLog == old(ctlLog) + [CtlCall(step.op, ch.fd, ch.events)]
        && outcome == CtlResult(step.op, succeeded)
      ensures fatalLogged <==> old(fatalLogged) || outcome == CtlFatal
      ensures RegView(ch.index, channels, ctlLog, ch.fd)
           == ApplyReg(RegView(old(ch.index), old(channels), old(ctlLog), ch.fd), UpdateCall(ch.events == NoneEvent))
      ensures RegInv(RegView(old(ch.index), old(channels), old(ctlLog), ch.fd)) ==> RegInv(RegView(ch.index, channels, ctlLog, ch.fd))
    {
      ghost var before := RegView(ch.index, channels, ctlLog, ch.fd);
      var index := ch.Index();
      var step := UpdateStepFor(index, ch.IsNoneEvent());
      if index == New || index == Deleted {
        if index == New {
          channels := channels[ch.fd := ch];
        }
        ch.SetIndex(Added);
        outcome := Ctl(CtlAdd, ch, succeeded);
      } else {
        if ch.IsNoneEvent() {
          outcome := Ctl(CtlDel, ch, succeeded);
          ch.SetIndex(Deleted);
        } else {
          outcome := Ctl(CtlMod, ch, succeeded);
        }
      }
      assert step == UpdateStepFor(old(ch.index), ch.events == NoneEvent);
      assert channels == (if step.insert then old(channels)[ch.fd := ch] else old(channels));
      OpsForSnoc(old(ctlLog), CtlCall(step.op, ch.fd, ch.events), ch.fd);
      StepKeepsInv(before, RegView(ch.index, channels, ctlLog, ch.fd), UpdateCall(ch.events == NoneEvent));
    }

    /** removeChannel: erase the fd, DEL only a kAdded channel, and reset the index to kNew. */
    method RemoveChannel(ch: Channel, succeeded: bool) returns (outcome: CtlOutcome)
      requires Valid()
      modifies this`channels, this`ctlLog, this`fatalLogged, ch`index
      ensures Valid()
      ensures channels == old(channels) - {ch.fd}
      ensures ch.index == New
      ensures old(ch.index) == Added ==> ctlLog == old(ctlLog) + [CtlCall(CtlDel, ch.fd, ch.events)]
                                         && outcome == CtlResult(CtlDel, succeeded)
      ensures old(ch.index) != Added ==> ctlLog == old(ctlLog) && outcome == CtlDone
      ensures fatalLogged == old(fatalLogged)
      ensures RegView(ch.index, channels, ctlLog, ch.fd)
           == ApplyReg(RegView(old(ch.index), old(channels), old(ctlLog), ch.fd), RemoveCall)
      ensures RegInv(RegView(old(ch.index), old(channels), old(ctlLog), ch.fd)) ==> RegInv(RegView(ch.index, channels, ctlLog, ch.fd))
    {
      ghost var before := RegView(ch.index, channels, ctlLog, ch.fd);
      channels := channels - {ch.fd};
      var index := ch.Index();
      outcome := CtlDone;
      if index == Added {
        outcome := Ctl(CtlDel, ch, succeeded);
        OpsForSnoc(old(ctlLog), CtlCall(CtlDel, ch.fd, ch.events), ch.fd);
      } else {
        assert OpsFor(ctlLog, ch.fd) + RemoveOps(index) == OpsFor(ctlLog, ch.fd);
      }
      ch.SetIndex(New);
      StepKeepsInv(before, RegView(ch.index, channels, ctlLog, ch.fd), RemoveCall);
    }

    /** fillActiveChannels: the first numEvents entries, in order, each channel given its reported mask. */
    method FillActiveChannels(numEvents: nat, active: seq<Channel>) returns (activeOut: seq<Channel>)
      requires numEvents <= |ready| && DistinctChannels(ready[..numEvents])
      modifies ChannelSet(ready[..numEvents])`revents
      ensures activeOut == active + ChannelsOf(ready[..numEvents])
      ensures forall i :: 0 <= i < numEvents ==> ready[i].channel.revents == ready[i].events
    {
      activeOut := active;
      var i := 0;
      while i < numEvents
        invariant 0 <= i <= numEvents
        invariant activeOut == active + ChannelsOf(ready[..i])
        invariant forall k :: 0 <= k < i ==> ready[k].channel.revents == ready[k].events
      {
        var e := ready[i];
        assert ready[..numEvents][i] == e;
        e.channel.SetRevents(e.events);
        activeOut := activeOut + [e.channel];
        assert ready[..i + 1][..i] == ready[..i];
        i := i + 1;
      }
      assert ready[..numEvents] == ready[..i];
    }

    /**
     * poll: store what the wait returned; on events, fill the active list
     * and double the array when it came back full. The timestamp is not modelled.
     */
    method Poll(wait: WaitResult, active: seq<Channel>) returns (activeOut: seq<Channel>, report: PollReport)
      requires wait.WaitReady? ==> |wait.entries| <= eventCapacity && DistinctChannels(wait.entries)
      modifies this`ready, this`eventCapacity, WaitChannels(wait)`revents
      ensures eventCapacity == NextCapacity(old(eventCapacity), NumEvents(wait))
      ensures wait.WaitReady? ==> ready == wait.entries
      ensures wait.WaitReady? && |wait.entries| > 0 ==>
        && report == Polled(|wait.entries|)
        && activeOut == active + ChannelsOf(wait.entries)
        && forall i :: 0 <= i < |wait.entries| ==> wait.entries[i].channel.revents == wait.entries[i].events
      ensures wait.WaitReady? && |wait.entries| == 0 ==> report == TimedOut && activeOut == active
      ensures wait.WaitFailed? ==> report == WaitError(wait.errno) && activeOut == active && ready == old(ready)
    {
      activeOut := active;
      match wait
      case WaitReady(entries) =>
        ready := entries;
        var numEvents := |entries|;
        if numEvents > 0 {
          assert entries[..numEvents] == entries;
          activeOut := FillActiveChannels(numEvents, active);
          if numEvents == eventCapacity {
            eventCapacity := eventCapacity * 2;
          }
          report := Polled(numEvents);
        } else {
          report := TimedOut;
        }
      case WaitFailed(e) =>
        report := WaitError(e);
    }
  }
}
