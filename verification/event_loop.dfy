/**
 * The event loop's sequential bookkeeping: the pending-task queue with its
 * swap-and-drain, the run-now-or-queue decision, the wakeup condition and
 * the quit flag, and the loop itself.
 *
 * "Is the caller the loop's own thread" is a parameter (isOwner). The mutex
 * is not modelled. A task is a value naming what the callback does; running
 * a task appends it to the ghost log `executed`, and a wakeup (an 8-byte
 * write to the eventfd) increments the ghost counter `wakeups`. What the
 * tasks of one drain queue in their turn is the parameter `spawned`.
 */
module EventLoops {
  import opened Sys
  import opened Channels

  /** Poll timeout of each loop iteration, in milliseconds. */
  const PollTimeMs: nat := 10000

  /** The callbacks the core hands to a loop. */
  datatype Task =
    | UserTask(id: nat)
    | WriteCompleteTask(conn: string)
    | HighWaterMarkTask(conn: string, size: nat)
    | SendInLoopTask(conn: string, message: seq<byte>)
    | ShutdownInLoopTask(conn: string)
    | ConnectEstablishedTask(conn: string)
    | ConnectDestroyedTask(conn: string)
    | RemoveConnectionInLoopTask(conn: string)
    | ListenTask

  /** The tasks queued while the given tasks run, in order. */
  function Spawned(tasks: seq<Task>, spawned: Task -> seq<Task>): seq<Task>
    decreases |tasks|
  {
    if tasks == [] then []
    else Spawned(tasks[..|tasks| - 1], spawned) + spawned(tasks[|tasks| - 1])
  }

  /** The queue after n drains that start from queue p. */
  function PendingAfter(p: seq<Task>, spawned: Task -> seq<Task>, n: nat): seq<Task>
    decreases n
  {
    if n == 0 then p else PendingAfter(Spawned(p, spawned), spawned, n - 1)
  }

  /** Everything n drains that start from queue p execute, in order. */
  function ExecutedIn(p: seq<Task>, spawned: Task -> seq<Task>, n: nat): seq<Task>
    decreases n
  {
    if n == 0 then [] else p + ExecutedIn(Spawned(p, spawned), spawned, n - 1)
  }

  /** One more drain executes exactly the queue the previous drains left. */
  lemma {:induction false} ExecutedInSnoc(p: seq<Task>, spawned: Task -> seq<Task>, n: nat)
    ensures ExecutedIn(p, spawned, n + 1) == ExecutedIn(p, spawned, n) + PendingAfter(p, spawned, n)
    decreases n
  {
    if n > 0 {
      ExecutedInSnoc(Spawned(p, spawned), spawned, n - 1);
      assert ExecutedIn(p, spawned, n + 1)
          == p + (ExecutedIn(Spawned(p, spawned), spawned, n - 1) + PendingAfter(Spawned(p, spawned), spawned, n - 1));
    }
  }

  /** Tasks that queue nothing leave nothing queued behind them. */
  lemma {:induction false} SpawnedNone(p: seq<Task>, spawned: Task -> seq<Task>)
    requires forall t :: t in p ==> spawned(t) == []
    ensures Spawned(p, spawned) == []
    decreases |p|
  {
    if p != [] {
      assert forall t :: t in p[..|p| - 1] ==> t in p;
      SpawnedNone(p[..|p| - 1], spawned);
    }
  }

  /** Drains of an empty queue run nothing and queue nothing. */
  lemma {:induction false} EmptyQueueIdles(spawned: Task -> seq<Task>, n: nat)
    ensures PendingAfter([], spawned, n) == [] && ExecutedIn([], spawned, n) == []
    decreases n
  {
    if n > 0 {
      assert Spawned([], spawned) == [];
      EmptyQueueIdles(spawned, n - 1);
    }
  }

  /**
   * When no queued task queues another, the first drain runs the whole
   * queue in order and every later drain finds it empty.
   */
  lemma {:induction false} QuietTasksDrainAtOnce(p: seq<Task>, spawned: Task -> seq<Task>, n: nat)
    requires n >= 1
    requires forall t :: t in p ==> spawned(t) == []
    ensures ExecutedIn(p, spawned, n) == p
    ensures PendingAfter(p, spawned, n) == []
  {
    SpawnedNone(p, spawned);
    EmptyQueueIdles(spawned, n - 1);
    assert p + [] == p;
  }

  /** What one iteration of the loop sees: the channels the poller reported, and whether a callback of this iteration called quit(). */
  datatype Round = Round(active: seq<Channel>, requestsQuit: bool)

  /** The channels handled over a run of rounds, in order. */
  function HandledIn(rounds: seq<Round>): seq<Channel>
    decreases |rounds|
  {
    if rounds == [] then []
    else HandledIn(rounds[..|rounds| - 1]) + rounds[|rounds| - 1].active
  }

  class EventLoop {
    const wakeupChannel: Channel
    var pending: seq<Task>
    var callingPendingFunctors: bool
    var looping: bool
    var quit: bool
    var activeChannels: seq<Channel>
    ghost var executed: seq<Task>
    ghost var wakeups: nat
    ghost var handled: seq<Channel>
    ghost var wakeupFdClosed: bool
    ghost var fatalLogged: bool

    /**
     * The constructor: flags false, nothing queued, and the wakeup channel
     * on the eventfd given a read handler and registered for reading.
     * `wakeupFd` is what eventfd returned; a negative one is logged as fatal.
     */
    constructor (wakeupFd: int)
      ensures pending == [] && !callingPendingFunctors && !looping && !quit && activeChannels == []
      ensures executed == [] && wakeups == 0 && handled == [] && !wakeupFdClosed
      ensures fresh(wakeupChannel) && wakeupChannel.fd == wakeupFd
      ensures wakeupChannel.handlers.read && wakeupChannel.events == ReadEvent
      ensures wakeupChannel.requests == [UpdateRequest(ReadEvent)]
      ensures fatalLogged <==> wakeupFd < 0
    {
      fatalLogged := wakeupFd < 0;
      var ch := new Channel(wakeupFd);
      ch.SetReadCallback(true);
      ch.EnableReading();
      wakeupChannel := ch;
      pending := [];
      callingPendingFunctors := false;
      looping := false;
      quit := false;
      activeChannels := [];
      executed := [];
      wakeups := 0;
      handled := [];
      wakeupFdClosed := false;
    }

    /** The destructor: the wakeup channel loses all interest, is removed, and its fd is closed. */
    method Destroy()
      modifies this`wakeupFdClosed, wakeupChannel`events, wakeupChannel`requests
      ensures wakeupChannel.events == NoneEvent && wakeupFdClosed
      ensures wakeupChannel.requests == old(wakeupChannel.requests) + [UpdateRequest(NoneEvent), RemoveRequest]
    {
      wakeupChannel.DisableAll();
      wakeupChannel.Remove();
      wakeupFdClosed := true;
    }

    /** wakeup(): one write to the eventfd. */
    method Wakeup()
      modifies this`wakeups
      ensures wakeups == old(wakeups) + 1
    {
      wakeups := wakeups + 1;
    }

    /** queueInLoop: append at the tail; wake the loop iff the caller is another thread or a drain is under way. */
    method QueueInLoop(task: Task, isOwner: bool)
      modifies this`pending, this`wakeups
      ensures pending == old(pending) + [task]
      ensures wakeups == old(wakeups) + (if !isOwner || callingPendingFunctors then 1 else 0)
    {
      pending := pending + [task];
      if !isOwner || callingPendingFunctors {
        Wakeup();
      }
    }

    /**
     * runInLoop: the owner thread runs the task at once and the queue is
     * untouched; any other thread queues it. ranNow tells the caller to
     * apply the task's effect itself.
     */
    method RunInLoop(task: Task, isOwner: bool) returns (ranNow: bool)
      modifies this`pending, this`wakeups, this`executed
      ensures ranNow <==> isOwner
      ensures isOwner ==> pending == old(pending) && wakeups == old(wakeups) && executed == old(executed) + [task]
      ensures !isOwner ==> pending == old(pending) + [task] && wakeups == old(wakeups) + 1 && executed == old(executed)
    {
      ranNow := isOwner;
      if isOwner {
        executed := executed + [task];
      } else {
        QueueInLoop(task, false);
      }
    }

    /** quit(): set the flag; wake the loop only from another thread. */
    method Quit(isOwner: bool)
      modifies this`quit, this`wakeups
      ensures quit
      ensures wakeups == old(wakeups) + (if isOwner then 0 else 1)
    {
      quit := true;
      if !isOwner {
        Wakeup();
      }
    }

    /**
     * doPendingFunctors: take the whole queue at once and run it in order.
     * Tasks the running tasks queue go to the emptied queue for the next
     * drain, and each wakes the loop because a drain is under way.
     */
    method DoPendingFunctors(spawned: Task -> seq<Task>)
      modifies this`pending, this`wakeups, this`executed, this`callingPendingFunctors
      ensures executed == old(executed) + old(pending)
      ensures pending == Spawned(old(pending), spawned)
      ensures wakeups == old(wakeups) + |pending|
      ensures !callingPendingFunctors
    {
      callingPendingFunctors := true;
      var functors := pending;
      pending := [];
      var i := 0;
      while i < |functors|
        invariant 0 <= i <= |functors|
        invariant callingPendingFunctors
        invariant executed == old(executed) + functors[..i]
        invariant pending == Spawned(functors[..i], spawned)
        invariant wakeups == old(wakeups) + |pending|
      {
        executed := executed + [functors[i]];
        assert functors[..i + 1] == functors[..i] + [functors[i]];
        var more := spawned(functors[i]);
        var j := 0;
        while j < |more|
          invariant 0 <= j <= |more|
          invariant callingPendingFunctors
          invariant executed == old(executed) + functors[..i + 1]
          invariant pending == Spawned(functors[..i], spawned) + more[..j]
          invariant wakeups == old(wakeups) + |pending|
        {
          QueueInLoop(more[j], true);
          assert more[..j + 1] == more[..j] + [more[j]];
          j := j + 1;
        }
        assert functors[..i + 1][..i] == functors[..i];
        assert more[..j] == more;
        i := i + 1;
      }
      assert functors[..i] == functors;
      callingPendingFunctors := false;
    }

    /** One iteration of loop(): the poller's channels become the active list, each is handled in order, the queue is drained. */
    method Iterate(round: Round, spawned: Task -> seq<Task>)
      modifies this`pending, this`wakeups, this`executed, this`callingPendingFunctors
      modifies this`quit, this`activeChannels, this`handled
      ensures activeChannels == round.active
      ensures handled == old(handled) + round.active
      ensures executed == old(executed) + old(pending)
      ensures pending == Spawned(old(pending), spawned)
      ensures wakeups == old(wakeups) + |pending|
      ensures !callingPendingFunctors
      ensures quit <==> old(quit) || round.requestsQuit
    {
      activeChannels := round.active;
      var k := 0;
      while k < |activeChannels|
        invariant 0 <= k <= |activeChannels|
        invariant handled == old(handled) + activeChannels[..k]
        modifies this`handled
      {
        handled := handled + [activeChannels[k]];
        assert activeChannels[..k + 1] == activeChannels[..k] + [activeChannels[k]];
        k := k + 1;
      }
      assert activeChannels[..k] == activeChannels;
      DoPendingFunctors(spawned);
      if round.requestsQuit {
        Quit(true);
      }
    }

    /**
     * The logs after n rounds, starting from handled h0, executed e0, queue
     * p0 and wakeups w0: every round's active channels handled in order, the
     * queue drained once per round, and one wakeup per task queued by a task
     * that ran.
     */
    ghost predicate RanRounds(rounds: seq<Round>, spawned: Task -> seq<Task>, n: nat,
                              h0: seq<Channel>, e0: seq<Task>, p0: seq<Task>, w0: nat)
      reads this
      requires n <= |rounds|
    {
      && handled == h0 + HandledIn(rounds[..n])
      && executed == e0 + ExecutedIn(p0, spawned, n)
      && pending == PendingAfter(p0, spawned, n)
      && wakeups == w0 + |ExecutedIn(Spawned(p0, spawned), spawned, n)|
    }

    /** One iteration of loop(), with the logs it extends stated over the rounds so far. */
    method Turn(rounds: seq<Round>, ran: nat, spawned: Task -> seq<Task>,
                ghost h0: seq<Channel>, ghost e0: seq<Task>, ghost p0: seq<Task>, ghost w0: nat)
      requires ran < |rounds| && !quit
      requires RanRounds(rounds, spawned, ran, h0, e0, p0, w0)
      modifies this`pending, this`wakeups, this`executed, this`callingPendingFunctors
      modifies this`quit, this`activeChannels, this`handled
      ensures quit <==> rounds[ran].requestsQuit
      ensures activeChannels == rounds[ran].active
      ensures RanRounds(rounds, spawned, ran + 1, h0, e0, p0, w0)
      ensures !callingPendingFunctors
    {
      ghost var executedBefore, pendingBefore, wakeupsBefore := executed, pending, wakeups;
      Iterate(rounds[ran], spawned);
      DrainStep(p0, spawned, ran, e0, w0, executedBefore, pendingBefore, wakeupsBefore, executed, pending, wakeups);
      HandledStep(h0, rounds, ran);
    }

    /**
     * loop(): clear the quit flag, then per iteration take the poller's
     * active channels, handle each in order, drain the queue; stop once
     * quit is set. The rounds are the iterations' inputs; when they run out
     * before a quit the loop is still running.
     */
    method Loop(rounds: seq<Round>, spawned: Task -> seq<Task>) returns (stopped: bool, ran: nat)
      modifies this`pending, this`wakeups, this`executed, this`callingPendingFunctors
      modifies this`looping, this`quit, this`activeChannels, this`handled
      ensures ran <= |rounds|
      ensures forall k :: 0 <= k < ran - 1 ==> !rounds[k].requestsQuit
      ensures stopped <==> 0 < ran && rounds[ran - 1].requestsQuit
      ensures !stopped ==> ran == |rounds|
      ensures stopped ==> quit && !looping
      ensures !stopped ==> !quit && looping
      ensures activeChannels == if ran == 0 then old(activeChannels) else rounds[ran - 1].active
      ensures RanRounds(rounds, spawned, ran, old(handled), old(executed), old(pending), old(wakeups))
      ensures ran == 0 ==> callingPendingFunctors == old(callingPendingFunctors)
      ensures ran > 0 ==> !callingPendingFunctors
    {
      looping := true;
      quit := false;
      ran := 0;
      while !quit && ran < |rounds|
        invariant 0 <= ran <= |rounds|
        invariant looping
        invariant forall k :: 0 <= k < ran - 1 ==> !rounds[k].requestsQuit
        invariant quit <==> 0 < ran && rounds[ran - 1].requestsQuit
        invariant activeChannels == if ran == 0 then old(activeChannels) else rounds[ran - 1].active
        invariant RanRounds(rounds, spawned, ran, old(handled), old(executed), old(pending), old(wakeups))
        invariant ran == 0 ==> callingPendingFunctors == old(callingPendingFunctors)
        invariant ran > 0 ==> !callingPendingFunctors
      {
        Turn(rounds, ran, spawned, old(handled), old(executed), old(pending), old(wakeups));
        ran := ran + 1;
      }
      stopped := quit;
      if quit {
        looping := false;
      }
    }
  }

  /** One more round appends its active channels to what the earlier rounds handled. */
  lemma HandledStep(before: seq<Channel>, rounds: seq<Round>, n: nat)
    requires n < |rounds|
    ensures before + HandledIn(rounds[..n + 1]) == (before + HandledIn(rounds[..n])) + rounds[n].active
  {
    assert rounds[..n + 1][..n] == rounds[..n];
  }

  /** One more drain takes the queue n drains left to its successor. */
  lemma {:induction false} PendingAfterSnoc(p: seq<Task>, spawned: Task -> seq<Task>, n: nat)
    ensures PendingAfter(p, spawned, n + 1) == Spawned(PendingAfter(p, spawned, n), spawned)
    ensures PendingAfter(Spawned(p, spawned), spawned, n) == PendingAfter(p, spawned, n + 1)
    decreases n
  {
    if n > 0 {
      PendingAfterSnoc(Spawned(p, spawned), spawned, n - 1);
    }
  }

  /** The bookkeeping of one more drain inside loop(), in terms of the drains before it. */
  lemma DrainStep(p: seq<Task>, spawned: Task -> seq<Task>, n: nat, e0: seq<Task>, w0: nat,
                  e: seq<Task>, q: seq<Task>, w: nat, e': seq<Task>, q': seq<Task>, w': nat)
    requires e == e0 + ExecutedIn(p, spawned, n)
    requires q == PendingAfter(p, spawned, n)
    requires w == w0 + |ExecutedIn(Spawned(p, spawned), spawned, n)|
    requires e' == e + q && q' == Spawned(q, spawned) && w' == w + |q'|
    ensures e' == e0 + ExecutedIn(p, spawned, n + 1)
    ensures q' == PendingAfter(p, spawned, n + 1)
    ensures w' == w0 + |ExecutedIn(Spawned(p, spawned), spawned, n + 1)|
  {
    ExecutedInSnoc(p, spawned, n);
    ExecutedInSnoc(Spawned(p, spawned), spawned, n);
    PendingAfterSnoc(p, spawned, n);
  }
}
