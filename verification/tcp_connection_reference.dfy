/**
 * The TCP connection as reference/src/TcpConnection.cc writes it: the state
 * field, the owned channel and buffers, the send path with its direct
 * write, the drain on writability, the deferred shutdown and the close and
 * destroy transitions.
 *
 * The loop is the one the connection was created on; these methods run on
 * that loop's thread, except send and shutdown, whose caller says whether
 * it is that thread. Results of write/readv are inputs. The bytes the kernel
 * accepted are the ghost log `wire`, the bytes the connection took on to
 * deliver are `accepted`; half-closes of the socket are counted in
 * `writeShutdowns`; user-callback invocations are logged in `notices`.
 */
module ReferenceConnections {
  import opened Sys
  import opened Channels
  import opened EventLoops
  import opened ConnectionModel
  import opened Buffers
  import BM = BufferModel

  class TcpConnection {
    const loop: EventLoop
    const name: string
    const channel: Channel
    const inputBuffer: Buffer
    const outputBuffer: Buffer
    var state: ConnState
    var highWaterMark: nat
    var callbacks: Callbacks
    ghost var notices: seq<Notice>
    ghost var wire: seq<byte>
    ghost var accepted: seq<byte>
    ghost var writeShutdowns: nat

    /** The connection owns two distinct, well-formed buffers. */
    ghost predicate Valid()
      reads this, inputBuffer, outputBuffer
    {
      inputBuffer != outputBuffer && inputBuffer.Valid() && outputBuffer.Valid()
    }

    /** Every accepted byte is either on the wire or pending in the output buffer, in order. */
    ghost predicate StreamIntact()
      reads this, outputBuffer
    {
      outputBuffer.Valid() && wire + outputBuffer.Peek() == accepted
    }

    /** The constructor: kConnecting, a 64 MiB mark, a fresh channel with all four handlers, two fresh buffers. */
    constructor (loop: EventLoop, name: string, sockfd: int)
      ensures Valid() && StreamIntact()
      ensures this.loop == loop && this.name == name
      ensures state == Connecting && highWaterMark == DefaultHighWaterMark && callbacks == Callbacks(false, false)
      ensures fresh(channel) && fresh(inputBuffer) && fresh(outputBuffer)
      ensures channel.fd == sockfd && channel.handlers == Handlers(true, true, true, true)
      ensures channel.events == NoneEvent && channel.index == -1 && !channel.tied && channel.requests == []
      ensures inputBuffer.State() == BM.Initial() && outputBuffer.State() == BM.Initial()
      ensures notices == [] && wire == [] && accepted == [] && writeShutdowns == 0
    {
      this.loop := loop;
      this.name := name;
      state := Connecting;
      var ch := new Channel(sockfd);
      ch.SetReadCallback(true);
      ch.SetWriteCallback(true);
      ch.SetCloseCallback(true);
      ch.SetErrorCallback(true);
      channel := ch;
      inputBuffer := new Buffer();
      outputBuffer := new Buffer();
      highWaterMark := DefaultHighWaterMark;
      callbacks := Callbacks(false, false);
      notices := [];
      wire := [];
      accepted := [];
      writeShutdowns := 0;
    }

    /** connected(). */
    function Connected(): (r: bool)
      reads this
      ensures r <==> IsConnected(state)
    {
      state == ConnState.Connected
    }

    method SetWriteCompleteCallback(present: bool)
      modifies this`callbacks
      ensures callbacks == old(callbacks).(writeComplete := present)
    {
      callbacks := callbacks.(writeComplete := present);
    }

    /** setHighWaterMarkCallback sets the callback and the mark together. */
    method SetHighWaterMarkCallback(present: bool, mark: nat)
      modifies this`callbacks, this`highWaterMark
      ensures callbacks == old(callbacks).(highWaterMark := present) && highWaterMark == mark
    {
      callbacks := callbacks.(highWaterMark := present);
      highWaterMark := mark;
    }

    /** What sendInLoop reads of the connection. */
    function Context(): SendContext
      reads this, channel, outputBuffer
      requires outputBuffer.Valid()
    {
      SendContext(state, channel.IsWriting(), outputBuffer.ReadableBytes(), highWaterMark,
                  callbacks.writeComplete, callbacks.highWaterMark)
    }

    /** The effect of one sendInLoop call, as its plan prescribes. */
    twostate predicate SentInLoop(message: seq<byte>, result: WriteResult)
      reads this, channel, outputBuffer, loop
      requires old(outputBuffer.Valid()) && Deliverable(message, result)
    {
      var p := ReferenceSendPlan(old(Context()), message, result);
      && outputBuffer.State()
         == (if p.buffered == [] then old(outputBuffer.State()) else BM.Append(old(outputBuffer.State()), p.buffered))
      && channel.events == (if p.enableWriting then WithBits(old(channel.events), WriteEvent) else old(channel.events))
      && channel.requests == old(channel.requests) + (if p.enableWriting then [UpdateRequest(channel.events)] else [])
      && loop.pending == old(loop.pending) + QueuedBySend(name, p)
      && loop.wakeups == old(loop.wakeups) + (if loop.callingPendingFunctors then |QueuedBySend(name, p)| else 0)
      && wire == old(wire) + message[..p.written]
      && accepted == old(accepted) + (if p.fault then [] else message)
    }

    /** The direct-write block of sendInLoop: tried only with write interest off and nothing pending. */
    method DirectWrite(message: seq<byte>, result: WriteResult) returns (nwrote: nat, fault: bool)
      requires Valid() && Deliverable(message, result)
      modifies loop`pending, loop`wakeups, this`wire
      ensures var p := ReferenceSendPlan(old(Context()), message, result);
        && nwrote == p.written && fault == p.fault
        && wire == old(wire) + message[..nwrote]
        && loop.pending == old(loop.pending) + CompletionQueued(name, p)
        && loop.wakeups == old(loop.wakeups) + (if loop.callingPendingFunctors then |CompletionQueued(name, p)| else 0)
    {
      nwrote, fault := 0, false;
      if !channel.IsWriting() && outputBuffer.ReadableBytes() == 0 {
        match result
        case Wrote(count) =>
          nwrote := count;
          wire := wire + message[..count];
          if |message| - count == 0 && callbacks.writeComplete {
            loop.QueueInLoop(WriteCompleteTask(name), true);
          }
        case WriteFailed(e) =>
          if e != EWOULDBLOCK {
            if e == EPIPE || e == ECONNRESET {
              fault := true;
            }
          }
      }
    }

    /** The buffering block of sendInLoop: queue the high-water callback on an upward crossing, append the tail, switch write interest on. */
    method BufferTail(tail: seq<byte>)
      requires Valid() && tail != []
      modifies outputBuffer, channel`events, channel`requests, loop`pending, loop`wakeups
      ensures Valid()
      ensures var oldLen := old(outputBuffer.ReadableBytes());
        var queued := Crossing(oldLen, |tail|, highWaterMark) && callbacks.highWaterMark;
        && outputBuffer.State() == BM.Append(old(outputBuffer.State()), tail)
        && outputBuffer.Peek() == old(outputBuffer.Peek()) + tail
        && loop.pending == old(loop.pending) + (if queued then [HighWaterMarkTask(name, oldLen + |tail|)] else [])
        && loop.wakeups == old(loop.wakeups) + (if queued && loop.callingPendingFunctors then 1 else 0)
        && channel.events == (if old(channel.IsWriting()) then old(channel.events) else WithBits(old(channel.events), WriteEvent))
        && channel.requests == old(channel.requests) + (if old(channel.IsWriting()) then [] else [UpdateRequest(channel.events)])
    {
      var oldLen := outputBuffer.ReadableBytes();
      if oldLen + |tail| >= highWaterMark && oldLen < highWaterMark && callbacks.highWaterMark {
        loop.QueueInLoop(HighWaterMarkTask(name, oldLen + |tail|), true);
      }
      outputBuffer.Append(tail);
      if !channel.IsWriting() {
        channel.EnableWriting();
      }
    }

    /**
     * The rest of sendInLoop once the direct write is done: unless the peer
     * is gone, buffer what the write left and take the message on.
     */
    method BufferRemainder(message: seq<byte>, result: WriteResult, nwrote: nat, fault: bool, ghost c: SendContext)
      requires Valid() && Deliverable(message, result) && c == Context()
      requires var p := ReferenceSendPlan(c, message, result); nwrote == p.written && fault == p.fault
      modifies outputBuffer, channel`events, channel`requests, loop`pending, loop`wakeups, this`accepted
      ensures Valid()
      ensures var p := ReferenceSendPlan(c, message, result);
        var hw := HighWaterQueued(name, p);
        && outputBuffer.State()
           == (if p.buffered == [] then old(outputBuffer.State()) else BM.Append(old(outputBuffer.State()), p.buffered))
        && channel.events == (if p.enableWriting then WithBits(old(channel.events), WriteEvent) else old(channel.events))
        && channel.requests == old(channel.requests) + (if p.enableWriting then [UpdateRequest(channel.events)] else [])
        && loop.pending == old(loop.pending) + hw
        && loop.wakeups == old(loop.wakeups) + (if loop.callingPendingFunctors then |hw| else 0)
        && accepted == old(accepted) + (if p.fault then [] else message)
      ensures outputBuffer.Peek() == old(outputBuffer.Peek()) + ReferenceSendPlan(c, message, result).buffered
    {
      ghost var p := ReferenceSendPlan(c, message, result);
      if !fault && |message| - nwrote > 0 {
        assert message[..nwrote] + message[nwrote..] == message;
        assert p.buffered == message[nwrote..];
        BufferTail(message[nwrote..]);
      } else {
        assert channel.requests == old(channel.requests) + [];
        assert loop.pending == old(loop.pending) + [];
      }
      if !fault {
        accepted := accepted + message;
      }
    }

    /**
     * sendInLoop: try a direct write when nothing is pending, then buffer
     * the unsent tail unless the peer is gone. A disconnected state is only
     * logged.
     */
    method SendInLoop(message: seq<byte>, result: WriteResult)
      requires Valid() && Deliverable(message, result)
      modifies outputBuffer, channel`events, channel`requests, loop`pending, loop`wakeups, this`wire, this`accepted
      ensures Valid()
      ensures SentInLoop(message, result)
      ensures old(StreamIntact()) ==> StreamIntact()
    {
      ghost var c := Context();
      ghost var pending := outputBuffer.Peek();
      ghost var queued := loop.pending;
      if StreamIntact() {
        SendKeepsStreamOrder(c, message, result, wire, pending, accepted);
      }
      var nwrote, fault := DirectWrite(message, result);
      BufferRemainder(message, result, nwrote, fault, c);
      ghost var p := ReferenceSendPlan(c, message, result);
      QueuedInTwoSteps(queued, name, p);
      assert outputBuffer.Peek() == pending + p.buffered;
    }

    /**
     * send: only a connected connection sends; the loop's own thread calls
     * sendInLoop directly, any other thread queues a task holding a copy of
     * the bytes.
     */
    method Send(message: seq<byte>, isOwner: bool, result: WriteResult)
      requires Valid() && Deliverable(message, result)
      modifies outputBuffer, channel`events, channel`requests, loop`pending, loop`wakeups, loop`executed
      modifies this`wire, this`accepted
      ensures Valid()
      ensures old(state) != ConnState.Connected ==>
        && outputBuffer.State() == old(outputBuffer.State()) && channel.events == old(channel.events)
        && channel.requests == old(channel.requests) && loop.pending == old(loop.pending)
        && loop.wakeups == old(loop.wakeups) && loop.executed == old(loop.executed)
        && wire == old(wire) && accepted == old(accepted)
      ensures old(state) == ConnState.Connected && isOwner ==> SentInLoop(message, result) && loop.executed == old(loop.executed)
      ensures old(state) == ConnState.Connected && !isOwner ==>
        && loop.pending == old(loop.pending) + [SendInLoopTask(name, message)]
        && loop.wakeups == old(loop.wakeups) + 1 && loop.executed == old(loop.executed)
        && outputBuffer.State() == old(outputBuffer.State()) && channel.events == old(channel.events)
        && channel.requests == old(channel.requests) && wire == old(wire) && accepted == old(accepted)
      ensures old(StreamIntact()) ==> StreamIntact()
    {
      if state == ConnState.Connected {
        if isOwner {
          SendInLoop(message, result);
        } else {
          var ranNow := loop.RunInLoop(SendInLoopTask(name, message), false);
        }
      }
    }

    /** shutdownInLoop: half-close the socket unless bytes are still pending. */
    method ShutdownInLoop()
      modifies this`writeShutdowns
      ensures writeShutdowns == old(writeShutdowns) + (if channel.IsWriting() then 0 else 1)
    {
      if !channel.IsWriting() {
        writeShutdowns := writeShutdowns + 1;
      }
    }

    /** shutdown: a connected connection moves to kDisconnecting and schedules shutdownInLoop. */
    method Shutdown(isOwner: bool)
      modifies this`state, this`writeShutdowns, loop`pending, loop`wakeups, loop`executed
      ensures state == ReferenceTransition(old(state), LifecycleOp.Shutdown)
      ensures old(state) == ConnState.Connected && isOwner ==>
        && loop.executed == old(loop.executed) + [ShutdownInLoopTask(name)]
        && loop.pending == old(loop.pending) && loop.wakeups == old(loop.wakeups)
        && writeShutdowns == old(writeShutdowns) + (if channel.IsWriting() then 0 else 1)
      ensures old(state) == ConnState.Connected && !isOwner ==>
        && loop.pending == old(loop.pending) + [ShutdownInLoopTask(name)]
        && loop.wakeups == old(loop.wakeups) + 1 && loop.executed == old(loop.executed)
        && writeShutdowns == old(writeShutdowns)
      ensures old(state) != ConnState.Connected ==>
        && loop.pending == old(loop.pending) && loop.wakeups == old(loop.wakeups)
        && loop.executed == old(loop.executed) && writeShutdowns == old(writeShutdowns)
    {
      if state == ConnState.Connected {
        state := Disconnecting;
        var ranNow := loop.RunInLoop(ShutdownInLoopTask(name), isOwner);
        if ranNow {
          ShutdownInLoop();
        }
      }
    }

    /** connectEstablished: kConnected, tie the channel, register for reading, notify. */
    method ConnectEstablished()
      modifies this`state, this`notices, channel`tied, channel`events, channel`requests
      ensures state == ReferenceTransition(old(state), Establish) && Connected()
      ensures channel.tied && channel.IsReading()
      ensures channel.events == WithBits(old(channel.events), ReadEvent)
      ensures channel.requests == old(channel.requests) + [UpdateRequest(channel.events)]
      ensures notices == old(notices) + [ConnectionNotice(ConnState.Connected)]
    {
      state := ConnState.Connected;
      channel.Tie();
      channel.EnableReading();
      notices := notices + [ConnectionNotice(state)];
    }

    /** connectDestroyed: a connected connection is disconnected, loses all interest and notifies; the channel is always removed. */
    method ConnectDestroyed()
      modifies this`state, this`notices, channel`events, channel`requests
      ensures state == ReferenceTransition(old(state), Destroy)
      ensures old(state) == ConnState.Connected ==>
        && channel.events == NoneEvent
        && channel.requests == old(channel.requests) + [UpdateRequest(NoneEvent), RemoveRequest]
        && notices == old(notices) + [ConnectionNotice(Disconnected)]
      ensures old(state) != ConnState.Connected ==>
        && channel.events == old(channel.events)
        && channel.requests == old(channel.requests) + [RemoveRequest]
        && notices == old(notices)
    {
      if state == ConnState.Connected {
        state := Disconnected;
        channel.DisableAll();
        notices := notices + [ConnectionNotice(state)];
      }
      channel.Remove();
    }

    /** handleClose: kDisconnected, all interest off, then the connection callback and the close callback, in that order. */
    method HandleClose()
      modifies this`state, this`notices, channel`events, channel`requests
      ensures state == ReferenceTransition(old(state), PeerClose) && !Connected()
      ensures channel.events == NoneEvent
      ensures channel.requests == old(channel.requests) + [UpdateRequest(NoneEvent)]
      ensures notices == old(notices) + [ConnectionNotice(Disconnected), CloseNotice]
    {
      state := Disconnected;
      channel.DisableAll();
      notices := notices + [ConnectionNotice(state), CloseNotice];
    }

    /** handleRead: bytes go to the input buffer and the message callback; end of stream closes; an error is only logged. */
    method HandleRead(input: ReadResult)
      requires Valid()
      requires input.ReadBytes? ==> |input.data| <= BM.ReadCapacity(inputBuffer.WriteableBytes())
      modifies inputBuffer, this`state, this`notices, channel`events, channel`requests
      ensures Valid()
      ensures inputBuffer.State() == BM.ReadFd(old(inputBuffer.State()), input, 0).after
      ensures ReadReturn(input) > 0 ==>
        && notices == old(notices) + [MessageNotice(inputBuffer.ReadableBytes())]
        && state == old(state) && channel.events == old(channel.events) && channel.requests == old(channel.requests)
      ensures ReadReturn(input) == 0 ==>
        && state == Disconnected && channel.events == NoneEvent
        && channel.requests == old(channel.requests) + [UpdateRequest(NoneEvent)]
        && notices == old(notices) + [ConnectionNotice(Disconnected), CloseNotice]
      ensures ReadReturn(input) < 0 ==>
        && notices == old(notices) && state == old(state)
        && channel.events == old(channel.events) && channel.requests == old(channel.requests)
    {
      var n, savedErrno := inputBuffer.ReadFd(input, 0);
      if n > 0 {
        notices := notices + [MessageNotice(inputBuffer.ReadableBytes())];
      } else if n == 0 {
        HandleClose();
      }
      // A negative result goes to handleError, which only logs SO_ERROR.
    }

    /**
     * handleWrite: while write interest is on, hand the pending bytes to
     * the kernel and retrieve what it accepted; once drained, switch write
     * interest off, queue writeComplete, and finish a deferred shutdown.
     */
    method HandleWrite(result: WriteResult)
      requires Valid()
      requires result.Wrote? ==> result.count <= outputBuffer.ReadableBytes()
      modifies outputBuffer, channel`events, channel`requests, loop`pending, loop`wakeups
      modifies this`wire, this`writeShutdowns
      ensures Valid()
      ensures !(old(channel.IsWriting()) && WriteReturn(result) > 0) ==>
        && outputBuffer.State() == old(outputBuffer.State()) && wire == old(wire)
        && channel.events == old(channel.events) && channel.requests == old(channel.requests)
        && loop.pending == old(loop.pending) && loop.wakeups == old(loop.wakeups)
        && writeShutdowns == old(writeShutdowns)
      ensures old(channel.IsWriting()) && WriteReturn(result) > 0 ==>
        && wire == old(wire) + old(outputBuffer.Peek())[..result.count]
        && outputBuffer.State() == BM.Retrieve(old(outputBuffer.State()), result.count)
      ensures old(channel.IsWriting()) && WriteReturn(result) > 0 && result.count == old(outputBuffer.ReadableBytes()) ==>
        && channel.events == WithoutBits(old(channel.events), WriteEvent)
        && channel.requests == old(channel.requests) + [UpdateRequest(channel.events)]
        && loop.pending == old(loop.pending) + (if callbacks.writeComplete then [WriteCompleteTask(name)] else [])
        && loop.wakeups == old(loop.wakeups) + (if callbacks.writeComplete && loop.callingPendingFunctors then 1 else 0)
        && writeShutdowns == old(writeShutdowns) + (if state == Disconnecting then 1 else 0)
      ensures old(channel.IsWriting()) && WriteReturn(result) > 0 && result.count < old(outputBuffer.ReadableBytes()) ==>
        && channel.events == old(channel.events) && channel.requests == old(channel.requests)
        && loop.pending == old(loop.pending) && loop.wakeups == old(loop.wakeups)
        && writeShutdowns == old(writeShutdowns)
      ensures old(StreamIntact()) ==> StreamIntact()
    {
      if channel.IsWriting() {
        var n, savedErrno := outputBuffer.WriteFd(result, 0);
        if n > 0 {
          wire := wire + outputBuffer.Peek()[..n];
          outputBuffer.Retrieve(n);
          if outputBuffer.ReadableBytes() == 0 {
            channel.DisableWriting();
            if callbacks.writeComplete {
              loop.QueueInLoop(WriteCompleteTask(name), true);
            }
            if state == Disconnecting {
              ShutdownInLoop();
            }
          }
        }
        // A non-positive result is only logged.
      }
      // Without write interest the call is only logged.
    }
  }
}
