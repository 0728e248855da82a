/**
 * The TCP connection's decisions as pure values: the four states, the
 * high-water-mark crossing test, what one sendInLoop call does in each
 * draft (reference/src/TcpConnection.cc and src/TcpConnnection.cpp), and the
 * state each lifecycle operation leads to in each draft.
 */
module ConnectionModel {
  import opened Sys
  import opened EventLoops

  /** StateE of include/TcpConnection.h, in declaration order. */
  datatype ConnState = Disconnected | Connecting | Connected | Disconnecting

  /** connected(). */
  predicate IsConnected(s: ConnState)
  {
    s == Connected
  }

  /** The default high-water mark: 64 MiB. */
  const DefaultHighWaterMark: nat := 64 * 1024 * 1024

  /** Whether appending `added` bytes to `oldLen` pending bytes crosses the mark upward. */
  predicate Crossing(oldLen: nat, added: nat, highWaterMark: nat)
  {
    oldLen + added >= highWaterMark && oldLen < highWaterMark
  }

  /** How many of successive appends, with no drain between them, cross the mark. */
  function CrossingCount(oldLen: nat, adds: seq<nat>, highWaterMark: nat): nat
    decreases |adds|
  {
    if adds == [] then 0
    else
      (if Crossing(oldLen, adds[0], highWaterMark) then 1 else 0)
      + CrossingCount(oldLen + adds[0], adds[1..], highWaterMark)
  }

  /** The high-water callback fires at most once while the buffer only grows, and never once above the mark. */
  lemma {:induction false} AtMostOneCrossing(oldLen: nat, adds: seq<nat>, highWaterMark: nat)
    ensures CrossingCount(oldLen, adds, highWaterMark) <= 1
    ensures oldLen >= highWaterMark ==> CrossingCount(oldLen, adds, highWaterMark) == 0
    decreases |adds|
  {
    if adds != [] {
      AtMostOneCrossing(oldLen + adds[0], adds[1..], highWaterMark);
    }
  }

  /** What sendInLoop sees of the connection when it is called. */
  datatype SendContext = SendContext(
    state: ConnState,
    isWriting: bool,
    outputLen: nat,
    highWaterMark: nat,
    hasWriteCompleteCallback: bool,
    hasHighWaterMarkCallback: bool)

  /**
   * What one sendInLoop call does: whether it went past the state check,
   * whether it tried a direct write, how many bytes that write delivered,
   * whether the error was fatal for the connection, the bytes appended to
   * the output buffer, the callbacks queued, and whether write interest is
   * switched on.
   */
  datatype SendPlan = SendPlan(
    proceeds: bool,
    attempted: bool,
    written: nat,
    fault: bool,
    buffered: seq<byte>,
    writeComplete: bool,
    highWater: Option<nat>,
    enableWriting: bool)

  /** EPIPE and ECONNRESET mark the connection as broken. */
  predicate IsFault(result: WriteResult)
  {
    result.WriteFailed? && (result.errno == EPIPE || result.errno == ECONNRESET)
  }

  /** A write result that a write of `message` can return. */
  predicate Deliverable(message: seq<byte>, result: WriteResult)
  {
    result.Wrote? ==> result.count <= |message|
  }

  /**
   * sendInLoop of reference/src/TcpConnection.cc. The disconnected state is
   * only logged. A direct write is tried only with write interest off and
   * an empty output buffer; unless it failed with EPIPE or ECONNRESET,
   * exactly the unsent tail is buffered.
   */
  function ReferenceSendPlan(c: SendContext, message: seq<byte>, result: WriteResult): (p: SendPlan)
    requires Deliverable(message, result)
    ensures p.proceeds
    ensures p.attempted <==> !c.isWriting && c.outputLen == 0
    ensures p.written == (if p.attempted && result.Wrote? then result.count else 0)
    ensures p.fault <==> p.attempted && IsFault(result)
    ensures !p.fault ==> message[..p.written] + p.buffered == message
    ensures p.fault ==> p.buffered == [] && !p.enableWriting && !p.writeComplete && p.highWater == None
    ensures p.writeComplete <==> p.attempted && result.Wrote? && result.count == |message| && c.hasWriteCompleteCallback
    ensures p.highWater != None <==>
              p.buffered != [] && Crossing(c.outputLen, |p.buffered|, c.highWaterMark) && c.hasHighWaterMarkCallback
    ensures p.highWater != None ==> p.highWater.value == c.outputLen + |p.buffered|
    ensures p.enableWriting <==> p.buffered != [] && !c.isWriting
    ensures !(p.writeComplete && p.highWater != None)
  {
    var attempted := !c.isWriting && c.outputLen == 0;
    var written := if attempted && result.Wrote? then result.count else 0;
    var fault := attempted && IsFault(result);
    var remaining := |message| - written;
    var writeComplete := attempted && result.Wrote? && remaining == 0 && c.hasWriteCompleteCallback;
    var buffers := !fault && remaining > 0;
    var highWater :=
      if buffers && Crossing(c.outputLen, remaining, c.highWaterMark) && c.hasHighWaterMarkCallback
      then Some(c.outputLen + remaining) else None;
    SendPlan(true, attempted, written, fault, if buffers then message[written..] else [],
             writeComplete, highWater, buffers && !c.isWriting)
  }

  /**
   * sendInLoop of src/TcpConnnection.cpp: returns at once when
   * disconnected, and otherwise does what the reference does only inside
   * the direct-write branch; outside it the message is dropped.
   */
  function DraftSendPlan(c: SendContext, message: seq<byte>, result: WriteResult): (p: SendPlan)
    requires Deliverable(message, result)
    ensures p.proceeds <==> c.state != Disconnected
    ensures p.attempted <==> c.state != Disconnected && !c.isWriting && c.outputLen == 0
    ensures p.attempted ==> p == ReferenceSendPlan(c, message, result)
    ensures !p.attempted ==>
              p.written == 0 && !p.fault && p.buffered == [] && !p.writeComplete
              && p.highWater == None && !p.enableWriting
  {
    if c.state == Disconnected then
      SendPlan(false, false, 0, false, [], false, None, false)
    else if !c.isWriting && c.outputLen == 0 then
      ReferenceSendPlan(c, message, result)
    else
      SendPlan(true, false, 0, false, [], false, None, false)
  }

  /**
   * The draft drops a message sent while earlier bytes are still pending:
   * nothing is written and nothing is buffered, where the reference
   * buffers the whole message.
   */
  lemma DraftDropsMessageWhilePending(c: SendContext, message: seq<byte>, result: WriteResult)
    requires Deliverable(message, result)
    requires c.state == Connected && (c.isWriting || c.outputLen > 0) && message != []
    ensures DraftSendPlan(c, message, result).written == 0
    ensures DraftSendPlan(c, message, result).buffered == []
    ensures !DraftSendPlan(c, message, result).fault
    ensures ReferenceSendPlan(c, message, result).buffered == message
  {
  }

  /**
   * sendInLoop keeps the byte stream in order: if everything taken on so far
   * is the bytes on the wire followed by the pending ones, the same holds
   * after the call, with the message taken on unless the peer is gone. This
   * relies on the direct write being tried only when nothing is pending.
   */
  lemma SendKeepsStreamOrder(c: SendContext, message: seq<byte>, result: WriteResult,
                             wire: seq<byte>, pending: seq<byte>, accepted: seq<byte>)
    requires Deliverable(message, result) && |pending| == c.outputLen
    requires wire + pending == accepted
    ensures var p := ReferenceSendPlan(c, message, result);
      (wire + message[..p.written]) + (pending + p.buffered) == accepted + (if p.fault then [] else message)
  {
    var p := ReferenceSendPlan(c, message, result);
    if p.fault {
      assert message[..p.written] == [] && p.buffered == [];
      assert wire + [] + (pending + []) == wire + pending;
    } else {
      InterleaveAroundEmpty(wire, message[..p.written], pending, p.buffered);
    }
  }

  /** With one of the two middle pieces empty, their order does not matter. */
  lemma InterleaveAroundEmpty<T>(a: seq<T>, b: seq<T>, c: seq<T>, d: seq<T>)
    requires b == [] || c == []
    ensures (a + b) + (c + d) == (a + c) + (b + d)
  {
    if b == [] {
      assert a + b == a;
    } else {
      assert c + d == d;
    }
  }

  /** The writeComplete callback a full direct write queues. */
  function CompletionQueued(name: string, p: SendPlan): seq<Task>
  {
    if p.writeComplete then [WriteCompleteTask(name)] else []
  }

  /** The high-water callback an upward crossing queues, with the new length. */
  function HighWaterQueued(name: string, p: SendPlan): seq<Task>
  {
    if p.highWater != None then [HighWaterMarkTask(name, p.highWater.value)] else []
  }

  /** The callbacks sendInLoop queues on the loop, in the order it queues them. */
  function QueuedBySend(name: string, p: SendPlan): (ts: seq<Task>)
    ensures |ts| == (if p.writeComplete then 1 else 0) + (if p.highWater != None then 1 else 0)
    ensures p.writeComplete ==> ts[0] == WriteCompleteTask(name)
    ensures p.highWater != None ==> ts[|ts| - 1] == HighWaterMarkTask(name, p.highWater.value)
  {
    CompletionQueued(name, p) + HighWaterQueued(name, p)
  }

  /** Queueing the writeComplete task and then the high-water task queues what QueuedBySend lists. */
  lemma QueuedInTwoSteps(before: seq<Task>, name: string, p: SendPlan)
    ensures (before + CompletionQueued(name, p)) + HighWaterQueued(name, p) == before + QueuedBySend(name, p)
    ensures |QueuedBySend(name, p)| == |CompletionQueued(name, p)| + |HighWaterQueued(name, p)|
  {
  }

  /** Which optional callbacks are set (the connection, message and close callbacks always are). */
  datatype Callbacks = Callbacks(writeComplete: bool, highWaterMark: bool)

  /** What the connection reports to its owner through the user callbacks, in order. */
  datatype Notice = ConnectionNotice(state: ConnState) | MessageNotice(readable: nat) | CloseNotice

  /** The lifecycle operations that change a connection's state. */
  datatype LifecycleOp = Establish | Shutdown | PeerClose | Destroy

  /** The state after an operation, as reference/src/TcpConnection.cc writes it. */
  function ReferenceTransition(s: ConnState, op: LifecycleOp): (t: ConnState)
    ensures op == Establish ==> t == Connected
    ensures op == Shutdown ==> t == (if s == Connected then Disconnecting else s)
    ensures op == PeerClose ==> t == Disconnected
    ensures op == Destroy ==> t == (if s == Connected then Disconnected else s)
  {
    match op
    case Establish => Connected
    case Shutdown => if s == Connected then Disconnecting else s
    case PeerClose => Disconnected
    case Destroy => if s == Connected then Disconnected else s
  }

  /** The state after an operation, as src/TcpConnnection.cpp writes it: shutdown stores kConnected, handleClose stores nothing. */
  function DraftTransition(s: ConnState, op: LifecycleOp): (t: ConnState)
    ensures op == Establish ==> t == Connected
    ensures op == Shutdown || op == PeerClose ==> t == s
    ensures op == Destroy ==> t == (if s == Connected then Disconnected else s)
  {
    match op
    case Establish => Connected
    case Shutdown => s
    case PeerClose => s
    case Destroy => if s == Connected then Disconnected else s
  }

  function ReferenceStateAfter(s: ConnState, ops: seq<LifecycleOp>): ConnState
    decreases |ops|
  {
    if ops == [] then s else ReferenceStateAfter(ReferenceTransition(s, ops[0]), ops[1..])
  }

  function DraftStateAfter(s: ConnState, ops: seq<LifecycleOp>): ConnState
    decreases |ops|
  {
    if ops == [] then s else DraftStateAfter(DraftTransition(s, ops[0]), ops[1..])
  }

  /** In the draft a connection never reaches kDisconnecting, so the deferred shutdown after a drain never runs. */
  lemma {:induction false} DraftNeverDisconnecting(s: ConnState, ops: seq<LifecycleOp>)
    requires s != Disconnecting
    ensures DraftStateAfter(s, ops) != Disconnecting
    decreases |ops|
  {
    if ops != [] {
      DraftNeverDisconnecting(DraftTransition(s, ops[0]), ops[1..]);
    }
  }

  /** In the reference, shutdown of an established connection moves it to kDisconnecting. */
  lemma ReferenceShutdownDisconnects()
    ensures ReferenceStateAfter(Connecting, [Establish, Shutdown]) == Disconnecting
    ensures DraftStateAfter(Connecting, [Establish, Shutdown]) == Connected
  {
    assert [Establish, Shutdown][1..] == [Shutdown];
  }

  /** In the reference a connection whose peer closed is no longer connected; in the draft it still is. */
  lemma PeerCloseDisconnectsOnlyInReference(s: ConnState)
    ensures !IsConnected(ReferenceTransition(s, PeerClose))
    ensures IsConnected(DraftTransition(s, PeerClose)) <==> IsConnected(s)
  {
  }

  /** In the reference, once kDisconnected only connectEstablished leaves that state. */
  lemma {:induction false} ReferenceDisconnectedIsSticky(ops: seq<LifecycleOp>)
    requires Establish !in ops
    ensures ReferenceStateAfter(Disconnected, ops) == Disconnected
    decreases |ops|
  {
    if ops != [] {
      assert ops[0] in ops;
      assert forall k :: 0 <= k < |ops[1..]| ==> ops[1..][k] == ops[k + 1];
      ReferenceDisconnectedIsSticky(ops[1..]);
    }
  }
}
