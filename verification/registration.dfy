/**
 * The poller's bookkeeping for one channel, as pure values: the three
 * registration indices, the epoll_ctl operation each updateChannel /
 * removeChannel issues, what a failed epoll_ctl leads to, and the growth of
 * the ready-event array. Both poller drafts (src/EPollPoller.cc and
 * src/EpollPoller.cpp) share all of this.
 *
 * The main result, IndexTracksKernel, says that whatever sequence of
 * update/remove calls a channel goes through, its index is kAdded exactly
 * when the fd is in the epoll set, the fd is in the poller's map exactly
 * when the index is not kNew, and no epoll_ctl call is issued that the
 * kernel would refuse for membership reasons (ADD of a present fd, MOD or
 * DEL of an absent one).
 */
module Registration {

  /** Registration indices of a channel in its poller. */
  const New: int := -1
  const Added: int := 1
  const Deleted: int := 2

  /** Initial length of the ready-event array. */
  const InitEventListSize: nat := 16

  datatype CtlOp = CtlAdd | CtlMod | CtlDel

  /** One epoll_ctl call: operation, fd and the interest mask passed. */
  datatype CtlCall = CtlCall(op: CtlOp, fd: int, events: bv32)

  /** What updateChannel does: the ctl operation, the new index, and whether the map gains the fd. */
  datatype UpdateStep = UpdateStep(op: CtlOp, newIndex: int, insert: bool)

  /**
   * updateChannel: a new or deleted channel is ADDed and becomes kAdded
   * (a new one is also put in the map); any other channel is DELeted and
   * becomes kDeleted when its mask is empty, and MODified otherwise.
   */
  function UpdateStepFor(index: int, noneEvent: bool): (s: UpdateStep)
    ensures s.op == CtlAdd <==> index == New || index == Deleted
    ensures s.op == CtlDel <==> index != New && index != Deleted && noneEvent
    ensures s.insert <==> index == New
    ensures s.op == CtlAdd ==> s.newIndex == Added
    ensures s.op == CtlDel ==> s.newIndex == Deleted
    ensures s.op == CtlMod ==> s.newIndex == index
  {
    if index == New || index == Deleted then
      UpdateStep(CtlAdd, Added, index == New)
    else if noneEvent then
      UpdateStep(CtlDel, Deleted, false)
    else
      UpdateStep(CtlMod, index, false)
  }

  /** removeChannel issues a DEL only for a channel that is kAdded; the index always returns to kNew. */
  function RemoveOps(index: int): (ops: seq<CtlOp>)
    ensures |ops| <= 1
    ensures CtlDel in ops <==> index == Added
    ensures CtlAdd !in ops && CtlMod !in ops
  {
    if index == Added then [CtlDel] else []
  }

  /** The consequence of an epoll_ctl call. */
  datatype CtlOutcome = CtlDone | CtlErrorLogged | CtlFatal

  /** A failed DEL is logged as an error; a failed ADD or MOD is fatal. */
  function CtlResult(op: CtlOp, succeeded: bool): (o: CtlOutcome)
    ensures o == CtlDone <==> succeeded
    ensures o == CtlErrorLogged <==> !succeeded && op == CtlDel
    ensures o == CtlFatal <==> !succeeded && op != CtlDel
  {
    if succeeded then CtlDone
    else if op == CtlDel then CtlErrorLogged
    else CtlFatal
  }

  /** poll doubles the ready-event array when a wait filled it completely. */
  function NextCapacity(capacity: nat, numEvents: int): (c: nat)
    ensures c == 2 * capacity <==> (0 < numEvents && numEvents == capacity) || capacity == 0
    ensures c == capacity || c == 2 * capacity
    ensures numEvents < capacity ==> c == capacity
  {
    if 0 < numEvents && numEvents == capacity then 2 * capacity else capacity
  }

  /** The capacity sequence of a run of waits: each stays a power-of-two multiple of 16. */
  function CapacityAfter(capacity: nat, waits: seq<int>): nat
    decreases |waits|
  {
    if waits == [] then capacity
    else CapacityAfter(NextCapacity(capacity, waits[0]), waits[1..])
  }

  predicate PowerOfTwoTimes(c: nat, base: nat)
    decreases c
  {
    c == base || (base < c && c % 2 == 0 && PowerOfTwoTimes(c / 2, base))
  }

  /** Starting from kInitEventListSize, the array length is always 16 * 2^k. */
  lemma {:induction false} CapacityIsSixteenTimesPowerOfTwo(capacity: nat, waits: seq<int>)
    requires PowerOfTwoTimes(capacity, InitEventListSize)
    ensures PowerOfTwoTimes(CapacityAfter(capacity, waits), InitEventListSize)
    ensures CapacityAfter(capacity, waits) >= InitEventListSize
    decreases |waits|
  {
    PowerOfTwoAtLeastBase(capacity, InitEventListSize);
    if waits != [] {
      var next := NextCapacity(capacity, waits[0]);
      if next != capacity {
        assert next == 2 * capacity;
        assert next / 2 == capacity;
      }
      CapacityIsSixteenTimesPowerOfTwo(next, waits[1..]);
    }
  }

  lemma {:induction false} PowerOfTwoAtLeastBase(c: nat, base: nat)
    requires PowerOfTwoTimes(c, base)
    ensures base <= c
    decreases c
  {
    if c != base {
      PowerOfTwoAtLeastBase(c / 2, base);
    }
  }

  /** Whether the fd is in the epoll set after the given ctl calls (for a legal sequence). */
  function KernelHas(issued: seq<CtlOp>): bool
    decreases |issued|
  {
    if issued == [] then false
    else
      match issued[|issued| - 1]
      case CtlAdd => true
      case CtlDel => false
      case CtlMod => KernelHas(issued[..|issued| - 1])
  }

  /** Every ADD finds the fd absent and every MOD/DEL finds it present. */
  predicate Legal(issued: seq<CtlOp>)
    decreases |issued|
  {
    issued == []
    || (Legal(issued[..|issued| - 1])
        && (issued[|issued| - 1] == CtlAdd <==> !KernelHas(issued[..|issued| - 1])))
  }

  /** One channel as the poller sees it: its index, whether the map holds its fd, the ctl calls issued for it. */
  datatype RegState = RegState(index: int, inMap: bool, issued: seq<CtlOp>)

  datatype RegCall = UpdateCall(noneEvent: bool) | RemoveCall

  const Fresh: RegState := RegState(New, false, [])

  function ApplyReg(s: RegState, c: RegCall): RegState
  {
    match c
    case UpdateCall(noneEvent) =>
      var step := UpdateStepFor(s.index, noneEvent);
      RegState(step.newIndex, s.inMap || step.insert, s.issued + [step.op])
    case RemoveCall =>
      RegState(New, false, s.issued + RemoveOps(s.index))
  }

  function ApplyRegAll(s: RegState, calls: seq<RegCall>): RegState
    decreases |calls|
  {
    if calls == [] then s
    else ApplyReg(ApplyRegAll(s, calls[..|calls| - 1]), calls[|calls| - 1])
  }

  predicate RegInv(s: RegState)
  {
    && (s.index == New || s.index == Added || s.index == Deleted)
    && (s.inMap <==> s.index != New)
    && (s.index == Added <==> KernelHas(s.issued))
    && Legal(s.issued)
  }

  lemma KernelHasSnoc(issued: seq<CtlOp>, op: CtlOp)
    ensures (issued + [op])[..|issued|] == issued
    ensures KernelHas(issued + [op]) == (op == CtlAdd || (op == CtlMod && KernelHas(issued)))
    ensures Legal(issued + [op]) <==> Legal(issued) && (op == CtlAdd <==> !KernelHas(issued))
  {
    assert (issued + [op])[..|issued|] == issued;
  }

  /** The invariant carries over from a view to the view one call later. */
  lemma StepKeepsInv(before: RegState, after: RegState, c: RegCall)
    requires after == ApplyReg(before, c)
    ensures RegInv(before) ==> RegInv(after)
  {
    if RegInv(before) {
      RegStepKeepsInv(before, c);
    }
  }

  lemma RegStepKeepsInv(s: RegState, c: RegCall)
    requires RegInv(s)
    ensures RegInv(ApplyReg(s, c))
  {
    match c
    case UpdateCall(noneEvent) =>
      KernelHasSnoc(s.issued, UpdateStepFor(s.index, noneEvent).op);
    case RemoveCall =>
      if s.index == Added {
        KernelHasSnoc(s.issued, CtlDel);
      } else {
        assert s.issued + RemoveOps(s.index) == s.issued;
      }
  }

  /** For any sequence of update/remove calls from a fresh channel, the index tracks the kernel's epoll set. */
  lemma {:induction false} IndexTracksKernel(calls: seq<RegCall>)
    ensures RegInv(ApplyRegAll(Fresh, calls))
    decreases |calls|
  {
    if calls != [] {
      IndexTracksKernel(calls[..|calls| - 1]);
      RegStepKeepsInv(ApplyRegAll(Fresh, calls[..|calls| - 1]), calls[|calls| - 1]);
    }
  }

  /** enableReading then disableAll on a fresh channel: ADD, then DEL, ending kDeleted but still in the map. */
  lemma EnableThenDisableAllEndsDeleted()
    ensures ApplyRegAll(Fresh, [UpdateCall(false), UpdateCall(true)])
         == RegState(Deleted, true, [CtlAdd, CtlDel])
  {
    assert [UpdateCall(false), UpdateCall(true)][..1] == [UpdateCall(false)];
    assert [UpdateCall(false)][..0] == [];
  }
}
