/**
 * The event descriptor ("Channel"): one fd, its interest mask, the mask the
 * poller last reported, its registration index in the poller, the tie guard,
 * and which of its four handlers are set.
 *
 * update() and remove() hand the channel to its loop, whose poller is not
 * visible here (the default poller's factory is not part of this model);
 * each hand-over is recorded in the ghost log `requests`.
 *
 * The two drafts of the dispatcher differ only in order, so each is its own
 * function: CloseFirstDispatch (src/Channel.cc) and ReadFirstDispatch
 * (src/Channel.cpp).
 */
module Channels {
  import opened Sys

  const NoneEvent: bv32 := 0
  const ReadEvent: bv32 := EPOLLIN | EPOLLPRI
  const WriteEvent: bv32 := EPOLLOUT

  /** A handler a dispatch may invoke. */
  datatype Handler = CloseHandler | ErrorHandler | ReadHandler | WriteHandler

  /** Which of the four std::function handlers are non-empty. */
  datatype Handlers = Handlers(read: bool, write: bool, close: bool, error: bool)

  /** What the channel asked its loop to do, in order. */
  datatype LoopRequest = UpdateRequest(events: bv32) | RemoveRequest

  /** events_ |= bits: sets bits and keeps every other bit. */
  function WithBits(mask: bv32, bits: bv32): (r: bv32)
    ensures r & bits == bits
    ensures r & !bits == mask & !bits
  {
    mask | bits
  }

  /** events_ &= ~bits: clears bits and keeps every other bit. */
  function WithoutBits(mask: bv32, bits: bv32): (r: bv32)
    ensures r & bits == 0
    ensures r & !bits == mask & !bits
  {
    mask & !bits
  }

  /** enableWriting then disableWriting on a mask without OUT gives the mask back. */
  lemma EnableDisableWritingRestores(mask: bv32)
    requires mask & WriteEvent == 0
    ensures WithoutBits(WithBits(mask, WriteEvent), WriteEvent) == mask
  {
  }

  predicate IsReadingMask(mask: bv32)
  {
    mask & ReadEvent != 0
  }

  predicate IsWritingMask(mask: bv32)
  {
    mask & WriteEvent != 0
  }

  /** isReading holds exactly when IN or PRI is set. */
  lemma IsReadingMeansInOrPri(mask: bv32)
    ensures IsReadingMask(mask) <==> (mask & EPOLLIN != 0 || mask & EPOLLPRI != 0)
  {
  }

  /** Conditions on the reported mask, shared by both dispatch drafts. */
  predicate HungUp(revents: bv32) { revents & EPOLLHUP != 0 && revents & EPOLLIN == 0 }
  predicate Failed(revents: bv32) { revents & EPOLLERR != 0 }
  predicate ReadReady(revents: bv32) { revents & (EPOLLIN | EPOLLPRI) != 0 }
  predicate WriteReady(revents: bv32) { revents & EPOLLOUT != 0 }

  /** The four conditions handleEvent tests on a reported mask. */
  datatype Readiness = Readiness(hungUp: bool, failed: bool, readable: bool, writable: bool)

  function Reported(revents: bv32): Readiness
  {
    Readiness(HungUp(revents), Failed(revents), ReadReady(revents), WriteReady(revents))
  }

  /** The tie guard: a tied channel dispatches only while its owner is alive. */
  predicate GuardPasses(tied: bool, ownerAlive: bool)
  {
    !tied || ownerAlive
  }

  function Opt(c: bool, h: Handler): seq<Handler>
  {
    if c then [h] else []
  }

  /** The two orders in which the drafts dispatch. */
  datatype DispatchOrder = CloseFirst | ReadFirst

  /** A handler's position in a dispatch order. */
  function Rank(o: DispatchOrder, h: Handler): nat
  {
    match o
    case CloseFirst =>
      (match h
       case CloseHandler => 0
       case ErrorHandler => 1
       case ReadHandler => 2
       case WriteHandler => 3)
    case ReadFirst =>
      (match h
       case ReadHandler => 0
       case WriteHandler => 1
       case CloseHandler => 2
       case ErrorHandler => 3)
  }

  /**
   * handleEvent of src/Channel.cc on the conditions of the reported mask:
   * after the tie guard, close (HUP without IN), error (ERR), read (IN or
   * PRI), write (OUT), skipping unset handlers.
   */
  function CloseFirstDispatch(ready: Readiness, h: Handlers, tied: bool, ownerAlive: bool): (r: seq<Handler>)
    ensures CloseHandler in r <==> GuardPasses(tied, ownerAlive) && ready.hungUp && h.close
    ensures ErrorHandler in r <==> GuardPasses(tied, ownerAlive) && ready.failed && h.error
    ensures ReadHandler in r <==> GuardPasses(tied, ownerAlive) && ready.readable && h.read
    ensures WriteHandler in r <==> GuardPasses(tied, ownerAlive) && ready.writable && h.write
    ensures Ranked(CloseFirst, r)
  {
    if !GuardPasses(tied, ownerAlive) then []
    else
      InOrder(ready.hungUp && h.close, CloseHandler, ready.failed && h.error, ErrorHandler,
              ready.readable && h.read, ReadHandler, ready.writable && h.write, WriteHandler,
              CloseFirst)
  }

  /**
   * handleEvent of src/Channel.cpp: after the tie guard, read, write,
   * close, error, under the same conditions.
   */
  function ReadFirstDispatch(ready: Readiness, h: Handlers, tied: bool, ownerAlive: bool): (r: seq<Handler>)
    ensures ReadHandler in r <==> GuardPasses(tied, ownerAlive) && ready.readable && h.read
    ensures WriteHandler in r <==> GuardPasses(tied, ownerAlive) && ready.writable && h.write
    ensures CloseHandler in r <==> GuardPasses(tied, ownerAlive) && ready.hungUp && h.close
    ensures ErrorHandler in r <==> GuardPasses(tied, ownerAlive) && ready.failed && h.error
    ensures Ranked(ReadFirst, r)
  {
    if !GuardPasses(tied, ownerAlive) then []
    else
      InOrder(ready.readable && h.read, ReadHandler, ready.writable && h.write, WriteHandler,
              ready.hungUp && h.close, CloseHandler, ready.failed && h.error, ErrorHandler,
              ReadFirst)
  }

  /** The handlers of `s` appear in strictly increasing position of the order `o`. */
  predicate Ranked(o: DispatchOrder, s: seq<Handler>)
    decreases |s|
  {
    |s| <= 1 || (Rank(o, s[0]) < Rank(o, s[1]) && Ranked(o, s[1..]))
  }

  /** In a ranked sequence the head outranks nothing after it. */
  lemma {:induction false} RankedHeadBelow(o: DispatchOrder, s: seq<Handler>, k: nat)
    requires Ranked(o, s) && 0 < k < |s|
    ensures Rank(o, s[0]) < Rank(o, s[k])
    decreases k
  {
    if k > 1 {
      RankedHeadBelow(o, s[1..], k - 1);
    }
  }

  /** The handlers whose condition holds, in the order given, which the rank orders strictly. */
  function InOrder(c1: bool, h1: Handler, c2: bool, h2: Handler, c3: bool, h3: Handler, c4: bool, h4: Handler,
                   o: DispatchOrder): (r: seq<Handler>)
    requires Rank(o, h1) < Rank(o, h2) < Rank(o, h3) < Rank(o, h4)
    ensures h1 in r <==> c1
    ensures h2 in r <==> c2
    ensures h3 in r <==> c3
    ensures h4 in r <==> c4
    ensures Ranked(o, r)
  {
    var s1 := Opt(c1, h1);
    var s2 := s1 + Opt(c2, h2);
    var s3 := s2 + Opt(c3, h3);
    AppendRanked([], c1, h1, o);
    AppendRanked(s1, c2, h2, o);
    AppendRanked(s2, c3, h3, o);
    AppendRanked(s3, c4, h4, o);
    OptMembers(c1, h1, c2, h2, c3, h3, c4, h4, h1);
    OptMembers(c1, h1, c2, h2, c3, h3, c4, h4, h2);
    OptMembers(c1, h1, c2, h2, c3, h3, c4, h4, h3);
    OptMembers(c1, h1, c2, h2, c3, h3, c4, h4, h4);
    s3 + Opt(c4, h4)
  }

  /** A handler is among four optional ones exactly when one of them is it and is present. */
  lemma OptMembers(c1: bool, h1: Handler, c2: bool, h2: Handler, c3: bool, h3: Handler, c4: bool, h4: Handler,
                   y: Handler)
    ensures y in Opt(c1, h1) + Opt(c2, h2) + Opt(c3, h3) + Opt(c4, h4)
        <==> (c1 && y == h1) || (c2 && y == h2) || (c3 && y == h3) || (c4 && y == h4)
  {
  }

  /** Appending a handler that outranks the last one keeps the sequence strictly ordered. */
  lemma {:induction false} AppendRanked(s: seq<Handler>, c: bool, h: Handler, o: DispatchOrder)
    requires Ranked(o, s)
    requires s != [] ==> Rank(o, s[|s| - 1]) < Rank(o, h)
    ensures Ranked(o, s + Opt(c, h))
    ensures s + Opt(c, h) != [] ==> Rank(o, (s + Opt(c, h))[|s + Opt(c, h)| - 1]) <= Rank(o, h)
    decreases |s|
  {
    if !c {
      assert s + Opt(c, h) == s;
    } else if |s| == 1 {
      assert (s + [h])[1..] == [h];
    } else if |s| >= 2 {
      AppendRanked(s[1..], c, h, o);
      assert (s + [h])[1..] == s[1..] + [h];
    }
  }

  /** The two drafts invoke the same handlers; only the order differs. */
  lemma DraftsInvokeSameHandlers(ready: Readiness, h: Handlers, tied: bool, ownerAlive: bool)
    ensures multiset(CloseFirstDispatch(ready, h, tied, ownerAlive))
         == multiset(ReadFirstDispatch(ready, h, tied, ownerAlive))
  {
    var a := CloseFirstDispatch(ready, h, tied, ownerAlive);
    var b := ReadFirstDispatch(ready, h, tied, ownerAlive);
    forall x: Handler ensures multiset(a)[x] == multiset(b)[x] {
      AtMostOnce(a, CloseFirst, x);
      AtMostOnce(b, ReadFirst, x);
    }
  }

  /** In a sequence strictly ordered by a rank, each element occurs at most once. */
  lemma AtMostOnce(s: seq<Handler>, o: DispatchOrder, x: Handler)
    requires Ranked(o, s)
    ensures multiset(s)[x] == (if x in s then 1 else 0)
    decreases |s|
  {
    if s != [] {
      assert s == [s[0]] + s[1..];
      AtMostOnce(s[1..], o, x);
      if s[0] == x {
        assert x !in s[1..] by {
          forall k | 0 <= k < |s[1..]| ensures s[1..][k] != x {
            RankedHeadBelow(o, s, k + 1);
          }
        }
      }
    }
  }

  /** With both IN and ERR reported, the drafts run error and read in opposite orders. */
  lemma DraftsDisagreeOnErrorAndRead()
    ensures CloseFirstDispatch(Reported(EPOLLIN | EPOLLERR), Handlers(true, true, true, true), false, false)
         == [ErrorHandler, ReadHandler]
    ensures ReadFirstDispatch(Reported(EPOLLIN | EPOLLERR), Handlers(true, true, true, true), false, false)
         == [ReadHandler, ErrorHandler]
  {
  }

  class Channel {
    const fd: int
    var events: bv32
    var revents: bv32
    var index: int
    var tied: bool
    var handlers: Handlers
    ghost var requests: seq<LoopRequest>

    /** Channel(loop, fd): no interest, nothing reported, index kNew (-1), untied. */
    constructor (fd: int)
      ensures this.fd == fd && events == NoneEvent && revents == 0 && index == -1
      ensures !tied && handlers == Handlers(false, false, false, false) && requests == []
    {
      this.fd := fd;
      events := NoneEvent;
      revents := 0;
      index := -1;
      tied := false;
      handlers := Handlers(false, false, false, false);
      requests := [];
    }

    function IsNoneEvent(): (r: bool)
      reads this
      ensures r <==> events == NoneEvent
    {
      events == NoneEvent
    }

    function IsWriting(): (r: bool)
      reads this
      ensures r <==> IsWritingMask(events)
    {
      events & WriteEvent != 0
    }

    function IsReading(): (r: bool)
      reads this
      ensures r <==> IsReadingMask(events)
    {
      events & ReadEvent != 0
    }

    function Index(): int
      reads this
    {
      index
    }

    method SetIndex(idx: int)
      modifies this`index
      ensures index == idx
    {
      index := idx;
    }

    method SetRevents(revt: bv32)
      modifies this`revents
      ensures revents == revt
    {
      revents := revt;
    }

    method SetReadCallback(present: bool)
      modifies this`handlers
      ensures handlers == old(handlers).(read := present)
    {
      handlers := handlers.(read := present);
    }

    method SetWriteCallback(present: bool)
      modifies this`handlers
      ensures handlers == old(handlers).(write := present)
    {
      handlers := handlers.(write := present);
    }

    method SetCloseCallback(present: bool)
      modifies this`handlers
      ensures handlers == old(handlers).(close := present)
    {
      handlers := handlers.(close := present);
    }

    method SetErrorCallback(present: bool)
      modifies this`handlers
      ensures handlers == old(handlers).(error := present)
    {
      handlers := handlers.(error := present);
    }

    /** tie(obj): from now on every dispatch first checks that the owner is alive. */
    method Tie()
      modifies this`tied
      ensures tied
    {
      tied := true;
    }

    /** update(): the channel asks its loop to update its registration. */
    method Update()
      modifies this`requests
      ensures requests == old(requests) + [UpdateRequest(events)]
    {
      requests := requests + [UpdateRequest(events)];
    }

    /** remove(): the channel asks its loop to drop its registration. */
    method Remove()
      modifies this`requests
      ensures requests == old(requests) + [RemoveRequest]
    {
      requests := requests + [RemoveRequest];
    }

    method EnableReading()
      modifies this`events, this`requests
      ensures events == WithBits(old(events), ReadEvent)
      ensures requests == old(requests) + [UpdateRequest(events)]
    {
      events := WithBits(events, ReadEvent);
      Update();
    }

    method DisableReading()
      modifies this`events, this`requests
      ensures events == WithoutBits(old(events), ReadEvent)
      ensures requests == old(requests) + [UpdateRequest(events)]
    {
      events := WithoutBits(events, ReadEvent);
      Update();
    }

    method EnableWriting()
      modifies this`events, this`requests
      ensures events == WithBits(old(events), WriteEvent)
      ensures requests == old(requests) + [UpdateRequest(events)]
    {
      events := WithBits(events, WriteEvent);
      Update();
    }

    method DisableWriting()
      modifies this`events, this`requests
      ensures events == WithoutBits(old(events), WriteEvent)
      ensures requests == old(requests) + [UpdateRequest(events)]
    {
      events := WithoutBits(events, WriteEvent);
      Update();
    }

    method DisableAll()
      modifies this`events, this`requests
      ensures events == NoneEvent && IsNoneEvent()
      ensures requests == old(requests) + [UpdateRequest(NoneEvent)]
    {
      events := NoneEvent;
      Update();
    }

    /** handleEvent as src/Channel.cc writes it; ownerAlive is whether the tie still resolves. */
    method HandleEventCloseFirst(ownerAlive: bool) returns (invoked: seq<Handler>)
      ensures invoked == CloseFirstDispatch(Reported(revents), handlers, tied, ownerAlive)
    {
      invoked := [];
      var ready := Reported(revents);
      if !tied || ownerAlive {
        invoked := Opt(ready.hungUp && handlers.close, CloseHandler);
        invoked := invoked + Opt(ready.failed && handlers.error, ErrorHandler);
        invoked := invoked + Opt(ready.readable && handlers.read, ReadHandler);
        invoked := invoked + Opt(ready.writable && handlers.write, WriteHandler);
      }
    }

    /** handleEvent as src/Channel.cpp writes it. */
    method HandleEventReadFirst(ownerAlive: bool) returns (invoked: seq<Handler>)
      ensures invoked == ReadFirstDispatch(Reported(revents), handlers, tied, ownerAlive)
    {
      invoked := [];
      var ready := Reported(revents);
      if !tied || ownerAlive {
        invoked := Opt(ready.readable && handlers.read, ReadHandler);
        invoked := invoked + Opt(ready.writable && handlers.write, WriteHandler);
        invoked := invoked + Opt(ready.hungUp && handlers.close, CloseHandler);
        invoked := invoked + Opt(ready.failed && handlers.error, ErrorHandler);
      }
    }
  }
}
