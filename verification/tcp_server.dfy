/**
 * The TCP server of src/TcpServer.cpp: the registry of connections by name,
 * the naming of new connections, the one-time start, and the removal and
 * destruction of connections through their loops' task queues.
 *
 * The acceptor, the sockets and the thread pool are not modelled: the
 * accepted fd and the loop the pool hands out are inputs of newConnection,
 * and a thread is identified with the loop it runs, so "the caller is on
 * loop L's thread" is a boolean input or a comparison with `current`.
 * Connections are those of src/TcpConnnection.cpp, whose constructor
 * argument order the server uses.
 */
module TcpServers {
  import opened Sys
  import opened EventLoops
  import opened ConnectionModel
  import opened DraftConnections

  /** The size of the snprintf buffer that holds the name suffix, terminating NUL included. */
  const SuffixBufferSize: nat := 32

  function DigitChar(d: nat): (c: char)
    requires d < 10
    ensures '0' <= c <= '9'
  {
    (48 + d) as char
  }

  predicate IsDigits(s: string)
  {
    forall i :: 0 <= i < |s| ==> '0' <= s[i] <= '9'
  }

  /** "%d" of a non-negative id: its decimal digits, no leading zero. */
  function Decimal(n: nat): (s: string)
    ensures |s| >= 1 && IsDigits(s)
    ensures |s| > 1 ==> s[0] != '0'
    decreases n
  {
    if n < 10 then [DigitChar(n)] else Decimal(n / 10) + [DigitChar(n % 10)]
  }

  /** The value a string of decimal digits denotes. */
  function DecimalValue(s: string): nat
    requires IsDigits(s)
    decreases |s|
  {
    if s == [] then 0 else DecimalValue(s[..|s| - 1]) * 10 + (s[|s| - 1] as int - 48)
  }

  /** Reading back the digits of an id gives the id. */
  lemma {:induction false} DecimalRoundTrip(n: nat)
    ensures DecimalValue(Decimal(n)) == n
    decreases n
  {
    if n >= 10 {
      DecimalRoundTrip(n / 10);
      var s := Decimal(n);
      assert s[..|s| - 1] == Decimal(n / 10);
    }
  }

  lemma DecimalInjective(a: nat, b: nat)
    requires Decimal(a) == Decimal(b)
    ensures a == b
  {
    DecimalRoundTrip(a);
    DecimalRoundTrip(b);
  }

  /** The suffix newConnection formats: "-" + ipPort + "#" + id. */
  function FullSuffix(ipPort: string, id: nat): string
  {
    "-" + ipPort + "#" + Decimal(id)
  }

  /** snprintf into a buffer of `size` bytes keeps at most size - 1 characters. */
  function Truncated(s: string, size: nat): (t: string)
    requires size >= 1
    ensures t <= s
    ensures |t| == if |s| < size then |s| else size - 1
  {
    if |s| < size then s else s[..size - 1]
  }

  /** The name of a new connection as newConnection builds it, with the suffix cut to 31 characters. */
  function ConnName(name: string, ipPort: string, id: nat): (n: string)
    ensures |FullSuffix(ipPort, id)| < SuffixBufferSize ==> n == name + FullSuffix(ipPort, id)
    ensures |n| <= |name| + SuffixBufferSize - 1
  {
    name + Truncated(FullSuffix(ipPort, id), SuffixBufferSize)
  }

  /** The name without the truncation. */
  function FullConnName(name: string, ipPort: string, id: nat): string
  {
    name + FullSuffix(ipPort, id)
  }

  lemma SuffixDetermined(ipPort: string, a: nat, b: nat)
    requires FullSuffix(ipPort, a) == FullSuffix(ipPort, b)
    ensures a == b
  {
    var k := |"-" + ipPort + "#"|;
    assert Decimal(a) == FullSuffix(ipPort, a)[k..];
    assert Decimal(b) == FullSuffix(ipPort, b)[k..];
    DecimalInjective(a, b);
  }

  /** Untruncated names never collide: distinct ids give distinct names. */
  lemma FullConnNamesDistinct(name: string, ipPort: string, a: nat, b: nat)
    requires a != b
    ensures FullConnName(name, ipPort, a) != FullConnName(name, ipPort, b)
  {
    if FullConnName(name, ipPort, a) == FullConnName(name, ipPort, b) {
      assert FullSuffix(ipPort, a) == FullConnName(name, ipPort, a)[|name|..];
      assert FullSuffix(ipPort, b) == FullConnName(name, ipPort, b)[|name|..];
      SuffixDetermined(ipPort, a, b);
    }
  }

  /** As written, names are distinct as long as both suffixes fit the buffer. */
  lemma ConnNamesDistinctWhileTheyFit(name: string, ipPort: string, a: nat, b: nat)
    requires a != b
    requires |FullSuffix(ipPort, a)| < SuffixBufferSize && |FullSuffix(ipPort, b)| < SuffixBufferSize
    ensures ConnName(name, ipPort, a) != ConnName(name, ipPort, b)
  {
    FullConnNamesDistinct(name, ipPort, a, b);
  }

  /**
   * With the longest IPv4 "ip:port" the suffix keeps eight digits of the
   * id, so connections 100000000 and 100000001 get the same name and the
   * second replaces the first in the registry.
   */
  lemma TruncatedNamesCollide()
    ensures ConnName("srv", "255.255.255.255:65535", 100000000)
         == ConnName("srv", "255.255.255.255:65535", 100000001)
    ensures FullConnName("srv", "255.255.255.255:65535", 100000000)
         != FullConnName("srv", "255.255.255.255:65535", 100000001)
  {
    var ipPort := "255.255.255.255:65535";
    var d8 := Decimal(10000000);
    NineDigitIds();
    var head := "-" + ipPort + "#";
    assert |head| == 23;
    assert FullSuffix(ipPort, 100000000) == head + d8 + ['0'];
    assert FullSuffix(ipPort, 100000001) == head + d8 + ['1'];
    assert (head + d8 + ['0'])[..31] == head + d8;
    assert (head + d8 + ['1'])[..31] == head + d8;
    FullConnNamesDistinct("srv", ipPort, 100000000, 100000001);
  }

  lemma NineDigitIds()
    ensures Decimal(100000000) == Decimal(10000000) + ['0']
    ensures Decimal(100000001) == Decimal(10000000) + ['1']
    ensures |Decimal(10000000)| == 8
  {
    DecimalSnoc(10000000, 0);
    DecimalSnoc(10000000, 1);
    assert Pow10(7) == 10000000 by {
      assert Pow10(1) == 10 && Pow10(2) == 100 && Pow10(3) == 1000 && Pow10(4) == 10000;
      assert Pow10(5) == 100000 && Pow10(6) == 1000000;
    }
    assert Pow10(8) == 100000000;
    DecimalLength(10000000, 8);
  }

  /** Appending a digit to an id's decimal form multiplies it by ten and adds the digit. */
  lemma DecimalSnoc(k: nat, d: nat)
    requires k >= 1 && d < 10
    ensures Decimal(10 * k + d) == Decimal(k) + [DigitChar(d)]
  {
    assert (10 * k + d) / 10 == k && (10 * k + d) % 10 == d;
  }

  function Pow10(k: nat): (p: nat)
    ensures p >= 1
  {
    if k == 0 then 1 else 10 * Pow10(k - 1)
  }

  /** An id from 10^(k-1) up to 10^k - 1 has k digits. */
  lemma {:induction false} DecimalLength(n: nat, k: nat)
    requires k >= 1 && Pow10(k - 1) <= n < Pow10(k)
    ensures |Decimal(n)| == k
    decreases k
  {
    if k > 1 {
      assert Pow10(k - 2) <= n / 10 < Pow10(k - 1);
      DecimalLength(n / 10, k - 1);
    }
  }

  /** Strict lexicographic order on names: the iteration order of std::map<std::string, ...>. */
  predicate NameLess(a: string, b: string)
    decreases |a|
  {
    (a == [] && b != []) || (a != [] && b != [] && (a[0] < b[0] || (a[0] == b[0] && NameLess(a[1..], b[1..]))))
  }

  /** The loops the registered connections run on. */
  function LoopsOf(conns: map<string, TcpConnection>): set<EventLoop>
  {
    set n | n in conns :: conns[n].loop
  }

  /** The connectDestroyed tasks the destructor sends to loop `l`, in iteration order. */
  function DestroyTasksFor(order: seq<string>, conns: map<string, TcpConnection>, l: EventLoop): (ts: seq<Task>)
    ensures |ts| <= |order|
    decreases |order|
  {
    if order == [] then []
    else
      var n := order[|order| - 1];
      DestroyTasksFor(order[..|order| - 1], conns, l)
      + (if n in conns && conns[n].loop == l then [ConnectDestroyedTask(n)] else [])
  }

  /** Each loop is sent only connectDestroyed tasks, one per registered connection living on it. */
  lemma {:induction false} DestroyTasksOnlyFor(order: seq<string>, conns: map<string, TcpConnection>, l: EventLoop)
    ensures forall t :: t in DestroyTasksFor(order, conns, l) ==>
      t.ConnectDestroyedTask? && t.conn in order && t.conn in conns && conns[t.conn].loop == l
    decreases |order|
  {
    if order != [] {
      var prefix := order[..|order| - 1];
      DestroyTasksOnlyFor(prefix, conns, l);
      assert forall n :: n in prefix ==> n in order;
    }
  }

  /** No name occurs twice in `order`, as with the keys of a std::map. */
  predicate NoRepeats(order: seq<string>)
  {
    forall i, j :: 0 <= i < j < |order| ==> order[i] != order[j]
  }

  /** No name sorts before itself, so an order sorted by NameLess has no repeats. */
  lemma {:induction false} NameLessIrreflexive(a: string)
    ensures !NameLess(a, a)
    decreases |a|
  {
    if a != [] {
      NameLessIrreflexive(a[1..]);
    }
  }

  /** A name order sorted by NameLess has no repeats. */
  lemma SortedNoRepeats(order: seq<string>)
    requires forall i, j :: 0 <= i < j < |order| ==> NameLess(order[i], order[j])
    ensures NoRepeats(order)
  {
    forall i, j | 0 <= i < j < |order|
      ensures order[i] != order[j]
    {
      NameLessIrreflexive(order[i]);
    }
  }

  /**
   * When no name repeats, the destructor sends the loop of each registered
   * connection exactly one connectDestroyed task for it, and none for a
   * connection it does not iterate over.
   */
  lemma {:induction false} DestroyTasksEveryOnce(order: seq<string>, conns: map<string, TcpConnection>, n: string)
    requires NoRepeats(order) && n in conns
    ensures multiset(DestroyTasksFor(order, conns, conns[n].loop))[ConnectDestroyedTask(n)]
         == if n in order then 1 else 0
    decreases |order|
  {
    if order != [] {
      var prefix, last := order[..|order| - 1], order[|order| - 1];
      assert NoRepeats(prefix);
      DestroyTasksEveryOnce(prefix, conns, n);
      var tail := if last in conns && conns[last].loop == conns[n].loop then [ConnectDestroyedTask(last)] else [];
      assert multiset(DestroyTasksFor(order, conns, conns[n].loop))
          == multiset(DestroyTasksFor(prefix, conns, conns[n].loop)) + multiset(tail);
      assert order == prefix + [last];
      if last == n {
        assert n !in prefix;
      } else {
        assert n in order <==> n in prefix;
      }
    }
  }

  /** The task one destructor iteration sends to loop `l`. */
  function DestroyTaskAt(order: seq<string>, i: nat, conns: map<string, TcpConnection>, l: EventLoop): seq<Task>
    requires i < |order|
  {
    if order[i] in conns && conns[order[i]].loop == l then [ConnectDestroyedTask(order[i])] else []
  }

  lemma DestroyTasksStep(before: seq<Task>, order: seq<string>, i: nat, conns: map<string, TcpConnection>, l: EventLoop)
    requires i < |order|
    ensures before + DestroyTasksFor(order[..i + 1], conns, l)
         == (before + DestroyTasksFor(order[..i], conns, l)) + DestroyTaskAt(order, i, conns, l)
    ensures |DestroyTasksFor(order[..i + 1], conns, l)|
         == |DestroyTasksFor(order[..i], conns, l)| + |DestroyTaskAt(order, i, conns, l)|
  {
    assert order[..i + 1][..i] == order[..i];
  }

  /** One iteration of the destructor: the connection's loop runs connectDestroyed, at once if it is `current`. */
  method DestroyOne(order: seq<string>, i: nat, conns: map<string, TcpConnection>, loops: set<EventLoop>, current: EventLoop)
    requires i < |order| && order[i] in conns && conns[order[i]].loop in loops
    modifies loops`pending, loops`wakeups, loops`executed
    ensures forall l :: l in loops && l != current ==>
      && l.pending == old(l.pending) + DestroyTaskAt(order, i, conns, l)
      && l.wakeups == old(l.wakeups) + |DestroyTaskAt(order, i, conns, l)|
      && l.executed == old(l.executed)
    ensures current in loops ==>
      && current.executed == old(current.executed) + DestroyTaskAt(order, i, conns, current)
      && current.pending == old(current.pending) && current.wakeups == old(current.wakeups)
  {
    var c := conns[order[i]];
    var ranNow := c.loop.RunInLoop(ConnectDestroyedTask(order[i]), c.loop == current);
  }

  /** The destructor's loop over the registry, in the given order. */
  method DestroyAll(order: seq<string>, conns: map<string, TcpConnection>, loops: set<EventLoop>, current: EventLoop)
    requires forall n :: n in order ==> n in conns && conns[n].loop in loops
    modifies loops`pending, loops`wakeups, loops`executed
    ensures forall l :: l in loops && l != current ==>
      && l.pending == old(l.pending) + DestroyTasksFor(order, conns, l)
      && l.wakeups == old(l.wakeups) + |DestroyTasksFor(order, conns, l)|
      && l.executed == old(l.executed)
    ensures current in loops ==>
      && current.executed == old(current.executed) + DestroyTasksFor(order, conns, current)
      && current.pending == old(current.pending) && current.wakeups == old(current.wakeups)
    ensures NoRepeats(order) ==> forall n :: n in order ==>
      multiset(DestroyTasksFor(order, conns, conns[n].loop))[ConnectDestroyedTask(n)] == 1
  {
    var i := 0;
    while i < |order|
      invariant 0 <= i <= |order|
      invariant forall l :: l in loops && l != current ==>
        && l.pending == old(l.pending) + DestroyTasksFor(order[..i], conns, l)
        && l.wakeups == old(l.wakeups) + |DestroyTasksFor(order[..i], conns, l)|
        && l.executed == old(l.executed)
      invariant current in loops ==>
        && current.executed == old(current.executed) + DestroyTasksFor(order[..i], conns, current)
        && current.pending == old(current.pending) && current.wakeups == old(current.wakeups)
      modifies loops`pending, loops`wakeups, loops`executed
    {
      DestroyOne(order, i, conns, loops, current);
      forall l | l in loops && l != current
        ensures l.pending == old(l.pending) + DestroyTasksFor(order[..i + 1], conns, l)
        ensures l.wakeups == old(l.wakeups) + |DestroyTasksFor(order[..i + 1], conns, l)|
      {
        DestroyTasksStep(old(l.pending), order, i, conns, l);
      }
      if current in loops {
        DestroyTasksStep(old(current.executed), order, i, conns, current);
      }
      i := i + 1;
    }
    assert order[..i] == order;
    if NoRepeats(order) {
      forall n | n in order
        ensures multiset(DestroyTasksFor(order, conns, conns[n].loop))[ConnectDestroyedTask(n)] == 1
      {
        DestroyTasksEveryOnce(order, conns, n);
      }
    }
  }

  class TcpServer {
    const loop: EventLoop
    const ipPort: string
    const name: string
    var connections: map<string, TcpConnection>
    var nextConnId: nat
    var started: nat
    var numThreads: int
    var writeCompleteCallback: bool
    ghost var poolStarts: nat

    /** Every connection is filed under its own name; the pool has started exactly when start was called. */
    ghost predicate Valid()
      reads this, connections.Values
    {
      && (forall n :: n in connections ==> connections[n].name == n)
      && nextConnId >= 1
      && poolStarts == (if started > 0 then 1 else 0)
    }

    /** The constructor: no connections, ids from 1, not started. */
    constructor (loop: EventLoop, ipPort: string, name: string)
      ensures Valid()
      ensures this.loop == loop && this.ipPort == ipPort && this.name == name
      ensures connections == map[] && nextConnId == 1 && started == 0 && numThreads == 0
      ensures !writeCompleteCallback && poolStarts == 0
    {
      this.loop := loop;
      this.ipPort := ipPort;
      this.name := name;
      connections := map[];
      nextConnId := 1;
      started := 0;
      numThreads := 0;
      writeCompleteCallback := false;
      poolStarts := 0;
    }

    method SetWriteCompleteCallback(present: bool)
      modifies this`writeCompleteCallback
      ensures writeCompleteCallback == present
    {
      writeCompleteCallback := present;
    }

    method SetThreadNum(n: int)
      modifies this`numThreads
      ensures numThreads == n
    {
      numThreads := n;
    }

    /** start: only the first call starts the pool and has the base loop listen. */
    method Start(isOwner: bool)
      requires Valid()
      modifies this`started, this`poolStarts, loop`pending, loop`wakeups, loop`executed
      ensures Valid()
      ensures started == old(started) + 1 && poolStarts == 1
      ensures old(started) == 0 ==>
        && (isOwner ==> loop.executed == old(loop.executed) + [ListenTask] && loop.pending == old(loop.pending))
        && (!isOwner ==> loop.pending == old(loop.pending) + [ListenTask] && loop.executed == old(loop.executed))
        && loop.wakeups == old(loop.wakeups) + (if isOwner then 0 else 1)
      ensures old(started) > 0 ==>
        loop.pending == old(loop.pending) && loop.executed == old(loop.executed) && loop.wakeups == old(loop.wakeups)
    {
      var previous := started;
      started := started + 1;
      if previous == 0 {
        poolStarts := poolStarts + 1;
        var ranNow := loop.RunInLoop(ListenTask, isOwner);
      }
    }

    /**
     * newConnection: name the connection, file it under that name, pass on
     * the writeComplete callback and have its loop run connectEstablished.
     * `ioLoop` is the loop the pool hands out; `onIoLoop` says whether the
     * caller is on its thread.
     */
    method NewConnection(sockfd: int, ioLoop: EventLoop, onIoLoop: bool) returns (conn: TcpConnection)
      requires Valid()
      modifies this`connections, this`nextConnId, ioLoop`pending, ioLoop`wakeups, ioLoop`executed
      ensures Valid()
      ensures fresh(conn) && conn.loop == ioLoop && conn.channel.fd == sockfd
      ensures conn.name == ConnName(name, ipPort, old(nextConnId))
      ensures connections == old(connections)[conn.name := conn]
      ensures nextConnId == old(nextConnId) + 1
      ensures conn.callbacks.writeComplete == writeCompleteCallback
      ensures onIoLoop ==>
        && conn.state == ConnState.Connected && conn.channel.IsReading()
        && ioLoop.executed == old(ioLoop.executed) + [ConnectEstablishedTask(conn.name)]
        && ioLoop.pending == old(ioLoop.pending)
      ensures !onIoLoop ==>
        && conn.state == Connecting
        && ioLoop.pending == old(ioLoop.pending) + [ConnectEstablishedTask(conn.name)]
        && ioLoop.executed == old(ioLoop.executed)
      ensures ioLoop.wakeups == old(ioLoop.wakeups) + (if onIoLoop then 0 else 1)
    {
      var connName := name + Truncated(FullSuffix(ipPort, nextConnId), SuffixBufferSize);
      nextConnId := nextConnId + 1;
      conn := new TcpConnection(ioLoop, sockfd, connName);
      connections := connections[connName := conn];
      conn.SetWriteCompleteCallback(writeCompleteCallback);
      var ranNow := ioLoop.RunInLoop(ConnectEstablishedTask(connName), onIoLoop);
      if ranNow {
        conn.ConnectionEstablished();
      }
    }

    /** removeConnectionInLoop: drop the name from the registry and queue connectDestroyed on the connection's loop. */
    method RemoveConnectionInLoop(conn: TcpConnection, onConnLoop: bool)
      requires Valid()
      modifies this`connections, conn.loop`pending, conn.loop`wakeups
      ensures Valid()
      ensures connections == old(connections) - {conn.name}
      ensures conn.name !in connections
      ensures forall n :: n in connections ==> connections[n] != conn
      ensures conn.loop.pending == old(conn.loop.pending) + [ConnectDestroyedTask(conn.name)]
      ensures conn.loop.wakeups == old(conn.loop.wakeups) + (if !onConnLoop || conn.loop.callingPendingFunctors then 1 else 0)
    {
      connections := connections - {conn.name};
      conn.loop.QueueInLoop(ConnectDestroyedTask(conn.name), onConnLoop);
    }

    /** removeConnection: hand removeConnectionInLoop to the base loop; on its thread it runs at once. */
    method RemoveConnection(conn: TcpConnection, onBaseLoop: bool, onConnLoop: bool)
      requires Valid()
      requires onBaseLoop && conn.loop == loop ==> onConnLoop
      modifies this`connections, loop`pending, loop`wakeups, loop`executed, conn.loop`pending, conn.loop`wakeups
      ensures Valid()
      ensures onBaseLoop ==>
        && connections == old(connections) - {conn.name}
        && loop.executed == old(loop.executed) + [RemoveConnectionInLoopTask(conn.name)]
        && conn.loop.pending == old(conn.loop.pending) + [ConnectDestroyedTask(conn.name)]
        && conn.loop.wakeups == old(conn.loop.wakeups) + (if !onConnLoop || conn.loop.callingPendingFunctors then 1 else 0)
      ensures onBaseLoop && conn.loop != loop ==> loop.pending == old(loop.pending) && loop.wakeups == old(loop.wakeups)
      ensures !onBaseLoop ==>
        && connections == old(connections)
        && loop.pending == old(loop.pending) + [RemoveConnectionInLoopTask(conn.name)]
        && loop.executed == old(loop.executed)
        && loop.wakeups == old(loop.wakeups) + 1
      ensures !onBaseLoop && conn.loop != loop ==>
        conn.loop.pending == old(conn.loop.pending) && conn.loop.wakeups == old(conn.loop.wakeups)
    {
      var ranNow := loop.RunInLoop(RemoveConnectionInLoopTask(conn.name), onBaseLoop);
      if ranNow {
        RemoveConnectionInLoop(conn, onConnLoop);
      }
    }

    /**
     * The destructor: in name order, have each connection's loop run
     * connectDestroyed, at once when that loop is `current` (the loop whose
     * thread runs the destructor), otherwise queued; the registry is emptied.
     */
    method Destroy(order: seq<string>, current: EventLoop)
      requires forall n :: n in order <==> n in connections
      requires forall i, j :: 0 <= i < j < |order| ==> NameLess(order[i], order[j])
      modifies this`connections, LoopsOf(connections)`pending, LoopsOf(connections)`wakeups, LoopsOf(connections)`executed
      ensures connections == map[]
      ensures forall l :: l in old(LoopsOf(connections)) && l != current ==>
        && l.pending == old(l.pending) + DestroyTasksFor(order, old(connections), l)
        && l.wakeups == old(l.wakeups) + |DestroyTasksFor(order, old(connections), l)|
        && l.executed == old(l.executed)
      ensures current in old(LoopsOf(connections)) ==>
        && current.executed == old(current.executed) + DestroyTasksFor(order, old(connections), current)
        && current.pending == old(current.pending) && current.wakeups == old(current.wakeups)
      ensures forall n :: n in old(connections) ==>
        multiset(DestroyTasksFor(order, old(connections), old(connections)[n].loop))[ConnectDestroyedTask(n)] == 1
    {
      SortedNoRepeats(order);
      DestroyAll(order, connections, LoopsOf(connections), current);
      connections := map[];
    }
  }
}
