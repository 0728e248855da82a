/**
 * The operating-system vocabulary the reactor core depends on: bytes, the
 * errno values it distinguishes, the Linux epoll event bits, and the results
 * of the read/write system calls, which the model takes as inputs.
 */
module Sys {

  /** One byte of a socket stream (a `char` of the buffers). */
  newtype byte = b: int | 0 <= b < 256

  datatype Option<T> = None | Some(value: T)

  /** errno values, with their Linux numbers. EWOULDBLOCK is EAGAIN on Linux. */
  const EINTR: int := 4
  const EAGAIN: int := 11
  const EWOULDBLOCK: int := EAGAIN
  const EPIPE: int := 32
  const ECONNRESET: int := 104

  /** Event bits of <sys/epoll.h>. */
  const EPOLLIN: bv32 := 0x001
  const EPOLLPRI: bv32 := 0x002
  const EPOLLOUT: bv32 := 0x004
  const EPOLLERR: bv32 := 0x008
  const EPOLLHUP: bv32 := 0x010

  /** What a read(v) call on a socket returned: the bytes delivered, or -1 with errno. */
  datatype ReadResult = ReadBytes(data: seq<byte>) | ReadFailed(errno: int)

  /** What a write call on a socket returned: the count the kernel accepted, or -1 with errno. */
  datatype WriteResult = Wrote(count: nat) | WriteFailed(errno: int)

  /** The raw return value of a read, as the C call reports it. */
  function ReadReturn(r: ReadResult): (n: int)
    ensures r.ReadBytes? <==> n >= 0
    ensures r.ReadBytes? ==> n == |r.data|
  {
    match r
    case ReadBytes(data) => |data|
    case ReadFailed(_) => -1
  }

  /** The raw return value of a write, as the C call reports it. */
  function WriteReturn(w: WriteResult): (n: int)
    ensures w.Wrote? <==> n >= 0
    ensures w.Wrote? ==> n == w.count
  {
    match w
    case Wrote(count) => count
    case WriteFailed(_) => -1
  }
}
