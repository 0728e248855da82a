/**
 * The Buffer class: the byte vector and its two cursors, updated in place.
 * Every method is specified by the matching function of BufferModel on the
 * state before and after the call.
 */
module Buffers {
  import opened Sys
  import BM = BufferModel

  class Buffer {
    var storage: seq<byte>
    var readIndex: nat
    var writeIndex: nat

    /** The fields as a value. */
    function State(): BM.BufferState
      reads this
    {
      BM.BufferState(storage, readIndex, writeIndex)
    }

    ghost predicate Valid()
      reads this
    {
      State().Valid()
    }

    /** peek(): the readable region, read without moving the read cursor. */
    function Peek(): (s: seq<byte>)
      reads this
      requires Valid()
      ensures s == storage[readIndex..writeIndex]
      ensures |s| == ReadableBytes()
    {
      State().Readable()
    }

    function ReadableBytes(): nat
      reads this
      requires Valid()
    {
      State().ReadableBytes()
    }

    function WriteableBytes(): nat
      reads this
      requires Valid()
    {
      State().WriteableBytes()
    }

    function PrependableBytes(): nat
      reads this
      requires Valid()
    {
      State().PrependableBytes()
    }

    constructor ()
      ensures Valid() && State() == BM.Initial()
    {
      storage := BM.Zeros(BM.CheapPrepend + BM.InitialSize);
      readIndex := BM.CheapPrepend;
      writeIndex := BM.CheapPrepend;
    }

    method Append(data: seq<byte>)
      requires Valid()
      modifies this
      ensures Valid() && State() == BM.Append(old(State()), data)
      ensures Peek() == old(Peek()) + data
    {
      if WriteableBytes() < |data| {
        MakeSpace(|data|);
      }
      storage := BM.Overwrite(storage, writeIndex, data);
      writeIndex := writeIndex + |data|;
    }

    method Retrieve(len: nat)
      requires Valid()
      modifies this
      ensures Valid() && State() == BM.Retrieve(old(State()), len)
    {
      if len < ReadableBytes() {
        readIndex := readIndex + len;
      } else {
        RetrieveAll();
      }
    }

    method RetrieveAll()
      requires Valid()
      modifies this
      ensures Valid() && State() == BM.RetrieveAll(old(State()))
    {
      readIndex := BM.CheapPrepend;
      writeIndex := BM.CheapPrepend;
    }

    method RetrieveAsString(len: nat) returns (s: seq<byte>)
      requires Valid() && len <= ReadableBytes()
      modifies this
      ensures Valid()
      ensures BM.Taken(s, State()) == BM.RetrieveAsString(old(State()), len)
    {
      s := Peek()[..len];
      Retrieve(len);
    }

    method RetrieveAllAsString() returns (s: seq<byte>)
      requires Valid()
      modifies this
      ensures Valid()
      ensures BM.Taken(s, State()) == BM.RetrieveAllAsString(old(State()))
    {
      s := RetrieveAsString(ReadableBytes());
    }

    method MakeSpace(len: nat)
      requires Valid()
      modifies this
      ensures Valid() && State() == BM.MakeSpace(old(State()), len)
    {
      if PrependableBytes() + WriteableBytes() - BM.CheapPrepend >= len {
        var readable := ReadableBytes();
        storage := BM.Overwrite(storage, BM.CheapPrepend, storage[readIndex..writeIndex]);
        readIndex := BM.CheapPrepend;
        writeIndex := readIndex + readable;
      } else {
        storage := BM.Resize(storage, writeIndex + len);
      }
    }

    /**
     * readFd with the readv result as input. The bytes that fit go straight
     * into the writable tail; the rest came through the scratch area and
     * are appended.
     */
    method ReadFd(input: ReadResult, savedErrno: int) returns (n: int, errnoOut: int)
      requires Valid()
      requires input.ReadBytes? ==> |input.data| <= BM.ReadCapacity(WriteableBytes())
      modifies this
      ensures Valid()
      ensures BM.ReadOutcome(n, errnoOut, State()) == BM.ReadFd(old(State()), input, savedErrno)
    {
      errnoOut := savedErrno;
      var writeable := WriteableBytes();
      match input
      case ReadFailed(e) =>
        n := -1;
        errnoOut := e;
      case ReadBytes(data) =>
        n := |data|;
        if |data| <= writeable {
          storage := BM.Overwrite(storage, writeIndex, data);
          writeIndex := writeIndex + |data|;
        } else {
          storage := BM.Overwrite(storage, writeIndex, data[..writeable]);
          writeIndex := |storage|;
          Append(data[writeable..]);
        }
    }

    /**
     * writeFd with the write result as input: the readable region is offered
     * to the kernel and neither cursor moves, whatever was accepted.
     */
    method WriteFd(result: WriteResult, savedErrno: int) returns (n: int, errnoOut: int)
      requires Valid()
      requires result.Wrote? ==> result.count <= ReadableBytes()
      ensures n == WriteReturn(result)
      ensures 0 <= n ==> n <= ReadableBytes() && errnoOut == savedErrno
      ensures n < 0 ==> errnoOut == result.errno
    {
      n := WriteReturn(result);
      errnoOut := savedErrno;
      if n < 0 {
        errnoOut := result.errno;
      }
    }
  }
}
