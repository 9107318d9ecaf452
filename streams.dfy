/**
 * The part of System.IO.Stream that the audio code relies on: a seekable
 * sequence of bytes with a read position, chunked reads, and Close.
 */
module Streams {
  import opened Bytes

  class Stream {
    /** The bytes the stream holds. */
    var data: seq<byte>
    /** Stream.Position; .NET lets it be set past the end. */
    var position: nat
    var closed: bool

    constructor (contents: seq<byte>)
      ensures data == contents && position == 0 && !closed
    {
      data := contents;
      position := 0;
      closed := false;
    }

    /** The Position setter. */
    method SetPosition(p: nat)
      modifies this`position
      ensures position == p
    {
      position := p;
    }

    /**
     * Stream.Read(buffer, offset, count). The contract is the one every
     * Stream promises: at most count bytes, the next bytes of the stream in
     * order, possibly fewer than asked for, and 0 only at the end of the
     * stream (or when count is 0). This body reads as much as it can, as
     * MemoryStream does.
     */
    method Read(buffer: array<byte>, offset: nat, count: nat) returns (n: nat)
      requires !closed
      requires offset + count <= buffer.Length
      modifies this`position, buffer
      ensures n <= count
      ensures n == 0 ==> count == 0 || old(position) >= |data|
      ensures n > 0 ==> old(position) + n <= |data|
      ensures n > 0 ==> buffer[offset..offset + n] == data[old(position)..old(position) + n]
      ensures position == old(position) + n
      ensures buffer[..offset] == old(buffer[..offset])
      ensures buffer[offset + n..] == old(buffer[offset + n..])
    {
      var start := position;
      var available := if start < |data| then |data| - start else 0;
      n := if count < available then count else available;
      var k := 0;
      while k < n
        invariant 0 <= k <= n
        invariant position == start
        invariant n > 0 ==> buffer[offset..offset + k] == data[start..start + k]
        invariant buffer[..offset] == old(buffer[..offset])
        invariant buffer[offset + k..] == old(buffer[offset + k..])
      {
        buffer[offset + k] := data[start + k];
        k := k + 1;
      }
      position := start + n;
    }

    /** Stream.Close. */
    method Close()
      modifies this`closed
      ensures closed
    {
      closed := true;
    }
  }
}
