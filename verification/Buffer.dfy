/** The read and write buffer of a connection: a growing array with two indices, used as a byte
    queue. `Contents` is the queue; every method says what it does to it. */
module Buffer {
  import opened Bytes
  import opened Socket

  const BUFFER_SIZE := 1024
  const EXTRA_SIZE := 65536

  function Max(a: nat, b: nat): nat { if a < b then b else a }

  class Buffer {
    var buf: array<char>
    var readIdx: nat
    var writeIdx: nat
    ghost var peak: nat   // the largest number of readable bytes there has been

    /** The indices are in order, an empty queue sits at the front, so a view from `readIdx` starts
        inside the array, and the array is never more than twice the largest queue it has held. */
    ghost predicate Valid()
      reads this
    {
      && readIdx <= writeIdx <= buf.Length
      && (readIdx == writeIdx ==> readIdx == 0)
      && readIdx < buf.Length
      && writeIdx - readIdx <= peak
      && BUFFER_SIZE <= buf.Length <= Max(BUFFER_SIZE, 2 * peak)
    }

    ghost function Contents(): bytes
      reads this, buf
      requires Valid()
    {
      buf[readIdx..writeIdx]
    }

    constructor ()
      ensures Valid() && fresh(buf) && Contents() == [] && peak == 0
    {
      buf := new char[BUFFER_SIZE](_ => 0 as char);
      readIdx, writeIdx, peak := 0, 0, 0;
    }

    function Readable(): nat
      reads this
      requires Valid()
    {
      writeIdx - readIdx
    }

    function Writable(): nat
      reads this
      requires Valid()
    {
      buf.Length - writeIdx
    }

    method Peek() returns (s: bytes)
      requires Valid()
      ensures s == Contents()
    {
      s := buf[readIdx..writeIdx];
    }

    /** Moves the readable bytes to the front, first byte first, over whatever they overlap. */
    method Compact()
      requires Valid()
      modifies this`readIdx, this`writeIdx, buf
      ensures Valid() && Contents() == old(Contents()) && readIdx == 0
    {
      var n := writeIdx - readIdx;
      ghost var was := buf[..];
      for i := 0 to n
        modifies buf
        invariant forall j :: 0 <= j < i ==> buf[j] == was[readIdx + j]
        invariant forall j :: i <= j < buf.Length ==> buf[j] == was[j]
      {
        buf[i] := buf[readIdx + i];
      }
      readIdx, writeIdx := 0, n;
    }

    /** `std::vector::resize` to a larger size. */
    method Resize(size: nat)
      requires Valid() && buf.Length <= size
      modifies this`buf
      ensures fresh(buf) && buf.Length == size
      ensures buf[readIdx..writeIdx] == old(Contents())
    {
      var bigger := new char[size](_ => 0 as char);
      forall i | 0 <= i < buf.Length { bigger[i] := buf[i]; }
      buf := bigger;
    }

    /** Stores bytes in the free space behind the readable ones. */
    method Fill(s: bytes)
      requires Valid() && |s| <= Writable()
      modifies this`writeIdx, this`peak, buf
      ensures Valid() && Contents() == old(Contents()) + s
      ensures peak == Max(old(peak), |Contents()|) && writeIdx == old(writeIdx) + |s|
    {
      forall i | 0 <= i < |s| { buf[writeIdx + i] := s[i]; }
      writeIdx := writeIdx + |s|;
      peak := Max(peak, writeIdx - readIdx);
    }

    /** Appends `s`. The variant says that the recursion ends within one extra call. */
    method DataIn(s: bytes)
      requires Valid()
      modifies this, buf
      ensures Valid() && (buf == old(buf) || fresh(buf))
      ensures Contents() == old(Contents()) + s
      ensures peak == Max(old(peak), |Contents()|)
      decreases if |s| <= Writable() then 0 else 1
    {
      if |s| <= buf.Length - writeIdx {
        Fill(s);
      } else if |s| <= buf.Length - writeIdx + readIdx {
        Compact();
        DataIn(s);
      } else {
        peak := Max(peak, writeIdx - readIdx + |s|);
        Resize(writeIdx + |s|);
        DataIn(s);
      }
    }

    method DataOut(count: nat) returns (s: bytes)
      requires Valid() && count <= |Contents()|
      modifies this`readIdx, this`writeIdx
      ensures Valid() && s == old(Contents())[..count] && Contents() == old(Contents())[count..]
    {
      s := buf[readIdx..readIdx + count];
      Retrieve(count);
    }

    /** One `readv` into the free space and a 64 KB spill area. */
    method SckToBuffer(sck: Socket) returns (r: ReadOutcome)
      requires Valid()
      modifies this, buf, sck`readScript
      ensures Valid() && (buf == old(buf) || fresh(buf))
      ensures Delivery(r, sck.readScript) == Deliver(old(sck.readScript), old(Writable()) + EXTRA_SIZE)
      ensures Contents() == old(Contents()) + if r.Got? then r.data else []
      ensures peak == Max(old(peak), |Contents()|)
    {
      r := sck.Readv(buf.Length - writeIdx + EXTRA_SIZE);
      if r.Got? {
        Absorb(r.data);
      }
    }

    /** Where `readv` put the bytes: the free space first, then the spill area, which is appended. */
    method Absorb(data: bytes)
      requires Valid()
      modifies this, buf
      ensures Valid() && (buf == old(buf) || fresh(buf))
      ensures Contents() == old(Contents()) + data
      ensures peak == Max(old(peak), |Contents()|)
    {
      var writable := buf.Length - writeIdx;
      if |data| <= writable {
        Fill(data);
      } else {
        Fill(data[..writable]);
        assert data == data[..writable] + data[writable..];
        DataIn(data[writable..]);
      }
    }

    /** One `write` of the first `count` bytes; only what the kernel took leaves the queue. */
    method BufferToSck(sck: Socket, count: nat) returns (r: WriteOutcome)
      requires Valid() && 1 <= count <= |Contents()|
      modifies this`readIdx, this`writeIdx, sck`writeScript, sck`sent
      ensures Acceptance(r, sck.writeScript) == Accept(old(sck.writeScript), count)
      ensures Valid() && Taken(r) <= count
      ensures sck.sent == old(sck.sent) + old(Contents())[..Taken(r)]
      ensures Contents() == old(Contents())[Taken(r)..]
    {
      ghost var was := Contents();
      r := sck.SckWrite(buf[readIdx..readIdx + count]);
      if r.Wrote? {
        assert was[..count][..r.n] == was[..r.n];
        Retrieve(r.n);
      }
    }

    /** Moves the first `count` bytes to the end of another buffer. */
    method BufToBuf(peer: Buffer, count: nat)
      requires Valid() && peer.Valid() && peer != this && peer.buf != buf
      requires count <= |Contents()|
      modifies this`readIdx, this`writeIdx, peer, peer.buf
      ensures Valid() && peer.Valid() && (peer.buf == old(peer.buf) || fresh(peer.buf))
      ensures peer.Contents() == old(peer.Contents()) + old(Contents())[..count]
      ensures Contents() == old(Contents())[count..]
      ensures peer.peak == Max(old(peer.peak), |peer.Contents()|)
      decreases if count <= peer.Writable() then 0 else 1
    {
      if count <= peer.buf.Length - peer.writeIdx {
        var moved := buf[readIdx..readIdx + count];
        assert moved == Contents()[..count];
        peer.Fill(moved);
        Retrieve(count);
      } else if count <= peer.buf.Length - peer.writeIdx + peer.readIdx {
        peer.Compact();
        BufToBuf(peer, count);
      } else {
        peer.peak := Max(peer.peak, peer.writeIdx - peer.readIdx + count);
        peer.Resize(peer.writeIdx + count);
        BufToBuf(peer, count);
      }
    }

    method FindCRLF() returns (r: Option<nat>)
      requires Valid()
      ensures r == FindCrlf(Contents())
    {
      var n := writeIdx - readIdx;
      ghost var s := Contents();
      for i := 0 to n
        invariant forall j :: j < i ==> !CrlfAt(s, j)
      {
        if i + 1 < n && buf[readIdx + i] == '\r' && buf[readIdx + i + 1] == '\n' {
          assert CrlfAt(s, i);
          return Some(i);
        }
      }
      r := None;
    }

    method Retrieve(n: nat)
      requires Valid() && n <= |Contents()|
      modifies this`readIdx, this`writeIdx
      ensures Valid() && Contents() == old(Contents())[n..]
    {
      readIdx := readIdx + n;
      if readIdx == writeIdx {
        readIdx, writeIdx := 0, 0;
      }
    }
  }
}
