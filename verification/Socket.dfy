/** The non-blocking socket. What the kernel will answer is a script the rest of the model is proved
    for every value of: once a script is used up, every further call would block. */
module Socket {
  import opened Bytes

  /** `Got([])` is a return value of 0, the end of file. */
  datatype ReadOutcome = Got(data: bytes) | ReadAgain | ReadInterrupted | ReadFailed

  type Positive = n: int | 1 <= n witness 1

  datatype WriteOutcome = Wrote(n: Positive) | WriteAgain | WriteInterrupted | WriteFailed

  /** How many bytes the answer says the kernel took. */
  function Taken(r: WriteOutcome): nat { if r.Wrote? then r.n else 0 }

  datatype Delivery = Delivery(outcome: ReadOutcome, readScript: seq<ReadOutcome>)

  /** One `readv` into room for `cap` bytes; what does not fit is delivered by the next call. */
  function Deliver(readScript: seq<ReadOutcome>, cap: Positive): Delivery {
    if readScript == [] then Delivery(ReadAgain, [])
    else if readScript[0].Got? && cap < |readScript[0].data| then
      Delivery(Got(readScript[0].data[..cap]), [Got(readScript[0].data[cap..])] + readScript[1..])
    else Delivery(readScript[0], readScript[1..])
  }

  datatype Acceptance = Acceptance(outcome: WriteOutcome, writeScript: seq<WriteOutcome>)

  /** One `write` of `count` bytes: 1 to `count` of them are taken, or an errno comes back. */
  function Accept(writeScript: seq<WriteOutcome>, count: Positive): Acceptance {
    if writeScript == [] then Acceptance(WriteAgain, [])
    else if writeScript[0].Wrote? && count < writeScript[0].n then Acceptance(Wrote(count), writeScript[1..])
    else Acceptance(writeScript[0], writeScript[1..])
  }

  /** Bytes and answers still to come. */
  function Pending(readScript: seq<ReadOutcome>): nat {
    if readScript == [] then 0
    else 1 + (if readScript[0].Got? then |readScript[0].data| else 0) + Pending(readScript[1..])
  }

  lemma DeliverShrinks(readScript: seq<ReadOutcome>, cap: Positive)
    requires readScript != []
    ensures Pending(Deliver(readScript, cap).readScript) < Pending(readScript)
  {
    var d := Deliver(readScript, cap);
    if readScript[0].Got? && cap < |readScript[0].data| {
      assert d.readScript[1..] == readScript[1..];
    }
  }

  class Socket {
    var readScript: seq<ReadOutcome>
    var writeScript: seq<WriteOutcome>
    ghost var sent: bytes     // every byte the kernel has taken, in order

    constructor ()
      ensures readScript == [] && writeScript == [] && sent == []
    {
      readScript, writeScript, sent := [], [], [];
    }

    method Readv(cap: Positive) returns (r: ReadOutcome)
      modifies this`readScript
      ensures Delivery(r, readScript) == Deliver(old(readScript), cap)
    {
      var d := Deliver(readScript, cap);
      r, readScript := d.outcome, d.readScript;
    }

    method SckWrite(data: bytes) returns (r: WriteOutcome)
      requires data != []
      modifies this`writeScript, this`sent
      ensures Acceptance(r, writeScript) == Accept(old(writeScript), |data|)
      ensures Taken(r) <= |data| && sent == old(sent) + data[..Taken(r)]
    {
      var a := Accept(writeScript, |data|);
      r, writeScript := a.outcome, a.writeScript;
      sent := sent + data[..Taken(r)];
    }
  }
}
