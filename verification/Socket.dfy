/** A connected socket as far as this side can tell: the bytes the kernel has taken from it, and
    how often its write side was shut down. */
module Sockets {
  import opened Kernel

  class Socket {
    const fd: int
    var sent: seq<Byte>
    var writeShutdowns: nat

    constructor (fd: int)
      ensures this.fd == fd && sent == [] && writeShutdowns == 0
    {
      this.fd, sent, writeShutdowns := fd, [], 0;
    }

    /** What the next write comes back with. */
    function Reply(answer: WriteAnswer): WriteAnswer
      reads this`writeShutdowns
    {
      Heard(0 < writeShutdowns, answer)
    }

    /** A non-blocking write: the kernel takes as many bytes from the front as it has room for, or
        none and reports an error. Nothing is taken once the write side is shut down. */
    method Write(bytes: seq<Byte>, answer: WriteAnswer) returns (n: int, reply: WriteAnswer)
      modifies this`sent
      ensures reply == Reply(answer)
      ensures reply.Takes? ==> n == Min(reply.room, |bytes|) && sent == old(sent) + bytes[..n]
      ensures reply.Refuses? ==> n == -1 && sent == old(sent)
    {
      n, reply := -1, Reply(answer);
      if reply.Takes? {
        n := Min(reply.room, |bytes|);
        sent := sent + bytes[..n];
      }
    }

    method ShutdownWrite()
      modifies this`writeShutdowns
      ensures writeShutdowns == old(writeShutdowns) + 1
    {
      writeShutdowns := writeShutdowns + 1;
    }
  }
}
