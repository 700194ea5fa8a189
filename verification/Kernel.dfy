/** The part of the operating system the reactor talks to: bytes, epoll event flags, and the
    answers a non-blocking socket may give. Every answer is an input of the operation that
    receives it, so a statement about all answers is a statement about all kernels. */
module Kernel {

  newtype Byte = b: int | 0 <= b < 256

  datatype Option<+T> = None | Some(value: T)

  /** EPOLLIN, EPOLLPRI, EPOLLOUT, EPOLLERR and EPOLLHUP; a mask is the set of bits that are on. */
  datatype Flag = In | Pri | Out | Err | Hup
  type Mask = set<Flag>

  const NONE_EVENT: Mask := {}
  const READ_EVENT: Mask := {In, Pri}
  const WRITE_EVENT: Mask := {Out}

  const INT_MAX: int := 0x7fff_ffff

  datatype Errno = WouldBlock | BrokenPipe | ConnectionReset | OtherError

  /** What the kernel does with the next write: it has room for so many bytes, or it fails. */
  datatype WriteAnswer = Takes(room: nat) | Refuses(errno: Errno)

  /** A write after shutdown(SHUT_WR) always fails with EPIPE, whatever room there would be. */
  function Heard(ended: bool, answer: WriteAnswer): WriteAnswer {
    if ended then Refuses(BrokenPipe) else answer
  }

  /** What the kernel has for the next readv: the bytes that have arrived (none means the peer
      has closed its side), or a failure. */
  datatype ReadAnswer = Offers(data: seq<Byte>) | Fails

  function Min(a: nat, b: nat): nat {
    if a <= b then a else b
  }

  function Max(a: nat, b: nat): nat {
    if a <= b then b else a
  }
}
