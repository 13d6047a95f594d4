/** What the components share: error numbers and the kernel's own books. */
module Uring {
  datatype Option<T> = None | Some(value: T)

  const EAGAIN: int := 11
  const ENOMEM: int := 12
  const ENOSPC: int := 28
  const ENOBUFS: int := 105

  /** What the kernel has done: the completions it posted, the number of bytes of
      every transfer, and how many notifications it has announced. Only kernel
      steps write here. */
  datatype Journal<X> = Journal(posted: seq<X>, transfers: seq<nat>, announced: nat)

  /** Post `x` after moving `n` bytes and announcing `k` notifications. */
  function Log<X>(j: Journal<X>, x: X, n: nat, k: nat): Journal<X> {
    Journal(j.posted + [x], if n > 0 then j.transfers + [n] else j.transfers, j.announced + k)
  }

  function Moved(res: int): nat { if res > 0 then res else 0 }
}

module ClientLoop {
  /** Where a client's loop is: at its test, past it, inside a batch. */
  datatype Phase = Head | Entered | Batch(left: nat)
}
