/** Who holds a coroutine lock. */
module LockOwners {
  import opened PoolQueries

  datatype Owner = Owner(worker: u32, pid: u32, tid: u32, major: u32, node: nat)

  const NOBODY := Owner(0, 0, 0, 0, 0)

  /** LockOwnerId's operator==: the null id equals nothing, itself included. */
  predicate Same(a: Owner, b: Owner) { a != NOBODY && b != NOBODY && a == b }

  /** Depth counters, 32 bits wide. */
  function Up(n: u32): u32 { (n + 1) % U32 }

  function Down(n: u32): u32 { (n + U32 - 1) % U32 }

  datatype Option<+T> = None | Some(value: T)
}
