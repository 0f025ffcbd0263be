/** Pool queries: what a task carries to say where it should run. */
module PoolQueries {
  const U32: int := 0x1_0000_0000

  type u32 = n: int | 0 <= n < U32

  const INVALID_CONTAINER: u32 := U32 - 1

  datatype PoolQuery =
    | Local
    | DirectId(container: u32)
    | DirectHash(hash: u32)
    | Range(offset: u32, count: u32)
    | Broadcast
    | Physical(node: u32)
    | Dynamic

  /** The container_id_ field a factory leaves in the query: only DirectId sets it. */
  function ContainerId(q: PoolQuery): u32 {
    match q
    case DirectId(c) => c
    case Local => INVALID_CONTAINER
    case _ => 0
  }
}
