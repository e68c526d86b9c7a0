/** The allocator: it accounts first and allocates second, so a refused request leaves the pool alone. */
module Allocation {
  import opened SqlValues
  import opened Accounting
  import opened MemoryManagement

  /** The bytes of all live blocks. */
  ghost function Total(pool: map<nat, nat>): nat {
    if pool == map[] then 0
    else
      var k :| k in pool;
      pool[k] + Total(pool - {k})
  }

  lemma {:induction false} TotalWithout(pool: map<nat, nat>, k: nat)
    requires k in pool
    ensures Total(pool) == pool[k] + Total(pool - {k})
    decreases |pool|
  {
    var first :| first in pool && Total(pool) == pool[first] + Total(pool - {first});
    if first != k {
      TotalWithout(pool - {first}, k);
      assert pool - {first} - {k} == pool - {k} - {first};
      TotalWithout(pool - {k}, first);
    }
  }

  class Allocator {
    const manager: ThreadMemoryManager
    /** Addresses and sizes of the live blocks. */
    var pool: map<nat, nat>

    constructor (manager: ThreadMemoryManager)
      ensures this.manager == manager && pool == map[]
    {
      this.manager := manager;
      pool := map[];
    }

    /** What the books hold beyond this allocator's live blocks. No call changes it. */
    ghost function Elsewhere(): int
      reads this, manager, manager.Root()
    {
      manager.Known() - Total(pool)
    }

    /** `address` is what the pool will hand out. */
    method Alloc(size: nat, address: nat) returns (data: Option<nat>)
      requires manager.Valid() && address !in pool
      modifies this`pool, manager`untrackedMemory, manager`allocMemory
      modifies manager.currentMemoryManager`memoryAmount, manager.currentMemoryManager`isBlocked,
        manager.Root()`memoryAmount, manager.Root()`isBlocked
      ensures manager.Valid() && Elsewhere() == old(Elsewhere())
      ensures data.Some? ==> data.value == address && pool == old(pool)[address := size]
      ensures data.None? ==> pool == old(pool)
      ensures data.None? <==>
        old(manager.untrackedMemory) + size > THRESHOLD && !old(manager.Root().isBlocked)
        && OverLimit(old(manager.Root().memoryLimit), old(manager.Known()) + size)
    {
      var thrown := manager.ReportMemoryUsage(size);
      if thrown {
        return None;
      }
      pool := pool[address := size];
      TotalWithout(pool, address);
      assert pool - {address} == old(pool);
      data := Some(address);
    }

    method Free(data: nat, size: nat)
      requires manager.Valid() && data in pool && pool[data] == size
      modifies this`pool, manager`untrackedMemory, manager`freeMemory, manager.currentMemoryManager`memoryAmount,
        manager.Root()`memoryAmount
      ensures manager.Valid() && pool == old(pool) - {data} && Elsewhere() == old(Elsewhere())
    {
      manager.ReclaimMemoryUsage(size);
      TotalWithout(pool, data);
      pool := pool - {data};
    }
  }
}
