/** The memory managers themselves, one call at a time: a thread reports to the global one. */
module MemoryManagement {
  import opened SqlValues
  import opened Accounting

  /** The outcome of a report at one manager: new amount, new flag, and whether the allocation is taken back. */
  function Report(amount: int, limit: int, blocked: bool, reported: int, cur: nat): (int, bool, bool) {
    if !OverLimit(limit, amount + reported) then (amount + reported, false, false)
    else if blocked then (amount + reported, true, false)
    else (amount + reported - cur, true, true)
  }

  class MemoryManager {
    const parent: MemoryManager?
    var memoryAmount: int
    var memoryLimit: int
    var isBlocked: bool

    constructor (parent: MemoryManager?)
      ensures this.parent == parent && memoryAmount == 0 && !isBlocked
      ensures memoryLimit == if parent == null then UNLIMIT else parent.memoryLimit
    {
      this.parent := parent;
      memoryAmount, isBlocked := 0, false;
      memoryLimit := if parent == null then UNLIMIT else parent.memoryLimit;
    }

    /** There are two levels: threads and the process. */
    predicate Valid() {
      parent != null ==> parent != this && parent.parent == null
    }

    /** The manager whose amount counts. */
    function Root(): MemoryManager {
      if parent == null then this else parent
    }

    ghost function Outcome(reported: int, cur: nat): (int, bool, bool)
      reads this
    {
      Report(memoryAmount, memoryLimit, isBlocked, reported, cur)
    }

    /** Add to this manager and its parent; only the global one refuses. */
    method AddMemory(reportedMemory: int, curAllocateSize: nat) returns (thrown: bool)
      requires Valid()
      modifies this`memoryAmount, this`isBlocked, Root()`memoryAmount, Root()`isBlocked
      ensures thrown == old(Root().Outcome(reportedMemory, curAllocateSize)).2
      ensures (memoryAmount, isBlocked) == (old(Outcome(reportedMemory, curAllocateSize)).0,
        old(Outcome(reportedMemory, curAllocateSize)).1)
      ensures Root().memoryAmount == old(Root().Outcome(reportedMemory, curAllocateSize)).0
      ensures Root().isBlocked == old(Root().Outcome(reportedMemory, curAllocateSize)).1
      decreases parent != null
    {
      memoryAmount := memoryAmount + reportedMemory;
      var newMemoryAmount := memoryAmount;
      if !OverLimit(memoryLimit, newMemoryAmount) {
        isBlocked := false;
      } else if !isBlocked {
        isBlocked := true;
        memoryAmount := memoryAmount - curAllocateSize;
        if parent == null {
          return true;
        }
      }
      if parent != null {
        thrown := parent.AddMemory(reportedMemory, curAllocateSize);
      } else {
        thrown := false;
      }
    }

    method SubMemory(reclaimedMemory: int)
      requires Valid()
      modifies this`memoryAmount, Root()`memoryAmount
      ensures memoryAmount == old(memoryAmount) + reclaimedMemory &&
        Root().memoryAmount == old(Root().memoryAmount) + reclaimedMemory
      decreases parent != null
    {
      memoryAmount := memoryAmount + reclaimedMemory;
      if parent != null {
        parent.SubMemory(reclaimedMemory);
      }
    }
  }

  class ThreadMemoryManager {
    const currentMemoryManager: MemoryManager
    var untrackedMemory: int
    var allocMemory: int
    var freeMemory: int

    constructor (globalManager: MemoryManager)
      requires globalManager.parent == null
      ensures Valid() && fresh(currentMemoryManager) && Root() == globalManager && untrackedMemory == 0 &&
        allocMemory == 0 && freeMemory == 0
    {
      currentMemoryManager := new MemoryManager(globalManager);
      untrackedMemory, allocMemory, freeMemory := 0, 0, 0;
    }

    predicate Valid()
      reads this
    {
      currentMemoryManager.Valid() && currentMemoryManager.parent != null && Abs(untrackedMemory) <= THRESHOLD
    }

    function Root(): MemoryManager {
      currentMemoryManager.Root()
    }

    /** What the thread has told the world and what it keeps to itself, together. */
    ghost function Known(): int
      reads this, Root()
    {
      Root().memoryAmount + untrackedMemory
    }

    /** Account for an allocation, which may be refused. Either way the books balance. */
    method ReportMemoryUsage(size: nat) returns (thrown: bool)
      requires Valid()
      modifies this`untrackedMemory, this`allocMemory
      modifies currentMemoryManager`memoryAmount, currentMemoryManager`isBlocked, Root()`memoryAmount, Root()`isBlocked
      ensures Valid() && allocMemory == old(allocMemory) + size
      ensures Known() == old(Known()) + if thrown then 0 else size
      ensures thrown == (old(untrackedMemory) + size > THRESHOLD && !old(Root().isBlocked) &&
        OverLimit(old(Root().memoryLimit), old(Known()) + size))
      ensures untrackedMemory == if old(untrackedMemory) + size > THRESHOLD then 0 else old(untrackedMemory) + size
      ensures old(untrackedMemory) + size <= THRESHOLD ==> Root().isBlocked == old(Root().isBlocked)
    {
      untrackedMemory := untrackedMemory + size;
      allocMemory := allocMemory + size;
      thrown := false;
      if untrackedMemory > THRESHOLD {
        var toReportedMemory := untrackedMemory;
        untrackedMemory := 0;
        thrown := currentMemoryManager.AddMemory(toReportedMemory, size);
      }
    }

    method ReclaimMemoryUsage(size: nat)
      requires Valid()
      modifies this`untrackedMemory, this`freeMemory, currentMemoryManager`memoryAmount, Root()`memoryAmount
      ensures Valid() && freeMemory == old(freeMemory) + size && Known() == old(Known()) - size
      ensures untrackedMemory == if Abs(old(untrackedMemory) - size) > THRESHOLD then 0 else old(untrackedMemory) - size
    {
      untrackedMemory := untrackedMemory - size;
      freeMemory := freeMemory + size;
      if Abs(untrackedMemory) > THRESHOLD {
        var toReclaimedMemory := untrackedMemory;
        untrackedMemory := 0;
        currentMemoryManager.SubMemory(toReclaimedMemory);
      }
    }

    /** The destructor: the thread keeps nothing to itself any more. */
    method Destroy()
      requires Valid()
      modifies this`untrackedMemory, currentMemoryManager`memoryAmount, Root()`memoryAmount
      ensures Valid() && untrackedMemory == 0 && Root().memoryAmount == old(Known())
    {
      currentMemoryManager.SubMemory(untrackedMemory);
      untrackedMemory := 0;
    }
  }

  // ---------- one call is a run of steps ----------

  /** Up to `n` steps of thread `t`. */
  function Ticks(s: State, t: nat, n: nat): State
    requires t < |s.threads|
    ensures |Ticks(s, t, n).threads| == |s.threads|
    decreases n
  {
    if n == 0 then s else match TickOf(s, t) case Some(u) => Ticks(u, t, n - 1) case None => s
  }

  /** An undisturbed AddMemory of the interleaved model does what the method does. */
  lemma AddMemoryIsTicks(s: State, t: nat)
    requires t < |s.threads| && s.threads[t].phase.ToAdd?
    ensures var th := s.threads[t];
      var (amount, blocked, refused) := Report(s.amount, s.limit, s.blocked, th.phase.reported, th.phase.cur);
      Ticks(s, t, 6) == With(s, t, th.(phase := Idle)).(amount := amount, blocked := blocked,
        granted := s.granted + (if refused then 0 else th.phase.cur), throws := s.throws + if refused then 1 else 0)
  {
    var r, c, th := s.threads[t].phase.reported, s.threads[t].phase.cur, s.threads[t];
    var s1 := TickOf(s, t).value;
    var s2 := TickOf(s1, t).value;
    var s3 := TickOf(s2, t).value;
    assert Ticks(s, t, 6) == Ticks(s3, t, 3);
    if OverLimit(s.limit, s.amount + r) && !s.blocked {
      var s4 := TickOf(s3, t).value;
      var s5 := TickOf(s4, t).value;
      var s6 := TickOf(s5, t).value;
      assert Ticks(s3, t, 3) == Ticks(s6, t, 0);
      assert s6.threads == s.threads[t := th.(phase := Idle)];
    } else {
      assert s3.threads == s.threads[t := th.(phase := Idle)];
      assert Ticks(s3, t, 3) == s3;
    }
  }
}
