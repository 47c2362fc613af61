/**
 * Static memory layout constants and the task-stack allocator. Every task id
 * below MAX_TASKS owns a fixed 8 KiB stack at a deterministic virtual address;
 * the allocator only tracks which of those stacks are in use, in a table of
 * 32 flags.
 */
module Memory {
  import opened Prelude
  import opened PlatformGeneric

  /** Kernel code and read-only data: an inclusive virtual-address range. */
  const KERNEL_TEXT_VADDR_FIRST: nat := 0xC000_0000
  const KERNEL_TEXT_VADDR_LAST: nat := 0xC100_0000
  const TASK_STACKS_VADDR_START: nat := 0xC100_0000
  const TASK_STACK_SIZE: nat := 8 * 1024
  const MMIO_VADDR_START: nat := 0xFFFF_FFFF_0000_0000

  /** Lowest address of the stack of `taskId`, or `None` for an id out of range. */
  function GetStackBaseAddress(taskId: U64): (r: Option<U64>)
    ensures taskId >= MAX_TASKS ==> r == None
    ensures taskId < MAX_TASKS ==> r == Some(TASK_STACKS_VADDR_START + taskId * TASK_STACK_SIZE)
  {
    if taskId >= MAX_TASKS then None
    else SafeAddUsize(TASK_STACKS_VADDR_START, taskId * TASK_STACK_SIZE)
  }

  /** One past the highest address of the stack of a valid task id: where its stack pointer starts. */
  function StackTop(taskId: nat): (top: U64)
    requires taskId < MAX_TASKS
    ensures GetStackBaseAddress(taskId) == Some(top - TASK_STACK_SIZE)
  {
    TASK_STACKS_VADDR_START + taskId * TASK_STACK_SIZE + TASK_STACK_SIZE
  }

  /** Distinct task ids own disjoint stacks `[base, base + 8 KiB)`. */
  lemma {:induction false} StacksDisjoint(i: nat, j: nat)
    requires i < MAX_TASKS && j < MAX_TASKS && i != j
    ensures StackTop(i) <= StackTop(j) - TASK_STACK_SIZE || StackTop(j) <= StackTop(i) - TASK_STACK_SIZE
  {
    if i < j {
      assert (j - i) * TASK_STACK_SIZE >= TASK_STACK_SIZE;
    } else {
      assert (i - j) * TASK_STACK_SIZE >= TASK_STACK_SIZE;
    }
  }

  /** No stack starts below the last kernel-text byte, and every stack ends below the MMIO window. */
  lemma StacksBetweenKernelTextAndMmio(taskId: nat)
    requires taskId < MAX_TASKS
    ensures KERNEL_TEXT_VADDR_LAST <= StackTop(taskId) - TASK_STACK_SIZE
    ensures StackTop(taskId) <= TASK_STACKS_VADDR_START + MAX_TASKS * TASK_STACK_SIZE < MMIO_VADDR_START
  {
  }

  /**
   * The kernel-text range is inclusive and ends at the first byte of the
   * stack area: a stack shares a byte with the kernel text exactly when it
   * is the stack of task 0, and then only its lowest byte.
   */
  lemma {:induction false} KernelTextMeetsStackZero(taskId: nat)
    requires taskId < MAX_TASKS
    ensures KERNEL_TEXT_VADDR_LAST == StackTop(0) - TASK_STACK_SIZE
    ensures StackTop(taskId) - TASK_STACK_SIZE <= KERNEL_TEXT_VADDR_LAST <==> taskId == 0
  {
    if taskId != 0 {
      assert taskId * TASK_STACK_SIZE >= TASK_STACK_SIZE;
    }
  }

  /** What `allocate_stack` does to the flag table: its result and the new table. */
  function Allocate(flags: seq<bool>, taskId: U64): (res: (Result<U64, KernelError>, seq<bool>))
    requires |flags| == MAX_TASKS
    ensures |res.1| == MAX_TASKS
  {
    if taskId >= MAX_TASKS then (Err(InvalidArgument), flags)
    else if flags[taskId] then (Err(ResourceBusy), flags)
    else
      // The base lookup cannot fail for an id below MAX_TASKS, so its
      // `OutOfMemoryStatic` fallback is never taken.
      var base := GetStackBaseAddress(taskId).value;
      (Ok(base + TASK_STACK_SIZE), flags[taskId := true])
  }

  /** What `deallocate_stack` does to the flag table. */
  function Deallocate(flags: seq<bool>, taskId: U64): (res: (Result<(), KernelError>, seq<bool>))
    requires |flags| == MAX_TASKS
    ensures |res.1| == MAX_TASKS
  {
    if taskId >= MAX_TASKS then (Err(InvalidArgument), flags)
    else if !flags[taskId] then (Err(NotFound), flags)
    else (Ok(()), flags[taskId := false])
  }

  /** The allocation outcomes: invalid id, busy stack, or the top of the stack with only its flag set. */
  lemma AllocateOutcomes(flags: seq<bool>, taskId: U64)
    requires |flags| == MAX_TASKS
    ensures taskId >= MAX_TASKS ==> Allocate(flags, taskId) == (Err(InvalidArgument), flags)
    ensures taskId < MAX_TASKS && flags[taskId] ==> Allocate(flags, taskId) == (Err(ResourceBusy), flags)
    ensures taskId < MAX_TASKS && !flags[taskId] ==>
              Allocate(flags, taskId) == (Ok(StackTop(taskId)), flags[taskId := true])
  {
  }

  /** The deallocation outcomes: invalid id, a stack not in use, or success clearing only its flag. */
  lemma DeallocateOutcomes(flags: seq<bool>, taskId: U64)
    requires |flags| == MAX_TASKS
    ensures taskId >= MAX_TASKS ==> Deallocate(flags, taskId) == (Err(InvalidArgument), flags)
    ensures taskId < MAX_TASKS && !flags[taskId] ==> Deallocate(flags, taskId) == (Err(NotFound), flags)
    ensures taskId < MAX_TASKS && flags[taskId] ==> Deallocate(flags, taskId) == (Ok(()), flags[taskId := false])
  {
  }

  /** A successful deallocation makes the same stack allocatable again, at the same address. */
  lemma ReallocateAfterDeallocate(flags: seq<bool>, taskId: U64)
    requires |flags| == MAX_TASKS
    requires Deallocate(flags, taskId).0.Ok?
    ensures Allocate(Deallocate(flags, taskId).1, taskId) == (Ok(StackTop(taskId)), flags)
  {
    assert flags[taskId := false][taskId := true] == flags;
  }

  /** Allocating twice without a deallocation in between fails the second time. */
  lemma AllocateTwiceIsBusy(flags: seq<bool>, taskId: U64)
    requires |flags| == MAX_TASKS
    requires Allocate(flags, taskId).0.Ok?
    ensures Allocate(Allocate(flags, taskId).1, taskId).0 == Err(ResourceBusy)
  {
  }

  /** The global allocator: one in-use flag per task id. */
  class TaskStackAllocator {
    var isAllocated: array<bool>

    ghost predicate Valid()
      reads this
    {
      isAllocated.Length == MAX_TASKS
    }

    constructor ()
      ensures Valid() && fresh(isAllocated)
      ensures forall i :: 0 <= i < isAllocated.Length ==> !isAllocated[i]
    {
      isAllocated := new bool[MAX_TASKS](_ => false);
    }

    method AllocateStack(taskId: U64) returns (r: Result<U64, KernelError>)
      requires Valid()
      modifies isAllocated
      ensures (r, isAllocated[..]) == Allocate(old(isAllocated[..]), taskId)
    {
      if taskId >= MAX_TASKS {
        return Err(InvalidArgument);
      }
      if isAllocated[taskId] {
        return Err(ResourceBusy);
      }
      isAllocated[taskId] := true;
      var base := GetStackBaseAddress(taskId).value;
      r := Ok(base + TASK_STACK_SIZE);
    }

    method DeallocateStack(taskId: U64) returns (r: Result<(), KernelError>)
      requires Valid()
      modifies isAllocated
      ensures (r, isAllocated[..]) == Deallocate(old(isAllocated[..]), taskId)
    {
      if taskId >= MAX_TASKS {
        return Err(InvalidArgument);
      }
      if !isAllocated[taskId] {
        return Err(NotFound);
      }
      isAllocated[taskId] := false;
      r := Ok(());
    }
  }
}
