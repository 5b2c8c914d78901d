/**
 * Memory residencies and the allocation routines behind them.
 *
 * A block of memory is a Dafny array; a null pointer is `null`. The allocators
 * (`new T[]`, `gpuHostAlloc`, `gpuMalloc`, `gpuMallocManaged`) and the release
 * routines (`delete[]`, `gpuHostFree`, `gpuFree`) are modelled by one object,
 * an `Allocator`, whose ghost ledger records every live block and the
 * residency it was allocated in. Releasing a block that is not live (a double
 * free) or with a routine that does not match its residency is a
 * precondition violation, so every release in the model is proved to be the
 * first and the matching one.
 */
module Residency {

  /** Where the elements of a buffer live. */
  datatype MemoryType =
    | Pageable  // allocated with new[]
    | Pinned    // page-locked host memory from gpuHostAlloc
    | Device    // GPU memory from gpuMalloc
    | Managed   // unified memory from gpuMallocManaged

  /** The routines that hand out blocks. */
  datatype AllocRoutine = NewArray | HostAlloc | GpuMalloc | GpuMallocManaged

  /** The routines that give blocks back. */
  datatype FreeRoutine = DeleteArray | HostFree | GpuFree

  /** On a build without GPU support only pageable memory exists. */
  predicate Supported(gpuBuild: bool, t: MemoryType)
  {
    gpuBuild || t == Pageable
  }

  /** The residency of a block handed out by an allocation routine. */
  function ResidencyOf(a: AllocRoutine): MemoryType
  {
    match a
    case NewArray => Pageable
    case HostAlloc => Pinned
    case GpuMalloc => Device
    case GpuMallocManaged => Managed
  }

  /** The routine that must release a block of residency `t`. */
  function ReleaseFor(t: MemoryType): FreeRoutine
  {
    match t
    case Pageable => DeleteArray
    case Pinned => HostFree
    case Device => GpuFree
    case Managed => GpuFree
  }

  /** The ledger after releasing `block`, which may be null (then nothing is released). */
  ghost function Without<T>(live: map<array<T>, MemoryType>, block: array?<T>): map<array<T>, MemoryType>
  {
    if block == null then live else live - {block}
  }

  /**
   * The process's allocators together with a ledger of the blocks they have
   * handed out and not yet taken back. `gpuBuild` is the compile-time switch
   * that decides whether the GPU routines exist at all.
   */
  class Allocator<T(0)> {
    const gpuBuild: bool
    ghost var live: map<array<T>, MemoryType>

    constructor (gpuBuild: bool)
      ensures this.gpuBuild == gpuBuild && live == map[]
    {
      this.gpuBuild := gpuBuild;
      live := map[];
    }

    /**
     * Allocates a block of `count` elements with `routine`. The elements are
     * uninitialised: nothing is promised about them. Out-of-memory failures
     * are not modelled.
     */
    method Alloc(routine: AllocRoutine, count: nat) returns (block: array<T>)
      requires gpuBuild || routine == NewArray
      modifies this
      ensures fresh(block) && block.Length == count
      ensures block !in old(live)
      ensures live == old(live)[block := ResidencyOf(routine)]
    {
      block := new T[count];
      live := live[block := ResidencyOf(routine)];
    }

    /** Releases a live block with the routine that matches its residency. */
    method Free(block: array<T>, routine: FreeRoutine)
      requires block in live && routine == ReleaseFor(live[block])
      requires gpuBuild || routine == DeleteArray
      modifies this
      ensures live == old(live) - {block}
    {
      live := live - {block};
    }
  }

  /**
   * `memcpy` and `gpuMemcpy` in any direction: copies the first `count`
   * elements of `src` into `dst` and leaves the rest of `dst` alone.
   */
  method Transfer<T>(dst: array<T>, src: array<T>, count: nat)
    requires dst != src && count <= dst.Length && count <= src.Length
    modifies dst
    ensures dst[..count] == src[..count]
    ensures dst[count..] == old(dst[count..])
  {
    var i := 0;
    while i < count
      invariant 0 <= i <= count
      invariant forall j :: 0 <= j < i ==> dst[j] == src[j]
      invariant forall j :: count <= j < dst.Length ==> dst[j] == old(dst[j])
    {
      dst[i] := src[i];
      i := i + 1;
    }
  }
}
