/**
 * What callers of `MemoryBuffer` can conclude from its contracts alone: the
 * properties the buffer promises across several calls, and the two
 * sequences of calls that leave a buffer pointing at a released block.
 */
module BufferScenarios {
  import opened Wrappers
  import opened Residency
  import opened Persistence
  import opened MemoryBuffers

  /**
   * A deep copy is independent: after a write into the copy and another into
   * the original, each holds its own write and the other's elements are as
   * they were.
   */
  method CopyIsIndependent<T(0,!new)>(a: MemoryBuffer<T>, i: int, x: T, y: T) returns (c: MemoryBuffer<T>)
    requires a.Valid() && a.data != null && 0 <= i < a.n
    modifies a.backend, a.data
    ensures fresh(c) && c.Valid() && a.Valid() && c.n == a.n && c.memType == a.memType
    ensures c.Contents() == old(a.Contents())[i := x]
    ensures a.Contents() == old(a.Contents())[i := y]
  {
    c := new MemoryBuffer.CopyOf(a);
    c.Set(i, x);
    a.Set(i, y);
  }

  /** Calling `to_cpu` twice is calling it once: the second call changes nothing. */
  method ToCpuTwice<T(0,!new)>(b: MemoryBuffer<T>, toType: MemoryType, again: MemoryType)
    requires b.Valid()
    modifies b, b.backend
    ensures b.Valid() && b.n == old(b.n) && b.Contents() == old(b.Contents())
    ensures if b.backend.gpuBuild && old(b.memType) == Device && old(b.data) != null then
              && fresh(b.data)
              && b.memType == (if toType == Pinned then Pinned else Pageable)
              && b.backend.live == (old(b.backend.live) - {old(b.data)})[b.data := b.memType]
            else
              b.data == old(b.data) && b.memType == old(b.memType) && b.backend.live == old(b.backend.live)
  {
    b.ToCpu(toType);
    b.ToCpu(again);
  }

  /** Calling `to_gpu` twice is calling it once. */
  method ToGpuTwice<T(0,!new)>(b: MemoryBuffer<T>)
    requires b.Valid()
    modifies b, b.backend
    ensures b.Valid() && b.n == old(b.n) && b.Contents() == old(b.Contents())
    ensures if b.backend.gpuBuild && old(b.memType) != Device && old(b.data) != null then
              && fresh(b.data) && b.memType == Device
              && b.backend.live == (old(b.backend.live) - {old(b.data)})[b.data := Device]
            else
              b.data == old(b.data) && b.memType == old(b.memType) && b.backend.live == old(b.backend.live)
  {
    b.ToGpu();
    b.ToGpu();
  }

  /**
   * On a GPU build, a pageable buffer sent to the device and back is again a
   * pageable buffer with the same elements, and nothing stays allocated but
   * its final block.
   */
  method DeviceRoundTrip<T(0,!new)>(b: MemoryBuffer<T>)
    requires b.Valid() && b.data != null && b.memType == Pageable && b.backend.gpuBuild
    modifies b, b.backend
    ensures b.Valid() && b.memType == Pageable && b.n == old(b.n) && b.Contents() == old(b.Contents())
    ensures b.backend.live == (old(b.backend.live) - {old(b.data)})[b.data := Pageable]
  {
    b.ToGpu();
    b.ToCpu(Pageable);
  }

  /**
   * After a move, the moved-from buffer's destructor releases nothing, and
   * the new owner holds the block, which it releases exactly once.
   */
  method MoveThenDestroy<T(0,!new)>(b: MemoryBuffer<T>)
    requires b.Valid()
    modifies b, b.backend
    ensures b.data == null && b.n == old(b.n)
    ensures b.backend.live == Without(old(b.backend.live), old(b.data))
  {
    var d := new MemoryBuffer.MoveFrom(b);
    b.Destroy();
    assert b.backend.live == old(b.backend.live);
    d.Destroy();
  }

  /**
   * Every block a sequence of allocations, migrations, copies and moves
   * creates is released by the destructors at the end: the ledger ends as it
   * began.
   */
  method NoLeakLifecycle<T(0,!new)>(backend: Allocator<T>, count: nat)
    requires count > 0 && backend.gpuBuild
    modifies backend
    ensures backend.live == old(backend.live)
  {
    var r := MemoryBuffer<T>.Create(backend, count, Pageable);
    var a := r.value;
    a.ToGpu();
    ghost var afterMigration := backend.live;
    assert afterMigration == old(backend.live)[a.data := Device];
    var c := new MemoryBuffer.CopyOf(a);
    assert backend.live == afterMigration[c.data := Device];
    c.ToCpu(Pinned);
    assert backend.live == afterMigration[c.data := Pinned];
    var d := new MemoryBuffer.MoveFrom(c);
    a.Destroy();
    assert backend.live == old(backend.live)[d.data := Pinned];
    c.Destroy();
    d.Destroy();
  }

  /** Dumping a buffer and loading the file gives a pageable buffer of the same size and elements. */
  method DumpThenLoad<T(0,!new)>(b: MemoryBuffer<T>, codec: Codec<T>) returns (loaded: MemoryBuffer<T>)
    requires b.Valid() && b.data != null && Lawful(codec)
    modifies b, b.backend
    ensures fresh(loaded) && loaded.Valid() && loaded.memType == Pageable
    ensures loaded.n == old(b.n) && loaded.Contents() == old(b.Contents())
  {
    var file := b.Dump(codec, true);
    RoundTrip(codec, b.Contents());
    assert |file.value| == b.n * codec.width >= codec.width;
    var r := MemoryBuffer<T>.FromDump(b.backend, codec, file.value);
    loaded := r.value;
  }

  /**
   * Counterexample to the strong exception safety of `allocate`: a buffer of
   * four elements asked to re-allocate zero elements reports the error but
   * keeps pointing at the block it already released, which its destructor
   * would release a second time.
   */
  method FailedAllocateDangles<T(0,!new)>(backend: Allocator<T>) returns (b: MemoryBuffer<T>)
    modifies backend
    ensures b.data != null && b.data !in backend.live && !b.Valid()
  {
    var r := MemoryBuffer<T>.Create(backend, 4, Pageable);
    b := r.value;
    var outcome := b.Allocate(0, Pageable);
    assert outcome == Fail(ZeroElements);
  }

  /**
   * Counterexample for copy assignment: copying from a moved-from buffer
   * releases the destination's block but leaves its pointer in place.
   */
  method CopyFromEmptyDangles<T(0,!new)>(backend: Allocator<T>) returns (a: MemoryBuffer<T>)
    modifies backend
    ensures a.data != null && a.data !in backend.live && !a.Valid()
  {
    var ra := MemoryBuffer<T>.Create(backend, 4, Pageable);
    var rc := MemoryBuffer<T>.Create(backend, 1, Pageable);
    a := ra.value;
    var c := rc.value;
    var d := new MemoryBuffer.MoveFrom(c);
    a.CopyAssign(c);
  }
}
