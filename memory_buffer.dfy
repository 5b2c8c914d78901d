/**
 * A single-owner buffer of `n` elements of a trivially copyable type `T`,
 * resident in one of the memory types of `Residency`.
 *
 * `data` is the owned block (null when there is none), `n` the element count
 * and `memType` the residency tag. The destructor is `Destroy`; the
 * constructors that can throw (`MemoryBuffer(n, t)`, the adopting constructor
 * and `from_dump`) are static methods returning a `Result`, and the copy and
 * move constructors and assignments are `CopyOf`, `MoveFrom`, `CopyAssign`
 * and `MoveAssign`.
 */
module MemoryBuffers {
  import opened Wrappers
  import opened Residency
  import opened Persistence

  /** The `std::invalid_argument` and `std::runtime_error` conditions. */
  datatype Error =
    | UnsupportedMemoryType  // anything but pageable memory on a CPU-only build
    | ZeroElements           // a buffer of no elements was requested
    | NullPointer            // adoption of a null pointer
    | WriteFailed            // the dump stream reported failure

  class MemoryBuffer<T(0,!new)> {
    /** The allocators of the process; shared by every buffer. */
    const backend: Allocator<T>
    var data: array?<T>
    var n: nat
    var memType: MemoryType

    /**
     * A buffer that holds a block owns a live block, allocated with the
     * routine for its tag, of at least `n > 0` elements. A buffer without a
     * block may have any `n` (a moved-from buffer keeps its count).
     */
    ghost predicate Valid()
      reads this, backend
    {
      data != null ==>
        && data in backend.live
        && backend.live[data] == memType
        && Supported(backend.gpuBuild, memType)
        && 0 < n <= data.Length
    }

    /** The elements the buffer holds; none when it has no block. */
    function Contents(): seq<T>
      reads this, data
      requires data != null ==> n <= data.Length
    {
      if data == null then [] else data[..n]
    }

    /** `MemoryBuffer()`: no block; the tag is left unspecified, as in the source. */
    constructor Empty(backend: Allocator<T>)
      ensures this.backend == backend && data == null && n == 0
      ensures Valid()
    {
      this.backend := backend;
      data := null;
      n := 0;
      memType := *;
    }

    /** `size()`: the element count, which a moved-from buffer keeps. */
    function Size(): (count: nat)
      reads this, backend, data
      requires Valid()
      ensures count == n
      ensures data != null ==> count == |Contents()| && count > 0
    {
      n
    }

    /** `operator bool`: whether the buffer holds a block. */
    function HasData(): (b: bool)
      reads this, backend, data
      requires Valid()
      ensures b <==> data != null
      ensures b ==> |Contents()| == n > 0 && data in backend.live
    {
      data != null
    }

    /** `on_gpu()`: whether the tag says device memory. */
    function OnGpu(): (b: bool)
      reads this, backend
      requires Valid()
      ensures b <==> memType == Device
      ensures b && data != null ==> backend.gpuBuild && backend.live[data] == Device
    {
      memType == Device
    }

    /** `pinned()`: whether the tag says pinned host memory. */
    function IsPinned(): (b: bool)
      reads this, backend
      requires Valid()
      ensures b <==> memType == Pinned
      ensures b && data != null ==> backend.gpuBuild && backend.live[data] == Pinned
    {
      memType == Pinned
    }

    /** `data()`: the raw block, handed out without any check. */
    function Data(): (block: array?<T>)
      reads this, backend
      requires Valid()
      ensures block == data
      ensures block != null ==> block in backend.live && n <= block.Length
    {
      data
    }

    /** `operator[]` read: unchecked in the source, so the index must be in range. */
    method Get(i: int) returns (x: T)
      requires Valid() && data != null && 0 <= i < n
      ensures x == Contents()[i]
    {
      x := data[i];
    }

    /** `operator[]` write: changes one element and nothing else. */
    method Set(i: int, x: T)
      requires Valid() && data != null && 0 <= i < n
      modifies data
      ensures Valid()
      ensures Contents() == old(Contents())[i := x]
    {
      data[i] := x;
    }

    /**
     * `~MemoryBuffer()`: releases the block, if any, with the routine that
     * matches the tag. The fields are left as they are, so a block that was
     * held is now dangling: only a caller that overwrites `data` may go on.
     */
    method Destroy()
      requires Valid()
      modifies backend
      ensures backend.live == Without(old(backend.live), data)
    {
      if memType == Pageable && data != null {
        backend.Free(data, DeleteArray);
      }
      if backend.gpuBuild {
        if memType == Pinned && data != null {
          backend.Free(data, HostFree);
        }
        if (memType == Device || memType == Managed) && data != null {
          backend.Free(data, GpuFree);
        }
      }
    }

    /**
     * `allocate(count, t)` as written: the old block is released FIRST, then
     * the arguments are checked. On failure the fields are untouched, so a
     * buffer that held a block is left pointing at a released one and is no
     * longer `Valid()`: its destructor would free that block again.
     */
    method Allocate(count: nat, t: MemoryType) returns (r: Outcome<Error>)
      requires Valid()
      modifies this, backend
      ensures r == if !Supported(backend.gpuBuild, t) then Fail(UnsupportedMemoryType)
                   else if count == 0 then Fail(ZeroElements)
                   else Pass
      ensures r.Pass? ==>
        && fresh(data) && n == count && memType == t && Valid()
        && backend.live == Without(old(backend.live), old(data))[data := t]
      ensures r.Fail? ==>
        && data == old(data) && n == old(n) && memType == old(memType)
        && backend.live == Without(old(backend.live), old(data))
        && (Valid() <==> old(data) == null)
    {
      if data != null {
        Destroy();
      }
      if !backend.gpuBuild && t != Pageable {
        return Fail(UnsupportedMemoryType);
      }
      if count == 0 {
        return Fail(ZeroElements);
      }
      var block: array<T>;
      if t == Pinned {
        block := backend.Alloc(HostAlloc, count);
      } else if t == Device {
        block := backend.Alloc(GpuMalloc, count);
      } else if t == Managed {
        block := backend.Alloc(GpuMallocManaged, count);
      } else {
        block := backend.Alloc(NewArray, count);
      }
      data := block;
      n := count;
      memType := t;
      r := Pass;
    }

    /**
     * `allocate` with the arguments checked before anything is released: a
     * failure leaves the buffer and the ledger exactly as they were.
     */
    method AllocateChecked(count: nat, t: MemoryType) returns (r: Outcome<Error>)
      requires Valid()
      modifies this, backend
      ensures r == if !Supported(backend.gpuBuild, t) then Fail(UnsupportedMemoryType)
                   else if count == 0 then Fail(ZeroElements)
                   else Pass
      ensures Valid()
      ensures r.Pass? ==>
        && fresh(data) && n == count && memType == t
        && backend.live == Without(old(backend.live), old(data))[data := t]
      ensures r.Fail? ==>
        && data == old(data) && n == old(n) && memType == old(memType)
        && backend.live == old(backend.live)
    {
      if !backend.gpuBuild && t != Pageable {
        return Fail(UnsupportedMemoryType);
      }
      if count == 0 {
        return Fail(ZeroElements);
      }
      r := Allocate(count, t);
    }

    /**
     * `MemoryBuffer(count, t)`: a fresh buffer that allocates at once. A failed
     * allocation on a buffer that held nothing leaves nothing allocated.
     */
    static method Create(backend: Allocator<T>, count: nat, t: MemoryType) returns (r: Result<MemoryBuffer<T>, Error>)
      modifies backend
      ensures r.Err? <==> !Supported(backend.gpuBuild, t) || count == 0
      ensures r.Err? ==> r.error == (if !Supported(backend.gpuBuild, t) then UnsupportedMemoryType else ZeroElements)
      ensures r.Err? ==> backend.live == old(backend.live)
      ensures r.Ok? ==>
        && fresh(r.value) && fresh(r.value.data) && r.value.backend == backend && r.value.Valid()
        && r.value.n == count && r.value.memType == t
        && backend.live == old(backend.live)[r.value.data := t]
    {
      var b := new MemoryBuffer.Empty(backend);
      var outcome := b.Allocate(count, t);
      if outcome.Fail? {
        return Err(outcome.error);
      }
      r := Ok(b);
    }

    /**
     * `MemoryBuffer(buffer, count, t)`: takes ownership of a block the caller
     * allocated with the routine for `t`, without copying it. The checks come
     * in the source's order: the memory type, the count, the pointer.
     */
    static method Adopt(backend: Allocator<T>, buffer: array?<T>, count: nat, t: MemoryType)
      returns (r: Result<MemoryBuffer<T>, Error>)
      requires buffer != null && count > 0 && Supported(backend.gpuBuild, t) ==>
        buffer in backend.live && backend.live[buffer] == t && count <= buffer.Length
      ensures r.Err? <==> !Supported(backend.gpuBuild, t) || count == 0 || buffer == null
      ensures r.Err? ==> r.error == (if !Supported(backend.gpuBuild, t) then UnsupportedMemoryType
                                    else if count == 0 then ZeroElements
                                    else NullPointer)
      ensures r.Ok? ==>
        && fresh(r.value) && r.value.backend == backend && r.value.Valid()
        && r.value.data == buffer && r.value.n == count && r.value.memType == t
    {
      if !backend.gpuBuild && t != Pageable {
        return Err(UnsupportedMemoryType);
      }
      if count == 0 {
        return Err(ZeroElements);
      }
      if buffer == null {
        return Err(NullPointer);
      }
      var b := new MemoryBuffer.Empty(backend);
      b.data := buffer;
      b.n := count;
      b.memType := t;
      r := Ok(b);
    }

    /**
     * `to_cpu(toType)`: on a GPU build, a buffer holding device memory moves
     * its elements into a new pinned block (when `toType` is pinned) or a new
     * pageable one (otherwise) and frees the device block. Any other buffer,
     * and every buffer on a CPU-only build, is left as it is.
     */
    method ToCpu(toType: MemoryType)
      requires Valid()
      modifies this, backend
      ensures Valid() && n == old(n) && Contents() == old(Contents())
      ensures if backend.gpuBuild && old(memType) == Device && old(data) != null then
                && fresh(data)
                && memType == (if toType == Pinned then Pinned else Pageable)
                && backend.live == (old(backend.live) - {old(data)})[data := memType]
              else
                data == old(data) && memType == old(memType) && backend.live == old(backend.live)
    {
      if backend.gpuBuild && memType == Device && data != null {
        var block: array<T>;
        if toType == Pinned {
          block := backend.Alloc(HostAlloc, n);
          memType := Pinned;
        } else {
          block := backend.Alloc(NewArray, n);
          memType := Pageable;
        }
        Transfer(block, data, n);
        backend.Free(data, GpuFree);
        data := block;
      }
    }

    /**
     * `to_gpu()`: on a GPU build, a buffer holding host or managed memory
     * moves its elements into a new device block and frees the old block with
     * the routine for its old tag. Any other buffer, and every buffer on a
     * CPU-only build, is left as it is.
     */
    method ToGpu()
      requires Valid()
      modifies this, backend
      ensures Valid() && n == old(n) && Contents() == old(Contents())
      ensures if backend.gpuBuild && old(memType) != Device && old(data) != null then
                && fresh(data) && memType == Device
                && backend.live == (old(backend.live) - {old(data)})[data := Device]
              else
                data == old(data) && memType == old(memType) && backend.live == old(backend.live)
    {
      if backend.gpuBuild && memType != Device && data != null {
        var block := backend.Alloc(GpuMalloc, n);
        Transfer(block, data, n);
        if memType == Pinned {
          backend.Free(data, HostFree);
        } else if memType == Managed {
          backend.Free(data, GpuFree);
        } else {
          backend.Free(data, DeleteArray);
        }
        data := block;
        memType := Device;
      }
    }

    /**
     * Copies `other`'s elements into a fresh block of the same residency,
     * allocated with the routine for that residency.
     */
    static method CloneBlock(other: MemoryBuffer<T>) returns (block: array<T>)
      requires other.Valid() && other.data != null
      modifies other.backend
      ensures fresh(block) && block.Length == other.n && block[..] == other.Contents()
      ensures other.backend.live == old(other.backend.live)[block := other.memType]
    {
      var backend := other.backend;
      if other.memType == Pinned {
        block := backend.Alloc(HostAlloc, other.n);
      } else if other.memType == Device {
        block := backend.Alloc(GpuMalloc, other.n);
      } else if other.memType == Managed {
        block := backend.Alloc(GpuMallocManaged, other.n);
      } else {
        block := backend.Alloc(NewArray, other.n);
      }
      Transfer(block, other.data, other.n);
    }

    /**
     * The copy constructor: the same count and tag, and, when `other` holds a
     * block, a fresh block of that residency with equal elements.
     */
    constructor CopyOf(other: MemoryBuffer<T>)
      requires other.Valid()
      modifies other.backend
      ensures backend == other.backend && n == other.n && memType == other.memType
      ensures Valid() && other.Valid()
      ensures other.data == null ==> data == null && backend.live == old(other.backend.live)
      ensures other.data != null ==>
        && fresh(data) && Contents() == other.Contents()
        && backend.live == old(other.backend.live)[data := memType]
    {
      backend := other.backend;
      n := other.n;
      memType := other.memType;
      var block: array?<T> := null;
      if other.data != null {
        block := CloneBlock(other);
      }
      data := block;
    }

    /**
     * The move constructor: takes `other`'s block, count and tag; `other` is
     * left without a block (so its destructor frees nothing) but keeps its
     * count and tag.
     */
    constructor MoveFrom(other: MemoryBuffer<T>)
      requires other.Valid()
      modifies other
      ensures backend == other.backend
      ensures data == old(other.data) && n == old(other.n) && memType == old(other.memType)
      ensures other.data == null && other.n == old(other.n) && other.memType == old(other.memType)
      ensures Valid() && other.Valid()
    {
      backend := other.backend;
      n := other.n;
      memType := other.memType;
      data := other.data;
      new;
      other.data := null;
    }

    /**
     * Copy assignment as written. Self-assignment changes nothing. Otherwise
     * the held block is released and the count and tag are taken from
     * `other`; a fresh copy of `other`'s block follows only when `other`
     * holds one, so copying from a buffer without a block leaves `data`
     * pointing at the released block.
     */
    method CopyAssign(other: MemoryBuffer<T>)
      requires Valid() && other.Valid() && other.backend == backend
      requires other != this && data != null ==> data != other.data
      modifies this, backend
      ensures other == this ==>
        data == old(data) && n == old(n) && memType == old(memType) && backend.live == old(backend.live)
      ensures other != this ==> n == other.n && memType == other.memType && other.Valid()
      ensures other != this && other.data != null ==>
        && Valid() && fresh(data) && Contents() == other.Contents()
        && backend.live == Without(old(backend.live), old(data))[data := memType]
      ensures other != this && other.data == null ==>
        && data == old(data)
        && backend.live == Without(old(backend.live), old(data))
        && (Valid() <==> old(data) == null)
    {
      if this == other {
        return;
      }
      if data != null {
        Destroy();
      }
      n := other.n;
      memType := other.memType;
      if other.data != null {
        data := CloneBlock(other);
      }
    }

    /**
     * Copy assignment with the released pointer cleared: copying from a
     * buffer without a block leaves this one without a block too.
     */
    method CopyAssignChecked(other: MemoryBuffer<T>)
      requires Valid() && other.Valid() && other.backend == backend
      requires other != this && data != null ==> data != other.data
      modifies this, backend
      ensures Valid()
      ensures other == this ==>
        data == old(data) && n == old(n) && memType == old(memType) && backend.live == old(backend.live)
      ensures other != this ==> n == other.n && memType == other.memType && other.Valid()
      ensures other != this && other.data != null ==>
        && fresh(data) && Contents() == other.Contents()
        && backend.live == Without(old(backend.live), old(data))[data := memType]
      ensures other != this && other.data == null ==>
        data == null && backend.live == Without(old(backend.live), old(data))
    {
      if this == other {
        return;
      }
      CopyAssign(other);
      if other.data == null {
        data := null;
      }
    }

    /**
     * Move assignment: releases the held block, then takes `other`'s block,
     * count and tag and clears `other`'s pointer. When `other` is this very
     * buffer, clearing it clears the block just taken: the buffer ends without
     * a block but with its count and tag.
     */
    method MoveAssign(other: MemoryBuffer<T>)
      requires Valid() && other.Valid() && other.backend == backend
      requires other != this && data != null ==> data != other.data
      modifies this, other, backend
      ensures backend.live == Without(old(backend.live), old(data))
      ensures other != this ==>
        && data == old(other.data) && n == old(other.n) && memType == old(other.memType)
        && other.data == null && other.n == old(other.n) && other.memType == old(other.memType)
      ensures other == this ==> data == null && n == old(n) && memType == old(memType)
      ensures Valid() && other.Valid()
    {
      if data != null {
        Destroy();
      }
      n := other.n;
      memType := other.memType;
      data := other.data;
      other.data := null;
    }

    /**
     * `dump()`: moves the elements to pageable host memory (`to_cpu()`), then
     * writes exactly `n * sizeof(T)` bytes: the elements' bytes in order.
     * Whether the stream accepts the write is outside the model and is given
     * by `streamGood`.
     */
    method Dump(codec: Codec<T>, streamGood: bool) returns (r: Result<seq<Byte>, Error>)
      requires Valid() && Lawful(codec)
      requires data != null || n == 0
      modifies this, backend
      ensures Valid() && n == old(n) && Contents() == old(Contents())
      ensures if backend.gpuBuild && old(memType) == Device && old(data) != null then
                && fresh(data)
                && memType == Pageable
                && backend.live == (old(backend.live) - {old(data)})[data := Pageable]
              else
                data == old(data) && memType == old(memType) && backend.live == old(backend.live)
      ensures r.Ok? <==> streamGood
      ensures r.Err? ==> r.error == WriteFailed
      ensures r.Ok? ==> r.value == Serialize(codec, Contents()) && |r.value| == n * codec.width
    {
      ToCpu(Pageable);
      var bytes := Serialize(codec, Contents());
      SerializeLength(codec, Contents());
      if !streamGood {
        return Err(WriteFailed);
      }
      r := Ok(bytes);
    }

    /**
     * `from_dump()` as written: reads the whole file into a new pageable block
     * and adopts its first `|file| / sizeof(T)` elements. A file shorter than
     * one element is rejected by the adopting constructor, and the block read
     * for it is never released.
     */
    static method FromDump(backend: Allocator<T>, codec: Codec<T>, file: seq<Byte>)
      returns (r: Result<MemoryBuffer<T>, Error>)
      requires Lawful(codec)
      modifies backend
      ensures r.Ok? <==> |file| >= codec.width
      ensures r.Err? ==> r.error == ZeroElements && old(backend.live).Keys < backend.live.Keys
      ensures r.Ok? ==>
        && fresh(r.value) && fresh(r.value.data) && r.value.backend == backend && r.value.Valid()
        && r.value.memType == Pageable && r.value.n == |file| / codec.width
        && r.value.Contents() == Deserialize(codec, file)
        && backend.live == old(backend.live)[r.value.data := Pageable]
    {
      var count := |file| / codec.width;
      var elements := Deserialize(codec, file);
      DeserializeLength(codec, file);
      var block := backend.Alloc(NewArray, count);
      forall i | 0 <= i < count {
        block[i] := elements[i];
      }
      assert block[..count] == elements;
      r := Adopt(backend, block, count, Pageable);
      assert r.Err? ==> block in backend.live && block !in old(backend.live);
    }

    /**
     * `from_dump` that gives the block back before reporting a file too short
     * for one element: a failure allocates nothing.
     */
    static method FromDumpChecked(backend: Allocator<T>, codec: Codec<T>, file: seq<Byte>)
      returns (r: Result<MemoryBuffer<T>, Error>)
      requires Lawful(codec)
      modifies backend
      ensures r.Ok? <==> |file| >= codec.width
      ensures r.Err? ==> r.error == ZeroElements && backend.live == old(backend.live)
      ensures r.Ok? ==>
        && fresh(r.value) && fresh(r.value.data) && r.value.backend == backend && r.value.Valid()
        && r.value.memType == Pageable && r.value.n == |file| / codec.width
        && r.value.Contents() == Deserialize(codec, file)
        && backend.live == old(backend.live)[r.value.data := Pageable]
    {
      if |file| < codec.width {
        return Err(ZeroElements);
      }
      r := FromDump(backend, codec, file);
    }
  }
}
