# MemoryBuffer and FITS classification, modelled in Dafny

This project models two parts of astroio.

**`MemoryBuffer<T>`** is a single-owner buffer of `n` elements of a trivially copyable type. Its elements live in one of four residencies: pageable host memory, pinned host memory, GPU device memory, or managed (unified) memory. The model covers:

- allocation, and adoption of a block the caller allocated;
- migration to the CPU and to the GPU;
- deep copy and ownership-transferring move;
- release by the destructor;
- the raw binary dump and its reload.

**The classification logic of the FITS reader.** This covers:

- which header keywords count as special: the mandatory keywords of the FITS Standard (version 4.0, section 4.4.1), plus COMMENT;
- how BITPIX values map to cfitsio pixel datatypes;
- how `read` sizes and classifies each header-data unit (HDU).

Modules:

- `Residency` (`residency.dfy`): memory types, the allocation and release routines, and `Transfer` (memcpy / gpuMemcpy). It also holds `Allocator`, which stands for the allocators of the process. `Allocator` keeps a ghost ledger of live blocks, each with the residency it was allocated in. The two outcomes to rule out are:
  - releasing a block that is not live (a double free);
  - releasing a block with a routine that does not match its residency.

  Both are preconditions of `Allocator.Free`, so every release in the model is proved to happen once and with the matching routine. A leak is a block left in the ledger. Whether GPU support is compiled in is `Allocator.gpuBuild`: a field, so both builds are modelled.
- `Persistence` (`persistence.dfy`): the headerless dump format. An element type is seen through a `Codec`, which gives `sizeof(T)` and the reinterpretation of an element as bytes and back.
- `MemoryBuffers` (`memory_buffer.dfy`): the class `MemoryBuffer`. A pointer is an array reference and a null pointer is `null`.
  - Constructors that can throw are static methods returning a `Result`: `Create`, `Adopt` and `FromDump`.
  - The destructor is `Destroy`.
  - Where the code has a defect, the model has two members: one that behaves as written, and a `...Checked` one with the intended behaviour (see Findings).
- `BufferScenarios` (`buffer_scenarios.dfy`): sequences of calls. They show what callers can conclude from the contracts alone, and give counterexamples for the findings.
- `Fits` (`fits.dfy`): special keywords, pixel types, `Hdu.SetImage`, and the per-HDU classification in `read`.

Three behaviours of the code differ from what a reader of the buffer's interface might expect. The model follows the code in each case:

- **`allocate` is not strongly exception-safe.** It releases the held block before it checks its arguments.
- **A move keeps the source's count.** Only the source's pointer is cleared.
- **Self-move-assignment clears the buffer.** The buffer releases its block, then clearing "the other" pointer clears its own. It ends without a block (nothing dangles) but keeps its count and tag.

## Model

| member | source | states |
|---|---|---|
| `Residency.Allocator.Alloc` | src/memory_buffer.hpp:85-96 | a fresh block of exactly the requested count, recorded in the ledger with the routine's residency; GPU routines only on GPU builds |
| `Residency.Allocator.Free` | src/memory_buffer.hpp:259-266 | only a live block may be released, only with the routine matching its residency; it leaves the ledger and nothing else does |
| `Residency.Transfer` | src/memory_buffer.hpp:115 | the destination's first `count` elements equal the source's, the rest of the destination is untouched |
| `Persistence.Serialize` | src/memory_buffer.hpp:148 | the bytes `dump` writes, each element's `sizeof(T)` bytes in order; `SerializeLength` proves their length and `RoundTrip` proves that `Deserialize` reads them back |
| `Persistence.Deserialize` | src/memory_buffer.hpp:164-167 | the elements `from_dump` reinterprets the file as, one per whole `sizeof(T)`-byte chunk; `DeserializeLength` proves the count is the floor division and `TrailingBytesDropped` that a partial chunk is ignored |
| `Persistence.SerializeLength` | src/memory_buffer.hpp:148 | a dump of `n` elements is exactly `n * sizeof(T)` bytes |
| `Persistence.DeserializeLength` | src/memory_buffer.hpp:162-167 | a file of `k` bytes loads as `k / sizeof(T)` elements |
| `Persistence.TrailingBytesDropped` | src/memory_buffer.hpp:162-167 | a dump followed by fewer than `sizeof(T)` stray bytes loads as the dumped elements (the partial element is discarded) |
| `Persistence.RoundTrip` | src/memory_buffer.hpp:144-168 | loading a dump gives back exactly the dumped elements |
| `MemoryBuffers.MemoryBuffer.Empty` | src/memory_buffer.hpp:38 | the default buffer holds no block, has count 0 and is valid; its tag is unspecified |
| `MemoryBuffers.MemoryBuffer.Size` | src/memory_buffer.hpp:193 | the count; for a buffer with a block it is positive and equals the number of elements held |
| `MemoryBuffers.MemoryBuffer.HasData` | src/memory_buffer.hpp:64-66 | true exactly when a block is held, and then the block is live and holds `n > 0` elements |
| `MemoryBuffers.MemoryBuffer.OnGpu` | src/memory_buffer.hpp:184 | true exactly for the DEVICE tag; a held block then really is device memory, on a GPU build |
| `MemoryBuffers.MemoryBuffer.IsPinned` | src/memory_buffer.hpp:189 | true exactly for the PINNED tag; a held block then really is pinned memory, on a GPU build |
| `MemoryBuffers.MemoryBuffer.Data` | src/memory_buffer.hpp:176 | the owned block itself, unchecked; when non-null it is live and holds the `n` elements |
| `MemoryBuffers.MemoryBuffer.Get` | src/memory_buffer.hpp:257 | element `i` of the contents, for an index in range |
| `MemoryBuffers.MemoryBuffer.Set` | src/memory_buffer.hpp:256 | the contents with element `i` replaced and nothing else changed |
| `MemoryBuffers.MemoryBuffer.Destroy` | src/memory_buffer.hpp:259-266 | releases the held block, if any, exactly once with the tag's routine; a buffer without a block releases nothing |
| `MemoryBuffers.MemoryBuffer.Allocate` | src/memory_buffer.hpp:76-99 | errors in the source's order (non-PAGEABLE on a CPU build, then zero count); success gives a fresh live block, `size() == k`, tag `t`, the old block released once; failure has released the old block and left the pointer to it |
| `MemoryBuffers.MemoryBuffer.AllocateChecked` | src/memory_buffer.hpp:76-99 | the same results and errors, but a failure leaves the buffer and the ledger unchanged |
| `MemoryBuffers.MemoryBuffer.Create` | src/memory_buffer.hpp:30-32 | the sized constructor: the errors of `allocate`; on success a fresh valid buffer with the given count and tag and one new live block; on failure nothing allocated |
| `MemoryBuffers.MemoryBuffer.Adopt` | src/memory_buffer.hpp:46-58 | rejects non-PAGEABLE on a CPU build, then a zero count, then a null pointer; otherwise stores the given block, count and tag without copying |
| `MemoryBuffers.MemoryBuffer.ToCpu` | src/memory_buffer.hpp:104-120 | on a GPU build a DEVICE buffer with a block gets a fresh PINNED block (if asked) or PAGEABLE one, same count and contents, device block freed; otherwise nothing changes |
| `MemoryBuffers.MemoryBuffer.ToGpu` | src/memory_buffer.hpp:125-138 | on a GPU build a non-DEVICE buffer with a block gets a fresh DEVICE block, same count and contents, old block freed with its tag's routine; otherwise nothing changes |
| `MemoryBuffers.MemoryBuffer.CloneBlock` | src/memory_buffer.hpp:199-213 | a fresh block of the source's residency and count, holding the source's elements |
| `MemoryBuffers.MemoryBuffer.CopyOf` | src/memory_buffer.hpp:195-215 | same count and tag; a source with a block gives a fresh block with equal contents, a source without one gives no block |
| `MemoryBuffers.MemoryBuffer.MoveFrom` | src/memory_buffer.hpp:217-221 | the new buffer has the source's block, count and tag; the source loses its pointer but keeps its count and tag |
| `MemoryBuffers.MemoryBuffer.CopyAssign` | src/memory_buffer.hpp:223-245 | self-assignment changes nothing; otherwise the old block is released, count and tag are copied, and a source with a block gives a fresh equal copy, but a source without one leaves the released pointer in place |
| `MemoryBuffers.MemoryBuffer.CopyAssignChecked` | src/memory_buffer.hpp:223-245 | as copy assignment, but copying from a buffer without a block leaves this one valid and without a block |
| `MemoryBuffers.MemoryBuffer.MoveAssign` | src/memory_buffer.hpp:247-254 | releases the held block once; takes the other's block, count and tag and clears the other's pointer; self-move ends with no block and the old count and tag |
| `MemoryBuffers.MemoryBuffer.Dump` | src/memory_buffer.hpp:144-153 | first moves the elements to host memory as `to_cpu()` does: on a GPU build a DEVICE buffer with a block gets a fresh PAGEABLE block with the same count and contents, and the device block is freed and leaves the ledger; otherwise the buffer and the ledger are unchanged. It then writes exactly `n * sizeof(T)` bytes, the elements in order; a failing stream is a WriteFailed error |
| `MemoryBuffers.MemoryBuffer.FromDump` | src/memory_buffer.hpp:158-168 | a file of at least one element gives a fresh valid PAGEABLE buffer of `fileBytes / sizeof(T)` elements, decoded from the file; a shorter file is a zero-count error that leaves a block allocated |
| `MemoryBuffers.MemoryBuffer.FromDumpChecked` | src/memory_buffer.hpp:158-168 | the same results, but a file shorter than one element allocates nothing |
| `BufferScenarios.CopyIsIndependent` | src/memory_buffer.hpp:195-215 | after writes into a copy and into its original, each holds its own write and not the other's |
| `BufferScenarios.ToCpuTwice` | src/memory_buffer.hpp:104-120 | two `to_cpu` calls leave the state a single call leaves |
| `BufferScenarios.ToGpuTwice` | src/memory_buffer.hpp:125-138 | two `to_gpu` calls leave the state a single call leaves |
| `BufferScenarios.DeviceRoundTrip` | src/memory_buffer.hpp:104-138 | a pageable buffer sent to the GPU and back is pageable again with the same count and contents, and only its new block remains allocated |
| `BufferScenarios.MoveThenDestroy` | src/memory_buffer.hpp:217-221 | a moved-from buffer's destructor releases nothing; the new owner releases the block exactly once |
| `BufferScenarios.NoLeakLifecycle` | src/memory_buffer.hpp:259-266 | allocate, migrate, copy, migrate, move, then destroy all: the ledger ends as it began (no leak, no double free) |
| `BufferScenarios.DumpThenLoad` | src/memory_buffer.hpp:144-168 | dumping a buffer with a block and loading the file gives a PAGEABLE buffer of the same size and contents |
| `BufferScenarios.FailedAllocateDangles` | src/memory_buffer.hpp:76-84 | after `allocate(0)` on a buffer of four elements, the buffer points at a block no longer live |
| `BufferScenarios.CopyFromEmptyDangles` | src/memory_buffer.hpp:225-231 | copy-assigning from a moved-from buffer leaves the destination pointing at a block no longer live |
| `Fits.IsSpecialKeyword` | src/FITS.cpp:19-27 | true exactly for SIMPLE, BITPIX, COMMENT, EXTEND, NAXIS and for the axis keywords NAXISk with k >= 1 spelled in decimal without a leading zero; false for every other key |
| `Fits.MatchesNaxisPattern` | src/FITS.cpp:24-25 | the anchored pattern `^NAXIS[1-9][0-9]*$`; `AxisKeywordMatchesPattern` and `PatternNamesAnAxis` prove it holds exactly for the axis keywords NAXISk with k >= 1 |
| `Fits.AxisKeywordMatchesPattern` | src/FITS.cpp:24-25 | every axis keyword NAXIS1, NAXIS2, ... matches `^NAXIS[1-9][0-9]*$` |
| `Fits.PatternNamesAnAxis` | src/FITS.cpp:24-25 | every key matching `^NAXIS[1-9][0-9]*$` is the axis keyword of a positive axis number |
| `Fits.DecimalIsCanonical` | src/FITS.cpp:24 | the decimal spelling of a number is digits only, has no leading zero when positive, and reads back as the number |
| `Fits.CanonicalIsDecimal` | src/FITS.cpp:24 | a digit string without a leading zero spells a positive number whose decimal spelling is that string |
| `Fits.NaxisPatternExamples` | src/FITS.cpp:24-25 | NAXIS1 and NAXIS12 match; NAXIS0, NAXIS01, NAXIS1X and NAXIS do not |
| `Fits.PixelTypeFor` | src/FITS.cpp:57-71 | a datatype exactly for BITPIX 8, 32, -32 and -64, and then the one whose BITPIX is the given value; the same switch decides `read`'s datatype at FITS.cpp:133-139 |
| `Fits.PixelTypeForInvertsBitpix` | src/FITS.cpp:57-71 | the BITPIX mapping is the exact inverse of the datatype-to-BITPIX table (BYTE, LONG, FLOAT, DOUBLE); 16- and 64-bit integer images are not recognised |
| `Fits.Hdu.SetImage` | src/FITS.cpp:51-74 | releases the old block once, takes ownership of the new one, records bitpix and both axes; sets the datatype for a recognised BITPIX, else fails with those fields already overwritten and the datatype unchanged |
| `Fits.ImageBytesExact` | src/FITS.cpp:132 | for a recognised BITPIX the byte count `pixels * abs(bitpix) / 8` is exactly `pixels` times the pixel width |
| `Fits.ClassifyHdu` | src/FITS.cpp:126-147 | two axes with a recognised BITPIX give an image of `axes[0] * axes[1] * width` bytes, with that BITPIX's datatype; two axes with any other BITPIX are an error; zero axes give a header-only HDU; any other number of axes is an error |
| `Fits.ReadHdus` | src/FITS.cpp:100-148 | HDUs are classified in order: success exactly when every HDU classifies, with each result in place; otherwise the error of the first HDU that fails |

## Findings

| source | as written | input that shows it | evidently intended | confidence | as-written member | corrected member |
|---|---|---|---|---|---|---|
| src/memory_buffer.hpp:76-84 | `allocate` runs the destructor on the held block before checking its arguments, and never clears `_data` | a buffer of 4 PAGEABLE elements, then `allocate(0)`: it throws, and the buffer's destructor later calls `delete[]` on the released block again | check the arguments first, so that a failed call changes nothing | high; not executed | `BufferScenarios.FailedAllocateDangles` | `MemoryBuffers.MemoryBuffer.AllocateChecked` |
| src/memory_buffer.hpp:225-231 | copy assignment from a buffer without a block releases the destination's block and leaves `_data` pointing at it | `a` with 4 elements, `c` with 1 element moved into `d`, then `a = c`: `a`'s destructor frees the released block again | clear `_data` so the destination ends without a block | high; not executed | `BufferScenarios.CopyFromEmptyDangles` | `MemoryBuffers.MemoryBuffer.CopyAssignChecked` |
| src/memory_buffer.hpp:164-167 | `from_dump` allocates the read buffer before the adopting constructor checks the element count; when that check throws, the buffer is lost | a file of fewer than `sizeof(T)` bytes (an empty file included) | release the buffer, or reject the file before allocating | high; not executed | `MemoryBuffers.MemoryBuffer.FromDump` | `MemoryBuffers.MemoryBuffer.FromDumpChecked` |

## Left out

- File I/O is not modelled. A file is a byte sequence: `FromDump` is given it, and `Dump` returns it.
  - Whether the output stream accepts the write is the `streamGood` parameter of `Dump`.
  - A missing or unreadable input file is not modelled: `tellg` failing, and the allocation that follows.
- GPU runtime calls are modelled only as ledger updates and element copies. These are `gpuMalloc`, `gpuHostAlloc`, `gpuMallocManaged`, `gpuMemcpy`, `gpuFree` and `gpuHostFree`. The `__host__ __device__` annotations are not modelled.
- Allocation failure (out of memory, `std::bad_alloc`) is not modelled: every allocation succeeds.
- Host access to device memory is not flagged. The model's blocks are readable whatever their residency, so `Get`, `Set`, `Data` and `Dump`'s write do not check where the elements live. In the source this is the caller's responsibility.
- Fixed-width arithmetic is not modelled. Counts and sizes are unbounded, so the model never sees:
  - overflow of `n * sizeof(T)`;
  - overflow of `axes[0] * axes[1] * abs(bitPix)` in `long`;
  - the `int` index of `operator[]` narrowing.
- The default constructor leaves the tag uninitialised. The model gives it an arbitrary value, and nothing depends on it while there is no block.
- The `from_dump` block is allocated as `char[]` and later freed through `T*` with `delete[]`. The model treats this as a pageable block released by the matching routine.
- MemoryBuffers.MemoryBuffer.Adopt: requires that a block it will accept was allocated with the routine for the given tag and holds at least the given count. The source cannot check this and trusts its caller.
- MemoryBuffers.MemoryBuffer.Dump: requires that a buffer without a block has count 0. The source would write from a null pointer for a moved-from buffer.
- MemoryBuffers.MemoryBuffer.CopyAssign: requires that two distinct buffers never own the same block. This is the single-owner invariant, which no one buffer can state about another.
- MemoryBuffers.MemoryBuffer.MoveAssign: requires the same single-owner invariant.
- BufferScenarios.NoLeakLifecycle: is stated for a GPU build only.
- Concurrency is not modelled. The buffer has no internal synchronisation.
- The cfitsio plumbing in `FITS.cpp` is not modelled. This is `print_fits_error`, the `FITS` constructor and destructor, file opening and HDU navigation in `read`, `append_hdu` and `write`: all I/O through a library the model does not include.
- Keyword value typing in `read` is not modelled, nor is the HDU keyword table it fills. Typing tries int, then double, then string, through `std::stringstream`.
- Fits.ReadHdus: classifies the HDUs but does not read pixels or call `set_image` for them.
- Fits.ClassifyHdu: does not capture that `read` allocates the pixel buffer before rejecting an unsupported BITPIX. That buffer is never released, and the classification has no heap.
- cfitsio's conversion of pixels to the C type named by a datatype code is not modelled. TLONG is C `long`, which is 8 bytes on LP64 platforms, while `read` allocates 4 bytes per LONG_IMG pixel.
- Fits.Hdu.SetImage: requires that a new block differs from the block the HDU already owns. The source would delete that block and keep the dead pointer; its only caller in `read` always passes a block it has just allocated.
- Default arguments are not modelled: `allocate(n, t = PAGEABLE)`, `MemoryBuffer(n, t = PAGEABLE)` and `to_cpu(t = PAGEABLE)`. `Allocate`, `Create` and `ToCpu` take the memory type explicitly, and a caller relying on the default passes `Pageable`.
- `FITS.hpp` is not part of this model. The HDU's initial fields are taken as no block, BITPIX 0, axes `[0, 0]`, and an unspecified datatype.
