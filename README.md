# STrace driver and plugin interface — a Dafny model

STrace is a Windows kernel driver that traces system calls. It hooks them through the
kernel's dynamic-trace interface and hands each one to a plugin. This project models the
driver's and the plugin interface's core logic and proves properties of it:

- **The argument view `MachineState`.** It shows one zero-based argument index over two
  caller-owned arrays of 64-bit words: the register arguments and the stack arguments.
  The plugin's copy can read and write arguments, the return value (register slot 0) and
  the call target (register slot 4). The driver's copy only reads, behind an extra guard.
  (`argument_layout.dfy`, `plugin_machine_state.dfy`, `driver_interface.dfy`)
- **ETW field descriptors.** These are the TraceLogging in-type and out-type enumerations,
  the packing `ETW_FIELD(in, out) = in | 0x80 | out << 8`, and the table of named field
  types a plugin passes when it logs an event. (`etw_fields.dfy`)
- **`CallerInfo`.** This is the record of the calling process. It holds the process-id
  and process-name tests and the stack-trace capture, which attributes each return
  address to a loaded module whose range holds it: the first such module when its base
  is nonzero, since base 0 also marks a frame as not yet attributed. Kernel modules are
  tried before user modules. (`driver_interface.dfy`)
- **`TraceAccessMemory`.** This is the chunked copy between a safe buffer and a possibly
  faulting one. It also covers the per-thread plugin data slots `SetTLSData` and
  `GetTLSData`. (`dynamic_trace.dfy`)
- **The per-thread probe state.** A thread's tracing-private pointer is either empty or
  points at a `TLSData` record. The record holds the probe call depth, which entry probes
  raise and exit probes lower. It is allocated on demand. It is released only by an exit
  probe that is allowed to free (`shouldFree`, false by default) and brings the depth back
  to 0. (`dynamic_trace_api.dfy`)

Fixed-width integers are subset types of `int`, and every C conversion of an integral or
pointer value to `uint64_t` is written out as `ToUInt64` (reduction modulo 2^64)
(`words.dfy`). Descriptor arithmetic
uses `bv32`, so its bit positions are those of the wire format.

Some things the driver gets from the kernel become parameters of the model:

- the current thread;
- the loaded-module lists;
- the captured return addresses;
- the process id, name and bitness;
- the outcome of each allocation.

A nullable pointer is an `Option`.

## Model

| member | source | states |
|---|---|---|
| `EtwFields.EtwField` | C/EtwCallbackPlugin/Interface.h:119 | For an in-type below 0x80, the low seven bits of the packed descriptor are the in-type. Bit 7, the "out-type follows" marker, is always set. For an in-type below 0x100 and an out-type below 2^24, the bits from 8 up are the out-type. |
| `EtwFields.Decode` | C/EtwCallbackPlugin/Interface.h:119-170 | A descriptor that decodes names declared enumerators only. It decodes to a composite exactly when the marker bit is set. |
| `EtwFields.DecodeEncode` | C/EtwCallbackPlugin/Interface.h:119-170 | Every descriptor built from a declared in-type (0..23) and a declared out-type (0..18) decodes back to the same pair. A bare in-type decodes back to itself. |
| `EtwFields.EncodeDecode` | C/EtwCallbackPlugin/Interface.h:119 | A wire value that decodes is exactly the encoding of what it decodes to. So no two descriptors share a meaning. |
| `EtwFields.CompositeFieldTypeValues` | C/EtwCallbackPlugin/Interface.h:189-213 | The named types built with `ETW_FIELD` have the integer values a consumer sees: `EtwFieldHexInt8 == EtwFieldHexUInt8 == 0x484`, `EtwFieldPid == 0x588`, `EtwFieldNtstatus == 0xE88`, `EtwFieldSocketAddress == 0xA8E`, and so on. |
| `EtwFields.PlainFieldTypeValues` | C/EtwCallbackPlugin/Interface.h:174-215 | The bare named types equal their in-types: `EtwFieldUInt32 == 8`, `EtwFieldUnicodeString == 0x16`, and so on. `EtwFieldCountedWideString` has the counted-ANSI value 0x17. |
| `EtwFields.PlainFieldTypesDecode` | C/EtwCallbackPlugin/Interface.h:172-215 | Every bare named type carries no marker bit and decodes to its own in-type. |
| `EtwFields.CompositeFieldTypesDecode` | C/EtwCallbackPlugin/Interface.h:172-215 | Every `ETW_FIELD`-built named type carries the marker bit and decodes to a declared (in-type, out-type) pair. |
| `ArgumentLayout.RegisterCount` | C/EtwCallbackPlugin/Interface.h:19-28 | The accepted indices below `regArgsSize` number `min(regArgsSize, paramCount + 1)`. |
| `ArgumentLayout.StackCount` | C/EtwCallbackPlugin/Interface.h:22-25 | The remaining accepted indices go to the stack array. There are some exactly when `regArgsSize <= paramCount`. |
| `ArgumentLayout.Locate` | C/EtwCallbackPlugin/Interface.h:19-28 | An index past `paramCount` is dropped (`idx == paramCount` is accepted). An index below `regArgsSize` is register slot `idx`. Any other index is stack slot `idx - regArgsSize`, so stack indexing restarts at 0. |
| `ArgumentLayout.LogicalArguments` | C/EtwCallbackPlugin/Interface.h:17-29 | The argument list has `paramCount + 1` entries. Entry `i` is register word `i` when `i < regArgsSize`, and stack word `i - regArgsSize` otherwise. |
| `ArgumentLayout.LocateInjective` | C/EtwCallbackPlugin/Interface.h:31-43 | Two different accepted indices never share a slot. |
| `ArgumentLayout.LocateOnto` | C/EtwCallbackPlugin/Interface.h:17-29 | Every used register or stack slot is reached by one accepted index. |
| `ArgumentLayout.ClampAcceptsWordAfterArguments` | C/EtwCallbackPlugin/Interface.h:19-28 | Because the clamp is `idx > paramCount`, index `paramCount` is accepted. It is the word right after the declared arguments: register word `paramCount` when they all fit in registers, and stack word `paramCount - regArgsSize` otherwise. |
| `ArgumentLayout.CoversNeedsExtraWord` | C/EtwCallbackPlugin/Interface.h:19-43 | Arrays that hold every accepted index hold one word past the declared arguments. |
| `PluginMachineState.MachineState.constructor` | C/EtwCallbackPlugin/Interface.h:9-15 | The view holds the given counts and arrays. |
| `PluginMachineState.MachineState.Arguments` | C/EtwCallbackPlugin/Interface.h:9-29 | The view's argument list has `paramCount + 1` entries. |
| `PluginMachineState.MachineState.ReadArgument` | C/EtwCallbackPlugin/Interface.h:17-29 | `read_argument(idx)` is argument `idx` of the list for `idx <= paramCount`, and 0 past it. |
| `PluginMachineState.MachineState.WriteArgument` | C/EtwCallbackPlugin/Interface.h:31-43 | An index past `paramCount` changes neither array. Otherwise the list becomes the old list with entry `idx` set to `(uint64_t)value`. Exactly the word `read_argument` selects changes, and the other array is untouched. Every later `read_argument` returns the new value at `idx` and the old value elsewhere. |
| `PluginMachineState.MachineState.RedirectSyscall` | C/EtwCallbackPlugin/Interface.h:45-48 | Only register slot 4 changes, to the new target. With at most four register arguments, no argument changes. |
| `PluginMachineState.MachineState.ReadReturnValue` | C/EtwCallbackPlugin/Interface.h:50-52 | The return value is register slot 0, whatever `paramCount` is. It is also argument 0 whenever argument 0 lives in a register. |
| `PluginMachineState.MachineState.WriteReturnValue` | C/EtwCallbackPlugin/Interface.h:54-57 | Only register slot 0 changes, to `(uint64_t)value`. `read_return_value` then returns that value. |
| `DriverInterface.MachineState.constructor` | C/STrace/Interface.h:34-40 | The view holds the given counts and arrays. |
| `DriverInterface.MachineState.ReadArgument` | C/STrace/Interface.h:42-54 | `read_argument(idx)` is 0 when `idx > paramCount` or `regArgsSize > paramCount`. Otherwise it is argument `idx` of the two-array layout. |
| `DriverInterface.Unattributed` | C/STrace/Interface.h:162-170 | A fresh frame holds its return address, base 0 and an empty path. |
| `DriverInterface.StoredPath` | C/STrace/Interface.h:179-183 | A frame records the module's path when it fits with its terminator, and `NAME_TOO_LONG` otherwise. The recorded path plus terminator always fits in `MAX_PATH` bytes. |
| `DriverInterface.PathGuardAsWrittenOverflows` | C/STrace/Interface.h:179 | The guard as written, `strlen(path) <= sizeof(modulePath)`, admits a path of exactly `MAX_PATH` characters whose terminator does not fit. |
| `DriverInterface.AttributeKeepsAddress` | C/STrace/Interface.h:172-203 | Attribution never moves a frame's return address. |
| `DriverInterface.AttributeAppend` | C/STrace/Interface.h:172-203 | The kernel pass followed by the user pass acts as one scan over the kernel modules and then the user modules. |
| `DriverInterface.AttributedFrameKept` | C/STrace/Interface.h:172-203 | A frame whose base is already set is never overwritten. |
| `DriverInterface.UnmatchedFrameKept` | C/STrace/Interface.h:162-203 | A frame whose address lies in no module keeps base 0 and an empty path. |
| `DriverInterface.FirstMatchWins` | C/STrace/Interface.h:172-203 | An unattributed frame ends with the base and stored path of the first module whose `[base, base + size)` range holds its address (the end computed modulo 2^64), provided that module's base is nonzero, whatever modules follow. |
| `DriverInterface.AttributionSound` | C/STrace/Interface.h:177-183 | A frame is either unchanged, or was unattributed and now carries the base and path of a module whose range holds its address. |
| `DriverInterface.KernelModulesFirst` | C/STrace/Interface.h:172-203 | An unattributed frame whose first matching kernel module has a nonzero base is attributed to that module, whatever the user modules are. |
| `DriverInterface.ZeroBaseMatchIsOverwritten` | C/STrace/Interface.h:172-199 | Base 0 doubles as the "not yet attributed" mark. A matching module at base 0 records its path but leaves the base 0, so a later matching module with a nonzero base overwrites the frame. |
| `DriverInterface.CallerInfo.constructor` | C/STrace/Interface.h:121-134 | A new record holds the process id, name and bitness, with no frames. |
| `DriverInterface.CallerInfo.IsTargetProcId` | C/STrace/Interface.h:143-145 | True exactly when the record's process id is `pid`. |
| `DriverInterface.CallerInfo.IsTargetProcName` | C/STrace/Interface.h:147-150 | True exactly when the record's process name equals `procName`. |
| `DriverInterface.CallerInfo.CaptureStackTrace` | C/STrace/Interface.h:152-203 | When the frame buffer is allocated, there is one frame per captured address, `frames[i].frameaddress` is address `i`, and each frame is attributed over the kernel modules followed by the user modules, storing paths with the corrected `<` guard of `StoredPath` (see Findings). When the allocation fails, `frames` becomes null (the pool result is stored before it is tested) and `frameDepth` keeps its old value. |
| `DriverInterface.Consider` | C/STrace/Interface.h:177-183 | One module considered for one frame never moves its address and never touches an attributed frame. An unattributed frame whose address lies in the module's range takes the module's base and stored path; it changes in no other case. If it changes the frame, the address lies in the module's range and the frame takes the module's base and its path as stored under the corrected `<` guard (`StoredPath`, see Findings). |
| `DriverInterface.Attribute` | C/STrace/Interface.h:172-203 | The attribution of a frame over a module sequence, in order. It leaves an attributed frame as it is. |
| `DriverInterface.AttributePass` | C/STrace/Interface.h:172-186 | One module enumeration leaves each frame as the attribution of its old value over the enumerated modules. |
| `DynamicTraceApi.KThread.constructor` | C/STrace/DynamicTrace.h:97-108 | A new thread's tracing-private pointer is empty. |
| `DynamicTraceApi.RawTlsData` | C/STrace/DynamicTrace.h:97-109 | `getRawTLSData` gives nothing when the tracing-private array size is 0, and the thread's record otherwise. |
| `DynamicTraceApi.Calldepth` | C/STrace/DynamicTrace.h:155-179 | `getTlsDataCalldepth` is 0 when the array size is 0 or the pointer is empty. Otherwise it is the stored `calldepth`. |
| `DynamicTraceApi.SetCalldepth` | C/STrace/DynamicTrace.h:112-153 | With array size 0, nothing changes and `calledChildren` is false. A failed allocation leaves the pointer empty and reports false. `shouldFree && value == 0` empties the pointer and reports true. Otherwise the depth becomes `value`, the plugin words of an existing record are kept, and `calledChildren` says whether a record was allocated. |
| `DynamicTraceApi.SetThenGet` | C/STrace/DynamicTrace.h:112-179 | Whenever the record exists or can be allocated, `getTlsDataCalldepth` after `setTlsDataCalldepth(value, …)` returns `value`. |
| `DynamicTraceApi.EnterRaisesDepth` | C/STrace/DynamicTrace.h:77-83 | `EnterProbe` keeps a record and raises the depth by exactly 1, modulo 2^64. |
| `DynamicTraceApi.Enter` | C/STrace/DynamicTrace.h:77-83 | With array size 0 nothing changes. Otherwise, when a record exists or can be allocated, an entry probe leaves a record and reports `calledChildren` exactly when it allocated. |
| `DynamicTraceApi.Exit` | C/STrace/DynamicTrace.h:85-91 | With array size 0 nothing changes. An exit probe releases the record only when `shouldFree` holds and the depth was 1, and then it reports `calledChildren`. |
| `DynamicTraceApi.ExitLowersDepth` | C/STrace/DynamicTrace.h:85-91 | `ExitProbe` lowers the depth by exactly 1, modulo 2^64. |
| `DynamicTraceApi.ExitAtZeroWraps` | C/STrace/DynamicTrace.h:85-91 | `ExitProbe` at depth 0 keeps the record and sets the depth to 2^64 - 1. |
| `DynamicTraceApi.EnterThenExitFrees` | C/STrace/DynamicTrace.h:77-91 | From the empty state, `EnterProbe` allocates a record at depth 1 and `ExitProbe(true)` returns to the empty state. Both report `calledChildren`. |
| `DynamicTraceApi.ExitWithoutFreeKeepsRecord` | C/STrace/DynamicTrace.h:85-148 | `ExitProbe(false)` at depth 1 leaves the record allocated, at depth 0. |
| `DynamicTraceApi.InsideProbeExactly` | C/STrace/DynamicTrace.h:93-95 | `isCallFromInsideProbe` holds exactly when the array size is nonzero and the thread has a record at depth above 1. A thread without a record is never inside a probe. |
| `DynamicTraceApi.EnterFromRunningProbeIsInside` | C/STrace/DynamicTrace.h:77-95 | An entry probe on a thread at depth `d` with `1 <= d < 2^64 - 1` lands inside a probe. A thread with a record is outside a probe exactly at depth 1 (for `d >= 1`). |
| `DynamicTraceApi.NestedEntryIsInsideProbe` | C/STrace/DynamicTrace.h:93-95 | After one entry from the empty state, the thread is not inside a probe (depth 1). After a second entry it is (depth 2 > 1). |
| `DynamicTraceApi.NoArrayNoEffect` | C/STrace/DynamicTrace.h:97-179 | With array size 0: set, enter and exit change nothing; `getRawTLSData` gives nothing; the depth reads 0; and no call is inside a probe. |
| `DynamicTraceApi.TraceApi.constructor` | C/STrace/DynamicTrace.h:48-53 | The context holds the given tracing-private array size. |
| `DynamicTraceApi.TraceApi.SetTlsDataCalldepth` | C/STrace/DynamicTrace.h:112-153 | The thread's new pointer and `calledChildren` are those `SetCalldepth` gives for the old pointer. |
| `DynamicTraceApi.TraceApi.EnterProbe` | C/STrace/DynamicTrace.h:77-83 | The new state is `setTlsDataCalldepth(depth + 1, …, false)` applied to the old state. |
| `DynamicTraceApi.TraceApi.ExitProbe` | C/STrace/DynamicTrace.h:85-91 | The new state is `setTlsDataCalldepth(depth - 1, …, shouldFree)` applied to the old state. |
| `DynamicTrace.CopiedLength` | C/STrace/DynamicTrace.cpp:36-60 | With width 1, 2, 4 or 8, the whole chunks are copied and fewer than a chunk remain. With any other width, nothing is copied. |
| `DynamicTrace.Transferred` | C/STrace/DynamicTrace.cpp:36-60 | The destination keeps its length. |
| `DynamicTrace.WholeChunksCopyEverything` | C/STrace/DynamicTrace.cpp:36-64 | With width 1, 2, 4 or 8 and a length that is a whole number of chunks, the access succeeds. All `NumberOfBytes` bytes arrive, and nothing past them changes. |
| `DynamicTrace.OverhangFails` | C/STrace/DynamicTrace.cpp:37-39 | A length that is not a whole number of chunks fails. The `CopiedLength` prefix is copied (the whole chunks for widths 1, 2, 4 and 8, nothing for any other width) and the rest is untouched. |
| `DynamicTrace.OtherWidthsCopyNothing` | C/STrace/DynamicTrace.cpp:41-56 | A width other than 1, 2, 4 or 8 leaves the destination as it was. |
| `DynamicTrace.NothingPastTheLength` | C/STrace/DynamicTrace.cpp:36-60 | Bytes past `NumberOfBytes` are never written. |
| `DynamicTrace.TraceAccessMemory` | C/STrace/DynamicTrace.cpp:5-65 | In read mode the unsafe buffer is copied into the safe one. In write mode the roles are swapped, and the other buffer is unchanged. The result is TRUE exactly when the length is 0 or a whole number of chunks. |
| `DynamicTrace.CopyChunks` | C/STrace/DynamicTrace.cpp:36-64 | The copy loop leaves the destination as `Transferred` says, and reports success exactly for a whole number of chunks. |
| `DynamicTrace.TlsSlotValue` | C/STrace/DynamicTrace.cpp:93-111 | A slot has a value exactly when `slot < 64`, the trace context exists, and the thread has a record. The value is that record's word `slot`. |
| `DynamicTrace.SetTlsData` | C/STrace/DynamicTrace.cpp:67-91 | The call fails and changes nothing when the slot is past 63, the context is null, or there is no record. Otherwise only word `slot` changes, it reads back as `value`, and every other slot reads as before. |
| `DynamicTrace.GetTlsData` | C/STrace/DynamicTrace.cpp:93-117 | The call succeeds under the same conditions, with the stored word. On failure the reference parameter is left as it was. |

## Left out

- `PluginMachineState.MachineState.ReadArgument`, `PluginMachineState.MachineState.WriteArgument`, `DriverInterface.MachineState.ReadArgument`: the view is described only when the arrays hold every index the clamp accepts, `paramCount + 1` words. That is one word past the declared arguments (`CoversNeedsExtraWord`). A call whose arrays hold exactly its declared arguments, such as a 4-parameter call with 4 register words and no stack words, is not described. The source then reads or writes outside the arrays at index `paramCount`, and the model does not capture that access.
- `PluginMachineState.MachineState.WriteArgument`, `PluginMachineState.MachineState.WriteReturnValue`: the source's templates accept any `T`. The model's `value: int` stands for an integral or pointer argument, converted modulo 2^64. A floating-point `T`, whose `(uint64_t)` conversion truncates toward zero and is undefined out of range, is not modelled.
- `PluginMachineState.MachineState.WriteArgument`: requires the register and stack arrays to be distinct objects. A view whose two pointers alias the same buffer is not modelled.
- The probing of user addresses (`ProbeForRead`, `ProbeForWrite`, `MmUserProbeAddress`) and all structured exception handling. The copy is modelled as total over two distinct buffers of sufficient length. A fault, and the FALSE it would produce, is not modelled.
- `TraceAccessMemory` with `ChunkSize == 0` and a nonzero length never terminates, so the model requires a nonzero chunk size whenever the length is nonzero.
- `TraceAccessMemory` works on byte sequences held in two separate arrays. Overlapping source and destination and unaligned wide accesses are not modelled.
- `DynamicTrace.CopyChunks` is the loop of `TraceAccessMemory` in its own method, called once source and destination are chosen.
- Lookaside-list allocation and release become a parameter: the allocator's result, none on failure. The placement construction of a `CallerInfo` inside a new record is not modelled, and `TLSData` keeps only `calldepth` and the 64 plugin words.
- `KeGetCurrentThread` and the kthread offset arithmetic: the current thread is a parameter, and its tracing-private slot 0 is a field. `__debugbreak` is treated as returning.
- The global `TraceSystemApi` is a nullable parameter of `SetTlsData` and `GetTlsData`. `TraceApi` keeps only `kthread_tracingprivatedata_arraysize`. The probe-registration function pointers are not modelled.
- Module enumeration (`EnumKernelModeModules`, `EnumUserModeModules` and their PEB/LDR list walks), `KphEnumerateSystemModules` and `KphCaptureStackBackTrace`: the module lists and the captured return addresses are inputs. `skipFrameCount` is left out with them.
- `DriverInterface.CallerInfo.CaptureStackTrace`: the model, like the source, drops any buffer a previous capture allocated without freeing it (the source leaks it). The model has no pool to show the leak. The destructor of `CallerInfo` is not modelled.
- `DriverInterface.FirstMatchWins`, `DriverInterface.KernelModulesFirst`: promise the first matching module only when its base is nonzero. A module loaded at base 0 does not settle the frame, because the source reads base 0 as "not yet attributed" (`ZeroBaseMatchIsOverwritten`); the model keeps that behaviour.
- `GetFullProcessName` and `UnicodeStrToNarrow`: the process name is an input, and the Unicode-to-ANSI conversion is left out.
- `DriverInterface.CallerInfo.IsTargetProcName`: compares names as whole strings rather than by `strcmp` on NUL-terminated buffers, because the 100-byte buffer is filled by `GetFullProcessName`, which is not part of this model.
- The `PluginApis` function-pointer table, callback typedefs, `ResolveApi`, `WideToUnicodeString`, `LOG_LEVEL_OPTIONS` and the compile-time helpers are plumbing with no behaviour to model.
- Concurrency between intercepted threads: each argument view and each thread's record is per-thread, and the model is sequential.

## Findings

| source | as written | input that shows it | evidently intended | confidence | as-written member | corrected member |
|---|---|---|---|---|---|---|
| C/STrace/Interface.h:179-199 | A module path is copied into the 260-byte `modulePath` buffer when `strlen(modulePath) <= sizeof(modulePath)`. | A module path of exactly 260 characters: the guard admits it, but with its terminator it needs 261 bytes, so `strcpy_s` rejects it instead of `NAME_TOO_LONG` being stored. Whether an enumeration can deliver such a path depends on the enumerators, which are not part of this model. | Copy only when `strlen(modulePath) < sizeof(modulePath)`, so the copy and its terminator fit; otherwise store `NAME_TOO_LONG`. | medium; not executed | `DriverInterface.PathGuardAsWrittenOverflows` | `DriverInterface.StoredPath` |
