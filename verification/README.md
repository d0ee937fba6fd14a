# VST.NET plugin command proxy

This project is a Dafny model of the unmanaged-to-managed adapter at the heart
of a VST.NET plugin: `PluginCommandProxy`. A VST 2.x host drives a plugin
through one native `dispatcher(opcode, index, value, ptr, opt)` entry point
and a few audio/parameter entry points. The proxy receives each of these
calls. It turns the opcode into a call on the plugin's managed command stub,
and on its optional legacy (VST 1.0/2.0) command interface when the plugin
implements one. It converts the stub's answer into the native integer result
and into writes through the host's pointers. It also owns the native memory
it hands to the host: chunks and speaker arrangements are registered with a
memory tracker, which releases them on the next suspend/resume (`OnOff`) or
at teardown. The editor rectangle is a single block that lives as long as
the proxy.

Modules:

- `Native`: native-side values. These are pointer slots, rectangles, the
  host's buffer capacities from the VST 2.4 ABI, and the integer and float
  conversions the dispatcher applies (32-bit truncation, byte truncation,
  float-to-int truncation toward zero). It also has `Write`, a write into
  host memory.
- `Opcodes`: the opcode numbers of the VST 2.4 dispatcher. The source casts
  the host's opcode to its enumeration without a range check, so opcodes are
  plain integers, and a value outside the enumeration matches no case.
- `Commands`: the two dispatch tables. For each handled opcode they give the
  plugin call it makes (`Translate`, `TranslateLegacy`) and the convention
  that turns the plugin's answer into the result and writes (`Apply`). The
  plugin's reply is either an exception (`Throws`) or an `Answer` record.
- `Memory`: native memory as a value (`Heap`: next address, live blocks,
  released addresses). It also holds the two classes that change it in
  place: `NativeHeap` and `MemoryTracker`. `MemoryTracker.ClearAll` is a loop
  proved against `ReleaseAll`. The tracker's own source is not part of this
  model. The class is modelled from the proxy's uses of it (lines 101, 133,
  306 and 585 of `PluginCommandProxy.cpp`). Releasing its blocks first to
  last is the model's choice; no result or write of the proxy depends on
  that order.
- `DispatchSpec`: what one dispatch call does, as a function on values
  (`Step`), and the invariant it keeps (`Inv`). It also holds the properties
  of single calls and of whole runs of calls (`Run`).
- `Proxy`: the class `PluginCommandProxy` with the source's fields
  (`_commandStub`, `_legacyCmdStub`, `_memTracker`, `_pEditorRect`). The
  constructor establishes `Valid` with the state it names: bound, no
  blocks tracked, and a freshly allocated rectangle. `Dispatch` and its
  per-opcode helpers, `Cleanup` and `Dispose` are proved to leave the
  class, the heap, the result and the writes exactly as `DispatchSpec`
  says, and to keep `Valid`. `DispatchLegacy` touches no native memory. Its
  new state, result and writes are those of `DispatchSpec.Legacy`, and it
  leaves the tracker as it was, so `Valid` is kept by the `Dispatch` that
  calls it.
  `GetParameter`, `SetParameter` and `ProcessAcc` touch neither the tracker
  nor native memory. They carry their own contracts: the value returned,
  and the plugin call logged.

The plugin is not visible to the model. Where the plugin's reply is
observable (the dispatch methods and `GetParameter`), the method takes it as
a parameter: `Reply`, which is either `Throws` or `Returns(answer)`.
`SetParameter` and `ProcessAcc` call the plugin but behave the same whether
it returns or throws, so they take no reply. Calls made on the plugin are recorded in a ghost event
log, in order, together with the tracker clears and the teardown.

## Model

| member | source | states |
|---|---|---|
| Proxy.PluginCommandProxy.constructor | Source/Code/Jacobi.Vst.Interop/Plugin/PluginCommandProxy.cpp:13-28 | binds the stub, records whether it also implements the legacy interface, creates an empty tracker and allocates one fresh editor rectangle; the proxy invariant holds |
| Proxy.Create | Source/Code/Jacobi.Vst.Interop/Plugin/PluginCommandProxy.cpp:15-18 | a null stub yields no proxy and no allocation; otherwise the new proxy is bound, tracks nothing and satisfies its invariant |
| Proxy.PluginCommandProxy.Dispatch | Source/Code/Jacobi.Vst.Interop/Plugin/PluginCommandProxy.cpp:43-366 | the new proxy state, native memory, result and host writes are exactly those of `DispatchSpec.Step`, and the proxy invariant is kept |
| Proxy.PluginCommandProxy.DispatchClose | Source/Code/Jacobi.Vst.Interop/Plugin/PluginCommandProxy.cpp:60-64 | the plugin is told first; only if it returns is the proxy torn down (`delete this`); the result is 0 |
| Proxy.PluginCommandProxy.DispatchOnOff | Source/Code/Jacobi.Vst.Interop/Plugin/PluginCommandProxy.cpp:100-104 | every tracked block is released before the plugin is told whether it is on; the result is 1 unless the plugin throws |
| Proxy.PluginCommandProxy.DispatchEditorRect | Source/Code/Jacobi.Vst.Interop/Plugin/PluginCommandProxy.cpp:105-114 | if the plugin supplies bounds, they are stored in the proxy's one rectangle, its address goes through `ptr` and the result is 1; otherwise nothing is written and the result is 0 |
| Proxy.PluginCommandProxy.DispatchChunkGet | Source/Code/Jacobi.Vst.Interop/Plugin/PluginCommandProxy.cpp:126-137 | a non-null chunk is copied to a fresh block, which is registered as an array; its address goes through `ptr` and the result is the chunk's length |
| Proxy.PluginCommandProxy.DispatchSpeakerArrangement | Source/Code/Jacobi.Vst.Interop/Plugin/PluginCommandProxy.cpp:291-311 | both output slots are nulled before the plugin is asked; on success two fresh blocks are registered as objects and their addresses go through `value` and `ptr` |
| Proxy.PluginCommandProxy.DispatchLegacy | Source/Code/Jacobi.Vst.Interop/Plugin/PluginCommandProxy.cpp:371-471 | the result and writes are those of `DispatchSpec.Legacy`: the legacy table applies only if the plugin implements it; the tracker is untouched |
| Proxy.PluginCommandProxy.Cleanup | Source/Code/Jacobi.Vst.Interop/Plugin/PluginCommandProxy.cpp:581-590 | if the tracker exists it is cleared and dropped; then the stub is unbound; the result equals `DispatchSpec.Cleanup` and keeps the invariant |
| Proxy.PluginCommandProxy.Dispose | Source/Code/Jacobi.Vst.Interop/Plugin/PluginCommandProxy.cpp:30-39 | the destructor runs the finalizer: Cleanup, then release of the editor rectangle, as `DispatchSpec.Teardown` |
| Proxy.PluginCommandProxy.GetParameter | Source/Code/Jacobi.Vst.Interop/Plugin/PluginCommandProxy.cpp:535-555 | returns the plugin's value; returns 0.0 when the plugin throws or no stub is bound; the call is made only when a stub is bound |
| Proxy.PluginCommandProxy.SetParameter | Source/Code/Jacobi.Vst.Interop/Plugin/PluginCommandProxy.cpp:517-531 | passes index and value to the plugin when a stub is bound; an exception is swallowed; nothing else changes |
| Proxy.PluginCommandProxy.ProcessAcc | Source/Code/Jacobi.Vst.Interop/Plugin/PluginCommandProxy.cpp:559-578 | calls the legacy ProcessAcc exactly when the plugin implements the legacy interface, and does nothing otherwise |
| DispatchSpec.Step | Source/Code/Jacobi.Vst.Interop/Plugin/PluginCommandProxy.cpp:43-366 | an unbound proxy returns 0 and changes nothing; a call whose plugin reply is an exception returns 0 |
| DispatchSpec.Legacy | Source/Code/Jacobi.Vst.Interop/Plugin/PluginCommandProxy.cpp:371-471 | touches neither the registry, the binding nor the editor rectangle; without a legacy stub it returns 0 and calls nothing |
| DispatchSpec.Cleanup | Source/Code/Jacobi.Vst.Interop/Plugin/PluginCommandProxy.cpp:581-590 | leaves the stub unbound and the registry empty; on an unbound proxy it changes nothing |
| DispatchSpec.StepPreservesInv | Source/Code/Jacobi.Vst.Interop/Plugin/PluginCommandProxy.cpp:43-366 | every dispatch call keeps the invariant: tracked blocks live and distinct, the rectangle live while bound, no block released twice |
| DispatchSpec.CloseKeepsInv | Source/Code/Jacobi.Vst.Interop/Plugin/PluginCommandProxy.cpp:60-64 | Close, including the teardown it triggers, keeps the invariant |
| DispatchSpec.OnOffKeepsInv | Source/Code/Jacobi.Vst.Interop/Plugin/PluginCommandProxy.cpp:100-104 | OnOff keeps the invariant; the editor rectangle is not among the released blocks |
| DispatchSpec.EditorRectKeepsInv | Source/Code/Jacobi.Vst.Interop/Plugin/PluginCommandProxy.cpp:105-114 | overwriting the editor rectangle keeps the invariant |
| DispatchSpec.ChunkGetKeepsInv | Source/Code/Jacobi.Vst.Interop/Plugin/PluginCommandProxy.cpp:126-137 | registering a chunk block keeps the invariant |
| DispatchSpec.SpeakerArrangementKeepsInv | Source/Code/Jacobi.Vst.Interop/Plugin/PluginCommandProxy.cpp:291-311 | registering the two arrangement blocks keeps the invariant |
| DispatchSpec.CleanupKeepsInv | Source/Code/Jacobi.Vst.Interop/Plugin/PluginCommandProxy.cpp:581-590 | Cleanup keeps the invariant and does not release the editor rectangle |
| DispatchSpec.TeardownKeepsInv | Source/Code/Jacobi.Vst.Interop/Plugin/PluginCommandProxy.cpp:35-39 | the finalizer's Cleanup followed by the rectangle's release keeps the invariant, so the rectangle is released once |
| DispatchSpec.ClearRegistryKeepsOthers | Source/Code/Jacobi.Vst.Interop/Plugin/PluginCommandProxy.cpp:101 | clearing the tracker releases exactly the tracked blocks, in order, and keeps every other block live and unchanged |
| DispatchSpec.OnOffClearsThenNotifies | Source/Code/Jacobi.Vst.Interop/Plugin/PluginCommandProxy.cpp:100-104 | after OnOff the registry is empty and the tracked blocks are released; the log shows the clear before the MainsChanged call, with `value != 0`; the result is 1, or 0 if the plugin throws |
| DispatchSpec.ChunkGetRegistersItsBlock | Source/Code/Jacobi.Vst.Interop/Plugin/PluginCommandProxy.cpp:126-137 | with a non-null chunk, the pointer written through `ptr` is a never-used address whose block holds exactly the chunk, exactly that block is registered, and the result is the length; with a null chunk nothing changes and the result is 0 |
| DispatchSpec.SpeakerArrangementOutputs | Source/Code/Jacobi.Vst.Interop/Plugin/PluginCommandProxy.cpp:291-311 | both slots are nulled first; on refusal or exception they stay null and the result is 0; on success they end at two distinct fresh blocks, both registered, and the result is 1 |
| DispatchSpec.KeysRequiredIsInverted | Source/Code/Jacobi.Vst.Interop/Plugin/PluginCommandProxy.cpp:452-455 | the legacy KeysRequired answer is inverted: 0 when keys are required, 1 when not |
| DispatchSpec.GetIconReturnsZero | Source/Code/Jacobi.Vst.Interop/Plugin/PluginCommandProxy.cpp:439-448 | the legacy GetIcon query calls the plugin but always returns 0 and writes nothing |
| DispatchSpec.UnhandledIsInert | Source/Code/Jacobi.Vst.Interop/Plugin/PluginCommandProxy.cpp:456-468 | an opcode neither table handles, or a legacy opcode without a legacy stub, returns 0 and changes nothing |
| DispatchSpec.CloseNotifiesThenTearsDown | Source/Code/Jacobi.Vst.Interop/Plugin/PluginCommandProxy.cpp:60-64 | if the plugin's Close returns, the log shows Close, then the tracker clear, then teardown; the tracked blocks and the rectangle are released and the stub unbound; if it throws, only the call is logged and the proxy stays bound |
| DispatchSpec.ThrowKeepsOnlyEarlierEffects | Source/Code/Jacobi.Vst.Interop/Plugin/PluginCommandProxy.cpp:351-356 | an exception from the plugin returns 0 and leaves only what came before the call: OnOff's release, GetSpeakerArrangement's null slots; nothing is allocated, registered or torn down |
| DispatchSpec.CleanupIsIdempotent | Source/Code/Jacobi.Vst.Interop/Plugin/PluginCommandProxy.cpp:583-589 | a second Cleanup changes nothing; the first clears the tracker exactly once |
| DispatchSpec.RunPreservesInv | Source/Code/Jacobi.Vst.Interop/Plugin/PluginCommandProxy.cpp:43-366 | any sequence of dispatch calls keeps the invariant, so no native block is released twice over the proxy's life |
| DispatchSpec.UnboundRunIsInert | Source/Code/Jacobi.Vst.Interop/Plugin/PluginCommandProxy.cpp:358-365 | once no stub is bound, every later dispatch returns 0 and changes nothing |
| DispatchSpec.AfterCloseEverythingIsZero | Source/Code/Jacobi.Vst.Interop/Plugin/PluginCommandProxy.cpp:60-64 | after a Close the plugin accepted, every later dispatch returns 0 and makes no plugin call |
| DispatchSpec.StepKeepsTracked | Source/Code/Jacobi.Vst.Interop/Plugin/PluginCommandProxy.cpp:43-366 | a call other than OnOff or Close only appends to the registry and leaves every tracked block live and unchanged |
| DispatchSpec.TrackedBlockOutlivesCalls | Source/Code/Jacobi.Vst.Interop/Plugin/PluginCommandProxy.cpp:100-101 | a block handed to the host stays registered, live and unchanged through any run of calls with no OnOff or Close |
| Commands.CurrentConvention | Source/Code/Jacobi.Vst.Interop/Plugin/PluginCommandProxy.cpp:55-348 | exactly Close, OnOff, EditorGetRectangle, ChunkGet and GetSpeakerArrangement are handled by the proxy's own state; no opcode is in both tables |
| Commands.LegacyConvention | Source/Code/Jacobi.Vst.Interop/Plugin/PluginCommandProxy.cpp:377-461 | no legacy case touches proxy state, and the only fixed result is GetIcon's 0 |
| Commands.Translate | Source/Code/Jacobi.Vst.Interop/Plugin/PluginCommandProxy.cpp:57-345 | the call each handled opcode makes. A `value` cast to Int32 or to an enumeration keeps its low 32 bits, an `index` cast to Byte keeps its low 8, and `opt` cast to int32 truncates toward zero. Arguments read from host memory are recorded by address. The parameter calls are never made from here. Its one-to-one routing is stated by `IssuerOfTranslate` |
| Commands.TranslateLegacy | Source/Code/Jacobi.Vst.Interop/Plugin/PluginCommandProxy.cpp:377-455 | every legacy call made names the opcode that made it |
| Commands.IssuerOfTranslate | Source/Code/Jacobi.Vst.Interop/Plugin/PluginCommandProxy.cpp:57-345 | every call made by the current table names the opcode that made it |
| Commands.TranslateInjective | Source/Code/Jacobi.Vst.Interop/Plugin/PluginCommandProxy.cpp:57-345 | distinct opcodes of the current table make distinct plugin calls, whatever the arguments |
| Commands.Apply | Source/Code/Jacobi.Vst.Interop/Plugin/PluginCommandProxy.cpp:65-345 | per convention: a fixed result is returned as is; a bool answer becomes 1/0 (0/1 when inverted); an integer answer passes through; a float is truncated toward zero; a string query with a fixed buffer writes the answer and returns 1; a query that needs a non-null string or object returns 1 and writes it exactly when it is present, else 0 with no write; an integer-plus-struct or integer-plus-string query returns the integer and fills the buffer; no case writes a pointer |
| DispatchSpec.FixedNameQueriesAlwaysCopy | Source/Code/Jacobi.Vst.Interop/Plugin/PluginCommandProxy.cpp:76-91 | the program, parameter-label, -display and -name queries copy the plugin's string into a buffer of the right capacity and return 1 |
| DispatchSpec.NameQueriesCopyOnlyPresentText | Source/Code/Jacobi.Vst.Interop/Plugin/PluginCommandProxy.cpp:152-215 | the indexed program-name, effect-name, vendor and product queries return 0 and write nothing on a null string, and otherwise copy it into a buffer of the right capacity and return 1 |
| Memory.Allocate | Source/Code/Jacobi.Vst.Interop/Plugin/PluginCommandProxy.cpp:131 | allocation uses a fresh address, keeps every other block and keeps the heap valid |
| Memory.Release | Source/Code/Jacobi.Vst.Interop/Plugin/PluginCommandProxy.cpp:38 | release removes exactly one block and records it; releasing a live block keeps the heap valid |
| Memory.Store | Source/Code/Jacobi.Vst.Interop/Plugin/PluginCommandProxy.cpp:110 | overwriting a live block changes only that block and keeps the heap valid |
| Memory.ReleaseAllFreesEachOnce | Source/Code/Jacobi.Vst.Interop/Plugin/PluginCommandProxy.cpp:585 | releasing distinct live blocks frees each exactly once (first to last, the model's chosen order) and keeps all others live and unchanged |
| Memory.NativeHeap.Alloc | Source/Code/Jacobi.Vst.Interop/Plugin/PluginCommandProxy.cpp:131 | the in-place allocator does what `Allocate` says and returns the fresh address |
| Memory.NativeHeap.Free | Source/Code/Jacobi.Vst.Interop/Plugin/PluginCommandProxy.cpp:38 | the in-place release does what `Release` says |
| Memory.NativeHeap.Put | Source/Code/Jacobi.Vst.Interop/Plugin/PluginCommandProxy.cpp:110 | the in-place overwrite does what `Store` says |
| Memory.MemoryTracker.RegisterArray | Source/Code/Jacobi.Vst.Interop/Plugin/PluginCommandProxy.cpp:133 | appends one array block to the registry |
| Memory.MemoryTracker.RegisterObject | Source/Code/Jacobi.Vst.Interop/Plugin/PluginCommandProxy.cpp:306 | appends one object block to the registry |
| Memory.MemoryTracker.ClearAll | Source/Code/Jacobi.Vst.Interop/Plugin/PluginCommandProxy.cpp:101 | releases every registered block as `ReleaseAll` does (first to last, the model's chosen order) and empties the registry |
| Native.ToInt32 | Source/Code/Jacobi.Vst.Interop/Plugin/PluginCommandProxy.cpp:66 | the 32-bit conversion of `value` (also used for its casts to an enumeration) lands in the 32-bit range, agrees modulo 2^32 and is the identity on that range |
| Native.ToByte | Source/Code/Jacobi.Vst.Interop/Plugin/PluginCommandProxy.cpp:238 | the byte conversion of `index` lands in 0..255, agrees modulo 256 and is the identity on that range |
| Native.TruncateTowardZero | Source/Code/Jacobi.Vst.Interop/Plugin/PluginCommandProxy.cpp:381 | the float-to-integer conversion drops the fraction toward zero, for both signs |
| Native.FinalPointer | Source/Code/Jacobi.Vst.Interop/Plugin/PluginCommandProxy.cpp:293-296 | a pointer slot holds the last pointer written to it; if none was written it is unset |

## Left out

- Process (both the float and the double overloads, lines 475-513): the conversion of audio buffers is marshaling with no state or result of its own. The model records only the guard of ProcessAcc.
- Tracing (`_traceCtx`) and `Utils::ShowError`: diagnostics only; they change nothing the model observes.
- TypeConverter: the string, struct, event and chunk conversions are not part of this model. Their effect is the abstract `Write` they make: the text written and its capacity, the kind of struct filled in, the pointer stored. Calls read their arguments from host memory; these are recorded by address.
- Exceptions raised after the plugin call returned are not modelled; only the plugin call itself may throw. They would come from a TypeConverter conversion or allocation. In the source the dispatch then returns whatever result was already assigned. That is the plugin's integer for MidiProgramGetName, MidiProgramGetCurrent, MidiProgramGetCategory and MidiKeyGetName (lines 255-256, 262-263, 270-271, 282-283), with the host's struct possibly unfilled. For GetSpeakerArrangement (lines 301-309) it is 1, and if the second allocation fails the input arrangement is already allocated and registered while the output slot stays null. The model's step functions always complete the conversion.
- The plugin's command stub and legacy stub are not part of this model. Each reply is a parameter: an exception, or an `Answer` whose fields stand for the plugin's return value.
- Enumeration casts of `value` (virtual key, knob mode, pan law, process precision) keep the low 32 bits, as the cast to `Int32` does; this assumes the enumerations' underlying type is a 32-bit integer, since their declarations are not part of this model. Values outside an enumeration's named members are passed on, since `safe_cast` does not check ranges.
- The native result width: the result is an unbounded integer. A plugin integer is passed through unchanged, since every such answer fits the pointer-sized result.
- Float values are Dafny reals. `opt`, parameter values and the VU level pass through unchanged. Rounding to single precision is not modelled, nor conversions of floats outside the integer range.
- The MemoryTracker source is not part of this model. The class `Memory.MemoryTracker` models it from the proxy's uses: register a block, and release every registered block, then empty the registry. The release order is the model's choice.
- Array versus object deallocation is recorded (`BlockKind`) but both release the same way.
- Jacobi.Vst.Interop.cpp is not part of this model. This is the plugin entry point and the glue that forwards the native callbacks. As written, that file passes an undeclared `prt` to Dispatch, and calls Process with three arguments where the proxy takes five, so it does not match the proxy it drives.
- Concurrency: the host may call from several threads, and the finalizer runs on its own thread. The model treats calls as one sequence.
- Opcode numbers are those of the VST 2.4 ABI, because the enumeration's header is not part of this model.
- Return types of the command interface: EditorOpen and SetSpeakerArrangement are read as integers that pass through. VuGet's float is truncated toward zero.
- Proxy.PluginCommandProxy.Dispose: requires that the editor rectangle is still live. The source's `delete this` runs the destructor once; the model does not allow a second teardown.

## Notes on the behaviour modelled

- OnOff releases the tracked blocks before the plugin is told, so they are released even when the plugin then throws.
- A Close that throws does not tear the proxy down; it stays bound.
- ProcessAcc checks only the legacy stub. Cleanup does not reset it, so after teardown a legacy plugin is still called by ProcessAcc.
- After Cleanup, GetParameter and SetParameter dereference a null stub. The resulting exception is caught, so they return 0.0 or do nothing.
