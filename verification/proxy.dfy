/** The plugin-side adapter: receives every host dispatch call, routes it to
    the plugin's command stub, and keeps the blocks it hands to the host in
    a memory tracker until a suspend/resume or its own teardown. */
module Proxy {
  import opened Native
  import opened Memory
  import opened Commands
  import opened DispatchSpec
  import Opcodes

  /** The plugin's command stub, as far as the proxy can tell from it:
      whether it also implements the legacy command interface. */
  datatype CommandStub = CommandStub(implementsLegacy: bool)

  class PluginCommandProxy {
    /** Whether `_commandStub` is set. */
    var hasCommandStub: bool
    /** Whether `_legacyCmdStub` is set; fixed at construction. */
    const hasLegacyStub: bool
    /** `_memTracker`, null after Cleanup. */
    var memTracker: MemoryTracker?
    /** `_pEditorRect`: the address of the reusable editor rectangle. */
    const editorRect: nat
    /** What the proxy has done so far, in order. */
    ghost var log: seq<Event>

    ghost function State(): Proxy
      reads this, memTracker
    {
      Proxy(hasCommandStub, hasLegacyStub,
            if memTracker != null then memTracker.blocks else [],
            editorRect, log)
    }

    /** The tracker exists exactly while the stub is bound, and the proxy
        invariant holds against native memory. */
    ghost predicate Valid(heap: NativeHeap)
      reads this, memTracker, heap
    {
      (memTracker != null <==> hasCommandStub) && Inv(State(), heap.Value())
    }

    /** Binds a (non-null) command stub, creates the tracker and allocates
        the reusable editor rectangle. */
    constructor (cmdStub: CommandStub, heap: NativeHeap)
      requires HeapValid(heap.Value())
      modifies heap
      ensures Valid(heap) && fresh(memTracker)
      ensures State() == Proxy(true, cmdStub.implementsLegacy, [], old(heap.next), [])
      ensures heap.Value() == Allocate(old(heap.Value()), EditorRectangle(Rect(0, 0, 0, 0)))
    {
      hasCommandStub := true;
      hasLegacyStub := cmdStub.implementsLegacy;
      memTracker := new MemoryTracker();
      var rect := heap.Alloc(EditorRectangle(Rect(0, 0, 0, 0)));
      editorRect := rect;
      log := [];
    }

    /** Dispatch: routes one host call to the plugin. The plugin's reply to
        the call this opcode makes is `reply`; an exception from the plugin
        never escapes, and leaves the result at 0. */
    method Dispatch(opcode: int, index: int, value: int, ptr: int, opt: real, reply: Reply, heap: NativeHeap)
      returns (result: int, writes: seq<Write>)
      requires Valid(heap)
      modifies this, memTracker, heap
      ensures Valid(heap) && (memTracker == null || memTracker == old(memTracker))
      ensures var d := Step(old(State()), old(heap.Value()), Request(opcode, index, value, ptr, opt), reply);
        State() == d.proxy && heap.Value() == d.heap && result == d.result && writes == d.writes
    {
      var rq := Request(opcode, index, value, ptr, opt);
      if !hasCommandStub {
        return 0, [];
      }
      if opcode == Opcodes.Close {
        result, writes := DispatchClose(reply, heap);
      } else if opcode == Opcodes.OnOff {
        result, writes := DispatchOnOff(rq, reply, heap);
      } else if opcode == Opcodes.EditorGetRectangle {
        result, writes := DispatchEditorRect(reply, heap);
      } else if opcode == Opcodes.ChunkGet {
        result, writes := DispatchChunkGet(rq, reply, heap);
      } else if opcode == Opcodes.GetSpeakerArrangement {
        result, writes := DispatchSpeakerArrangement(reply, heap);
      } else if !CurrentConvention(opcode).Unhandled? {
        log := log + [Invoked(Translate(opcode, rq))];
        result, writes := 0, [];
        if reply.Returns? {
          var outcome := Apply(CurrentConvention(opcode), reply.answer);
          result, writes := outcome.result, outcome.writes;
        }
      } else {
        result, writes := DispatchLegacy(opcode, index, value, ptr, opt, reply);
      }
    }

    /** Close: the plugin is told first; only if that returns is the proxy
        deleted (`delete this`). */
    method DispatchClose(reply: Reply, heap: NativeHeap) returns (result: int, writes: seq<Write>)
      requires Valid(heap) && hasCommandStub
      modifies this, memTracker, heap
      ensures Valid(heap) && (memTracker == null || memTracker == old(memTracker))
      ensures var d := CloseStep(old(State()), old(heap.Value()), reply);
        State() == d.proxy && heap.Value() == d.heap && result == d.result && writes == d.writes
    {
      log := log + [Invoked(Call.Close)];
      if reply.Returns? {
        Dispose(heap);
      }
      return 0, [];
    }

    /** OnOff: the tracked blocks are released before the plugin is told,
        so they are released even when the plugin throws. */
    method DispatchOnOff(rq: Request, reply: Reply, heap: NativeHeap) returns (result: int, writes: seq<Write>)
      requires Valid(heap) && hasCommandStub
      modifies this, memTracker, heap
      ensures Valid(heap) && memTracker == old(memTracker)
      ensures var d := OnOffStep(old(State()), old(heap.Value()), rq, reply);
        State() == d.proxy && heap.Value() == d.heap && result == d.result && writes == d.writes
    {
      OnOffKeepsInv(State(), heap.Value(), rq, reply);
      memTracker.ClearAll(heap);
      log := log + [RegistryCleared];
      log := log + [Invoked(MainsChanged(rq.value != 0))];
      result := if reply.Throws? then 0 else 1;
      writes := [];
    }

    /** EditorGetRectangle: the plugin's rectangle is copied into the
        proxy's own rectangle, whose address is written through `ptr`. */
    method DispatchEditorRect(reply: Reply, heap: NativeHeap) returns (result: int, writes: seq<Write>)
      requires Valid(heap) && hasCommandStub
      modifies this, heap
      ensures Valid(heap) && memTracker == old(memTracker)
      ensures var d := EditorRectStep(old(State()), old(heap.Value()), reply);
        State() == d.proxy && heap.Value() == d.heap && result == d.result && writes == d.writes
    {
      log := log + [Invoked(EditorGetRect)];
      result, writes := 0, [];
      if reply.Returns? && reply.answer.flag {
        heap.Put(editorRect, EditorRectangle(reply.answer.rect));
        writes := [PointerWrite(ThroughPtr, At(editorRect))];
        result := 1;
      }
    }

    /** ChunkGet: a non-null chunk is copied into a fresh native block,
        which is tracked and whose address is written through `ptr`. */
    method DispatchChunkGet(rq: Request, reply: Reply, heap: NativeHeap) returns (result: int, writes: seq<Write>)
      requires Valid(heap) && hasCommandStub
      modifies this, memTracker, heap
      ensures Valid(heap) && memTracker == old(memTracker)
      ensures var d := ChunkGetStep(old(State()), old(heap.Value()), rq, reply);
        State() == d.proxy && heap.Value() == d.heap && result == d.result && writes == d.writes
    {
      log := log + [Invoked(GetChunk(rq.index != 0))];
      result, writes := 0, [];
      if reply.Returns? && reply.answer.chunk.Some? {
        var bytes := reply.answer.chunk.value;
        AppendFresh(memTracker.blocks, editorRect, heap.Value(), ChunkData(bytes), ArrayBlock);
        var block := heap.Alloc(ChunkData(bytes));
        writes := [PointerWrite(ThroughPtr, At(block))];
        memTracker.RegisterArray(block);
        result := |bytes|;
      }
    }

    /** GetSpeakerArrangement: both output slots are nulled first; if the
        plugin supplies the arrangements, each is copied into a fresh
        tracked block whose address goes into its slot. */
    method DispatchSpeakerArrangement(reply: Reply, heap: NativeHeap) returns (result: int, writes: seq<Write>)
      requires Valid(heap) && hasCommandStub
      modifies this, memTracker, heap
      ensures Valid(heap) && memTracker == old(memTracker)
      ensures var d := SpeakerArrangementStep(old(State()), old(heap.Value()), reply);
        State() == d.proxy && heap.Value() == d.heap && result == d.result && writes == d.writes
    {
      writes := NullArrangements;
      log := log + [Invoked(Call.GetSpeakerArrangement)];
      result := 0;
      if reply.Returns? && reply.answer.flag {
        result := 1;
        AppendFresh(memTracker.blocks, editorRect, heap.Value(), SpeakerArrangementData(true), ObjectBlock);
        var input := heap.Alloc(SpeakerArrangementData(true));
        writes := writes + [PointerWrite(ThroughValue, At(input))];
        memTracker.RegisterObject(input);
        AppendFresh(memTracker.blocks, editorRect, heap.Value(), SpeakerArrangementData(false), ObjectBlock);
        var output := heap.Alloc(SpeakerArrangementData(false));
        writes := writes + [PointerWrite(ThroughPtr, At(output))];
        memTracker.RegisterObject(output);
      }
    }

    /** DispatchLegacy: the opcodes of the legacy interface, answered only
        when the plugin implements it. */
    method DispatchLegacy(opcode: int, index: int, value: int, ptr: int, opt: real, reply: Reply)
      returns (result: int, writes: seq<Write>)
      modifies this
      ensures memTracker == old(memTracker)
      ensures var (p, o) := Legacy(old(State()), Request(opcode, index, value, ptr, opt), reply);
        State() == p && result == o.result && writes == o.writes
    {
      result, writes := 0, [];
      var conv := LegacyConvention(opcode);
      if !hasLegacyStub || conv.Unhandled? {
        return;
      }
      log := log + [InvokedLegacy(TranslateLegacy(opcode, Request(opcode, index, value, ptr, opt)))];
      if reply.Throws? {
        return;
      }
      var outcome := Apply(conv, reply.answer);
      result, writes := outcome.result, outcome.writes;
    }

    /** Cleanup: releases the tracked blocks and drops the tracker if it is
        still there, then unbinds the command stub. */
    method Cleanup(heap: NativeHeap)
      requires Valid(heap)
      modifies this, memTracker, heap
      ensures Valid(heap) && (memTracker == null || memTracker == old(memTracker))
      ensures (State(), heap.Value()) == DispatchSpec.Cleanup(old(State()), old(heap.Value()))
    {
      CleanupKeepsInv(State(), heap.Value());
      if memTracker != null {
        memTracker.ClearAll(heap);
        log := log + [RegistryCleared];
        memTracker := null;
      }
      hasCommandStub := false;
    }

    /** The destructor (through the finalizer): Cleanup, then release the
        editor rectangle. It runs once, when Close deletes the proxy. */
    method Dispose(heap: NativeHeap)
      requires Valid(heap) && editorRect in heap.live
      modifies this, memTracker, heap
      ensures Valid(heap) && (memTracker == null || memTracker == old(memTracker))
      ensures (State(), heap.Value()) == Teardown(old(State()), old(heap.Value()))
    {
      TeardownKeepsInv(State(), heap.Value());
      CleanupKeepsInv(State(), heap.Value());
      Cleanup(heap);
      heap.Free(editorRect);
      log := log + [Disposed];
    }

    /** GetParameter: the plugin's value, or 0.0 when the plugin throws or
        no stub is bound (the null stub is dereferenced and the exception
        caught). */
    method GetParameter(index: int, reply: Reply) returns (v: real)
      modifies this
      ensures hasCommandStub == old(hasCommandStub) && memTracker == old(memTracker)
      ensures log == old(log) + (if hasCommandStub then [Invoked(Call.GetParameter(index))] else [])
      ensures v == (if hasCommandStub && reply.Returns? then reply.answer.level else 0.0)
    {
      v := 0.0;
      if !hasCommandStub {
        return;
      }
      log := log + [Invoked(Call.GetParameter(index))];
      if reply.Returns? {
        v := reply.answer.level;
      }
    }

    /** SetParameter: passes the value on; a plugin exception, or a null
        stub, is swallowed. */
    method SetParameter(index: int, value: real)
      modifies this
      ensures hasCommandStub == old(hasCommandStub) && memTracker == old(memTracker)
      ensures log == old(log) + (if hasCommandStub then [Invoked(Call.SetParameter(index, value))] else [])
    {
      if hasCommandStub {
        log := log + [Invoked(Call.SetParameter(index, value))];
      }
    }

    /** ProcessAcc: does nothing unless the plugin implements the legacy
        interface; it checks only the legacy stub, which Cleanup leaves set. */
    method ProcessAcc()
      modifies this
      ensures hasCommandStub == old(hasCommandStub) && memTracker == old(memTracker)
      ensures log == old(log) + (if hasLegacyStub then [InvokedLegacy(LegacyCall.ProcessAcc)] else [])
    {
      if !hasLegacyStub {
        return;
      }
      log := log + [InvokedLegacy(LegacyCall.ProcessAcc)];
    }
  }

  /** Construction from a stub that may be null: a null stub is refused
      (the constructor throws ArgumentNullException, and the plugin entry
      point creates no proxy and returns no plugin), so no proxy ever
      exists without a stub. */
  method Create(cmdStub: Option<CommandStub>, heap: NativeHeap) returns (proxy: PluginCommandProxy?)
    requires HeapValid(heap.Value())
    modifies heap
    ensures cmdStub.None? <==> proxy == null
    ensures proxy != null ==>
      fresh(proxy) && proxy.Valid(heap) && proxy.State().bound &&
      proxy.State().legacy == cmdStub.value.implementsLegacy && proxy.State().registry == []
    ensures proxy == null ==> heap.Value() == old(heap.Value())
  {
    if cmdStub.None? {
      return null;
    }
    proxy := new PluginCommandProxy(cmdStub.value, heap);
  }
}
