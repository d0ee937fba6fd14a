/** What one dispatch call does to the proxy and to native memory, stated on
    values: the specification the imperative proxy is proved against, and
    the properties of single calls and of whole runs of calls. */
module DispatchSpec {
  import opened Native
  import opened Memory
  import opened Commands
  import Opcodes

  /** Something the proxy does that a later step may depend on the order of. */
  datatype Event =
    | Invoked(call: Call)                   // a call on the plugin's command interface
    | InvokedLegacy(legacyCall: LegacyCall) // a call on the plugin's legacy interface
    | RegistryCleared                       // the memory tracker released its blocks
    | Disposed                              // the proxy was torn down

  /** The proxy's state: whether a command stub is bound (the memory tracker
      exists exactly while it is), whether the plugin implements the legacy
      interface, the tracked blocks, the address of the reusable editor
      rectangle, and the events so far. */
  datatype Proxy = Proxy(bound: bool, legacy: bool, registry: seq<Block>, editorRect: nat, log: seq<Event>)

  /** The state after a dispatch call, its native result and its writes
      into host memory. */
  datatype Dispatched = Dispatched(proxy: Proxy, heap: Heap, result: int, writes: seq<Write>)

  /** The proxy's invariant against native memory: tracked blocks are live,
      distinct and not the editor rectangle; a bound proxy's rectangle is
      live; an unbound proxy tracks nothing. */
  ghost predicate Inv(p: Proxy, h: Heap) {
    HeapValid(h) &&
    Trackable(p.registry, h) &&
    (forall i :: 0 <= i < |p.registry| ==> p.registry[i].addr != p.editorRect) &&
    (p.bound ==> p.editorRect in h.live && h.live[p.editorRect].EditorRectangle?) &&
    (!p.bound ==> p.registry == [])
  }

  function Log(p: Proxy, e: Event): Proxy
  {
    p.(log := p.log + [e])
  }

  /** The memory tracker's ClearAll: every tracked block released, the
      registry emptied. */
  function ClearRegistry(p: Proxy, h: Heap): (Proxy, Heap)
  {
    (Log(p.(registry := []), RegistryCleared), ReleaseAll(h, p.registry))
  }

  /** Cleanup: clear and drop the tracker if there is one, then unbind the
      command stub. */
  function Cleanup(p: Proxy, h: Heap): (r: (Proxy, Heap))
    ensures !r.0.bound && (p.bound ==> r.0.registry == [])
    ensures !p.bound ==> r == (p, h)
  {
    if p.bound then
      var (p1, h1) := ClearRegistry(p, h);
      (p1.(bound := false), h1)
    else (p, h)
  }

  /** Teardown (destructor and finalizer): Cleanup, then release the editor
      rectangle. */
  function Teardown(p: Proxy, h: Heap): (Proxy, Heap)
  {
    var (p1, h1) := Cleanup(p, h);
    (Log(p1, Disposed), Release(h1, p.editorRect))
  }

  function CloseStep(p: Proxy, h: Heap, reply: Reply): Dispatched
  {
    var p1 := Log(p, Invoked(Call.Close));
    if reply.Throws? then Dispatched(p1, h, 0, [])
    else
      var (p2, h2) := Teardown(p1, h);
      Dispatched(p2, h2, 0, [])
  }

  function OnOffStep(p: Proxy, h: Heap, rq: Request, reply: Reply): Dispatched
  {
    var (p1, h1) := ClearRegistry(p, h);
    Dispatched(Log(p1, Invoked(MainsChanged(rq.value != 0))), h1, if reply.Throws? then 0 else 1, [])
  }

  function EditorRectStep(p: Proxy, h: Heap, reply: Reply): Dispatched
  {
    var p1 := Log(p, Invoked(EditorGetRect));
    if reply.Throws? || !reply.answer.flag then Dispatched(p1, h, 0, [])
    else
      Dispatched(p1, Store(h, p.editorRect, EditorRectangle(reply.answer.rect)), 1,
                 [PointerWrite(ThroughPtr, At(p.editorRect))])
  }

  function ChunkGetStep(p: Proxy, h: Heap, rq: Request, reply: Reply): Dispatched
  {
    var p1 := Log(p, Invoked(GetChunk(rq.index != 0)));
    if reply.Throws? || reply.answer.chunk.None? then Dispatched(p1, h, 0, [])
    else
      var bytes := reply.answer.chunk.value;
      Dispatched(p1.(registry := p.registry + [Block(h.next, ArrayBlock)]),
                 Allocate(h, ChunkData(bytes)), |bytes|,
                 [PointerWrite(ThroughPtr, At(h.next))])
  }

  /** The two output slots nulled before the plugin is asked. */
  const NullArrangements: seq<Write> := [PointerWrite(ThroughValue, Null), PointerWrite(ThroughPtr, Null)]

  function SpeakerArrangementStep(p: Proxy, h: Heap, reply: Reply): Dispatched
  {
    var p1 := Log(p, Invoked(Call.GetSpeakerArrangement));
    if reply.Throws? || !reply.answer.flag then Dispatched(p1, h, 0, NullArrangements)
    else
      var h1 := Allocate(h, SpeakerArrangementData(true));
      var h2 := Allocate(h1, SpeakerArrangementData(false));
      Dispatched(p1.(registry := p.registry + [Block(h.next, ObjectBlock), Block(h1.next, ObjectBlock)]),
                 h2, 1,
                 NullArrangements + [PointerWrite(ThroughValue, At(h.next)), PointerWrite(ThroughPtr, At(h1.next))])
  }

  /** A case of the current table that only calls the plugin and converts
      its answer. */
  function TableStep(p: Proxy, h: Heap, rq: Request, reply: Reply): Dispatched
    requires !CurrentConvention(rq.opcode).Stateful? && !CurrentConvention(rq.opcode).Unhandled?
  {
    var p1 := Log(p, Invoked(Translate(rq.opcode, rq)));
    if reply.Throws? then Dispatched(p1, h, 0, [])
    else
      var o := Apply(CurrentConvention(rq.opcode), reply.answer);
      Dispatched(p1, h, o.result, o.writes)
  }

  /** DispatchLegacy: the legacy table, if the plugin implements it. It
      touches neither the registry nor native memory. */
  function Legacy(p: Proxy, rq: Request, reply: Reply): (r: (Proxy, Outcome))
    ensures r.0.registry == p.registry && r.0.bound == p.bound && r.0.editorRect == p.editorRect
    ensures !p.legacy ==> r == (p, Outcome(0, []))
  {
    var conv := LegacyConvention(rq.opcode);
    if !p.legacy || conv.Unhandled? then (p, Outcome(0, []))
    else
      var p1 := Log(p, InvokedLegacy(TranslateLegacy(rq.opcode, rq)));
      if reply.Throws? then (p1, Outcome(0, []))
      else (p1, Apply(conv, reply.answer))
  }

  /** Dispatch: one native dispatch call, given the plugin's reply to the
      call it makes (if it makes one). */
  function Step(p: Proxy, h: Heap, rq: Request, reply: Reply): (d: Dispatched)
    ensures !p.bound ==> d == Dispatched(p, h, 0, [])
    ensures reply.Throws? ==> d.result == 0
  {
    if !p.bound then Dispatched(p, h, 0, [])
    else
      var op := rq.opcode;
      if op == Opcodes.Close then CloseStep(p, h, reply)
      else if op == Opcodes.OnOff then OnOffStep(p, h, rq, reply)
      else if op == Opcodes.EditorGetRectangle then EditorRectStep(p, h, reply)
      else if op == Opcodes.ChunkGet then ChunkGetStep(p, h, rq, reply)
      else if op == Opcodes.GetSpeakerArrangement then SpeakerArrangementStep(p, h, reply)
      else if !CurrentConvention(op).Unhandled? then TableStep(p, h, rq, reply)
      else
        var (p1, o) := Legacy(p, rq, reply);
        Dispatched(p1, h, o.result, o.writes)
  }

  // ----- The invariant -----

  /** Clearing the registry releases exactly the tracked blocks and keeps
      every other live block, including the editor rectangle. */
  lemma ClearRegistryKeepsOthers(p: Proxy, h: Heap)
    requires Inv(p, h)
    ensures var (p1, h1) := ClearRegistry(p, h);
      HeapValid(h1) && h1.next == h.next && h1.freed == h.freed + Addrs(p.registry) &&
      (forall a :: a in h1.live <==> a in h.live && a !in Addrs(p.registry)) &&
      (forall a :: a in h1.live ==> h1.live[a] == h.live[a]) &&
      p1.registry == [] && p1.bound == p.bound && p1.editorRect == p.editorRect
  {
    ReleaseAllFreesEachOnce(h, p.registry);
  }

  /** A block allocated at the heap's next address can join the registry. */
  lemma AppendFresh(reg: seq<Block>, rect: nat, h: Heap, c: Content, k: BlockKind)
    requires HeapValid(h) && Trackable(reg, h)
    requires forall i :: 0 <= i < |reg| ==> reg[i].addr != rect
    requires rect in h.live
    ensures var h' := Allocate(h, c); var reg' := reg + [Block(h.next, k)];
      HeapValid(h') && Trackable(reg', h') && (forall i :: 0 <= i < |reg'| ==> reg'[i].addr != rect) &&
      rect in h'.live && h'.live[rect] == h.live[rect]
  {
    var h' := Allocate(h, c);
    var reg' := reg + [Block(h.next, k)];
    forall i | 0 <= i < |reg|
      ensures reg'[i].addr in h'.live && reg'[i].addr != h.next
    {
      assert reg[i].addr in h.live;
    }
  }

  /** Every dispatch call keeps the invariant: in particular no native block
      is ever released twice, and every tracked block stays live. */
  lemma StepPreservesInv(p: Proxy, h: Heap, rq: Request, reply: Reply)
    requires Inv(p, h)
    ensures var d := Step(p, h, rq, reply); Inv(d.proxy, d.heap)
  {
    if p.bound {
      var op := rq.opcode;
      if op == Opcodes.Close {
        CloseKeepsInv(p, h, reply);
      } else if op == Opcodes.OnOff {
        OnOffKeepsInv(p, h, rq, reply);
      } else if op == Opcodes.EditorGetRectangle {
        EditorRectKeepsInv(p, h, reply);
      } else if op == Opcodes.ChunkGet {
        ChunkGetKeepsInv(p, h, rq, reply);
      } else if op == Opcodes.GetSpeakerArrangement {
        SpeakerArrangementKeepsInv(p, h, reply);
      }
    }
  }

  /** Cleanup keeps the invariant, and so does the teardown that follows
      it, which releases the (still live) editor rectangle. */
  lemma CleanupKeepsInv(p: Proxy, h: Heap)
    requires Inv(p, h)
    ensures var (p1, h1) := Cleanup(p, h); Inv(p1, h1)
    ensures var (p1, h1) := Cleanup(p, h); p.editorRect in h.live ==> p.editorRect in h1.live
  {
    if p.bound {
      ClearRegistryKeepsOthers(p, h);
      assert p.editorRect !in Addrs(p.registry);
    }
  }

  lemma TeardownKeepsInv(p: Proxy, h: Heap)
    requires Inv(p, h) && p.editorRect in h.live
    ensures var (p1, h1) := Teardown(p, h); Inv(p1, h1)
  {
    CleanupKeepsInv(p, h);
  }

  lemma CloseKeepsInv(p: Proxy, h: Heap, reply: Reply)
    requires Inv(p, h) && p.bound
    ensures var d := CloseStep(p, h, reply); Inv(d.proxy, d.heap)
  {
    if reply.Returns? {
      TeardownKeepsInv(Log(p, Invoked(Call.Close)), h);
    }
  }

  lemma OnOffKeepsInv(p: Proxy, h: Heap, rq: Request, reply: Reply)
    requires Inv(p, h) && p.bound
    ensures var d := OnOffStep(p, h, rq, reply); Inv(d.proxy, d.heap)
  {
    ClearRegistryKeepsOthers(p, h);
    assert p.editorRect !in Addrs(p.registry);
  }

  lemma EditorRectKeepsInv(p: Proxy, h: Heap, reply: Reply)
    requires Inv(p, h) && p.bound
    ensures var d := EditorRectStep(p, h, reply); Inv(d.proxy, d.heap)
  {
    if reply.Returns? && reply.answer.flag {
      var h' := Store(h, p.editorRect, EditorRectangle(reply.answer.rect));
      assert forall i :: 0 <= i < |p.registry| ==> p.registry[i].addr in h'.live;
    }
  }

  lemma ChunkGetKeepsInv(p: Proxy, h: Heap, rq: Request, reply: Reply)
    requires Inv(p, h) && p.bound
    ensures var d := ChunkGetStep(p, h, rq, reply); Inv(d.proxy, d.heap)
  {
    if reply.Returns? && reply.answer.chunk.Some? {
      AppendFresh(p.registry, p.editorRect, h, ChunkData(reply.answer.chunk.value), ArrayBlock);
    }
  }

  lemma SpeakerArrangementKeepsInv(p: Proxy, h: Heap, reply: Reply)
    requires Inv(p, h) && p.bound
    ensures var d := SpeakerArrangementStep(p, h, reply); Inv(d.proxy, d.heap)
  {
    if reply.Returns? && reply.answer.flag {
      var h1 := Allocate(h, SpeakerArrangementData(true));
      AppendFresh(p.registry, p.editorRect, h, SpeakerArrangementData(true), ObjectBlock);
      AppendFresh(p.registry + [Block(h.next, ObjectBlock)], p.editorRect, h1,
                  SpeakerArrangementData(false), ObjectBlock);
      assert p.registry + [Block(h.next, ObjectBlock), Block(h1.next, ObjectBlock)]
          == p.registry + [Block(h.next, ObjectBlock)] + [Block(h1.next, ObjectBlock)];
    }
  }

  // ----- Single calls -----

  /** OnOff releases every tracked block, then tells the plugin whether it
      is now on, and returns 1 unless the plugin throws; the release happens
      even when the plugin then throws. */
  lemma OnOffClearsThenNotifies(p: Proxy, h: Heap, rq: Request, reply: Reply)
    requires Inv(p, h) && p.bound && rq.opcode == Opcodes.OnOff
    ensures var d := Step(p, h, rq, reply);
      d.proxy.registry == [] &&
      d.proxy.log == p.log + [RegistryCleared, Invoked(MainsChanged(rq.value != 0))] &&
      d.result == (if reply.Throws? then 0 else 1) && d.writes == [] &&
      d.heap.freed == h.freed + Addrs(p.registry) &&
      (forall i :: 0 <= i < |p.registry| ==> p.registry[i].addr !in d.heap.live)
  {
    ClearRegistryKeepsOthers(p, h);
  }

  /** ChunkGet with a non-null chunk writes the address of a fresh block
      holding exactly the chunk's bytes through `ptr`, registers exactly
      that block, and returns the chunk's length; with a null chunk (or an
      exception) it returns 0, writes nothing and leaves the registry and
      memory alone. */
  lemma ChunkGetRegistersItsBlock(p: Proxy, h: Heap, rq: Request, reply: Reply)
    requires Inv(p, h) && p.bound && rq.opcode == Opcodes.ChunkGet
    ensures var d := Step(p, h, rq, reply);
      d.proxy.log == p.log + [Invoked(GetChunk(rq.index != 0))] &&
      if reply.Returns? && reply.answer.chunk.Some? then
        var bytes := reply.answer.chunk.value;
        exists a: nat ::
          a !in h.live && a !in h.freed &&
          FinalPointer(d.writes, ThroughPtr) == Some(At(a)) &&
          d.proxy.registry == p.registry + [Block(a, ArrayBlock)] &&
          a in d.heap.live && d.heap.live[a] == ChunkData(bytes) &&
          d.result == |bytes|
      else
        d.result == 0 && d.writes == [] && d.proxy.registry == p.registry && d.heap == h
  {
    if reply.Returns? && reply.answer.chunk.Some? {
      var d := Step(p, h, rq, reply);
      var a := h.next;
      assert a !in h.freed by {
        forall i | 0 <= i < |h.freed| ensures h.freed[i] != a {
          assert h.freed[i] < h.next;
        }
      }
      assert FinalPointer(d.writes, ThroughPtr) == Some(At(a));
    }
  }

  /** GetSpeakerArrangement nulls both output slots before asking the
      plugin. If the plugin declines (or throws) both stay null, the result
      is 0 and nothing is registered; if it accepts, both end up pointing at
      two distinct fresh blocks, exactly those two join the registry, and
      the result is 1. */
  lemma SpeakerArrangementOutputs(p: Proxy, h: Heap, rq: Request, reply: Reply)
    requires Inv(p, h) && p.bound && rq.opcode == Opcodes.GetSpeakerArrangement
    ensures var d := Step(p, h, rq, reply);
      |d.writes| >= 2 && d.writes[..2] == NullArrangements &&
      if reply.Returns? && reply.answer.flag then
        exists a1: nat, a2: nat ::
          a1 != a2 && a1 !in h.live && a2 !in h.live &&
          FinalPointer(d.writes, ThroughValue) == Some(At(a1)) &&
          FinalPointer(d.writes, ThroughPtr) == Some(At(a2)) &&
          d.proxy.registry == p.registry + [Block(a1, ObjectBlock), Block(a2, ObjectBlock)] &&
          d.result == 1
      else
        d.result == 0 && d.proxy.registry == p.registry && d.heap == h &&
        FinalPointer(d.writes, ThroughValue) == Some(Null) &&
        FinalPointer(d.writes, ThroughPtr) == Some(Null)
  {
    var d := Step(p, h, rq, reply);
    assert d == SpeakerArrangementStep(p, h, reply);
    if reply.Returns? && reply.answer.flag {
      var a1, a2 := h.next, h.next + 1;
      assert d.writes == NullArrangements + [PointerWrite(ThroughValue, At(a1)), PointerWrite(ThroughPtr, At(a2))];
      assert FinalPointer(d.writes, ThroughValue) == Some(At(a1)) by {
        assert d.writes[..|d.writes| - 1] == NullArrangements + [PointerWrite(ThroughValue, At(a1))];
      }
    } else {
      assert FinalPointer(d.writes, ThroughValue) == Some(Null) by {
        assert d.writes[..|d.writes| - 1] == [PointerWrite(ThroughValue, Null)];
      }
    }
  }

  /** The legacy KeysRequired query answers with inverted polarity: 0 when
      the plugin requires keys, 1 when it does not. */
  lemma KeysRequiredIsInverted(p: Proxy, h: Heap, rq: Request, a: Answer)
    requires p.bound && p.legacy && rq.opcode == Opcodes.KeysRequired
    ensures var d := Step(p, h, rq, Returns(a));
      d.result == (if a.flag then 0 else 1) &&
      d.proxy.log == p.log + [InvokedLegacy(LegacyCall.KeysRequired)]
  {
  }

  /** The legacy GetIcon query asks the plugin but always returns 0. */
  lemma GetIconReturnsZero(p: Proxy, h: Heap, rq: Request, reply: Reply)
    requires p.bound && p.legacy && rq.opcode == Opcodes.GetIcon
    ensures var d := Step(p, h, rq, reply);
      d.result == 0 && d.writes == [] && d.proxy.log == p.log + [InvokedLegacy(LegacyCall.GetIcon)]
  {
  }

  /** The program, parameter-label, parameter-display and parameter-name
      queries always succeed: the plugin's string (null included) is copied
      into the host's buffer, truncated to that buffer's capacity, and the
      result is 1. */
  lemma FixedNameQueriesAlwaysCopy(p: Proxy, h: Heap, rq: Request, a: Answer)
    requires p.bound
    requires rq.opcode == Opcodes.ProgramGetName || rq.opcode == Opcodes.ParameterGetLabel ||
             rq.opcode == Opcodes.ParameterGetDisplay || rq.opcode == Opcodes.ParameterGetName
    ensures var d := Step(p, h, rq, Returns(a));
      d.proxy == Log(p, Invoked(Translate(rq.opcode, rq))) && d.heap == h && d.result == 1 &&
      d.writes == [TextWrite(a.text, if rq.opcode == Opcodes.ProgramGetName then MaxProgNameLen else MaxParamStrLen)]
  {
  }

  /** The indexed program-name, effect-name, vendor and product queries
      succeed only on a non-null string: a null answer writes nothing and
      returns 0; otherwise the string is copied, truncated to the opcode's
      buffer, and the result is 1. */
  lemma NameQueriesCopyOnlyPresentText(p: Proxy, h: Heap, rq: Request, a: Answer)
    requires p.bound
    requires rq.opcode == Opcodes.ProgramGetNameByIndex || rq.opcode == Opcodes.PluginGetName ||
             rq.opcode == Opcodes.VendorGetString || rq.opcode == Opcodes.ProductGetString
    ensures var d := Step(p, h, rq, Returns(a));
      var capacity := if rq.opcode == Opcodes.ProgramGetNameByIndex then MaxProgNameLen
        else if rq.opcode == Opcodes.PluginGetName then MaxEffectNameLen
        else if rq.opcode == Opcodes.VendorGetString then MaxVendorStrLen
        else MaxProductStrLen;
      d.proxy == Log(p, Invoked(Translate(rq.opcode, rq))) && d.heap == h &&
      (a.text.None? ==> d.result == 0 && d.writes == []) &&
      (a.text.Some? ==> d.result == 1 && d.writes == [TextWrite(a.text, capacity)])
  {
  }

  /** An opcode neither table handles, or a legacy opcode when the plugin
      does not implement the legacy interface, returns 0, calls nothing and
      changes nothing. */
  lemma UnhandledIsInert(p: Proxy, h: Heap, rq: Request, reply: Reply)
    requires CurrentConvention(rq.opcode).Unhandled?
    requires !p.legacy || LegacyConvention(rq.opcode).Unhandled?
    ensures Step(p, h, rq, reply) == Dispatched(p, h, 0, [])
  {
  }

  /** Close tells the plugin first and tears the proxy down only if that
      returned: the tracker is cleared once, the stub unbound and the
      editor rectangle released, in that order. If the plugin throws, the
      proxy stays bound. */
  lemma CloseNotifiesThenTearsDown(p: Proxy, h: Heap, rq: Request, reply: Reply)
    requires Inv(p, h) && p.bound && rq.opcode == Opcodes.Close
    ensures var d := Step(p, h, rq, reply);
      d.result == 0 && d.writes == [] &&
      if reply.Returns? then
        !d.proxy.bound && d.proxy.registry == [] &&
        d.proxy.log == p.log + [Invoked(Call.Close), RegistryCleared, Disposed] &&
        d.heap.freed == h.freed + Addrs(p.registry) + [p.editorRect] &&
        p.editorRect !in d.heap.live
      else
        d.proxy == Log(p, Invoked(Call.Close)) && d.heap == h
  {
    if reply.Returns? {
      ClearRegistryKeepsOthers(Log(p, Invoked(Call.Close)), h);
    }
  }

  /** An exception from the plugin never escapes and leaves the result at
      0. Only what was done before the plugin was called survives it: the
      release of the tracked blocks for OnOff, the nulled output slots for
      GetSpeakerArrangement, and the logged call itself. Nothing is
      allocated, registered or torn down. */
  lemma ThrowKeepsOnlyEarlierEffects(p: Proxy, h: Heap, rq: Request)
    requires Inv(p, h) && p.bound
    ensures var d := Step(p, h, rq, Throws);
      d.result == 0 && d.proxy.bound &&
      (rq.opcode == Opcodes.GetSpeakerArrangement ==> d.writes == NullArrangements) &&
      (rq.opcode != Opcodes.GetSpeakerArrangement ==> d.writes == []) &&
      (rq.opcode == Opcodes.OnOff ==> d.proxy.registry == [] && d.heap == ReleaseAll(h, p.registry)) &&
      (rq.opcode != Opcodes.OnOff ==> d.proxy.registry == p.registry && d.heap == h)
  {
  }

  /** A second Cleanup finds no tracker and changes nothing further. */
  lemma CleanupIsIdempotent(p: Proxy, h: Heap)
    ensures var (p1, h1) := Cleanup(p, h); Cleanup(p1, h1) == (p1, h1)
    ensures var (p1, h1) := Cleanup(p, h);
      |p1.log| <= |p.log| + 1 && (p.bound ==> p1.log == p.log + [RegistryCleared])
  {
  }

  // ----- Runs of calls -----

  /** The state after a run of dispatch calls and the results, in order. */
  datatype Trace = Trace(proxy: Proxy, heap: Heap, results: seq<int>)

  function Run(p: Proxy, h: Heap, rqs: seq<Request>, replies: seq<Reply>): (t: Trace)
    requires |rqs| == |replies|
    ensures |t.results| == |rqs|
    decreases |rqs|
  {
    if rqs == [] then Trace(p, h, [])
    else
      var d := Step(p, h, rqs[0], replies[0]);
      var t := Run(d.proxy, d.heap, rqs[1..], replies[1..]);
      Trace(t.proxy, t.heap, [d.result] + t.results)
  }

  /** Any run keeps the invariant, so no native block is released twice
      over the whole life of the proxy. */
  lemma {:induction false} RunPreservesInv(p: Proxy, h: Heap, rqs: seq<Request>, replies: seq<Reply>)
    requires |rqs| == |replies| && Inv(p, h)
    ensures var t := Run(p, h, rqs, replies); Inv(t.proxy, t.heap)
    decreases |rqs|
  {
    if rqs != [] {
      StepPreservesInv(p, h, rqs[0], replies[0]);
      var d := Step(p, h, rqs[0], replies[0]);
      RunPreservesInv(d.proxy, d.heap, rqs[1..], replies[1..]);
    }
  }

  /** Once no command stub is bound, every later dispatch returns 0, calls
      nothing and changes nothing, whatever the host sends. */
  lemma {:induction false} UnboundRunIsInert(p: Proxy, h: Heap, rqs: seq<Request>, replies: seq<Reply>)
    requires |rqs| == |replies| && !p.bound
    ensures var t := Run(p, h, rqs, replies);
      t.proxy == p && t.heap == h && forall i :: 0 <= i < |t.results| ==> t.results[i] == 0
    decreases |rqs|
  {
    if rqs != [] {
      UnboundRunIsInert(p, h, rqs[1..], replies[1..]);
    }
  }

  /** After a Close that the plugin accepted, the proxy is gone: every later
      dispatch returns 0 and reaches no plugin command. */
  lemma AfterCloseEverythingIsZero(p: Proxy, h: Heap, close: Request, a: Answer,
                                   rqs: seq<Request>, replies: seq<Reply>)
    requires p.bound && close.opcode == Opcodes.Close && |rqs| == |replies|
    ensures var d := Step(p, h, close, Returns(a)); var t := Run(d.proxy, d.heap, rqs, replies);
      t.proxy.log == d.proxy.log && forall i :: 0 <= i < |t.results| ==> t.results[i] == 0
  {
    var d := Step(p, h, close, Returns(a));
    UnboundRunIsInert(d.proxy, d.heap, rqs, replies);
  }

  /** True of requests that may release tracked blocks. */
  predicate Releases(rq: Request) {
    rq.opcode == Opcodes.OnOff || rq.opcode == Opcodes.Close
  }

  /** A dispatch call other than OnOff or Close only adds to the registry,
      and leaves every tracked block live and unchanged. */
  lemma StepKeepsTracked(p: Proxy, h: Heap, rq: Request, reply: Reply)
    requires Inv(p, h) && !Releases(rq)
    ensures var d := Step(p, h, rq, reply);
      |p.registry| <= |d.proxy.registry| && d.proxy.registry[..|p.registry|] == p.registry &&
      forall i :: 0 <= i < |p.registry| ==>
        p.registry[i].addr in d.heap.live && d.heap.live[p.registry[i].addr] == h.live[p.registry[i].addr]
  {
    var d := Step(p, h, rq, reply);
    forall i | 0 <= i < |p.registry|
      ensures p.registry[i].addr in d.heap.live && d.heap.live[p.registry[i].addr] == h.live[p.registry[i].addr]
    {
      var a := p.registry[i].addr;
      assert a in h.live && a < h.next && a != p.editorRect;
    }
  }

  /** A block handed to the host stays registered, live and unchanged until
      the next OnOff or Close: the host may read a chunk after the call
      that returned it, for as long as the plugin is not switched. */
  lemma {:induction false} TrackedBlockOutlivesCalls(p: Proxy, h: Heap, rqs: seq<Request>, replies: seq<Reply>, i: nat)
    requires |rqs| == |replies| && Inv(p, h) && i < |p.registry|
    requires forall k :: 0 <= k < |rqs| ==> !Releases(rqs[k])
    ensures var t := Run(p, h, rqs, replies); var a := p.registry[i].addr;
      i < |t.proxy.registry| && t.proxy.registry[i] == p.registry[i] &&
      a in t.heap.live && t.heap.live[a] == h.live[a]
    decreases |rqs|
  {
    if rqs != [] {
      StepKeepsTracked(p, h, rqs[0], replies[0]);
      StepPreservesInv(p, h, rqs[0], replies[0]);
      var d := Step(p, h, rqs[0], replies[0]);
      assert d.proxy.registry[i] == p.registry[i];
      TrackedBlockOutlivesCalls(d.proxy, d.heap, rqs[1..], replies[1..], i);
    }
  }
}
