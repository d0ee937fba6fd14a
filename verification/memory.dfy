/** Native memory that the proxy hands to the host, and the memory tracker
    that keeps the blocks the host reads after a dispatch call returns. */
module Memory {
  import opened Native

  /** What a native block holds. */
  datatype Content =
    | ChunkData(bytes: seq<byte>)            // a copy of a chunk the plugin returned
    | SpeakerArrangementData(input: bool)    // a speaker-arrangement struct (input or output side)
    | EditorRectangle(r: Rect)               // the proxy's reusable editor rectangle

  /** How a tracked block was allocated, which decides how it is reclaimed. */
  datatype BlockKind = ArrayBlock | ObjectBlock

  datatype Block = Block(addr: nat, kind: BlockKind)

  /** The native heap: the next fresh address, the live blocks, and every
      address released so far, in order. */
  datatype Heap = Heap(next: nat, live: map<nat, Content>, freed: seq<nat>)

  /** Addresses are handed out once, a released block is no longer live,
      and no block is released twice. */
  ghost predicate HeapValid(h: Heap) {
    (forall a :: a in h.live ==> a < h.next) &&
    (forall i :: 0 <= i < |h.freed| ==> h.freed[i] < h.next && h.freed[i] !in h.live) &&
    (forall i, j :: 0 <= i < j < |h.freed| ==> h.freed[i] != h.freed[j])
  }

  /** The heap after allocating one block holding `c` at address `h.next`. */
  function Allocate(h: Heap, c: Content): (h': Heap)
    ensures h'.next == h.next + 1 && h'.freed == h.freed
    ensures h.next in h'.live && h'.live[h.next] == c
    ensures forall a :: a in h.live && a != h.next ==> a in h'.live && h'.live[a] == h.live[a]
    ensures HeapValid(h) ==> HeapValid(h') && h.next !in h.live
  {
    Heap(h.next + 1, h.live[h.next := c], h.freed)
  }

  /** The heap after releasing the block at `a`. */
  function Release(h: Heap, a: nat): (h': Heap)
    ensures h'.next == h.next && h'.freed == h.freed + [a]
    ensures a !in h'.live
    ensures forall b :: b in h'.live <==> b in h.live && b != a
    ensures HeapValid(h) && a in h.live ==> HeapValid(h')
  {
    Heap(h.next, h.live - {a}, h.freed + [a])
  }

  /** The heap after overwriting the live block at `a` with `c`. */
  function Store(h: Heap, a: nat, c: Content): (h': Heap)
    ensures h'.next == h.next && h'.freed == h.freed
    ensures a in h.live ==> h'.live.Keys == h.live.Keys
    ensures a in h'.live && h'.live[a] == c
    ensures forall b :: b in h.live && b != a ==> b in h'.live && h'.live[b] == h.live[b]
    ensures HeapValid(h) && a in h.live ==> HeapValid(h')
  {
    Heap(h.next, h.live[a := c], h.freed)
  }

  function Addrs(bs: seq<Block>): (r: seq<nat>)
    ensures |r| == |bs|
    ensures forall i :: 0 <= i < |bs| ==> r[i] == bs[i].addr
  {
    if bs == [] then [] else Addrs(bs[..|bs| - 1]) + [bs[|bs| - 1].addr]
  }

  /** The heap after releasing `bs` one block at a time, first to last. */
  function ReleaseAll(h: Heap, bs: seq<Block>): Heap
  {
    if bs == [] then h else Release(ReleaseAll(h, bs[..|bs| - 1]), bs[|bs| - 1].addr)
  }

  /** The blocks a tracker holds: distinct and all live. */
  ghost predicate Trackable(bs: seq<Block>, h: Heap) {
    (forall i :: 0 <= i < |bs| ==> bs[i].addr in h.live) &&
    (forall i, j :: 0 <= i < j < |bs| ==> bs[i].addr != bs[j].addr)
  }

  /** Releasing a set of distinct live blocks frees each of them exactly
      once, in order, keeps every other block live and unchanged, and
      never releases an address twice. */
  lemma {:induction false} ReleaseAllFreesEachOnce(h: Heap, bs: seq<Block>)
    requires HeapValid(h) && Trackable(bs, h)
    ensures var h' := ReleaseAll(h, bs);
      HeapValid(h') && h'.next == h.next && h'.freed == h.freed + Addrs(bs) &&
      (forall a :: a in h'.live <==> a in h.live && a !in Addrs(bs)) &&
      (forall a :: a in h'.live ==> h'.live[a] == h.live[a])
  {
    if bs != [] {
      var init := bs[..|bs| - 1];
      var last := bs[|bs| - 1];
      assert Trackable(init, h);
      ReleaseAllFreesEachOnce(h, init);
      var mid := ReleaseAll(h, init);
      assert last.addr !in Addrs(init) by {
        forall i | 0 <= i < |init| ensures Addrs(init)[i] != last.addr {
          assert bs[i].addr != bs[|bs| - 1].addr;
        }
      }
      assert last.addr in mid.live;
      assert Addrs(bs) == Addrs(init) + [last.addr];
    }
  }

  /** The native allocator and its memory. */
  class NativeHeap {
    var next: nat
    var live: map<nat, Content>
    var freed: seq<nat>

    function Value(): Heap
      reads this
    {
      Heap(next, live, freed)
    }

    constructor ()
      ensures Value() == Heap(0, map[], [])
    {
      next, live, freed := 0, map[], [];
    }

    /** Allocates a fresh block holding `c`. */
    method Alloc(c: Content) returns (a: nat)
      modifies this
      ensures a == old(next)
      ensures Value() == Allocate(old(Value()), c)
    {
      a := next;
      live := live[a := c];
      next := next + 1;
    }

    /** Releases the block at `a`. */
    method Free(a: nat)
      modifies this
      ensures Value() == Release(old(Value()), a)
    {
      live := live - {a};
      freed := freed + [a];
    }

    /** Overwrites the live block at `a` with `c`. */
    method Put(a: nat, c: Content)
      requires a in live
      modifies this
      ensures Value() == Store(old(Value()), a, c)
    {
      live := live[a := c];
    }
  }

  /** The registry of blocks whose addresses have been handed to the host. */
  class MemoryTracker {
    var blocks: seq<Block>

    constructor ()
      ensures blocks == []
    {
      blocks := [];
    }

    /** Registers a block allocated as an array. */
    method RegisterArray(addr: nat)
      modifies this
      ensures blocks == old(blocks) + [Block(addr, ArrayBlock)]
    {
      blocks := blocks + [Block(addr, ArrayBlock)];
    }

    /** Registers a block allocated as a single object. */
    method RegisterObject(addr: nat)
      modifies this
      ensures blocks == old(blocks) + [Block(addr, ObjectBlock)]
    {
      blocks := blocks + [Block(addr, ObjectBlock)];
    }

    /** Releases every registered block and empties the registry. */
    method ClearAll(heap: NativeHeap)
      modifies this, heap
      ensures blocks == []
      ensures heap.Value() == ReleaseAll(old(heap.Value()), old(blocks))
    {
      var i := 0;
      while i < |blocks|
        invariant 0 <= i <= |blocks| && blocks == old(blocks)
        invariant heap.Value() == ReleaseAll(old(heap.Value()), blocks[..i])
      {
        assert blocks[..i + 1][..i] == blocks[..i];
        heap.Free(blocks[i].addr);
        i := i + 1;
      }
      assert blocks[..i] == blocks;
      blocks := [];
    }
  }
}
