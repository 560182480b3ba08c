/** The one-slot arena with heap fallback behind the ping-pong handlers:
    example/asio/pingpong/handler_allocator.hpp. */
module HandlerAllocator {

  const CAPACITY: nat := 1024

  datatype Block = Inline | Heap(address: int)

  /** One allocator and the heap it falls back on. `live` are the blocks handed out and not returned,
      `heap` the addresses the global heap has allocated for it, and the two multisets count, address
      by address, the calls of the global operators new and delete. */
  datatype Arena = Arena(inUse: bool, live: set<Block>, heap: set<int>, news: multiset<int>, deletes: multiset<int>)

  const EMPTY := Arena(false, {}, {}, multiset{}, multiset{})

  datatype Event = Allocate(size: nat, address: int) | Deallocate(block: Block)

  /** The global heap never returns an address that is still allocated, and callers return only what
      they hold. */
  predicate WellFormed(a: Arena, e: Event) {
    match e
    case Allocate(_, address) => address !in a.heap
    case Deallocate(block) => block in a.live
  }

  function Placed(a: Arena, size: nat, address: int): Block {
    if !a.inUse && size < CAPACITY then Inline else Heap(address)
  }

  function Step(a: Arena, e: Event): Arena {
    match e
    case Allocate(size, address) =>
      if Placed(a, size, address) == Inline then a.(inUse := true, live := a.live + {Inline})
      else a.(live := a.live + {Heap(address)}, heap := a.heap + {address}, news := a.news + multiset{address})
    case Deallocate(block) =>
      if block == Inline then a.(inUse := false, live := a.live - {Inline})
      else
        a.(live := a.live - {block}, heap := a.heap - {block.address},
           deletes := a.deletes + multiset{block.address})
  }

  predicate Legal(a: Arena, run: seq<Event>)
    decreases run
  {
    run == [] || (WellFormed(a, run[0]) && Legal(Step(a, run[0]), run[1..]))
  }

  function Exec(a: Arena, run: seq<Event>): Arena
    decreases run
  {
    if run == [] then a else Exec(Step(a, run[0]), run[1..])
  }

  /** Allocations minus deallocations. */
  function Balance(run: seq<Event>): int {
    if run == [] then 0 else (if run[0].Allocate? then 1 else -1) + Balance(run[1..])
  }

  ghost predicate Inv(a: Arena) {
    && (a.inUse <==> Inline in a.live)
    && (forall address :: address in a.heap <==> Heap(address) in a.live)
    && a.news == a.deletes + multiset(a.heap)
  }

  lemma AllocateKeepsInv(a: Arena, size: nat, address: int)
    requires Inv(a) && address !in a.heap
    ensures Inv(Step(a, Allocate(size, address)))
    ensures Placed(a, size, address) !in a.live
  {
  }

  lemma DeallocateKeepsInv(a: Arena, block: Block)
    requires Inv(a) && block in a.live
    ensures Inv(Step(a, Deallocate(block)))
  {
  }

  /** The block handed out is not held by anybody, so the live blocks stay distinct. */
  lemma StepKeepsInv(a: Arena, e: Event)
    requires Inv(a) && WellFormed(a, e)
    ensures Inv(Step(a, e))
    ensures e.Allocate? ==>
      && Placed(a, e.size, e.address) !in a.live
      && Step(a, e).live == a.live + {Placed(a, e.size, e.address)}
    ensures |Step(a, e).live| == |a.live| + (if e.Allocate? then 1 else -1)
  {
    match e
    case Allocate(size, address) => AllocateKeepsInv(a, size, address);
    case Deallocate(block) => DeallocateKeepsInv(a, block);
  }

  /** Over every well-formed run: as many blocks are live as were not yet returned, the slot is marked
      exactly while it is live, and every heap address has been deleted exactly as often as it was
      handed out, save once less while it is live. */
  lemma {:induction false} EveryRun(a: Arena, run: seq<Event>)
    requires Inv(a) && Legal(a, run)
    ensures
      var b := Exec(a, run);
      && Inv(b)
      && |b.live| == |a.live| + Balance(run)
      && forall address :: b.news[address]
           == b.deletes[address] + (if Heap(address) in b.live then 1 else 0)
    decreases run
  {
    if run != [] {
      StepKeepsInv(a, run[0]);
      EveryRun(Step(a, run[0]), run[1..]);
    }
  }

  lemma NothingLive(a: Arena)
    requires Inv(a) && a.live == {}
    ensures a.heap == {}
  {
    forall address: int
      ensures address !in a.heap
    {
      assert Heap(address) !in a.live;
    }
  }

  /** A handler's size, and the address the global heap would give it. */
  datatype Handler = Handler(size: nat, address: int)

  /** What one direction of a session does: the library frees each handler before it calls it, so an
      allocation always finds the slot free. */
  function OneAtATime(handlers: seq<Handler>): seq<Event> {
    if handlers == [] then []
    else
      var h := handlers[0];
      var block := if h.size < CAPACITY then Inline else Heap(h.address);
      [Allocate(h.size, h.address), Deallocate(block)] + OneAtATime(handlers[1..])
  }

  /** With one operation at a time the heap is used exactly for the handlers that do not fit, wherever
      it puts them. */
  lemma {:induction false} HeapOnlyForLargeHandlers(a: Arena, handlers: seq<Handler>)
    requires Inv(a) && a.live == {}
    ensures Legal(a, OneAtATime(handlers))
    ensures
      var b := Exec(a, OneAtATime(handlers));
      && Inv(b) && b.live == {}
      && (b.news == a.news <==> forall i :: 0 <= i < |handlers| ==> handlers[i].size < 1024)
      && |b.news| >= |a.news|
    decreases handlers
  {
    if handlers != [] {
      var run := OneAtATime(handlers);
      NothingLive(a);
      var b := Step(a, run[0]);
      StepKeepsInv(a, run[0]);
      StepKeepsInv(b, run[1]);
      var c := Step(b, run[1]);
      assert c.live == {};
      HeapOnlyForLargeHandlers(c, handlers[1..]);
      assert run[1..][1..] == OneAtATime(handlers[1..]);
      assert run[1..][0] == run[1];
      assert forall i :: 1 <= i < |handlers| ==> handlers[i] == handlers[1..][i - 1];
      assert |c.news| == |a.news| + (if handlers[0].size < CAPACITY then 0 else 1);
    }
  }

  class Allocator {
    var inUse: bool
    /* The blocks of the global heap this allocator has handed out, and who holds what. */
    ghost var live: set<Block>
    ghost var heap: set<int>
    ghost var news: multiset<int>
    ghost var deletes: multiset<int>

    ghost function View(): Arena
      reads this
    {
      Arena(inUse, live, heap, news, deletes)
    }

    ghost predicate Valid()
      reads this
    {
      Inv(View())
    }

    constructor ()
      ensures Valid() && View() == EMPTY
    {
      inUse := false;
      live, heap, news, deletes := {}, {}, multiset{}, multiset{};
    }

    /** `address` is what the global heap would answer. */
    method Allocate(size: nat, address: int) returns (block: Block)
      requires Valid() && address !in heap
      modifies this
      ensures Valid()
      ensures View() == Step(old(View()), Event.Allocate(size, address))
      ensures block !in old(live) && live == old(live) + {block}
      ensures block == Inline <==> !old(inUse) && size < 1024
      ensures block != Inline ==> block == Heap(address) && inUse == old(inUse)
      ensures news == old(news) + (if block == Inline then multiset{} else multiset{address})
    {
      StepKeepsInv(View(), Event.Allocate(size, address));
      if !inUse && size < CAPACITY {
        inUse := true;
        live := live + {Inline};
        return Inline;
      }
      heap, news := heap + {address}, news + multiset{address};
      live := live + {Heap(address)};
      return Heap(address);
    }

    method Deallocate(block: Block)
      requires Valid() && block in live
      modifies this
      ensures Valid()
      ensures View() == Step(old(View()), Event.Deallocate(block))
      ensures live == old(live) - {block}
      ensures inUse == (old(inUse) && block != Inline)
      ensures deletes == old(deletes) + (if block == Inline then multiset{} else multiset{block.address})
    {
      StepKeepsInv(View(), Event.Deallocate(block));
      if block == Inline {
        inUse := false;
      } else {
        heap, deletes := heap - {block.address}, deletes + multiset{block.address};
      }
      live := live - {block};
    }
  }
}
