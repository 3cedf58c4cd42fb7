/** The objects on both sides of the boundary, updated in place: the native heap, the shared
    State, NativeHandle with its leak guard, and the RawBox guard. Sequential contracts. */
module Handles {
  import opened Values
  import opened Atomic

  ghost predicate Holds(cells: map<Addr, Cell>, a: Addr, tag: Tag) {
    a in cells && cells[a].tag == tag
  }

  class NativeHeap {
    var cells: map<Addr, Cell>

    constructor ()
      ensures cells == map[]
    {
      cells := map[];
    }

    /** box_to_jlong: the allocator may return any address that is not in use. */
    method Allocate(cell: Cell) returns (a: Addr)
      modifies this
      ensures a != 0 && a !in old(cells) && cells == old(cells)[a := cell]
    {
      ghost var b := Bound(cells.Keys);
      assert b != 0 && b !in cells;
      a :| a != 0 && a !in cells;
      cells := cells[a := cell];
    }

    /** Dropping a box: only for a live address of the right type. */
    method Release(a: Addr, tag: Tag)
      requires Holds(cells, a, tag)
      modifies this
      ensures cells == old(cells) - {a}
    {
      cells := cells - {a};
    }
  }

  /** native_free: a null pointer is refused by check_ptr and the error swallowed. */
  method NativeFree(heap: NativeHeap, a: Addr, tag: Tag)
    requires a != 0 ==> Holds(heap.cells, a, tag)
    modifies heap
    ensures heap.cells == if a == 0 then old(heap.cells) else old(heap.cells) - {a}
  {
    if a != 0 {
      heap.Release(a, tag);
    }
  }

  class PointerState {
    var ptr: Addr

    constructor (p: Addr)
      ensures ptr == p
    {
      ptr := p;
    }

    method Take() returns (held: Addr)
      modifies this
      ensures held == old(ptr) && ptr == 0
    {
      held := ptr;
      ptr := 0;
    }

    predicate IsTaken()
      reads this
    {
      ptr == 0
    }
  }

  class NativeHandle {
    const heap: NativeHeap
    const state: PointerState
    const tag: Tag
    var fired: bool    // the Cleanable has run
    var warned: bool   // the leak warning was logged

    constructor (heap: NativeHeap, ptr: Addr, tag: Tag)
      ensures this.heap == heap && this.tag == tag && fresh(state) && state.ptr == ptr
      ensures !fired && !warned
    {
      this.heap := heap;
      this.tag := tag;
      fired, warned := false, false;
      state := new PointerState(ptr);
    }

    /** The handle's pointer is live, has its type, and the leak guard is still armed for it. */
    ghost predicate Valid()
      reads this, heap, state
    {
      state.ptr != 0 ==> Holds(heap.cells, state.ptr, tag) && !fired
    }

    /** The handle as the atomic machine sees it. */
    ghost function Contents(): Slot
      reads this, heap, state
      requires Valid()
    {
      Slot(tag, if state.ptr == 0 then Shut(false) else Open(heap.cells[state.ptr].value))
    }

    method CheckNotClosed() returns (open: bool)
      ensures open <==> state.ptr != 0
    {
      open := !state.IsTaken();
    }

    /** LeakGuard.run. */
    method RunLeakGuard()
      requires state.ptr != 0 ==> Holds(heap.cells, state.ptr, tag)
      modifies this`warned, state, heap
      ensures state.ptr == 0
      ensures warned == (old(warned) || old(state.ptr) != 0)
      ensures heap.cells == if old(state.ptr) == 0 then old(heap.cells) else old(heap.cells) - {old(state.ptr)}
    {
      var held := state.Take();
      if held != 0 {
        warned := true;
        NativeFree(heap, held, tag);
      }
    }

    /** cleanable.clean: the action runs at most once. */
    method Clean()
      requires state.ptr != 0 && !fired ==> Holds(heap.cells, state.ptr, tag)
      modifies this, state, heap
      ensures fired
      ensures old(fired) ==> state.ptr == old(state.ptr) && warned == old(warned) && heap.cells == old(heap.cells)
      ensures !old(fired) ==>
                && state.ptr == 0 && warned == (old(warned) || old(state.ptr) != 0)
                && heap.cells == if old(state.ptr) == 0 then old(heap.cells) else old(heap.cells) - {old(state.ptr)}
    {
      if !fired {
        fired := true;
        RunLeakGuard();
      }
    }

    /** Idempotent; releases the box once and never warns. */
    method Close()
      requires Valid()
      modifies this, state, heap
      ensures Valid() && state.ptr == 0 && warned == old(warned)
      ensures heap.cells == if old(state.ptr) == 0 then old(heap.cells) else old(heap.cells) - {old(state.ptr)}
      ensures fired == (old(fired) || old(state.ptr) != 0)
    {
      var held := state.Take();
      if held != 0 {
        Clean();
        NativeFree(heap, held, tag);
      }
    }

    /** Gives the pointer up without releasing or warning, live or dangling. */
    method Invalidate()
      modifies this, state, heap
      ensures Valid() && state.ptr == 0 && fired && warned == old(warned) && heap.cells == old(heap.cells)
    {
      var held := state.Take();
      Clean();
    }
  }

  /** OutboundCreationResult and InboundCreationResult: a handle adopted from native code, with
      the data returned beside it. */
  class CreationResult {
    const handle: NativeHandle
    const data: int

    constructor (heap: NativeHeap, ptr: Addr, tag: Tag, data: int)
      ensures fresh(handle) && fresh(handle.state) && handle.heap == heap && handle.tag == tag
      ensures handle.state.ptr == ptr && !handle.fired && !handle.warned && this.data == data
    {
      handle := new NativeHandle(heap, ptr, tag);
      this.data := data;
    }

    /** Releases the adopted box, once. */
    method Close()
      requires handle.Valid()
      modifies handle, handle.state, handle.heap
      ensures handle.Valid() && handle.state.ptr == 0 && handle.warned == old(handle.warned)
      ensures handle.heap.cells ==
              if old(handle.state.ptr) == 0 then old(handle.heap.cells)
              else old(handle.heap.cells) - {old(handle.state.ptr)}
    {
      handle.Close();
    }
  }

  /** Owns a fresh box until it is leaked to Java; dropping it while armed releases the box. */
  class RawBox {
    const heap: NativeHeap
    const tag: Tag
    const ptr: Addr
    var armed: bool

    constructor (heap: NativeHeap, cell: Cell)
      modifies heap
      ensures this.heap == heap && tag == cell.tag && armed
      ensures ptr != 0 && ptr !in old(heap.cells) && heap.cells == old(heap.cells)[ptr := cell]
    {
      var a := heap.Allocate(cell);
      this.heap, this.tag, this.ptr, this.armed := heap, cell.tag, a, true;
    }

    method Leak()
      modifies this
      ensures !armed
    {
      armed := false;
    }

    method Drop()
      requires armed ==> Holds(heap.cells, ptr, tag)
      modifies this, heap
      ensures !armed && heap.cells == if old(armed) then old(heap.cells) - {ptr} else old(heap.cells)
    {
      if armed {
        armed := false;
        heap.Release(ptr, tag);
      }
    }
  }
}
