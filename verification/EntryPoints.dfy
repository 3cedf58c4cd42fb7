/** The guarded native entry points and the Java methods around them, for every point at which a
    conversion, the operation or the construction of the Java object can fail. Each method leaves
    the native heap exactly as its contract says and does what the atomic machine does. */
module EntryPoints {
  import opened Values
  import opened Atomic
  import opened Handles

  /** Where an error is returned or a panic unwinds. */
  datatype Trouble =
    | Smooth
    | BadInput      // a JNI conversion of an argument
    | OpPanics      // inside the native operation, before it changes anything
    | Halfway       // inside the native operation, after it changed one of its boxes
    | NoReply       // a conversion of the result (for a guarded box: after it was allocated)
    | NoObject      // new_object fails before the Java constructor registers the handle

  /** One step of the atomic machine on a handle named 0 (and a partner named 2), a new handle
      being named 1. */
  predicate Follows(cfg: Config, before: Table, call: Call, out: Outcome, after: Slot, born: Option<Slot>) {
    var r := Perform(cfg, before, call, out);
    && r.Some? && 0 in r.value && r.value[0] == after
    && (1 in r.value <==> born.Some?) && (born.Some? ==> r.value[1] == born.value)
  }

  ghost function BornOf(child: NativeHandle?): Option<Slot>
    reads if child == null then {} else {child, child.state, child.heap}
    requires child != null ==> child.Valid()
  {
    if child == null then None else Some(child.Contents())
  }

  /** A fresh, valid, open handle on the given heap. */
  twostate predicate NewOn(heap: NativeHeap, new child: NativeHandle, cell: Cell)
    reads child, child.state, heap, child.heap
  {
    && fresh(child) && fresh(child.state) && child.heap == heap && child.Valid() && !child.warned
    && child.tag == cell.tag && child.state.ptr != 0
    && Holds(heap.cells, child.state.ptr, cell.tag) && heap.cells[child.state.ptr] == cell
  }

  // ----- Consuming calls -----

  /** A consuming call made this of its input box: the new box holds what the operation
      established from the value that was in the input. */
  twostate predicate Established(
    cfg: Config, heap: NativeHeap, ptr: Addr, op: int, new child: NativeHandle, tag: Tag)
    requires ptr in old(heap.cells)
    reads child, child.state, heap, child.heap
  {
    && cfg.native.decodes(op) && child.state.ptr in heap.cells
    && cfg.native.establish(op, old(heap.cells)[ptr].value) == Some(heap.cells[child.state.ptr].value)
    && NewOn(heap, child, Cell(tag, heap.cells[child.state.ptr].value))
    && child.state.ptr !in old(heap.cells)
    && heap.cells == (old(heap.cells) - {ptr})[child.state.ptr := heap.cells[child.state.ptr]]
  }

  /** nativeDiffieHellman: the box is taken over before anything can fail. */
  method NativeDiffieHellman(cfg: Config, heap: NativeHeap, ptr: Addr, op: int, trouble: Trouble)
    returns (out: Outcome, child: NativeHandle?)
    requires Holds(heap.cells, ptr, Sas)
    modifies heap
    ensures out == SasOutcome(cfg.native, op, old(heap.cells)[ptr].value, trouble)
    ensures child != null <==> out == Made(1)
    ensures child == null ==> heap.cells == old(heap.cells) - {ptr}
    ensures child != null ==> Established(cfg, heap, ptr, op, child, EstablishedSas)
  {
    // Box::from_raw
    var value := heap.cells[ptr].value;
    child := null;
    if trouble == BadInput {
      out := Broken(0);
    } else if !cfg.native.decodes(op) {
      out := Failed(0);
    } else if trouble == OpPanics || trouble == Halfway {
      out := Broken(0);
    } else {
      var r := cfg.native.establish(op, value);
      if r.None? {
        out := Failed(0);
      } else {
        var guard := new RawBox(heap, Cell(EstablishedSas, r.value));
        if trouble == NoObject {
          guard.Drop();
          out := Broken(0);
        } else {
          child := new NativeHandle(heap, guard.ptr, EstablishedSas);
          guard.Leak();
          out := Made(1);
        }
      }
    }
    // the closure ends: the local box is dropped on every path
    heap.Release(ptr, Sas);
  }

  /** The answer of nativeDiffieHellman on a box holding v: trouble counts where the code meets it. */
  function SasOutcome(native: Native, op: int, v: Value, trouble: Trouble): Outcome {
    if trouble == BadInput then Broken(0)
    else if !native.decodes(op) then Failed(0)
    else if trouble == OpPanics || trouble == Halfway then Broken(0)
    else if native.establish(op, v).None? then Failed(0)
    else if trouble == NoObject then Broken(0)
    else Made(1)
  }

  /** Sas.diffieHellman: the handle is invalidated on every path out of the native call. */
  method DiffieHellman(cfg: Config, h: NativeHandle, op: int, trouble: Trouble)
    returns (out: Outcome, child: NativeHandle?)
    requires h.Valid() && h.tag == Sas
    modifies h, h.state, h.heap
    ensures h.Valid() && h.state.ptr == 0 && h.warned == old(h.warned)
    ensures child != null ==> fresh(child) && fresh(child.state) && child.heap == h.heap && child.Valid()
    ensures Follows(cfg, map[0 := old(h.Contents())], Consume(0, op), out, h.Contents(), BornOf(child))
    ensures out == Closed <==> old(h.state.ptr) == 0
    ensures old(h.state.ptr) == 0 ==> child == null && h.heap.cells == old(h.heap.cells)
    ensures old(h.state.ptr) != 0 ==>
              && out == SasOutcome(cfg.native, op, old(h.heap.cells)[old(h.state.ptr)].value, trouble)
              && (child != null <==> out == Made(1))
              && (child == null ==> h.heap.cells == old(h.heap.cells) - {old(h.state.ptr)})
              && (child != null ==> Established(cfg, h.heap, old(h.state.ptr), op, child, EstablishedSas))
  {
    child := null;
    var open := h.CheckNotClosed();
    if open {
      out, child := NativeDiffieHellman(cfg, h.heap, h.state.ptr, op, trouble);
      h.Invalidate();
    } else {
      out := Closed;
    }
  }

  /** The answer of the Ecies methods on a box holding v. */
  function EciesOutcome(native: Native, op: int, v: Value, trouble: Trouble): Outcome {
    if trouble == BadInput then Lost(true)
    else if !native.decodes(op) then Lost(false)
    else if trouble == OpPanics || trouble == Halfway then Broken(0)
    else if native.establish(op, v).None? then Failed(0)
    else if trouble == NoReply || trouble == NoObject then Broken(0)
    else Made(1)
  }

  /** nativeEstablishOutboundChannel and nativeEstablishInboundChannel: the inputs are decoded
      first, so a decoding failure leaves the box where it was. */
  method NativeEstablish(cfg: Config, heap: NativeHeap, ptr: Addr, op: int, trouble: Trouble)
    returns (out: Outcome, child: NativeHandle?)
    requires Holds(heap.cells, ptr, Ecies)
    modifies heap
    ensures out == EciesOutcome(cfg.native, op, old(heap.cells)[ptr].value, trouble)
    ensures child != null <==> out == Made(1)
    ensures child == null ==> heap.cells == if out.Lost? then old(heap.cells) else old(heap.cells) - {ptr}
    ensures child != null ==> Established(cfg, heap, ptr, op, child, EstablishedEcies)
  {
    child := null;
    if trouble == BadInput {
      out := Lost(true);
      return;
    }
    if !cfg.native.decodes(op) {
      out := Lost(false);
      return;
    }
    // Box::from_raw
    var value := heap.cells[ptr].value;
    if trouble == OpPanics || trouble == Halfway {
      out := Broken(0);
    } else {
      var r := cfg.native.establish(op, value);
      if r.None? {
        out := Failed(0);
      } else {
        var guard := new RawBox(heap, Cell(EstablishedEcies, r.value));
        if trouble == NoReply || trouble == NoObject {
          guard.Drop();
          out := Broken(0);
        } else {
          child := new NativeHandle(heap, guard.ptr, EstablishedEcies);
          guard.Leak();
          out := Made(1);
        }
      }
    }
    heap.Release(ptr, Ecies);
  }

  /** What is left of a consumed handle: its value was released, or leaked by a late failure. */
  ghost function Remains(h: NativeHandle, out: Outcome): Slot
    reads h, h.state, h.heap
    requires h.Valid()
  {
    if out.Lost? then Slot(h.tag, Shut(true)) else h.Contents()
  }

  /** Ecies.establishOutboundChannel and establishInboundChannel. A decoding failure leaves the box
      on the heap although the handle is invalidated: that box is leaked. */
  method Establish(cfg: Config, h: NativeHandle, op: int, trouble: Trouble)
    returns (out: Outcome, child: NativeHandle?)
    requires h.Valid() && h.tag == Ecies
    modifies h, h.state, h.heap
    ensures h.Valid() && h.state.ptr == 0 && h.warned == old(h.warned)
    ensures child != null ==> fresh(child) && fresh(child.state) && child.heap == h.heap && child.Valid()
    ensures Follows(cfg, map[0 := old(h.Contents())], Consume(0, op), out, Remains(h, out), BornOf(child))
    ensures out == Closed <==> old(h.state.ptr) == 0
    ensures out.Lost? <==> old(h.state.ptr) != 0 && (trouble == BadInput || !cfg.native.decodes(op))
    ensures old(h.state.ptr) == 0 || out.Lost? ==> child == null && h.heap.cells == old(h.heap.cells)
    ensures old(h.state.ptr) != 0 ==>
              && out == EciesOutcome(cfg.native, op, old(h.heap.cells)[old(h.state.ptr)].value, trouble)
              && (child != null <==> out == Made(1))
              && (child == null && !out.Lost? ==> h.heap.cells == old(h.heap.cells) - {old(h.state.ptr)})
              && (child != null ==> Established(cfg, h.heap, old(h.state.ptr), op, child, EstablishedEcies))
  {
    child := null;
    var open := h.CheckNotClosed();
    if open {
      out, child := NativeEstablish(cfg, h.heap, h.state.ptr, op, trouble);
      h.Invalidate();
    } else {
      out := Closed;
    }
  }

  // ----- Calls that write through a borrowed pointer -----

  /** nativeCreateOutboundSession and nativeCreateInboundSession: the account changes first, then
      the new session is guarded until Java has adopted it. */
  method NativeCreateSession(cfg: Config, heap: NativeHeap, ptr: Addr, op: int, trouble: Trouble)
    returns (out: Outcome, child: NativeHandle?)
    requires Holds(heap.cells, ptr, Account)
    modifies heap
    ensures var r := cfg.native.run(Account, op, old(heap.cells)[ptr].value);
            out == if trouble == BadInput || trouble == OpPanics then Broken(0)
                   else if trouble == Halfway then Broken(1)
                   else if r.made.None? then Failed(1)
                   else if trouble == Smooth then Made(1) else Broken(1)
    ensures child != null <==> out == Made(1)
    ensures out == Broken(0) ==> heap.cells == old(heap.cells)
    ensures var r := cfg.native.run(Account, op, old(heap.cells)[ptr].value);
            var changed := old(heap.cells)[ptr := Cell(Account, r.next)];
            && (out == Failed(1) || out == Broken(1) ==> heap.cells == changed)
            && (child != null ==>
                  && NewOn(heap, child, Cell(OlmSession, r.made.value)) && child.state.ptr !in old(heap.cells)
                  && heap.cells == changed[child.state.ptr := heap.cells[child.state.ptr]])
  {
    child := null;
    if trouble == BadInput || trouble == OpPanics {
      out := Broken(0);
      return;
    }
    var r := cfg.native.run(Account, op, heap.cells[ptr].value);
    heap.cells := heap.cells[ptr := Cell(Account, r.next)];
    if trouble == Halfway {
      out := Broken(1);
      return;
    }
    if r.made.None? {
      out := Failed(1);
      return;
    }
    var guard := new RawBox(heap, Cell(OlmSession, r.made.value));
    if trouble == Smooth {
      child := new NativeHandle(heap, guard.ptr, OlmSession);
      guard.Leak();
      out := Made(1);
    } else {
      guard.Drop();
      out := Broken(1);
    }
  }

  /** Account.createOutboundSession and createInboundSession under the account's monitor. */
  method CreateSession(cfg: Config, h: NativeHandle, op: int, trouble: Trouble)
    returns (out: Outcome, child: NativeHandle?)
    requires h.Valid() && h.tag == Account
    modifies h.heap
    ensures h.Valid() && h.state.ptr == old(h.state.ptr)
    ensures child != null ==> fresh(child) && fresh(child.state) && child.heap == h.heap && child.Valid()
    ensures Follows(cfg, map[0 := old(h.Contents())], Use(0, op, true), out, h.Contents(), BornOf(child))
    ensures out == Closed <==> old(h.state.ptr) == 0
    ensures out == Closed ==> child == null && h.heap.cells == old(h.heap.cells)
    ensures old(h.state.ptr) != 0 ==>
              var r := cfg.native.run(Account, op, old(h.heap.cells)[h.state.ptr].value);
              && out == (if trouble == BadInput || trouble == OpPanics then Broken(0)
                         else if trouble == Halfway then Broken(1)
                         else if r.made.None? then Failed(1)
                         else if trouble == Smooth then Made(1) else Broken(1))
              && (child != null <==> out == Made(1))
              && h.heap.cells[h.state.ptr] ==
                 (if out == Broken(0) then old(h.heap.cells)[h.state.ptr] else Cell(Account, r.next))
              && (child != null ==> h.heap.cells[child.state.ptr] == Cell(OlmSession, r.made.value))
    ensures h.heap.cells.Keys == old(h.heap.cells).Keys + (if child == null then {} else {child.state.ptr})
    ensures child != null ==> child.state.ptr !in old(h.heap.cells)
    ensures forall a :: a in old(h.heap.cells) && a != h.state.ptr ==> h.heap.cells[a] == old(h.heap.cells)[a]
  {
    hide PerformPair, PerformConsume, PerformJoin;
    child := null;
    var open := h.CheckNotClosed();
    if open {
      out, child := NativeCreateSession(cfg, h.heap, h.state.ptr, op, trouble);
    } else {
      out := Closed;
    }
  }

  /** OutboundGroupSession.encrypt: the ratchet moves before the fallible conversion, so a failed
      conversion wastes an index. */
  method Encrypt(cfg: Config, h: NativeHandle, op: int, trouble: Trouble) returns (out: Outcome)
    requires h.Valid()
    modifies h.heap
    ensures h.Valid() && h.state.ptr == old(h.state.ptr)
    ensures Follows(cfg, map[0 := old(h.Contents())], Use(0, op, false), out, h.Contents(), None)
    ensures out == Closed <==> old(h.state.ptr) == 0
    ensures out == Closed || out == Broken(0) ==> h.heap.cells == old(h.heap.cells)
    ensures old(h.state.ptr) != 0 ==>
              var r := cfg.native.run(h.tag, op, old(h.heap.cells)[h.state.ptr].value);
              && out == (if trouble == BadInput || trouble == OpPanics then Broken(0)
                         else if trouble == Smooth then Returned(r.reply) else Broken(1))
              && (out != Broken(0) ==> h.heap.cells[h.state.ptr].value == r.next)
    ensures h.heap.cells.Keys == old(h.heap.cells).Keys
    ensures forall a :: a in old(h.heap.cells) && a != h.state.ptr ==> h.heap.cells[a] == old(h.heap.cells)[a]
  {
    var open := h.CheckNotClosed();
    if !open {
      out := Closed;
      return;
    }
    if trouble == BadInput || trouble == OpPanics {
      out := Broken(0);
      return;
    }
    var p := h.state.ptr;
    var r := cfg.native.run(h.tag, op, h.heap.cells[p].value);
    h.heap.cells := h.heap.cells[p := Cell(h.tag, r.next)];
    out := if trouble == Smooth then Returned(r.reply) else Broken(1);
  }

  /** Two distinct open handles never share a pointer (NativeAccess.PointersDecideIdentity). */
  ghost predicate Apart(h: NativeHandle, g: NativeHandle)
    reads h, h.state, g, g.state
  {
    h != g ==> h.state != g.state && (h.state.ptr != 0 ==> h.state.ptr != g.state.ptr)
  }

  ghost function PairTable(h: NativeHandle, g: NativeHandle): Table
    reads h, h.state, h.heap, g, g.state, g.heap
    requires h.Valid() && g.Valid()
  {
    map[2 := g.Contents(), 0 := h.Contents()]
  }

  /** What a native pair call has written when it ends: neither box, the first one, or both. */
  function Written(cells: map<Addr, Cell>, p: Addr, q: Addr, r: JoinOut, writes: nat): map<Addr, Cell> {
    if writes == 0 then cells
    else if writes == 1 then cells[p := Cell(InboundGroup, r.left)]
    else cells[p := Cell(InboundGroup, r.left)][q := Cell(InboundGroup, r.right)]
  }

  /** nativeConnected, nativeCompare and nativeMerge: equal pointers are refused before any use. */
  method NativeJoin(cfg: Config, heap: NativeHeap, p: Addr, q: Addr, op: int, merging: bool, trouble: Trouble)
    returns (out: Outcome, child: NativeHandle?)
    requires Holds(heap.cells, p, InboundGroup) && Holds(heap.cells, q, InboundGroup)
    modifies heap
    ensures out == SelfRefused <==> p == q
    ensures p == q ==> child == null && heap.cells == old(heap.cells)
    ensures p != q ==>
              var r := cfg.native.join(op, old(heap.cells)[p].value, old(heap.cells)[q].value);
              && out == (if trouble == BadInput || trouble == OpPanics then Broken(0)
                         else if trouble == Halfway then Broken(1)
                         else if trouble == Smooth then
                           if merging && r.merged.Some? then Made(1) else Returned(r.reply)
                         else Broken(2))
              && (child != null <==> out == Made(1))
              && var writes := if out.Broken? then out.effects else 2;
              && (child == null ==> heap.cells == Written(old(heap.cells), p, q, r, writes))
              && (child != null ==>
                    && r.merged.Some? && NewOn(heap, child, Cell(InboundGroup, r.merged.value))
                    && child.state.ptr !in old(heap.cells)
                    && heap.cells ==
                       Written(old(heap.cells), p, q, r, 2)[child.state.ptr := heap.cells[child.state.ptr]])
  {
    child := null;
    if p == q {
      out := SelfRefused;
      return;
    }
    if trouble == BadInput || trouble == OpPanics {
      out := Broken(0);
      return;
    }
    var r := cfg.native.join(op, heap.cells[p].value, heap.cells[q].value);
    heap.cells := heap.cells[p := Cell(InboundGroup, r.left)];
    if trouble == Halfway {
      out := Broken(1);
      return;
    }
    heap.cells := heap.cells[q := Cell(InboundGroup, r.right)];
    if merging && r.merged.Some? {
      out, child := AdoptMerged(heap, r.merged.value, trouble);
    } else {
      out := if trouble == Smooth then Returned(r.reply) else Broken(2);
    }
  }

  /** InboundGroupSession.connected, compare and merge once both monitors are held. */
  method JoinSessions(cfg: Config, h: NativeHandle, g: NativeHandle, op: int, merging: bool, trouble: Trouble)
    returns (out: Outcome, child: NativeHandle?)
    requires h.Valid() && g.Valid() && h.heap == g.heap && h.tag == InboundGroup == g.tag && Apart(h, g)
    modifies h.heap
    ensures h.Valid() && g.Valid() && h.state.ptr == old(h.state.ptr) && g.state.ptr == old(g.state.ptr)
    ensures child != null ==> fresh(child) && fresh(child.state) && child.heap == h.heap && child.Valid()
    ensures var call := Pair(0, if h == g then 0 else 2, op, merging);
            && Follows(cfg, old(PairTable(h, g)), call, out, h.Contents(), BornOf(child))
            && Perform(cfg, old(PairTable(h, g)), call, out).value[2] == g.Contents()
    ensures out == SelfRefused <==> h.state.ptr == g.state.ptr != 0
    ensures out == SelfRefused <==> h == g && h.state.ptr != 0
    ensures out == Closed <==> old(h.state.ptr) == 0 || old(g.state.ptr) == 0
    ensures out in {Closed, SelfRefused} ==> child == null && h.heap.cells == old(h.heap.cells)
    ensures out !in {Closed, SelfRefused} ==>
              var v := old(h.heap.cells)[h.state.ptr].value;
              var w := old(h.heap.cells)[g.state.ptr].value;
              var r := cfg.native.join(op, v, w);
              && out == (if trouble == BadInput || trouble == OpPanics then Broken(0)
                         else if trouble == Halfway then Broken(1)
                         else if trouble == Smooth then
                           if merging && r.merged.Some? then Made(1) else Returned(r.reply)
                         else Broken(2))
              && (child != null <==> out == Made(1))
              && h.heap.cells[h.state.ptr].value == (if out == Broken(0) then v else r.left)
              && h.heap.cells[g.state.ptr].value == (if out in {Broken(0), Broken(1)} then w else r.right)
              && (child != null ==> h.heap.cells[child.state.ptr] == Cell(InboundGroup, r.merged.value))
    ensures h.heap.cells.Keys == old(h.heap.cells).Keys + (if child == null then {} else {child.state.ptr})
    ensures forall a :: a in old(h.heap.cells) && a != h.state.ptr && a != g.state.ptr ==>
              h.heap.cells[a] == old(h.heap.cells)[a]
  {
    child := null;
    var open := h.CheckNotClosed();
    var otherOpen := g.CheckNotClosed();
    if !open || !otherOpen {
      out := Closed;
      return;
    }
    out, child := NativeJoin(cfg, h.heap, h.state.ptr, g.state.ptr, op, merging, trouble);
  }

  /** The merged session travels to Java as a boxed long, guarded until the Long exists. */
  method AdoptMerged(heap: NativeHeap, value: Value, trouble: Trouble) returns (out: Outcome, child: NativeHandle?)
    modifies heap
    ensures out == if trouble == Smooth then Made(1) else Broken(2)
    ensures child == null <==> out == Broken(2)
    ensures child == null ==> heap.cells == old(heap.cells)
    ensures child != null ==>
              && NewOn(heap, child, Cell(InboundGroup, value)) && child.state.ptr !in old(heap.cells)
              && heap.cells == old(heap.cells)[child.state.ptr := Cell(InboundGroup, value)]
  {
    child := null;
    var guard := new RawBox(heap, Cell(InboundGroup, value));
    if trouble != Smooth {
      guard.Drop();
      out := Broken(2);
    } else {
      guard.Leak();
      child := new NativeHandle(heap, guard.ptr, InboundGroup);
      out := Made(1);
    }
  }
}
