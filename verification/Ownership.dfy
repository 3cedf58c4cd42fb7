/** In every reachable state each live native box has exactly one owner that answers for it,
    no released address is ever used, and no two calls touch the same box. */
module Ownership {
  import opened Values
  import opened Machine
  import opened Invariant
  import opened Interference
  import opened Steps
  import opened Preservation
  import opened Reachability

  /** The consuming call has taken the box over (or given it up), but State.ptr still shows it. */
  predicate LendsMain(pc: Pc) {
    pc.Running? && pc.call.Consume?
    && (pc.stage in {Read, Alloc, Build, Leak} || (pc.stage in {Exit, TakeState} && !pc.f.out.Lost?))
  }

  /** The handle shows an address that someone else answers for: the dangling window of a
      consumed handle, and the double-owner window of a handle whose box is still guarded. */
  predicate Lent(s: State, h: nat) {
    h < |s.handles| &&
    match s.handles[h].status
    case Private(t) => t < |s.threads| && s.threads[t].pc.Running? && s.threads[t].pc.f.box != 0
    case _ => InRun(s, h) && LendsMain(s.threads[s.monitor[Session(h)]].pc)
  }

  /** Who answers for an address, read off the handles, the running calls and the Cleaner. */
  predicate Owns(s: State, o: Owner, a: Addr) {
    a != 0 &&
    match o
    case OfHandle(h) => h < |s.handles| && s.handles[h].ptr == a && !Lent(s, h)
    case OfSpent(t) => t < |s.threads| && s.threads[t].pc.Running? && s.threads[t].pc.f.spent == a
    case OfBox(t) => t < |s.threads| && s.threads[t].pc.Running? && s.threads[t].pc.f.box == a
    case OfCleaner => CleanerAddr(s.cleaner) == a
    case Orphan(h) => h < |s.handles| && s.handles[h].fate == ByConsume(a)
  }

  /** The type the owner will cast the address to. */
  function OwnerTag(s: State, o: Owner): Tag {
    match o
    case OfHandle(h) => HandleAt(s, h).tag
    case OfSpent(t) =>
      if t < |s.threads| && s.threads[t].pc.Running? then MainTag(s, s.threads[t].pc.call) else Other(0)
    case OfBox(t) =>
      if t < |s.threads| && s.threads[t].pc.Running?
      then ChildTag(s.threads[t].pc.call, MainTag(s, s.threads[t].pc.call)) else Other(0)
    case OfCleaner => if s.cleaner != Resting then HandleAt(s, s.cleaner.h).tag else Other(0)
    case Orphan(h) => HandleAt(s, h).tag
  }

  // ----- What a running call says about its own addresses -----

  lemma MainCell(cfg: Config, s: State, t: nat, call: Call, stage: Stage, f: Frame)
    requires Here(cfg, s, t, call, stage, f) && !call.New?
    ensures var v := ViewOf(cfg, s, t, call, f);
            && (v.a.cell.Some? <==> v.a.h.ptr != 0 && !LendsMain(s.threads[t].pc))
            && (v.a.cell.Some? ==> v.a.cell.value.tag == v.a.h.tag)
            && (v.a.h.ptr == 0 && Leaked(v.a.h) ==> Residue(v.a))
  {
    var v := ViewOf(cfg, s, t, call, f);
    assert v.a.cell.Some? ==> v.a.h.ptr != 0 by {
      assert v.a.h.ptr in s.ledger ==> Claimed(s, v.a.h.ptr, s.ledger[v.a.h.ptr]);
    }
    match call
    case Use(_, _, _) =>
    case Consume(_, _) =>
    case Pair(_, _, _, _) => PairCells(cfg, s, t, call, stage, f);
    case Close(_) =>
  }

  lemma PairCells(cfg: Config, s: State, t: nat, call: Call, stage: Stage, f: Frame)
    requires Here(cfg, s, t, call, stage, f) && call.Pair?
    ensures var v := ViewOf(cfg, s, t, call, f);
            && (v.a.h.ptr != 0 ==> v.a.cell.Some? && v.a.cell.value.tag == v.a.h.tag)
            && (v.b.h.ptr != 0 ==> v.b.cell.Some? && v.b.cell.value.tag == v.b.h.tag)
            && (v.a.h.ptr == 0 && Leaked(v.a.h) ==> Residue(v.a))
            && (v.b.h.ptr == 0 && Leaked(v.b.h) ==> Residue(v.b))
  {
    hide UseInv, ConsumeInv, CloseInv, NewInv, SpecInv;
  }

  lemma ChildCell(cfg: Config, s: State, t: nat, call: Call, stage: Stage, f: Frame)
    requires Here(cfg, s, t, call, stage, f) && f.child.Some?
    ensures var v := ViewOf(cfg, s, t, call, f);
            && v.c.h.ptr != 0 && v.c.h.fate == Held && v.c.h.status == Private(t)
            && (f.box != 0 ==> v.c.h.ptr == f.box)
            && (f.box == 0 ==> v.c.cell.Some? && v.c.cell.value.tag == v.c.h.tag)
  {
  }

  lemma OwnBoxes(cfg: Config, s: State, t: nat, call: Call, stage: Stage, f: Frame)
    requires Here(cfg, s, t, call, stage, f)
    ensures var v := ViewOf(cfg, s, t, call, f);
            && (f.spent != 0 ==> v.spent.Some? && v.spent.value.tag == MainTag(s, call))
            && (f.box != 0 ==> v.box.Some? && v.box.value.tag == ChildTag(call, MainTag(s, call)))
  {
  }

  // ----- The ledger is exactly the Owns relation -----

  /** A handle that is not lent owns the box it shows; a lent one does not. */
  lemma HandleCell(cfg: Config, s: State, h: nat)
    requires Inv(cfg, s) && h < |s.handles|
    ensures var c := OwnedCell(s, OfHandle(h), s.handles[h].ptr);
            && (c.Some? <==> s.handles[h].ptr != 0 && !Lent(s, h))
            && (c.Some? ==> c.value.tag == s.handles[h].tag)
    ensures Leaked(s.handles[h]) ==> Residue(HandleView(cfg, s, h))
  {
    assert HandleInv(cfg, s, h, s.handles[h]);
    assert FlagsInv(s.cleaner, h, s.handles[h]);
    var p := s.handles[h].ptr;
    assert p in s.ledger ==> Claimed(s, p, s.ledger[p]);
    if s.handles[h].status.Private? {
      PrivateCell(cfg, s, h);
    } else if InRun(s, h) {
      BusyCell(cfg, s, h);
    }
  }

  lemma PrivateCell(cfg: Config, s: State, h: nat)
    requires Inv(cfg, s) && h < |s.handles| && s.handles[h].status.Private?
    ensures var c := OwnedCell(s, OfHandle(h), s.handles[h].ptr);
            && (c.Some? <==> !Lent(s, h)) && s.handles[h].ptr != 0 && s.handles[h].fate == Held
            && (c.Some? ==> c.value.tag == s.handles[h].tag)
  {
    assert HandleInv(cfg, s, h, s.handles[h]);
    var t := s.handles[h].status.t;
    var Running(call, stage, f) := s.threads[t].pc;
    HereHolds(cfg, s, t);
    ChildCell(cfg, s, t, call, stage, f);
    OwnBoxes(cfg, s, t, call, stage, f);
  }

  lemma BusyCell(cfg: Config, s: State, h: nat)
    requires Inv(cfg, s) && h < |s.handles| && InRun(s, h) && !s.handles[h].status.Private?
    ensures var c := OwnedCell(s, OfHandle(h), s.handles[h].ptr);
            && (c.Some? ==> s.handles[h].ptr != 0)
            && (s.handles[h].ptr != 0 ==> (c.Some? <==> !Lent(s, h)))
            && (c.Some? ==> c.value.tag == s.handles[h].tag)
    ensures s.handles[h].ptr == 0 && Leaked(s.handles[h]) ==> Residue(HandleView(cfg, s, h))
  {
    var t := s.monitor[Session(h)];
    assert Session(h) in HeldLocks(cfg, s.threads[t].pc);
    PlanCovers(cfg, s.threads[t].pc.call, h);
    HereHolds(cfg, s, t);
    BusyMain(cfg, s, t, h);
  }

  lemma BusyMain(cfg: Config, s: State, t: nat, h: nat)
    requires t < |s.threads| && s.threads[t].pc.Running? && h in CallHandles(s.threads[t].pc.call)
    requires var pc := s.threads[t].pc; Here(cfg, s, t, pc.call, pc.stage, pc.f)
    ensures h < |s.handles|
    ensures var c := OwnedCell(s, OfHandle(h), s.handles[h].ptr);
            && (c.Some? ==> s.handles[h].ptr != 0)
            && (s.handles[h].ptr != 0 ==> (c.Some? <==> !LendsMain(s.threads[t].pc)))
            && (c.Some? ==> c.value.tag == s.handles[h].tag)
    ensures s.handles[h].ptr == 0 && Leaked(s.handles[h]) ==> Residue(HandleView(cfg, s, h))
  {
    var Running(call, stage, f) := s.threads[t].pc;
    CallHandlesKnown(s, call, h);
    var p := s.handles[h].ptr;
    assert p in s.ledger ==> Claimed(s, p, s.ledger[p]);
    if call.Pair? {
      PairCells(cfg, s, t, call, stage, f);
    } else {
      MainCell(cfg, s, t, call, stage, f);
    }
  }

  lemma OwnsIsLedger(cfg: Config, s: State, o: Owner, a: Addr)
    requires Inv(cfg, s)
    ensures Owns(s, o, a) <==> a in s.ledger && s.ledger[a] == o
    ensures Owns(s, o, a) ==> s.heap[a].tag == OwnerTag(s, o)
  {
    if a in s.ledger { assert Claimed(s, a, s.ledger[a]); }
    match o
    case OfHandle(h) => if h < |s.handles| { HandleCell(cfg, s, h); }
    case Orphan(h) => if h < |s.handles| { HandleCell(cfg, s, h); }
    case OfCleaner =>
    case OfSpent(t) => RunningOwns(cfg, s, t);
    case OfBox(t) => RunningOwns(cfg, s, t);
  }

  lemma RunningOwns(cfg: Config, s: State, t: nat)
    requires Inv(cfg, s)
    ensures t < |s.threads| && s.threads[t].pc.Running? ==>
              var f := s.threads[t].pc.f;
              && (f.spent != 0 ==>
                    OwnedCell(s, OfSpent(t), f.spent).Some? && s.heap[f.spent].tag == OwnerTag(s, OfSpent(t)))
              && (f.box != 0 ==> OwnedCell(s, OfBox(t), f.box).Some? && s.heap[f.box].tag == OwnerTag(s, OfBox(t)))
  {
    if t < |s.threads| && s.threads[t].pc.Running? {
      HereHolds(cfg, s, t);
      OwnBoxes(cfg, s, t, s.threads[t].pc.call, s.threads[t].pc.stage, s.threads[t].pc.f);
    }
  }

  // ----- Main results -----

  /** Ownership conservation, through address reuse and both windows. */
  lemma EveryBoxHasOneOwner(cfg: Config, s: State, a: Addr)
    requires Reachable(cfg, s)
    ensures a in s.heap <==> exists o :: Owns(s, o, a)
    ensures forall o1, o2 :: Owns(s, o1, a) && Owns(s, o2, a) ==> o1 == o2
    ensures forall o :: Owns(s, o, a) ==> s.heap[a].tag == OwnerTag(s, o)
  {
    ReachableInv(cfg, s);
    forall o: Owner ensures Owns(s, o, a) <==> a in s.ledger && s.ledger[a] == o {
      OwnsIsLedger(cfg, s, o, a);
    }
    forall o: Owner | Owns(s, o, a) ensures s.heap[a].tag == OwnerTag(s, o) {
      OwnsIsLedger(cfg, s, o, a);
    }
    if a in s.heap { assert Owns(s, s.ledger[a], a); }
  }
}
