/** A step of one running call leaves what every other call, handle and the Cleaner rely on
    as it was: the held monitors and the ledger keep their footprints apart. */
module Interference {
  import opened Values
  import opened Machine
  import opened Invariant

  /** Owners a running call may take from or hand to. */
  predicate Mine(call: Call, f: Frame, t: nat, o: Owner) {
    match o
    case OfSpent(u) => u == t
    case OfBox(u) => u == t
    case OfHandle(x) => x in CallHandles(call) || f.child == Some(x)
    case Orphan(x) => x in CallHandles(call)
    case OfCleaner => false
  }

  predicate CellsOK(s: State, t: nat, call: Call, f: Frame, e: Effect) {
    match e.cells
    case Keep => true
    case Put(a, _, o) => Mine(call, e.f, t, o) && (a in s.ledger ==> Mine(call, f, t, s.ledger[a]))
    case Remove(a) => a in s.ledger ==> Mine(call, f, t, s.ledger[a])
  }

  predicate BirthOK(s: State, t: nat, f: Frame, e: Effect) {
    match e.born
    case None => e.f.child == f.child
    case Some(h) =>
      && f.child.None? && e.f.child == Some(|s.handles|)
      && h == NewHandle(h.tag, h.ptr, t) && h.ptr != 0
  }

  predicate MainOK(s: State, call: Call, e: Effect) {
    e.main.Some? ==>
      && !call.New? && call.h < |s.handles|
      && e.main.value.tag == s.handles[call.h].tag && e.main.value.status == s.handles[call.h].status
      && FlagsInv(s.cleaner, call.h, e.main.value)
  }

  /** The ledger entries of the call itself are claimed after the step. */
  ghost predicate MineClaimed(s: State, t: nat, call: Call, f: Frame) {
    forall a :: a in s.ledger && Mine(call, f, t, s.ledger[a]) ==> Claimed(s, a, s.ledger[a])
  }

  ghost predicate EffectOK(cfg: Config, s: State, t: nat, call: Call, f: Frame, e: Effect)
    requires t < |s.threads|
  {
    && !e.bad && CellsOK(s, t, call, f, e) && BirthOK(s, t, f, e) && MainOK(s, call, e)
    && MineClaimed(Apply(s, t, call, e), t, call, e.f)
  }

  ghost predicate At(s: State, t: nat, call: Call, stage: Stage, f: Frame) {
    t < |s.threads| && s.threads[t].pc == Running(call, stage, f)
  }

  // ----- Monitors -----

  lemma PlanCovers(cfg: Config, call: Call, x: nat)
    ensures Session(x) in Plan(cfg, call) <==> x in CallHandles(call)
  {
  }

  lemma RunOwns(cfg: Config, s: State, u: nat, x: nat)
    requires MonitorInv(cfg, s) && u < |s.threads| && s.threads[u].pc.Running? && x in CallHandles(s.threads[u].pc.call)
    ensures Session(x) in s.monitor && s.monitor[Session(x)] == u && InRun(s, x)
  {
    PlanCovers(cfg, s.threads[u].pc.call, x);
    assert Session(x) in HeldLocks(cfg, s.threads[u].pc);
  }

  // ----- Apply keeps each part of the invariant -----

  lemma CellElsewhere(s: State, t: nat, call: Call, f: Frame, e: Effect, o: Owner, a: Addr)
    requires t < |s.threads| && CellsOK(s, t, call, f, e) && !Mine(call, f, t, o) && !Mine(call, e.f, t, o)
    ensures OwnedCell(Apply(s, t, call, e), o, a) == OwnedCell(s, o, a)
  {
  }

  lemma HandleElsewhere(s: State, t: nat, call: Call, e: Effect, x: nat)
    requires t < |s.threads| && x < |s.handles| && x !in CallHandles(call)
    ensures HandleAt(Apply(s, t, call, e), x) == HandleAt(s, x)
  {
  }

  lemma ViewElsewhere(cfg: Config, s: State, t: nat, call: Call, f: Frame, e: Effect, x: nat)
    requires t < |s.threads| && CellsOK(s, t, call, f, e) && BirthOK(s, t, f, e)
    requires x < |s.handles| && x !in CallHandles(call) && f.child != Some(x)
    ensures HandleView(cfg, Apply(s, t, call, e), x) == HandleView(cfg, s, x)
  {
    HandleElsewhere(s, t, call, e, x);
    var h := HandleAt(s, x);
    CellElsewhere(s, t, call, f, e, OfHandle(x), h.ptr);
    if h.fate.ByConsume? {
      CellElsewhere(s, t, call, f, e, Orphan(x), h.fate.leak);
    }
  }

  lemma LedgerKept(cfg: Config, s: State, t: nat, call: Call, stage: Stage, f: Frame, e: Effect)
    requires LedgerInv(s) && At(s, t, call, stage, f) && EffectOK(cfg, s, t, call, f, e)
    requires call.New? || CallReady(s, call)
    ensures LedgerInv(Apply(s, t, call, e))
  {
    var s' := Apply(s, t, call, e);
    forall a | a in s'.ledger ensures Claimed(s', a, s'.ledger[a]) {
      var o := s'.ledger[a];
      if !Mine(call, e.f, t, o) {
        assert a in s.ledger && s.ledger[a] == o;
        assert Claimed(s, a, o);
      }
    }
  }

  lemma MonitorKept(cfg: Config, s: State, t: nat, call: Call, stage: Stage, f: Frame, e: Effect)
    requires MonitorInv(cfg, s) && At(s, t, call, stage, f)
    ensures MonitorInv(cfg, Apply(s, t, call, e))
  {
    var s' := Apply(s, t, call, e);
    assert forall u :: 0 <= u < |s.threads| ==> HeldLocks(cfg, s'.threads[u].pc) == HeldLocks(cfg, s.threads[u].pc);
  }

  lemma CallsKept(cfg: Config, s: State, t: nat, call: Call, stage: Stage, f: Frame, e: Effect)
    requires At(s, t, call, stage, f) && MainOK(s, call, e)
    requires CallsInv(cfg, s)
    ensures var s' := Apply(s, t, call, e);
            CallsInv(cfg, s')
  {
    var s' := Apply(s, t, call, e);
    forall u | 0 <= u < |s'.threads| ensures CallInv(cfg, s', s'.threads[u].pc) {
      assert CallInv(cfg, s, s.threads[u].pc);
    }
  }

  lemma CallHandlesKnown(s: State, call: Call, x: nat)
    requires CallReady(s, call) && x in CallHandles(call)
    ensures Usable(s, x)
  {
  }

  lemma OtherThreadView(cfg: Config, s: State, t: nat, call: Call, stage: Stage, f: Frame, e: Effect, u: nat)
    requires Inv(cfg, s) && At(s, t, call, stage, f) && CellsOK(s, t, call, f, e) && BirthOK(s, t, f, e)
    requires u < |s.threads| && u != t && s.threads[u].pc.Running?
    ensures var pc := s.threads[u].pc;
            SameForCall(pc.call, pc.f, ViewOf(cfg, s, u, pc.call, pc.f),
                        ViewOf(cfg, Apply(s, t, call, e), u, pc.call, pc.f))
  {
    hide LocalInv, LedgerInv, MonitorInv, HandlesInv, AllFlags, SpecInv, ThreadsInv, HandleView;
    var Running(call2, _, f2) := s.threads[u].pc;
    if !call2.New? {
      OtherHandleView(cfg, s, t, call, stage, f, e, u, FirstOf(call2));
      OtherHandleView(cfg, s, t, call, stage, f, e, u, SecondOf(call2));
    }
    if f2.child.Some? {
      OtherChildView(cfg, s, t, call, stage, f, e, u);
    }
    CellElsewhere(s, t, call, f, e, OfSpent(u), f2.spent);
    CellElsewhere(s, t, call, f, e, OfBox(u), f2.box);
  }

  lemma OtherThreadKept(cfg: Config, s: State, t: nat, call: Call, stage: Stage, f: Frame, e: Effect, u: nat)
    requires Inv(cfg, s) && At(s, t, call, stage, f) && CellsOK(s, t, call, f, e) && BirthOK(s, t, f, e)
    requires u < |s.threads| && u != t && s.threads[u].pc.Running?
    ensures ThreadInv(cfg, Apply(s, t, call, e), u, s.threads[u].pc)
  {
    hide LocalInv, LedgerInv, MonitorInv, HandlesInv, AllFlags, SpecInv, CellsOK, BirthOK, Apply;
    var s' := Apply(s, t, call, e);
    var Running(call2, stage2, f2) := s.threads[u].pc;
    assert ThreadInv(cfg, s, u, s.threads[u].pc);
    OtherThreadView(cfg, s, t, call, stage, f, e, u);
    LocalInvDepends(cfg, u, call2, stage2, f2, ViewOf(cfg, s, u, call2, f2), ViewOf(cfg, s', u, call2, f2));
  }

  /** The views agree where the call looks: no handle for New, no child if there is none. */
  predicate SameForCall(call: Call, f: Frame, v: View, w: View) {
    && v.spent == w.spent && v.box == w.box
    && (call.New? || (v.a == w.a && v.b == w.b)) && (f.child.None? || v.c == w.c)
  }

  lemma LocalInvDepends(cfg: Config, t: nat, call: Call, stage: Stage, f: Frame, v: View, w: View)
    requires LocalInv(cfg, t, call, stage, f, v) && SameForCall(call, f, v, w)
    ensures LocalInv(cfg, t, call, stage, f, w)
  {
  }

  lemma OtherHandleView(
    cfg: Config, s: State, t: nat, call: Call, stage: Stage, f: Frame, e: Effect, u: nat, x: nat)
    requires Inv(cfg, s) && At(s, t, call, stage, f) && CellsOK(s, t, call, f, e) && BirthOK(s, t, f, e)
    requires u < |s.threads| && u != t && s.threads[u].pc.Running? && x in CallHandles(s.threads[u].pc.call)
    ensures HandleView(cfg, Apply(s, t, call, e), x) == HandleView(cfg, s, x)
  {
    assert CallInv(cfg, s, s.threads[u].pc);
    CallHandlesKnown(s, s.threads[u].pc.call, x);
    RunOwns(cfg, s, u, x);
    if x in CallHandles(call) {
      RunOwns(cfg, s, t, x);
    }
    if f.child == Some(x) {
      ChildPrivate(cfg, s, t);
    }
    ViewElsewhere(cfg, s, t, call, f, e, x);
  }

  lemma ChildPrivate(cfg: Config, s: State, u: nat)
    requires Inv(cfg, s) && u < |s.threads| && s.threads[u].pc.Running? && s.threads[u].pc.f.child.Some?
    ensures var c := s.threads[u].pc.f.child.value;
            c < |s.handles| && s.handles[c].status == Private(u)
  {
    assert ThreadInv(cfg, s, u, s.threads[u].pc);
    var Running(call, stage, f) := s.threads[u].pc;
    var v := ViewOf(cfg, s, u, call, f);
    assert v.c.h.status == Private(u) && v.c.h.ptr != 0;
  }

  lemma OtherChildView(cfg: Config, s: State, t: nat, call: Call, stage: Stage, f: Frame, e: Effect, u: nat)
    requires Inv(cfg, s) && At(s, t, call, stage, f) && CellsOK(s, t, call, f, e) && BirthOK(s, t, f, e)
    requires u < |s.threads| && u != t && s.threads[u].pc.Running? && s.threads[u].pc.f.child.Some?
    ensures var c := s.threads[u].pc.f.child.value;
            HandleView(cfg, Apply(s, t, call, e), c) == HandleView(cfg, s, c)
  {
    var c := s.threads[u].pc.f.child.value;
    ChildPrivate(cfg, s, u);
    assert CallInv(cfg, s, s.threads[t].pc);
    if c in CallHandles(call) {
      CallHandlesKnown(s, call, c);
    }
    if f.child == Some(c) {
      ChildPrivate(cfg, s, t);
    }
    ViewElsewhere(cfg, s, t, call, f, e, c);
  }

  /** A handle of another call, or of none. */
  lemma OtherHandleKept(cfg: Config, s: State, t: nat, call: Call, stage: Stage, f: Frame, e: Effect, x: nat)
    requires Inv(cfg, s) && At(s, t, call, stage, f) && CellsOK(s, t, call, f, e) && BirthOK(s, t, f, e)
    requires x < |s.handles| && x !in CallHandles(call) && !s.handles[x].status.Private?
    ensures var s' := Apply(s, t, call, e);
            HandleInv(cfg, s', x, s'.handles[x])
  {
    assert HandleInv(cfg, s, x, s.handles[x]);
    if f.child == Some(x) {
      ChildPrivate(cfg, s, t);
    }
    ViewElsewhere(cfg, s, t, call, f, e, x);
    assert InRun(Apply(s, t, call, e), x) == InRun(s, x);
  }

  lemma OldHandleKept(cfg: Config, s: State, t: nat, call: Call, stage: Stage, f: Frame, e: Effect, x: nat)
    requires Inv(cfg, s) && At(s, t, call, stage, f) && EffectOK(cfg, s, t, call, f, e) && x < |s.handles|
    ensures var s' := Apply(s, t, call, e);
            HandleInv(cfg, s', x, s'.handles[x])
  {
    hide LedgerInv, SpecInv, ThreadsInv, AllFlags, Settled;
    var s' := Apply(s, t, call, e);
    assert s'.handles[x].status == s.handles[x].status;
    if s.handles[x].status.Private? {
      assert HandleInv(cfg, s, x, s.handles[x]);
    } else if x in CallHandles(call) {
      RunOwns(cfg, s, t, x);
      assert InRun(s', x);
    } else {
      OtherHandleKept(cfg, s, t, call, stage, f, e, x);
    }
  }

  lemma BornHandleKept(cfg: Config, s: State, t: nat, call: Call, stage: Stage, f: Frame, e: Effect)
    requires At(s, t, call, stage, f) && BirthOK(s, t, f, e) && e.born.Some?
    ensures var s' := Apply(s, t, call, e);
            |s'.handles| == |s.handles| + 1 && HandleInv(cfg, s', |s.handles|, s'.handles[|s.handles|])
  {
  }

  lemma ThreadsKept(cfg: Config, s: State, t: nat, call: Call, stage: Stage, f: Frame, e: Effect)
    requires Inv(cfg, s) && At(s, t, call, stage, f) && EffectOK(cfg, s, t, call, f, e)
    requires LocalInv(cfg, t, call, e.stage, e.f, ViewOf(cfg, Apply(s, t, call, e), t, call, e.f))
    ensures var s' := Apply(s, t, call, e);
            ThreadsInv(cfg, s')
  {
    var s' := Apply(s, t, call, e);
    forall u | 0 <= u < |s'.threads| ensures ThreadInv(cfg, s', u, s'.threads[u].pc) {
      if u != t && s.threads[u].pc.Running? {
        OtherThreadKept(cfg, s, t, call, stage, f, e, u);
      }
    }
  }

  lemma HandlesKept(cfg: Config, s: State, t: nat, call: Call, stage: Stage, f: Frame, e: Effect)
    requires Inv(cfg, s) && At(s, t, call, stage, f) && EffectOK(cfg, s, t, call, f, e)
    ensures var s' := Apply(s, t, call, e);
            HandlesInv(cfg, s')
  {
    hide Inv, HandleInv;
    var s' := Apply(s, t, call, e);
    forall x | 0 <= x < |s'.handles| ensures HandleInv(cfg, s', x, s'.handles[x]) {
      if x < |s.handles| {
        OldHandleKept(cfg, s, t, call, stage, f, e, x);
      } else {
        BornHandleKept(cfg, s, t, call, stage, f, e);
      }
    }
  }

  lemma CleanerKept(cfg: Config, s: State, t: nat, call: Call, stage: Stage, f: Frame, e: Effect)
    requires Inv(cfg, s) && At(s, t, call, stage, f) && EffectOK(cfg, s, t, call, f, e)
    ensures CleanerInv(Apply(s, t, call, e))
  {
    hide LedgerInv, MonitorInv, SpecInv, ThreadsInv, HandlesInv, AllFlags;
    var s' := Apply(s, t, call, e);
    assert CallInv(cfg, s, s.threads[t].pc);
    if s.cleaner != Resting {
      HandleElsewhere(s, t, call, e, s.cleaner.h);
      CellElsewhere(s, t, call, f, e, OfCleaner, CleanerAddr(s.cleaner));
    }
  }

  lemma FlagsKept(cfg: Config, s: State, t: nat, call: Call, stage: Stage, f: Frame, e: Effect)
    requires Inv(cfg, s) && At(s, t, call, stage, f) && EffectOK(cfg, s, t, call, f, e)
    ensures var s' := Apply(s, t, call, e);
            AllFlags(s')
  {
    hide LocalInv, LedgerInv, MonitorInv, HandlesInv, SpecInv, ThreadsInv, CellsOK, MineClaimed;
    var s' := Apply(s, t, call, e);
    forall x | 0 <= x < |s'.handles| ensures FlagsInv(s'.cleaner, x, s'.handles[x]) {
      if x < |s.handles| {
        assert FlagsInv(s.cleaner, x, s.handles[x]);
      }
    }
  }

  lemma SpecKept(cfg: Config, s: State, t: nat, call: Call, stage: Stage, f: Frame, e: Effect)
    requires SpecInv(cfg, s) && At(s, t, call, stage, f) && EffectOK(cfg, s, t, call, f, e)
    ensures SpecInv(cfg, Apply(s, t, call, e))
  {
    var s' := Apply(s, t, call, e);
    assert Spec(cfg, s') == Spec(cfg, s);
    forall x: nat ensures x in Spec(cfg, s') <==> x < |s'.handles| && !s'.handles[x].status.Private? {
    }
  }

  lemma ApplyKeeps(cfg: Config, s: State, t: nat, call: Call, stage: Stage, f: Frame, e: Effect)
    requires Inv(cfg, s) && At(s, t, call, stage, f) && EffectOK(cfg, s, t, call, f, e)
    requires LocalInv(cfg, t, call, e.stage, e.f, ViewOf(cfg, Apply(s, t, call, e), t, call, e.f))
    ensures Inv(cfg, Apply(s, t, call, e))
  {
    assert CallInv(cfg, s, s.threads[t].pc);
    LedgerKept(cfg, s, t, call, stage, f, e);
    MonitorKept(cfg, s, t, call, stage, f, e);
    CallsKept(cfg, s, t, call, stage, f, e);
    CleanerKept(cfg, s, t, call, stage, f, e);
    FlagsKept(cfg, s, t, call, stage, f, e);
    SpecKept(cfg, s, t, call, stage, f, e);
    ThreadsKept(cfg, s, t, call, stage, f, e);
    HandlesKept(cfg, s, t, call, stage, f, e);
  }
}
