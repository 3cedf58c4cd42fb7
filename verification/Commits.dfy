/** Entering a call body and committing it: the points where the concurrent machine and the
    atomic machine meet. */
module Commits {
  import opened Values
  import opened Atomic
  import opened Machine
  import opened Invariant
  import opened Interference
  import opened Steps
  import opened Preservation

  // ----- Entering -----

  lemma NotInRun(cfg: Config, s: State, t: nat, call: Call, x: nat)
    requires MonitorInv(cfg, s) && t < |s.threads| && s.threads[t].pc == Waiting(call, |Plan(cfg, call)|)
    requires x in CallHandles(call)
    ensures !InRun(s, x)
  {
    PlanCovers(cfg, call, x);
    assert Plan(cfg, call)[..|Plan(cfg, call)|] == Plan(cfg, call);
    assert Session(x) in HeldLocks(cfg, s.threads[t].pc);
  }

  lemma EnterLocal(cfg: Config, s: State, t: nat, call: Call)
    requires Inv(cfg, s) && t < |s.threads| && s.threads[t].pc == Waiting(call, |Plan(cfg, call)|)
    ensures LocalInv(cfg, t, call, FirstStage(call), FIRST_FRAME, ViewOf(cfg, s, t, call, FIRST_FRAME))
  {
    assert CallInv(cfg, s, s.threads[t].pc);
    forall x | x in CallHandles(call) ensures Settled(HandleView(cfg, s, x)) {
      CallHandlesKnown(s, call, x);
      NotInRun(cfg, s, t, call, x);
      assert HandleInv(cfg, s, x, s.handles[x]);
    }
    assert !call.New? ==> FirstOf(call) in CallHandles(call) && SecondOf(call) in CallHandles(call);
  }

  lemma EnterMonitors(cfg: Config, s: State, t: nat, call: Call)
    requires MonitorInv(cfg, s) && t < |s.threads| && s.threads[t].pc == Waiting(call, |Plan(cfg, call)|)
    ensures MonitorInv(cfg, WithPc(s, t, Running(call, FirstStage(call), FIRST_FRAME)))
  {
    var s' := WithPc(s, t, Running(call, FirstStage(call), FIRST_FRAME));
    assert Plan(cfg, call)[..|Plan(cfg, call)|] == Plan(cfg, call);
    OutsideMonitors(cfg, s, s', t);
  }

  lemma EnterThreads(cfg: Config, s: State, t: nat, call: Call)
    requires Inv(cfg, s) && t < |s.threads| && s.threads[t].pc == Waiting(call, |Plan(cfg, call)|)
    ensures var s' := WithPc(s, t, Running(call, FirstStage(call), FIRST_FRAME));
            ThreadsInv(cfg, s')
  {
    hide LocalInv, LedgerInv, MonitorInv, HandlesInv, AllFlags, SpecInv, CleanerInv;
    var s' := WithPc(s, t, Running(call, FirstStage(call), FIRST_FRAME));
    EnterLocal(cfg, s, t, call);
    forall u | 0 <= u < |s'.threads| ensures ThreadInv(cfg, s', u, s'.threads[u].pc) {
      assert ThreadInv(cfg, s, u, s.threads[u].pc);
      SameViews(cfg, s, s', u, s'.threads[u].pc);
    }
  }

  lemma EnterHandles(cfg: Config, s: State, t: nat, call: Call)
    requires Inv(cfg, s) && t < |s.threads| && s.threads[t].pc == Waiting(call, |Plan(cfg, call)|)
    ensures var s' := WithPc(s, t, Running(call, FirstStage(call), FIRST_FRAME));
            HandlesInv(cfg, s')
  {
    hide LocalInv, LedgerInv, CallsInv, ThreadsInv, AllFlags, CleanerInv, SpecInv, Settled;
    var s' := WithPc(s, t, Running(call, FirstStage(call), FIRST_FRAME));
    forall x | 0 <= x < |s'.handles| ensures HandleInv(cfg, s', x, s'.handles[x]) {
      assert HandleInv(cfg, s, x, s.handles[x]);
      assert HandleView(cfg, s', x) == HandleView(cfg, s, x);
      assert InRun(s, x) ==> InRun(s', x);
    }
  }

  lemma EnterKeeps(cfg: Config, s: State, t: nat, call: Call)
    requires Inv(cfg, s) && t < |s.threads| && s.threads[t].pc == Waiting(call, |Plan(cfg, call)|)
    ensures Inv(cfg, WithPc(s, t, Running(call, FirstStage(call), FIRST_FRAME)))
  {
    var s' := WithPc(s, t, Running(call, FirstStage(call), FIRST_FRAME));
    EnterMonitors(cfg, s, t, call);
    EnterThreads(cfg, s, t, call);
    EnterHandles(cfg, s, t, call);
    EnterRecords(cfg, s, t, call);
  }

  lemma EnterRecords(cfg: Config, s: State, t: nat, call: Call)
    requires Inv(cfg, s) && t < |s.threads| && s.threads[t].pc == Waiting(call, |Plan(cfg, call)|)
    ensures var s' := WithPc(s, t, Running(call, FirstStage(call), FIRST_FRAME));
            LedgerInv(s') && CallsInv(cfg, s')
  {
    hide LocalInv, MonitorInv, HandlesInv, AllFlags, SpecInv, ThreadsInv, CleanerInv;
    var s' := WithPc(s, t, Running(call, FirstStage(call), FIRST_FRAME));
    forall a | a in s'.ledger ensures Claimed(s', a, s'.ledger[a]) {
      assert Claimed(s, a, s.ledger[a]);
    }
    forall u | 0 <= u < |s'.threads| ensures CallInv(cfg, s', s'.threads[u].pc) {
      assert CallInv(cfg, s, s.threads[u].pc);
    }
  }

  // ----- Committing -----

  lemma UseHappens(cfg: Config, s: State, t: nat, call: Call, f: Frame)
    requires Here(cfg, s, t, call, Done, f) && call.Use?
    ensures Perform(cfg, Spec(cfg, s), call, f.out).Some?
  {
  }

  lemma PairHappens(cfg: Config, s: State, t: nat, call: Call, f: Frame)
    requires Here(cfg, s, t, call, Done, f) && call.Pair?
    ensures Perform(cfg, Spec(cfg, s), call, f.out).Some?
  {
  }

  lemma ConsumeHappens(cfg: Config, s: State, t: nat, call: Call, f: Frame)
    requires Here(cfg, s, t, call, Done, f) && call.Consume?
    ensures Perform(cfg, Spec(cfg, s), call, f.out).Some?
  {
  }

  lemma OtherHappens(cfg: Config, s: State, t: nat, call: Call, f: Frame)
    requires Here(cfg, s, t, call, Done, f) && (call.Close? || call.New?)
    ensures Perform(cfg, Spec(cfg, s), call, f.out).Some?
  {
  }

  lemma CommitSpec(cfg: Config, s: State, t: nat, call: Call, f: Frame)
    requires Here(cfg, s, t, call, Done, f)
    ensures Perform(cfg, Spec(cfg, s), call, f.out).Some?
    ensures Replay(cfg, Commit(cfg, s, t, call, f).log).Some?
    ensures Spec(cfg, Commit(cfg, s, t, call, f)) == Perform(cfg, Spec(cfg, s), call, f.out).value
  {
    match call {
      case Use(_, _, _) => UseHappens(cfg, s, t, call, f);
      case Pair(_, _, _, _) => PairHappens(cfg, s, t, call, f);
      case Consume(_, _) => ConsumeHappens(cfg, s, t, call, f);
      case _ => OtherHappens(cfg, s, t, call, f);
    }
    ReplayExtend(cfg, s.log, CallEvent(t, call, f.out));
  }

  /** Only the outcome decides which handle is new. */
  lemma DoneChild(cfg: Config, s: State, t: nat, call: Call, f: Frame)
    requires Here(cfg, s, t, call, Done, f)
    ensures f.spent == f.box == 0
    ensures f.child == if f.out.Made? then Some(f.out.child) else None
    ensures f.child.Some? ==> f.child.value < |s.handles| && s.handles[f.child.value].status == Private(t)
  {
    if f.child.Some? {
      var v := ViewOf(cfg, s, t, call, f);
      assert v.c.h.status == Private(t) && v.c.h.ptr != 0;
    }
  }

  /** The slots the atomic machine writes are what is really there. */
  predicate Agrees(v: HView, now: Slot) {
    Settled(HView(v.h, v.cell, v.residue, Some(now)))
  }

  lemma UseAgrees(cfg: Config, s: State, t: nat, call: Call, f: Frame)
    requires Here(cfg, s, t, call, Done, f) && call.Use? && Perform(cfg, Spec(cfg, s), call, f.out).Some?
    ensures var now := Perform(cfg, Spec(cfg, s), call, f.out).value; var v := ViewOf(cfg, s, t, call, f);
            call.h in now && Agrees(v.a, now[call.h])
  {
  }

  lemma PairAgrees(cfg: Config, s: State, t: nat, call: Call, f: Frame)
    requires Here(cfg, s, t, call, Done, f) && call.Pair? && Perform(cfg, Spec(cfg, s), call, f.out).Some?
    ensures var now := Perform(cfg, Spec(cfg, s), call, f.out).value; var v := ViewOf(cfg, s, t, call, f);
            call.h in now && call.g in now && Agrees(v.a, now[call.h]) && Agrees(v.b, now[call.g])
  {
  }

  lemma ConsumeAgrees(cfg: Config, s: State, t: nat, call: Call, f: Frame)
    requires Here(cfg, s, t, call, Done, f) && call.Consume? && Perform(cfg, Spec(cfg, s), call, f.out).Some?
    ensures var now := Perform(cfg, Spec(cfg, s), call, f.out).value; var v := ViewOf(cfg, s, t, call, f);
            call.h in now && Agrees(v.a, now[call.h])
  {
  }

  lemma CloseAgrees(cfg: Config, s: State, t: nat, call: Call, f: Frame)
    requires Here(cfg, s, t, call, Done, f) && call.Close? && Perform(cfg, Spec(cfg, s), call, f.out).Some?
    ensures var now := Perform(cfg, Spec(cfg, s), call, f.out).value; var v := ViewOf(cfg, s, t, call, f);
            call.h in now && Agrees(v.a, now[call.h])
  {
  }

  lemma UseChildAgrees(cfg: Config, s: State, t: nat, call: Call, f: Frame)
    requires Here(cfg, s, t, call, Done, f) && f.out.Made? && Perform(cfg, Spec(cfg, s), call, f.out).Some?
    requires call.Use?
    ensures var now := Perform(cfg, Spec(cfg, s), call, f.out).value; var v := ViewOf(cfg, s, t, call, f);
            f.out.child in now && Agrees(v.c, now[f.out.child])
  {
    hide LedgerInv, SpecInv, PairInv, ConsumeInv, CloseInv, NewInv, PerformPair, PerformConsume;
  }

  lemma PairChildAgrees(cfg: Config, s: State, t: nat, call: Call, f: Frame)
    requires Here(cfg, s, t, call, Done, f) && f.out.Made? && Perform(cfg, Spec(cfg, s), call, f.out).Some?
    requires call.Pair?
    ensures var now := Perform(cfg, Spec(cfg, s), call, f.out).value; var v := ViewOf(cfg, s, t, call, f);
            f.out.child in now && Agrees(v.c, now[f.out.child])
  {
    hide LedgerInv, SpecInv, UseInv, ConsumeInv, CloseInv, NewInv, PerformUse, PerformConsume;
  }

  lemma ConsumeChildAgrees(cfg: Config, s: State, t: nat, call: Call, f: Frame)
    requires Here(cfg, s, t, call, Done, f) && f.out.Made? && Perform(cfg, Spec(cfg, s), call, f.out).Some?
    requires call.Consume?
    ensures var now := Perform(cfg, Spec(cfg, s), call, f.out).value; var v := ViewOf(cfg, s, t, call, f);
            f.out.child in now && Agrees(v.c, now[f.out.child])
  {
    hide LedgerInv, SpecInv, UseInv, PairInv, CloseInv, NewInv, PerformUse, PerformPair;
  }

  lemma ChildAgrees(cfg: Config, s: State, t: nat, call: Call, f: Frame)
    requires Here(cfg, s, t, call, Done, f) && f.out.Made? && Perform(cfg, Spec(cfg, s), call, f.out).Some?
    ensures var now := Perform(cfg, Spec(cfg, s), call, f.out).value; var v := ViewOf(cfg, s, t, call, f);
            f.out.child in now && Agrees(v.c, now[f.out.child])
  {
    hide LedgerInv, SpecInv, UseInv, PairInv, ConsumeInv, PerformUse, PerformPair, PerformConsume;
    match call
    case Use(_, _, _) => UseChildAgrees(cfg, s, t, call, f);
    case Pair(_, _, _, _) => PairChildAgrees(cfg, s, t, call, f);
    case Consume(_, _) => ConsumeChildAgrees(cfg, s, t, call, f);
    case Close(_) =>
    case New(_, _) =>
  }

  lemma TouchedAgrees(cfg: Config, s: State, t: nat, call: Call, f: Frame, x: nat)
    requires Here(cfg, s, t, call, Done, f) && x in Touched(CallEvent(t, call, f.out))
    requires Perform(cfg, Spec(cfg, s), call, f.out).Some?
    ensures var now := Perform(cfg, Spec(cfg, s), call, f.out).value;
            x in now && Agrees(HandleView(cfg, s, x), now[x])
  {
    hide LocalInv, Perform, Agrees, LedgerInv, SpecInv;
    DoneChild(cfg, s, t, call, f);
    if f.out == Made(x) {
      ChildAgrees(cfg, s, t, call, f);
    } else {
      match call {
        case Use(_, _, _) => UseAgrees(cfg, s, t, call, f);
        case Pair(_, _, _, _) => PairAgrees(cfg, s, t, call, f);
        case Consume(_, _) => ConsumeAgrees(cfg, s, t, call, f);
        case Close(_) => CloseAgrees(cfg, s, t, call, f);
      }
      assert x == FirstOf(call) || x == SecondOf(call);
    }
  }

  lemma CommitKeepsCells(cfg: Config, s: State, t: nat, call: Call, f: Frame, x: nat)
    requires t < |s.threads| && x < |s.handles|
    ensures var v := HandleView(cfg, s, x); var v' := HandleView(cfg, Commit(cfg, s, t, call, f), x);
            && v'.cell == v.cell && v'.residue == v.residue && (v'.h == v.h || v'.h == v.h.(status := Published))
            && var now := Spec(cfg, Commit(cfg, s, t, call, f)); v'.slot == if x in now then Some(now[x]) else None
  {
    hide Spec, Plan;
  }

  /** After the commit every handle of the call is settled, the new one included. */
  lemma CommitSettles(cfg: Config, s: State, t: nat, call: Call, f: Frame, x: nat)
    requires Here(cfg, s, t, call, Done, f) && x in Touched(CallEvent(t, call, f.out))
    ensures Settled(HandleView(cfg, Commit(cfg, s, t, call, f), x))
  {
    hide LocalInv, Perform, LedgerInv, SpecInv, HandleView, Commit;
    var s' := Commit(cfg, s, t, call, f);
    CommitSpec(cfg, s, t, call, f);
    DoneChild(cfg, s, t, call, f);
    TouchedAgrees(cfg, s, t, call, f, x);
    if x in CallHandles(call) { CallHandlesKnown(s, call, x); }
    CommitKeepsCells(cfg, s, t, call, f, x);
    var v := HandleView(cfg, s, x);
    var v' := HandleView(cfg, s', x);
    assert v'.slot == Some(Spec(cfg, s')[x]);
  }

  lemma CommitElsewhere(cfg: Config, s: State, t: nat, call: Call, f: Frame, x: nat)
    requires Here(cfg, s, t, call, Done, f) && x !in Touched(CallEvent(t, call, f.out))
    ensures HandleView(cfg, Commit(cfg, s, t, call, f), x) == HandleView(cfg, s, x)
  {
    CommitSpec(cfg, s, t, call, f);
    DoneChild(cfg, s, t, call, f);
    HappenFrame(cfg, Spec(cfg, s), CallEvent(t, call, f.out), x);
  }

  /** No other running call has any of the committed handles in hand. */
  lemma CommitOtherView(cfg: Config, s: State, t: nat, call: Call, f: Frame, u: nat)
    requires Inv(cfg, s) && Here(cfg, s, t, call, Done, f)
    requires u < |s.threads| && u != t && s.threads[u].pc.Running?
    ensures var pc := s.threads[u].pc;
            var v := ViewOf(cfg, s, u, pc.call, pc.f);
            var w := ViewOf(cfg, Commit(cfg, s, t, call, f), u, pc.call, pc.f);
            SameForCall(pc.call, pc.f, v, w)
  {
    var pc := s.threads[u].pc;
    forall x | x in CallHandles(pc.call) || pc.f.child == Some(x)
      ensures HandleView(cfg, Commit(cfg, s, t, call, f), x) == HandleView(cfg, s, x)
    {
      ApartHandles(cfg, s, t, call, f, u, x);
      CommitElsewhere(cfg, s, t, call, f, x);
    }
    assert !pc.call.New? ==> FirstOf(pc.call) in CallHandles(pc.call) && SecondOf(pc.call) in CallHandles(pc.call);
  }

  lemma CommitOtherThread(cfg: Config, s: State, t: nat, call: Call, f: Frame, u: nat)
    requires Inv(cfg, s) && Here(cfg, s, t, call, Done, f)
    requires u < |s.threads| && u != t && s.threads[u].pc.Running?
    ensures ThreadInv(cfg, Commit(cfg, s, t, call, f), u, s.threads[u].pc)
  {
    hide LocalInv, LedgerInv, MonitorInv, HandlesInv, AllFlags, SpecInv, Commit;
    var s' := Commit(cfg, s, t, call, f);
    var Running(call2, stage2, f2) := s.threads[u].pc;
    assert ThreadInv(cfg, s, u, s.threads[u].pc);
    CommitOtherView(cfg, s, t, call, f, u);
    LocalInvDepends(cfg, u, call2, stage2, f2, ViewOf(cfg, s, u, call2, f2), ViewOf(cfg, s', u, call2, f2));
  }

  lemma ApartHandles(cfg: Config, s: State, t: nat, call: Call, f: Frame, u: nat, x: nat)
    requires Inv(cfg, s) && Here(cfg, s, t, call, Done, f)
    requires u < |s.threads| && u != t && s.threads[u].pc.Running?
    requires x in CallHandles(s.threads[u].pc.call) || s.threads[u].pc.f.child == Some(x)
    ensures x !in Touched(CallEvent(t, call, f.out))
  {
    DoneChild(cfg, s, t, call, f);
    assert CallInv(cfg, s, s.threads[u].pc);
    if x in CallHandles(s.threads[u].pc.call) {
      RunOwns(cfg, s, u, x);
      CallHandlesKnown(s, s.threads[u].pc.call, x);
    } else {
      ChildPrivate(cfg, s, u);
    }
    if x in CallHandles(call) {
      RunOwns(cfg, s, t, x);
      CallHandlesKnown(s, call, x);
    }
  }

  lemma CommitThreads(cfg: Config, s: State, t: nat, call: Call, f: Frame)
    requires Inv(cfg, s) && Here(cfg, s, t, call, Done, f)
    ensures var s' := Commit(cfg, s, t, call, f);
            ThreadsInv(cfg, s')
  {
    var s' := Commit(cfg, s, t, call, f);
    forall u | 0 <= u < |s'.threads| ensures ThreadInv(cfg, s', u, s'.threads[u].pc) {
      if u != t && s.threads[u].pc.Running? {
        CommitOtherThread(cfg, s, t, call, f, u);
      }
    }
  }

  lemma CommitHandle(cfg: Config, s: State, t: nat, call: Call, f: Frame, x: nat)
    requires Inv(cfg, s) && Here(cfg, s, t, call, Done, f) && x < |s.handles|
    ensures var s' := Commit(cfg, s, t, call, f); HandleInv(cfg, s', x, s'.handles[x])
  {
    hide LocalInv, LedgerInv, CallsInv, ThreadsInv, AllFlags, CleanerInv, SpecInv, HandleView;
    var s' := Commit(cfg, s, t, call, f);
    DoneChild(cfg, s, t, call, f);
    assert HandleInv(cfg, s, x, s.handles[x]);
    if x in Touched(CallEvent(t, call, f.out)) {
      CommitSettles(cfg, s, t, call, f, x);
      if x in CallHandles(call) { CallHandlesKnown(s, call, x); }
      assert !s'.handles[x].status.Private?;
    } else {
      CommitElsewhere(cfg, s, t, call, f, x);
      assert s'.handles[x] == s.handles[x];
      if InRun(s, x) && !InRun(s', x) {
        assert Session(x) in HeldLocks(cfg, s.threads[t].pc);
        PlanCovers(cfg, call, x);
        assert false;
      }
    }
  }

  lemma CommitMonitors(cfg: Config, s: State, t: nat, call: Call, f: Frame)
    requires MonitorInv(cfg, s) && At(s, t, call, Done, f)
    ensures MonitorInv(cfg, Commit(cfg, s, t, call, f))
  {
    var s' := Commit(cfg, s, t, call, f);
    assert Plan(cfg, call)[..|Plan(cfg, call)|] == Plan(cfg, call);
    OutsideMonitors(cfg, s, s', t);
  }

  lemma HappenKeys(cfg: Config, a: Table, t: nat, call: Call, out: Outcome, x: nat)
    requires Perform(cfg, a, call, out).Some?
    ensures x in Perform(cfg, a, call, out).value <==> x in a || out == Made(x)
  {
  }

  lemma CommitTable(cfg: Config, s: State, t: nat, call: Call, f: Frame)
    requires Here(cfg, s, t, call, Done, f)
    ensures SpecInv(cfg, Commit(cfg, s, t, call, f))
  {
    var s' := Commit(cfg, s, t, call, f);
    CommitSpec(cfg, s, t, call, f);
    DoneChild(cfg, s, t, call, f);
    forall x: nat ensures x in Spec(cfg, s') <==> x < |s'.handles| && !s'.handles[x].status.Private? {
      HappenKeys(cfg, Spec(cfg, s), t, call, f.out, x);
    }
  }

  /** A call about to commit holds no box of its own. */
  ghost predicate Closing(s: State, t: nat, call: Call, f: Frame) {
    && At(s, t, call, Done, f) && f.spent == f.box == 0
    && (f.child.Some? ==> f.child.value < |s.handles| && s.handles[f.child.value].status == Private(t))
  }

  lemma CommitLedger(cfg: Config, s: State, t: nat, call: Call, f: Frame)
    requires LedgerInv(s) && CleanerInv(s) && Closing(s, t, call, f)
    ensures LedgerInv(Commit(cfg, s, t, call, f)) && CleanerInv(Commit(cfg, s, t, call, f))
  {
    var s' := Commit(cfg, s, t, call, f);
    forall a | a in s'.ledger ensures Claimed(s', a, s'.ledger[a]) {
      assert Claimed(s, a, s.ledger[a]);
    }
  }

  lemma CommitRecords(cfg: Config, s: State, t: nat, call: Call, f: Frame)
    requires Closing(s, t, call, f)
    requires AllFlags(s)
    requires CallsInv(cfg, s)
    ensures var s' := Commit(cfg, s, t, call, f);
            && AllFlags(s')
            && CallsInv(cfg, s')
  {
    var s' := Commit(cfg, s, t, call, f);
    forall x | 0 <= x < |s'.handles| ensures FlagsInv(s'.cleaner, x, s'.handles[x]) {
      assert FlagsInv(s.cleaner, x, s.handles[x]);
    }
    forall u | 0 <= u < |s'.threads| ensures CallInv(cfg, s', s'.threads[u].pc) {
      assert CallInv(cfg, s, s.threads[u].pc);
    }
  }

  lemma CommitKeeps(cfg: Config, s: State, t: nat, call: Call, f: Frame)
    requires Inv(cfg, s) && Here(cfg, s, t, call, Done, f)
    ensures Inv(cfg, Commit(cfg, s, t, call, f))
  {
    var s' := Commit(cfg, s, t, call, f);
    DoneChild(cfg, s, t, call, f);
    CommitLedger(cfg, s, t, call, f);
    CommitRecords(cfg, s, t, call, f);
    CommitMonitors(cfg, s, t, call, f);
    CommitTable(cfg, s, t, call, f);
    CommitThreads(cfg, s, t, call, f);
    forall x | 0 <= x < |s'.handles| ensures HandleInv(cfg, s', x, s'.handles[x]) {
      CommitHandle(cfg, s, t, call, f, x);
    }
  }
}
