/** Every step of the machine keeps the invariant, hence every run does. */
module Preservation {
  import opened Values
  import opened Machine
  import opened Invariant
  import opened Interference
  import opened Steps

  // ----- Steps of a running call -----

  lemma HereHolds(cfg: Config, s: State, t: nat)
    requires Inv(cfg, s) && t < |s.threads| && s.threads[t].pc.Running?
    ensures var pc := s.threads[t].pc; Here(cfg, s, t, pc.call, pc.stage, pc.f)
  {
    var pc := s.threads[t].pc;
    assert CallInv(cfg, s, pc) && ThreadInv(cfg, s, t, pc);
    if !pc.call.New? {
      CallHandlesKnown(s, pc.call, pc.call.h);
      assert FlagsInv(s.cleaner, pc.call.h, s.handles[pc.call.h]);
    }
  }

  lemma UseGoes(cfg: Config, s: State, t: nat, call: Call, stage: Stage, f: Frame)
    requires Here(cfg, s, t, call, stage, f) && call.Use? && stage != Done && !WantsChild(cfg, s.threads[t].pc)
    ensures Good(cfg, s, t, call, f, Act(cfg, s, t, call, stage, f))
  {
    match stage
    case Alloc => UseNoChild(cfg, s, t, call, stage, f);
    case Write => UseWrite(cfg, s, t, call, stage, f);
    case Build => UseBuild(cfg, s, t, call, stage, f);
    case Leak => UseLeak(cfg, s, t, call, stage, f);
    case Exit => UseExit(cfg, s, t, call, stage, f);
    case Convert => UseConvert(cfg, s, t, call, stage, f);
    case _ => UseCheck(cfg, s, t, call, stage, f);
  }

  lemma PairGoes(cfg: Config, s: State, t: nat, call: Call, stage: Stage, f: Frame)
    requires Here(cfg, s, t, call, stage, f) && call.Pair? && stage != Done && !WantsChild(cfg, s.threads[t].pc)
    ensures Good(cfg, s, t, call, f, Act(cfg, s, t, call, stage, f))
  {
    if stage == Exit {
      if f.box != 0 { PairExit(cfg, s, t, call, stage, f); } else { PairOut(cfg, s, t, call, stage, f); }
    } else if stage in {Check, CheckOther, Fetch, Enter} {
      PairCheck(cfg, s, t, call, stage, f);
    } else if stage in {Read, ReadOther} {
      PairRead(cfg, s, t, call, stage, f);
    } else if stage == Write {
      PairWrite(cfg, s, t, call, stage, f);
    } else if stage == WriteOther {
      PairWriteOther(cfg, s, t, call, stage, f);
    } else if stage == Adopt {
      PairAdopt(cfg, s, t, call, stage, f);
    } else if stage == Convert {
      PairConvert(cfg, s, t, call, stage, f);
    } else {
      PairPass(cfg, s, t, call, stage, f);
    }
  }

  lemma ConsumeGoes(cfg: Config, s: State, t: nat, call: Call, stage: Stage, f: Frame)
    requires Here(cfg, s, t, call, stage, f) && call.Consume? && stage != Done && !WantsChild(cfg, s.threads[t].pc)
    ensures Good(cfg, s, t, call, f, Act(cfg, s, t, call, stage, f))
  {
    if stage in {Check, Fetch, Enter, Decode} {
      ConsumeCheck(cfg, s, t, call, stage, f);
    } else if stage == FromRaw {
      ConsumeFromRaw(cfg, s, t, call, stage, f);
    } else if stage == Read {
      ConsumeRead(cfg, s, t, call, stage, f);
    } else if stage == Alloc {
      ConsumeNoChild(cfg, s, t, call, stage, f);
    } else if stage == Build {
      ConsumeBuild(cfg, s, t, call, stage, f);
    } else if stage == Leak {
      ConsumeLeak(cfg, s, t, call, stage, f);
    } else if stage == Exit {
      if f.box != 0 { ConsumeDropGuard(cfg, s, t, call, stage, f); }
      else if f.spent != 0 { ConsumeDropSpent(cfg, s, t, call, stage, f); }
      else { ConsumeOut(cfg, s, t, call, stage, f); }
    } else if stage == TakeState {
      if f.out.Lost? { ConsumeAbandon(cfg, s, t, call, stage, f); }
      else { ConsumeInvalidate(cfg, s, t, call, stage, f); }
    } else if s.handles[call.h].fired {
      ConsumeCleaned(cfg, s, t, call, stage, f);
    } else {
      ConsumeClean(cfg, s, t, call, stage, f);
    }
  }

  lemma CallGoes(cfg: Config, s: State, t: nat, call: Call, stage: Stage, f: Frame)
    requires Here(cfg, s, t, call, stage, f) && stage != Done && !WantsChild(cfg, s.threads[t].pc)
    ensures Good(cfg, s, t, call, f, Act(cfg, s, t, call, stage, f))
  {
    match call
    case Use(_, _, _) => UseGoes(cfg, s, t, call, stage, f);
    case Pair(_, _, _, _) => PairGoes(cfg, s, t, call, stage, f);
    case Consume(_, _) => ConsumeGoes(cfg, s, t, call, stage, f);
    case Close(_) =>
      if stage == TakeState { CloseTakeState(cfg, s, t, call, stage, f); }
      else if stage == Clean { CloseClean(cfg, s, t, call, stage, f); }
      else { CloseFree(cfg, s, t, call, stage, f); }
    case New(_, _) =>
      if stage == Adopt { NewAdopt(cfg, s, t, call, stage, f); } else { NewExit(cfg, s, t, call, stage, f); }
  }

  lemma CallAllocates(cfg: Config, s: State, t: nat, call: Call, f: Frame, a: Addr)
    requires Here(cfg, s, t, call, Alloc, f) && a != 0 && a !in s.heap && ChildValue(cfg, call, f.v, f.w).Some?
    ensures Good(cfg, s, t, call, f, AllocStep(cfg, s, t, call, f, a))
  {
    match call
    case Use(_, _, _) => UseAlloc(cfg, s, t, call, Alloc, f, a);
    case Pair(_, _, _, _) => PairAlloc(cfg, s, t, call, Alloc, f, a);
    case Consume(_, _) => ConsumeAlloc(cfg, s, t, call, Alloc, f, a);
    case New(_, _) => NewAlloc(cfg, s, t, call, Alloc, f, a);
  }

  lemma CallFails(cfg: Config, s: State, t: nat, call: Call, stage: Stage, f: Frame)
    requires Here(cfg, s, t, call, stage, f) && CanFail(call, stage)
    ensures Good(cfg, s, t, call, f, FailStep(stage, f))
  {
    match call
    case Use(_, _, _) => UseFail(cfg, s, t, call, stage, f);
    case Pair(_, _, _, _) => PairFail(cfg, s, t, call, stage, f);
    case Consume(_, _) => ConsumeFail(cfg, s, t, call, stage, f);
    case New(_, _) => NewFail(cfg, s, t, call, stage, f);
  }

  lemma StepKeeps(cfg: Config, s: State, t: nat)
    requires Inv(cfg, s) && Enabled(cfg, s, Step(t)) && s.threads[t].pc.Running? && s.threads[t].pc.stage != Done
    ensures Inv(cfg, Next(cfg, s, Step(t)))
  {
    var Running(call, stage, f) := s.threads[t].pc;
    HereHolds(cfg, s, t);
    CallGoes(cfg, s, t, call, stage, f);
    ApplyKeeps(cfg, s, t, call, stage, f, Act(cfg, s, t, call, stage, f));
  }

  lemma StepAtKeeps(cfg: Config, s: State, t: nat, a: Addr)
    requires Inv(cfg, s) && Enabled(cfg, s, StepAt(t, a))
    ensures Inv(cfg, Next(cfg, s, StepAt(t, a)))
  {
    var Running(call, stage, f) := s.threads[t].pc;
    HereHolds(cfg, s, t);
    CallAllocates(cfg, s, t, call, f, a);
    ApplyKeeps(cfg, s, t, call, stage, f, AllocStep(cfg, s, t, call, f, a));
  }

  lemma FailKeeps(cfg: Config, s: State, t: nat)
    requires Inv(cfg, s) && Enabled(cfg, s, Fail(t))
    ensures Inv(cfg, Next(cfg, s, Fail(t)))
  {
    var Running(call, stage, f) := s.threads[t].pc;
    HereHolds(cfg, s, t);
    CallFails(cfg, s, t, call, stage, f);
    ApplyKeeps(cfg, s, t, call, stage, f, FailStep(stage, f));
  }

  lemma ShedKeeps(cfg: Config, s: State, t: nat)
    requires Inv(cfg, s) && Enabled(cfg, s, Shed(t))
    ensures Inv(cfg, Next(cfg, s, Shed(t)))
  {
    var Running(call, stage, f) := s.threads[t].pc;
    HereHolds(cfg, s, t);
    ConsumeShed(cfg, s, t, call, stage, f);
    ApplyKeeps(cfg, s, t, call, stage, f, ShedStep(s, call, f, stage));
  }

  // ----- Taking and giving back monitors -----

  /** Shared data stay; thread t is outside its call's body before and after. */
  ghost predicate OnlyMonitors(s: State, s': State, t: nat) {
    && t < |s.threads| == |s'.threads| && !s.threads[t].pc.Running? && !s'.threads[t].pc.Running?
    && s'.threads == s.threads[t := s'.threads[t]]
    && s' == s.(monitor := s'.monitor, threads := s'.threads)
  }

  lemma OnlyMonitorsKeeps(cfg: Config, s: State, s': State, t: nat)
    requires Inv(cfg, s) && OnlyMonitors(s, s', t)
    requires MonitorInv(cfg, s') && CallInv(cfg, s', s'.threads[t].pc)
    requires forall l :: l in s'.monitor ==> s'.monitor[l] == t || (l in s.monitor && s.monitor[l] == s'.monitor[l])
    requires forall l :: l in s.monitor ==> s.monitor[l] == t || (l in s'.monitor && s.monitor[l] == s'.monitor[l])
    ensures Inv(cfg, s')
  {
    forall a | a in s'.ledger ensures Claimed(s', a, s'.ledger[a]) {
      assert Claimed(s, a, s.ledger[a]);
    }
    forall u | 0 <= u < |s'.threads| ensures CallInv(cfg, s', s'.threads[u].pc) {
      assert CallInv(cfg, s, s.threads[u].pc);
    }
    OnlyMonitorsThreads(cfg, s, s', t);
    OnlyMonitorsHandles(cfg, s, s', t);
  }

  lemma OnlyMonitorsThreads(cfg: Config, s: State, s': State, t: nat)
    requires Inv(cfg, s) && OnlyMonitors(s, s', t)
    ensures ThreadsInv(cfg, s')
  {
    hide LocalInv, LedgerInv, MonitorInv, HandlesInv, AllFlags, SpecInv, CleanerInv, CallsInv;
    forall u | 0 <= u < |s'.threads| ensures ThreadInv(cfg, s', u, s'.threads[u].pc) {
      assert ThreadInv(cfg, s, u, s.threads[u].pc);
      SameViews(cfg, s, s', u, s'.threads[u].pc);
    }
  }

  lemma OnlyMonitorsHandles(cfg: Config, s: State, s': State, t: nat)
    requires Inv(cfg, s) && OnlyMonitors(s, s', t)
    requires forall l :: l in s'.monitor ==> s'.monitor[l] == t || (l in s.monitor && s.monitor[l] == s'.monitor[l])
    requires forall l :: l in s.monitor ==> s.monitor[l] == t || (l in s'.monitor && s.monitor[l] == s'.monitor[l])
    ensures HandlesInv(cfg, s')
  {
    forall x | 0 <= x < |s'.handles| ensures HandleInv(cfg, s', x, s'.handles[x]) {
      assert HandleInv(cfg, s, x, s.handles[x]);
      assert InRun(s', x) == InRun(s, x);
      assert HandleView(cfg, s', x) == HandleView(cfg, s, x);
    }
  }

  lemma SameViews(cfg: Config, s: State, s': State, u: nat, pc: Pc)
    requires s'.heap == s.heap && s'.ledger == s.ledger && s'.handles == s.handles && s'.log == s.log
    ensures pc.Running? ==> ViewOf(cfg, s', u, pc.call, pc.f) == ViewOf(cfg, s, u, pc.call, pc.f)
  {
  }

  lemma BeginKeeps(cfg: Config, s: State, t: nat, call: Call)
    requires Inv(cfg, s) && Enabled(cfg, s, Begin(t, call))
    ensures Inv(cfg, Next(cfg, s, Begin(t, call)))
  {
    var s' := Next(cfg, s, Begin(t, call));
    OutsideMonitors(cfg, s, s', t);
    OnlyMonitorsKeeps(cfg, s, s', t);
  }

  /** Threads that hold the same monitors as before. */
  lemma OutsideMonitors(cfg: Config, s: State, s': State, t: nat)
    requires MonitorInv(cfg, s) && t < |s.threads| && |s'.threads| == |s.threads|
    requires s'.threads == s.threads[t := s'.threads[t]] && s'.monitor == s.monitor
    requires HeldLocks(cfg, s'.threads[t].pc) == HeldLocks(cfg, s.threads[t].pc)
    ensures MonitorInv(cfg, s')
  {
    assert forall u :: 0 <= u < |s.threads| ==> HeldLocks(cfg, s'.threads[u].pc) == HeldLocks(cfg, s.threads[u].pc);
  }

  lemma AcquireKeeps(cfg: Config, s: State, t: nat)
    requires Inv(cfg, s) && Enabled(cfg, s, Step(t)) && s.threads[t].pc.Waiting?
    requires s.threads[t].pc.k < |Plan(cfg, s.threads[t].pc.call)|
    ensures Inv(cfg, Next(cfg, s, Step(t)))
  {
    hide LocalInv, LedgerInv, ThreadsInv, HandlesInv, CleanerInv, AllFlags, SpecInv;
    var s' := Next(cfg, s, Step(t));
    var Waiting(call, k) := s.threads[t].pc;
    var l0 := Plan(cfg, call)[k];
    assert CallInv(cfg, s, s.threads[t].pc);
    AcquireMonitors(cfg, s, t);
    OnlyMonitorsKeeps(cfg, s, s', t);
  }

  lemma AcquireMonitors(cfg: Config, s: State, t: nat)
    requires MonitorInv(cfg, s) && Enabled(cfg, s, Step(t)) && s.threads[t].pc.Waiting?
    requires s.threads[t].pc.k < |Plan(cfg, s.threads[t].pc.call)|
    ensures MonitorInv(cfg, Next(cfg, s, Step(t)))
  {
    var s' := Next(cfg, s, Step(t));
    var Waiting(call, k) := s.threads[t].pc;
    var plan := Plan(cfg, call);
    assert plan[..k + 1] == plan[..k] + [plan[k]];
    forall u, l | 0 <= u < |s'.threads| && l in HeldLocks(cfg, s'.threads[u].pc)
      ensures l in s'.monitor && s'.monitor[l] == u
    {
      if u != t { assert l in HeldLocks(cfg, s.threads[u].pc); }
      else if l != plan[k] { assert l in HeldLocks(cfg, s.threads[t].pc); }
    }
    forall l | l in s'.monitor
      ensures s'.monitor[l] < |s'.threads| && l in HeldLocks(cfg, s'.threads[s'.monitor[l]].pc)
    {
      if l != plan[k] { assert l in s.monitor && l in HeldLocks(cfg, s.threads[s.monitor[l]].pc); }
    }
  }

  lemma PlanDistinct(cfg: Config, call: Call, i: nat, j: nat)
    requires i < j < |Plan(cfg, call)|
    ensures Plan(cfg, call)[i] != Plan(cfg, call)[j]
  {
  }

  lemma ReleaseMonitors(cfg: Config, s: State, s': State, t: nat, held: seq<Lock>, l0: Lock)
    requires MonitorInv(cfg, s) && t < |s.threads| == |s'.threads| && l0 !in held
    requires HeldLocks(cfg, s.threads[t].pc) == held + [l0] && HeldLocks(cfg, s'.threads[t].pc) == held
    requires s'.threads == s.threads[t := s'.threads[t]] && s'.monitor == s.monitor - {l0}
    ensures MonitorInv(cfg, s')
  {
    hide HeldLocks, Plan;
    assert l0 in HeldLocks(cfg, s.threads[t].pc);
    assert s.monitor[l0] == t;
    forall u, l | 0 <= u < |s'.threads| && l in HeldLocks(cfg, s'.threads[u].pc)
      ensures l in s'.monitor && s'.monitor[l] == u
    {
      assert l in HeldLocks(cfg, s.threads[u].pc);
      assert s.monitor[l] == u;
    }
    forall l | l in s'.monitor
      ensures s'.monitor[l] < |s'.threads| && l in HeldLocks(cfg, s'.threads[s'.monitor[l]].pc)
    {
      assert l in s.monitor && l in HeldLocks(cfg, s.threads[s.monitor[l]].pc);
    }
  }

  lemma ReleaseKeeps(cfg: Config, s: State, t: nat)
    requires Inv(cfg, s) && Enabled(cfg, s, Step(t)) && s.threads[t].pc.Leaving?
    ensures Inv(cfg, Next(cfg, s, Step(t)))
  {
    hide LocalInv, LedgerInv, ThreadsInv, HandlesInv, CleanerInv, AllFlags, SpecInv;
    var s' := Next(cfg, s, Step(t));
    var Leaving(call, out, k) := s.threads[t].pc;
    assert CallInv(cfg, s, s.threads[t].pc);
    if k > 0 {
      var plan := Plan(cfg, call);
      assert plan[..k] == plan[..k - 1] + [plan[k - 1]];
      assert plan[k - 1] !in plan[..k - 1] by {
        forall i | 0 <= i < k - 1 ensures plan[i] != plan[k - 1] { PlanDistinct(cfg, call, i, k - 1); }
      }
      assert plan[k - 1] in HeldLocks(cfg, s.threads[t].pc);
      ReleaseMonitors(cfg, s, s', t, plan[..k - 1], plan[k - 1]);
    } else {
      OutsideMonitors(cfg, s, s', t);
    }
    OnlyMonitorsKeeps(cfg, s, s', t);
  }
}
