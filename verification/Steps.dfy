/** Every step a running call can take keeps its own part of the invariant. */
module Steps {
  import opened Values
  import opened Machine
  import opened Invariant
  import opened Interference

  /** What a step of one call may assume about the state. */
  ghost predicate Here(cfg: Config, s: State, t: nat, call: Call, stage: Stage, f: Frame) {
    && At(s, t, call, stage, f) && CallReady(s, call)
    && LedgerInv(s) && SpecInv(cfg, s)
    && (!call.New? ==> FlagsInv(s.cleaner, call.h, s.handles[call.h]))
    && LocalInv(cfg, t, call, stage, f, ViewOf(cfg, s, t, call, f))
  }

  ghost predicate Good(cfg: Config, s: State, t: nat, call: Call, f: Frame, e: Effect)
    requires t < |s.threads|
  {
    EffectOK(cfg, s, t, call, f, e)
    && LocalInv(cfg, t, call, e.stage, e.f, ViewOf(cfg, Apply(s, t, call, e), t, call, e.f))
  }

  // ----- Steps that change only the thread -----

  predicate IsQuiet(f: Frame, e: Effect) {
    && e.main.None? && e.cells == Keep && e.born.None? && !e.bad
    && e.f.spent == f.spent && e.f.box == f.box && e.f.child == f.child
  }

  /** Such a step is judged on the view alone. */
  lemma QuietGood(cfg: Config, s: State, t: nat, call: Call, stage: Stage, f: Frame, e: Effect)
    requires Here(cfg, s, t, call, stage, f) && IsQuiet(f, e)
    requires LocalInv(cfg, t, call, e.stage, e.f, ViewOf(cfg, s, t, call, f))
    ensures Good(cfg, s, t, call, f, e)
  {
    hide LocalInv;
    var s' := Apply(s, t, call, e);
    assert Spec(cfg, s') == Spec(cfg, s);
    assert ViewOf(cfg, s', t, call, e.f) == ViewOf(cfg, s, t, call, f);
  }

  lemma UseCheck(cfg: Config, s: State, t: nat, call: Call, stage: Stage, f: Frame)
    requires Here(cfg, s, t, call, stage, f) && call.Use? && stage in {Check, Fetch, Enter, Read}
    ensures Good(cfg, s, t, call, f, Act(cfg, s, t, call, stage, f))
  {
    hide Good, LedgerInv, SpecInv, FlagsInv, PairInv, ConsumeInv, CloseInv, NewInv;
    QuietGood(cfg, s, t, call, stage, f, Act(cfg, s, t, call, stage, f));
  }

  lemma PairCheck(cfg: Config, s: State, t: nat, call: Call, stage: Stage, f: Frame)
    requires Here(cfg, s, t, call, stage, f) && call.Pair? && stage in {Check, CheckOther, Fetch, Enter}
    ensures Good(cfg, s, t, call, f, Act(cfg, s, t, call, stage, f))
  {
    hide Good, LedgerInv, SpecInv, FlagsInv, UseInv, ConsumeInv, CloseInv, NewInv;
    var e := Act(cfg, s, t, call, stage, f);
    assert IsQuiet(f, e) && PairInv(cfg, t, call, e.stage, e.f, ViewOf(cfg, s, t, call, f)) by {
      match stage
      case Check =>
      case CheckOther =>
      case Fetch =>
      case Enter =>
    }
    QuietGood(cfg, s, t, call, stage, f, e);
  }

  lemma PairRead(cfg: Config, s: State, t: nat, call: Call, stage: Stage, f: Frame)
    requires Here(cfg, s, t, call, stage, f) && call.Pair? && stage in {Read, ReadOther}
    ensures Good(cfg, s, t, call, f, Act(cfg, s, t, call, stage, f))
  {
    hide Good, LedgerInv, SpecInv, FlagsInv, UseInv, ConsumeInv, CloseInv, NewInv;
    QuietGood(cfg, s, t, call, stage, f, Act(cfg, s, t, call, stage, f));
  }

  lemma ConsumeCheck(cfg: Config, s: State, t: nat, call: Call, stage: Stage, f: Frame)
    requires Here(cfg, s, t, call, stage, f) && call.Consume? && stage in {Check, Fetch, Enter, Decode}
    ensures Good(cfg, s, t, call, f, Act(cfg, s, t, call, stage, f))
  {
    hide Good, LedgerInv, SpecInv, FlagsInv, UseInv, PairInv, CloseInv, NewInv;
    QuietGood(cfg, s, t, call, stage, f, Act(cfg, s, t, call, stage, f));
  }

  lemma ConsumeRead(cfg: Config, s: State, t: nat, call: Call, stage: Stage, f: Frame)
    requires Here(cfg, s, t, call, stage, f) && call.Consume? && stage == Read
    ensures Good(cfg, s, t, call, f, Act(cfg, s, t, call, stage, f))
  {
    hide Good, LedgerInv, SpecInv, FlagsInv, UseInv, PairInv, CloseInv, NewInv;
    QuietGood(cfg, s, t, call, stage, f, Act(cfg, s, t, call, stage, f));
  }

  lemma UseConvert(cfg: Config, s: State, t: nat, call: Call, stage: Stage, f: Frame)
    requires Here(cfg, s, t, call, stage, f) && call.Use? && stage == Convert
    ensures Good(cfg, s, t, call, f, Act(cfg, s, t, call, stage, f))
  {
    hide Good, LedgerInv, SpecInv, FlagsInv, PairInv, ConsumeInv, CloseInv, NewInv;
    QuietGood(cfg, s, t, call, stage, f, Act(cfg, s, t, call, stage, f));
  }

  lemma PairConvert(cfg: Config, s: State, t: nat, call: Call, stage: Stage, f: Frame)
    requires Here(cfg, s, t, call, stage, f) && call.Pair? && stage == Convert
    ensures Good(cfg, s, t, call, f, Act(cfg, s, t, call, stage, f))
  {
    hide Good, LedgerInv, SpecInv, FlagsInv, UseInv, ConsumeInv, CloseInv, NewInv;
    QuietGood(cfg, s, t, call, stage, f, Act(cfg, s, t, call, stage, f));
  }

  lemma PairPass(cfg: Config, s: State, t: nat, call: Call, stage: Stage, f: Frame)
    requires Here(cfg, s, t, call, stage, f) && call.Pair? && stage in {Build, Leak}
    ensures Good(cfg, s, t, call, f, Act(cfg, s, t, call, stage, f))
  {
    hide Good, LedgerInv, SpecInv, FlagsInv, UseInv, ConsumeInv, CloseInv, NewInv;
    hide PairEffect, PairDone, PairStopped, Settled;
    QuietGood(cfg, s, t, call, stage, f, Act(cfg, s, t, call, stage, f));
  }

  lemma UseFail(cfg: Config, s: State, t: nat, call: Call, stage: Stage, f: Frame)
    requires Here(cfg, s, t, call, stage, f) && call.Use? && CanFail(call, stage)
    ensures Good(cfg, s, t, call, f, FailStep(stage, f))
  {
    hide Good, LedgerInv, SpecInv, FlagsInv, PairInv, ConsumeInv, CloseInv, NewInv;
    QuietGood(cfg, s, t, call, stage, f, FailStep(stage, f));
  }

  lemma PairFail(cfg: Config, s: State, t: nat, call: Call, stage: Stage, f: Frame)
    requires Here(cfg, s, t, call, stage, f) && call.Pair? && CanFail(call, stage)
    ensures Good(cfg, s, t, call, f, FailStep(stage, f))
  {
    hide Good, LedgerInv, SpecInv, FlagsInv, PairInv, UseInv, ConsumeInv, CloseInv, NewInv;
    var e := FailStep(stage, f);
    PairFailed(cfg, t, call, stage, f, ViewOf(cfg, s, t, call, f));
    QuietGood(cfg, s, t, call, stage, f, e);
  }

  lemma PairFailed(cfg: Config, t: nat, call: Call, stage: Stage, f: Frame, v: View)
    requires call.Pair? && CanFail(call, stage) && PairInv(cfg, t, call, stage, f, v)
    ensures var e := FailStep(stage, f); PairInv(cfg, t, call, e.stage, e.f, v)
  {
  }

  lemma ConsumeFail(cfg: Config, s: State, t: nat, call: Call, stage: Stage, f: Frame)
    requires Here(cfg, s, t, call, stage, f) && call.Consume? && CanFail(call, stage)
    ensures Good(cfg, s, t, call, f, FailStep(stage, f))
  {
    hide Good, LedgerInv, SpecInv, FlagsInv, UseInv, PairInv, ConsumeInv, CloseInv, NewInv;
    var e := FailStep(stage, f);
    ConsumeFailed(cfg, t, call, stage, f, ViewOf(cfg, s, t, call, f));
    QuietGood(cfg, s, t, call, stage, f, e);
  }

  lemma ConsumeFailed(cfg: Config, t: nat, call: Call, stage: Stage, f: Frame, v: View)
    requires call.Consume? && CanFail(call, stage) && ConsumeInv(cfg, t, call.op, stage, f, v)
    ensures var e := FailStep(stage, f); ConsumeInv(cfg, t, call.op, e.stage, e.f, v)
  {
  }

  lemma NewFail(cfg: Config, s: State, t: nat, call: Call, stage: Stage, f: Frame)
    requires Here(cfg, s, t, call, stage, f) && call.New? && CanFail(call, stage)
    ensures Good(cfg, s, t, call, f, FailStep(stage, f))
  {
    hide Good, LedgerInv, SpecInv, FlagsInv, UseInv, PairInv, ConsumeInv, CloseInv;
    QuietGood(cfg, s, t, call, stage, f, FailStep(stage, f));
  }

  lemma UseNoChild(cfg: Config, s: State, t: nat, call: Call, stage: Stage, f: Frame)
    requires Here(cfg, s, t, call, stage, f) && call.Use? && stage == Alloc && ChildValue(cfg, call, f.v, f.w).None?
    ensures Good(cfg, s, t, call, f, NoChildStep(f))
  {
    hide Good, LedgerInv, SpecInv, FlagsInv, PairInv, ConsumeInv, CloseInv, NewInv;
    QuietGood(cfg, s, t, call, stage, f, NoChildStep(f));
  }

  lemma ConsumeNoChild(cfg: Config, s: State, t: nat, call: Call, stage: Stage, f: Frame)
    requires Here(cfg, s, t, call, stage, f) && call.Consume? && stage == Alloc && ChildValue(cfg, call, f.v, f.w).None?
    ensures Good(cfg, s, t, call, f, NoChildStep(f))
  {
    hide Good, LedgerInv, SpecInv, FlagsInv, UseInv, PairInv, CloseInv, NewInv;
    QuietGood(cfg, s, t, call, stage, f, NoChildStep(f));
  }

  // ----- Steps that move boxes or pointers -----

  lemma PairAdoptEffect(cfg: Config, s: State, t: nat, call: Call, stage: Stage, f: Frame)
    requires Here(cfg, s, t, call, stage, f) && call.Pair? && stage == Adopt
    ensures EffectOK(cfg, s, t, call, f, Act(cfg, s, t, call, stage, f))
  {
    hide UseInv, ConsumeInv, CloseInv, NewInv;
  }

  lemma ConsumeLeakEffect(cfg: Config, s: State, t: nat, call: Call, stage: Stage, f: Frame)
    requires Here(cfg, s, t, call, stage, f) && call.Consume? && stage == Leak
    ensures EffectOK(cfg, s, t, call, f, Act(cfg, s, t, call, stage, f))
  {
    hide UseInv, PairInv, CloseInv, NewInv;
  }

  lemma ConsumeAbandonEffect(cfg: Config, s: State, t: nat, call: Call, stage: Stage, f: Frame)
    requires Here(cfg, s, t, call, stage, f) && call.Consume? && stage == TakeState && f.out.Lost?
    ensures EffectOK(cfg, s, t, call, f, Act(cfg, s, t, call, stage, f))
  {
    hide UseInv, PairInv, CloseInv, NewInv;
  }

  lemma CloseTakeStateEffect(cfg: Config, s: State, t: nat, call: Call, stage: Stage, f: Frame)
    requires Here(cfg, s, t, call, stage, f) && call.Close? && stage == TakeState
    ensures EffectOK(cfg, s, t, call, f, Act(cfg, s, t, call, stage, f))
  {
    hide UseInv, PairInv, ConsumeInv, NewInv;
  }

  lemma UseWrite(cfg: Config, s: State, t: nat, call: Call, stage: Stage, f: Frame)
    requires Here(cfg, s, t, call, stage, f) && call.Use? && stage == Write
    ensures Good(cfg, s, t, call, f, Act(cfg, s, t, call, stage, f))
  {
    hide PairInv, ConsumeInv, CloseInv, NewInv;
  }

  lemma UseBuild(cfg: Config, s: State, t: nat, call: Call, stage: Stage, f: Frame)
    requires Here(cfg, s, t, call, stage, f) && call.Use? && stage == Build
    ensures Good(cfg, s, t, call, f, Act(cfg, s, t, call, stage, f))
  {
    hide PairInv, ConsumeInv, CloseInv, NewInv;
  }

  lemma UseLeak(cfg: Config, s: State, t: nat, call: Call, stage: Stage, f: Frame)
    requires Here(cfg, s, t, call, stage, f) && call.Use? && stage == Leak
    ensures Good(cfg, s, t, call, f, Act(cfg, s, t, call, stage, f))
  {
    hide PairInv, ConsumeInv, CloseInv, NewInv;
  }

  lemma UseExit(cfg: Config, s: State, t: nat, call: Call, stage: Stage, f: Frame)
    requires Here(cfg, s, t, call, stage, f) && call.Use? && stage == Exit
    ensures Good(cfg, s, t, call, f, Act(cfg, s, t, call, stage, f))
  {
    hide PairInv, ConsumeInv, CloseInv, NewInv;
  }

  lemma PairWrite(cfg: Config, s: State, t: nat, call: Call, stage: Stage, f: Frame)
    requires Here(cfg, s, t, call, stage, f) && call.Pair? && stage == Write
    ensures Good(cfg, s, t, call, f, Act(cfg, s, t, call, stage, f))
  {
    hide UseInv, ConsumeInv, CloseInv, NewInv;
  }

  lemma PairWriteOther(cfg: Config, s: State, t: nat, call: Call, stage: Stage, f: Frame)
    requires Here(cfg, s, t, call, stage, f) && call.Pair? && stage == WriteOther
    ensures Good(cfg, s, t, call, f, Act(cfg, s, t, call, stage, f))
  {
    hide UseInv, ConsumeInv, CloseInv, NewInv;
  }

  /** Java adopts the pointer in flight: handles that exist already are not affected. */
  lemma AdoptKeepsView(cfg: Config, s: State, t: nat, call: Call, f: Frame, x: nat)
    requires At(s, t, call, Adopt, f) && x < |s.handles| && OwnedCell(s, OfBox(t), f.box).Some?
    ensures HandleView(cfg, Apply(s, t, call, AdoptStep(s, t, call, f)), x) == HandleView(cfg, s, x)
  {
  }

  lemma AdoptGives(cfg: Config, s: State, t: nat, call: Call, f: Frame, cell: Cell)
    requires At(s, t, call, Adopt, f) && SpecInv(cfg, s) && f.box != 0
    requires OwnedCell(s, OfBox(t), f.box) == Some(cell) && ChildTag(call, MainTag(s, call)) == cell.tag
    ensures Adopted(HandleView(cfg, Apply(s, t, call, AdoptStep(s, t, call, f)), |s.handles|), t, cell)
  {
    assert |s.handles| !in Spec(cfg, s);
  }

  lemma PairAdopt(cfg: Config, s: State, t: nat, call: Call, stage: Stage, f: Frame)
    requires Here(cfg, s, t, call, stage, f) && call.Pair? && stage == Adopt
    ensures Good(cfg, s, t, call, f, Act(cfg, s, t, call, stage, f))
  {
    hide EffectOK, LedgerInv, FlagsInv, SpecInv, HandleView, UseInv, ConsumeInv, CloseInv, NewInv;
    PairAdoptEffect(cfg, s, t, call, stage, f);
    AdoptKeepsView(cfg, s, t, call, f, FirstOf(call));
    AdoptKeepsView(cfg, s, t, call, f, SecondOf(call));
    AdoptGives(cfg, s, t, call, f, Cell(InboundGroup, cfg.native.join(call.op, f.v, f.w).merged.value));
  }

  lemma PairExit(cfg: Config, s: State, t: nat, call: Call, stage: Stage, f: Frame)
    requires Here(cfg, s, t, call, stage, f) && call.Pair? && stage == Exit && f.box != 0
    ensures Good(cfg, s, t, call, f, Act(cfg, s, t, call, stage, f))
  {
    hide UseInv, ConsumeInv, CloseInv, NewInv;
  }

  lemma PairOut(cfg: Config, s: State, t: nat, call: Call, stage: Stage, f: Frame)
    requires Here(cfg, s, t, call, stage, f) && call.Pair? && stage == Exit && f.box == 0
    ensures Good(cfg, s, t, call, f, Act(cfg, s, t, call, stage, f))
  {
    hide Good, LedgerInv, SpecInv, FlagsInv, UseInv, ConsumeInv, CloseInv, NewInv;
    QuietGood(cfg, s, t, call, stage, f, Act(cfg, s, t, call, stage, f));
  }

  lemma ConsumeFromRaw(cfg: Config, s: State, t: nat, call: Call, stage: Stage, f: Frame)
    requires Here(cfg, s, t, call, stage, f) && call.Consume? && stage == FromRaw
    ensures Good(cfg, s, t, call, f, Act(cfg, s, t, call, stage, f))
  {
    hide UseInv, PairInv, CloseInv, NewInv;
  }

  lemma ConsumeBuild(cfg: Config, s: State, t: nat, call: Call, stage: Stage, f: Frame)
    requires Here(cfg, s, t, call, stage, f) && call.Consume? && stage == Build
    ensures Good(cfg, s, t, call, f, Act(cfg, s, t, call, stage, f))
  {
    hide UseInv, PairInv, CloseInv, NewInv;
  }

  lemma ConsumeLeak(cfg: Config, s: State, t: nat, call: Call, stage: Stage, f: Frame)
    requires Here(cfg, s, t, call, stage, f) && call.Consume? && stage == Leak
    ensures Good(cfg, s, t, call, f, Act(cfg, s, t, call, stage, f))
  {
    hide EffectOK, LedgerInv, FlagsInv, UseInv, PairInv, CloseInv, NewInv;
    ConsumeLeakEffect(cfg, s, t, call, stage, f);
  }

  lemma ConsumeDropGuard(cfg: Config, s: State, t: nat, call: Call, stage: Stage, f: Frame)
    requires Here(cfg, s, t, call, stage, f) && call.Consume? && stage == Exit && f.box != 0
    ensures Good(cfg, s, t, call, f, Act(cfg, s, t, call, stage, f))
  {
    hide UseInv, PairInv, CloseInv, NewInv;
  }

  lemma ConsumeDropSpent(cfg: Config, s: State, t: nat, call: Call, stage: Stage, f: Frame)
    requires Here(cfg, s, t, call, stage, f) && call.Consume? && stage == Exit && f.box == 0 && f.spent != 0
    ensures Good(cfg, s, t, call, f, Act(cfg, s, t, call, stage, f))
  {
    hide UseInv, PairInv, CloseInv, NewInv;
  }

  lemma ConsumeOut(cfg: Config, s: State, t: nat, call: Call, stage: Stage, f: Frame)
    requires Here(cfg, s, t, call, stage, f) && call.Consume? && stage == Exit && f.box == 0 && f.spent == 0
    ensures Good(cfg, s, t, call, f, Act(cfg, s, t, call, stage, f))
  {
    hide Good, LedgerInv, SpecInv, FlagsInv, UseInv, PairInv, CloseInv, NewInv;
    QuietGood(cfg, s, t, call, stage, f, Act(cfg, s, t, call, stage, f));
  }

  lemma ConsumeShed(cfg: Config, s: State, t: nat, call: Call, stage: Stage, f: Frame)
    requires Here(cfg, s, t, call, stage, f) && CanShed(call, stage, f)
    ensures Good(cfg, s, t, call, f, ShedStep(s, call, f, stage))
  {
    hide UseInv, PairInv, CloseInv, NewInv;
  }

  lemma ConsumeInvalidate(cfg: Config, s: State, t: nat, call: Call, stage: Stage, f: Frame)
    requires Here(cfg, s, t, call, stage, f) && call.Consume? && stage == TakeState && !f.out.Lost?
    ensures Good(cfg, s, t, call, f, Act(cfg, s, t, call, stage, f))
  {
    hide UseInv, PairInv, CloseInv, NewInv;
  }

  lemma ConsumeAbandon(cfg: Config, s: State, t: nat, call: Call, stage: Stage, f: Frame)
    requires Here(cfg, s, t, call, stage, f) && call.Consume? && stage == TakeState && f.out.Lost?
    ensures Good(cfg, s, t, call, f, Act(cfg, s, t, call, stage, f))
  {
    hide UseInv, PairInv, CloseInv, NewInv;
    ConsumeAbandonEffect(cfg, s, t, call, stage, f);
  }

  lemma ConsumeClean(cfg: Config, s: State, t: nat, call: Call, stage: Stage, f: Frame)
    requires Here(cfg, s, t, call, stage, f) && call.Consume? && stage == Clean && !s.handles[call.h].fired
    ensures Good(cfg, s, t, call, f, Act(cfg, s, t, call, stage, f))
  {
    hide UseInv, PairInv, CloseInv, NewInv;
  }

  lemma ConsumeCleaned(cfg: Config, s: State, t: nat, call: Call, stage: Stage, f: Frame)
    requires Here(cfg, s, t, call, stage, f) && call.Consume? && stage == Clean && s.handles[call.h].fired
    ensures Good(cfg, s, t, call, f, Act(cfg, s, t, call, stage, f))
  {
    hide Good, LedgerInv, SpecInv, FlagsInv, UseInv, PairInv, CloseInv, NewInv;
    QuietGood(cfg, s, t, call, stage, f, Act(cfg, s, t, call, stage, f));
  }

  lemma CloseTakeState(cfg: Config, s: State, t: nat, call: Call, stage: Stage, f: Frame)
    requires Here(cfg, s, t, call, stage, f) && call.Close? && stage == TakeState
    ensures Good(cfg, s, t, call, f, Act(cfg, s, t, call, stage, f))
  {
    hide EffectOK, LedgerInv, UseInv, PairInv, ConsumeInv, NewInv;
    CloseTakeStateEffect(cfg, s, t, call, stage, f);
  }

  lemma CloseClean(cfg: Config, s: State, t: nat, call: Call, stage: Stage, f: Frame)
    requires Here(cfg, s, t, call, stage, f) && call.Close? && stage == Clean
    ensures Good(cfg, s, t, call, f, Act(cfg, s, t, call, stage, f))
  {
    hide UseInv, PairInv, ConsumeInv, NewInv;
  }

  lemma CloseFree(cfg: Config, s: State, t: nat, call: Call, stage: Stage, f: Frame)
    requires Here(cfg, s, t, call, stage, f) && call.Close? && stage == Free
    ensures Good(cfg, s, t, call, f, Act(cfg, s, t, call, stage, f))
  {
    hide UseInv, PairInv, ConsumeInv, NewInv;
  }

  lemma NewAdopt(cfg: Config, s: State, t: nat, call: Call, stage: Stage, f: Frame)
    requires Here(cfg, s, t, call, stage, f) && call.New? && stage == Adopt
    ensures Good(cfg, s, t, call, f, Act(cfg, s, t, call, stage, f))
  {
    hide UseInv, PairInv, ConsumeInv, CloseInv;
  }

  lemma NewExit(cfg: Config, s: State, t: nat, call: Call, stage: Stage, f: Frame)
    requires Here(cfg, s, t, call, stage, f) && call.New? && stage == Exit
    ensures Good(cfg, s, t, call, f, Act(cfg, s, t, call, stage, f))
  {
    hide Good, LedgerInv, SpecInv, FlagsInv, UseInv, PairInv, ConsumeInv, CloseInv;
    QuietGood(cfg, s, t, call, stage, f, Act(cfg, s, t, call, stage, f));
  }

  lemma UseAlloc(cfg: Config, s: State, t: nat, call: Call, stage: Stage, f: Frame, a: Addr)
    requires Here(cfg, s, t, call, stage, f) && call.Use? && stage == Alloc
    requires a != 0 && a !in s.heap && ChildValue(cfg, call, f.v, f.w).Some?
    ensures Good(cfg, s, t, call, f, AllocStep(cfg, s, t, call, f, a))
  {
    hide PairInv, ConsumeInv, CloseInv, NewInv;
  }

  lemma PairAlloc(cfg: Config, s: State, t: nat, call: Call, stage: Stage, f: Frame, a: Addr)
    requires Here(cfg, s, t, call, stage, f) && call.Pair? && stage == Alloc
    requires a != 0 && a !in s.heap && ChildValue(cfg, call, f.v, f.w).Some?
    ensures Good(cfg, s, t, call, f, AllocStep(cfg, s, t, call, f, a))
  {
    hide UseInv, ConsumeInv, CloseInv, NewInv;
  }

  lemma ConsumeAlloc(cfg: Config, s: State, t: nat, call: Call, stage: Stage, f: Frame, a: Addr)
    requires Here(cfg, s, t, call, stage, f) && call.Consume? && stage == Alloc
    requires a != 0 && a !in s.heap && ChildValue(cfg, call, f.v, f.w).Some?
    ensures Good(cfg, s, t, call, f, AllocStep(cfg, s, t, call, f, a))
  {
    hide UseInv, PairInv, CloseInv, NewInv;
  }

  lemma NewAlloc(cfg: Config, s: State, t: nat, call: Call, stage: Stage, f: Frame, a: Addr)
    requires Here(cfg, s, t, call, stage, f) && call.New? && stage == Alloc
    requires a != 0 && a !in s.heap && ChildValue(cfg, call, f.v, f.w).Some?
    ensures Good(cfg, s, t, call, f, AllocStep(cfg, s, t, call, f, a))
  {
  }
}
