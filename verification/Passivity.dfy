/** The ledger, the log and the fates only watch: erasing them changes neither which steps are
    possible nor what they do to everything else. */
module Passivity {
  import opened Values
  import opened Machine

  function Forget(h: Handle): Handle {
    h.(fate := Held)
  }

  /** The same state but for history. */
  predicate SameButHistory(s: State, r: State) {
    && r.heap == s.heap && r.monitor == s.monitor && r.threads == s.threads && r.cleaner == s.cleaner
    && r.fault == s.fault && SameHandles(r.handles, s.handles)
  }

  predicate SameHandles(hs: seq<Handle>, gs: seq<Handle>) {
    |hs| == |gs| && forall x :: 0 <= x < |gs| ==> Forget(hs[x]) == Forget(gs[x])
  }

  lemma SameUpdate(hs: seq<Handle>, gs: seq<Handle>, x: nat, h: Handle, g: Handle)
    requires SameHandles(hs, gs) && x < |gs| && Forget(h) == Forget(g)
    ensures SameHandles(hs[x := h], gs[x := g])
  {
  }

  lemma GuardsIgnoreHistory(cfg: Config, s: State, r: State, l: Label)
    requires SameButHistory(s, r)
    ensures Enabled(cfg, s, l) <==> Enabled(cfg, r, l)
  {
    assert forall x :: 0 <= x < |s.handles| ==>
        Forget(r.handles[x]).status == Forget(s.handles[x]).status
        && Forget(r.handles[x]).tag == Forget(s.handles[x]).tag
        && Forget(r.handles[x]).fired == Forget(s.handles[x]).fired;
  }

  /** Two effects that differ in history only. */
  predicate SameEffect(e: Effect, d: Effect) {
    && e.stage == d.stage && e.f == d.f && e.born == d.born && e.bad == d.bad
    && (e.main.Some? <==> d.main.Some?) && (e.main.Some? ==> Forget(e.main.value) == Forget(d.main.value))
    && e.cells == d.cells
  }

  const LATE_STAGES: set<Stage> := {Exit, TakeState, Clean, Free}

  lemma LateActsIgnoreHistory(cfg: Config, s: State, r: State, t: nat, call: Call, stage: Stage, f: Frame)
    requires SameButHistory(s, r) && stage in LATE_STAGES
    ensures SameEffect(Act(cfg, s, t, call, stage, f), Act(cfg, r, t, call, stage, f))
  {
    assert Forget(Main(r, call)) == Forget(Main(s, call));
    match stage
    case Exit =>
    case TakeState =>
    case Clean =>
    case Free =>
  }

  lemma EarlyActsIgnoreHistory(cfg: Config, s: State, r: State, t: nat, call: Call, stage: Stage, f: Frame)
    requires SameButHistory(s, r) && stage !in LATE_STAGES
    ensures SameEffect(Act(cfg, s, t, call, stage, f), Act(cfg, r, t, call, stage, f))
  {
    assert Forget(Main(r, call)) == Forget(Main(s, call));
    assert Forget(Second(r, call)) == Forget(Second(s, call));
  }

  lemma ActsIgnoreHistory(cfg: Config, s: State, r: State, t: nat, call: Call, stage: Stage, f: Frame)
    requires SameButHistory(s, r)
    ensures SameEffect(Act(cfg, s, t, call, stage, f), Act(cfg, r, t, call, stage, f))
  {
    if stage in LATE_STAGES {
      LateActsIgnoreHistory(cfg, s, r, t, call, stage, f);
    } else {
      EarlyActsIgnoreHistory(cfg, s, r, t, call, stage, f);
    }
  }

  lemma ApplyIgnoresHistory(s: State, r: State, t: nat, call: Call, e: Effect, d: Effect)
    requires SameButHistory(s, r) && SameEffect(e, d) && t < |s.threads|
    ensures SameButHistory(Apply(s, t, call, e), Apply(r, t, call, d))
  {
  }

  lemma CallStepIgnoresHistory(cfg: Config, s: State, r: State, l: Label)
    requires SameButHistory(s, r) && Enabled(cfg, s, l) && Enabled(cfg, r, l)
    requires l.StepAt? || l.Fail? || l.Shed?
             || (l.Step? && s.threads[l.t].pc.Running? && s.threads[l.t].pc.stage != Done)
    ensures SameButHistory(Next(cfg, s, l), Next(cfg, r, l))
  {
    var t := l.t;
    var Running(call, stage, f) := s.threads[t].pc;
    match l
    case Step(_) =>
      ActsIgnoreHistory(cfg, s, r, t, call, stage, f);
      ApplyIgnoresHistory(s, r, t, call, Act(cfg, s, t, call, stage, f), Act(cfg, r, t, call, stage, f));
    case StepAt(_, a) =>
      ApplyIgnoresHistory(s, r, t, call, AllocStep(cfg, s, t, call, f, a), AllocStep(cfg, r, t, call, f, a));
    case Fail(_) => ApplyIgnoresHistory(s, r, t, call, FailStep(stage, f), FailStep(stage, f));
    case Shed(_) => ApplyIgnoresHistory(s, r, t, call, ShedStep(s, call, f, stage), ShedStep(r, call, f, stage));
  }

  lemma CommitIgnoresHistory(cfg: Config, s: State, r: State, t: nat, call: Call, f: Frame)
    requires SameButHistory(s, r) && t < |s.threads|
    ensures SameButHistory(Commit(cfg, s, t, call, f), Commit(cfg, r, t, call, f))
  {
    if f.child.Some? && f.child.value < |s.handles| {
      var c := f.child.value;
      assert Forget(r.handles[c]) == Forget(s.handles[c]);
      SameUpdate(r.handles, s.handles, c, r.handles[c].(status := Published), s.handles[c].(status := Published));
    }
  }

  lemma ThreadsIgnoreHistory(s: State, r: State, ths: seq<Thread>, m: map<Lock, nat>)
    requires SameButHistory(s, r)
    ensures SameButHistory(s.(threads := ths, monitor := m), r.(threads := ths, monitor := m))
  {
  }

  lemma MonitorIgnoresHistory(cfg: Config, s: State, r: State, t: nat)
    requires SameButHistory(s, r) && t < |s.threads| && !s.threads[t].pc.Running?
    ensures SameButHistory(StepThread(cfg, s, t), StepThread(cfg, r, t))
  {
    hide SameHandles;
    var s' := StepThread(cfg, s, t);
    ThreadsIgnoreHistory(s, r, s'.threads, s'.monitor);
    assert s' == s.(threads := s'.threads, monitor := s'.monitor);
    assert StepThread(cfg, r, t) == r.(threads := s'.threads, monitor := s'.monitor);
  }

  lemma StatusIgnoresHistory(cfg: Config, s: State, r: State, l: Label)
    requires SameButHistory(s, r) && Enabled(cfg, s, l) && Enabled(cfg, r, l) && (l.Drop? || l.Collect?)
    ensures SameButHistory(Next(cfg, s, l), Next(cfg, r, l))
  {
    assert Forget(r.handles[l.h]) == Forget(s.handles[l.h]);
    SameUpdate(r.handles, s.handles, l.h, Next(cfg, r, l).handles[l.h], Next(cfg, s, l).handles[l.h]);
  }

  lemma SweepIgnoresHistory(cfg: Config, s: State, r: State)
    requires SameButHistory(s, r) && s.cleaner != Resting && s.cleaner.h < |s.handles|
    ensures SameButHistory(SweepStep(s), SweepStep(r))
  {
    var h := s.cleaner.h;
    assert Forget(r.handles[h]) == Forget(s.handles[h]);
    SameUpdate(r.handles, s.handles, h, SweepStep(r).handles[h], SweepStep(s).handles[h]);
  }

  lemma StepsIgnoreHistory(cfg: Config, s: State, r: State, l: Label)
    requires SameButHistory(s, r) && Enabled(cfg, s, l)
    ensures Enabled(cfg, r, l) && SameButHistory(Next(cfg, s, l), Next(cfg, r, l))
  {
    GuardsIgnoreHistory(cfg, s, r, l);
    match l
    case Begin(_, _) =>
    case Step(t) =>
      if s.threads[t].pc.Running? && s.threads[t].pc.stage != Done {
        CallStepIgnoresHistory(cfg, s, r, l);
      } else if s.threads[t].pc.Running? {
        CommitIgnoresHistory(cfg, s, r, t, s.threads[t].pc.call, s.threads[t].pc.f);
      } else {
        MonitorIgnoresHistory(cfg, s, r, t);
      }
    case StepAt(_, _) => CallStepIgnoresHistory(cfg, s, r, l);
    case Fail(_) => CallStepIgnoresHistory(cfg, s, r, l);
    case Shed(_) => CallStepIgnoresHistory(cfg, s, r, l);
    case Sweep => SweepIgnoresHistory(cfg, s, r);
    case _ => StatusIgnoresHistory(cfg, s, r, l);
  }
}
