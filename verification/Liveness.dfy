/** No deadlock and no endless run: every maximal run completes every call, frees every monitor
    and leaves exactly the residue on the native heap. */
module Liveness {
  import opened Values
  import opened Machine
  import opened Invariant
  import opened Interference
  import opened Steps
  import opened Preservation
  import opened Commits
  import opened Reachability
  import opened Histories
  import opened Endings

  // ----- A thread that is not waiting can move -----

  /** Thread t can go on with its own call. */
  ghost predicate CanGo(cfg: Config, s: State, t: nat) {
    Enabled(cfg, s, Step(t)) || exists a :: Enabled(cfg, s, StepAt(t, a))
  }

  lemma RunningGoes(cfg: Config, s: State, t: nat)
    requires t < |s.threads| && s.threads[t].pc.Running?
    ensures CanGo(cfg, s, t)
  {
    if WantsChild(cfg, s.threads[t].pc) {
      var a := Bound(s.heap.Keys);
      assert Enabled(cfg, s, StepAt(t, a));
    } else {
      assert Enabled(cfg, s, Step(t));
    }
  }

  /** Waiting for a monitor that is taken: the only way a call can be stuck. */
  predicate Blocked(cfg: Config, s: State, t: nat) {
    t < |s.threads| && s.threads[t].pc.Waiting?
    && var Waiting(call, k) := s.threads[t].pc;
    k < |Plan(cfg, call)| && Plan(cfg, call)[k] in s.monitor
  }

  function Wanted(cfg: Config, s: State, t: nat): Lock
    requires Blocked(cfg, s, t)
  {
    Plan(cfg, s.threads[t].pc.call)[s.threads[t].pc.k]
  }

  lemma StuckIsBlocked(cfg: Config, s: State, t: nat)
    requires t < |s.threads| && !s.threads[t].pc.Idle? && !CanGo(cfg, s, t)
    ensures Blocked(cfg, s, t)
  {
    if s.threads[t].pc.Running? {
      RunningGoes(cfg, s, t);
    }
  }

  // ----- The order of the monitors -----

  /** Plans take the tie-break lock first and then sessions by rising hash; only the holder of the
      tie-break lock takes two sessions of equal hash. */
  lemma PlanRises(cfg: Config, call: Call, i: nat, k: nat)
    requires i < k < |Plan(cfg, call)|
    ensures Plan(cfg, call)[k].Session?
    ensures Plan(cfg, call)[i].Session? ==>
              var x := Plan(cfg, call)[i].h; var y := Plan(cfg, call)[k].h;
              cfg.hash(x) < cfg.hash(y) || (cfg.hash(x) == cfg.hash(y) && k == 2 && Plan(cfg, call)[0] == TieBreak)
  {
  }

  /** The holder of a monitor took it at an earlier place of its plan than it has reached. */
  lemma HolderIndex(cfg: Config, s: State, l: Lock) returns (i: nat)
    requires MonitorInv(cfg, s) && l in s.monitor && Blocked(cfg, s, s.monitor[l])
    ensures var pc := s.threads[s.monitor[l]].pc; i < pc.k && Plan(cfg, pc.call)[i] == l
  {
    var pc := s.threads[s.monitor[l]].pc;
    assert l in HeldLocks(cfg, pc);
    i :| 0 <= i < pc.k && Plan(cfg, pc.call)[..pc.k][i] == l;
  }

  lemma HoldsTieBreak(cfg: Config, s: State, u: nat)
    requires MonitorInv(cfg, s) && Blocked(cfg, s, u)
    requires s.threads[u].pc.k == 2 && Plan(cfg, s.threads[u].pc.call)[0] == TieBreak
    ensures TieBreak in s.monitor && s.monitor[TieBreak] == u
  {
    var Waiting(call, k) := s.threads[u].pc;
    assert Plan(cfg, call)[..2][0] == TieBreak;
    assert TieBreak in HeldLocks(cfg, s.threads[u].pc);
  }

  /** If the holder of a monitor that a blocked thread wants is itself blocked, it is so further up. */
  lemma HolderClimbs(cfg: Config, s: State, t: nat) returns (u: nat)
    requires MonitorInv(cfg, s) && Blocked(cfg, s, t)
    requires Blocked(cfg, s, s.monitor[Wanted(cfg, s, t)])
    ensures Blocked(cfg, s, u) && Wanted(cfg, s, u).Session? && u == s.monitor[Wanted(cfg, s, t)]
    ensures Wanted(cfg, s, t).Session? ==>
              var x := cfg.hash(Wanted(cfg, s, t).h); var y := cfg.hash(Wanted(cfg, s, u).h);
              x < y || (x == y && TieBreak in s.monitor && s.monitor[TieBreak] == u)
  {
    var l := Wanted(cfg, s, t);
    u := s.monitor[l];
    var i := HolderIndex(cfg, s, l);
    PlanRises(cfg, s.threads[u].pc.call, i, s.threads[u].pc.k);
    if s.threads[u].pc.k == 2 && Plan(cfg, s.threads[u].pc.call)[0] == TieBreak {
      HoldsTieBreak(cfg, s, u);
    }
  }

  /** A blocked thread does not hold what it wants. */
  lemma WantsAnothers(cfg: Config, s: State, t: nat)
    requires MonitorInv(cfg, s) && Blocked(cfg, s, t)
    ensures s.monitor[Wanted(cfg, s, t)] != t
  {
    var Waiting(call, k) := s.threads[t].pc;
    var l := Plan(cfg, call)[k];
    if s.monitor[l] == t {
      assert l in HeldLocks(cfg, s.threads[t].pc);
      var i :| 0 <= i < k && Plan(cfg, call)[..k][i] == l;
      PlanDistinct(cfg, call, i, k);
      assert false;
    }
  }

  predicate WantsSession(cfg: Config, s: State, t: nat) {
    Blocked(cfg, s, t) && Wanted(cfg, s, t).Session?
  }

  /** Some thread among the first n waits for a session of the highest hash. */
  lemma {:induction false} HighestWanted(cfg: Config, s: State, n: nat, t: nat) returns (m: nat)
    requires t < n <= |s.threads| && WantsSession(cfg, s, t)
    ensures m < n && WantsSession(cfg, s, m)
    ensures forall v :: 0 <= v < n && WantsSession(cfg, s, v) ==>
              cfg.hash(Wanted(cfg, s, v).h) <= cfg.hash(Wanted(cfg, s, m).h)
    decreases n
  {
    if exists v :: 0 <= v < n - 1 && WantsSession(cfg, s, v) {
      var v :| 0 <= v < n - 1 && WantsSession(cfg, s, v);
      m := HighestWanted(cfg, s, n - 1, v);
      if WantsSession(cfg, s, n - 1) && cfg.hash(Wanted(cfg, s, m).h) < cfg.hash(Wanted(cfg, s, n - 1).h) {
        m := n - 1;
      }
    } else {
      m := t;
    }
  }

  ghost predicate Highest(cfg: Config, s: State, m: nat) {
    && WantsSession(cfg, s, m)
    && forall v :: 0 <= v < |s.threads| && WantsSession(cfg, s, v) ==>
         cfg.hash(Wanted(cfg, s, v).h) <= cfg.hash(Wanted(cfg, s, m).h)
  }

  predicate Free(cfg: Config, s: State, u: nat) {
    u < |s.threads| && !s.threads[u].pc.Idle? && !Blocked(cfg, s, u)
  }

  lemma HolderWorks(cfg: Config, s: State, l: Lock)
    requires MonitorInv(cfg, s) && l in s.monitor
    ensures s.monitor[l] < |s.threads| && !s.threads[s.monitor[l]].pc.Idle?
  {
    assert l in HeldLocks(cfg, s.threads[s.monitor[l]].pc);
  }

  /** The holder of the highest wanted session is not blocked; or it holds the tie-break lock and
      wants a session of the same hash, and then that one's holder is not blocked, since only one
      thread holds the tie-break lock. */
  lemma HighestHolderMoves(cfg: Config, s: State, m: nat)
    requires MonitorInv(cfg, s) && Highest(cfg, s, m)
    ensures var u := s.monitor[Wanted(cfg, s, m)];
            || Free(cfg, s, u)
            || (Blocked(cfg, s, u) && TieBreak in s.monitor && s.monitor[TieBreak] == u
                && Free(cfg, s, s.monitor[Wanted(cfg, s, u)]))
  {
    HolderWorks(cfg, s, Wanted(cfg, s, m));
    if Blocked(cfg, s, s.monitor[Wanted(cfg, s, m)]) {
      var u := HolderClimbs(cfg, s, m);
      assert WantsSession(cfg, s, u);
      HolderWorks(cfg, s, Wanted(cfg, s, u));
      WantsAnothers(cfg, s, u);
      if Blocked(cfg, s, s.monitor[Wanted(cfg, s, u)]) {
        var w := HolderClimbs(cfg, s, u);
        assert WantsSession(cfg, s, w);
        assert false;
      }
    }
  }

  /** If some thread is blocked, some unfinished thread is not. */
  lemma SomeHolderMoves(cfg: Config, s: State, t: nat)
    requires MonitorInv(cfg, s) && Blocked(cfg, s, t)
    ensures exists v :: 0 <= v < |s.threads| && Free(cfg, s, v)
  {
    HolderWorks(cfg, s, Wanted(cfg, s, t));
    var u := s.monitor[Wanted(cfg, s, t)];
    if Blocked(cfg, s, u) {
      var u1 := HolderClimbs(cfg, s, t);
      var m := HighestWanted(cfg, s, |s.threads|, u1);
      HighestHolderMoves(cfg, s, m);
    } else {
      assert Free(cfg, s, u);
    }
  }

  /** No deadlock, for any number of threads and sessions and any hash function. */
  lemma NoDeadlock(cfg: Config, s: State, t: nat)
    requires Reachable(cfg, s) && t < |s.threads| && !s.threads[t].pc.Idle?
    ensures exists u :: 0 <= u < |s.threads| && !s.threads[u].pc.Idle? && CanGo(cfg, s, u)
  {
    ReachableInv(cfg, s);
    if Blocked(cfg, s, t) {
      SomeHolderMoves(cfg, s, t);
      var u :| 0 <= u < |s.threads| && Free(cfg, s, u);
      if !CanGo(cfg, s, u) { StuckIsBlocked(cfg, s, u); }
    } else if !CanGo(cfg, s, t) {
      StuckIsBlocked(cfg, s, t);
    }
  }

  // ----- No endless run -----

  function StageRank(stage: Stage): nat {
    match stage
    case Check => 20
    case CheckOther => 19
    case Fetch => 18
    case Enter => 17
    case Decode => 16
    case FromRaw => 15
    case Read => 14
    case ReadOther => 13
    case Write => 12
    case WriteOther => 11
    case Alloc => 10
    case Build => 9
    case Leak => 8
    case Adopt => 7
    case Convert => 6
    case Exit => 5
    case TakeState => 4
    case Clean => 3
    case Free => 2
    case Done => 1
  }

  /** Micro-steps left in a call, with room for the boxes it must free and the handle it may make. */
  function PcWeight(pc: Pc): nat {
    match pc
    case Idle => 0
    case Waiting(_, k) => if k <= 4 then 300 - k else 0
    case Running(_, stage, f) =>
      10 * StageRank(stage) + (if f.spent != 0 then 1 else 0) + (if f.box != 0 then 1 else 0)
    case Leaving(_, _, k) => if k <= 4 then k + 1 else 6
  }

  /** Steps a handle can still cause: Drop, Collect and the Cleaner's work on it. */
  function HandleWeight(h: Handle): nat {
    match h.status
    case Private(_) => 6
    case Published => 6
    case Dropped => if h.fired then 0 else 5
  }

  function CleanerWeight(c: Cleaner): nat {
    match c
    case Resting => 0
    case Sweeping(_) => 3
    case Warning(_, _) => 2
    case Freeing(_, _) => 1
  }

  function ThreadWeight(th: Thread): nat {
    400 * th.budget + PcWeight(th.pc)
  }

  function ThreadsWeight(ths: seq<Thread>): nat {
    if ths == [] then 0 else ThreadsWeight(ths[..|ths| - 1]) + ThreadWeight(ths[|ths| - 1])
  }

  function HandlesWeight(hs: seq<Handle>): nat {
    if hs == [] then 0 else HandlesWeight(hs[..|hs| - 1]) + HandleWeight(hs[|hs| - 1])
  }

  function Measure(s: State): nat {
    ThreadsWeight(s.threads) + HandlesWeight(s.handles) + CleanerWeight(s.cleaner)
  }

  lemma {:induction false} ThreadsUpdate(ths: seq<Thread>, t: nat, th: Thread)
    requires t < |ths|
    ensures ThreadsWeight(ths[t := th]) == ThreadsWeight(ths) - ThreadWeight(ths[t]) + ThreadWeight(th)
  {
    var n := |ths| - 1;
    if t < n {
      ThreadsUpdate(ths[..n], t, th);
      assert ths[t := th][..n] == ths[..n][t := th];
    } else {
      assert ths[t := th][..n] == ths[..n];
    }
  }

  lemma {:induction false} HandlesUpdate(hs: seq<Handle>, x: nat, h: Handle)
    requires x < |hs|
    ensures HandlesWeight(hs[x := h]) == HandlesWeight(hs) - HandleWeight(hs[x]) + HandleWeight(h)
  {
    var n := |hs| - 1;
    if x < n {
      HandlesUpdate(hs[..n], x, h);
      assert hs[x := h][..n] == hs[..n][x := h];
    } else {
      assert hs[x := h][..n] == hs[..n];
    }
  }

  lemma HandlesAppend(hs: seq<Handle>, h: Handle)
    ensures HandlesWeight(hs + [h]) == HandlesWeight(hs) + HandleWeight(h)
  {
    assert (hs + [h])[..|hs|] == hs;
  }

  /** The part of a step inside a call that the measure sees. */
  predicate Lighter(f: Frame, stage: Stage, e: Effect, before: Option<Handle>) {
    && PcWeight(Running(Close(0), e.stage, e.f)) + (if e.born.Some? then 6 else 0)
       < PcWeight(Running(Close(0), stage, f))
    && (e.born.Some? ==> HandleWeight(e.born.value) == 6)
    && (e.main.Some? && before.Some? ==> HandleWeight(e.main.value) <= HandleWeight(before.value))
  }

  lemma ApplyLighter(cfg: Config, s: State, t: nat, call: Call, stage: Stage, f: Frame, e: Effect)
    requires At(s, t, call, stage, f)
    requires Lighter(f, stage, e, BeforeMain(s, call))
    ensures Measure(Apply(s, t, call, e)) < Measure(s)
  {
    var s' := Apply(s, t, call, e);
    var th := s.threads[t].(pc := Running(call, e.stage, e.f));
    ThreadsUpdate(s.threads, t, th);
    var changed := if e.main.Some? && !call.New? && call.h < |s.handles|
                   then s.handles[call.h := e.main.value] else s.handles;
    if e.main.Some? && !call.New? && call.h < |s.handles| {
      HandlesUpdate(s.handles, call.h, e.main.value);
    }
    if e.born.Some? { HandlesAppend(changed, e.born.value); }
  }

  function BeforeMain(s: State, call: Call): Option<Handle> {
    if !call.New? && call.h < |s.handles| then Some(s.handles[call.h]) else None
  }

  /** Each stage belongs to some kinds of call only. */
  predicate Fits(call: Call, stage: Stage, f: Frame) {
    && (stage == Write ==> call.Use? || call.Pair?)
    && (stage == WriteOther ==> call.Pair?)
    && (stage == TakeState || stage == Clean ==> call.Close? || call.Consume?)
    && (stage == Leak ==> (call.Pair? <==> f.child.None?))
  }

  lemma StageFits(cfg: Config, s: State, t: nat, call: Call, stage: Stage, f: Frame)
    requires Here(cfg, s, t, call, stage, f)
    ensures Fits(call, stage, f)
  {
  }

  lemma EarlyLighter(cfg: Config, s: State, t: nat, call: Call, stage: Stage, f: Frame)
    requires Fits(call, stage, f) && StageRank(stage) >= 10
    ensures Lighter(f, stage, Act(cfg, s, t, call, stage, f), BeforeMain(s, call))
  {
  }

  lemma LateLighter(cfg: Config, s: State, t: nat, call: Call, stage: Stage, f: Frame)
    requires Fits(call, stage, f) && 5 < StageRank(stage) < 10
    ensures Lighter(f, stage, Act(cfg, s, t, call, stage, f), BeforeMain(s, call))
  {
  }

  lemma LastLighter(cfg: Config, s: State, t: nat, call: Call, stage: Stage, f: Frame)
    requires Fits(call, stage, f) && 1 < StageRank(stage) <= 5
    ensures Lighter(f, stage, Act(cfg, s, t, call, stage, f), BeforeMain(s, call))
  {
    match stage
    case Exit =>
    case TakeState =>
    case Clean =>
    case Free =>
  }

  lemma StepLighter(cfg: Config, s: State, t: nat)
    requires Inv(cfg, s) && Enabled(cfg, s, Step(t)) && s.threads[t].pc.Running?
    ensures Measure(Next(cfg, s, Step(t))) < Measure(s)
  {
    hide Here, LocalInv, Act, Lighter, Measure;
    var Running(call, stage, f) := s.threads[t].pc;
    HereHolds(cfg, s, t);
    if stage == Done {
      DoneChild(cfg, s, t, call, f);
      CommitLighter(cfg, s, t, call, f);
    } else {
      StageFits(cfg, s, t, call, stage, f);
      if StageRank(stage) >= 10 {
        EarlyLighter(cfg, s, t, call, stage, f);
      } else if StageRank(stage) > 5 {
        LateLighter(cfg, s, t, call, stage, f);
      } else {
        LastLighter(cfg, s, t, call, stage, f);
      }
      ApplyLighter(cfg, s, t, call, stage, f, Act(cfg, s, t, call, stage, f));
    }
  }

  lemma PlanIsShort(cfg: Config, call: Call)
    ensures |Plan(cfg, call)| <= 3
  {
  }

  lemma CommitLighter(cfg: Config, s: State, t: nat, call: Call, f: Frame)
    requires Closing(s, t, call, f)
    ensures Measure(Commit(cfg, s, t, call, f)) < Measure(s)
  {
    PlanIsShort(cfg, call);
    ThreadsUpdate(s.threads, t, s.threads[t].(pc := Leaving(call, f.out, |Plan(cfg, call)|)));
    if f.child.Some? && f.child.value < |s.handles| {
      var h := s.handles[f.child.value];
      HandlesUpdate(s.handles, f.child.value, h.(status := Published));
    }
  }

  lemma OtherLighter(cfg: Config, s: State, l: Label)
    requires Enabled(cfg, s, l) && (l.StepAt? || l.Fail? || l.Shed?)
    ensures Measure(Next(cfg, s, l)) < Measure(s)
  {
    var Running(call, stage, f) := s.threads[l.t].pc;
    match l
    case StepAt(t, a) => ApplyLighter(cfg, s, t, call, stage, f, AllocStep(cfg, s, t, call, f, a));
    case Fail(t) => ApplyLighter(cfg, s, t, call, stage, f, FailStep(stage, f));
    case Shed(t) => ApplyLighter(cfg, s, t, call, stage, f, ShedStep(s, call, f, stage));
  }

  lemma PcLighter(s: State, s': State, t: nat)
    requires t < |s.threads| && s'.handles == s.handles && s'.cleaner == s.cleaner
    requires |s'.threads| == |s.threads| && s'.threads == s.threads[t := s'.threads[t]]
    requires ThreadWeight(s'.threads[t]) < ThreadWeight(s.threads[t])
    ensures Measure(s') < Measure(s)
  {
    ThreadsUpdate(s.threads, t, s'.threads[t]);
  }

  lemma MonitorLighter(cfg: Config, s: State, t: nat)
    requires CallsInv(cfg, s) && Enabled(cfg, s, Step(t)) && !s.threads[t].pc.Running?
    ensures Measure(Next(cfg, s, Step(t))) < Measure(s)
  {
    assert CallInv(cfg, s, s.threads[t].pc);
    PlanIsShort(cfg, s.threads[t].pc.call);
    PcLighter(s, Next(cfg, s, Step(t)), t);
  }

  lemma OneHandleLighter(s: State, s': State, h: nat)
    requires h < |s.handles| == |s'.handles| && s'.threads == s.threads
    requires s'.handles == s.handles[h := s'.handles[h]]
    requires HandleWeight(s'.handles[h]) + CleanerWeight(s'.cleaner)
             < HandleWeight(s.handles[h]) + CleanerWeight(s.cleaner)
    ensures Measure(s') < Measure(s)
  {
    HandlesUpdate(s.handles, h, s'.handles[h]);
  }

  lemma CleanerLighter(cfg: Config, s: State, l: Label)
    requires CleanerInv(s) && Enabled(cfg, s, l) && (l.Drop? || l.Collect? || l.Sweep?)
    ensures Measure(Next(cfg, s, l)) < Measure(s)
  {
    OneHandleLighter(s, Next(cfg, s, l), if l.Sweep? then s.cleaner.h else l.h);
  }

  /** Every step uses up some of a bounded budget. */
  lemma NextLighter(cfg: Config, s: State, l: Label)
    requires Inv(cfg, s) && Enabled(cfg, s, l)
    ensures Measure(Next(cfg, s, l)) < Measure(s)
  {
    match l
    case Begin(t, call) => ThreadsUpdate(s.threads, t, Next(cfg, s, l).threads[t]);
    case Step(t) => if s.threads[t].pc.Running? { StepLighter(cfg, s, t); } else { MonitorLighter(cfg, s, t); }
    case StepAt(_, _) => OtherLighter(cfg, s, l);
    case Fail(_) => OtherLighter(cfg, s, l);
    case Shed(_) => OtherLighter(cfg, s, l);
    case _ => CleanerLighter(cfg, s, l);
  }

  /** Termination: the length of a run is bounded by its start state. */
  lemma {:induction false} RunsAreBounded(cfg: Config, s: State, ls: seq<Label>)
    requires Inv(cfg, s) && Possible(cfg, s, ls)
    ensures |ls| + Measure(After(cfg, s, ls)) <= Measure(s)
    decreases |ls|
  {
    if ls != [] {
      NextLighter(cfg, s, ls[0]);
      NextKeeps(cfg, s, ls[0]);
      RunsAreBounded(cfg, Next(cfg, s, ls[0]), ls[1..]);
    }
  }

  // ----- Maximal runs -----

  ghost predicate Finished(cfg: Config, s: State) {
    forall l :: !Enabled(cfg, s, l)
  }

  lemma FinishedThread(cfg: Config, s: State, t: nat)
    requires Reachable(cfg, s) && Finished(cfg, s) && t < |s.threads|
    ensures s.threads[t].pc.Idle? && s.threads[t].budget == 0
  {
    if !s.threads[t].pc.Idle? {
      NoDeadlock(cfg, s, t);
    }
    assert !Enabled(cfg, s, Begin(t, New(Account, 0)));
  }

  lemma IdleHoldNothing(cfg: Config, s: State)
    requires MonitorInv(cfg, s) && forall t :: 0 <= t < |s.threads| ==> s.threads[t].pc.Idle?
    ensures s.monitor == map[]
  {
    assert forall t :: 0 <= t < |s.threads| ==> HeldLocks(cfg, s.threads[t].pc) == [];
  }

  lemma FinishedThreads(cfg: Config, s: State)
    requires Reachable(cfg, s) && Finished(cfg, s)
    ensures forall t :: 0 <= t < |s.threads| ==> s.threads[t].pc.Idle? && s.threads[t].budget == 0
    ensures s.monitor == map[]
  {
    forall t | 0 <= t < |s.threads| ensures s.threads[t].pc.Idle? && s.threads[t].budget == 0 {
      FinishedThread(cfg, s, t);
    }
    ReachableInv(cfg, s);
    IdleHoldNothing(cfg, s);
  }

  lemma FinishedHandles(cfg: Config, s: State)
    requires Reachable(cfg, s) && Finished(cfg, s)
    ensures Quiescent(s)
  {
    hide LocalInv, LedgerInv, MonitorInv, CallsInv, ThreadsInv, SpecInv;
    ReachableInv(cfg, s);
    FinishedThreads(cfg, s);
    assert !Enabled(cfg, s, Sweep);
    forall h | 0 <= h < |s.handles| ensures s.handles[h].ptr == 0 {
      assert HandleInv(cfg, s, h, s.handles[h]) && FlagsInv(s.cleaner, h, s.handles[h]);
      assert !Enabled(cfg, s, Drop(h)) && !Enabled(cfg, s, Collect(h));
    }
  }

  /** Every maximal run completes every call, leaves every monitor free and every handle empty, and leaves on the native
      heap, one for one, the Ecies boxes of the calls that failed before Box::from_raw. */
  lemma MaximalRuns(cfg: Config, s: State)
    requires Reachable(cfg, s) && Finished(cfg, s)
    ensures forall t :: 0 <= t < |s.threads| ==> s.threads[t].pc.Idle? && s.threads[t].budget == 0
    ensures s.monitor == map[] && Quiescent(s)
    ensures forall a :: a in s.heap ==> s.heap[a].tag == Ecies && exists h :: LostIn(s.log, h) && LeakOf(s, h) == a
    ensures forall h :: LostIn(s.log, h) ==> LeakOf(s, h) in s.heap
    ensures forall h, g :: LostIn(s.log, h) && LostIn(s.log, g) && h != g ==> LeakOf(s, h) != LeakOf(s, g)
  {
    FinishedThreads(cfg, s);
    FinishedHandles(cfg, s);
    ResidueIsExact(cfg, s);
  }

  /** Every run can be continued to its end. */
  lemma {:induction false} EveryRunEnds(cfg: Config, s: State) returns (ls: seq<Label>)
    requires Inv(cfg, s)
    ensures Possible(cfg, s, ls) && Finished(cfg, After(cfg, s, ls))
    decreases Measure(s)
  {
    if Finished(cfg, s) {
      ls := [];
    } else {
      var l :| Enabled(cfg, s, l);
      NextLighter(cfg, s, l);
      NextKeeps(cfg, s, l);
      var rest := EveryRunEnds(cfg, Next(cfg, s, l));
      ls := [l] + rest;
      assert ls[1..] == rest;
    }
  }
}
