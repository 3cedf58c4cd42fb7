/** How calls and whole runs end: balance at every exit, what stays on the native heap,
    who is warned about, and consumption on the concurrent machine. */
module Endings {
  import opened Values
  import opened Atomic
  import opened Machine
  import opened Invariant
  import opened Interference
  import opened Steps
  import opened Preservation
  import opened Commits
  import opened Reachability
  import opened Histories
  import opened Mishaps
  import opened Answers
  import opened Ownership

  // ----- One call -----

  /** At the end of a call, whichever conversion, operation or panic ended it: nothing is left in
      its hands; a new box exists exactly if a handle was made, and that handle owns it. */
  lemma BalancedEnd(cfg: Config, s: State, t: nat)
    requires Reachable(cfg, s) && t < |s.threads| && s.threads[t].pc.Running? && s.threads[t].pc.stage == Done
    ensures var f := s.threads[t].pc.f;
            f.spent == 0 && f.box == 0 && (f.child.Some? <==> f.out.Made?)
    ensures var f := s.threads[t].pc.f;
            f.child.Some? ==>
              && f.child.value < |s.handles| && s.handles[f.child.value].status == Private(t)
              && Owns(s, OfHandle(f.child.value), s.handles[f.child.value].ptr)
    ensures forall a :: !Owns(s, OfSpent(t), a) && !Owns(s, OfBox(t), a)
  {
    ReachableInv(cfg, s);
    HereHolds(cfg, s, t);
    var f := s.threads[t].pc.f;
    DoneChild(cfg, s, t, s.threads[t].pc.call, f);
    if f.child.Some? {
      PrivateCell(cfg, s, f.child.value);
    }
  }

  lemma ConsumeEnded(cfg: Config, s: State, t: nat, call: Call, f: Frame)
    requires Here(cfg, s, t, call, Done, f) && call.Consume? && f.out !in {Closed, Rejected}
    ensures Invalidated(f, ViewOf(cfg, s, t, call, f))
    ensures f.out.Lost? <==>
            s.handles[call.h].tag == Ecies && (!cfg.native.decodes(call.op) || f.out == Lost(true))
  {
    hide UseInv, PairInv, CloseInv, NewInv;
  }

  /** A consuming call that entered native code ends with the handle emptied. Its input box is
      released unless Box::from_raw was never reached: the handle is an Ecies, and the argument does
      not decode or a JNI conversion failed. */
  lemma ConsumedInputIsGone(cfg: Config, s: State, t: nat)
    requires Reachable(cfg, s) && t < |s.threads| && s.threads[t].pc.Running? && s.threads[t].pc.stage == Done
    requires s.threads[t].pc.call.Consume? && s.threads[t].pc.f.out !in {Closed, Rejected}
    ensures var Running(call, _, f) := s.threads[t].pc; var h := call.h;
            && h < |s.handles| && s.handles[h].ptr == 0
            && (forall a :: !Owns(s, OfHandle(h), a))
            && ((exists a :: Owns(s, Orphan(h), a)) <==>
                  s.handles[h].tag == Ecies && (!cfg.native.decodes(call.op) || f.out == Lost(true)))
  {
    hide Inv, Here, LocalInv, Residue, OwnedCell, Lent;
    ReachableInv(cfg, s);
    HereHolds(cfg, s, t);
    var Running(call, stage, f) := s.threads[t].pc;
    ConsumeKnown(cfg, s, t, call, stage, f);
    ConsumeEnded(cfg, s, t, call, f);
    var v := ViewOf(cfg, s, t, call, f);
    if Leaked(v.a.h) {
      assert Owns(s, Orphan(call.h), s.handles[call.h].fate.leak);
    }
  }

  lemma ConsumeKnown(cfg: Config, s: State, t: nat, call: Call, stage: Stage, f: Frame)
    requires Here(cfg, s, t, call, stage, f) && call.Consume?
    ensures call.h < |s.handles|
  {
    hide LocalInv;
  }

  /** A handle is in its consuming native call only if no earlier call got there. */
  lemma EnteredOnce(cfg: Config, s: State, t: nat, i: nat)
    requires Reachable(cfg, s) && t < |s.threads| && s.threads[t].pc.Running? && s.threads[t].pc.call.Consume?
    requires s.threads[t].pc.stage !in {Check, Done} && i < |s.log|
    ensures !Enters(s.log[i], s.threads[t].pc.call.h)
  {
    ReachableInv(cfg, s);
    HereHolds(cfg, s, t);
    var Running(call, stage, f) := s.threads[t].pc;
    InConsume(cfg, s, t, call, stage, f);
    OpenNeverEntered(cfg, s.log, i, call.h);
  }

  lemma InConsume(cfg: Config, s: State, t: nat, call: Call, stage: Stage, f: Frame)
    requires Here(cfg, s, t, call, stage, f) && call.Consume? && stage !in {Check, Done}
    ensures call.h in Spec(cfg, s) && Spec(cfg, s)[call.h].body.Open?
  {
  }

  /** Consumption is final and unique in every run: later calls on the handle, also those that
      were already queued on its monitor, do not consume again and are turned away. A call whose own
      argument check does not throw gets IllegalStateException: here it is made by thread u, between
      calls in state s and then spared such a check. */
  lemma ConsumedOnce(cfg: Config, s: State, ls: seq<Label>, u: nat, h: nat, i: nat, j: nat)
    requires Reachable(cfg, s) && Possible(cfg, s, ls)
    requires var log := After(cfg, s, ls).log; i < j < |log| && Enters(log[i], h) && Concerns(log[j], h)
    ensures var e := After(cfg, s, ls).log[j];
            && TurnedAway(e) && !Enters(e, h)
            && (e.t == u < |s.threads| && !s.threads[u].pc.Running? && |s.log| <= j
                && Spared(cfg, s, ls, u, BadArgument)
                ==> e.out == if e.call.Close? then Returned(0) else Closed)
  {
    hide Inv, Next, Enabled, Spared;
    ReachableGoesOn(cfg, s, ls);
    var s' := After(cfg, s, ls);
    ReachableReplays(cfg, s');
    ConsumptionIsFinal(cfg, s'.log, i, j, h);
    if s'.log[j].t == u < |s.threads| && !s.threads[u].pc.Running? && |s.log| <= j
      && Spared(cfg, s, ls, u, BadArgument)
    {
      SparedNeverReports(cfg, s, ls, u, BadArgument, j);
    }
  }

  /** A handle outside every call has run its Cleanable exactly if it is empty, so the Cleaner never
      starts on one that was closed or consumed. */
  lemma EmptyIffCleaned(cfg: Config, s: State, h: nat)
    requires Reachable(cfg, s) && h < |s.handles| && !s.handles[h].status.Private? && !InRun(s, h)
    requires s.cleaner != Sweeping(h)
    ensures s.handles[h].ptr == 0 <==> s.handles[h].fired
  {
    ReachableInv(cfg, s);
    assert HandleInv(cfg, s, h, s.handles[h]) && FlagsInv(s.cleaner, h, s.handles[h]);
  }

  // ----- Warnings -----

  predicate CollectedIn(log: seq<Event>, h: nat) {
    CollectEvent(h) in log
  }

  /** The Cleaner's releases are exactly the collection events of the history. */
  ghost predicate CollectionsLogged(s: State) {
    forall h :: 0 <= h < |s.handles| ==> (s.handles[h].fate == ByCleaner <==> CollectedIn(s.log, h))
  }

  /** No handle's fate becomes or stops being ByCleaner, and no collection event is added. */
  ghost predicate NoneCollected(s: State, s': State) {
    && |s.handles| <= |s'.handles|
    && (forall h :: 0 <= h < |s'.handles| ==>
          (s'.handles[h].fate == ByCleaner <==> h < |s.handles| && s.handles[h].fate == ByCleaner))
    && (forall h: nat :: CollectedIn(s'.log, h) <==> CollectedIn(s.log, h))
  }

  lemma NoneCollectedKeeps(cfg: Config, s: State, s': State)
    requires Inv(cfg, s) && CollectionsLogged(s) && NoneCollected(s, s')
    ensures CollectionsLogged(s')
  {
    forall h | |s.handles| <= h < |s'.handles| ensures !CollectedIn(s.log, h) {
      UnknownNotCollected(cfg, s, h);
    }
  }

  lemma UnknownNotCollected(cfg: Config, s: State, h: nat)
    requires Inv(cfg, s) && h >= |s.handles|
    ensures !CollectedIn(s.log, h)
  {
    assert h !in Spec(cfg, s);
    NeverCollected(cfg, s.log, h);
  }

  lemma {:induction false} NeverCollected(cfg: Config, log: seq<Event>, h: nat)
    requires Replay(cfg, log).Some? && h !in Replay(cfg, log).value
    ensures !CollectedIn(log, h)
  {
    if log != [] {
      var n := |log| - 1;
      assert log == log[..n] + [log[n]];
      StaysInTable(cfg, Replay(cfg, log[..n]).value, log[n], h);
      NeverCollected(cfg, log[..n], h);
    }
  }

  lemma StaysInTable(cfg: Config, a: Table, e: Event, h: nat)
    requires Happen(cfg, a, e).Some? && h !in Happen(cfg, a, e).value
    ensures h !in a && e != CollectEvent(h)
  {
  }

  lemma CallCollectsNone(cfg: Config, s: State, t: nat, call: Call, stage: Stage, f: Frame, e: Effect)
    requires Inv(cfg, s) && At(s, t, call, stage, f) && EffectOK(cfg, s, t, call, f, e)
    ensures NoneCollected(s, Apply(s, t, call, e))
  {
    hide LocalInv, LedgerInv, MonitorInv, ThreadsInv, HandlesInv, SpecInv, CleanerInv, CellsOK, MineClaimed;
    assert CallInv(cfg, s, s.threads[t].pc);
    var s' := Apply(s, t, call, e);
    forall h | 0 <= h < |s'.handles|
      ensures s'.handles[h].fate == ByCleaner <==> h < |s.handles| && s.handles[h].fate == ByCleaner
    {
      if h < |s.handles| { assert FlagsInv(s.cleaner, h, s.handles[h]); }
    }
  }

  lemma InCallCollectsNone(cfg: Config, s: State, l: Label)
    requires Inv(cfg, s) && Enabled(cfg, s, l)
    requires l.StepAt? || l.Fail? || l.Shed?
             || (l.Step? && s.threads[l.t].pc.Running? && s.threads[l.t].pc.stage != Done)
    ensures NoneCollected(s, Next(cfg, s, l))
  {
    var Running(call, stage, f) := s.threads[l.t].pc;
    HereHolds(cfg, s, l.t);
    match l
    case Step(t) =>
      CallGoes(cfg, s, t, call, stage, f);
      CallCollectsNone(cfg, s, t, call, stage, f, Act(cfg, s, t, call, stage, f));
    case StepAt(t, a) =>
      CallAllocates(cfg, s, t, call, f, a);
      CallCollectsNone(cfg, s, t, call, stage, f, AllocStep(cfg, s, t, call, f, a));
    case Fail(t) =>
      CallFails(cfg, s, t, call, stage, f);
      CallCollectsNone(cfg, s, t, call, stage, f, FailStep(stage, f));
    case Shed(t) =>
      ConsumeShed(cfg, s, t, call, stage, f);
      CallCollectsNone(cfg, s, t, call, stage, f, ShedStep(s, call, f, stage));
  }

  lemma CommitCollectsNone(cfg: Config, s: State, t: nat, call: Call, f: Frame)
    requires t < |s.threads|
    ensures NoneCollected(s, Commit(cfg, s, t, call, f))
  {
  }

  lemma SweepLogs(cfg: Config, s: State)
    requires CollectionsLogged(s) && Enabled(cfg, s, Sweep)
    ensures CollectionsLogged(Next(cfg, s, Sweep))
  {
    var s' := Next(cfg, s, Sweep);
    forall h | 0 <= h < |s'.handles| ensures s'.handles[h].fate == ByCleaner <==> CollectedIn(s'.log, h) {
      assert s.handles[h].fate == ByCleaner <==> CollectedIn(s.log, h);
    }
  }

  lemma CollectionsKept(cfg: Config, s: State, l: Label)
    requires Inv(cfg, s) && Enabled(cfg, s, l) && CollectionsLogged(s)
    ensures CollectionsLogged(Next(cfg, s, l))
  {
    hide Inv, CollectionsLogged, NoneCollected;
    if l.Sweep? {
      SweepLogs(cfg, s);
    } else {
      if l.Step? && s.threads[l.t].pc.Running? && s.threads[l.t].pc.stage == Done {
        CommitCollectsNone(cfg, s, l.t, s.threads[l.t].pc.call, s.threads[l.t].pc.f);
      } else if l.StepAt? || l.Fail? || l.Shed? || (l.Step? && s.threads[l.t].pc.Running?) {
        InCallCollectsNone(cfg, s, l);
      }
      NoneCollectedKeeps(cfg, s, Next(cfg, s, l));
    }
  }

  lemma {:induction false} RunLogsCollections(cfg: Config, s: State, ls: seq<Label>)
    requires Inv(cfg, s) && Possible(cfg, s, ls) && CollectionsLogged(s)
    ensures CollectionsLogged(After(cfg, s, ls))
    decreases |ls|
  {
    if ls != [] {
      CollectionsKept(cfg, s, ls[0]);
      NextKeeps(cfg, s, ls[0]);
      RunLogsCollections(cfg, Next(cfg, s, ls[0]), ls[1..]);
    }
  }

  lemma ReachableLogsCollections(cfg: Config, s: State)
    requires Reachable(cfg, s)
    ensures CollectionsLogged(s)
  {
    var s0, ls :| Init(s0) && Possible(cfg, s0, ls) && After(cfg, s0, ls) == s;
    InitInv(cfg, s0);
    RunLogsCollections(cfg, s0, ls);
  }

  /** Warning exactness: outside the instant between the Cleaner's State.take and its log call, the
      leak warning has been logged for a handle exactly if the Cleaner released it. */
  lemma WarnedIffCollected(cfg: Config, s: State, h: nat)
    requires Reachable(cfg, s) && h < |s.handles| && !(s.cleaner.Warning? && s.cleaner.h == h)
    ensures s.handles[h].warned <==> CollectedIn(s.log, h)
    ensures s.handles[h].warned ==> s.handles[h].status == Dropped
  {
    ReachableInv(cfg, s);
    ReachableLogsCollections(cfg, s);
    assert FlagsInv(s.cleaner, h, s.handles[h]);
  }

  /** Never for a handle that was closed or consumed, before or after, although both of those
      paths run the same leak guard. */
  lemma ReleasedIsNotWarned(cfg: Config, s: State, h: nat, i: nat)
    requires Reachable(cfg, s) && h < |s.handles| && i < |s.log|
    requires Enters(s.log[i], h) || Closes(cfg, s.log, i, h)
    ensures !s.handles[h].warned && !CollectedIn(s.log, h)
  {
    ReachableInv(cfg, s);
    ReachableLogsCollections(cfg, s);
    assert FlagsInv(s.cleaner, h, s.handles[h]);
    if CollectedIn(s.log, h) {
      var k :| 0 <= k < |s.log| && s.log[k] == CollectEvent(h);
      ReleasedOnce(cfg, s.log, i, k, h);
      assert false;
    }
  }

  // ----- The residue at quiescence -----

  ghost predicate Quiescent(s: State) {
    && (forall t :: 0 <= t < |s.threads| ==> s.threads[t].pc.Idle?)
    && s.cleaner == Resting
    && (forall h :: 0 <= h < |s.handles| ==> s.handles[h].ptr == 0)
  }

  function LeakOf(s: State, h: nat): Addr {
    if h < |s.handles| && s.handles[h].fate.ByConsume? then s.handles[h].fate.leak else 0
  }

  /** A running call that finds a handle shut has it in order. */
  lemma BusyShut(cfg: Config, s: State, t: nat, call: Call, stage: Stage, f: Frame, h: nat)
    requires Here(cfg, s, t, call, stage, f) && h in CallHandles(call) && IsShut(Spec(cfg, s), h)
    ensures Settled(HandleView(cfg, s, h))
  {
    match call
    case Use(_, _, _) =>
    case Consume(_, _) =>
    case Pair(_, _, _, _) => PairShut(cfg, s, t, call, stage, f, h);
    case Close(_) =>
  }

  lemma PairShut(cfg: Config, s: State, t: nat, call: Call, stage: Stage, f: Frame, h: nat)
    requires Here(cfg, s, t, call, stage, f) && call.Pair? && h in CallHandles(call) && IsShut(Spec(cfg, s), h)
    ensures Settled(HandleView(cfg, s, h))
  {
    hide UseInv, ConsumeInv, CloseInv, NewInv;
    assert h == FirstOf(call) || h == SecondOf(call);
  }

  /** A handle that has been closed or consumed in the history is empty, also while later calls on
      it are under way. */
  lemma ShutIsSettled(cfg: Config, s: State, h: nat)
    requires Inv(cfg, s) && IsShut(Spec(cfg, s), h)
    ensures h < |s.handles| && !s.handles[h].status.Private? && Settled(HandleView(cfg, s, h))
  {
    hide LocalInv, LedgerInv, AllFlags, CleanerInv, Settled;
    assert HandleInv(cfg, s, h, s.handles[h]);
    if InRun(s, h) {
      var t := s.monitor[Session(h)];
      assert Session(h) in HeldLocks(cfg, s.threads[t].pc);
      PlanCovers(cfg, s.threads[t].pc.call, h);
      HereHolds(cfg, s, t);
      BusyShut(cfg, s, t, s.threads[t].pc.call, s.threads[t].pc.stage, s.threads[t].pc.f, h);
    }
  }

  lemma OrphanOwns(s: State, h: nat, a: Addr)
    ensures Owns(s, Orphan(h), a) <==> a != 0 && LeakOf(s, h) == a
  {
  }

  /** A lost value keeps its Ecies box in every reachable state: nothing ever releases it. */
  lemma LostHasBox(cfg: Config, s: State, h: nat)
    requires Reachable(cfg, s) && LostIn(s.log, h)
    ensures Owns(s, Orphan(h), LeakOf(s, h)) && LiveAs(s.heap, LeakOf(s, h), Ecies)
    ensures h < |s.handles| && s.handles[h].tag == Ecies && s.handles[h].ptr == 0
  {
    ReachableInv(cfg, s);
    LeakedIffLost(cfg, s.log, h);
    assert LeakShown(Spec(cfg, s), h);
    ShutIsSettled(cfg, s, h);
    assert Residue(HandleView(cfg, s, h));
  }

  /** And between calls no other handle has an orphaned box. */
  lemma OrphanIsLost(cfg: Config, s: State, h: nat)
    requires Inv(cfg, s) && h < |s.handles| && !InRun(s, h) && LeakOf(s, h) != 0
    ensures LostIn(s.log, h)
  {
    assert HandleInv(cfg, s, h, s.handles[h]) && FlagsInv(s.cleaner, h, s.handles[h]);
    LeakedIffLost(cfg, s.log, h);
    assert !s.handles[h].status.Private? by {
      if s.handles[h].status.Private? {
        PrivateCell(cfg, s, h);
        assert false;
      }
    }
    assert Settled(HandleView(cfg, s, h));
    assert LeakShown(Spec(cfg, s), h);
  }

  /** Exact residue: the live boxes are, one for one, the Ecies boxes of the calls that failed
      before Box::from_raw. In particular no Sas box is ever left. */
  lemma ResidueIsExact(cfg: Config, s: State)
    requires Reachable(cfg, s) && Quiescent(s)
    ensures forall a :: a in s.heap ==> s.heap[a].tag == Ecies && exists h :: LostIn(s.log, h) && LeakOf(s, h) == a
    ensures forall h :: LostIn(s.log, h) ==> LeakOf(s, h) in s.heap
    ensures forall h, g :: LostIn(s.log, h) && LostIn(s.log, g) && h != g ==> LeakOf(s, h) != LeakOf(s, g)
  {
    hide Owns, Quiescent;
    forall h: nat | LostIn(s.log, h)
      ensures LeakOf(s, h) in s.heap && Owns(s, Orphan(h), LeakOf(s, h))
    {
      LostHasBox(cfg, s, h);
    }
    forall h: nat, g: nat | LostIn(s.log, h) && LostIn(s.log, g) && h != g ensures LeakOf(s, h) != LeakOf(s, g) {
      LostApart(cfg, s, h, g);
    }
    forall a | a in s.heap
      ensures s.heap[a].tag == Ecies && exists h :: LostIn(s.log, h) && LeakOf(s, h) == a
    {
      OrphanBehind(cfg, s, a);
    }
  }

  lemma LostApart(cfg: Config, s: State, h: nat, g: nat)
    requires Reachable(cfg, s) && LostIn(s.log, h) && LostIn(s.log, g) && h != g
    ensures LeakOf(s, h) != LeakOf(s, g)
  {
    hide Owns;
    LostHasBox(cfg, s, h);
    LostHasBox(cfg, s, g);
    EveryBoxHasOneOwner(cfg, s, LeakOf(s, h));
    assert Orphan(h) != Orphan(g);
  }

  lemma OrphanBehind(cfg: Config, s: State, a: Addr)
    requires Reachable(cfg, s) && Quiescent(s) && a in s.heap
    ensures s.heap[a].tag == Ecies && exists h :: LostIn(s.log, h) && LeakOf(s, h) == a
  {
    ReachableInv(cfg, s);
    assert Claimed(s, a, s.ledger[a]);
    var h := s.ledger[a].h;
    assert LeakOf(s, h) == a;
    OrphanIsLost(cfg, s, h);
    LostHasBox(cfg, s, h);
  }

  /** Conservation at any quiet moment: the live boxes are those of the open handles and the residue. */
  lemma QuietHeap(cfg: Config, s: State, a: Addr)
    requires Reachable(cfg, s) && s.cleaner == Resting && forall t :: 0 <= t < |s.threads| ==> s.threads[t].pc.Idle?
    ensures a in s.heap <==>
              a != 0 && exists h :: 0 <= h < |s.handles| && (s.handles[h].ptr == a || LeakOf(s, h) == a)
    ensures forall h, g :: 0 <= h < g < |s.handles| && s.handles[h].ptr == s.handles[g].ptr == a ==> a == 0
  {
    ReachableInv(cfg, s);
    forall h: nat | h < |s.handles| ensures s.handles[h].ptr == a && a != 0 ==> Owns(s, OfHandle(h), a) {
      assert HandleInv(cfg, s, h, s.handles[h]);
    }
    EveryBoxHasOneOwner(cfg, s, a);
    forall h: nat | h < |s.handles| ensures LeakOf(s, h) == a && a != 0 ==> Owns(s, Orphan(h), a) {
    }
    if a in s.heap {
      var o :| Owns(s, o, a);
      assert o.OfHandle? || o.Orphan?;
      assert o.h < |s.handles|;
    }
  }
}
