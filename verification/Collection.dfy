/** The last reference to a handle disappears, and the Cleaner releases what was never closed. */
module Collection {
  import opened Values
  import opened Atomic
  import opened Machine
  import opened Invariant
  import opened Interference

  /** Only handle h, its own box and the Cleaner's box change; no call has h in hand. */
  ghost predicate Around(cfg: Config, s: State, s': State, h: nat) {
    && s'.threads == s.threads && s'.monitor == s.monitor && |s'.handles| == |s.handles| && h < |s.handles|
    && s'.handles == s.handles[h := s'.handles[h]]
    && !s.handles[h].status.Private? && !s'.handles[h].status.Private?
    && (forall t :: 0 <= t < |s.threads| ==> !Mentions(s.threads[t].pc, h))
    && (forall o, a :: o != OfHandle(h) && o != OfCleaner ==> OwnedCell(s', o, a) == OwnedCell(s, o, a))
    && (forall x: nat :: x in Spec(cfg, s') <==> x in Spec(cfg, s))
    && (forall x: nat :: x != h && x in Spec(cfg, s) ==> Spec(cfg, s')[x] == Spec(cfg, s)[x])
  }

  lemma AroundView(cfg: Config, s: State, s': State, h: nat, x: nat)
    requires Around(cfg, s, s', h) && x < |s.handles| && x != h
    ensures HandleView(cfg, s', x) == HandleView(cfg, s, x)
  {
  }

  lemma AroundThread(cfg: Config, s: State, s': State, h: nat, u: nat)
    requires Inv(cfg, s) && Around(cfg, s, s', h) && u < |s.threads| && s.threads[u].pc.Running?
    ensures ThreadInv(cfg, s', u, s.threads[u].pc)
  {
    hide LocalInv, LedgerInv, MonitorInv, HandlesInv, AllFlags, SpecInv, Around;
    var Running(call, stage, f) := s.threads[u].pc;
    assert ThreadInv(cfg, s, u, s.threads[u].pc) && CallInv(cfg, s, s.threads[u].pc);
    AroundThreadView(cfg, s, s', h, u);
    LocalInvDepends(cfg, u, call, stage, f, ViewOf(cfg, s, u, call, f), ViewOf(cfg, s', u, call, f));
  }

  lemma AroundThreadView(cfg: Config, s: State, s': State, h: nat, u: nat)
    requires Inv(cfg, s) && Around(cfg, s, s', h) && u < |s.threads| && s.threads[u].pc.Running?
    ensures var pc := s.threads[u].pc;
            var v := ViewOf(cfg, s, u, pc.call, pc.f); var w := ViewOf(cfg, s', u, pc.call, pc.f);
            SameForCall(pc.call, pc.f, v, w)
  {
    var pc := s.threads[u].pc;
    assert CallInv(cfg, s, pc);
    forall x | x in CallHandles(pc.call) || pc.f.child == Some(x)
      ensures HandleView(cfg, s', x) == HandleView(cfg, s, x)
    {
      if x in CallHandles(pc.call) {
        CallHandlesKnown(s, pc.call, x);
        assert Mentions(pc, x);
      } else {
        ChildPrivate(cfg, s, u);
      }
      AroundView(cfg, s, s', h, x);
    }
    assert !pc.call.New? ==> FirstOf(pc.call) in CallHandles(pc.call) && SecondOf(pc.call) in CallHandles(pc.call);
  }

  lemma AroundCalls(cfg: Config, s: State, s': State, h: nat)
    requires Around(cfg, s, s', h)
    requires CallsInv(cfg, s)
    ensures CallsInv(cfg, s')
  {
    forall u | 0 <= u < |s'.threads| ensures CallInv(cfg, s', s'.threads[u].pc) {
      assert CallInv(cfg, s, s.threads[u].pc) && !Mentions(s.threads[u].pc, h);
    }
  }

  lemma AroundKeeps(cfg: Config, s: State, s': State, h: nat)
    requires Inv(cfg, s) && Around(cfg, s, s', h)
    requires !s'.fault && LedgerInv(s') && CleanerInv(s') && SpecInv(cfg, s')
    requires Settled(HandleView(cfg, s', h))
    requires AllFlags(s')
    ensures Inv(cfg, s')
  {
    AroundCalls(cfg, s, s', h);
    AroundMonitors(cfg, s, s');
    AroundThreads(cfg, s, s', h);
    AroundHandles(cfg, s, s', h);
  }

  lemma AroundMonitors(cfg: Config, s: State, s': State)
    requires MonitorInv(cfg, s) && s'.threads == s.threads && s'.monitor == s.monitor
    ensures MonitorInv(cfg, s')
  {
  }

  lemma AroundThreads(cfg: Config, s: State, s': State, h: nat)
    requires Inv(cfg, s) && Around(cfg, s, s', h)
    ensures ThreadsInv(cfg, s')
  {
    forall u | 0 <= u < |s'.threads| ensures ThreadInv(cfg, s', u, s'.threads[u].pc) {
      if s.threads[u].pc.Running? { AroundThread(cfg, s, s', h, u); }
    }
  }

  lemma AroundHandles(cfg: Config, s: State, s': State, h: nat)
    requires Inv(cfg, s) && Around(cfg, s, s', h) && Settled(HandleView(cfg, s', h))
    ensures HandlesInv(cfg, s')
  {
    forall x | 0 <= x < |s'.handles| ensures HandleInv(cfg, s', x, s'.handles[x]) {
      assert HandleInv(cfg, s, x, s.handles[x]);
      if x != h {
        AroundView(cfg, s, s', h, x);
        assert InRun(s', x) == InRun(s, x);
      }
    }
  }

  /** A handle no call mentions is settled. */
  lemma UnmentionedSettled(cfg: Config, s: State, h: nat)
    requires Inv(cfg, s) && h < |s.handles| && !s.handles[h].status.Private?
    requires forall t :: 0 <= t < |s.threads| ==> !Mentions(s.threads[t].pc, h)
    ensures Settled(HandleView(cfg, s, h))
  {
    assert HandleInv(cfg, s, h, s.handles[h]);
    if InRun(s, h) {
      var t := s.monitor[Session(h)];
      assert Session(h) in HeldLocks(cfg, s.threads[t].pc);
      PlanCovers(cfg, s.threads[t].pc.call, h);
      assert Mentions(s.threads[t].pc, h);
      assert false;
    }
  }

  lemma DroppedUnmentioned(cfg: Config, s: State, h: nat)
    requires Inv(cfg, s) && h < |s.handles| && s.handles[h].status == Dropped
    ensures forall t :: 0 <= t < |s.threads| ==> !Mentions(s.threads[t].pc, h)
  {
    forall t | 0 <= t < |s.threads| ensures !Mentions(s.threads[t].pc, h) {
      assert CallInv(cfg, s, s.threads[t].pc);
      if Mentions(s.threads[t].pc, h) {
        CallHandlesKnown(s, s.threads[t].pc.call, h);
        assert false;
      }
    }
  }

  lemma DropKeeps(cfg: Config, s: State, h: nat)
    requires Inv(cfg, s) && Enabled(cfg, s, Drop(h))
    ensures Inv(cfg, Next(cfg, s, Drop(h)))
  {
    hide LocalInv, MonitorInv, ThreadsInv, CallsInv, HandlesInv, AllFlags, CleanerInv, LedgerInv;
    var s' := Next(cfg, s, Drop(h));
    UnmentionedSettled(cfg, s, h);
    DropRecords(cfg, s, h);
    assert Settled(HandleView(cfg, s', h));
    AroundKeeps(cfg, s, s', h);
  }

  lemma DropRecords(cfg: Config, s: State, h: nat)
    requires Inv(cfg, s) && Enabled(cfg, s, Drop(h))
    ensures var s' := Next(cfg, s, Drop(h));
            && LedgerInv(s') && CleanerInv(s') && SpecInv(cfg, s')
            && AllFlags(s')
  {
    hide LocalInv, MonitorInv, ThreadsInv, CallsInv, HandlesInv;
    var s' := Next(cfg, s, Drop(h));
    assert Spec(cfg, s') == Spec(cfg, s);
    forall a | a in s'.ledger ensures Claimed(s', a, s'.ledger[a]) {
      assert Claimed(s, a, s.ledger[a]);
    }
    forall x | 0 <= x < |s'.handles| ensures FlagsInv(s'.cleaner, x, s'.handles[x]) {
      assert FlagsInv(s.cleaner, x, s.handles[x]);
    }
  }

  lemma CollectKeeps(cfg: Config, s: State, h: nat)
    requires Inv(cfg, s) && Enabled(cfg, s, Collect(h))
    ensures Inv(cfg, Next(cfg, s, Collect(h)))
  {
    hide LocalInv, MonitorInv, ThreadsInv, CallsInv, HandlesInv, AllFlags, CleanerInv, LedgerInv;
    var s' := Next(cfg, s, Collect(h));
    DroppedUnmentioned(cfg, s, h);
    UnmentionedSettled(cfg, s, h);
    CollectRecords(cfg, s, h);
    assert Settled(HandleView(cfg, s', h));
    AroundKeeps(cfg, s, s', h);
  }

  lemma CollectRecords(cfg: Config, s: State, h: nat)
    requires Inv(cfg, s) && Enabled(cfg, s, Collect(h))
    ensures var s' := Next(cfg, s, Collect(h));
            && LedgerInv(s') && CleanerInv(s') && SpecInv(cfg, s')
            && AllFlags(s')
  {
    hide LocalInv, MonitorInv, ThreadsInv, CallsInv, HandlesInv;
    var s' := Next(cfg, s, Collect(h));
    assert Spec(cfg, s') == Spec(cfg, s);
    forall a | a in s'.ledger ensures Claimed(s', a, s'.ledger[a]) {
      assert Claimed(s, a, s.ledger[a]);
    }
    forall x | 0 <= x < |s'.handles| ensures FlagsInv(s'.cleaner, x, s'.handles[x]) {
      assert FlagsInv(s.cleaner, x, s.handles[x]);
    }
  }

  lemma SweepRecords(cfg: Config, s: State)
    requires Inv(cfg, s) && Enabled(cfg, s, Sweep)
    requires Settled(HandleView(cfg, s, s.cleaner.h))
    ensures var s' := Next(cfg, s, Sweep);
            && !s'.fault && LedgerInv(s') && CleanerInv(s')
            && AllFlags(s')
  {
    hide LocalInv, MonitorInv, ThreadsInv, CallsInv, HandlesInv, SpecInv;
    var s' := Next(cfg, s, Sweep);
    forall a | a in s'.ledger ensures Claimed(s', a, s'.ledger[a]) {
      assert a in s.ledger && Claimed(s, a, s.ledger[a]);
    }
    forall x | 0 <= x < |s'.handles| ensures FlagsInv(s'.cleaner, x, s'.handles[x]) {
      assert FlagsInv(s.cleaner, x, s.handles[x]);
    }
  }

  lemma SweepTable(cfg: Config, s: State)
    requires Inv(cfg, s) && Enabled(cfg, s, Sweep)
    requires Settled(HandleView(cfg, s, s.cleaner.h))
    ensures var s' := Next(cfg, s, Sweep); var h := s.cleaner.h;
            && SpecInv(cfg, s') && Settled(HandleView(cfg, s', h))
            && (forall x: nat :: x in Spec(cfg, s') <==> x in Spec(cfg, s))
            && (forall x: nat :: x != h && x in Spec(cfg, s) ==> Spec(cfg, s')[x] == Spec(cfg, s)[x])
  {
    hide LocalInv, MonitorInv, ThreadsInv, CallsInv, HandlesInv;
    var s' := Next(cfg, s, Sweep);
    var h := s.cleaner.h;
    assert FlagsInv(s.cleaner, h, s.handles[h]);
    if s.cleaner.Sweeping? && s.handles[h].ptr != 0 {
      ReplayExtend(cfg, s.log, CollectEvent(h));
      assert Spec(cfg, s') == Spec(cfg, s)[h := Slot(Spec(cfg, s)[h].tag, Shut(false))];
    } else {
      assert Spec(cfg, s') == Spec(cfg, s);
    }
  }

  lemma SweepKeeps(cfg: Config, s: State)
    requires Inv(cfg, s) && Enabled(cfg, s, Sweep)
    ensures Inv(cfg, Next(cfg, s, Sweep))
  {
    hide LocalInv, MonitorInv, ThreadsInv, CallsInv, HandlesInv, AllFlags, LedgerInv;
    var s' := Next(cfg, s, Sweep);
    var h := s.cleaner.h;
    DroppedUnmentioned(cfg, s, h);
    UnmentionedSettled(cfg, s, h);
    SweepRecords(cfg, s);
    SweepTable(cfg, s);
    SweepCells(cfg, s);
    AroundKeeps(cfg, s, s', h);
  }

  lemma SweepCells(cfg: Config, s: State)
    requires Inv(cfg, s) && Enabled(cfg, s, Sweep)
    requires Settled(HandleView(cfg, s, s.cleaner.h))
    ensures var s' := Next(cfg, s, Sweep);
            forall o, a :: o != OfHandle(s.cleaner.h) && o != OfCleaner ==> OwnedCell(s', o, a) == OwnedCell(s, o, a)
  {
  }
}
