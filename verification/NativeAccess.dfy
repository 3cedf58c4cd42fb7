/** What native code does with the addresses it is given. */
module NativeAccess {
  import opened Values
  import opened Machine
  import opened Invariant
  import opened Interference
  import opened Steps
  import opened Preservation
  import opened Reachability
  import opened Ownership

  datatype Access = Access(a: Addr, tag: Tag)

  function CallAccesses(s: State, call: Call, stage: Stage, f: Frame): set<Access> {
    match stage
    case FromRaw => {Access(f.p, MainTag(s, call))}
    case Read => {Access(f.p, MainTag(s, call))}
    case ReadOther => {Access(f.q, Second(s, call).tag)}
    case Write => {Access(f.p, MainTag(s, call))}
    case WriteOther => {Access(f.q, Second(s, call).tag)}
    case Exit =>
      if f.box != 0 then {Access(f.box, ChildTag(call, MainTag(s, call)))}
      else if f.spent != 0 then {Access(f.spent, MainTag(s, call))} else {}
    case Clean =>
      if Main(s, call).fired || Main(s, call).ptr == 0 then {} else {Access(Main(s, call).ptr, Main(s, call).tag)}
    case Free => {Access(f.spent, MainTag(s, call))}
    case _ => {}
  }

  /** The addresses a step dereferences, takes over or frees, with the type it casts them to. */
  function Accesses(s: State, l: Label): set<Access> {
    match l
    case Step(t) =>
      if t < |s.threads| && s.threads[t].pc.Running?
      then CallAccesses(s, s.threads[t].pc.call, s.threads[t].pc.stage, s.threads[t].pc.f) else {}
    case Shed(t) =>
      if t < |s.threads| && s.threads[t].pc.Running?
      then {Access(s.threads[t].pc.f.spent, MainTag(s, s.threads[t].pc.call))} else {}
    case Sweep =>
      if s.cleaner.Freeing? then {Access(s.cleaner.ptr, HandleAt(s, s.cleaner.h).tag)} else {}
    case _ => {}
  }

  lemma CallAccessesLive(cfg: Config, s: State, t: nat, call: Call, stage: Stage, f: Frame)
    requires Here(cfg, s, t, call, stage, f) && !WantsChild(cfg, s.threads[t].pc)
    ensures forall x :: x in CallAccesses(s, call, stage, f) ==> x.a != 0 && LiveAs(s.heap, x.a, x.tag)
  {
    hide SpecInv, MineClaimed, CellsOK, BirthOK, MainOK;
    if stage != Done {
      CallGoes(cfg, s, t, call, stage, f);
      assert !Act(cfg, s, t, call, stage, f).bad;
      if stage == Free { CloseAccess(cfg, s, t, call, f); }
      forall x | x in CallAccesses(s, call, stage, f) ensures x.a != 0 && LiveAs(s.heap, x.a, x.tag) {
        assert x.a in s.heap;
        assert Claimed(s, x.a, s.ledger[x.a]);
      }
    }
  }

  lemma CloseAccess(cfg: Config, s: State, t: nat, call: Call, f: Frame)
    requires Here(cfg, s, t, call, Free, f)
    ensures f.spent != 0
  {
  }

  /** No use after release, no double release, no wrong cast: in every run, whatever address
      the allocator hands out. */
  lemma AccessesAreLive(cfg: Config, s: State, l: Label, x: Access)
    requires Reachable(cfg, s) && Enabled(cfg, s, l) && x in Accesses(s, l)
    ensures x.a != 0 && LiveAs(s.heap, x.a, x.tag)
  {
    ReachableInv(cfg, s);
    match l
    case Step(t) =>
      HereHolds(cfg, s, t);
      CallAccessesLive(cfg, s, t, s.threads[t].pc.call, s.threads[t].pc.stage, s.threads[t].pc.f);
    case Shed(t) =>
      var pc := s.threads[t].pc;
      HereHolds(cfg, s, t);
      ConsumeShed(cfg, s, t, pc.call, pc.stage, pc.f);
      assert !ShedStep(s, pc.call, pc.f, pc.stage).bad;
    case Sweep =>
      assert CleanerHolds(s, s.cleaner.ptr, s.handles[s.cleaner.h].tag);
  }

  lemma NeverFaults(cfg: Config, s: State)
    requires Reachable(cfg, s)
    ensures !s.fault
  {
    ReachableInv(cfg, s);
  }

  // ----- Exclusive access -----

  /** Rust code of call t still holds this address. */
  predicate Reaches(s: State, t: nat, a: Addr) {
    t < |s.threads| && s.threads[t].pc.Running? && a != 0 &&
    var Running(call, stage, f) := s.threads[t].pc;
    || a == f.spent || a == f.box
    || (a == f.p && stage in (if call.Consume? then {Enter, Decode, FromRaw} else BORROWING))
    || (a == f.q && call.Pair? && stage in BORROWING)
  }

  const BORROWING: set<Stage> := {Enter, Read, ReadOther, Write, WriteOther, Alloc, Build, Leak, Convert}

  lemma ReachedIsOwned(cfg: Config, s: State, t: nat, call: Call, stage: Stage, f: Frame, a: Addr)
    requires Here(cfg, s, t, call, stage, f) && Reaches(s, t, a)
    ensures a in s.ledger
    ensures var o := s.ledger[a]; o == OfSpent(t) || o == OfBox(t) || (o.OfHandle? && o.h in CallHandles(call))
  {
    match call
    case Use(_, _, _) =>
    case Consume(_, _) =>
    case Pair(_, _, _, _) =>
    case Close(_) =>
    case New(_, _) =>
  }

  /** No box is in the hands of two native calls, or of a call and the Cleaner. */
  lemma NativeCallsAreExclusive(cfg: Config, s: State, t: nat, u: nat, a: Addr)
    requires Reachable(cfg, s) && t != u && Reaches(s, t, a)
    ensures !Reaches(s, u, a) && CleanerAddr(s.cleaner) != a
  {
    hide LocalInv, Here, HandlesInv, ThreadsInv, CallsInv, AllFlags, SpecInv, LedgerInv;
    ReachableInv(cfg, s);
    HereHolds(cfg, s, t);
    ReachedIsOwned(cfg, s, t, s.threads[t].pc.call, s.threads[t].pc.stage, s.threads[t].pc.f, a);
    if Reaches(s, u, a) {
      HereHolds(cfg, s, u);
      ReachedIsOwned(cfg, s, u, s.threads[u].pc.call, s.threads[u].pc.stage, s.threads[u].pc.f, a);
      var o := s.ledger[a];
      if o.OfHandle? {
        RunOwns(cfg, s, t, o.h);
        RunOwns(cfg, s, u, o.h);
      }
      assert false;
    }
  }

  // ----- Pointers decide identity -----

  /** In a pair call with both sessions open the two pointers are equal iff the objects are. */
  predicate PointersTell(s: State, pc: Pc)
    requires pc.Running? && pc.call.Pair?
  {
    && pc.call.h < |s.handles| && pc.call.g < |s.handles|
    && var p := s.handles[pc.call.h].ptr; var q := s.handles[pc.call.g].ptr;
    && (p != 0 && q != 0 ==> (p == q <==> pc.call.h == pc.call.g))
    && (pc.stage == Enter ==> pc.f.p == p != 0 && pc.f.q == q != 0)
    && (pc.stage in BORROWING && pc.stage != Enter ==> pc.f.p != pc.f.q)
  }

  lemma PairPointers(cfg: Config, s: State, t: nat, call: Call, stage: Stage, f: Frame)
    requires Here(cfg, s, t, call, stage, f) && call.Pair?
    ensures PointersTell(s, s.threads[t].pc)
  {
    hide UseInv, ConsumeInv, CloseInv, NewInv, SpecInv;
  }

  /** So check_self_pointer rejects exactly the calls of a session on itself. */
  lemma PointersDecideIdentity(cfg: Config, s: State, t: nat)
    requires Reachable(cfg, s) && t < |s.threads| && s.threads[t].pc.Running? && s.threads[t].pc.call.Pair?
    ensures PointersTell(s, s.threads[t].pc)
    ensures var pc := s.threads[t].pc;
            pc.stage == Enter ==> (EnterStep(s, pc.call, pc.f).f.out == SelfRefused <==> pc.call.h == pc.call.g)
  {
    ReachableInv(cfg, s);
    HereHolds(cfg, s, t);
    var Running(call, stage, f) := s.threads[t].pc;
    PairPointers(cfg, s, t, call, stage, f);
    FreshOutcome(cfg, s, t, call, stage, f);
  }

  lemma FreshOutcome(cfg: Config, s: State, t: nat, call: Call, stage: Stage, f: Frame)
    requires Here(cfg, s, t, call, stage, f)
    ensures stage == Enter ==> f.out == Returned(0)
  {
  }

  /** Null checks are dead code from Java: native code and native frees only see live pointers. */
  lemma NoNullPointers(cfg: Config, s: State, t: nat)
    requires Reachable(cfg, s) && t < |s.threads| && s.threads[t].pc.Running?
    ensures var Running(call, stage, f) := s.threads[t].pc;
            && (stage == Enter ==> f.p != 0 && (call.Pair? ==> f.q != 0))
            && (stage == Free ==> f.spent != 0)
            && (stage in {Exit, TakeState, Done} ==> f.out != Refused)
    ensures s.cleaner.Freeing? ==> s.cleaner.ptr != 0
  {
    ReachableInv(cfg, s);
    HereHolds(cfg, s, t);
    NoNullHere(cfg, s, t, s.threads[t].pc.call, s.threads[t].pc.stage, s.threads[t].pc.f);
  }

  lemma NoNullHere(cfg: Config, s: State, t: nat, call: Call, stage: Stage, f: Frame)
    requires Here(cfg, s, t, call, stage, f)
    ensures stage == Enter ==> f.p != 0 && (call.Pair? ==> f.q != 0)
    ensures stage == Free ==> f.spent != 0
    ensures stage in {Exit, TakeState, Done} ==> f.out != Refused
  {
    match call
    case Use(_, _, _) =>
    case Consume(_, _) =>
    case Pair(_, _, _, _) =>
    case Close(_) =>
    case New(_, _) =>
  }

  // ----- Every access is by the owner -----

  /** Owners the actor of a step may act for. */
  predicate ActsFor(s: State, l: Label, o: Owner) {
    if l.Sweep? then o == OfCleaner
    else
      (l.Step? || l.Shed?) && l.t < |s.threads| && s.threads[l.t].pc.Running?
      && (o == OfSpent(l.t) || o == OfBox(l.t) || (o.OfHandle? && o.h in CallHandles(s.threads[l.t].pc.call)))
  }

  lemma AccessedIsReached(cfg: Config, s: State, t: nat, call: Call, stage: Stage, f: Frame, x: Access)
    requires Here(cfg, s, t, call, stage, f) && x in CallAccesses(s, call, stage, f) && x.a != 0
    ensures Reaches(s, t, x.a)
  {
  }

  /** A stale pointer is never used, even when the allocator has given its address to another box
      of the same type: whoever dereferences or frees an address owns the box that is there. */
  lemma AccessesAreByOwner(cfg: Config, s: State, l: Label, x: Access)
    requires Reachable(cfg, s) && Enabled(cfg, s, l) && x in Accesses(s, l)
    ensures exists o :: Owns(s, o, x.a) && ActsFor(s, l, o)
  {
    ReachableInv(cfg, s);
    AccessesAreLive(cfg, s, l, x);
    var o := s.ledger[x.a];
    OwnsIsLedger(cfg, s, o, x.a);
    match l
    case Step(t) =>
      HereHolds(cfg, s, t);
      var Running(call, stage, f) := s.threads[t].pc;
      AccessedIsReached(cfg, s, t, call, stage, f, x);
      ReachedIsOwned(cfg, s, t, call, stage, f, x.a);
      assert ActsFor(s, l, o);
    case Shed(t) =>
      HereHolds(cfg, s, t);
      var Running(call, stage, f) := s.threads[t].pc;
      assert Reaches(s, t, x.a);
      ReachedIsOwned(cfg, s, t, call, stage, f, x.a);
      assert ActsFor(s, l, o);
    case Sweep =>
      assert CleanerHolds(s, s.cleaner.ptr, s.handles[s.cleaner.h].tag);
      assert ActsFor(s, l, o);
  }
}
