/** What holds in every reachable state. What a running call knows is stated on a `View`:
    the few shared records it may rely on, so that non-interference is equality of views. */
module Invariant {
  import opened Values
  import opened Atomic
  import opened Machine

  /** The table of the atomic machine after the calls committed so far. */
  function Spec(cfg: Config, s: State): Table {
    var r := Replay(cfg, s.log);
    if r.Some? then r.value else map[]
  }

  function OwnedCell(s: State, o: Owner, a: Addr): Option<Cell> {
    if a in s.heap && a in s.ledger && s.ledger[a] == o then Some(s.heap[a]) else None
  }

  function HandleAt(s: State, x: nat): Handle {
    if x < |s.handles| then s.handles[x] else NewHandle(Other(0), 0, 0)
  }

  datatype HView = HView(h: Handle, cell: Option<Cell>, residue: Option<Cell>, slot: Option<Slot>)
  datatype View = View(a: HView, b: HView, c: HView, spent: Option<Cell>, box: Option<Cell>)

  function HandleView(cfg: Config, s: State, x: nat): HView {
    var h := HandleAt(s, x);
    HView(h, OwnedCell(s, OfHandle(x), h.ptr),
          if h.fate.ByConsume? then OwnedCell(s, Orphan(x), h.fate.leak) else None,
          if x in Spec(cfg, s) then Some(Spec(cfg, s)[x]) else None)
  }

  function FirstOf(call: Call): nat { if call.New? then 0 else call.h }
  function SecondOf(call: Call): nat { if call.Pair? then call.g else FirstOf(call) }
  function ChildOf(f: Frame): nat { if f.child.Some? then f.child.value else 0 }

  function ViewOf(cfg: Config, s: State, t: nat, call: Call, f: Frame): View {
    View(HandleView(cfg, s, FirstOf(call)), HandleView(cfg, s, SecondOf(call)), HandleView(cfg, s, ChildOf(f)),
         OwnedCell(s, OfSpent(t), f.spent), OwnedCell(s, OfBox(t), f.box))
  }

  // ----- Handles -----

  predicate Leaked(h: Handle) {
    h.fate.ByConsume? && h.fate.leak != 0
  }

  /** No call has the handle in hand: native value and atomic table agree. */
  predicate Settled(v: HView) {
    && v.slot.Some? && v.slot.value.tag == v.h.tag
    && if v.h.ptr != 0 then
         v.cell.Some? && v.cell.value.tag == v.h.tag && v.slot.value.body == Open(v.cell.value.value)
       else
         v.h.fired && v.slot.value.body == Shut(Leaked(v.h)) && (Leaked(v.h) ==> Residue(v))
  }

  predicate Residue(v: HView) {
    v.h.tag == Ecies && v.residue.Some? && v.residue.value.tag == Ecies
  }

  predicate Intact(v: HView) {
    v.h.ptr != 0 && Settled(v)
  }

  /** The call has written `now` where the atomic table still has `before`. */
  predicate Changed(v: HView, before: Value, now: Value) {
    && v.h.ptr != 0 && v.cell == Some(Cell(v.h.tag, now))
    && v.slot == Some(Slot(v.h.tag, Open(before)))
  }

  predicate StillOpen(v: HView) {
    v.slot.Some? && v.slot.value.tag == v.h.tag && v.slot.value.body.Open?
  }

  /** The dangling window: State.ptr is an address the handle no longer owns. */
  predicate Dangling(v: HView, p: Addr) {
    v.h.ptr == p && p != 0 && v.cell.None? && StillOpen(v)
  }

  predicate Born(v: HView, t: nat, tag: Tag, ptr: Addr) {
    v.h == NewHandle(tag, ptr, t) && ptr != 0 && v.slot.None?
  }

  predicate Adopted(v: HView, t: nat, cell: Cell) {
    Born(v, t, cell.tag, v.h.ptr) && v.cell == Some(cell)
  }

  // ----- Running calls -----

  predicate Plain(f: Frame) {
    f.box == 0 && f.child.None?
  }

  predicate Guarded(f: Frame, v: View, cell: Cell) {
    f.box != 0 && v.box == Some(cell)
  }

  predicate BoxTagged(f: Frame, v: View, tag: Tag) {
    f.box != 0 ==> v.box.Some? && v.box.value.tag == tag
  }

  predicate UseEffect(cfg: Config, op: int, f: Frame, v: View) {
    (f.eff == 0 && Intact(v.a)) || (f.eff == 1 && Changed(v.a, f.v, cfg.native.run(v.a.h.tag, op, f.v).next))
  }

  predicate UseInv(cfg: Config, t: nat, op: int, creates: bool, stage: Stage, f: Frame, v: View) {
    var n := cfg.native.run(v.a.h.tag, op, f.v);
    var written := f.eff == 1 && f.p == v.a.h.ptr && Changed(v.a, f.v, n.next);
    f.spent == 0 &&
    match stage
    case Check => f == FIRST_FRAME && Settled(v.a)
    case Fetch => f == FIRST_FRAME && Intact(v.a)
    case Enter => f == FIRST_FRAME.(p := v.a.h.ptr) && Intact(v.a)
    case Read => f == FIRST_FRAME.(p := v.a.h.ptr) && Intact(v.a)
    case Write => Plain(f) && f.eff == 0 && f.p == v.a.h.ptr && Intact(v.a) && v.a.cell.value.value == f.v
    case Convert => Plain(f) && written && !creates
    case Alloc => Plain(f) && written && creates
    case Build =>
      f.child.None? && written && creates && n.made.Some? && Guarded(f, v, Cell(OlmSession, n.made.value))
    case Leak =>
      && f.child.Some? && written && creates && n.made.Some? && Guarded(f, v, Cell(OlmSession, n.made.value))
      && Born(v.c, t, OlmSession, f.box)
    case Exit => f.child.None? && UseStopped(cfg, op, creates, f, v) && BoxTagged(f, v, OlmSession)
    case Done => f.box == 0 && UseDone(cfg, t, op, creates, f, v)
    case _ => false
  }

  predicate UseStopped(cfg: Config, op: int, creates: bool, f: Frame, v: View) {
    var n := cfg.native.run(v.a.h.tag, op, f.v);
    match f.out
    case Broken(k) => k == f.eff && UseEffect(cfg, op, f, v)
    case Failed(k) => k == 1 && creates && n.made.None? && Changed(v.a, f.v, n.next)
    case _ => false
  }

  predicate UseDone(cfg: Config, t: nat, op: int, creates: bool, f: Frame, v: View) {
    var n := cfg.native.run(v.a.h.tag, op, f.v);
    match f.out
    case Closed => f.child.None? && v.a.h.ptr == 0 && Settled(v.a)
    case Rejected => f.child.None? && Settled(v.a)
    case Returned(r) => f.child.None? && !creates && r == n.reply && Changed(v.a, f.v, n.next)
    case Made(c) =>
      && f.child == Some(c) && creates && n.made.Some? && Changed(v.a, f.v, n.next)
      && Adopted(v.c, t, Cell(OlmSession, n.made.value))
    case _ => f.child.None? && UseStopped(cfg, op, creates, f, v)
  }

  predicate PairEffect(cfg: Config, op: int, f: Frame, v: View) {
    var n := cfg.native.join(op, f.v, f.w);
    match f.eff
    case 0 => Intact(v.a) && Intact(v.b)
    case 1 => Changed(v.a, f.v, n.left) && Intact(v.b) && v.b.cell.value.value == f.w
    case 2 => Changed(v.a, f.v, n.left) && Changed(v.b, f.w, n.right)
    case _ => false
  }

  predicate PairInv(cfg: Config, t: nat, call: Call, stage: Stage, f: Frame, v: View)
    requires call.Pair?
  {
    var n := cfg.native.join(call.op, f.v, f.w);
    var merges := call.merging && n.merged.Some?;
    var read := call.h != call.g && f.p == v.a.h.ptr && f.q == v.b.h.ptr && PairEffect(cfg, call.op, f, v);
    f.spent == 0 &&
    match stage
    case Check => f == FIRST_FRAME && Settled(v.a) && Settled(v.b)
    case CheckOther => f == FIRST_FRAME && Intact(v.a) && Settled(v.b)
    case Fetch => f == FIRST_FRAME && Intact(v.a) && Intact(v.b)
    case Enter => f == FIRST_FRAME.(p := v.a.h.ptr, q := v.b.h.ptr) && Intact(v.a) && Intact(v.b)
    case Read => f == FIRST_FRAME.(p := v.a.h.ptr, q := v.b.h.ptr) && read
    case ReadOther =>
      && f == FIRST_FRAME.(p := v.a.h.ptr, q := v.b.h.ptr, v := f.v) && read
      && v.a.cell.value.value == f.v
    case Write =>
      && f == FIRST_FRAME.(p := v.a.h.ptr, q := v.b.h.ptr, v := f.v, w := f.w) && read
      && v.a.cell.value.value == f.v && v.b.cell.value.value == f.w
    case WriteOther => Plain(f) && f.eff == 1 && read
    case Convert => Plain(f) && f.eff == 2 && read && !merges
    case Alloc => Plain(f) && f.eff == 2 && read && merges
    case Build =>
      f.child.None? && f.eff == 2 && read && merges && Guarded(f, v, Cell(InboundGroup, n.merged.value))
    case Leak =>
      f.child.None? && f.eff == 2 && read && merges && Guarded(f, v, Cell(InboundGroup, n.merged.value))
    case Adopt =>
      f.child.None? && f.eff == 2 && read && merges && Guarded(f, v, Cell(InboundGroup, n.merged.value))
    case Exit => f.child.None? && BoxTagged(f, v, InboundGroup) && PairStopped(cfg, call, f, v)
    case Done => f.box == 0 && PairDone(cfg, t, call, f, v)
    case _ => false
  }

  predicate PairStopped(cfg: Config, call: Call, f: Frame, v: View)
    requires call.Pair?
  {
    match f.out
    case SelfRefused => call.h == call.g && Intact(v.a) && Intact(v.b)
    case Broken(k) => call.h != call.g && k == f.eff && PairEffect(cfg, call.op, f, v)
    case _ => false
  }

  predicate PairDone(cfg: Config, t: nat, call: Call, f: Frame, v: View)
    requires call.Pair?
  {
    var n := cfg.native.join(call.op, f.v, f.w);
    var merges := call.merging && n.merged.Some?;
    var both := call.h != call.g && Changed(v.a, f.v, n.left) && Changed(v.b, f.w, n.right);
    match f.out
    case Closed => f.child.None? && (v.a.h.ptr == 0 || v.b.h.ptr == 0) && Settled(v.a) && Settled(v.b)
    case Rejected => f.child.None? && Settled(v.a) && Settled(v.b)
    case Returned(r) => f.child.None? && both && !merges && r == n.reply
    case Made(c) => f.child == Some(c) && both && merges && Adopted(v.c, t, Cell(InboundGroup, n.merged.value))
    case _ => f.child.None? && PairStopped(cfg, call, f, v)
  }

  /** Rust holds the consumed box as a local, or has already released it. */
  predicate SpentTagged(f: Frame, v: View) {
    f.spent != 0 ==> f.spent == f.p && v.spent.Some? && v.spent.value.tag == v.a.h.tag
  }

  predicate Moved(f: Frame, v: View) {
    Dangling(v.a, f.p) && v.a.slot.value.body == Open(f.v) && SpentTagged(f, v)
  }

  /** An Ecies call gets to Box::from_raw only with an argument that decodes. */
  predicate Decoded(cfg: Config, op: int, v: View) {
    v.a.h.tag == Ecies ==> cfg.native.decodes(op)
  }

  /** How a consuming call that reached native code ends. */
  predicate ConsumeEnd(cfg: Config, t: nat, op: int, f: Frame, v: View) {
    var n := Establishing(cfg.native, op, f.v);
    && StillOpen(v.a)
    && match f.out
       case Lost(jni) => f.child.None? && v.a.h.tag == Ecies && (jni || !cfg.native.decodes(op))
       case Broken(k) => f.child.None? && k == 0 && Decoded(cfg, op, v)
       case Failed(k) =>
         f.child.None? && k == 0 && Decoded(cfg, op, v) && n.None? && v.a.slot.value.body == Open(f.v)
       case Made(c) =>
         && f.child == Some(c) && n.Some? && v.a.slot.value.body == Open(f.v)
         && Adopted(v.c, t, Cell(EstablishedOf(v.a.h.tag), n.value))
       case _ => false
  }

  predicate Invalidated(f: Frame, v: View) {
    && v.a.h.ptr == 0 && v.a.h.fate.ByConsume?
    && (f.out.Lost? <==> Leaked(v.a.h)) && (Leaked(v.a.h) ==> Residue(v.a))
  }

  predicate ConsumeInv(cfg: Config, t: nat, op: int, stage: Stage, f: Frame, v: View) {
    var n := Establishing(cfg.native, op, f.v);
    var cell := Cell(EstablishedOf(v.a.h.tag), if n.Some? then n.value else 0);
    f.eff == 0 &&
    match stage
    case Check => f == FIRST_FRAME && Settled(v.a)
    case Fetch => f == FIRST_FRAME && Intact(v.a)
    case Enter => f == FIRST_FRAME.(p := v.a.h.ptr) && Intact(v.a)
    case Decode => f == FIRST_FRAME.(p := v.a.h.ptr) && Intact(v.a) && v.a.h.tag == Ecies
    case FromRaw => f == FIRST_FRAME.(p := v.a.h.ptr) && Intact(v.a) && Decoded(cfg, op, v)
    case Read =>
      && Plain(f) && Decoded(cfg, op, v) && f.spent == f.p && Dangling(v.a, f.p) && SpentTagged(f, v)
      && v.a.slot.value.body == Open(v.spent.value.value)
    case Alloc => Plain(f) && Moved(f, v) && Decoded(cfg, op, v)
    case Build => f.child.None? && Moved(f, v) && n.Some? && Guarded(f, v, cell)
    case Leak =>
      && f.child.Some? && Moved(f, v) && n.Some? && Guarded(f, v, cell) && Born(v.c, t, cell.tag, f.box)
    case Exit =>
      && ConsumeEnd(cfg, t, op, f, v) && BoxTagged(f, v, cell.tag) && (f.out.Made? ==> f.box == 0)
      && if f.out.Lost? then Intact(v.a) && f.spent == f.box == 0 else Dangling(v.a, f.p) && SpentTagged(f, v)
    case TakeState =>
      && ConsumeEnd(cfg, t, op, f, v) && f.spent == f.box == 0
      && if f.out.Lost? then Intact(v.a) else Dangling(v.a, f.p)
    case Clean => ConsumeEnd(cfg, t, op, f, v) && f.spent == f.box == 0 && Invalidated(f, v)
    case Done =>
      && f.spent == f.box == 0
      && (match f.out
          case Closed => f.child.None? && v.a.h.ptr == 0 && Settled(v.a)
          case Rejected => f.child.None? && Settled(v.a)
          case _ => ConsumeEnd(cfg, t, op, f, v) && Invalidated(f, v) && v.a.h.fired)
    case _ => false
  }

  predicate CloseTook(v: HView) {
    v.h.ptr == 0 && StillOpen(v) && v.h.fate == ByClose
  }

  predicate CloseInv(stage: Stage, f: Frame, v: View) {
    Plain(f) &&
    match stage
    case TakeState => f == FIRST_FRAME && Settled(v.a)
    case Clean => f.spent != 0 && v.spent.Some? && v.spent.value.tag == v.a.h.tag && CloseTook(v.a)
    case Free =>
      f.spent != 0 && v.spent.Some? && v.spent.value.tag == v.a.h.tag && CloseTook(v.a) && v.a.h.fired
    case Done =>
      && f.out == Returned(0) && f.spent == 0 && v.a.h.ptr == 0 && v.a.h.fired && (Settled(v.a) || CloseTook(v.a))
    case _ => false
  }

  predicate NewInv(cfg: Config, t: nat, tag: Tag, op: int, stage: Stage, f: Frame, v: View) {
    f.spent == 0 && f.eff == 0 &&
    match stage
    case Alloc => f == FIRST_FRAME
    case Adopt => f.child.None? && Guarded(f, v, Cell(tag, cfg.native.spawn(op)))
    case Exit => Plain(f) && f.out == Broken(0)
    case Done =>
      && f.box == 0
      && (match f.out
          case Broken(k) => k == 0 && f.child.None?
          case Made(c) => f.child == Some(c) && Adopted(v.c, t, Cell(tag, cfg.native.spawn(op)))
          case _ => false)
    case _ => false
  }

  predicate LocalInv(cfg: Config, t: nat, call: Call, stage: Stage, f: Frame, v: View) {
    match call
    case Use(_, op, creates) => UseInv(cfg, t, op, creates, stage, f, v)
    case Consume(_, op) => ConsumeInv(cfg, t, op, stage, f, v)
    case Pair(_, _, _, _) => PairInv(cfg, t, call, stage, f, v)
    case Close(_) => CloseInv(stage, f, v)
    case New(tag, op) => NewInv(cfg, t, tag, op, stage, f, v)
  }

  // ----- The whole state -----

  function CleanerAddr(c: Cleaner): Addr {
    match c
    case Warning(_, p) => p
    case Freeing(_, p) => p
    case _ => 0
  }

  /** The owner really points at the address. */
  predicate Claimed(s: State, a: Addr, o: Owner) {
    a != 0 &&
    match o
    case OfHandle(h) => h < |s.handles| && s.handles[h].ptr == a
    case OfSpent(t) => t < |s.threads| && s.threads[t].pc.Running? && s.threads[t].pc.f.spent == a
    case OfBox(t) => t < |s.threads| && s.threads[t].pc.Running? && s.threads[t].pc.f.box == a
    case OfCleaner => CleanerAddr(s.cleaner) == a
    case Orphan(h) => h < |s.handles| && s.handles[h].fate == ByConsume(a)
  }

  ghost predicate LedgerInv(s: State) {
    && s.ledger.Keys == s.heap.Keys
    && forall a :: a in s.ledger ==> Claimed(s, a, s.ledger[a])
  }

  ghost predicate MonitorInv(cfg: Config, s: State) {
    && (forall l :: l in s.monitor ==>
          s.monitor[l] < |s.threads| && l in HeldLocks(cfg, s.threads[s.monitor[l]].pc))
    && (forall t, l :: 0 <= t < |s.threads| && l in HeldLocks(cfg, s.threads[t].pc) ==>
          l in s.monitor && s.monitor[l] == t)
  }

  ghost predicate CallInv(cfg: Config, s: State, pc: Pc) {
    && (!pc.Idle? ==> CallReady(s, pc.call))
    && (pc.Waiting? || pc.Leaving? ==> pc.k <= |Plan(cfg, pc.call)|)
  }

  ghost predicate ThreadInv(cfg: Config, s: State, t: nat, pc: Pc) {
    pc.Running? ==> LocalInv(cfg, t, pc.call, pc.stage, pc.f, ViewOf(cfg, s, t, pc.call, pc.f))
  }

  predicate InRun(s: State, x: nat) {
    Session(x) in s.monitor && s.monitor[Session(x)] < |s.threads| && s.threads[s.monitor[Session(x)]].pc.Running?
  }

  ghost predicate HandleInv(cfg: Config, s: State, x: nat, h: Handle) {
    match h.status
    case Private(t) => t < |s.threads| && s.threads[t].pc.Running? && s.threads[t].pc.f.child == Some(x)
    case _ => !InRun(s, x) ==> Settled(HandleView(cfg, s, x))
  }

  predicate FlagsInv(c: Cleaner, x: nat, h: Handle) {
    && (h.ptr != 0 <==> h.fate == Held)
    && (h.fired && h.ptr != 0 ==> c == Sweeping(x))
    && (h.warned ==> h.fate == ByCleaner)
    && (h.fate == ByCleaner ==> h.status == Dropped && (h.warned || (c.Warning? && c.h == x)))
  }

  ghost predicate CleanerInv(s: State) {
    s.cleaner != Resting ==>
      && s.cleaner.h < |s.handles|
      && var m := s.handles[s.cleaner.h];
      && m.status == Dropped && m.fired
      && match s.cleaner
         case Warning(_, p) => CleanerHolds(s, p, m.tag) && m.fate == ByCleaner && !m.warned
         case Freeing(_, p) => CleanerHolds(s, p, m.tag) && m.fate == ByCleaner && m.warned
         case _ => true
  }

  predicate CleanerHolds(s: State, p: Addr, tag: Tag) {
    p != 0 && OwnedCell(s, OfCleaner, p).Some? && s.heap[p].tag == tag
  }

  ghost predicate SpecInv(cfg: Config, s: State) {
    && Replay(cfg, s.log).Some?
    && forall x: nat :: x in Spec(cfg, s) <==> x < |s.handles| && !s.handles[x].status.Private?
  }

  ghost predicate CallsInv(cfg: Config, s: State) {
    forall t :: 0 <= t < |s.threads| ==> CallInv(cfg, s, s.threads[t].pc)
  }

  ghost predicate ThreadsInv(cfg: Config, s: State) {
    forall t :: 0 <= t < |s.threads| ==> ThreadInv(cfg, s, t, s.threads[t].pc)
  }

  ghost predicate HandlesInv(cfg: Config, s: State) {
    forall x :: 0 <= x < |s.handles| ==> HandleInv(cfg, s, x, s.handles[x])
  }

  ghost predicate AllFlags(s: State) {
    forall x :: 0 <= x < |s.handles| ==> FlagsInv(s.cleaner, x, s.handles[x])
  }

  ghost predicate Inv(cfg: Config, s: State) {
    && !s.fault
    && LedgerInv(s)
    && MonitorInv(cfg, s)
    && CleanerInv(s)
    && SpecInv(cfg, s)
    && CallsInv(cfg, s) && ThreadsInv(cfg, s) && HandlesInv(cfg, s) && AllFlags(s)
  }

  lemma InitInv(cfg: Config, s: State)
    requires Init(s)
    ensures Inv(cfg, s)
  {
  }
}
