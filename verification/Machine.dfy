/** The concurrent machine: any number of threads run calls on shared handles in micro-steps,
    beside the Cleaner. Every label is one indivisible step of one actor. */
module Machine {
  import opened Values
  import opened Atomic

  /** `Session(h)` is the monitor of the handle object, `TieBreak` the global tie-break lock. */
  datatype Lock = Session(h: nat) | TieBreak

  /** Program points of a call whose monitors are all held. */
  datatype Stage =
    | Check | CheckOther       // checkNotClosed
    | Fetch                    // nativePtr
    | Enter                    // check_self_pointer, check_ptr
    | Decode                   // Ecies only: the input is converted and decoded before Box::from_raw
    | FromRaw                  // Box::from_raw
    | Read | ReadOther         // the native operation reads the box(es) ...
    | Write | WriteOther       // ... and writes them back
    | Alloc                    // Box::new for a new native object
    | Build                    // the new box is guarded; conversions, then the Java object is built
    | Leak                     // RawBox::leak
    | Adopt                    // Java wraps a pointer returned as a long
    | Convert                  // conversion of the result
    | Exit                     // the closure ends: guards and local boxes are dropped
    | TakeState                // State.take in close and invalidate
    | Clean                    // cleanable.clean
    | Free                     // the native free of close
    | Done

  /** Locals of a running call. `spent` is an address this call must free, `box` a new box it
      still answers for, `eff` the number of native writes it has performed. */
  datatype Frame = Frame(
    p: Addr, q: Addr, v: Value, w: Value, eff: nat,
    spent: Addr, box: Addr, child: Option<nat>, out: Outcome)

  const FIRST_FRAME := Frame(0, 0, 0, 0, 0, 0, 0, None, Returned(0))

  /** `Waiting(call, k)` holds the first k monitors of the call's plan and wants the next. */
  datatype Pc =
    | Idle
    | Waiting(call: Call, k: nat)
    | Running(call: Call, stage: Stage, f: Frame)
    | Leaving(call: Call, out: Outcome, k: nat)

  datatype Answer = Answer(call: Call, out: Outcome)

  /** `budget` bounds how many calls the thread still makes; which ones is left open. */
  datatype Thread = Thread(budget: nat, pc: Pc, returned: seq<Answer>)

  /** Private: only the creating call has a reference. Dropped: no thread can reach it. */
  datatype Status = Private(t: nat) | Published | Dropped

  /** History: how the pointer left the State. `leak` is the address lost by a late Ecies failure, or 0. */
  datatype Fate = Held | ByClose | ByConsume(leak: Addr) | ByCleaner

  /** `ptr` is State.ptr, `fired` says the Cleanable has run, `warned` that the leak warning was logged. */
  datatype Handle = Handle(tag: Tag, ptr: Addr, status: Status, fired: bool, warned: bool, fate: Fate)

  datatype Cleaner =
    | Resting
    | Sweeping(h: nat)
    | Warning(h: nat, ptr: Addr)
    | Freeing(h: nat, ptr: Addr)

  /** History: who answers for a live box. */
  datatype Owner = OfHandle(h: nat) | OfSpent(t: nat) | OfBox(t: nat) | OfCleaner | Orphan(h: nat)

  /** `fault` records a dereference or free of an address that is dead or holds another type.
      `ledger`, `log` and the fates are history: no guard reads them. */
  datatype State = State(
    heap: map<Addr, Cell>,
    handles: seq<Handle>,
    monitor: map<Lock, nat>,
    threads: seq<Thread>,
    cleaner: Cleaner,
    fault: bool,
    ledger: map<Addr, Owner>,
    log: seq<Event>)

  datatype Label =
    | Begin(t: nat, call: Call)
    | Step(t: nat)
    | StepAt(t: nat, a: Addr)   // allocation; the allocator may return any address not in use
    | Fail(t: nat)              // an error or panic
    | Shed(t: nat)              // the moved-out box is released before the closure ends
    | Drop(h: nat)              // the last reference to a handle disappears
    | Collect(h: nat)           // the Cleaner starts on an unreachable handle
    | Sweep                     // the Cleaner's next micro-step

  // ----- Lock plans -----

  function PairPlan(cfg: Config, h: nat, g: nat): seq<Lock> {
    if h == g then [Session(h)]
    else if cfg.hash(h) == cfg.hash(g) then [TieBreak, Session(h), Session(g)]
    else if cfg.hash(h) < cfg.hash(g) then [Session(h), Session(g)]
    else [Session(g), Session(h)]
  }

  function Plan(cfg: Config, call: Call): seq<Lock> {
    match call
    case Use(h, _, _) => [Session(h)]
    case Consume(h, _) => [Session(h)]
    case Pair(h, g, _, _) => PairPlan(cfg, h, g)
    case Close(h) => [Session(h)]
    case New(_, _) => []
  }

  function HeldLocks(cfg: Config, pc: Pc): seq<Lock> {
    match pc
    case Idle => []
    case Waiting(call, k) => if k <= |Plan(cfg, call)| then Plan(cfg, call)[..k] else []
    case Running(call, _, _) => Plan(cfg, call)
    case Leaving(call, _, k) => if k <= |Plan(cfg, call)| then Plan(cfg, call)[..k] else []
  }

  // ----- Starting a call -----

  predicate Mentions(pc: Pc, h: nat) {
    !pc.Idle? && h in CallHandles(pc.call)
  }

  predicate Usable(s: State, h: nat) {
    h < |s.handles| && s.handles[h].status == Published
  }

  /** The call is on published handles of the Java type that declares the method. */
  predicate CallReady(s: State, call: Call) {
    match call
    case Use(h, _, creates) => Usable(s, h) && (creates ==> s.handles[h].tag == Account)
    case Consume(h, _) => Usable(s, h) && Consumable(s.handles[h].tag)
    case Pair(h, g, _, _) =>
      && Usable(s, h) && s.handles[h].tag == InboundGroup
      && Usable(s, g) && s.handles[g].tag == InboundGroup
    case Close(h) => Usable(s, h)
    case New(_, _) => true
  }

  function FirstStage(call: Call): Stage {
    match call
    case Use(_, _, _) => Check
    case Consume(_, _) => Check
    case Pair(_, _, _, _) => Check
    case Close(_) => TakeState
    case New(_, _) => Alloc
  }

  // ----- What a running call does in one step -----

  datatype CellChange = Keep | Put(a: Addr, cell: Cell, owner: Owner) | Remove(a: Addr)

  /** Everything one step of a running call can change. */
  datatype Effect = Effect(
    stage: Stage, f: Frame,
    main: Option<Handle>,     // new record of the call's first handle
    cells: CellChange,
    born: Option<Handle>,     // a Java handle object created by this step
    bad: bool)

  function Quiet(stage: Stage, f: Frame): Effect {
    Effect(stage, f, None, Keep, None, false)
  }

  function Ending(f: Frame, out: Outcome): Effect {
    Quiet(Done, f.(out := out))
  }

  function Failing(f: Frame, out: Outcome): Effect {
    Quiet(Exit, f.(out := out))
  }

  predicate LiveAs(heap: map<Addr, Cell>, a: Addr, tag: Tag) {
    a in heap && heap[a].tag == tag
  }

  function Load(heap: map<Addr, Cell>, a: Addr): Value {
    if a in heap then heap[a].value else 0
  }

  /** Hand the box at `a` to another owner; its contents stay. */
  function Reassign(heap: map<Addr, Cell>, a: Addr, owner: Owner): CellChange {
    if a in heap then Put(a, heap[a], owner) else Keep
  }

  function MainTag(s: State, call: Call): Tag {
    if call.New? then call.tag
    else if call.h < |s.handles| then s.handles[call.h].tag else Other(0)
  }

  function ChildTag(call: Call, main: Tag): Tag {
    match call
    case Use(_, _, _) => OlmSession
    case Consume(_, _) => EstablishedOf(main)
    case Pair(_, _, _, _) => InboundGroup
    case Close(_) => main
    case New(tag, _) => tag
  }

  function ChildValue(cfg: Config, call: Call, v: Value, w: Value): Option<Value> {
    match call
    case Use(_, op, _) => cfg.native.run(Account, op, v).made
    case Consume(_, op) => Establishing(cfg.native, op, v)
    case Pair(_, _, op, _) => cfg.native.join(op, v, w).merged
    case Close(_) => None
    case New(_, op) => Some(cfg.native.spawn(op))
  }

  function NewMainValue(cfg: Config, tag: Tag, call: Call, v: Value, w: Value): Value {
    match call
    case Use(_, op, _) => cfg.native.run(tag, op, v).next
    case Pair(_, _, op, _) => cfg.native.join(op, v, w).left
    case _ => v
  }

  function NewHandle(tag: Tag, ptr: Addr, t: nat): Handle {
    Handle(tag, ptr, Private(t), false, false, Held)
  }

  function Main(s: State, call: Call): Handle {
    if !call.New? && call.h < |s.handles| then s.handles[call.h] else NewHandle(Other(0), 0, 0)
  }

  function Second(s: State, call: Call): Handle {
    if call.Pair? && call.g < |s.handles| then s.handles[call.g] else Main(s, call)
  }

  function CheckStep(s: State, call: Call, f: Frame): Effect {
    if Main(s, call).ptr == 0 then Ending(f, Closed)
    else Quiet(if call.Pair? then CheckOther else Fetch, f)
  }

  function CheckOtherStep(s: State, call: Call, f: Frame): Effect {
    if Second(s, call).ptr == 0 then Ending(f, Closed) else Quiet(Fetch, f)
  }

  function FetchStep(s: State, call: Call, f: Frame): Effect {
    Quiet(Enter, f.(p := Main(s, call).ptr, q := if call.Pair? then Second(s, call).ptr else 0))
  }

  function EnterStep(s: State, call: Call, f: Frame): Effect {
    if call.Pair? && f.p == f.q then Failing(f, SelfRefused)
    else if f.p == 0 || (call.Pair? && f.q == 0) then Failing(f, Refused)
    else if call.Consume? then Quiet(if MainTag(s, call) == Ecies then Decode else FromRaw, f)
    else Quiet(Read, f)
  }

  /** The argument is decoded while the handle still owns the box. */
  function DecodeStep(cfg: Config, call: Call, f: Frame): Effect {
    if call.Consume? && !cfg.native.decodes(call.op) then Failing(f, Lost(false)) else Quiet(FromRaw, f)
  }

  function FromRawStep(s: State, t: nat, call: Call, f: Frame): Effect {
    Effect(Read, f.(spent := f.p), None, Reassign(s.heap, f.p, OfSpent(t)), None,
           !LiveAs(s.heap, f.p, MainTag(s, call)))
  }

  function ReadStep(s: State, call: Call, f: Frame): Effect {
    Effect(if call.Use? then Write else if call.Pair? then ReadOther else Alloc,
           f.(v := Load(s.heap, f.p)), None, Keep, None, !LiveAs(s.heap, f.p, MainTag(s, call)))
  }

  function ReadOtherStep(s: State, call: Call, f: Frame): Effect {
    Effect(Write, f.(w := Load(s.heap, f.q)), None, Keep, None, !LiveAs(s.heap, f.q, Second(s, call).tag))
  }

  function WriteStep(cfg: Config, s: State, call: Call, f: Frame): Effect
    requires !call.New?
  {
    Effect(if call.Pair? then WriteOther else if call.Use? && call.creates then Alloc else Convert,
           f.(eff := 1), None,
           Put(f.p, Cell(MainTag(s, call), NewMainValue(cfg, MainTag(s, call), call, f.v, f.w)), OfHandle(call.h)),
           None, !LiveAs(s.heap, f.p, MainTag(s, call)))
  }

  function WriteOtherStep(cfg: Config, s: State, call: Call, f: Frame): Effect
    requires call.Pair?
  {
    var r := cfg.native.join(call.op, f.v, f.w);
    Effect(if call.merging && r.merged.Some? then Alloc else Convert,
           f.(eff := 2), None, Put(f.q, Cell(Second(s, call).tag, r.right), OfHandle(call.g)),
           None, !LiveAs(s.heap, f.q, Second(s, call).tag))
  }

  function ConvertStep(cfg: Config, s: State, call: Call, f: Frame): Effect {
    match call
    case Use(_, op, _) => Ending(f, Returned(cfg.native.run(MainTag(s, call), op, f.v).reply))
    case Pair(_, _, op, _) => Ending(f, Returned(cfg.native.join(op, f.v, f.w).reply))
    case _ => Ending(f, Returned(0))
  }

  /** The operation reported an error instead of a new object. */
  function NoChildStep(f: Frame): Effect {
    Failing(f, Failed(f.eff))
  }

  function AllocStep(cfg: Config, s: State, t: nat, call: Call, f: Frame, a: Addr): Effect
    requires ChildValue(cfg, call, f.v, f.w).Some?
  {
    Effect(if call.New? then Adopt else Build, f.(box := a), None,
           Put(a, Cell(ChildTag(call, MainTag(s, call)), ChildValue(cfg, call, f.v, f.w).value), OfBox(t)),
           None, false)
  }

  /** Session calls build the Java handle while the guard is armed; merge only boxes a Long. */
  function BuildStep(s: State, t: nat, call: Call, f: Frame): Effect {
    if call.Pair? then Quiet(Leak, f)
    else Effect(Leak, f.(child := Some(|s.handles|)), None, Keep,
                Some(NewHandle(ChildTag(call, MainTag(s, call)), f.box, t)), false)
  }

  function LeakStep(s: State, call: Call, f: Frame): Effect {
    if f.child.None? then Quiet(Adopt, f)
    else Effect(if call.Consume? then Exit else Done, f.(box := 0, out := Made(f.child.value)), None,
                Reassign(s.heap, f.box, OfHandle(f.child.value)), None, false)
  }

  function AdoptStep(s: State, t: nat, call: Call, f: Frame): Effect {
    Effect(Done, f.(box := 0, child := Some(|s.handles|), out := Made(|s.handles|)), None,
           Reassign(s.heap, f.box, OfHandle(|s.handles|)),
           Some(NewHandle(ChildTag(call, MainTag(s, call)), f.box, t)), false)
  }

  /** Locals are dropped in reverse order of declaration: the guard first, then the old box. */
  function ExitStep(s: State, call: Call, f: Frame): Effect {
    if f.box != 0 then
      Effect(Exit, f.(box := 0), None, Remove(f.box), None, !LiveAs(s.heap, f.box, ChildTag(call, MainTag(s, call))))
    else if f.spent != 0 then ShedStep(s, call, f, Exit)
    else Quiet(if call.Consume? then TakeState else Done, f)
  }

  function ShedStep(s: State, call: Call, f: Frame, stage: Stage): Effect {
    Effect(stage, f.(spent := 0), None, Remove(f.spent), None, !LiveAs(s.heap, f.spent, MainTag(s, call)))
  }

  function TakeStateStep(s: State, t: nat, call: Call, f: Frame): Effect
    requires !call.New?
  {
    var m := Main(s, call);
    if call.Close? then
      if m.ptr == 0 then Ending(f, Returned(0))
      else Effect(Clean, f.(spent := m.ptr), Some(m.(ptr := 0, fate := ByClose)),
                  Reassign(s.heap, m.ptr, OfSpent(t)), None, false)
    else
      // invalidate discards whatever the State still holds
      var abandoned := m.ptr != 0 && f.out.Lost?;
      Effect(Clean, f,
             Some(m.(ptr := 0, fate := if m.ptr == 0 then m.fate else ByConsume(if abandoned then m.ptr else 0))),
             if abandoned then Reassign(s.heap, m.ptr, Orphan(call.h)) else Keep, None, false)
  }

  /** cleanable.clean runs the leak guard unless it has already run. */
  function CleanStep(s: State, call: Call, f: Frame): Effect {
    var m := Main(s, call);
    var next := if call.Close? then Free else Done;
    if m.fired then Quiet(next, f)
    else if m.ptr == 0 then Effect(next, f, Some(m.(fired := true)), Keep, None, false)
    else Effect(next, f, Some(m.(fired := true, ptr := 0, warned := true, fate := ByCleaner)), Remove(m.ptr), None,
                !LiveAs(s.heap, m.ptr, m.tag))
  }

  function FreeStep(s: State, call: Call, f: Frame): Effect {
    var e := ShedStep(s, call, f, Done);
    if f.spent == 0 then Ending(f, Returned(0)) else e.(f := e.f.(out := Returned(0)))
  }

  /** The one way on from every stage but allocation and Done. */
  function Act(cfg: Config, s: State, t: nat, call: Call, stage: Stage, f: Frame): Effect {
    match stage
    case Check => CheckStep(s, call, f)
    case CheckOther => CheckOtherStep(s, call, f)
    case Fetch => FetchStep(s, call, f)
    case Enter => EnterStep(s, call, f)
    case Decode => DecodeStep(cfg, call, f)
    case FromRaw => FromRawStep(s, t, call, f)
    case Read => ReadStep(s, call, f)
    case ReadOther => ReadOtherStep(s, call, f)
    case Write => if call.New? then Quiet(Done, f) else WriteStep(cfg, s, call, f)
    case WriteOther => if call.Pair? then WriteOtherStep(cfg, s, call, f) else Quiet(Done, f)
    case Alloc => NoChildStep(f)
    case Build => BuildStep(s, t, call, f)
    case Leak => LeakStep(s, call, f)
    case Adopt => AdoptStep(s, t, call, f)
    case Convert => ConvertStep(cfg, s, call, f)
    case Exit => ExitStep(s, call, f)
    case TakeState => if call.New? then Quiet(Done, f) else TakeStateStep(s, t, call, f)
    case Clean => CleanStep(s, call, f)
    case Free => FreeStep(s, call, f)
    case Done => Quiet(Done, f)
  }

  predicate CanFail(call: Call, stage: Stage) {
    match stage
    case Check => true
    case Decode => true
    case Read => true
    case Write => true
    case WriteOther => true
    case Alloc => true
    case Build => true
    case Convert => true
    case _ => false
  }

  function FailStep(stage: Stage, f: Frame): Effect {
    if stage == Check then Ending(f, Rejected)
    else if stage == Decode then Failing(f, Lost(true))
    else Failing(f, Broken(f.eff))
  }

  predicate CanShed(call: Call, stage: Stage, f: Frame) {
    call.Consume? && f.spent != 0 && (stage == Alloc || stage == Build || stage == Leak)
  }

  // ----- The step relation -----

  function Apply(s: State, t: nat, call: Call, e: Effect): State
    requires t < |s.threads|
  {
    var changed := if e.main.Some? && !call.New? && call.h < |s.handles|
                   then s.handles[call.h := e.main.value] else s.handles;
    s.(heap := match e.cells {
         case Keep => s.heap
         case Put(a, cell, _) => s.heap[a := cell]
         case Remove(a) => s.heap - {a}
       },
       ledger := match e.cells {
         case Keep => s.ledger
         case Put(a, _, owner) => s.ledger[a := owner]
         case Remove(a) => s.ledger - {a}
       },
       handles := if e.born.Some? then changed + [e.born.value] else changed,
       threads := s.threads[t := s.threads[t].(pc := Running(call, e.stage, e.f))],
       fault := s.fault || e.bad)
  }

  function WithPc(s: State, t: nat, pc: Pc): State
    requires t < |s.threads|
  {
    s.(threads := s.threads[t := s.threads[t].(pc := pc)])
  }

  /** The call takes effect in the commit order, and a new handle becomes reachable. */
  function Commit(cfg: Config, s: State, t: nat, call: Call, f: Frame): State
    requires t < |s.threads|
  {
    var shared := if f.child.Some? && f.child.value < |s.handles|
                  then s.handles[f.child.value := s.handles[f.child.value].(status := Published)] else s.handles;
    WithPc(s, t, Leaving(call, f.out, |Plan(cfg, call)|)).(
      handles := shared, log := s.log + [CallEvent(t, call, f.out)])
  }

  predicate WantsChild(cfg: Config, pc: Pc) {
    pc.Running? && pc.stage == Alloc && ChildValue(cfg, pc.call, pc.f.v, pc.f.w).Some?
  }

  predicate Enabled(cfg: Config, s: State, l: Label) {
    match l
    case Begin(t, call) => t < |s.threads| && s.threads[t].pc.Idle? && s.threads[t].budget > 0 && CallReady(s, call)
    case Step(t) => t < |s.threads| && StepEnabled(cfg, s, s.threads[t].pc)
    case StepAt(t, a) => t < |s.threads| && WantsChild(cfg, s.threads[t].pc) && a != 0 && a !in s.heap
    case Fail(t) =>
      t < |s.threads| && s.threads[t].pc.Running? && CanFail(s.threads[t].pc.call, s.threads[t].pc.stage)
    case Shed(t) =>
      t < |s.threads| && s.threads[t].pc.Running?
      && CanShed(s.threads[t].pc.call, s.threads[t].pc.stage, s.threads[t].pc.f)
    case Drop(h) =>
      Usable(s, h) && forall t :: 0 <= t < |s.threads| ==> !Mentions(s.threads[t].pc, h)
    case Collect(h) =>
      h < |s.handles| && s.handles[h].status == Dropped && !s.handles[h].fired && s.cleaner == Resting
    case Sweep => s.cleaner != Resting && s.cleaner.h < |s.handles|
  }

  predicate StepEnabled(cfg: Config, s: State, pc: Pc) {
    match pc
    case Idle => false
    case Waiting(call, k) => k < |Plan(cfg, call)| ==> Plan(cfg, call)[k] !in s.monitor
    case Running(call, stage, f) => !WantsChild(cfg, pc)
    case Leaving(call, out, k) => true
  }

  /** Step(t): take the next monitor or go on; release monitors innermost first, then return. */
  function StepThread(cfg: Config, s: State, t: nat): State
    requires t < |s.threads|
  {
    var th := s.threads[t];
    match th.pc
    case Idle => s
    case Waiting(call, k) =>
      if k < |Plan(cfg, call)|
      then WithPc(s, t, Waiting(call, k + 1)).(monitor := s.monitor[Plan(cfg, call)[k] := t])
      else WithPc(s, t, Running(call, FirstStage(call), FIRST_FRAME))
    case Running(call, stage, f) =>
      if stage == Done then Commit(cfg, s, t, call, f) else Apply(s, t, call, Act(cfg, s, t, call, stage, f))
    case Leaving(call, out, k) =>
      if 0 < k <= |Plan(cfg, call)|
      then WithPc(s, t, Leaving(call, out, k - 1)).(monitor := s.monitor - {Plan(cfg, call)[k - 1]})
      else s.(threads := s.threads[t := Thread(th.budget, Idle, th.returned + [Answer(call, out)])])
  }

  /** The Cleaner thread: State.take, then the warning, then the native free. */
  function SweepStep(s: State): State
    requires s.cleaner != Resting && s.cleaner.h < |s.handles|
  {
    var h := s.cleaner.h;
    var m := s.handles[h];
    match s.cleaner
    case Resting => s
    case Sweeping(_) =>
      if m.ptr == 0 then s.(cleaner := Resting)
      else s.(cleaner := Warning(h, m.ptr), handles := s.handles[h := m.(ptr := 0, fate := ByCleaner)],
              ledger := if m.ptr in s.ledger then s.ledger[m.ptr := OfCleaner] else s.ledger,
              log := s.log + [CollectEvent(h)])
    case Warning(_, ptr) => s.(cleaner := Freeing(h, ptr), handles := s.handles[h := m.(warned := true)])
    case Freeing(_, ptr) =>
      s.(cleaner := Resting, heap := s.heap - {ptr}, ledger := s.ledger - {ptr},
         fault := s.fault || !LiveAs(s.heap, ptr, m.tag))
  }

  function Next(cfg: Config, s: State, l: Label): State
    requires Enabled(cfg, s, l)
  {
    match l
    case Begin(t, call) =>
      s.(threads := s.threads[t := s.threads[t].(budget := s.threads[t].budget - 1, pc := Waiting(call, 0))])
    case Step(t) => StepThread(cfg, s, t)
    case StepAt(t, a) =>
      var pc := s.threads[t].pc;
      Apply(s, t, pc.call, AllocStep(cfg, s, t, pc.call, pc.f, a))
    case Fail(t) =>
      var pc := s.threads[t].pc;
      Apply(s, t, pc.call, FailStep(pc.stage, pc.f))
    case Shed(t) =>
      var pc := s.threads[t].pc;
      Apply(s, t, pc.call, ShedStep(s, pc.call, pc.f, pc.stage))
    case Drop(h) => s.(handles := s.handles[h := s.handles[h].(status := Dropped)])
    case Collect(h) => s.(handles := s.handles[h := s.handles[h].(fired := true)], cleaner := Sweeping(h))
    case Sweep => SweepStep(s)
  }

  // ----- Runs -----

  predicate Init(s: State) {
    && s.heap == map[] && s.handles == [] && s.monitor == map[] && s.cleaner == Resting
    && !s.fault && s.ledger == map[] && s.log == []
    && forall t :: 0 <= t < |s.threads| ==> s.threads[t].pc == Idle && s.threads[t].returned == []
  }

  /** The labels can be taken one after the other from s. */
  predicate Possible(cfg: Config, s: State, ls: seq<Label>)
    decreases |ls|
  {
    ls == [] || (Enabled(cfg, s, ls[0]) && Possible(cfg, Next(cfg, s, ls[0]), ls[1..]))
  }

  function After(cfg: Config, s: State, ls: seq<Label>): State
    requires Possible(cfg, s, ls)
    decreases |ls|
  {
    if ls == [] then s else After(cfg, Next(cfg, s, ls[0]), ls[1..])
  }
}
