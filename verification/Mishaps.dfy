/** What can go wrong by itself in a call, and that nothing else gives the outcomes that report it:
    a call that meets no such step is never answered that way. */
module Mishaps {
  import opened Values
  import opened Machine
  import opened Serializability

  datatype Mishap =
    | BadArgument   // an argument check throws before the native call
    | Conversion    // Ecies: a JNI conversion of an argument fails before Box::from_raw
    | Breakdown     // a later JNI conversion fails, or Rust panics

  /** The mishap that an answer reports; the others are answers of the code itself. */
  function MishapOf(out: Outcome): Option<Mishap> {
    match out
    case Rejected => Some(BadArgument)
    case Lost(jni) => if jni then Some(Conversion) else None
    case Broken(_) => Some(Breakdown)
    case _ => None
  }

  /** The mishap that a failing step at this stage is. */
  function MishapAt(stage: Stage): Mishap {
    match stage
    case Check => BadArgument
    case Decode => Conversion
    case _ => Breakdown
  }

  /** Thread t meets the mishap in this step. */
  predicate Meets(s: State, l: Label, t: nat, m: Mishap) {
    l == Fail(t) && t < |s.threads| && s.threads[t].pc.Running? && MishapAt(s.threads[t].pc.stage) == m
  }

  /** Thread t never meets it on the way from s. */
  predicate Spared(cfg: Config, s: State, ls: seq<Label>, t: nat, m: Mishap)
    requires Possible(cfg, s, ls)
    decreases |ls|
  {
    ls == [] || (!Meets(s, ls[0], t, m) && Spared(cfg, Next(cfg, s, ls[0]), ls[1..], t, m))
  }

  /** Among the calls of thread t from event n on, and in the one it is in, none reports it. */
  ghost predicate Unharmed(s: State, t: nat, m: Mishap, n: nat) {
    && (forall i :: n <= i < |s.log| && s.log[i].CallEvent? && s.log[i].t == t ==> MishapOf(s.log[i].out) != Some(m))
    && (t < |s.threads| && s.threads[t].pc.Running? ==> MishapOf(s.threads[t].pc.f.out) != Some(m))
  }

  lemma ActsMeetNone(cfg: Config, s: State, t: nat, call: Call, stage: Stage, f: Frame)
    ensures var e := Act(cfg, s, t, call, stage, f); e.f.out == f.out || MishapOf(e.f.out).None?
  {
    match stage
    case Check =>
    case CheckOther =>
    case Fetch =>
    case Enter =>
    case Decode =>
    case FromRaw =>
    case Read =>
    case ReadOther =>
    case Write =>
    case WriteOther =>
    case Alloc =>
    case Build =>
    case Leak =>
    case Adopt =>
    case Convert =>
    case Exit =>
    case TakeState =>
    case Clean =>
    case Free =>
    case Done =>
  }

  /** A step of t that is not the mishap does not make its call report it, and a commit reports
      what the call had. */
  lemma MoveUnharmed(cfg: Config, s: State, l: Label, t: nat, m: Mishap)
    requires Enabled(cfg, s, l) && Moves(l, t) && !Meets(s, l, t, m)
    requires s.threads[t].pc.Running? ==> MishapOf(s.threads[t].pc.f.out) != Some(m)
    ensures var pc := Next(cfg, s, l).threads[t].pc;
            && (pc.Running? ==> MishapOf(pc.f.out) != Some(m))
            && (s.threads[t].pc.Running? && pc.Leaving? ==> MishapOf(pc.out) != Some(m))
  {
    hide Act, CallReady, Plan;
    if l.Step? && s.threads[t].pc.Running? && s.threads[t].pc.stage != Done {
      var Running(call, stage, f) := s.threads[t].pc;
      ActsMeetNone(cfg, s, t, call, stage, f);
    }
  }

  lemma StepUnharmed(cfg: Config, s: State, l: Label, t: nat, m: Mishap, n: nat)
    requires Enabled(cfg, s, l) && t < |s.threads| && !Meets(s, l, t, m) && Unharmed(s, t, m, n)
    ensures Unharmed(Next(cfg, s, l), t, m, n)
  {
    hide Next, Enabled, Meets;
    var s' := Next(cfg, s, l);
    CommitsInside(cfg, s, l);
    if Moves(l, t) {
      MoveUnharmed(cfg, s, l, t, m);
    } else {
      OthersStay(cfg, s, l, t);
    }
    forall i | n <= i < |s'.log| && s'.log[i].CallEvent? && s'.log[i].t == t
      ensures MishapOf(s'.log[i].out) != Some(m)
    {
      if i < |s.log| { assert s'.log[i] == s.log[i]; }
    }
  }

  lemma {:induction false} RunUnharmed(cfg: Config, s: State, ls: seq<Label>, t: nat, m: Mishap, n: nat)
    requires Possible(cfg, s, ls) && Spared(cfg, s, ls, t, m) && t < |s.threads| && Unharmed(s, t, m, n)
    ensures Unharmed(After(cfg, s, ls), t, m, n)
    decreases |ls|
  {
    hide Next, Enabled, Meets, Unharmed;
    if ls != [] {
      SameThreads(cfg, s, ls[0]);
      StepUnharmed(cfg, s, ls[0], t, m, n);
      RunUnharmed(cfg, Next(cfg, s, ls[0]), ls[1..], t, m, n);
    }
  }

  /** Each outcome that reports a mishap comes from that mishap, in that very call: if thread t is
      between calls and is then spared it, none of its answers reports it. */
  lemma SparedNeverReports(cfg: Config, s: State, ls: seq<Label>, t: nat, m: Mishap, i: nat)
    requires Possible(cfg, s, ls) && Spared(cfg, s, ls, t, m) && t < |s.threads| && !s.threads[t].pc.Running?
    requires |s.log| <= i < |After(cfg, s, ls).log|
    requires After(cfg, s, ls).log[i].CallEvent? && After(cfg, s, ls).log[i].t == t
    ensures MishapOf(After(cfg, s, ls).log[i].out) != Some(m)
  {
    hide Next, Enabled;
    RunUnharmed(cfg, s, ls, t, m, |s.log|);
  }

  /** A thread that takes no failing step at all is spared everything. */
  lemma {:induction false} WithoutFailSpared(cfg: Config, s: State, ls: seq<Label>, t: nat, m: Mishap)
    requires Possible(cfg, s, ls) && Fail(t) !in ls
    ensures Spared(cfg, s, ls, t, m)
    decreases |ls|
  {
    hide Next, Enabled;
    if ls != [] {
      assert ls[0] in ls && forall l :: l in ls[1..] ==> l in ls;
      WithoutFailSpared(cfg, Next(cfg, s, ls[0]), ls[1..], t, m);
    }
  }

  /** Such steps can happen: wherever the code converts, decodes, allocates or runs an operation. */
  lemma MishapsHappen(cfg: Config, s: State, t: nat)
    requires t < |s.threads| && s.threads[t].pc.Running?
    requires s.threads[t].pc.stage in {Check, Decode, Read, Write, WriteOther, Alloc, Build, Convert}
    ensures Enabled(cfg, s, Fail(t))
    ensures var pc := s.threads[t].pc; var pc' := Next(cfg, s, Fail(t)).threads[t].pc;
            pc'.Running? && MishapOf(pc'.f.out) == Some(MishapAt(pc.stage))
    ensures Next(cfg, s, Fail(t)).heap == s.heap
  {
  }

  // ----- What the machine leaves open -----

  /** An idle thread can begin any call on handles it can reach, of the class that declares it. */
  lemma CallsBegin(cfg: Config, s: State, t: nat, call: Call)
    requires t < |s.threads| && s.threads[t].pc.Idle? && s.threads[t].budget > 0
    ensures Enabled(cfg, s, Begin(t, call)) <==>
              && (forall h :: h in CallHandles(call) ==> h < |s.handles| && s.handles[h].status == Published)
              && (call.Use? && call.creates ==> s.handles[call.h].tag == Account)
              && (call.Consume? ==> s.handles[call.h].tag in {Sas, Ecies})
              && (call.Pair? ==> s.handles[call.h].tag == s.handles[call.g].tag == InboundGroup)
  {
    match call
    case Use(h, _, _) => assert h in CallHandles(call);
    case Consume(h, _) => assert h in CallHandles(call);
    case Pair(h, g, _, _) => assert h in CallHandles(call) && g in CallHandles(call);
    case Close(h) => assert h in CallHandles(call);
    case New(_, _) =>
  }

  /** The allocator may return any address that is not in use, a freed one included, and a moved-out
      box may be released as soon as the operation has read it. */
  lemma AllocatorIsFree(cfg: Config, s: State, t: nat, a: Addr)
    requires t < |s.threads| && WantsChild(cfg, s.threads[t].pc) && a != 0 && a !in s.heap
    ensures Enabled(cfg, s, StepAt(t, a)) && a in Next(cfg, s, StepAt(t, a)).heap
    ensures s.threads[t].pc.call.Consume? && s.threads[t].pc.f.spent != 0 ==>
              Enabled(cfg, s, Shed(t)) && s.threads[t].pc.f.spent !in Next(cfg, s, Shed(t)).heap
  {
  }
}
