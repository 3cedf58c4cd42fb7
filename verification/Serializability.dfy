/** Every interleaved run is equivalent to the atomic machine running the calls one by one in
    commit order: same answers, same final native values. */
module Serializability {
  import opened Values
  import opened Atomic
  import opened Machine
  import opened Invariant
  import opened Reachability

  /** What the history answers to one thread, in order. */
  function AnswersOf(log: seq<Event>, t: nat): seq<Answer> {
    if log == [] then []
    else
      var e := log[|log| - 1];
      AnswersOf(log[..|log| - 1], t) + if e.CallEvent? && e.t == t then [Answer(e.call, e.out)] else []
  }

  function Pending(pc: Pc): seq<Answer> {
    if pc.Leaving? then [Answer(pc.call, pc.out)] else []
  }

  ghost predicate AnswersMatch(s: State) {
    forall t :: 0 <= t < |s.threads| ==> AnswersOf(s.log, t) == s.threads[t].returned + Pending(s.threads[t].pc)
  }

  lemma AnswersExtend(log: seq<Event>, e: Event, t: nat)
    ensures AnswersOf(log + [e], t) ==
            AnswersOf(log, t) + if e.CallEvent? && e.t == t then [Answer(e.call, e.out)] else []
  {
    assert (log + [e])[..|log|] == log;
  }

  /** A call takes effect by one step of its own thread, after it began and before it returns. */
  lemma CommitsInside(cfg: Config, s: State, l: Label)
    requires Enabled(cfg, s, l)
    ensures var s' := Next(cfg, s, l);
            || s'.log == s.log
            || (l.Step? && s.threads[l.t].pc.Running? && s'.threads[l.t].pc.Leaving?
                && s'.log == s.log + [CallEvent(l.t, s.threads[l.t].pc.call, s'.threads[l.t].pc.out)])
            || (l.Sweep? && s.cleaner.Sweeping? && s'.log == s.log + [CollectEvent(s.cleaner.h)])
  {
    hide Act, AllocStep, ShedStep, FailStep, Plan, CallReady, Usable, CanFail, CanShed;
  }

  /** The step is one of thread t. */
  predicate Moves(l: Label, t: nat) {
    (l.Begin? || l.Step? || l.StepAt? || l.Fail? || l.Shed?) && l.t == t
  }

  lemma OthersStay(cfg: Config, s: State, l: Label, t: nat)
    requires Enabled(cfg, s, l) && t < |s.threads| && !Moves(l, t)
    ensures |Next(cfg, s, l).threads| == |s.threads| && Next(cfg, s, l).threads[t] == s.threads[t]
  {
    hide Act, AllocStep, ShedStep, FailStep, Plan, CallReady, Usable, CanFail, CanShed;
    match l
    case Begin(_, _) =>
    case Step(_) =>
    case StepAt(_, _) =>
    case Fail(_) =>
    case Shed(_) =>
    case Drop(_) =>
    case Collect(_) =>
    case Sweep =>
  }

  /** A thread returns what it committed, one answer at a time. */
  lemma OwnStep(cfg: Config, s: State, l: Label)
    requires Enabled(cfg, s, l) && (l.Begin? || l.Step? || l.StepAt? || l.Fail? || l.Shed?)
    ensures l.t < |s.threads| == |Next(cfg, s, l).threads|
    ensures var th := s.threads[l.t]; var th' := Next(cfg, s, l).threads[l.t];
            if Next(cfg, s, l).log != s.log then
              && th.pc.Running? && th'.pc.Leaving?
              && th'.returned + Pending(th'.pc) == th.returned + Pending(th.pc) + [Answer(th.pc.call, th'.pc.out)]
            else th'.returned + Pending(th'.pc) == th.returned + Pending(th.pc)
    ensures Next(cfg, s, l).log != s.log ==> l.Step? && s.threads[l.t].pc.Running?
  {
    hide Act, AllocStep, ShedStep, FailStep, Plan, CallReady, Usable, CanFail, CanShed;
  }

  lemma StepAnswers(cfg: Config, s: State, l: Label, u: nat)
    requires Enabled(cfg, s, l) && u < |s.threads|
    ensures var s' := Next(cfg, s, l); |s'.threads| == |s.threads|
    ensures var s' := Next(cfg, s, l);
            s'.log == s.log ==>
              s'.threads[u].returned + Pending(s'.threads[u].pc) == s.threads[u].returned + Pending(s.threads[u].pc)
    ensures var s' := Next(cfg, s, l);
            s'.log != s.log ==>
              s'.threads[u].returned + Pending(s'.threads[u].pc) ==
              s.threads[u].returned + Pending(s.threads[u].pc) +
              if l.Step? && l.t == u then [Answer(s.threads[u].pc.call, s'.threads[u].pc.out)] else []
  {
    hide Next, Enabled;
    CommitsInside(cfg, s, l);
    if Moves(l, u) { OwnStep(cfg, s, l); } else { OthersStay(cfg, s, l, u); }
  }

  lemma SameThreads(cfg: Config, s: State, l: Label)
    requires Enabled(cfg, s, l)
    ensures |Next(cfg, s, l).threads| == |s.threads|
  {
    hide Act, AllocStep, ShedStep, FailStep, Plan, CallReady, Usable, CanFail, CanShed;
    match l
    case Begin(_, _) =>
    case Step(_) =>
    case StepAt(_, _) =>
    case Fail(_) =>
    case Shed(_) =>
    case Drop(_) =>
    case Collect(_) =>
    case Sweep =>
  }

  lemma AnswersKept(cfg: Config, s: State, l: Label)
    requires Enabled(cfg, s, l) && AnswersMatch(s)
    ensures AnswersMatch(Next(cfg, s, l))
  {
    hide Next, Enabled;
    var s' := Next(cfg, s, l);
    CommitsInside(cfg, s, l);
    SameThreads(cfg, s, l);
    forall t | 0 <= t < |s'.threads|
      ensures AnswersOf(s'.log, t) == s'.threads[t].returned + Pending(s'.threads[t].pc)
    {
      StepAnswers(cfg, s, l, t);
      if s'.log != s.log { AnswersExtend(s.log, s'.log[|s.log|], t); }
    }
  }

  lemma {:induction false} RunAnswers(cfg: Config, s: State, ls: seq<Label>)
    requires Possible(cfg, s, ls) && AnswersMatch(s)
    ensures AnswersMatch(After(cfg, s, ls))
    decreases |ls|
  {
    if ls != [] {
      AnswersKept(cfg, s, ls[0]);
      RunAnswers(cfg, Next(cfg, s, ls[0]), ls[1..]);
    }
  }

  /** The commit order respects real time: what has happened is never reordered. */
  lemma {:induction false} LogGrows(cfg: Config, s: State, ls: seq<Label>)
    requires Possible(cfg, s, ls)
    ensures s.log <= After(cfg, s, ls).log
    decreases |ls|
  {
    if ls != [] {
      CommitsInside(cfg, s, ls[0]);
      LogGrows(cfg, Next(cfg, s, ls[0]), ls[1..]);
    }
  }

  /** The native value behind a handle, as the atomic machine would show it. */
  function Actual(s: State, h: nat): Body
    requires h < |s.handles|
  {
    if s.handles[h].ptr == 0 then Shut(Leaked(s.handles[h]))
    else if s.handles[h].ptr in s.heap then Open(s.heap[s.handles[h].ptr].value)
    else Shut(false)
  }

  lemma IdleHandles(cfg: Config, s: State, h: nat)
    requires Inv(cfg, s) && h < |s.handles| && !s.handles[h].status.Private? && !InRun(s, h)
    ensures h in Spec(cfg, s) && Spec(cfg, s)[h] == Slot(s.handles[h].tag, Actual(s, h))
  {
    assert HandleInv(cfg, s, h, s.handles[h]);
    assert Settled(HandleView(cfg, s, h));
  }

  /** Serializability. Replaying the commit order on the atomic machine succeeds, gives every
      thread the answers it got, and ends with the real native value of every handle that no
      running call has in hand. */
  lemma Serializable(cfg: Config, s0: State, ls: seq<Label>)
    requires Init(s0) && Possible(cfg, s0, ls)
    ensures var s := After(cfg, s0, ls);
            Replay(cfg, s.log).Some?
    ensures var s := After(cfg, s0, ls);
            forall t :: 0 <= t < |s.threads| ==>
              AnswersOf(s.log, t) == s.threads[t].returned + Pending(s.threads[t].pc)
    ensures var s := After(cfg, s0, ls);
            forall h :: 0 <= h < |s.handles| && !s.handles[h].status.Private? && !InRun(s, h) ==>
              h in Replay(cfg, s.log).value &&
              Replay(cfg, s.log).value[h] == Slot(s.handles[h].tag, Actual(s, h))
  {
    var s := After(cfg, s0, ls);
    InitInv(cfg, s0);
    RunKeeps(cfg, s0, ls);
    RunAnswers(cfg, s0, ls);
    forall h | 0 <= h < |s.handles| && !s.handles[h].status.Private? && !InRun(s, h)
      ensures h in Spec(cfg, s) && Spec(cfg, s)[h] == Slot(s.handles[h].tag, Actual(s, h))
    {
      IdleHandles(cfg, s, h);
    }
  }

  lemma {:induction false} AnswersMonotone(log: seq<Event>, i: nat, j: nat, t: nat)
    requires i <= j <= |log|
    ensures |AnswersOf(log[..i], t)| <= |AnswersOf(log[..j], t)|
    decreases j
  {
    if i < j {
      assert log[..j][..j - 1] == log[..j - 1];
      AnswersMonotone(log, i, j - 1, t);
    }
  }

  /** The event behind a thread's k-th answer. */
  lemma {:induction false} AnswerEvent(log: seq<Event>, t: nat, k: nat) returns (i: nat)
    requires k < |AnswersOf(log, t)|
    ensures i < |log| && log[i].CallEvent? && log[i].t == t
    ensures AnswersOf(log, t)[k] == Answer(log[i].call, log[i].out)
    ensures |AnswersOf(log[..i], t)| == k
  {
    var n := |log| - 1;
    if k < |AnswersOf(log[..n], t)| {
      i := AnswerEvent(log[..n], t, k);
      assert log[..n][..i] == log[..i];
    } else {
      i := n;
    }
  }

  /** Every event of a call is answered to its thread. */
  lemma {:induction false} EventAnswer(log: seq<Event>, t: nat, i: nat) returns (k: nat)
    requires i < |log| && log[i].CallEvent? && log[i].t == t
    ensures k < |AnswersOf(log, t)| && AnswersOf(log, t)[k] == Answer(log[i].call, log[i].out)
  {
    var n := |log| - 1;
    if i < n {
      k := EventAnswer(log[..n], t, i);
    } else {
      k := |AnswersOf(log[..n], t)|;
    }
  }

  /** Only the threads of the machine make calls. */
  lemma {:induction false} RunNamesThreads(cfg: Config, s: State, ls: seq<Label>, i: nat)
    requires Possible(cfg, s, ls) && |s.log| <= i < |After(cfg, s, ls).log| && After(cfg, s, ls).log[i].CallEvent?
    ensures After(cfg, s, ls).log[i].t < |After(cfg, s, ls).threads| == |s.threads|
    decreases |ls|
  {
    hide Next;
    if ls != [] {
      var s' := Next(cfg, s, ls[0]);
      SameThreads(cfg, s, ls[0]);
      CommitsInside(cfg, s, ls[0]);
      LogGrows(cfg, s', ls[1..]);
      ThreadsStay(cfg, s', ls[1..]);
      if |s'.log| <= i {
        RunNamesThreads(cfg, s', ls[1..], i);
      }
    }
  }

  lemma {:induction false} ThreadsStay(cfg: Config, s: State, ls: seq<Label>)
    requires Possible(cfg, s, ls)
    ensures |After(cfg, s, ls).threads| == |s.threads|
    decreases |ls|
  {
    hide Next, Enabled;
    if ls != [] {
      SameThreads(cfg, s, ls[0]);
      ThreadsStay(cfg, Next(cfg, s, ls[0]), ls[1..]);
    }
  }

  /** Real time: a call that had returned when another call had not yet begun comes first in the
      commit order. Here t had its k-th answer, and u was idle after n answers, in state s1. */
  lemma RealTimeOrder(cfg: Config, s0: State, ls: seq<Label>, more: seq<Label>, t: nat, k: nat, u: nat)
    returns (i: nat, j: nat)
    requires Init(s0) && Possible(cfg, s0, ls) && Possible(cfg, After(cfg, s0, ls), more)
    requires var s1 := After(cfg, s0, ls); var s2 := After(cfg, s1, more);
             && t < |s1.threads| && k < |s1.threads[t].returned|
             && u < |s1.threads| == |s2.threads| && s1.threads[u].pc.Idle?
             && |s1.threads[u].returned| < |s2.threads[u].returned|
    ensures var s1 := After(cfg, s0, ls); var s2 := After(cfg, s1, more);
            && i < j < |s2.log| && s2.log[i].CallEvent? && s2.log[i].t == t
            && s1.threads[t].returned[k] == Answer(s2.log[i].call, s2.log[i].out)
            && s2.log[j].CallEvent? && s2.log[j].t == u
            && s2.threads[u].returned[|s1.threads[u].returned|] == Answer(s2.log[j].call, s2.log[j].out)
  {
    hide Next, Enabled;
    var s1 := After(cfg, s0, ls);
    var s2 := After(cfg, s1, more);
    RunAnswers(cfg, s0, ls);
    RunAnswers(cfg, s1, more);
    LogGrows(cfg, s1, more);
    assert s2.log[..|s1.log|] == s1.log;
    i := AnswerEvent(s1.log, t, k);
    var n := |s1.threads[u].returned|;
    j := AnswerEvent(s2.log, u, n);
    assert s2.log[..j + 1][..j] == s2.log[..j];
    assert |AnswersOf(s2.log[..j + 1], u)| == n + 1;
    if j < |s1.log| {
      AnswersMonotone(s2.log, j + 1, |s1.log|, u);
      assert false;
    }
  }
}
