/** The invariant holds in every reachable state. */
module Reachability {
  import opened Values
  import opened Machine
  import opened Invariant
  import opened Preservation
  import opened Commits
  import opened Collection

  lemma StepThreadKeeps(cfg: Config, s: State, t: nat)
    requires Inv(cfg, s) && Enabled(cfg, s, Step(t))
    ensures Inv(cfg, Next(cfg, s, Step(t)))
  {
    assert CallInv(cfg, s, s.threads[t].pc);
    match s.threads[t].pc
    case Waiting(call, k) =>
      if k < |Plan(cfg, call)| { AcquireKeeps(cfg, s, t); } else { EnterKeeps(cfg, s, t, call); }
    case Running(call, stage, f) =>
      if stage == Done {
        HereHolds(cfg, s, t);
        CommitKeeps(cfg, s, t, call, f);
      } else {
        StepKeeps(cfg, s, t);
      }
    case Leaving(_, _, _) => ReleaseKeeps(cfg, s, t);
  }

  lemma NextKeeps(cfg: Config, s: State, l: Label)
    requires Inv(cfg, s) && Enabled(cfg, s, l)
    ensures Inv(cfg, Next(cfg, s, l))
  {
    match l
    case Begin(t, call) => BeginKeeps(cfg, s, t, call);
    case Step(t) => StepThreadKeeps(cfg, s, t);
    case StepAt(t, a) => StepAtKeeps(cfg, s, t, a);
    case Fail(t) => FailKeeps(cfg, s, t);
    case Shed(t) => ShedKeeps(cfg, s, t);
    case Drop(h) => DropKeeps(cfg, s, h);
    case Collect(h) => CollectKeeps(cfg, s, h);
    case Sweep => SweepKeeps(cfg, s);
  }

  lemma {:induction false} RunKeeps(cfg: Config, s: State, ls: seq<Label>)
    requires Inv(cfg, s) && Possible(cfg, s, ls)
    ensures Inv(cfg, After(cfg, s, ls))
    decreases |ls|
  {
    if ls != [] {
      NextKeeps(cfg, s, ls[0]);
      RunKeeps(cfg, Next(cfg, s, ls[0]), ls[1..]);
    }
  }

  /** s is reached by some run from a fresh start. */
  ghost predicate Reachable(cfg: Config, s: State) {
    exists s0, ls :: Init(s0) && Possible(cfg, s0, ls) && After(cfg, s0, ls) == s
  }

  lemma ReachableInv(cfg: Config, s: State)
    requires Reachable(cfg, s)
    ensures Inv(cfg, s)
  {
    var s0, ls :| Init(s0) && Possible(cfg, s0, ls) && After(cfg, s0, ls) == s;
    InitInv(cfg, s0);
    RunKeeps(cfg, s0, ls);
  }
}
