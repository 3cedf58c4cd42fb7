/** InboundGroupSession.withLocks as the code runs it: nested synchronized blocks on the two
    sessions and, when their hashes collide, on the tie-break lock. */
module PairLocks {
  import opened Values
  import opened Machine

  /** The monitors of one thread. */
  class Monitors {
    var held: seq<Lock>      // outermost first
    var entered: seq<Lock>   // every monitor entered so far, in order

    constructor ()
      ensures held == entered == []
    {
      held, entered := [], [];
    }

    method Enter(l: Lock)
      modifies this
      ensures held == old(held) + [l] && entered == old(entered) + [l]
    {
      held, entered := held + [l], entered + [l];
    }

    /** Leaving a synchronized block, normally or by an exception, gives back the innermost monitor. */
    method Leave()
      requires held != []
      modifies this
      ensures held == old(held)[..|old(held)| - 1] && entered == old(entered)
    {
      held := held[..|held| - 1];
    }
  }

  /** The action is given what the thread holds when it runs; its outcome, a value or an exception,
      is passed on. The monitors are entered in the order of the plan that the concurrent machine
      follows, and all are given back either way. */
  method WithLocks(cfg: Config, m: Monitors, first: nat, second: nat, action: seq<Lock> -> Outcome)
    returns (out: Outcome)
    modifies m
    ensures out == action(old(m.held) + PairPlan(cfg, first, second))
    ensures m.entered == old(m.entered) + PairPlan(cfg, first, second)
    ensures m.held == old(m.held)
  {
    if first == second {
      m.Enter(Session(first));
      out := action(m.held);
      m.Leave();
      return;
    }
    var firstHash, secondHash := cfg.hash(first), cfg.hash(second);
    if firstHash == secondHash {
      m.Enter(TieBreak);
      m.Enter(Session(first));
      m.Enter(Session(second));
      assert m.held == old(m.held) + PairPlan(cfg, first, second);
      out := action(m.held);
      m.Leave();
      m.Leave();
      m.Leave();
      return;
    }
    var lower := if firstHash < secondHash then first else second;
    var higher := if lower == first then second else first;
    m.Enter(Session(lower));
    m.Enter(Session(higher));
    assert m.held == old(m.held) + PairPlan(cfg, first, second);
    out := action(m.held);
    m.Leave();
    m.Leave();
  }
}
