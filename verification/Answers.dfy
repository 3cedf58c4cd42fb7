/** What each call is answered, and what it does to the native values, stated on the operations
    themselves. A call that meets no mishap has exactly one kind of answer. */
module Answers {
  import opened Values
  import opened Atomic
  import opened Machine
  import opened Invariant
  import opened Reachability
  import opened Histories
  import opened Mishaps

  // ----- Single events of a history -----

  predicate IsOpen(a: Table, h: nat, tag: Tag, v: Value) {
    h in a && a[h] == Slot(tag, Open(v))
  }

  /** Only the named handles differ, and c, if any, is new. */
  ghost predicate OnlyAt(a: Table, b: Table, hs: set<nat>) {
    forall x: nat :: x !in hs ==> (x in b <==> x in a) && (x in a ==> b[x] == a[x])
  }

  /** A synchronized call on an open handle holding v. */
  lemma UseMeans(cfg: Config, a: Table, h: nat, op: int, creates: bool, out: Outcome, tag: Tag, v: Value)
    requires Perform(cfg, a, Use(h, op, creates), out).Some? && IsOpen(a, h, tag, v)
    ensures var b := Perform(cfg, a, Use(h, op, creates), out).value;
            var r := cfg.native.run(tag, op, v);
            && OnlyAt(a, b, {h} + if out.Made? then {out.child} else {})
            && IsOpen(b, h, tag, if out == Rejected || out == Broken(0) then v else r.next)
            && (out.Made? ==>
                  creates && tag == Account && out.child !in a
                  && exists x :: r.made == Some(x) && IsOpen(b, out.child, OlmSession, x))
    ensures var r := cfg.native.run(tag, op, v);
            MishapOf(out).None? ==>
              if !creates then out == Returned(r.reply)
              else if r.made.Some? then out.Made? else out == Failed(1)
  {
  }

  /** A consuming call on an open handle holding v. */
  lemma ConsumeMeans(cfg: Config, a: Table, h: nat, op: int, out: Outcome, tag: Tag, v: Value)
    requires Perform(cfg, a, Consume(h, op), out).Some? && IsOpen(a, h, tag, v)
    ensures var b := Perform(cfg, a, Consume(h, op), out).value;
            && OnlyAt(a, b, {h} + if out.Made? then {out.child} else {})
            && (if out == Rejected then b == a else h in b && b[h] == Slot(tag, Shut(out.Lost?)))
            && (out.Made? ==>
                  && cfg.native.decodes(op) && out.child !in a
                  && exists x :: cfg.native.establish(op, v) == Some(x)
                       && IsOpen(b, out.child, if tag == Sas then EstablishedSas else EstablishedEcies, x))
    ensures tag == Sas || tag == Ecies
    ensures MishapOf(out).None? ==>
              if !cfg.native.decodes(op) then out == if tag == Ecies then Lost(false) else Failed(0)
              else if cfg.native.establish(op, v).Some? then out.Made? else out == Failed(0)
  {
  }

  /** A pair call on two open sessions. */
  lemma PairMeans(cfg: Config, a: Table, h: nat, g: nat, op: int, merging: bool, out: Outcome, v: Value, w: Value)
    requires Perform(cfg, a, Pair(h, g, op, merging), out).Some?
    requires IsOpen(a, h, InboundGroup, v) && IsOpen(a, g, InboundGroup, w)
    ensures var b := Perform(cfg, a, Pair(h, g, op, merging), out).value;
            h == g ==> b == a && (MishapOf(out).None? ==> out == SelfRefused)
    ensures var b := Perform(cfg, a, Pair(h, g, op, merging), out).value;
            var r := cfg.native.join(op, v, w);
            h != g ==>
              && OnlyAt(a, b, {h, g} + if out.Made? then {out.child} else {})
              && IsOpen(b, h, InboundGroup, if out == Rejected || out == Broken(0) then v else r.left)
              && IsOpen(b, g, InboundGroup, if out in {Rejected, Broken(0), Broken(1)} then w else r.right)
              && (out.Made? ==>
                    merging && out.child !in a
                    && exists x :: r.merged == Some(x) && IsOpen(b, out.child, InboundGroup, x))
              && (MishapOf(out).None? ==>
                    if merging && r.merged.Some? then out.Made? else out == Returned(r.reply))
  {
  }

  /** A call that finds a handle it names closed or consumed changes nothing. */
  lemma ShutMeans(cfg: Config, a: Table, call: Call, out: Outcome, h: nat)
    requires Perform(cfg, a, call, out).Some? && h in CallHandles(call) && IsShut(a, h)
    ensures Perform(cfg, a, call, out) == Some(a)
    ensures call.Close? ==> out == Returned(0)
    ensures !call.Close? ==> out == Closed || out == Rejected
  {
  }

  lemma CloseMeans(cfg: Config, a: Table, h: nat, out: Outcome)
    requires Perform(cfg, a, Close(h), out).Some?
    ensures var b := Perform(cfg, a, Close(h), out).value;
            out == Returned(0) && OnlyAt(a, b, {h}) && IsShut(b, h) && b[h].tag == a[h].tag
            && (a[h].body.Open? ==> b[h].body == Shut(false))
  {
  }

  lemma NewMeans(cfg: Config, a: Table, tag: Tag, op: int, out: Outcome)
    requires Perform(cfg, a, New(tag, op), out).Some?
    ensures var b := Perform(cfg, a, New(tag, op), out).value;
            if out.Made? then
              out.child !in a && OnlyAt(a, b, {out.child}) && IsOpen(b, out.child, tag, cfg.native.spawn(op))
            else b == a && out == Broken(0)
  {
  }

  // ----- The answer that is due -----

  /** What the call is answered on this table if it meets no mishap. */
  predicate Due(native: Native, a: Table, call: Call, out: Outcome) {
    match call
    case Use(h, op, creates) =>
      h in a &&
      (match a[h].body
       case Shut(_) => out == Closed
       case Open(v) =>
         var r := native.run(a[h].tag, op, v);
         if !creates then out == Returned(r.reply) else if r.made.Some? then out.Made? else out == Failed(1))
    case Consume(h, op) =>
      h in a &&
      (match a[h].body
       case Shut(_) => out == Closed
       case Open(v) =>
         if !native.decodes(op) then out == if a[h].tag == Ecies then Lost(false) else Failed(0)
         else if native.establish(op, v).Some? then out.Made? else out == Failed(0))
    case Pair(h, g, op, merging) =>
      h in a && g in a &&
      if a[h].body.Shut? || a[g].body.Shut? then out == Closed
      else if h == g then out == SelfRefused
      else
        var r := native.join(op, a[h].body.value, a[g].body.value);
        if merging && r.merged.Some? then out.Made? else out == Returned(r.reply)
    case Close(_) => out == Returned(0)
    case New(_, _) => out.Made?
  }

  lemma DueWithoutMishap(cfg: Config, a: Table, call: Call, out: Outcome)
    requires Perform(cfg, a, call, out).Some? && MishapOf(out).None?
    ensures Due(cfg.native, a, call, out)
  {
    match call
    case Use(_, _, _) =>
    case Consume(_, _) =>
    case Pair(_, _, _, _) =>
    case Close(_) =>
    case New(_, _) =>
  }

  // ----- Whole runs -----

  /** The new object of a consuming call holds what the operation established from the value that
      was in the consumed box, and has the type that goes with it. */
  lemma EstablishedFromInput(cfg: Config, s: State, i: nat, h: nat, op: int, c: nat)
    requires Reachable(cfg, s) && i < |s.log|
    requires s.log[i].CallEvent? && s.log[i].call == Consume(h, op) && s.log[i].out == Made(c)
    ensures var a := TableAt(cfg, s.log, i);
            && h in a && a[h].body.Open? && (a[h].tag == Sas || a[h].tag == Ecies) && cfg.native.decodes(op)
            && cfg.native.establish(op, a[h].body.value).Some?
            && IsOpen(TableAt(cfg, s.log, i + 1), c, if a[h].tag == Sas then EstablishedSas else EstablishedEcies,
                      cfg.native.establish(op, a[h].body.value).value)
            && c !in a && IsShut(TableAt(cfg, s.log, i + 1), h)
  {
    hide Inv;
    ReachableReplays(cfg, s);
    PrefixReplays(cfg, s.log, i);
    assert s.log[..i + 1][..i] == s.log[..i];
    var a := TableAt(cfg, s.log, i);
    ConsumeMeans(cfg, a, h, op, s.log[i].out, a[h].tag, a[h].body.value);
  }

  lemma ReachableReplays(cfg: Config, s: State)
    requires Reachable(cfg, s)
    ensures Replay(cfg, s.log).Some?
  {
    hide LocalInv, LedgerInv, MonitorInv, ThreadsInv, HandlesInv, CallsInv, AllFlags, CleanerInv;
    ReachableInv(cfg, s);
  }

  /** A call gets exactly the answer that is due, the operation's own reply or a new object included,
      unless that very call meets a mishap: from any moment at which thread t is between calls, for
      as long as it takes no failing step, whatever the other threads and the Cleaner do. */
  lemma SmoothCallsAreAnswered(cfg: Config, s: State, ls: seq<Label>, t: nat, i: nat)
    requires Reachable(cfg, s) && Possible(cfg, s, ls) && Fail(t) !in ls
    requires t < |s.threads| && !s.threads[t].pc.Running? && |s.log| <= i < |After(cfg, s, ls).log|
    requires After(cfg, s, ls).log[i].CallEvent? && After(cfg, s, ls).log[i].t == t
    ensures var log := After(cfg, s, ls).log;
            Due(cfg.native, TableAt(cfg, log, i), log[i].call, log[i].out)
  {
    hide Inv, Next, Enabled, Due, Spared;
    var s' := After(cfg, s, ls);
    forall m: Mishap ensures MishapOf(s'.log[i].out) != Some(m) {
      WithoutFailSpared(cfg, s, ls, t, m);
      SparedNeverReports(cfg, s, ls, t, m, i);
    }
    ReachableGoesOn(cfg, s, ls);
    ReachableReplays(cfg, s');
    PrefixReplays(cfg, s'.log, i);
    DueWithoutMishap(cfg, TableAt(cfg, s'.log, i), s'.log[i].call, s'.log[i].out);
  }

  lemma {:induction false} Concatenate(cfg: Config, s: State, ls: seq<Label>, more: seq<Label>)
    requires Possible(cfg, s, ls) && Possible(cfg, After(cfg, s, ls), more)
    ensures Possible(cfg, s, ls + more) && After(cfg, s, ls + more) == After(cfg, After(cfg, s, ls), more)
    decreases |ls|
  {
    hide Next, Enabled;
    if ls == [] {
      assert ls + more == more;
    } else {
      assert (ls + more)[0] == ls[0] && (ls + more)[1..] == ls[1..] + more;
      Concatenate(cfg, Next(cfg, s, ls[0]), ls[1..], more);
    }
  }

  lemma ReachableGoesOn(cfg: Config, s: State, ls: seq<Label>)
    requires Reachable(cfg, s) && Possible(cfg, s, ls)
    ensures Reachable(cfg, After(cfg, s, ls))
  {
    hide Next, Enabled, Init;
    var s0, before :| Init(s0) && Possible(cfg, s0, before) && After(cfg, s0, before) == s;
    Concatenate(cfg, s0, before, ls);
  }

  /** Who gets IllegalStateException: every call that names a closed or consumed handle, unless an
      argument check of that very call throws first. */
  lemma ShutIsAnsweredClosed(cfg: Config, s: State, ls: seq<Label>, t: nat, i: nat, h: nat)
    requires Reachable(cfg, s) && Possible(cfg, s, ls) && Spared(cfg, s, ls, t, BadArgument)
    requires t < |s.threads| && !s.threads[t].pc.Running? && |s.log| <= i < |After(cfg, s, ls).log|
    requires var e := After(cfg, s, ls).log[i]; e.CallEvent? && e.t == t && h in CallHandles(e.call) && !e.call.Close?
    requires IsShut(TableAt(cfg, After(cfg, s, ls).log, i), h)
    ensures After(cfg, s, ls).log[i].out == Closed
  {
    hide Inv, Next, Enabled, Spared;
    var s' := After(cfg, s, ls);
    SparedNeverReports(cfg, s, ls, t, BadArgument, i);
    ReachableGoesOn(cfg, s, ls);
    ReachableReplays(cfg, s');
    PrefixReplays(cfg, s'.log, i);
    ShutMeans(cfg, TableAt(cfg, s'.log, i), s'.log[i].call, s'.log[i].out, h);
  }
}
