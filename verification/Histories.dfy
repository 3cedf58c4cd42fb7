/** What the atomic machine guarantees about any history it accepts. */
module Histories {
  import opened Values
  import opened Atomic

  lemma {:induction false} PrefixReplays(cfg: Config, log: seq<Event>, i: nat)
    requires Replay(cfg, log).Some? && i <= |log|
    ensures Replay(cfg, log[..i]).Some?
    ensures i < |log| ==> Happen(cfg, Replay(cfg, log[..i]).value, log[i]).Some?
    decreases |log|
  {
    if i == |log| {
      assert log[..i] == log;
    } else if i < |log| - 1 {
      PrefixReplays(cfg, log[..|log| - 1], i);
      assert log[..|log| - 1][..i] == log[..i];
    }
  }

  /** The table before event i. */
  function TableAt(cfg: Config, log: seq<Event>, i: nat): Table
    requires i <= |log|
  {
    var r := Replay(cfg, log[..i]);
    if r.Some? then r.value else map[]
  }

  // ----- Closed and consumed handles stay so -----

  predicate IsShut(a: Table, h: nat) {
    h in a && a[h].body.Shut?
  }

  lemma ShutStays(cfg: Config, a: Table, e: Event, h: nat)
    requires IsShut(a, h) && Happen(cfg, a, e).Some?
    ensures IsShut(Happen(cfg, a, e).value, h)
    ensures Happen(cfg, a, e).value[h] == a[h]
  {
  }

  lemma {:induction false} ShutForever(cfg: Config, log: seq<Event>, i: nat, j: nat, h: nat)
    requires Replay(cfg, log).Some? && i <= j <= |log| && IsShut(TableAt(cfg, log, i), h)
    ensures IsShut(TableAt(cfg, log, j), h) && TableAt(cfg, log, j)[h] == TableAt(cfg, log, i)[h]
    decreases j - i
  {
    if i < j {
      ShutForever(cfg, log, i, j - 1, h);
      PrefixReplays(cfg, log, j - 1);
      assert log[..j][..|log[..j]| - 1] == log[..j - 1];
      ShutStays(cfg, TableAt(cfg, log, j - 1), log[j - 1], h);
    }
  }

  /** The consuming call got past its checks: its native method was entered. */
  predicate Enters(e: Event, h: nat) {
    e.CallEvent? && e.call.Consume? && e.call.h == h && e.out != Closed && e.out != Rejected
  }

  /** Closed (IllegalStateException) for every call but close, which has no effect. */
  function ShutAnswer(call: Call): Outcome {
    if call.Close? then Returned(0) else Closed
  }

  /** What a call on a closed or consumed handle is answered, unless an argument check throws. */
  predicate TurnedAway(e: Event) {
    e.CallEvent? && (e.out == Rejected || e.out == ShutAnswer(e.call))
  }

  predicate Concerns(e: Event, h: nat) {
    match e
    case CallEvent(_, call, _) => h in CallHandles(call)
    case CollectEvent(x) => x == h
  }

  lemma ShutTurnsAway(cfg: Config, a: Table, e: Event, h: nat)
    requires IsShut(a, h) && Happen(cfg, a, e).Some? && Concerns(e, h)
    ensures TurnedAway(e)
  {
  }

  lemma EnteringShuts(cfg: Config, a: Table, e: Event, h: nat)
    requires Happen(cfg, a, e).Some? && Enters(e, h)
    ensures h in a && a[h].body.Open?
    ensures IsShut(Happen(cfg, a, e).value, h)
  {
  }

  /** Consumption is final: whatever comes later on the handle is turned away, whether the
      consuming call returned or threw. */
  lemma ConsumptionIsFinal(cfg: Config, log: seq<Event>, i: nat, j: nat, h: nat)
    requires Replay(cfg, log).Some? && i < j < |log| && Enters(log[i], h) && Concerns(log[j], h)
    ensures TurnedAway(log[j]) && !Enters(log[j], h)
    ensures log[j].out != Rejected ==> log[j].out == if log[j].call.Close? then Returned(0) else Closed
    ensures IsShut(TableAt(cfg, log, j), h)
  {
    PrefixReplays(cfg, log, i);
    EnteringShuts(cfg, TableAt(cfg, log, i), log[i], h);
    assert log[..i + 1][..|log[..i + 1]| - 1] == log[..i];
    ShutForever(cfg, log, i + 1, j, h);
    PrefixReplays(cfg, log, j);
    ShutTurnsAway(cfg, TableAt(cfg, log, j), log[j], h);
  }

  /** A handle that is still open was never entered by a consuming call. */
  lemma OpenNeverEntered(cfg: Config, log: seq<Event>, i: nat, h: nat)
    requires Replay(cfg, log).Some? && i < |log| && h in Replay(cfg, log).value && Replay(cfg, log).value[h].body.Open?
    ensures !Enters(log[i], h)
  {
    assert log[..|log|] == log;
    if Enters(log[i], h) {
      PrefixReplays(cfg, log, i);
      EnteringShuts(cfg, TableAt(cfg, log, i), log[i], h);
      assert log[..i + 1][..|log[..i + 1]| - 1] == log[..i];
      ShutForever(cfg, log, i + 1, |log|, h);
      assert false;
    }
  }

  // ----- One release per handle -----

  /** Event i is the close that released the handle's box. */
  predicate Closes(cfg: Config, log: seq<Event>, i: nat, h: nat)
    requires i < |log|
  {
    log[i].CallEvent? && log[i].call == Close(h) && h in TableAt(cfg, log, i) && TableAt(cfg, log, i)[h].body.Open?
  }

  /** The three ways a handle stops being open. */
  predicate Releases(cfg: Config, log: seq<Event>, i: nat, h: nat)
    requires i < |log|
  {
    log[i] == CollectEvent(h) || Enters(log[i], h) || Closes(cfg, log, i, h)
  }

  lemma ReleasingShuts(cfg: Config, log: seq<Event>, i: nat, h: nat)
    requires Replay(cfg, log).Some? && i < |log| && Releases(cfg, log, i, h)
    ensures h in TableAt(cfg, log, i) && TableAt(cfg, log, i)[h].body.Open?
    ensures IsShut(TableAt(cfg, log, i + 1), h)
  {
    PrefixReplays(cfg, log, i);
    assert log[..i + 1][..|log[..i + 1]| - 1] == log[..i];
    if Enters(log[i], h) { EnteringShuts(cfg, TableAt(cfg, log, i), log[i], h); }
  }

  /** Close, consumption and the Cleaner together release a handle at most once in any history. */
  lemma ReleasedOnce(cfg: Config, log: seq<Event>, i: nat, j: nat, h: nat)
    requires Replay(cfg, log).Some? && i < |log| && j < |log|
    requires Releases(cfg, log, i, h) && Releases(cfg, log, j, h)
    ensures i == j
  {
    ReleasingShuts(cfg, log, i, h);
    ReleasingShuts(cfg, log, j, h);
    if i < j {
      ShutForever(cfg, log, i + 1, j, h);
    } else if j < i {
      ShutForever(cfg, log, j + 1, i, h);
    }
  }

  // ----- Late Ecies failures -----

  predicate IsLost(e: Event, h: nat) {
    e.CallEvent? && e.call.Consume? && e.call.h == h && e.out.Lost?
  }

  predicate LostIn(log: seq<Event>, h: nat) {
    exists i :: 0 <= i < |log| && IsLost(log[i], h)
  }

  predicate LeakShown(a: Table, h: nat) {
    h in a && a[h].body == Shut(true)
  }

  lemma LeakStep(cfg: Config, a: Table, e: Event, h: nat)
    requires Happen(cfg, a, e).Some?
    ensures LeakShown(Happen(cfg, a, e).value, h) <==> LeakShown(a, h) || IsLost(e, h)
    ensures IsLost(e, h) ==> h in a && a[h].tag == Ecies
  {
  }

  /** A value is given up without release exactly by the calls that fail before Box::from_raw. */
  lemma {:induction false} LeakedIffLost(cfg: Config, log: seq<Event>, h: nat)
    requires Replay(cfg, log).Some?
    ensures LeakShown(Replay(cfg, log).value, h) <==> LostIn(log, h)
  {
    if log != [] {
      var n := |log| - 1;
      LeakedIffLost(cfg, log[..n], h);
      LeakStep(cfg, Replay(cfg, log[..n]).value, log[n], h);
      if LostIn(log[..n], h) {
        var i :| 0 <= i < n && IsLost(log[..n][i], h);
        assert IsLost(log[i], h);
      }
      if LostIn(log, h) && !IsLost(log[n], h) {
        var i :| 0 <= i < |log| && IsLost(log[i], h);
        assert IsLost(log[..n][i], h);
      }
    }
  }

  /** What a caller can tell beforehand: an Ecies call whose argument does not decode loses its
      box, and no Sas call does. Only a JNI conversion can do the same to a decodable argument. */
  lemma EnteredLoses(cfg: Config, a: Table, e: Event, h: nat)
    requires Happen(cfg, a, e).Some? && Enters(e, h)
    ensures h in a && (e.out.Lost? <==> a[h].tag == Ecies && (!cfg.native.decodes(e.call.op) || e.out == Lost(true)))
    ensures Happen(cfg, a, e).value[h].tag == a[h].tag
    ensures LeakShown(Happen(cfg, a, e).value, h) <==> e.out.Lost?
  {
  }

  /** So the guard of the failing branch decides, for every call that enters native code. */
  lemma {:induction false} LeakedIffUndecodable(cfg: Config, log: seq<Event>, i: nat, h: nat)
    requires Replay(cfg, log).Some? && i < |log| && Enters(log[i], h)
    ensures var a := Replay(cfg, log).value;
            && IsShut(a, h)
            && (LeakShown(a, h) <==>
                  a[h].tag == Ecies && (!cfg.native.decodes(log[i].call.op) || log[i].out == Lost(true)))
  {
    PrefixReplays(cfg, log, i);
    EnteringShuts(cfg, TableAt(cfg, log, i), log[i], h);
    EnteredLoses(cfg, TableAt(cfg, log, i), log[i], h);
    assert log[..i + 1][..|log[..i + 1]| - 1] == log[..i];
    ShutForever(cfg, log, i + 1, |log|, h);
    assert log[..|log|] == log;
  }

  // ----- No refusal, and self operations -----

  lemma OutcomesOf(cfg: Config, a: Table, e: Event)
    requires Happen(cfg, a, e).Some? && e.CallEvent?
    ensures e.out != Refused
    ensures e.out == SelfRefused ==> e.call.Pair? && e.call.h == e.call.g && !IsShut(a, e.call.h)
    ensures e.call.Pair? && e.call.h == e.call.g && !IsShut(a, e.call.h) ==> e.out in {Rejected, SelfRefused}
  {
  }

  /** No native null check ever fires; self operations are refused exactly when the session is open. */
  lemma NeverRefused(cfg: Config, log: seq<Event>, i: nat)
    requires Replay(cfg, log).Some? && i < |log| && log[i].CallEvent?
    ensures log[i].out != Refused
    ensures log[i].out == SelfRefused ==> log[i].call.Pair? && log[i].call.h == log[i].call.g
    ensures log[i].call.Pair? && log[i].call.h == log[i].call.g && !IsShut(TableAt(cfg, log, i), log[i].call.h) ==>
              log[i].out in {Rejected, SelfRefused}
  {
    PrefixReplays(cfg, log, i);
    OutcomesOf(cfg, TableAt(cfg, log, i), log[i]);
  }
}
