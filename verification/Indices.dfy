/** Message indices of an outbound group session shared by any number of threads. */
module Indices {
  import opened Values
  import opened Atomic
  import opened Machine
  import opened Invariant
  import opened Reachability
  import opened Histories
  import opened Serializability

  /** On an outbound session every operation that is an encryption, whatever its plaintext, returns
      the counter and advances it; no other operation moves it. Other types are not restricted. */
  ghost predicate Counts(native: Native, enc: int -> bool) {
    && (forall op, v :: enc(op) ==>
          native.run(OutboundGroup, op, v).next == v + 1 && native.run(OutboundGroup, op, v).reply == v)
    && (forall op, v :: !enc(op) ==> native.run(OutboundGroup, op, v).next == v)
  }

  predicate Encrypts(e: Event, h: nat, enc: int -> bool) {
    e.CallEvent? && e.call.Use? && e.call.h == h && enc(e.call.op)
  }

  /** The ratchet moved: the message was returned, or its conversion to Java failed afterwards. */
  predicate Advances(e: Event, h: nat, enc: int -> bool) {
    Encrypts(e, h, enc) && (e.out.Returned? || e.out == Broken(1))
  }

  function Count(log: seq<Event>, h: nat, enc: int -> bool): nat {
    if log == [] then 0
    else Count(log[..|log| - 1], h, enc) + if Advances(log[|log| - 1], h, enc) then 1 else 0
  }

  /** The indices handed out, in commit order. */
  function Given(log: seq<Event>, h: nat, enc: int -> bool): seq<int> {
    if log == [] then []
    else
      var e := log[|log| - 1];
      Given(log[..|log| - 1], h, enc) + if Encrypts(e, h, enc) && e.out.Returned? then [e.out.reply] else []
  }

  predicate IsOutbound(a: Table, h: nat) {
    h in a && a[h].tag == OutboundGroup
  }

  function ValueIn(a: Table, h: nat): int {
    if h in a && a[h].body.Open? then a[h].body.value else 0
  }

  /** The counter the session came into being with: 0 if fresh, the pickled one if restored. */
  function StartOf(cfg: Config, log: seq<Event>, h: nat): int {
    if log == [] then 0
    else
      var before := Replay(cfg, log[..|log| - 1]);
      if before.Some? && h in before.value then StartOf(cfg, log[..|log| - 1], h)
      else if Replay(cfg, log).Some? then ValueIn(Replay(cfg, log).value, h) else 0
  }

  lemma CountStep(cfg: Config, a: Table, e: Event, h: nat, enc: int -> bool)
    requires Happen(cfg, a, e).Some? && Counts(cfg.native, enc) && IsOutbound(Happen(cfg, a, e).value, h)
    ensures var b := Happen(cfg, a, e).value;
            if h !in a then b[h].body.Open? && !Advances(e, h, enc)
            else
              && IsOutbound(a, h)
              && (b[h].body.Open? ==>
                    a[h].body.Open? &&
                    b[h].body.value == a[h].body.value + if Advances(e, h, enc) then 1 else 0)
              && (Advances(e, h, enc) ==> b[h].body.Open?)
              && (Encrypts(e, h, enc) && e.out.Returned? ==> e.out.reply == a[h].body.value)
  {
  }

  lemma UnknownHandle(cfg: Config, a: Table, e: Event, h: nat, enc: int -> bool)
    requires Happen(cfg, a, e).Some? && h !in Happen(cfg, a, e).value
    ensures h !in a && !Encrypts(e, h, enc)
  {
  }

  lemma {:induction false} NothingBefore(cfg: Config, log: seq<Event>, h: nat, enc: int -> bool)
    requires Replay(cfg, log).Some? && h !in Replay(cfg, log).value
    ensures Count(log, h, enc) == 0 && Given(log, h, enc) == []
  {
    if log != [] {
      var n := |log| - 1;
      UnknownHandle(cfg, Replay(cfg, log[..n]).value, log[n], h, enc);
      NothingBefore(cfg, log[..n], h, enc);
    }
  }

  /** Strictly rising, from lo on and below hi. */
  predicate Increasing(xs: seq<int>, lo: int, hi: int) {
    && (forall i, j :: 0 <= i < j < |xs| ==> xs[i] < xs[j])
    && (forall i :: 0 <= i < |xs| ==> lo <= xs[i] < hi)
  }

  /** The native counter is the start plus the number of encryptions that moved it, and the indices
      handed out rise strictly below it. */
  lemma {:induction false} CounterIsCount(cfg: Config, log: seq<Event>, h: nat, enc: int -> bool)
    requires Replay(cfg, log).Some? && Counts(cfg.native, enc) && IsOutbound(Replay(cfg, log).value, h)
    ensures Replay(cfg, log).value[h].body.Open? ==>
              Replay(cfg, log).value[h].body.value == StartOf(cfg, log, h) + Count(log, h, enc)
    ensures Increasing(Given(log, h, enc), StartOf(cfg, log, h), StartOf(cfg, log, h) + Count(log, h, enc))
  {
    if log != [] {
      var n := |log| - 1;
      var a := Replay(cfg, log[..n]).value;
      CountStep(cfg, a, log[n], h, enc);
      if h in a {
        CounterIsCount(cfg, log[..n], h, enc);
      } else {
        NothingBefore(cfg, log[..n], h, enc);
      }
    }
  }

  /** Encryptions that moved the ratchet but whose message never reached Java. */
  function Wasted(log: seq<Event>, h: nat, enc: int -> bool): nat {
    if log == [] then 0
    else
      var e := log[|log| - 1];
      Wasted(log[..|log| - 1], h, enc) + if Encrypts(e, h, enc) && e.out == Broken(1) then 1 else 0
  }

  lemma {:induction false} CountSplits(log: seq<Event>, h: nat, enc: int -> bool)
    ensures Count(log, h, enc) == |Given(log, h, enc)| + Wasted(log, h, enc)
  {
    if log != [] { CountSplits(log[..|log| - 1], h, enc); }
  }

  lemma IncreasingFills(xs: seq<int>, lo: int, i: nat)
    requires Increasing(xs, lo, lo + |xs|) && i < |xs|
    ensures xs[i] == lo + i
  {
    LowerBound(xs, lo, lo + |xs|, i);
    UpperBound(xs, lo, lo + |xs|, i);
  }

  lemma {:induction false} LowerBound(xs: seq<int>, lo: int, hi: int, i: nat)
    requires Increasing(xs, lo, hi) && i < |xs|
    ensures lo + i <= xs[i]
  {
    if i > 0 { LowerBound(xs, lo, hi, i - 1); }
  }

  lemma {:induction false} UpperBound(xs: seq<int>, lo: int, hi: int, i: nat)
    requires Increasing(xs, lo, hi) && i < |xs|
    ensures xs[i] <= hi - (|xs| - i)
    decreases |xs| - i
  {
    if i < |xs| - 1 { UpperBound(xs, lo, hi, i + 1); }
  }

  // ----- On the concurrent machine -----

  /** Each returned index is the start plus the number of times the ratchet had moved before. */
  lemma IndexIsCount(cfg: Config, log: seq<Event>, h: nat, enc: int -> bool, i: nat)
    requires Replay(cfg, log).Some? && Counts(cfg.native, enc) && i < |log|
    requires Encrypts(log[i], h, enc) && log[i].out.Returned? && IsOutbound(TableAt(cfg, log, i), h)
    ensures log[i].out.reply == StartOf(cfg, log[..i], h) + Count(log[..i], h, enc)
  {
    PrefixReplays(cfg, log, i);
    CounterIsCount(cfg, log[..i], h, enc);
    CountStep(cfg, TableAt(cfg, log, i), log[i], h, enc);
  }

  lemma {:induction false} StartIsFixed(cfg: Config, log: seq<Event>, i: nat, j: nat, h: nat)
    requires Replay(cfg, log).Some? && i <= j <= |log| && h in TableAt(cfg, log, i)
    ensures h in TableAt(cfg, log, j) && StartOf(cfg, log[..j], h) == StartOf(cfg, log[..i], h)
    decreases j
  {
    hide Happen;
    if i < j {
      StartIsFixed(cfg, log, i, j - 1, h);
      PrefixReplays(cfg, log, j - 1);
      assert log[..j][..j - 1] == log[..j - 1];
      TypeStep(cfg, TableAt(cfg, log, j - 1), log[j - 1], h);
    }
  }

  /** A session made by a constructor or factory starts with the value that gave it. */
  lemma StartIsSpawned(cfg: Config, log: seq<Event>, i: nat, h: nat)
    requires Replay(cfg, log).Some? && i < |log| && log[i].CallEvent? && log[i].call.New? && log[i].out == Made(h)
    ensures StartOf(cfg, log, h) == cfg.native.spawn(log[i].call.op)
  {
    PrefixReplays(cfg, log, i);
    assert log[..i + 1][..i] == log[..i];
    StartIsFixed(cfg, log, i + 1, |log|, h);
    assert log[..|log|] == log;
  }

  lemma {:induction false} CountMoves(log: seq<Event>, h: nat, enc: int -> bool, i: nat, j: nat)
    requires i < j <= |log| && Advances(log[i], h, enc)
    ensures Count(log[..i], h, enc) < Count(log[..j], h, enc)
    decreases j
  {
    assert log[..j][..j - 1] == log[..j - 1];
    if i < j - 1 {
      CountMoves(log, h, enc, i, j - 1);
    }
  }

  /** A handle keeps its type through every history. */
  lemma {:induction false} TypeIsFixed(cfg: Config, log: seq<Event>, i: nat, h: nat)
    requires Replay(cfg, log).Some? && i <= |log| && h in TableAt(cfg, log, i) && IsOutbound(Replay(cfg, log).value, h)
    ensures IsOutbound(TableAt(cfg, log, i), h)
    decreases |log|
  {
    if i == |log| {
      assert log[..i] == log;
    } else {
      var n := |log| - 1;
      assert log[..n][..i] == log[..i];
      PrefixReplays(cfg, log, n);
      StaysKnown(cfg, log[..n], i, h);
      TypeStep(cfg, Replay(cfg, log[..n]).value, log[n], h);
      TypeIsFixed(cfg, log[..n], i, h);
    }
  }

  lemma TypeStep(cfg: Config, a: Table, e: Event, h: nat)
    requires Happen(cfg, a, e).Some? && h in a
    ensures h in Happen(cfg, a, e).value && Happen(cfg, a, e).value[h].tag == a[h].tag
  {
  }

  lemma {:induction false} StaysKnown(cfg: Config, log: seq<Event>, i: nat, h: nat)
    requires Replay(cfg, log).Some? && i <= |log| && h in TableAt(cfg, log, i)
    ensures h in Replay(cfg, log).value
    decreases |log|
  {
    if i == |log| {
      assert log[..i] == log;
    } else {
      var n := |log| - 1;
      assert log[..n][..i] == log[..i];
      StaysKnown(cfg, log[..n], i, h);
      TypeStep(cfg, Replay(cfg, log[..n]).value, log[n], h);
    }
  }

  predicate GotIndex(x: Answer, h: nat, enc: int -> bool) {
    x.call.Use? && x.call.h == h && enc(x.call.op) && x.out.Returned?
  }

  lemma SameSession(cfg: Config, log: seq<Event>, h: nat, enc: int -> bool, i: nat, j: nat)
    requires Replay(cfg, log).Some? && Counts(cfg.native, enc) && IsOutbound(Replay(cfg, log).value, h)
    requires i < j < |log| && Encrypts(log[i], h, enc) && Encrypts(log[j], h, enc)
    requires log[i].out.Returned? && log[j].out.Returned?
    ensures log[i].out.reply < log[j].out.reply
  {
    PrefixReplays(cfg, log, i);
    PrefixReplays(cfg, log, j);
    TypeIsFixed(cfg, log, i, h);
    TypeIsFixed(cfg, log, j, h);
    IndexIsCount(cfg, log, h, enc, i);
    IndexIsCount(cfg, log, h, enc, j);
    StartIsFixed(cfg, log, i, j, h);
    CountMoves(log, h, enc, i, j);
  }

  /** No two messages returned by any threads on one session carry the same index. */
  lemma ThreadsGetDistinctIndices(
    cfg: Config, s0: State, ls: seq<Label>, h: nat, enc: int -> bool, t: nat, k: nat, u: nat, m: nat)
    requires Init(s0) && Possible(cfg, s0, ls) && Counts(cfg.native, enc)
    requires IsOutbound(Spec(cfg, After(cfg, s0, ls)), h)
    requires var ths := After(cfg, s0, ls).threads;
             && t < |ths| && k < |ths[t].returned| && GotIndex(ths[t].returned[k], h, enc)
             && u < |ths| && m < |ths[u].returned| && GotIndex(ths[u].returned[m], h, enc)
             && (t != u || k != m)
    ensures var ths := After(cfg, s0, ls).threads;
            ths[t].returned[k].out.reply != ths[u].returned[m].out.reply
  {
    var s := After(cfg, s0, ls);
    Serializable(cfg, s0, ls);
    var i := AnswerEvent(s.log, t, k);
    var j := AnswerEvent(s.log, u, m);
    if i < j {
      SameSession(cfg, s.log, h, enc, i, j);
    } else if j < i {
      SameSession(cfg, s.log, h, enc, j, i);
    }
  }

  /** If no encryption was wasted, the n messages handed out carry exactly n successive indices. */
  lemma IndicesAreContiguous(cfg: Config, s: State, h: nat, enc: int -> bool)
    requires Reachable(cfg, s) && Counts(cfg.native, enc) && IsOutbound(Spec(cfg, s), h)
    ensures Wasted(s.log, h, enc) == 0 ==>
              forall i :: 0 <= i < |Given(s.log, h, enc)| ==> Given(s.log, h, enc)[i] == StartOf(cfg, s.log, h) + i
  {
    ReachableInv(cfg, s);
    CounterIsCount(cfg, s.log, h, enc);
    CountSplits(s.log, h, enc);
    if Wasted(s.log, h, enc) == 0 {
      forall i | 0 <= i < |Given(s.log, h, enc)|
        ensures Given(s.log, h, enc)[i] == StartOf(cfg, s.log, h) + i
      {
        IncreasingFills(Given(s.log, h, enc), StartOf(cfg, s.log, h), i);
      }
    }
  }

  // ----- What the threads got -----

  /** The encryption that handed out the i-th index. */
  lemma {:induction false} GivenEvent(log: seq<Event>, h: nat, enc: int -> bool, i: nat) returns (p: nat)
    requires i < |Given(log, h, enc)|
    ensures p < |log| && Encrypts(log[p], h, enc) && log[p].out == Returned(Given(log, h, enc)[i])
  {
    var n := |log| - 1;
    if i < |Given(log[..n], h, enc)| {
      p := GivenEvent(log[..n], h, enc, i);
    } else {
      p := n;
    }
  }

  lemma {:induction false} EventGiven(log: seq<Event>, h: nat, enc: int -> bool, p: nat) returns (i: nat)
    requires p < |log| && Encrypts(log[p], h, enc) && log[p].out.Returned?
    ensures i < |Given(log, h, enc)| && Given(log, h, enc)[i] == log[p].out.reply
  {
    var n := |log| - 1;
    if p < n {
      i := EventGiven(log[..n], h, enc, p);
    } else {
      i := |Given(log[..n], h, enc)|;
    }
  }

  /** Some thread got index x for a message on session h. */
  ghost predicate Received(s: State, h: nat, enc: int -> bool, x: int) {
    exists t, k :: 0 <= t < |s.threads| && 0 <= k < |s.threads[t].returned|
      && GotIndex(s.threads[t].returned[k], h, enc) && s.threads[t].returned[k].out.reply == x
  }

  /** When all calls have returned and no conversion failed after an encryption, the indices the
      threads received are exactly start, start + 1, ..., start + n - 1. */
  lemma ReceivedIndicesAreExact(cfg: Config, s0: State, ls: seq<Label>, h: nat, enc: int -> bool, x: int)
    requires Init(s0) && Possible(cfg, s0, ls) && Counts(cfg.native, enc)
    requires IsOutbound(Spec(cfg, After(cfg, s0, ls)), h) && Wasted(After(cfg, s0, ls).log, h, enc) == 0
    requires forall t :: 0 <= t < |After(cfg, s0, ls).threads| ==> After(cfg, s0, ls).threads[t].pc.Idle?
    ensures var s := After(cfg, s0, ls); var start := StartOf(cfg, s.log, h);
            Received(s, h, enc, x) <==> start <= x < start + |Given(s.log, h, enc)|
  {
    var s := After(cfg, s0, ls);
    var start := StartOf(cfg, s.log, h);
    Serializable(cfg, s0, ls);
    IndicesAreContiguous(cfg, s, h, enc);
    if start <= x < start + |Given(s.log, h, enc)| {
      var p := GivenEvent(s.log, h, enc, x - start);
      var t := s.log[p].t;
      RunNamesThreads(cfg, s0, ls, p);
      var k := EventAnswer(s.log, t, p);
      assert GotIndex(s.threads[t].returned[k], h, enc);
    }
    if Received(s, h, enc, x) {
      var t, k :| 0 <= t < |s.threads| && 0 <= k < |s.threads[t].returned|
        && GotIndex(s.threads[t].returned[k], h, enc) && s.threads[t].returned[k].out.reply == x;
      var p := AnswerEvent(s.log, t, k);
      var i := EventGiven(s.log, h, enc, p);
    }
  }
}
