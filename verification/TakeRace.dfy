/** State.take raced by any number of takers at arbitrary moments: close, invalidate and the
    Cleaner's leak guard. The State's own monitor makes the pointer go to at most one of them. */
module TakeRace {
  import opened Values

  /** Program points of one call of take: enter the monitor, read, clear, leave. */
  datatype Taker = Before | Entered | HasRead(held: Addr) | Cleared(held: Addr) | Took(held: Addr)

  datatype Race = Race(ptr: Addr, owner: Option<nat>, takers: seq<Taker>)

  predicate Able(r: Race, t: nat) {
    t < |r.takers| && !r.takers[t].Took? && (r.takers[t].Before? ==> r.owner.None?)
  }

  function Go(r: Race, t: nat): Race
    requires Able(r, t)
  {
    match r.takers[t]
    case Before => r.(owner := Some(t), takers := r.takers[t := Entered])
    case Entered => r.(takers := r.takers[t := HasRead(r.ptr)])
    case HasRead(held) => r.(ptr := 0, takers := r.takers[t := Cleared(held)])
    case Cleared(held) => r.(owner := None, takers := r.takers[t := Took(held)])
    case Took(held) => r
  }

  /** The schedule names the taker that moves next. */
  predicate Runs(r: Race, schedule: seq<nat>)
    decreases |schedule|
  {
    schedule == [] || (Able(r, schedule[0]) && Runs(Go(r, schedule[0]), schedule[1..]))
  }

  function End(r: Race, schedule: seq<nat>): (e: Race)
    requires Runs(r, schedule)
    ensures |e.takers| == |r.takers|
    decreases |schedule|
  {
    if schedule == [] then r else End(Go(r, schedule[0]), schedule[1..])
  }

  predicate Start(r: Race) {
    r.owner.None? && forall t :: 0 <= t < |r.takers| ==> r.takers[t] == Before
  }

  predicate Inside(x: Taker) {
    x.Entered? || x.HasRead? || x.Cleared?
  }

  predicate Winner(x: Taker, p: Addr) {
    (x.Cleared? || x.Took?) && x.held == p
  }

  ghost predicate RaceInv(r: Race, p: Addr) {
    && (r.owner.Some? ==> r.owner.value < |r.takers|)
    && (forall t :: 0 <= t < |r.takers| ==> (Inside(r.takers[t]) <==> r.owner == Some(t)))
    && (forall t :: 0 <= t < |r.takers| && r.takers[t].HasRead? ==> r.takers[t].held == r.ptr)
    && (r.ptr == 0 || r.ptr == p)
    && (forall t :: 0 <= t < |r.takers| && (r.takers[t].Cleared? || r.takers[t].Took?) ==>
          r.ptr == 0 && (r.takers[t].held == 0 || r.takers[t].held == p))
    && (p != 0 ==> forall t, u :: 0 <= t < u < |r.takers| && Winner(r.takers[t], p) ==> !Winner(r.takers[u], p))
    && (p != 0 && r.ptr == 0 ==> exists t :: 0 <= t < |r.takers| && Winner(r.takers[t], p))
  }

  lemma GoKeeps(r: Race, t: nat, p: Addr)
    requires RaceInv(r, p) && Able(r, t)
    ensures RaceInv(Go(r, t), p)
  {
    var r' := Go(r, t);
    if p != 0 && r'.ptr == 0 {
      if r.ptr == 0 {
        var w :| 0 <= w < |r.takers| && Winner(r.takers[w], p);
        assert Winner(r'.takers[w], p);
      } else {
        assert Winner(r'.takers[t], p);
      }
    }
  }

  lemma {:induction false} RunKeepsRace(r: Race, schedule: seq<nat>, p: Addr)
    requires RaceInv(r, p) && Runs(r, schedule)
    ensures RaceInv(End(r, schedule), p)
    decreases |schedule|
  {
    if schedule != [] {
      GoKeeps(r, schedule[0], p);
      RunKeepsRace(Go(r, schedule[0]), schedule[1..], p);
    }
  }

  /** The pointer is handed out at most once, unchanged, and is not lost: once some taker has
      returned, exactly one taker has it. */
  lemma TakenAtMostOnce(r: Race, schedule: seq<nat>, t: nat, u: nat)
    requires Start(r) && r.ptr != 0 && Runs(r, schedule) && t < |r.takers|
    requires u < |r.takers| && End(r, schedule).takers[t].Took? && End(r, schedule).takers[u].Took?
    ensures var e := End(r, schedule).takers;
            e[t].held != 0 && e[u].held != 0 ==> t == u && e[t].held == r.ptr
    ensures exists w :: 0 <= w < |r.takers| && Winner(End(r, schedule).takers[w], r.ptr)
    ensures End(r, schedule).ptr == 0
  {
    RunKeepsRace(r, schedule, r.ptr);
  }

  // ----- Every race is an order of indivisible takes -----

  predicate HasTaken(x: Taker) {
    x.Cleared? || x.Took?
  }

  /** The takers in the order in which they clear the pointer. */
  function Order(r: Race, schedule: seq<nat>): (order: seq<nat>)
    requires Runs(r, schedule)
    ensures |order| <= |schedule|
    decreases |schedule|
  {
    if schedule == [] then []
    else
      (if r.takers[schedule[0]].HasRead? then [schedule[0]] else []) + Order(Go(r, schedule[0]), schedule[1..])
  }

  /** What n indivisible takes in a row return, and the pointer they leave. */
  function Returns(p: Addr, n: nat): (held: seq<Addr>)
    ensures |held| == n
    decreases n
  {
    if n == 0 then [] else [p] + Returns(0, n - 1)
  }

  function Remaining(p: Addr, n: nat): Addr {
    if n == 0 then p else 0
  }

  /** The race from r on amounts to indivisible takes by the takers in `order`. */
  ghost predicate Amounts(r: Race, e: Race, order: seq<nat>) {
    && |e.takers| == |r.takers| && e.ptr == Remaining(r.ptr, |order|)
    && (forall i :: 0 <= i < |order| ==>
          && order[i] < |r.takers| && !HasTaken(r.takers[order[i]])
          && HasTaken(e.takers[order[i]]) && e.takers[order[i]].held == Returns(r.ptr, |order|)[i])
    && (forall i, j :: 0 <= i < j < |order| ==> order[i] != order[j])
    && (forall t :: 0 <= t < |r.takers| && HasTaken(r.takers[t]) ==>
          HasTaken(e.takers[t]) && e.takers[t].held == r.takers[t].held)
    && (forall t :: 0 <= t < |r.takers| && HasTaken(e.takers[t]) ==> HasTaken(r.takers[t]) || t in order)
  }

  /** Taker t clears the pointer, then the rest of the race happens. */
  lemma ClearAmounts(r: Race, t: nat, e: Race, rest: seq<nat>)
    requires Able(r, t) && r.takers[t].HasRead? && r.takers[t].held == r.ptr && Amounts(Go(r, t), e, rest)
    ensures Amounts(r, e, [t] + rest)
  {
    var r' := Go(r, t);
    var order := [t] + rest;
    assert HasTaken(r'.takers[t]) && r'.takers[t].held == r.ptr;
    ClearOrder(r, t, e, rest);
    assert forall u :: 0 <= u < |r.takers| && u != t ==> r'.takers[u] == r.takers[u];
    forall u | 0 <= u < |r.takers| && HasTaken(e.takers[u]) ensures HasTaken(r.takers[u]) || u in order {
      assert HasTaken(r'.takers[u]) || u in rest;
    }
  }

  lemma ClearOrder(r: Race, t: nat, e: Race, rest: seq<nat>)
    requires Able(r, t) && r.takers[t].HasRead? && r.takers[t].held == r.ptr && Amounts(Go(r, t), e, rest)
    ensures var order := [t] + rest;
            && (forall i :: 0 <= i < |order| ==>
                  && order[i] < |r.takers| && !HasTaken(r.takers[order[i]])
                  && HasTaken(e.takers[order[i]]) && e.takers[order[i]].held == Returns(r.ptr, |order|)[i])
            && (forall i, j :: 0 <= i < j < |order| ==> order[i] != order[j])
  {
    var order := [t] + rest;
    var r' := Go(r, t);
    assert HasTaken(r'.takers[t]);
    forall i | 0 <= i < |order|
      ensures order[i] < |r.takers| && !HasTaken(r.takers[order[i]]) && (i > 0 ==> order[i] != t)
      ensures HasTaken(e.takers[order[i]]) && e.takers[order[i]].held == Returns(r.ptr, |order|)[i]
    {
      if i > 0 { assert order[i] == rest[i - 1] && r'.takers[order[i]] == r.takers[order[i]]; }
    }
    forall i, j | 0 <= i < j < |order| ensures order[i] != order[j] {
      assert order[j] == rest[j - 1];
      if i > 0 { assert order[i] == rest[i - 1]; }
    }
  }

  lemma OtherAmounts(r: Race, t: nat, e: Race, rest: seq<nat>)
    requires Able(r, t) && !r.takers[t].HasRead? && Amounts(Go(r, t), e, rest)
    ensures Amounts(r, e, rest)
  {
    var r' := Go(r, t);
    assert r'.ptr == r.ptr;
    assert forall u :: 0 <= u < |r.takers| ==> (HasTaken(r'.takers[u]) <==> HasTaken(r.takers[u]));
    assert forall u :: 0 <= u < |r.takers| && HasTaken(r.takers[u]) ==> r'.takers[u].held == r.takers[u].held;
  }

  lemma {:induction false} RunAmounts(r: Race, schedule: seq<nat>, p: Addr)
    requires RaceInv(r, p) && Runs(r, schedule)
    ensures Amounts(r, End(r, schedule), Order(r, schedule))
    decreases |schedule|
  {
    if schedule != [] {
      GoKeeps(r, schedule[0], p);
      RunAmounts(Go(r, schedule[0]), schedule[1..], p);
      var rest := Order(Go(r, schedule[0]), schedule[1..]);
      if r.takers[schedule[0]].HasRead? {
        ClearAmounts(r, schedule[0], End(r, schedule), rest);
      } else {
        OtherAmounts(r, schedule[0], End(r, schedule), rest);
        assert [] + rest == rest;
      }
    }
  }

  /** Reduction: however the takers interleave, there is an order of those that took in which
      indivisible takes return to each the same and leave the same pointer. */
  lemma RacesAreAtomic(r: Race, schedule: seq<nat>)
    requires Start(r) && Runs(r, schedule)
    ensures var e := End(r, schedule); var order := Order(r, schedule);
            && e.ptr == Remaining(r.ptr, |order|)
            && (forall t :: 0 <= t < |r.takers| ==> (HasTaken(e.takers[t]) <==> t in order))
            && (forall i, j :: 0 <= i < j < |order| ==> order[i] != order[j])
            && (forall i :: 0 <= i < |order| ==>
                  order[i] < |e.takers| && HasTaken(e.takers[order[i]])
                  && e.takers[order[i]].held == Returns(r.ptr, |order|)[i])
  {
    RunAmounts(r, schedule, r.ptr);
  }

  /** The monitor of the State is a leaf: while some taker is not done, some taker can move. */
  lemma SomeTakerMoves(r: Race, schedule: seq<nat>, t: nat)
    requires Start(r) && Runs(r, schedule) && t < |r.takers| && !End(r, schedule).takers[t].Took?
    ensures exists u :: Able(End(r, schedule), u)
  {
    RunKeepsRace(r, schedule, r.ptr);
    var e := End(r, schedule);
    if e.owner.Some? {
      assert Able(e, e.owner.value);
    } else {
      assert Able(e, t);
    }
  }
}
