/** A concrete run in which an Ecies box outlives every handle: one thread creates an Ecies and
    establishes a channel with an input that cannot be decoded. */
module LateFailure {
  import opened Values
  import opened Atomic
  import opened Machine
  import opened Decoding
  import opened Liveness

  lemma {:induction false} AppendLabel(cfg: Config, s: State, ls: seq<Label>, l: Label)
    requires Possible(cfg, s, ls) && Converts(cfg, s, ls)
    requires Enabled(cfg, After(cfg, s, ls), l) && !FailsToConvert(After(cfg, s, ls), l)
    ensures Possible(cfg, s, ls + [l]) && Converts(cfg, s, ls + [l])
    ensures After(cfg, s, ls + [l]) == Next(cfg, After(cfg, s, ls), l)
    decreases |ls|
  {
    hide Next, Enabled, FailsToConvert;
    if ls == [] {
      assert ls + [l] == [l];
      assert [l][1..] == [];
      assert Possible(cfg, Next(cfg, s, l), []);
      assert Converts(cfg, Next(cfg, s, l), []);
    } else {
      assert (ls + [l])[0] == ls[0] && (ls + [l])[1..] == ls[1..] + [l];
      AppendLabel(cfg, Next(cfg, s, ls[0]), ls[1..], l);
    }
  }

  /** s0 and ls are a run to s in which every JNI conversion of an argument succeeds. */
  predicate RunTo(cfg: Config, s0: State, ls: seq<Label>, s: State) {
    Init(s0) && Possible(cfg, s0, ls) && Converts(cfg, s0, ls) && After(cfg, s0, ls) == s
  }

  ghost predicate Reached(cfg: Config, s: State) {
    exists s0, ls :: RunTo(cfg, s0, ls, s)
  }

  lemma ReachedNext(cfg: Config, s: State, l: Label, s': State)
    requires Reached(cfg, s) && Enabled(cfg, s, l) && !FailsToConvert(s, l) && Next(cfg, s, l) == s'
    ensures Reached(cfg, s')
  {
    hide Next, Enabled, FailsToConvert;
    var s0, ls :| RunTo(cfg, s0, ls, s);
    AppendLabel(cfg, s0, ls, l);
    assert RunTo(cfg, s0, ls + [l], s');
  }

  const MAKE: Call := New(Ecies, 0)
  const FRESH: Handle := Handle(Ecies, 1, Published, false, false, Held)
  const EMPTIED: Handle := Handle(Ecies, 0, Published, true, false, ByConsume(1))
  const MADE: Answer := Answer(MAKE, Made(0))

  function Establish(op: int): Call {
    Consume(0, op)
  }

  function Threw(op: int): Answer {
    Answer(Establish(op), Lost(false))
  }

  /** The frame of the failed call. */
  const FAILED: Frame := FIRST_FRAME.(p := 1, out := Lost(false))

  /** Before and while the handle is made. */
  function Making(th: Thread): State {
    State(map[], [], map[], [th], Resting, false, map[], [])
  }

  /** Box 1 is live and the handle is as given. */
  function Scene(cfg: Config, h: Handle, owner: Owner, held: map<Lock, nat>, th: Thread, log: seq<Event>): State {
    State(map[1 := Cell(Ecies, cfg.native.spawn(0))], [h], held, [th], Resting, false, map[1 := owner], log)
  }

  /** The thread is inside the consuming call. */
  function Inside(cfg: Config, op: int, h: Handle, owner: Owner, stage: Stage, f: Frame): State {
    Scene(cfg, h, owner, map[Session(0) := 0], Thread(0, Running(Establish(op), stage, f), [MADE]),
          [CallEvent(0, MAKE, Made(0))])
  }

  function Created(cfg: Config): State {
    Scene(cfg, FRESH, OfHandle(0), map[], Thread(1, Idle, [MADE]), [CallEvent(0, MAKE, Made(0))])
  }

  function Over(cfg: Config, op: int): State {
    Scene(cfg, EMPTIED, Orphan(0), map[], Thread(0, Idle, [MADE, Threw(op)]),
          [CallEvent(0, MAKE, Made(0)), CallEvent(0, Establish(op), Lost(false))])
  }

  lemma AllocatingIsReached(cfg: Config)
    ensures Reached(cfg, Making(Thread(1, Running(MAKE, Alloc, FIRST_FRAME), [])))
  {
    var s0 := Making(Thread(2, Idle, []));
    assert RunTo(cfg, s0, [], s0);
    var s1 := Making(Thread(1, Waiting(MAKE, 0), []));
    ReachedNext(cfg, s0, Begin(0, MAKE), s1);
    ReachedNext(cfg, s1, Step(0), Making(Thread(1, Running(MAKE, Alloc, FIRST_FRAME), [])));
  }

  lemma AdoptedIsReached(cfg: Config)
    ensures var f := FIRST_FRAME.(child := Some(0), out := Made(0));
            Reached(cfg, Scene(cfg, FRESH.(status := Private(0)), OfHandle(0), map[],
                                 Thread(1, Running(MAKE, Done, f), []), []))
  {
    AllocatingIsReached(cfg);
    var s0 := Making(Thread(1, Running(MAKE, Alloc, FIRST_FRAME), []));
    var s1 := State(map[1 := Cell(Ecies, cfg.native.spawn(0))], [], map[],
                    [Thread(1, Running(MAKE, Adopt, FIRST_FRAME.(box := 1)), [])],
                    Resting, false, map[1 := OfBox(0)], []);
    var f := FIRST_FRAME.(child := Some(0), out := Made(0));
    var s2 := Scene(cfg, FRESH.(status := Private(0)), OfHandle(0), map[], Thread(1, Running(MAKE, Done, f), []), []);
    ReachedNext(cfg, s0, StepAt(0, 1), s1);
    ReachedNext(cfg, s1, Step(0), s2);
  }

  lemma CreatedIsReached(cfg: Config)
    ensures Reached(cfg, Created(cfg))
  {
    AdoptedIsReached(cfg);
    var f := FIRST_FRAME.(child := Some(0), out := Made(0));
    var s0 := Scene(cfg, FRESH.(status := Private(0)), OfHandle(0), map[], Thread(1, Running(MAKE, Done, f), []), []);
    var s1 := Created(cfg).(threads := [Thread(1, Leaving(MAKE, Made(0), 0), [])]);
    ReachedNext(cfg, s0, Step(0), s1);
    var none: seq<Answer> := [];
    assert none + [MADE] == [MADE];
    ReachedNext(cfg, s1, Step(0), Created(cfg));
  }

  lemma EnteredIsReached(cfg: Config, op: int)
    ensures Reached(cfg, Inside(cfg, op, FRESH, OfHandle(0), Check, FIRST_FRAME))
  {
    CreatedIsReached(cfg);
    var s1 := Created(cfg).(threads := [Thread(0, Waiting(Establish(op), 0), [MADE])]);
    var s2 := Created(cfg).(threads := [Thread(0, Waiting(Establish(op), 1), [MADE])], monitor := map[Session(0) := 0]);
    ReachedNext(cfg, Created(cfg), Begin(0, Establish(op)), s1);
    ReachedNext(cfg, s1, Step(0), s2);
    ReachedNext(cfg, s2, Step(0), Inside(cfg, op, FRESH, OfHandle(0), Check, FIRST_FRAME));
  }

  lemma DecodingIsReached(cfg: Config, op: int)
    ensures Reached(cfg, Inside(cfg, op, FRESH, OfHandle(0), Decode, FIRST_FRAME.(p := 1)))
  {
    EnteredIsReached(cfg, op);
    var s0 := Inside(cfg, op, FRESH, OfHandle(0), Check, FIRST_FRAME);
    var s1 := Inside(cfg, op, FRESH, OfHandle(0), Fetch, FIRST_FRAME);
    var s2 := Inside(cfg, op, FRESH, OfHandle(0), Enter, FIRST_FRAME.(p := 1));
    ReachedNext(cfg, s0, Step(0), s1);
    ReachedNext(cfg, s1, Step(0), s2);
    ReachedNext(cfg, s2, Step(0), Inside(cfg, op, FRESH, OfHandle(0), Decode, FIRST_FRAME.(p := 1)));
  }

  lemma LostIsReached(cfg: Config, op: int)
    requires !cfg.native.decodes(op)
    ensures Reached(cfg, Inside(cfg, op, FRESH, OfHandle(0), TakeState, FAILED))
  {
    DecodingIsReached(cfg, op);
    var s1 := Inside(cfg, op, FRESH, OfHandle(0), Exit, FAILED);
    ReachedNext(cfg, Inside(cfg, op, FRESH, OfHandle(0), Decode, FIRST_FRAME.(p := 1)), Step(0), s1);
    ReachedNext(cfg, s1, Step(0), Inside(cfg, op, FRESH, OfHandle(0), TakeState, FAILED));
  }

  lemma AbandonedIsReached(cfg: Config, op: int)
    requires !cfg.native.decodes(op)
    ensures Reached(cfg, Inside(cfg, op, EMPTIED.(fired := false), Orphan(0), Clean, FAILED))
  {
    LostIsReached(cfg, op);
    ReachedNext(cfg, Inside(cfg, op, FRESH, OfHandle(0), TakeState, FAILED), Step(0),
                  Inside(cfg, op, EMPTIED.(fired := false), Orphan(0), Clean, FAILED));
  }

  /** The call has thrown and still holds n of its monitors. */
  function Leaves(cfg: Config, op: int, n: nat, held: map<Lock, nat>): State {
    Over(cfg, op).(threads := [Thread(0, Leaving(Establish(op), Lost(false), n), [MADE])], monitor := held)
  }

  lemma LeavingIsReached(cfg: Config, op: int)
    requires !cfg.native.decodes(op)
    ensures Reached(cfg, Leaves(cfg, op, 1, map[Session(0) := 0]))
  {
    AbandonedIsReached(cfg, op);
    var s1 := Inside(cfg, op, EMPTIED, Orphan(0), Done, FAILED);
    ReachedNext(cfg, Inside(cfg, op, EMPTIED.(fired := false), Orphan(0), Clean, FAILED), Step(0), s1);
    ReachedNext(cfg, s1, Step(0), Leaves(cfg, op, 1, map[Session(0) := 0]));
  }

  lemma OverIsReached(cfg: Config, op: int)
    requires !cfg.native.decodes(op)
    ensures Reached(cfg, Over(cfg, op))
  {
    LeavingIsReached(cfg, op);
    var s1 := Leaves(cfg, op, 1, map[Session(0) := 0]);
    var s2 := Leaves(cfg, op, 0, map[]);
    assert Next(cfg, s1, Step(0)).monitor == map[];
    ReachedNext(cfg, s1, Step(0), s2);
    assert [MADE] + [Threw(op)] == [MADE, Threw(op)];
    ReachedNext(cfg, s2, Step(0), Over(cfg, op));
  }

  /** Not every consumed box is released. For every argument that does not decode there is a run in
      which no JNI conversion fails and after which every call has returned, no handle is left and
      nothing can happen any more, but the Ecies box is still live. */
  lemma LateFailureLeaks(cfg: Config, op: int) returns (s0: State, ls: seq<Label>)
    requires !cfg.native.decodes(op)
    ensures Init(s0) && Possible(cfg, s0, ls) && Converts(cfg, s0, ls)
    ensures var s := After(cfg, s0, ls);
            && Finished(cfg, s) && s.heap == map[1 := Cell(Ecies, cfg.native.spawn(0))]
            && |s.threads| == 1 && s.threads[0].returned == [MADE, Threw(op)]
  {
    OverIsReached(cfg, op);
    var s := Over(cfg, op).(handles := [EMPTIED.(status := Dropped)]);
    ReachedNext(cfg, Over(cfg, op), Drop(0), s);
    assert Finished(cfg, s);
    s0, ls :| RunTo(cfg, s0, ls, s);
  }
}
