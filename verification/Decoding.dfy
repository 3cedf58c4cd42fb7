/** When a consumed object's native resources are lost: the condition a caller can check before the
    call, for every run and every reachable state. */
module Decoding {
  import opened Values
  import opened Atomic
  import opened Machine
  import opened Invariant
  import opened Reachability
  import opened Histories
  import opened Mishaps
  import opened Serializability
  import opened Ownership
  import opened Endings

  /** The call loses its box whatever happens around it: an Ecies with an undecodable argument. */
  predicate Undecodable(cfg: Config, s: State, e: Event, h: nat) {
    Enters(e, h) && h < |s.handles| && s.handles[h].tag == Ecies && !cfg.native.decodes(e.call.op)
  }

  /** After a consuming call has entered native code its handle owns nothing, and its input box is
      left behind exactly if the handle is an Ecies and the argument did not decode, or a JNI
      conversion failed first. A Sas leaves none, whatever the argument. */
  lemma LeftBehindIff(cfg: Config, s: State, i: nat, h: nat)
    requires Reachable(cfg, s) && i < |s.log| && Enters(s.log[i], h)
    ensures h < |s.handles| && forall a :: !Owns(s, OfHandle(h), a)
    ensures (exists a :: Owns(s, Orphan(h), a)) <==>
            s.handles[h].tag == Ecies && (!cfg.native.decodes(s.log[i].call.op) || s.log[i].out == Lost(true))
  {
    hide LocalInv, LedgerInv, MonitorInv, ThreadsInv, HandlesInv, Residue;
    ReachableInv(cfg, s);
    LeakedIffUndecodable(cfg, s.log, i, h);
    ShutIsSettled(cfg, s, h);
    forall a ensures Owns(s, Orphan(h), a) <==> a != 0 && LeakOf(s, h) == a {
      OrphanOwns(s, h, a);
    }
    var slot := Spec(cfg, s)[h];
    assert slot.tag == s.handles[h].tag && slot.body == Shut(Leaked(s.handles[h]));
    if LeakOf(s, h) != 0 {
      assert Owns(s, Orphan(h), LeakOf(s, h));
    }
  }

  // ----- Runs in which the JNI conversions of arguments succeed -----

  /** A JNI conversion fails (or panics) before Box::from_raw: no fault of the argument. */
  predicate FailsToConvert(s: State, l: Label) {
    l.Fail? && l.t < |s.threads| && s.threads[l.t].pc.Running? && s.threads[l.t].pc.stage == Decode
  }

  predicate Converts(cfg: Config, s: State, ls: seq<Label>)
    requires Possible(cfg, s, ls)
    decreases |ls|
  {
    ls == [] || (!FailsToConvert(s, ls[0]) && Converts(cfg, Next(cfg, s, ls[0]), ls[1..]))
  }

  lemma {:induction false} ConvertsSpares(cfg: Config, s: State, ls: seq<Label>, t: nat)
    requires Possible(cfg, s, ls) && Converts(cfg, s, ls)
    ensures Spared(cfg, s, ls, t, Conversion)
    decreases |ls|
  {
    hide Next, Enabled;
    if ls != [] {
      ConvertsSpares(cfg, Next(cfg, s, ls[0]), ls[1..], t);
    }
  }

  /** The exact condition, in terms of the handle's type and the argument alone: in a run whose
      argument conversions succeed, the box of a call that entered native code is left behind if and
      only if it is an Ecies call whose argument does not decode. */
  lemma LeftBehindIffUndecodable(cfg: Config, s0: State, ls: seq<Label>, i: nat, h: nat)
    requires Init(s0) && Possible(cfg, s0, ls) && Converts(cfg, s0, ls)
    requires i < |After(cfg, s0, ls).log| && Enters(After(cfg, s0, ls).log[i], h)
    ensures var s := After(cfg, s0, ls);
            (exists a :: Owns(s, Orphan(h), a)) <==> Undecodable(cfg, s, s.log[i], h)
  {
    hide Owns, Next, Enabled, Spared, Converts;
    var s := After(cfg, s0, ls);
    RunNamesThreads(cfg, s0, ls, i);
    ConvertsSpares(cfg, s0, ls, s.log[i].t);
    SparedNeverReports(cfg, s0, ls, s.log[i].t, Conversion, i);
    LeftBehindIff(cfg, s, i, h);
  }

  /** At rest the native heap of such a run holds exactly the inputs of the Ecies calls whose
      argument does not decode. */
  lemma ResidueIsUndecodable(cfg: Config, s0: State, ls: seq<Label>, a: Addr)
    requires Init(s0) && Possible(cfg, s0, ls) && Converts(cfg, s0, ls) && Quiescent(After(cfg, s0, ls))
    ensures var s := After(cfg, s0, ls);
            a in s.heap <==>
            exists h: nat, i :: 0 <= i < |s.log| && Undecodable(cfg, s, s.log[i], h) && LeakOf(s, h) == a
  {
    hide Owns, Next, Enabled, Quiescent;
    var s := After(cfg, s0, ls);
    if a in s.heap {
      OrphanBehind(cfg, s, a);
      var h: nat :| LostIn(s.log, h) && LeakOf(s, h) == a;
      var i: nat :| i < |s.log| && IsLost(s.log[i], h);
      LostHasBox(cfg, s, h);
      LeftBehindIffUndecodable(cfg, s0, ls, i, h);
    }
    if h: nat, i: nat :| i < |s.log| && Undecodable(cfg, s, s.log[i], h) && LeakOf(s, h) == a {
      LeftBehindIffUndecodable(cfg, s0, ls, i, h);
      LeftIsLive(cfg, s, h);
    }
  }

  lemma LeftIsLive(cfg: Config, s: State, h: nat)
    requires Reachable(cfg, s) && exists a :: Owns(s, Orphan(h), a)
    ensures LeakOf(s, h) in s.heap
  {
    var a :| Owns(s, Orphan(h), a);
    OrphanOwns(s, h, a);
    EveryBoxHasOneOwner(cfg, s, a);
  }
}
