/** The machine the implementation is compared with: every call is one step on a table
    from handles to values. There are no pointers, no heap, no monitors and no threads. */
module Atomic {
  import opened Values

  /** `leaked` marks a handle whose native value was given up without being released. */
  datatype Body = Open(value: Value) | Shut(leaked: bool)
  datatype Slot = Slot(tag: Tag, body: Body)
  type Table = map<nat, Slot>

  datatype Event =
    | CallEvent(t: nat, call: Call, out: Outcome)
    | CollectEvent(h: nat)

  /** One call in one step: the new table, or None if the call cannot end with `out`. */
  function Perform(cfg: Config, a: Table, call: Call, out: Outcome): Option<Table> {
    match call
    case Use(h, op, creates) =>
      if h in a && (creates ==> a[h].tag == Account) then PerformUse(cfg, a, h, op, creates, out) else None
    case Consume(h, op) => if h in a && Consumable(a[h].tag) then PerformConsume(cfg, a, h, op, out) else None
    case Pair(h, g, op, merging) =>
      if h in a && g in a && a[h].tag == InboundGroup && a[g].tag == InboundGroup
      then PerformPair(cfg, a, h, g, op, merging, out) else None
    case Close(h) =>
      if h !in a || out != Returned(0) then None
      else if a[h].body.Open? then Some(a[h := Slot(a[h].tag, Shut(false))]) else Some(a)
    case New(tag, op) =>
      match out
      case Broken(n) => if n == 0 then Some(a) else None
      case Made(c) => if c in a then None else Some(a[c := Slot(tag, Open(cfg.native.spawn(op)))])
      case _ => None
  }

  function PerformUse(cfg: Config, a: Table, h: nat, op: int, creates: bool, out: Outcome): Option<Table>
    requires h in a
  {
    match a[h].body
    case Shut(_) => if out == Closed || out == Rejected then Some(a) else None
    case Open(v) =>
      var r := cfg.native.run(a[h].tag, op, v);
      var after := a[h := Slot(a[h].tag, Open(r.next))];
      match out
      case Rejected => Some(a)
      case Broken(n) => if n == 0 then Some(a) else if n == 1 then Some(after) else None
      case Failed(n) => if n == 1 && creates && r.made.None? then Some(after) else None
      case Returned(x) => if !creates && x == r.reply then Some(after) else None
      case Made(c) =>
        if creates && r.made.Some? && c !in a then Some(after[c := Slot(OlmSession, Open(r.made.value))]) else None
      case _ => None
  }

  function PerformConsume(cfg: Config, a: Table, h: nat, op: int, out: Outcome): Option<Table>
    requires h in a
  {
    match a[h].body
    case Shut(_) => if out == Closed || out == Rejected then Some(a) else None
    case Open(v) =>
      var decoded := a[h].tag == Ecies ==> cfg.native.decodes(op);
      var spent := a[h := Slot(a[h].tag, Shut(false))];
      var r := Establishing(cfg.native, op, v);
      match out
      case Rejected => Some(a)
      case Broken(n) => if n == 0 && decoded then Some(spent) else None
      case Failed(n) => if n == 0 && decoded && r.None? then Some(spent) else None
      case Lost(jni) =>
        if a[h].tag == Ecies && (jni || !cfg.native.decodes(op))
        then Some(a[h := Slot(Ecies, Shut(true))]) else None
      case Made(c) =>
        if r.Some? && c !in a
        then Some(spent[c := Slot(EstablishedOf(a[h].tag), Open(r.value))])
        else None
      case _ => None
  }

  function PerformPair(cfg: Config, a: Table, h: nat, g: nat, op: int, merging: bool, out: Outcome): Option<Table>
    requires h in a && g in a
  {
    var open := a[h].body.Open? && a[g].body.Open?;
    match out
    case Rejected => Some(a)
    case Closed => if open then None else Some(a)
    case SelfRefused => if open && h == g then Some(a) else None
    case _ => if open && h != g then PerformJoin(cfg, a, h, g, op, merging, out) else None
  }

  /** Both sessions are open and distinct. */
  function PerformJoin(cfg: Config, a: Table, h: nat, g: nat, op: int, merging: bool, out: Outcome): Option<Table>
    requires h in a && g in a && a[h].body.Open? && a[g].body.Open?
  {
    var r := cfg.native.join(op, a[h].body.value, a[g].body.value);
    var one := a[h := Slot(a[h].tag, Open(r.left))];
    var both := one[g := Slot(a[g].tag, Open(r.right))];
    match out
    case Broken(n) => if n == 0 then Some(a) else if n == 1 then Some(one) else if n == 2 then Some(both) else None
    case Returned(x) => if x == r.reply && !(merging && r.merged.Some?) then Some(both) else None
    case Made(c) =>
      if merging && r.merged.Some? && c !in a then Some(both[c := Slot(InboundGroup, Open(r.merged.value))]) else None
    case _ => None
  }

  function Happen(cfg: Config, a: Table, e: Event): Option<Table> {
    match e
    case CallEvent(_, call, out) => Perform(cfg, a, call, out)
    case CollectEvent(h) =>
      if h in a && a[h].body.Open? then Some(a[h := Slot(a[h].tag, Shut(false))]) else None
  }

  /** The table after a whole history, or None if some event could not happen in its turn. */
  function Replay(cfg: Config, log: seq<Event>): Option<Table> {
    if log == [] then Some(map[])
    else
      var before := Replay(cfg, log[..|log| - 1]);
      if before.None? then None else Happen(cfg, before.value, log[|log| - 1])
  }

  lemma ReplayExtend(cfg: Config, log: seq<Event>, e: Event)
    requires Replay(cfg, log).Some?
    ensures Replay(cfg, log + [e]) == Happen(cfg, Replay(cfg, log).value, e)
  {
    assert (log + [e])[..|log|] == log;
  }

  /** Handles whose entry an event may change. */
  function Touched(e: Event): set<nat> {
    match e
    case CallEvent(_, call, out) => CallHandles(call) + (if out.Made? then {out.child} else {})
    case CollectEvent(h) => {h}
  }

  lemma HappenFrame(cfg: Config, a: Table, e: Event, x: nat)
    requires Happen(cfg, a, e).Some? && x !in Touched(e)
    ensures x in Happen(cfg, a, e).value <==> x in a
    ensures x in a ==> Happen(cfg, a, e).value[x] == a[x]
  {
  }
}
