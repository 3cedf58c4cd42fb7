/** The vocabulary shared by the sequential and the concurrent model: native boxes,
    the calls a Java client can make, and how a call can end. */
module Values {

  datatype Option<+T> = None | Some(value: T)

  /** A native pointer as Java stores it (a `long`); 0 is the null pointer. */
  type Addr = int

  /** The contents of a native box. Only the functions of a `Native` record look inside. */
  type Value = int

  /** The Rust type a pointer is cast to when it is dereferenced or freed. */
  datatype Tag =
    | Account | OlmSession | OutboundGroup | InboundGroup
    | Sas | EstablishedSas | Ecies | EstablishedEcies
    | Other(kind: nat)

  datatype Cell = Cell(tag: Tag, value: Value)

  datatype RunOut = RunOut(next: Value, reply: int, made: Option<Value>)
  datatype JoinOut = JoinOut(left: Value, right: Value, reply: int, merged: Option<Value>)

  /** The native operations, left uninterpreted: every theorem holds for all such records.
      The integer says which operation runs, and with which arguments; `run` also gets the type
      of the box. `decodes` tells whether the argument of a consuming call can be decoded. */
  datatype Native = Native(
    run: (Tag, int, Value) -> RunOut,
    join: (int, Value, Value) -> JoinOut,
    decodes: int -> bool,
    establish: (int, Value) -> Option<Value>,
    spawn: int -> Value)

  /** `hash` is `System.identityHashCode`: any function of the object, collisions included. */
  datatype Config = Config(hash: nat -> int, native: Native)

  /** Handles are named by the order in which their Java objects come into being. */
  datatype Call =
    | Use(h: nat, op: int, creates: bool)              // synchronized method; `creates`: session creation on an account
    | Consume(h: nat, op: int)                         // Sas.diffieHellman, Ecies.establish*Channel
    | Pair(h: nat, g: nat, op: int, merging: bool)     // connected, compare, merge
    | Close(h: nat)
    | New(tag: Tag, op: int)                           // constructors and static factories

  datatype Outcome =
    | Closed                 // IllegalStateException from checkNotClosed
    | Rejected               // a Java-side argument check threw before the native call
    | Refused                // check_ptr saw a null pointer
    | SelfRefused            // check_self_pointer saw two equal pointers
    | Failed(effects: nat)   // the operation reported an error instead of a new object
    | Broken(effects: nat)   // a JNI conversion failed or Rust panicked, after this many writes
    | Lost(jni: bool)        // Ecies: failed before Box::from_raw, in a JNI conversion or because
                             // the argument does not decode
    | Returned(reply: int)   // the operation's own answer: a value, or an error it reports
    | Made(child: nat)       // a new handle was returned

  function CallHandles(call: Call): set<nat> {
    match call
    case Use(h, _, _) => {h}
    case Consume(h, _) => {h}
    case Pair(h, g, _, _) => {h, g}
    case Close(h) => {h}
    case New(_, _) => {}
  }

  /** What a consuming call makes of its input: nothing if its argument cannot be decoded. */
  function Establishing(native: Native, op: int, v: Value): Option<Value> {
    if native.decodes(op) then native.establish(op, v) else None
  }

  predicate Consumable(tag: Tag) {
    tag == Sas || tag == Ecies
  }

  function EstablishedOf(tag: Tag): Tag {
    if tag == Sas then EstablishedSas else EstablishedEcies
  }

  /** A number above every element: there is always an address left to allocate. */
  lemma {:induction false} Bound(xs: set<int>) returns (b: int)
    ensures b > 0 && forall x :: x in xs ==> x < b
  {
    b := 1;
    if exists x :: x in xs {
      var x :| x in xs;
      b := Bound(xs - {x});
      b := if x < b then b else x + 1;
      forall y | y in xs ensures y < b {
        if y != x { assert y in xs - {x}; }
      }
    }
  }
}
