# Native handles of java-vodozemac: a verified model

java-vodozemac gives Java code access to Rust objects (accounts, Olm and Megolm sessions, SAS and
ECIES state). Each Java object is a handle: it holds the address of a Rust box in a shared `State`,
and the box has to be released exactly once, by `close()`, by a native call that consumes it, or by
the `Cleaner` for a handle that became unreachable. Many threads may use the same handles. This
project models that ownership and locking protocol across the Java/Rust boundary and proves that
it is safe, serializable and live, for any number of threads and handles, any identity hash
function, any allocator (freed addresses may be handed out again at once) and any native operations.

## How the model is built

* `Values`, `Atomic`: the calls a client can make, and a sequential reference machine in which
  every call is one step on a table from handles to values. It has no pointers, monitors or threads.
* `Machine`: the concurrent machine. Threads run calls in micro-steps: take the monitors of the
  call's plan one by one, `checkNotClosed`, `nativePtr`, the native checks, decode, `Box::from_raw`,
  read, write, allocate, build the Java object, `RawBox::leak`, convert, drop the guards, `State.take`,
  `Cleanable.clean`, native free, give the monitors back. Every fallible step may fail or panic. The
  Cleaner is an actor of its own. `fault` is set by any dereference, release or cast of an address
  that is dead or holds another type.
* `Invariant`, `Interference`, `Steps`, `Preservation`, `Commits`, `Collection`, `Reachability`: the
  inductive invariant and its preservation by every step. What a running call knows is stated on a
  `View` of the few records it may rely on; steps of others leave that view equal.
* `Ownership`, `NativeAccess`, `Histories`, `Serializability`, `Mishaps`, `Answers`, `Indices`,
  `Endings`, `Decoding`, `Liveness`, `LateFailure`: the theorems. `Passivity` shows that the history
  variables (`ledger`, `log`, `fate`) influence nothing.
* `TakeRace`: `State.take` at a finer grain, raced by any number of takers.
* `PairLocks`, `Handles`, `EntryPoints`: the imperative code on both sides as classes and methods that
  change state in place, each proved against the functions of the machines above.

The native operations are functions `run`, `join`, `decodes`, `establish` and `spawn` of a `Native`
record; the integer `op` names the operation together with its arguments, its randomness and the
place where it stops if it panics half-way. Whether the argument of a consuming call can be decoded
is a function of `op` (`decodes`). An error that the operation itself reports is its answer
(`Returned`, `Failed`); an argument check that throws (`Rejected`), a JNI conversion that fails or a
Rust panic (`Broken`, `Lost(true)`) are mishaps, which are nondeterministic steps. So every theorem
holds for all native behaviours, and the vodozemac crate is not part of this model. A moved-out box may be released at any moment between the
operation that takes it by value and the end of the native closure (label `Shed`). A merged session
on its way to Java as a `Long` is answered for by its call until the Java handle exists.

## Assumptions

* Monitors behave as in section 17.1 of the Java Language Specification.
* A `Cleanable` runs its action at most once, and the Cleaner starts it only for a handle that no
  thread can still reach. (`TakeRace` does not need the second half.)
* Client code does not hold the monitors of sessions itself.
* A Java constructor called through `new_object` completes, or fails before it registers with the
  Cleaner. There is no out-of-memory error inside Java constructors.
* A native value is a mathematical integer; the theorems on message indices speak of a counter that
  does not wrap around.

## What was found

The documentation of `Ecies` and of `NativeHandle.invalidate` says that a consumed object's native
resources have been transferred. The code does not do that when an ECIES argument cannot be decoded:
the native method fails before `Box::from_raw`, Java still invalidates the handle, and the box is
never released. The model follows the code. `Decoding.LeftBehindIffUndecodable` gives the exact
condition in terms of what a caller passes: in every run whose JNI conversions succeed, a consuming
call that entered native code leaves its box behind if and only if the handle is an `Ecies` and the
argument does not decode. A JNI conversion that fails there has the same effect
(`Decoding.LeftBehindIff`). `LateFailure.LateFailureLeaks` gives a complete run for every such
argument. `Sas` takes its box first and never leaves one, whatever the argument.

## Model

| member | source | states |
|---|---|---|
| Serializability.Serializable | src/main/java/io/github/fherbreteau/vodozemac/megolm/InboundGroupSession.java:204-256 | in every run, replaying the calls in commit order on the atomic machine succeeds, gives each thread exactly the answers it got (closed and failing calls included), and shows the real native value of every handle not inside a call |
| Serializability.RealTimeOrder | src/main/java/io/github/fherbreteau/vodozemac/NativeHandle.java:26-30 | the commit order respects real time: a call that had returned before another began is ordered before it |
| Answers.SmoothCallsAreAnswered | rust/src/megolm/outbound_group_session.rs:110-116 | a call that meets no mishap gets exactly the answer due on the values it found: the operation's own reply, a new handle exactly if the operation gives an object, the operation's error, the undecodable argument, the self-operation, or closed; whatever other threads and the Cleaner do |
| Answers.ShutIsAnsweredClosed | src/main/java/io/github/fherbreteau/vodozemac/NativeHandle.java:54-58 | IllegalStateException goes to every call but close that names a closed or consumed handle, unless an argument check of that call throws first |
| Answers.EstablishedFromInput | rust/src/sas/sas.rs:60-62 | in every run the object made by a consuming call holds what the operation established from the value that was in the consumed box, with the type that goes with it, and the argument decoded |
| Answers.UseMeans | rust/src/olm/account.rs:134-144 | what each answer of a synchronized call says about the handle's value and a created session; without a mishap the answer is determined by `run` |
| Answers.ConsumeMeans | rust/src/ecies/ecies.rs:79-94 | what each answer of a consuming call says about the table: the input is shut, leaked exactly if lost, the new object comes from its value; without a mishap the answer is determined by `decodes` and `establish` |
| Answers.PairMeans | rust/src/megolm/inbound_group_session.rs:279-310 | what each answer of a pair call says about both values and the merged one; without a mishap the answer is determined by `join`, and a self-operation is refused |
| Answers.ShutMeans | src/main/java/io/github/fherbreteau/vodozemac/NativeHandle.java:54-58 | a call that names a shut handle changes nothing and is answered closed or rejected, and close returns |
| Answers.CloseMeans | src/main/java/io/github/fherbreteau/vodozemac/NativeHandle.java:79-85 | close returns and leaves exactly its handle shut, and never leaks |
| Answers.NewMeans | src/main/java/io/github/fherbreteau/vodozemac/sas/Sas.java:37-39 | a constructor or factory makes one handle with the value the operation gave, or nothing after a mishap |
| Mishaps.SparedNeverReports | rust/src/helpers.rs:81-90 | a rejection, a lost conversion and a broken call are reported only by a call that itself met just that mishap |
| Mishaps.MishapsHappen | rust/src/helpers.rs:81-90 | at every argument check, decode, operation, allocation, construction and conversion a call can meet the mishap of that stage |
| Mishaps.CallsBegin | src/main/java/io/github/fherbreteau/vodozemac/NativeHandle.java:26-30 | an idle thread can begin exactly the calls on reachable handles of the class that declares them |
| Mishaps.AllocatorIsFree | rust/src/helpers.rs:70-72 | the allocator may return any address not in use, freed ones included, and a moved-out box may be released as soon as it has been read |
| Serializability.CommitsInside | src/main/java/io/github/fherbreteau/vodozemac/NativeHandle.java:79-101 | the history grows only by one event at a time, in a step of the call's own thread while it holds its monitors, or when the Cleaner takes a pointer |
| Serializability.IdleHandles | src/main/java/io/github/fherbreteau/vodozemac/NativeHandle.java:108-129 | for a handle outside every call the State and the box behind it show exactly what the atomic table shows |
| Reachability.NextKeeps | src/main/java/io/github/fherbreteau/vodozemac/NativeHandle.java:34-154 | every step of every thread and of the Cleaner keeps the invariant, through the dangling and the double-owner window |
| Reachability.ReachableInv | src/main/java/io/github/fherbreteau/vodozemac/NativeHandle.java:34-154 | the invariant holds in every state any run can reach |
| Interference.ApplyKeeps | src/main/java/io/github/fherbreteau/vodozemac/NativeHandle.java:26-30 | a step that stays within its own boxes and handles leaves what all other calls, handles and the Cleaner rely on as it was |
| Commits.CommitSpec | src/main/java/io/github/fherbreteau/vodozemac/NativeHandle.java:79-101 | at its commit every call, however it ended, does exactly what the atomic machine does for that outcome |
| Commits.CommitSettles | rust/src/helpers.rs:70-116 | after a commit each handle of the call, the new one included, agrees with the atomic table again |
| Commits.DoneChild | rust/src/helpers.rs:96-110 | a call that is about to commit has no box in its hands, and made a handle exactly if its outcome says so |
| Ownership.EveryBoxHasOneOwner | rust/src/helpers.rs:70-116 | in every reachable state an address is live if and only if someone answers for it (a handle, a local box, a guard or pointer in flight, the Cleaner, a lost Ecies box), the owner is unique, and the box has the type the owner will cast it to |
| Ownership.OwnsIsLedger | rust/src/ecies/ecies.rs:77-94 | the owner read off handles, frames and Cleaner is the recorded one; a consumed handle that still shows the address, and a new handle whose box is still guarded, are not owners |
| Ownership.PrivateCell | rust/src/ecies/ecies.rs:82-93 | in the double-owner window the new handle shows the guarded address but owns it only once the guard is disarmed |
| NativeAccess.AccessesAreLive | src/main/java/io/github/fherbreteau/vodozemac/NativeHandle.java:50-58 | every dereference, take-over and release in every run hits a live address that holds the type it is cast to |
| NativeAccess.AccessesAreByOwner | rust/src/sas/sas.rs:56 | whoever uses an address is the owner of the box now at it, so a stale pointer is never used even when its address holds a new box of the same type |
| NativeAccess.NeverFaults | rust/src/helpers.rs:39-47 | no run ever sets the fault flag |
| NativeAccess.NativeCallsAreExclusive | rust/src/megolm/inbound_group_session.rs:223-229 | no two native calls, and no call and the Cleaner, ever have the same box in hand |
| NativeAccess.PointersDecideIdentity | rust/src/megolm/inbound_group_session.rs:200-212 | inside a pair call with both sessions open the pointers are equal exactly if the objects are, `check_self_pointer` refuses exactly self-operations, and past it the two references are distinct |
| NativeAccess.NoNullPointers | rust/src/helpers.rs:74-79 | no native method and no native free called from Java receives a null pointer, and no call ends refused by `check_ptr` |
| Histories.NeverRefused | rust/src/megolm/inbound_group_session.rs:200-212 | in every history no call is refused as null, only self-operations are refused as such, and a self-operation on an open session is never carried out |
| Histories.ConsumptionIsFinal | src/main/java/io/github/fherbreteau/vodozemac/NativeHandle.java:54-58 | after a consuming call reached native code, whether it returned or threw, no later call consumes, and each is answered closed unless its own argument check throws |
| Histories.ShutForever | src/main/java/io/github/fherbreteau/vodozemac/NativeHandle.java:60-69 | a closed or consumed handle never changes again |
| Histories.OpenNeverEntered | src/main/java/io/github/fherbreteau/vodozemac/ecies/Ecies.java:115-124 | a handle that is still open was never inside a consuming native call |
| Histories.ReleasedOnce | src/main/java/io/github/fherbreteau/vodozemac/NativeHandle.java:79-101 | close, consumption and the Cleaner together release a handle at most once in any history |
| Histories.LeakedIffUndecodable | rust/src/ecies/ecies.rs:109-112 | in every history, a consuming call that entered native code gives its value up without release exactly if the handle is an Ecies and the argument does not decode, or a JNI conversion failed first |
| Endings.EnteredOnce | src/main/java/io/github/fherbreteau/vodozemac/sas/Sas.java:69-77 | while a call is in its consuming native method no other call on the handle has ever got there |
| Endings.ConsumedOnce | src/main/java/io/github/fherbreteau/vodozemac/ecies/Ecies.java:149-157 | on the concurrent machine, no call ordered after the consuming one, also none already queued on the monitor, consumes again; each that meets no failing argument check gets IllegalStateException |
| Endings.ConsumedInputIsGone | src/main/java/io/github/fherbreteau/vodozemac/ecies/Ecies.java:119-123 | at the end of a consuming call the handle is empty and owns nothing, and an unreleased box remains if and only if it is an Ecies whose argument does not decode or a JNI conversion failed before `Box::from_raw` |
| Endings.EmptyIffCleaned | src/main/java/io/github/fherbreteau/vodozemac/NativeHandle.java:79-101 | outside calls the Cleanable of a handle has run exactly if the handle is empty, so the Cleaner never starts on one that was closed or consumed |
| Endings.BalancedEnd | rust/src/helpers.rs:81-116 | for every failure or panic point: at the end of a call no guard and no local box is left, and a new box exists exactly if one new handle was made, which owns it |
| Endings.WarnedIffCollected | src/main/java/io/github/fherbreteau/vodozemac/NativeHandle.java:143-152 | the leak warning has been logged for a handle if and only if the Cleaner released it |
| Endings.ReleasedIsNotWarned | src/main/java/io/github/fherbreteau/vodozemac/NativeHandle.java:79-101 | a handle that was closed or consumed is never warned about, although both run the leak guard |
| Endings.ResidueIsExact | rust/src/ecies/ecies.rs:72-77 | once all calls are done and every handle is empty, the live boxes are, one for one, the inputs of the Ecies calls that failed before `Box::from_raw`; no Sas box is left |
| Endings.LostHasBox | rust/src/ecies/ecies.rs:109-112 | in every reachable state after such a failure the box of that call is still live as an Ecies, so nothing ever releases it |
| Endings.ShutIsSettled | src/main/java/io/github/fherbreteau/vodozemac/NativeHandle.java:98-101 | a handle closed or consumed in the history is empty and in order, also while later calls on it are under way |
| Endings.QuietHeap | src/main/java/io/github/fherbreteau/vodozemac/NativeHandle.java:44-48 | at any quiet moment the live boxes are exactly those of the open handles and that residue, and no two handles show the same box |
| Decoding.LeftBehindIff | rust/src/sas/sas.rs:55-59 | in every reachable state the handle of a call that entered native code owns nothing, and its input box is left behind exactly if it is an Ecies and the argument does not decode or a JNI conversion failed; a Sas leaves none whatever the argument |
| Decoding.LeftBehindIffUndecodable | rust/src/ecies/ecies.rs:72-77 | in every run whose JNI conversions succeed, the box is left behind if and only if the handle is an Ecies and the argument does not decode |
| Decoding.ResidueIsUndecodable | rust/src/ecies/ecies.rs:109-112 | at the end of such a run the native heap holds exactly the inputs of the Ecies calls whose argument does not decode |
| LateFailure.LateFailureLeaks | src/main/java/io/github/fherbreteau/vodozemac/ecies/Ecies.java:149-157 | for every argument that does not decode there is a run, without any JNI failure, that is over with no handle left and the Ecies box still live |
| Liveness.NoDeadlock | src/main/java/io/github/fherbreteau/vodozemac/megolm/InboundGroupSession.java:344-372 | in every reachable state with an unfinished call some unfinished call can move, for any hash function, collisions included |
| Liveness.HighestHolderMoves | src/main/java/io/github/fherbreteau/vodozemac/megolm/InboundGroupSession.java:356-371 | the holder of the highest wanted session is not blocked, or it holds the tie-break lock, wants a session of the same hash, and that one's holder is not blocked |
| Liveness.SomeHolderMoves | src/main/java/io/github/fherbreteau/vodozemac/megolm/InboundGroupSession.java:344-372 | if some thread is blocked, some unfinished thread is not |
| Liveness.HolderClimbs | src/main/java/io/github/fherbreteau/vodozemac/megolm/InboundGroupSession.java:354-371 | if the holder of a wanted session is blocked too, it wants one of a higher hash, or of the same hash under the tie-break lock |
| Liveness.PlanRises | src/main/java/io/github/fherbreteau/vodozemac/megolm/InboundGroupSession.java:354-371 | sessions are taken by rising hash, and two of equal hash only under the tie-break lock |
| Liveness.NextLighter | src/main/java/io/github/fherbreteau/vodozemac/NativeHandle.java:79-101 | every step of every actor uses up some of a bounded budget |
| Liveness.RunsAreBounded | src/main/java/io/github/fherbreteau/vodozemac/megolm/InboundGroupSession.java:344-372 | no run is longer than the measure of its start |
| Liveness.MaximalRuns | src/main/java/io/github/fherbreteau/vodozemac/NativeHandle.java:131-153 | a run that cannot go on has completed every call, left every monitor free, the Cleaner at rest and every handle empty, and the heap is exactly the residue |
| Liveness.EveryRunEnds | src/main/java/io/github/fherbreteau/vodozemac/megolm/InboundGroupSession.java:344-372 | every state can be continued to such an end |
| TakeRace.TakenAtMostOnce | src/main/java/io/github/fherbreteau/vodozemac/NativeHandle.java:116-120 | whenever takers run and however they interleave, the pointer goes unchanged to exactly one of them, and all others get null |
| TakeRace.RacesAreAtomic | src/main/java/io/github/fherbreteau/vodozemac/NativeHandle.java:116-120 | reduction: every interleaving of takers returns to each of them what indivisible takes in some order return, and leaves the same pointer |
| TakeRace.SomeTakerMoves | src/main/java/io/github/fherbreteau/vodozemac/NativeHandle.java:116-120 | the monitor of the State is a leaf: while some taker is not done, some taker can move |
| TakeRace.GoKeeps | src/main/java/io/github/fherbreteau/vodozemac/NativeHandle.java:116-120 | each read, clear and monitor step of `take` keeps: at most one taker inside, at most one winner, the pointer not lost |
| Indices.ThreadsGetDistinctIndices | src/main/java/io/github/fherbreteau/vodozemac/megolm/OutboundGroupSession.java:129-133 | two messages, of any plaintexts, returned to any threads on one session never carry the same index |
| Indices.ReceivedIndicesAreExact | rust/src/megolm/outbound_group_session.rs:110-116 | if no conversion failed after an encryption, the indices the threads received are exactly the n successive ones from the session's start |
| Indices.CounterIsCount | rust/src/megolm/outbound_group_session.rs:110-116 | the native counter is its start plus the encryptions that moved it, and the indices handed out rise strictly below it |
| Indices.IndexIsCount | src/main/java/io/github/fherbreteau/vodozemac/megolm/OutboundGroupSession.java:81-84 | a returned index counts the encryptions before it, wasted ones included |
| Indices.IndicesAreContiguous | rust/src/megolm/outbound_group_session.rs:114-116 | with no wasted encryption the indices in commit order have no gap |
| Indices.StartIsSpawned | src/main/java/io/github/fherbreteau/vodozemac/megolm/OutboundGroupSession.java:129-133 | a session counts from the value its constructor or factory gave it |
| Passivity.StepsIgnoreHistory | src/main/java/io/github/fherbreteau/vodozemac/NativeHandle.java:34-154 | states that differ only in history variables allow the same steps with the same effects |
| PairLocks.WithLocks | src/main/java/io/github/fherbreteau/vodozemac/megolm/InboundGroupSession.java:344-372 | the nested synchronized blocks enter exactly the monitors of the machine's plan in its order, run the action while holding just these in addition, pass its value or exception on, and give all of them back |
| Handles.NativeHandle.constructor | src/main/java/io/github/fherbreteau/vodozemac/NativeHandle.java:44-48 | a new handle holds the pointer in a State of its own, with the leak guard armed |
| Handles.PointerState.Take | src/main/java/io/github/fherbreteau/vodozemac/NativeHandle.java:116-120 | returns the pointer and leaves null |
| Handles.NativeHandle.CheckNotClosed | src/main/java/io/github/fherbreteau/vodozemac/NativeHandle.java:54-58 | true exactly if the pointer has not been taken |
| Handles.NativeHandle.RunLeakGuard | src/main/java/io/github/fherbreteau/vodozemac/NativeHandle.java:143-152 | releases the box and warns if there still is a pointer, else does nothing |
| Handles.NativeHandle.Clean | src/main/java/io/github/fherbreteau/vodozemac/NativeHandle.java:79-101 | runs the leak guard the first time only |
| Handles.NativeHandle.Close | src/main/java/io/github/fherbreteau/vodozemac/NativeHandle.java:79-85 | idempotent; releases exactly the handle's box, once, without warning |
| Handles.NativeHandle.Invalidate | src/main/java/io/github/fherbreteau/vodozemac/NativeHandle.java:98-101 | gives up the pointer, live or dangling, without release or warning, and keeps the Cleaner from releasing it |
| Handles.CreationResult.constructor | src/main/java/io/github/fherbreteau/vodozemac/ecies/OutboundCreationResult.java:21-24 | adopts the pointer into one new open handle |
| Handles.CreationResult.Close | src/main/java/io/github/fherbreteau/vodozemac/olm/InboundCreationResult.java:46-48 | releases exactly the adopted box, once |
| Handles.NativeFree | rust/src/helpers.rs:39-47 | releases a live box of the right type; null is ignored |
| Handles.NativeHeap.Allocate | rust/src/helpers.rs:70-72 | puts the box at some non-null address not in use, whichever the allocator picks, and changes nothing else |
| Handles.RawBox.constructor | rust/src/helpers.rs:96-101 | an armed guard over a new box |
| Handles.RawBox.Leak | rust/src/helpers.rs:107-109 | disarms the guard |
| Handles.RawBox.Drop | rust/src/helpers.rs:112-116 | an armed guard releases its box, a disarmed one nothing |
| EntryPoints.NativeDiffieHellman | rust/src/sas/sas.rs:47-75 | for every failure point: its answer, that the input box is gone, and that the heap gains a box exactly with its handle, holding what `establish` gives on the old value |
| EntryPoints.DiffieHellman | src/main/java/io/github/fherbreteau/vodozemac/sas/Sas.java:69-77 | answers closed exactly on an empty handle and else as the native call; the handle is empty on every exit, the heap is exact, nothing is warned about, and the atomic machine does the same |
| EntryPoints.NativeEstablish | rust/src/ecies/ecies.rs:63-132 | for every failure point: its answer; an argument that does not convert or decode leaves the heap untouched; else the input is gone, and a new box exists exactly with its handle, holding what `establish` gives on the old value |
| EntryPoints.Establish | src/main/java/io/github/fherbreteau/vodozemac/ecies/Ecies.java:149-157 | answers closed exactly on an empty handle and else as the native call; leaves the box of an open handle on the heap exactly if the argument does not convert or decode; the atomic machine does the same |
| EntryPoints.NativeCreateSession | rust/src/olm/account.rs:134-144 | for every failure point: its answer; the account changes before the guarded part, every failure after it keeps that change and leaves no new box |
| EntryPoints.CreateSession | src/main/java/io/github/fherbreteau/vodozemac/account/Account.java:152-159 | answers closed exactly on an empty handle and else as the native call, with the account and the new session holding what `run` gave; other boxes stay; the atomic machine does the same |
| EntryPoints.Encrypt | rust/src/megolm/outbound_group_session.rs:102-120 | closed exactly on an empty handle; a smooth call returns the reply; the ratchet moves before the fallible conversion, so a failed conversion keeps the move; other boxes are untouched |
| EntryPoints.NativeJoin | rust/src/megolm/inbound_group_session.rs:279-310 | refuses exactly equal pointers before any use; for every failure point its answer, which of the two boxes are written, and that a merged box exists exactly with its handle |
| EntryPoints.JoinSessions | src/main/java/io/github/fherbreteau/vodozemac/megolm/InboundGroupSession.java:204-256 | closed exactly if one session is; refuses exactly equal open pointers, which are one session since distinct open handles show different addresses; else the answer, both values and a merged one are given by `join` and the failure point; all other boxes stay |
| EntryPoints.AdoptMerged | rust/src/megolm/inbound_group_session.rs:293-306 | either the merged box ends up owned by one new handle or it is released |

## Left out

- The vodozemac crate (ratchets, MACs, base64, pickle formats) is not part of this model; native operations are uninterpreted functions, except for the counter of an outbound session.
- What `advanceTo`, `exportAt`, `merge` and `compare` mean for ratchet state: only their locking and ownership is modelled.
- JNI string, array and exception conversions are steps that may fail; which exception class results is not modelled.
- `NativeLibraryLoader` (file extraction, permissions, platform names) is I/O.
- Value classes, enums, `KeyValidator`, `IndexValidator`, key-count checks and index widening: each is settled by reading one branch; their rejections appear as the outcome `Rejected`.
- Constructors and factories: an argument that the operation does not accept counts as a mishap, because `spawn` gives a value for every operation.
- The loops that fill Java lists and maps (`key_vec_to_java_list`, `key_map_to_result`) are part of a fallible conversion step.
- The concurrent machine represents a creation result by the handle inside it; its own class is `Handles.CreationResult`.
- `State.take` is one step of the concurrent machine; its monitor is modelled in `TakeRace`, where `RacesAreAtomic` proves that every race is an order of indivisible takes.
- Nested calls of one thread on a monitor it already holds (reentrancy) do not occur in the modelled calls, except `withLocks` on one object, which takes that monitor once.
- Indices.CounterIsCount: does not model wrap-around of the 32-bit index, because the counter lives in the vodozemac crate.
- PairLocks.WithLocks: is sequential, one thread's own monitors; blocking and other threads are in `Machine` and `Liveness`.
- EntryPoints.JoinSessions: takes from `NativeAccess.PointersDecideIdentity` that two distinct open handles show different addresses, because a sequential contract cannot see the other owners.
