# Concurrent samples and their tracer, modelled and proved in Dafny

The repository traces atomicity violations in Rust programs: an LLVM pass inserts probes, a C logger
writes one line per probe, a Python script reports the addresses that several threads touched. It also
carries the small concurrent programs that are traced, most of them with a known bug and its fix side
by side. This project models four parts of it and proves what holds of them, and exactly where a
promise fails.

`dafny verify dfyconfig.toml` checks everything.

**The lock-free bag** (`Bag*.dfy`). `BagMachine` takes one shared-memory access per step, with any
number of inserts and collects, a heap whose addresses are reused, and both collectors: the shipped one
(load, later store null) and the commented one (swap). `BagInvariant` says what the heap looks like,
`BagSafety` that no access breaks it, `BagProgress` that all runs are finite, `BagRefinement` that the
swap bag is an atomic stack, `BagConservation` that values are conserved, `BagShipped` exactly when the
shipped collector is memory safe and what it loses, and `BagSnapshot` what it prints. `BagCode` has the
program itself, as a class whose methods run under arbitrary interference.

**The one-shot channel** (`Channel*.dfy`). `ChannelWord` is the 64-bit state word, `ChannelMachine` the
protocol with every access to the unprotected value cell split into going in and coming out (`take`
reads when it goes in and writes when it comes out), `ChannelSafety` who may be in the cell for the
shipped and for the commented order of the two checks in `try_recv`, and `ChannelCode` the program.

**The tracer** (`Tracer*.dfy`, `Log*.dfy`, `Probe*.dfy`, `AtomReport.dfy`, `TraceReport.dfy`).
`TracerIR` is a small intermediate representation with its execution, `TracerPass` the pass as a loop
that inserts into the list it iterates over, `TracerMeaning` the proof that it preserves meaning and
traces exactly what it should, `TracerRely` the same for a program among other threads that change
the memory, and `TracerLocks` what the trace says of accesses and of critical sections. `ProbeLog` is
the logger with any number of threads, `ProbeCode` the probe itself, `LogText` the text of a line and
how it is read, `AtomReport` the script, `TraceReport` what script and logger do together.

**The peers registry** (`Registry*.dfy`). `RegistryMachine` has one step per lock and channel
operation, `RegistrySafety` the invariant, `RegistryProgress` freedom from deadlock and termination,
`RegistryLife` what broadcasts, closes and polling threads do over whole runs, `RegistryPanic` exactly
when calls panic and what a panic leaves behind, `RegistryCode` the program, whose calls wait for
locks.

How concurrency is modelled: a state machine takes one access per step and a run is any sequence of
enabled steps, so a statement about all runs is one about all interleavings of any number of calls. A
class holds the same state in fields; its methods do the accesses of one call in the order of the
source and let other calls take any steps in between (`env` and `waits` say which; the results hold for
all of them; with the shipped collector the steps of `env` that are impolite, after which the bag can fault,
do not happen). Each keeps the fields equal to the state the machine reaches by the recorded history,
so everything proved of runs holds of the program. Ghost views (`View`, `entries`, `epoch`) say what
the state means and do not influence it.

What turned out false of the code, with the exact condition under which it holds:

- The shipped collector touches freed memory in some run exactly if there are an insert and two
  collects (`BagShipped.CanFaultIff`, `BagShipped.PoliteLoadIffSafe`), and it loses exactly the
  values pushed between its load and its store (`BagShipped.ShippedCollectorExact`).
- The shipped order of checks lets both sides into the cell, and lets both have the value, exactly
  if the channel starts closed, as in `main` (`ChannelSafety.CompleteFirstExact`,
  `ChannelSafety.SingleTakeExact`, `ChannelSafety.ConservationExact`).
- A broadcast or close panics on a peer that is listed and not started yet
  (`RegistryPanic.CanPanicIff`, `RegistryPanic.AcquireCanPanicIff`); `main` does this.

Two remarks on the source. The comment at atom.py:31 speaks of more than two threads, the code tests
for more than one; the model follows the code. `addr` in a log line of an unlock is the first word of
the guard, read again by the inserted loads, which for a mutex guard is the address of the mutex.

## Model

| member | source | states |
|---|---|---|
| BagProgress.StepBudget | inputs/crossbeam_10c0012/src/main.rs:66-70 | No step of anybody raises the number of times an insert can still lose its compare-and-swap, and losing one spends a unit of it; holds for both collectors |
| BagProgress.RetriesBounded | inputs/crossbeam_10c0012/src/main.rs:66-70 | In every run of n calls from an empty bag, whatever the interleaving and the collector form, an insert loses its compare-and-swap at most n - 1 times |
| BagProgress.HeapSize | inputs/crossbeam_10c0012/src/main.rs:64-65 | An allocation adds one live node, a free in the collector removes one, and no other access changes how many there are |
| BagProgress.StepLowersMeasure | inputs/crossbeam_10c0012/src/main.rs:63-98 | Every access of every call lowers one global measure, although an insert may go back to its load: a lost compare-and-swap is paid for by the head write that caused it |
| BagProgress.RunsAreBounded | inputs/crossbeam_10c0012/src/main.rs:63-98 | k inserts and c collects take at most 1 + k(3(k + c) + 4) + 5c accesses in any run; no schedule keeps a retry loop going for ever |
| BagSafety.HeldApart | inputs/crossbeam_10c0012/src/main.rs:83-98 | A node held by one call is live, not reachable from the head, not lost, and held by no other call |
| BagSafety.StepAlloc | inputs/crossbeam_10c0012/src/main.rs:64-65 | The heap invariant (list and private chains finite, acyclic, live, pairwise disjoint) survives an allocation, also at an address that was freed before |
| BagSafety.StepLink | inputs/crossbeam_10c0012/src/main.rs:68 | The invariant survives the store to the next field of a node that is not published yet |
| BagSafety.StepCasWins | inputs/crossbeam_10c0012/src/main.rs:69 | The invariant survives a winning compare-and-swap: the node moves from its insert to the front of the list |
| BagSafety.StepDetach | inputs/crossbeam_10c0012/src/main.rs:79-84 | The invariant survives the swap, and the store of null: the detached nodes get exactly one new owner, or become lost |
| BagSafety.StepFree | inputs/crossbeam_10c0012/src/main.rs:86-98 | The invariant survives a free: the node belonged to the collector alone, so it is freed once and nobody else can reach it |
| BagSafety.StepSafe | inputs/crossbeam_10c0012/src/main.rs:63-98 | Every access keeps the invariant and touches live nodes only: for the swap form in every state, for the shipped form whenever no other collector loads a list that still shares a snapshot |
| BagRefinement.WinningCasPushes | inputs/crossbeam_10c0012/src/main.rs:64-69 | Immunity to address reuse: when the compare-and-swap wins, the next field of the new node is the current head, so the list of values is the old one with the inserted value in front |
| BagRefinement.PublishedLinksAreStable | inputs/crossbeam_10c0012/src/main.rs:68-69 | No access changes a node while it is in the list |
| BagRefinement.WalkKeepsClaim | inputs/crossbeam_10c0012/src/main.rs:85-98 | Reading, following and freeing a node leaves what the collector has printed plus what it will print unchanged |
| BagRefinement.OthersKeepClaims | inputs/crossbeam_10c0012/src/main.rs:63-98 | No access changes what another collector has printed and will print |
| BagRefinement.StepSimulates | inputs/crossbeam_10c0012/src/main.rs:63-91 | One access of the swap bag is one push, one take-all or no operation of an atomic stack |
| BagRefinement.RunSimulates | inputs/crossbeam_10c0012/src/main.rs:63-91 | The same over whole runs: the accesses that take effect form a legal sequential run of the stack that ends in the abstraction of the bag |
| BagRefinement.SwapBagIsAtomicStack | inputs/crossbeam_10c0012/src/main.rs:63-91 | Linearizability of the bag with the commented collector for any number of calls and every interleaving: a legal sequential stack run explains all finished calls, finished collects have printed exactly what they took in it, and no freed node is touched |
| BagConservation.StepBalance | inputs/crossbeam_10c0012/src/main.rs:63-98 | For both collectors one access creates, drops or duplicates no value: if committed values were listed, lost, or printed or still to be printed by exactly one collector, they still are |
| BagConservation.InitialBalanced | inputs/crossbeam_10c0012/src/main.rs:5-7 | An empty bag is balanced in this sense |
| BagConservation.SwapBagConserves | inputs/crossbeam_10c0012/src/main.rs:63-91 | Conservation at all times: in every run of the swap bag from empty the committed values are exactly those listed and those printed, or still to be printed, by one collector each; nothing is lost |
| BagConservation.SwapBagAccounts | inputs/crossbeam_10c0012/src/main.rs:63-91 | When all calls of a swap bag are done, the inserted values are exactly those left in the list and those printed, as often as they were inserted |
| BagShipped.ChainUnique | inputs/crossbeam_10c0012/src/main.rs:94-98 | The chain from the head is determined by the heap, so being reachable is a property of the state |
| BagShipped.PoliteRunIsSafe | inputs/crossbeam_10c0012/src/main.rs:73-98 | From every reachable state: if no shipped collector loads a list of which another has loaded a part it has not detached yet, no freed node is touched, values are conserved, and lost nodes stay lost |
| BagShipped.PoliteBagConserves | inputs/crossbeam_10c0012/src/main.rs:63-98 | Conservation at all times: in every such run from an empty bag no freed node is touched, and the committed values are those listed, those lost, and those printed, or still to be printed, by one collector each |
| BagShipped.PoliteBagAccounts | inputs/crossbeam_10c0012/src/main.rs:63-98 | When all calls are done, the inserted values are exactly those listed, those lost and those printed |
| BagShipped.ImpoliteLoadCanFault | inputs/crossbeam_10c0012/src/main.rs:75-98 | After a load that breaks this rule there is a continuation in which one collector reads a node the other has freed |
| BagShipped.PoliteLoadIffSafe | inputs/crossbeam_10c0012/src/main.rs:75-98 | Exactly when a load by a shipped collector is memory safe: no polite continuation faults if and only if the load was polite |
| BagShipped.OverlapRun | inputs/crossbeam_10c0012/src/main.rs:66-98 | One insert and two collects suffice for a use after free: both collectors load the node before either stores null |
| BagShipped.CanFaultIff | inputs/crossbeam_10c0012/src/main.rs:63-98 | Exactly which sets of concurrent calls can touch freed memory with the shipped collector: those with at least one insert and at least two collects |
| BagShipped.WindowGrows | inputs/crossbeam_10c0012/src/main.rs:66-79 | Between the load and the store of a shipped collector the list only grows at the front, by exactly the values whose inserts win |
| BagShipped.StoreAfterWindow | inputs/crossbeam_10c0012/src/main.rs:79 | At the store the list is what was pushed followed by the snapshot; the collector gets the snapshot, exactly the pushed nodes are lost, and nothing was pushed if and only if the head is still the one it loaded |
| BagShipped.ShippedCollectorExact | inputs/crossbeam_10c0012/src/main.rs:73-98 | The shipped collector, characterised: it prints exactly the snapshot in order, exactly the values pushed in the window become unreachable, and nothing is lost if and only if no compare-and-swap won in the window |
| BagShipped.WalkerKeepsClaim | inputs/crossbeam_10c0012/src/main.rs:94-98 | Once a shipped collector has stored null, no polite step changes what it will have printed |
| BagShipped.CollectorPrintsItsClaim | inputs/crossbeam_10c0012/src/main.rs:94-100 | When it finishes it has printed exactly that |
| BagSnapshot.LoadPromises | inputs/crossbeam_10c0012/src/main.rs:75 | At its load a shipped collector is promised the whole bag |
| BagSnapshot.StepKeepsPromise | inputs/crossbeam_10c0012/src/main.rs:75-98 | No polite step of anybody, not even the store of null by another collector, changes what a collector that has loaded the head will have printed |
| BagSnapshot.CollectorPrintsSnapshot | inputs/crossbeam_10c0012/src/main.rs:73-101 | From every reachable state and along every polite run, with any number of inserters and other collectors, a finished shipped collector has printed exactly what the bag held when it loaded the head |
| BagShipped.InsertAlone | inputs/crossbeam_10c0012/src/main.rs:63-71 | An insert that runs alone needs four accesses and puts its node in front of the list |
| BagShipped.LostInsert | inputs/crossbeam_10c0012/src/main.rs:17-26 | The schedule of main: "5" is inserted between the load and the store; the insert is committed, the bag is empty, and the collector holds only the node of "4" |
| BagCode.ConcBag.constructor | inputs/crossbeam_10c0012/src/main.rs:5-7 | An empty bag satisfies the heap invariant and is a run of no steps |
| BagCode.ConcBag.OtherStep | inputs/crossbeam_10c0012/src/main.rs:18-26 | A step of another call, with the shipped form any polite one, keeps the invariant, what this call has printed and will print, and lowers the measure |
| BagCode.ConcBag.ListNodes | inputs/crossbeam_10c0012/src/main.rs:32-36 | Walks exactly the nodes of the list |
| BagCode.ConcBag.Interfere | inputs/crossbeam_10c0012/src/main.rs:18-26 | Any steps of other calls, with the shipped form any polite ones, keep the invariant, leave this call where it is, and keep what it has printed and will print |
| BagCode.ConcBag.Allocate | inputs/crossbeam_10c0012/src/main.rs:64-65 | The allocator gives an address that is not live; the node holds the value, and the list is unchanged |
| BagCode.ConcBag.StoreNext | inputs/crossbeam_10c0012/src/main.rs:68 | The next field of the own node becomes the loaded head, and the list is unchanged |
| BagCode.ConcBag.CompareAndSwap | inputs/crossbeam_10c0012/src/main.rs:69 | It wins exactly if the head is the loaded one; then the value is in front of the bag, otherwise nothing changes |
| BagCode.ConcBag.Insert | inputs/crossbeam_10c0012/src/main.rs:63-71 | Returns under every interference, polite loads by shipped collectors included, by a measure that every step lowers, and has committed its value; alone it puts exactly its value in front |
| BagCode.ConcBag.LoadToCollect | inputs/crossbeam_10c0012/src/main.rs:75 | The call is promised the contents of the bag at the load; the swap form returns at once if it is empty |
| BagCode.ConcBag.Detach | inputs/crossbeam_10c0012/src/main.rs:79-84 | Empties the bag; the swap gets the contents at that moment, the store of null what was promised at the load; nothing is lost with the swap or if the head is the loaded one |
| BagCode.ConcBag.ReadNode | inputs/crossbeam_10c0012/src/main.rs:85-96 | The current node is live; printing its value leaves printed plus remaining unchanged |
| BagCode.ConcBag.FollowNode | inputs/crossbeam_10c0012/src/main.rs:88-97 | The current node is still live when its next field is read |
| BagCode.ConcBag.FreeNode | inputs/crossbeam_10c0012/src/main.rs:86-95 | Exactly the current node leaves the heap |
| BagCode.ConcBag.FinishWalk | inputs/crossbeam_10c0012/src/main.rs:94-100 | At null the call has printed all it had claimed |
| BagCode.ConcBag.WalkAll | inputs/crossbeam_10c0012/src/main.rs:94-98 | The freeing loop ends under every interference and prints, in order, exactly what the call had claimed when it started |
| BagCode.ConcBag.Collect | inputs/crossbeam_10c0012/src/main.rs:73-101 | Either form returns under every interference, and has printed exactly what the bag held after the recorded moves `at`: with the swap when the list was detached or found empty, with the shipped form when the head was loaded; alone it empties the whole bag and loses nothing |
| BagCode.ConcBag.PrintBag | inputs/crossbeam_10c0012/src/main.rs:30-37 | Prints exactly the contents of the bag, in list order |
| ChannelWord.FetchOrRefines | inputs/tokio_59c0044/src/main.rs:180-188 | One fetch_or on the 64-bit word sets its own flag and leaves the other flag and all other bits alone |
| ChannelWord.WordIsTwoBooleans | inputs/tokio_59c0044/src/main.rs:51-52 | After any sequence of fetch_or operations a flag is up exactly if it was up before or some operation raised it: two independent flags that are never cleared |
| ChannelWord.PreviousTellsOrder | inputs/tokio_59c0044/src/main.rs:142-160 | On a fresh word the returned previous values tell who was first: the first completion sees CLOSED if and only if a close came before it, and the other way round |
| ChannelSafety.StepAlways | inputs/tokio_59c0044/src/main.rs:71-129 | Every access keeps what links flags, cell and the two sides, in either order and with closes at any time: after a double claim too, somebody has had the value before anybody finds the cell empty |
| ChannelSafety.OnlySentValues | inputs/tokio_59c0044/src/main.rs:71-129 | Nobody ever gets a value that was not sent, in every run of either order, with closes at any time, and even while both sides are in the cell |
| ChannelSafety.StepHoldings | inputs/tokio_59c0044/src/main.rs:71-129 | As long as only one side has claimed the value, every access moves it from one of sender, cell, receiver or returned error to another, or does not touch it |
| ChannelSafety.ValueConserved | inputs/tokio_59c0044/src/main.rs:71-129 | In every run of either order, with closes at any time, that does not lead to a double claim, what was passed to send is in exactly one of these places |
| ChannelSafety.DoubleClaimIsTheHarm | inputs/tokio_59c0044/src/main.rs:82-105 | Without a double claim the channel is correct; with one, when both sides are through, it is not: either both have the value, or the sender panicked, or the receiver failed to consume |
| ChannelSafety.RunExclusive | inputs/tokio_59c0044/src/main.rs:98-125 | No double claim in any run: for the commented order whatever anybody does, for the shipped order as long as nobody but a receiver dropped unused closes |
| ChannelSafety.ClosedFirstCorrect | inputs/tokio_59c0044/src/main.rs:111-119 | The commented order from every fresh state, closed or not, with closes at any time: the two sides are never in the cell together, the value is taken at most once and is always in exactly one place, and unwrap never meets None |
| ChannelSafety.CompleteFirstCorrect | inputs/tokio_59c0044/src/main.rs:98-138 | The shipped order in every run from channel(): the same guarantees |
| ChannelSafety.ClosedStartClashes | inputs/tokio_59c0044/src/main.rs:15 | From a channel that is closed at the start, as main builds it, the shipped order has a run in which both sides are inside the cell |
| ChannelSafety.ClosedStartDuplicates | inputs/tokio_59c0044/src/main.rs:79-105 | From such a start it has a run in which send hands the value back and try_recv returns it too |
| ChannelSafety.ClosedStartPanics | inputs/tokio_59c0044/src/main.rs:79-84 | And one in which the unwrap in send meets None |
| ChannelSafety.CompleteFirstExact | inputs/tokio_59c0044/src/main.rs:98-109 | The shipped order keeps the sides apart in all runs without further closes if and only if the channel is open at the start |
| ChannelSafety.SingleTakeExact | inputs/tokio_59c0044/src/main.rs:98-109 | On the same condition, and only then, the value is taken at most once in all these runs |
| ChannelSafety.ConservationExact | inputs/tokio_59c0044/src/main.rs:98-109 | On the same condition, and only then, the value is always in exactly one place |
| ChannelSafety.RunDelivers | inputs/tokio_59c0044/src/main.rs:102-104 | A receiver that has been let in for a value whose send returned Ok gets that value in every continuation |
| ChannelSafety.OkIsDelivered | inputs/tokio_59c0044/src/main.rs:71-129 | A receiver whose load follows a send that returned Ok is let in by the shipped order always, by the commented one exactly if nobody has closed; once let in and finished it has the value |
| ChannelSafety.NeverNotReady | inputs/tokio_59c0044/src/main.rs:100-122 | Once a channel is closed or complete, a receiver that has not loaded its state yet is never told that it is neither, in any run of either order |
| ChannelCode.StepAccounted | inputs/tokio_59c0044/src/main.rs:71-129 | Every access keeps that all values were sent and that, unless both sides have claimed it, the value is in exactly one place |
| ChannelCode.Inner.constructor | inputs/tokio_59c0044/src/main.rs:201-213 | A fresh channel, closed or not, satisfies the invariants |
| ChannelCode.Inner.FetchOr | inputs/tokio_59c0044/src/main.rs:180-188 | Sets exactly one flag of the word and returns the flags before |
| ChannelCode.Inner.Interfere | inputs/tokio_59c0044/src/main.rs:22-44 | Steps of the other side and closes by anybody keep the invariants, leave this side where it is and send nothing new; guarded ones keep exclusion |
| ChannelCode.Inner.Send | inputs/tokio_59c0044/src/main.rs:71-86 | Ok means that the value is in the cell or received, Err returns exactly the sent value, and where the order allows the closes that happen, unwrap does not panic, under every interference |
| ChannelCode.Inner.WriteValue | inputs/tokio_59c0044/src/main.rs:74-76 | Afterwards the cell has been written and the value is the only one ever sent |
| ChannelCode.Inner.Announce | inputs/tokio_59c0044/src/main.rs:142-150 | Sets VALUE_SENT and returns whether CLOSED was set before |
| ChannelCode.Inner.EnterBack | inputs/tokio_59c0044/src/main.rs:152-156 | The sender reads the cell when it goes in |
| ChannelCode.Inner.LeaveBack | inputs/tokio_59c0044/src/main.rs:152-156 | It returns what it read and leaves the cell empty |
| ChannelCode.Inner.TakeBack | inputs/tokio_59c0044/src/main.rs:79-84 | Under every interference a value that is handed back is the sent one; a panic is possible only without exclusion |
| ChannelCode.Inner.DropSenderUnused | inputs/tokio_59c0044/src/main.rs:89-95 | A sender dropped without sending announces completion with an empty cell |
| ChannelCode.Inner.LoadState | inputs/tokio_59c0044/src/main.rs:100-120 | One load, and the two checks in their order: where the receiver goes is fixed by the two flags |
| ChannelCode.Inner.FirstTry | inputs/tokio_59c0044/src/main.rs:98-122 | For the flags after the moves `at`, which lie between the call and its return: "not complete not closed" if and only if neither flag was up, "closed" if and only if CLOSED was up and, in the shipped order, VALUE_SENT was not, and otherwise the cell is consumed; so a channel closed or complete before the call is never reported as neither. A received value is one that was sent, and with exclusion a failed consume means a dropped sender |
| ChannelCode.Inner.TryRecv | inputs/tokio_59c0044/src/main.rs:98-129 | The same for any call; only the first can return anything but "inner is not referencable", and a later one changes nothing |
| ChannelCode.Inner.Take | inputs/tokio_59c0044/src/main.rs:152-156 | Under every interference the taken value is one that was sent |
| ChannelCode.Inner.ReceiveLoop | inputs/tokio_59c0044/src/main.rs:29-44 | The loop of main ends after one call if that returns a value, and otherwise after exactly two; the first answer is the one for the flags at its load |
| ChannelCode.Inner.DropReceiverUnused | inputs/tokio_59c0044/src/main.rs:132-138 | A receiver dropped without try_recv closes the channel |
| ChannelCode.Inner.CloseCall | inputs/tokio_59c0044/src/main.rs:158-160 | close sets CLOSED and nothing else |
| TracerPass.InsertedAreHelpers | HelloWorld/function.cpp:201-257 | Nothing the pass inserts counts as an instruction of the original |
| TracerPass.EraseInstrument | HelloWorld/function.cpp:58-164 | Erasing what was inserted gives the block back |
| TracerPass.FollowingIsSkipped | HelloWorld/function.cpp:242-255 | What is put after a load is visited by the loop and skipped, whatever debug location it inherits |
| TracerPass.Find | HelloWorld/function.cpp:43 | Where the text occurs first, or the length if it does not occur |
| TracerPass.FileNameIsCrate | HelloWorld/function.cpp:42-43 | What is cut off at ".ll" leaves the name of the crate, also if that ends in a part of ".ll" |
| TracerPass.ContainsIsHas | HelloWorld/function.cpp:47 | The test for an occurrence holds if and only if the text is a part of the name |
| TracerPass.SelectedExact | HelloWorld/function.cpp:42-49 | In a module named after a crate and ".ll" a function is instrumented if and only if its name has the crate's name in it and neither "core" nor "std" |
| TracerPass.Advance | HelloWorld/function.cpp:59-73 | One round of the loop finishes one more original instruction, or skips one that was inserted, and leaves the rest as it was |
| TracerPass.HelloWorld.InsertBefore | HelloWorld/function.cpp:209-221 | New instructions go before the current one, which keeps its place in the iteration |
| TracerPass.HelloWorld.StoreLog | HelloWorld/function.cpp:201-223 | A store with a debug location gets its probe, with the same debug location, right in front; any other is left alone |
| TracerPass.HelloWorld.LoadLog | HelloWorld/function.cpp:225-257 | A load with a debug location gets its probe behind, with the debug location of the next instruction; any other is left alone |
| TracerPass.HelloWorld.InvokeLog | HelloWorld/function.cpp:74-161 | Right in front of each of the six recognised callees stands its probe, under its name: of the second argument for mutex lock and rwlock write, of the first for rwlock read, and for the three unlocks of what the inserted loads read through the first argument; other invokes are left alone |
| TracerPass.HelloWorld.Treat | HelloWorld/function.cpp:60-162 | The three branches of the loop body, by opcode |
| TracerPass.HelloWorld.RunBlock | HelloWorld/function.cpp:59-163 | The loop over the list it inserts into ends, and the block becomes exactly the old block with every instruction expanded once |
| TracerPass.HelloWorld.Initialization | HelloWorld/function.cpp:173-199 | The _init_ call goes in front of everything in the entry block of main |
| TracerPass.HelloWorld.Run | HelloWorld/function.cpp:40-166 | In a module named after a crate and ".ll", exactly a function whose name has the crate's name in it and neither "core" nor "std" has every block instrumented; any other is unchanged; and the first one brings the _init_ call into main |
| TracerPass.HelloWorld.RunBlocks | HelloWorld/function.cpp:58-164 | Every block of the function is instrumented exactly once |
| TracerPass.HelloWorld.RunModule | HelloWorld/function.cpp:53-56 | Over a whole module: every block of every function of the crate is instrumented exactly once, all other blocks stay as they were, and main gets exactly one _init_ call, in front, if anything is instrumented, and none otherwise |
| TracerPass.InitsOfInstrument | HelloWorld/function.cpp:58-164 | Instrumenting a block neither adds nor removes _init_ calls |
| TracerMeaning.OffsetFits | HelloWorld/function.cpp:58-164 | The k-th instruction of a block is found, expanded, at the sum of the lengths of the earlier expansions |
| TracerMeaning.ProbeEffect | HelloWorld/function.cpp:209-221 | A probe with its cast records line, function, operation and the value of its operand, and changes no memory and no original value |
| TracerMeaning.FirstFieldEffect | HelloWorld/function.cpp:97-99 | The guard loads leave the first word behind the argument in a helper value and touch nothing else |
| TracerMeaning.InvokeEffect | HelloWorld/function.cpp:80-160 | What goes before a recognised invoke records the lock: the argument itself, or the first word behind it for the three unlocks |
| TracerMeaning.FollowingEffect | HelloWorld/function.cpp:242-255 | The probe behind a load records the address that was loaded, although the load has already run |
| TracerMeaning.StepSimulated | HelloWorld/function.cpp:58-164 | One step of the original is a known number of steps of the instrumented program, with the same memory, original values and next place |
| TracerMeaning.PassPreservesMeaning | HelloWorld/function.cpp:58-164 | For every control-flow graph and every run length the instrumented program, running alone, has the same memory, values and control flow, and its trace is exactly the sequence of debug-located stores, loads and recognised lock operations executed, each with the address it is about; what it records for each kind is spelled out in `Observe`, apart from the pass, and confirmed by `TracerLocks` |
| TracerMeaning.TraceIsNamed | HelloWorld/function.cpp:201-325 | Whatever an instrumented function hands to the logger carries the name of the function and one of the eight operation names |
| TracerMeaning.ObserveLockArg | HelloWorld/function.cpp:74-160 | What the branches of the pass look at is what the trace promises for each of the six callees |
| TracerRely.RelyProbe | HelloWorld/function.cpp:209-221 | A probe records its operand whatever other threads do to the memory before each of its instructions |
| TracerRely.RelyFirstField | HelloWorld/function.cpp:97-99 | The guard loads leave the first word of a private guard in the helper value, although other threads change the memory in between |
| TracerRely.RelyInvoke | HelloWorld/function.cpp:80-160 | What goes before a recognised invoke records the lock among other threads too |
| TracerRely.RelyStepSimulated | HelloWorld/function.cpp:58-164 | One step of the original is a known number of steps of the instrumented program, when other threads may change the memory before each of them |
| TracerRely.PassPreservesMeaningAmongThreads | HelloWorld/function.cpp:58-164 | The pass preserves meaning among other threads: whatever they do to the memory before any step, as long as they leave alone the guards whose locks are released, the instrumented program is where the original is when the same changes happen between its steps, and its trace is exactly what is promised |
| TracerMeaning.SameEnding | HelloWorld/function.cpp:58-164 | The instrumented program ends if and only if the original does, in the same way |
| TracerLocks.RecordOfStep | HelloWorld/function.cpp:58-164 | While the original executes one instruction the instrumented program adds the record promised for it, and nothing else |
| TracerLocks.RecordIsOfAccess | HelloWorld/function.cpp:201-257 | A store or load with a debug location leaves one record, "store" or "load", and its address is the one the memory changes at, or the value comes from |
| TracerLocks.GuardWordIsLock | HelloWorld/function.cpp:80-160 | If the library puts the lock it acts on into its guard, the argument the pass takes for the lock is that lock |
| TracerLocks.PairedRecords | HelloWorld/function.cpp:80-160 | A lock call and the unlock through its guard are recorded as "lock" and "unlock", or the reader and writer names, with the same address: the lock the call acts on |
| TracerLocks.LockAndUnlockAgree | HelloWorld/function.cpp:58-164 | In the trace of any run, a lock call that returns and a later drop of a guard with the first word it gave have their records, in this order, both with the lock that the call acts on |
| TracerLocks.RecordOfStepAmongThreads | HelloWorld/function.cpp:58-164 | The record of one instruction, among other threads that change the memory at any time |
| TracerLocks.LockAndUnlockAgreeAmongThreads | HelloWorld/function.cpp:58-164 | Lock and unlock records of one critical section name the same lock among other threads too |
| ProbeLog.StepLocks | lib/inttrace.c:25-37 | Threads and locks agree on who holds what, a lock has one writer or readers, and its epoch is odd exactly while there is a writer |
| ProbeLog.StepText | lib/inttrace.c:26-29 | Records are never torn: the log is whole lines, but for the line of the thread that has the mutex of the log |
| ProbeLog.StepOrder | lib/inttrace.c:33-36 | The records of a thread are a prefix of its script, in program order |
| ProbeLog.SortedAppend | lib/inttrace.c:25-30 | A new line keeps the epochs of every lock in order along the log, and a write epoch to one thread |
| ProbeLog.LogIsInterleaving | lib/inttrace.c:25-37 | In every run of any number of threads: whenever nobody is printing, the log is exactly the announced lines, and each thread has its records in program order |
| ProbeLog.WriteSectionsAreIsolated | HelloWorld/function.cpp:305-325 | Between two lines of one write section of a lock, every line that lies in any section of that lock, for reading or writing, belongs to the same section and thread |
| ProbeLog.MutexSectionsAreIsolated | HelloWorld/function.cpp:259-278 | For a mutex, the in-section lines of one section, up to and including its unlock, are never interleaved with in-section lines of another thread |
| ProbeLog.LockRecordsPlaced | HelloWorld/function.cpp:85-110 | The record of an unlock lies inside the section it ends, that of a lock before the section it begins |
| ProbeCode.StepLowersMeasure | lib/inttrace.c:25-37 | Every step of every thread brings the end of the scripts nearer |
| ProbeCode.RunsAreBounded | lib/inttrace.c:25-37 | A run of any number of threads takes at most as many steps as their scripts need |
| ProbeCode.OtherThread | lib/inttrace.c:25-37 | A step of one thread leaves another thread, and its records, alone; while a thread has the mutex of the log, nobody else changes the log |
| ProbeCode.Logger.OtherStep | lib/inttrace.c:25-37 | A step of another thread keeps the invariants and leaves the records of this thread alone |
| ProbeCode.Logger.Others | lib/inttrace.c:25-37 | The same for any steps of any other threads |
| ProbeCode.Logger.AwaitLog | lib/inttrace.c:26 | The wait for the mutex ends although the others may do anything meanwhile and may get the mutex first, because their scripts are finite |
| ProbeCode.Logger.LockLog | lib/inttrace.c:26-27 | Getting the mutex announces exactly the next record of the thread |
| ProbeCode.Logger.PrintLine | lib/inttrace.c:27 | Under every interference the line comes out in one piece: the log grows by exactly the line |
| ProbeCode.Logger.UnlockLog | lib/inttrace.c:29 | The mutex is free again and the thread is past its probe |
| ProbeCode.Logger.Probe | lib/inttrace.c:25-37 | A whole probe under every interference: it returns, and the thread has exactly its next record more in the log; alone, the log grows by exactly one line, and from the five fields of that line the thread, the line number, the function, the 64-bit address and the operation can be read back |
| LogText.HexRoundTrip | lib/inttrace.c:27 | Hexadecimal text can be read back |
| LogText.PointerRoundTrip | lib/inttrace.c:27 | The text of a pointer can be read back |
| LogText.DecimalRoundTrip | lib/inttrace.c:27 | The text of a line number can be read back |
| LogText.AsPointer | lib/inttrace.c:25 | A 64-bit address reaches the logger as it is |
| LogText.AsInt32 | lib/inttrace.c:25 | A 32-bit line number reaches the logger as it is |
| LogText.LineReadsBack | lib/inttrace.c:25-27 | From the line of a record with a 64-bit address, a 32-bit line number and names without commas everything in it can be read back, and who logged it |
| LogText.PointerPlain | lib/inttrace.c:27 | The text of a pointer has no comma and no line ending |
| LogText.PointerInjective | lib/inttrace.c:27 | Two pointers print the same if and only if they are the same, including the null pointer |
| LogText.DecimalPlain | lib/inttrace.c:27 | The text of a line number, negative or not, has no comma and no line ending |
| LogText.SplitField | atom.py:13 | Splitting a text that starts with a comma-free field yields that field first and then the split of the rest |
| LogText.SplitLength | atom.py:13 | Splitting yields one field more than there are commas |
| LogText.SplitRecoversFields | atom.py:13 | Splitting a log line yields the five printed fields if and only if neither the function name nor the operation name has a comma |
| LogText.LinesRoundTrip | atom.py:12 | Reading a log of whole lines gives those lines |
| LogText.LinesExact | atom.py:12 | The lines of any text together are the text, and each but the last ends with its only newline |
| LogText.UniversalEnds | atom.py:9-12 | Text-mode reading makes one newline of each of the three line endings |
| AtomReport.GroupMembers | atom.py:12-18 | A group consists of exactly the records with its address, and is non-empty exactly if its address is a key |
| AtomReport.Report.constructor | atom.py:10 | The empty dictionary is the grouping of no records |
| AtomReport.Report.AddLine | atom.py:12-18 | A line without a fourth field is an IndexError and changes nothing; any other line joins the group of its address, which becomes a key if it was not one |
| AtomReport.Report.AddRecord | atom.py:14-18 | The dictionary holds the groups of the records so far plus the new one, keys in first-seen order |
| AtomReport.Report.ReadAll | atom.py:12-18 | The loop goes through exactly if every line has its address field, and then holds the groups of the whole file |
| AtomReport.Report.SeenByTwo | atom.py:32-36 | The flag is set exactly if some record of the group has another thread than the first |
| AtomReport.Report.PrintSection | atom.py:38-41 | Prints "address: [" key "]", then for every record in order "TID: " with its thread and " OP: " with its operation, then 55 dashes; fails exactly if a record has no operation field |
| AtomReport.Report.PrintKey | atom.py:29-41 | Prints the group of a key exactly if it is shared |
| AtomReport.Report.PrintAll | atom.py:28-41 | Prints the sections of the shared groups in the order of the keys; fails exactly if a shared group has a record of less than five fields |
| AtomReport.Script | atom.py:8-41 | The whole script: it runs through exactly if every line has its address field and every printed record its five fields, and then prints the report |
| AtomReport.ReportHeaders | atom.py:28-38 | The report announces exactly the shared addresses, in the order of the keys |
| AtomReport.AnnouncedExact | atom.py:37-38 | An address is announced in the report if and only if its group is shared |
| AtomReport.SectionPrinted | atom.py:38-41 | The section of a shared address, "address: [...]", one line "TID: ... OP: ..." with thread and operation for every record of the group in order, and dashes, is in the report in one piece |
| TraceReport.GroupIsSubsequence | atom.py:12-18 | A group is the order-preserving subsequence of exactly the records with its address |
| TraceReport.KeysDistinct | atom.py:15-18 | No address is a key twice |
| TraceReport.KeysInOrder | atom.py:15-18 | Keys come in the order in which their addresses are first seen |
| TraceReport.GroupsPartition | atom.py:12-18 | Conservation: the groups together are exactly the records of the log, each as often as it occurs |
| TraceReport.SharedMeansTwoThreads | atom.py:32-36 | A group is shared if and only if two records with its address have different thread fields |
| TraceReport.TextReadsBack | atom.py:12-13 | From the text of the log the script reads exactly the fields of the records, one by one and in order |
| TraceReport.RecordsComplete | atom.py:14-40 | The script never meets an IndexError on records the logger printed |
| TraceReport.ReportedIffProbedByTwo | atom.py:28-37 | The group of an address is there and shared if and only if two entries with different thread ids have it, as a 64-bit pointer |
| TraceReport.TraceToReport | atom.py:8-41 | From the probe calls of any number of concurrent threads to the report: the script reads exactly the announced records, per thread in program order, runs through, announces a 64-bit address if and only if two different threads probed that address, and announces them in first-seen order |
| TraceReport.TraceToRows | atom.py:37-41 | In that report, for an address that two threads probed, there is the line that announces it, then one line for every record with that address, in log order, with the thread that logged it and its operation, then dashes |
| RegistrySafety.TrySendOk | inputs/grin_24i0013/src/main.rs:72-75 | try_send to an open peer never finds it disconnected; it fails exactly when ten values wait, and otherwise the value is accepted |
| RegistrySafety.TenWait | inputs/grin_24i0013/src/main.rs:72-90 | A peer that nobody polls accepts values, in order, until ten are waiting, and refuses every further one as full |
| RegistrySafety.EleventhIsRefused | inputs/grin_24i0013/src/main.rs:90 | An empty peer that nobody polls accepts ten values and refuses the eleventh |
| RegistrySafety.SendCloseOk | inputs/grin_24i0013/src/main.rs:83-86 | Closing an open peer never fails, and makes it a closed one |
| RegistrySafety.PollOk | inputs/grin_24i0013/src/main.rs:102-109 | One poll of a channel keeps the peer consistent: what was received and what waits is what was accepted, in order |
| RegistrySafety.TargetOpen | inputs/grin_24i0013/src/main.rs:42-60 | The peer a broadcast or close is about to send to has been pushed and has not been told to close |
| RegistrySafety.StepSafe | inputs/grin_24i0013/src/main.rs:25-113 | Every step keeps who owns which lock, that listed and drained peers are distinct and open, and the state of all channels |
| RegistrySafety.RunSafe | inputs/grin_24i0013/src/main.rs:25-113 | So does every run |
| RegistryProgress.WriterMoves | inputs/grin_24i0013/src/main.rs:36-39 | If a read of a peer has to wait, the add_peer that holds or awaits its lock can take a step |
| RegistryProgress.DeadlockFree | inputs/grin_24i0013/src/main.rs:25-60 | No deadlock for any number of calls, in every reachable state, panics included, and whether or not waiting writers keep readers out: while a call is unfinished some call can take a step |
| RegistryProgress.StepLowersMeasure | inputs/grin_24i0013/src/main.rs:25-60 | Every step of a call brings some call closer to its end; polling does not undo that |
| RegistryProgress.CallStepsAreBounded | inputs/grin_24i0013/src/main.rs:25-60 | n calls take at most n(3n + 7) steps together in any run |
| RegistryProgress.EveryCallCanFinish | inputs/grin_24i0013/src/main.rs:25-60 | From every reachable state all calls can be brought to an end |
| RegistryLife.PeerLifetime | inputs/grin_24i0013/src/main.rs:72-113 | In every run, for every peer: received values are a prefix of the accepted ones, at most ten wait, it is told to close at most once, at most one value is received after that, its thread ends only then, and no send ever finds the other end gone |
| RegistryLife.GoneForGood | inputs/grin_24i0013/src/main.rs:52-59 | Once drained a peer is never listed again, and no broadcast reaches it |
| RegistryLife.ClosedStays | inputs/grin_24i0013/src/main.rs:83-86 | A peer that has been told to close stays so, and is not told again |
| RegistryLife.CloseReachesAll | inputs/grin_24i0013/src/main.rs:52-60 | When close_peers returns, every peer listed when it got the registry has been told to close exactly once, whatever happened in between |
| RegistryLife.BroadcastReachesAll | inputs/grin_24i0013/src/main.rs:42-50 | When a broadcast is through its loop, the list is what it was, every listed peer has accepted the value exactly once and nothing else, except for peers whose queue was full when the broadcast got the registry, and an error was printed exactly if some peer was left out |
| RegistryPanic.CanPanicIff | inputs/grin_24i0013/src/main.rs:25-60 | Calls that run concurrently, each in a thread of its own, can come to panic if and only if there is at least one add_peer and at least one broadcast or close_peers among them |
| RegistryPanic.PanicRun | inputs/grin_24i0013/src/main.rs:115-127 | The schedule of main for any number of calls: a broadcast or close that comes during the sleep of an add_peer unwraps None, and poisons the registry |
| RegistryPanic.AcquireCanPanicIff | inputs/grin_24i0013/src/main.rs:42-60 | Exactly when a broadcast or close that is about to get the registry can come to panic: some listed peer is not started and its add_peer neither holds its lock nor keeps readers out by waiting for it |
| RegistryPanic.RunCovered | inputs/grin_24i0013/src/main.rs:42-60 | Otherwise it finds every peer started in every continuation |
| RegistryPanic.PoisonedForGood | inputs/grin_24i0013/src/main.rs:30-53 | After a panic a call that has not got the registry yet never gets it: it panics too |
| RegistryPanic.AbandonedForever | inputs/grin_24i0013/src/main.rs:54-58 | A drained peer that no close is going to reach is never closed, and its polling thread never ends |
| RegistryPanic.MainPanics | inputs/grin_24i0013/src/main.rs:115-127 | This happens in main: the close panics during the sleep, the registry stays poisoned, and the peer is abandoned |
| RegistryCode.Peers.constructor | inputs/grin_24i0013/src/main.rs:19-23 | An empty registry satisfies the invariant |
| RegistryCode.Peers.OtherStep | inputs/grin_24i0013/src/main.rs:25-113 | A step of another call or of a polling thread keeps the invariant and what this call has done so far |
| RegistryCode.Peers.Wait | inputs/grin_24i0013/src/main.rs:30 | The wait for a lock always ends, whatever the others do meanwhile, even if they get the lock first: some other call can always take a step, and they run out of steps |
| RegistryCode.Peers.ListPeer | inputs/grin_24i0013/src/main.rs:29-34 | Alone, the critical section of add_peer appends exactly the new peer |
| RegistryCode.Peers.StartLater | inputs/grin_24i0013/src/main.rs:36-39 | The peer has been started when add_peer returns |
| RegistryCode.Peers.AddPeer | inputs/grin_24i0013/src/main.rs:25-40 | Always returns; unless the registry is poisoned the peer has been started; alone, the list grows by exactly the new peer and no other peer changes |
| RegistryCode.Peers.Unwind | inputs/grin_24i0013/src/main.rs:73 | Unwrapping None releases the peer and the registry and poisons the registry |
| RegistryCode.Peers.SendTo | inputs/grin_24i0013/src/main.rs:72-75 | One send: a panic if the peer is not started, and otherwise what try_send does to the peer |
| RegistryCode.Peers.SendOne | inputs/grin_24i0013/src/main.rs:44-49 | One round of the loop of a broadcast: unless it panics, one more listed peer has the value, or was refused it because its queue was full |
| RegistryCode.Peers.Broadcast | inputs/grin_24i0013/src/main.rs:42-50 | Always returns; unless it panics, all peers listed when it got the registry have accepted the value exactly once, except for peers whose queue was full then |
| RegistryCode.Peers.LockAndDrain | inputs/grin_24i0013/src/main.rs:53-54 | Gets the registry and empties the list, or panics because it is poisoned |
| RegistryCode.Peers.CloseNextPeer | inputs/grin_24i0013/src/main.rs:54-59 | One round of the loop of a close: every drained peer is told to close or still to do |
| RegistryCode.Peers.ClosePeers | inputs/grin_24i0013/src/main.rs:52-60 | Always returns; unless it panics, every peer listed when it got the registry has been told to close exactly once |
| RegistryCode.Peers.TryRecv | inputs/grin_24i0013/src/main.rs:102 | Takes the oldest waiting value, if there is one |
| RegistryCode.Peers.TryClose | inputs/grin_24i0013/src/main.rs:106 | Finds a message exactly if the peer has been told to close, and then ends the thread |
| RegistryCode.Peers.PollLoop | inputs/grin_24i0013/src/main.rs:100-110 | Undisturbed rounds take the first waiting values in order; a thread told to close takes at most one more and ends in its next round |

## Left out

- Weak memory orderings: every atomic access is sequentially consistent, and `compare_and_swap` is a strong one.
- Sleeps, except that any number of other steps fit into them; `println!`, except for what collectors, `print_concbag` and the script print and that an error was printed.
- The allocator, beyond returning an address that is not live; failure to allocate or to spawn a thread.
- Concurrent use of `print_concbag`: it is modelled with nobody else running, as `main` calls it.
- BagCode.ConcBag.Collect: for the shipped form its load must be polite.
- BagCode.ConcBag.OtherStep: for the shipped form impolite loads of other collectors are excluded, because after one the bag can fault; `BagShipped.ImpoliteLoadCanFault` and `BagShipped.CanFaultIff` are about those.
- BagShipped.ShippedCollectorExact: the window contains inserts and collectors that are already walking; what a collector prints with others loading and storing in the window is `BagSnapshot.CollectorPrintsSnapshot`.
- ChannelCode.Inner.TryRecv: the reference to the shared part that `try_recv` gives up is represented by the receiver having finished.
- `lib.rs` of the channel, and the inside of `Arc`, `RwLock` and `mpsc`: modelled as a cell, a reader/writer lock with poisoning and fairness as a parameter, and a FIFO queue.
- Instruction kinds beyond store, load, invoke, call, branch, return, casts, first-field address and two-operand arithmetic; phi nodes; the types of values beyond whether the builder makes a cast.
- Recognising the six callees by substrings of their mangled names: which operation a callee is, is given.
- TracerPass.HelloWorld.Initialization: declaring `_init_`, `_probe_` and `_probe_lock_` in the module, the global strings, and the messages on the error stream are not modelled.
- An invoke of a recognised callee with too few arguments, or of a function that is not known by name: the pass of the source would not survive it, the model leaves it alone.
- TracerMeaning.PassPreservesMeaning: the program runs alone; `TracerRely.PassPreservesMeaningAmongThreads` is the version among other threads. In both, memory is total, so the loads inserted for an unlock cannot trap; the original program must use its own values only and be in static single assignment form as far as a load not overwriting its own address.
- TracerLocks.LockAndUnlockAgree: what the locks of the standard library do to a slot and a guard is taken from `Library`: a guard's first word is its lock, somewhere in the slot, or returned for rwlock read; between the two calls the program may move the guard as it likes.
- TraceReport.TraceToRows: addresses are 64-bit pointers, as the parameter type of the probes makes them; for other numbers `TraceReport.TraceToReport` speaks of what is printed for them.
- `_init_` opening and `_final_` closing the log file, buffering, and a probe before the file is open.
- ProbeLog.LogIsInterleaving: scripts that take a lock they hold or release one they do not hold are excluded, as they are by the guards of the source language.
- What is printed before an IndexError ends the script.
- How rustc mangles function names: `TraceReport.TraceToReport` takes it that they have no comma and no line ending.
- RegistryPanic.CanPanicIff: every call runs in a thread of its own; a thread that makes an add_peer and then a close_peers one after the other, with no other thread about, does not panic.
- RegistryCode.Peers.PollLoop: rounds during which nobody else moves; interleaved polling is in the machine, where `RegistryLife.PeerLifetime` covers it.
- A panicking call of the registry unwinds in one step.
- `HelloWorld/HelloWorld.cpp` (it returns at line 35 before doing anything), the plugin registration, `include/*.h`, `lib/inttrace.rs`, the scripts and recorded logs.
- The duplicates `inputs/*.rs` of the modelled programs, and the samples with a fixed handful of steps (`inputs/grin_24c0017*`, the mutex, rwlock, atomic, condvar and C samples), whose few interleavings show nothing that the programs above do not.
