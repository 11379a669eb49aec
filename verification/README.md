# Verified model of the stream recorder

The recorder starts one ffmpeg process per stream, keeps a row for each in a database collection, and
restarts recorders that die. This project models that supervisor, and the list, tree, allocator, thread,
argument and directory code beside it, in Dafny, and proves what they guarantee.

| file | models |
|---|---|
| `Recorder.dfy` | the supervisor as a step machine: state, events, runs |
| `RecorderSafety.dfy` | the invariants every step keeps, failures included |
| `RecorderRuns.dfy` | guarantees over every run, failures included |
| `RecorderRecovery.dfy` | supervision, at most one recorder per stream, recovery, and exactly which failures break them |
| `RecorderRaces.dfy` | runs that break them, and what happens when atomic units are pulled apart |
| `ProcessManager.dfy` | the `ProcessManager` methods as imperative code, proved to be runs of the step machine |
| `DList.dfy` | the intrusive doubly linked list |
| `RbTree.dfy` | the red-black tree |
| `BuddyBlocks.dfy` | the buddy allocator as a step machine over its critical sections |
| `BuddyMem.dfy` | `CBuddymem` as imperative code, proved to be runs of that machine |
| `CpuPlacement.dfy` | placing threads on the least loaded CPU |
| `Arguments.dfy` | the command-line scanner |
| `MakeDirs.dfy` | the directory-chain maker with its in-place path buffer |
| `Options.dfy` | the option type the others share |

## The supervisor

Five actors share one `World`: the HTTP thread (put, stop), the queue consumer, the SIGCHLD handler, the
monitor thread, and the environment (processes exit, init reaps, the supervisor is restarted with a new pid,
an empty queue and its children inherited by init). An `Event` is one atomic action together with every choice
the environment makes in it: which matching document a query returns, whether a fork or a write succeeds,
which pid comes back. A run is any interleaving of events. `World.hist` records what happened and is never
read by a step.

Atomic units: `waitpid` and the notification it leads to are separate; a stop's removal and its SIGINT are
separate; the consumer's front, existence check, file creation, launch and pop are separate; the orphan query
and each item of its result are separate. Four units are taken as one step although the code takes no lock
around them. `RecorderRaces` pulls each of them apart, with any run of the others in between:

- a reload's lookup by pid, and its fork and update: the invariants on table, pids, stops, queue and
  operations are kept and so is supervision (`LateReloadKeeps`); exactly when tracking, jobs, single replacement
  and stopped streams are kept is `LateReloadTracks`, `LateReloadKeepsJobs`, `LateReloadReplacesOnce` and
  `LateReloadHeedsStops`, each with a run that breaks it;
- a spawn's fork, and its insert: the invariants are kept (`LateInsertKeeps`); exactly when supervision is
  kept is `LateInsertSupervised`, with a run that breaks it;
- a stop's lookup, and its removal: exactly when the invariant on stops and the account of recorders are kept is
  `LateStopKeeps` and `LateStopAccounts`, with a run that breaks it; the other invariants are kept;
- an inspection's `kill(pid, 0)`, and its reload: nothing can come in between that matters (`GoneStaysGone`).

Assumed: pids are not reused; one supervisor runs at a time; lookups, and parsing the rows this program wrote,
succeed; `execl` succeeds; each queue call is atomic. Insert, update and remove may fail, and so may fork and
the creation of the playlist file. An update changes one row and never inserts; a removal deletes one row
(src/app/mongo_adaptor.cpp:85, 156).

Results that differ from what one might expect of the code:

- A failed fork or update while reloading this supervisor's own row leaves that row unsupervised
  (`StepSupervision`: nothing else does), and nothing looks at it again until the next restart
  (`AbandonedUntilRestart`). With all threads going on, recovery is complete when there is no such row and no row
  of the next kind, and only then unless a stop or init comes in between (`RecoveryIsComplete`); `PassFate` says
  for each row exactly what a pass does for it, stops and init included.
- An exited recorder that init has not reaped yet counts as existing for `kill(pid, 0)`, so an orphan pass skips
  it (`StrayBlocksRecovery`).
- A stop whose removal fails still signals the recorder, whose exit then restarts it (`FailedRemovalRestarts`).
- A supervisor that dies between a stop's removal and its SIGINT leaves the recorder, if it is still running,
  with no row and no SIGINT (`StepClaims`: nothing else does); a later start gives the stream a second one
  (`LostSignalLeavesTwo`).
- A stop between a reload's lookup and its fork does not last: the stream records again, without a row
  (`LateReloadRevivesStream`).
- `Alloc` gives out blocks at least twice as large as needed (`OrderExactly`), and its size arithmetic wraps
  around: a request of 2^30 bytes gets 64 (`RoomExactly`, `WrappedRequest`).
- `low == 0` makes `thread_info_init` start its CPU range at -1 (`RangeInBounds`).

## The red-black tree

Nodes are values and the parent links are a `Place`, the way from a subtree's parent up to the root. Both
fix-ups are loops that climb it, case by case as in the code; the sentinel is the empty tree.

## The buddy allocator

A block is known by its order and its number, the unit index shifted right by the order. `Alloc` and `Free` are
made of critical sections, each under the lock of one order; these are the events, so a run is any interleaving
of any number of calls. Blocks in no list are held, by a caller or by the call working on them. Free lists are
sequences, bitmaps sequences of bits, block headers a map from first unit to order.

The comments of `src/datas/pure_rbtree.cpp` and `src/mem_pool/pure_buddy_mem.cpp` are not UTF-8 text; their lines
are counted by newlines.

## Model

| member | source | states |
|---|---|---|
| RecorderRuns.StreamRows | src/app/process_manager.cpp:394-448 | in every reachable state a stream has at most one row, although check and insert are separate steps, and it has one iff its last successful insert or removal was an insert |
| RecorderRuns.QueueConservation | src/app/process_manager.cpp:252-259 | requests put are those popped followed by those queued; handled requests are a prefix of those put; a pop removes exactly the request just handled |
| RecorderRuns.QueueOverRun | src/app/process_manager.cpp:252-259 | along any run without a restart the queue is what it was followed by the requests of the run's put events, without as many from the front as there are pop events |
| RecorderRuns.RestartStartsAfresh | src/app/process_manager.cpp:37-52 | after a restart nothing is queued, in hand or pending; the table and the processes are as they were, children inherited by init |
| RecorderRuns.SignalsOverRun | src/app/process_manager.cpp:450-471 | the processes that got a SIGINT are exactly those the run's signal events name |
| RecorderRuns.StoppedStaysStopped | src/app/process_manager.cpp:450-471 | once a stop removed a pid's row, no row of any later state carries the pid and no later fork replaces it |
| RecorderRuns.StoppedStreamStaysStopped | src/app/process_manager.cpp:450-471 | a stream without a row gets none, and no replacement is launched for it, along any run without a successful insert for it |
| RecorderRuns.StopRetiresPid | src/app/process_manager.cpp:452-468 | the pid about to be signalled leaves the table, and the stream's row with it, iff the removal succeeds |
| RecorderRuns.RelaunchKeepsJob | src/app/process_manager.cpp:210-250 | every recorder ever launched has the stream, URL and playlist of the spawn it goes back to through all replacements, and so has the row naming it |
| RecorderRuns.RowKeepsOrigin | src/app/process_manager.cpp:174-208 | along any run, restarts included, a surviving row changes in nothing but its pid and goes back to the same spawn |
| RecorderSafety.ReachableIsSafe | src/app/process_manager.cpp:325-471 | all invariants (unique streams and pids, stops, queue, operations, launches) hold in every reachable state |
| RecorderSafety.StepKeepsSafe | src/app/process_manager.cpp:16-598 | each single event of any actor keeps all the invariants |
| RecorderRecovery.NoRowUnsupervised | src/app/process_manager.cpp:503-542 | in every state of a run, whatever fails and restarts, every row is matched by the orphan query, or names an unreaped child of this supervisor, or names one just reaped whose notification is pending, iff the run leaves no reload of an own row unfinished |
| RecorderRecovery.StepSupervision | src/app/process_manager.cpp:54-85 | a step takes a row out of supervision iff it is an unfinished reload of a reaped pid's row that has this supervisor's ppid |
| RecorderRecovery.AbandonedUntilRestart | src/app/process_manager.cpp:210-230 | an unsupervised row keeps its value, its dead pid and its lack of supervision until a restart or its own removal |
| RecorderRecovery.StepTracking | src/app/process_manager.cpp:210-230 | a step leaves a running recorder without a row iff it forks and fails to record the fork |
| RecorderRecovery.ReplacedAtMostOnce | src/app/process_manager.cpp:291-323 | with reaps, stops, spawns and stale snapshots interleaved, no dead pid is replaced twice as long as the updates of reloads succeed |
| RecorderRecovery.AtMostOneRecorder | src/app/process_manager.cpp:301-314 | of two running recorders of one stream, a stop has claimed one, and its SIGINT is sent, pending, or died with a supervisor |
| RecorderRecovery.StepClaims | src/app/process_manager.cpp:466-468 | a step leaves a stopped recorder running with no SIGINT sent or pending iff it is a restart while a stop of it stands between removal and kill |
| RecorderRecovery.AccountedExactly | src/app/process_manager.cpp:450-471 | every running recorder has a row or a SIGINT sent or pending iff no such stop was forgotten |
| RecorderRecovery.AtMostOneUnsignalled | src/app/process_manager.cpp:461-468 | in every state in which forks got recorded and no stopped recorder runs on forgotten, a stream has at most one running recorder without a SIGINT sent or pending |
| RecorderRecovery.HeededIsClaimed | src/app/process_manager.cpp:466-468 | no stopped recorder runs on forgotten after a run in which no restart forgets a stop |
| RecorderRecovery.PassFate | src/app/process_manager.cpp:291-323 | with all threads, stops and init going on, one orphan pass from a drained state leaves a row naming a running recorder iff the row was inserted meanwhile, or it had not been abandoned and the pass did not come to its pid before init had reaped it |
| RecorderRecovery.PassRecovers | src/app/process_manager.cpp:291-323 | so all rows name running recorders if none was abandoned and none named an exited process init had yet to reap, and only if so when no stop and no reaping by init comes in between |
| RecorderRecovery.RecoveryIsComplete | src/app/process_manager.cpp:16-33 | the same from every reachable state, earlier failures and restarts included, after a drain of the reap loop during which requests are put, handled, stopped and signalled as well |
| RecorderRecovery.StrayIsInits | src/app/process_manager.cpp:277-289 | whatever stands in the way of recovery is an orphan init can reap |
| RecorderRaces.LostSignalLeavesTwo | src/app/process_manager.cpp:466-468 | for every request, a run ending with two running recorders of its stream and no SIGINT sent or pending |
| RecorderRaces.FailedForkAbandonsRow | src/app/process_manager.cpp:217-222 | for every request, a run ending with an unsupervised row |
| RecorderRaces.StrayBlocksRecovery | src/app/process_manager.cpp:277-289 | for every request, a run without failures to a drained state in which a row names an exited process init has not reaped |
| RecorderRaces.FailedRemovalRestarts | src/app/process_manager.cpp:682-687 | for every request, a run in which a stop's removal fails and the signalled recorder is replaced |
| RecorderRaces.LateReloadTracks | src/app/process_manager.cpp:544-571 | with other steps between lookup and fork, a reload leaves every recorder tracked iff the stream still has a row and the recorder it names by then is not running |
| RecorderRaces.RunRemembers | src/app/process_manager.cpp:544-571 | whatever comes between lookup and fork, the row looked up names a recorder launched with its job and gone, and the invariants hold |
| RecorderRaces.LateReloadKeeps | src/app/process_manager.cpp:183-230 | done late, a reload keeps the invariants on table, pids, stops, queue and operations, and supervision |
| RecorderRaces.LateReloadKeepsJobs | src/app/process_manager.cpp:183-230 | done late, it leaves every row naming a recorder of the row's own job iff the row it updates still has the job looked up |
| RecorderRaces.LateReloadReplacesOnce | src/app/process_manager.cpp:210-230 | done late, it keeps every pid replaced at most once iff nothing has replaced this one by then |
| RecorderRaces.LateReloadHeedsStops | src/app/process_manager.cpp:210-230 | over any run between lookup and fork, it replaces no stopped recorder iff no stop took the row away, and relaunches no stream without a row iff the stream's last operation by then is an insert |
| RecorderRaces.LateReloadRevivesStream | src/app/process_manager.cpp:450-471 | for every request, a run in which a stop comes in between and the stopped stream records again with no row |
| RecorderRaces.LateReloadReplacesTwice | src/app/process_manager.cpp:291-323 | for every request, a run in which the monitor comes in between and one recorder is replaced twice |
| RecorderRaces.LateReloadLosesRecorder | src/app/process_manager.cpp:183-197 | for every request, a run in which a stop and a start come in between, the new recorder loses its row, and the row names one of the old playlist |
| RecorderRaces.LateReloadIsReload | src/app/process_manager.cpp:210-230 | with nothing in between, the split reload is the atomic one |
| RecorderRaces.LateInsertSupervised | src/app/process_manager.cpp:410-428 | over any run between fork and insert without a restart, the insert leaves all rows supervised iff they were and the run does not handle the child's notification |
| RecorderRaces.LateInsertAbandons | src/app/process_manager.cpp:418-428 | for every request, such a run that leaves the new row unsupervised |
| RecorderRaces.LateInsertIsSpawn | src/app/process_manager.cpp:410-428 | with nothing in between, the split spawn is the atomic one |
| RecorderRaces.LateInsertKeeps | src/app/process_manager.cpp:410-428 | over any run of the other threads between fork and insert without a restart, the insert keeps all the invariants |
| RecorderRaces.LateStopAccounts | src/app/process_manager.cpp:452-468 | with other steps between lookup and removal, a stop leaves every recorder accounted for iff the row it removes names the pid it looked up, or one not running, or one with its own SIGINT |
| RecorderRaces.LateStopKeeps | src/app/process_manager.cpp:452-468 | done late, a stop keeps the other invariants, and leaves every stopped pid with its SIGINT sent, pending or lost iff the row it removes names the pid looked up or one that has its own |
| RecorderRaces.LateStopIsStop | src/app/process_manager.cpp:452-468 | with nothing in between, the split stop is the atomic one |
| RecorderRaces.LateStopLosesRecorder | src/app/process_manager.cpp:452-468 | for every request, a run in which a reload comes in between and the successor is left with no row and no SIGINT |
| RecorderRaces.GoneStaysGone | src/app/process_manager.cpp:304-310 | a process the existence test did not find is found by no later one |
| ProcessManagers.ProcessManager.PutData | src/app/process_manager.cpp:252-259 | appends the request to the queue, by exactly the put event |
| ProcessManagers.ProcessManager.SpawnProcess | src/app/process_manager.cpp:389-448 | performs a run of check, create and spawn events only; the error code for each case; one recorder started iff it is Ok; one row added iff everything went well and the stream had none |
| ProcessManagers.ProcessManager.ProcessQueue | src/app/process_manager.cpp:325-353 | empties the queue by consumer events only, every request handled and popped in order; old rows stay, and a stream has a row afterwards iff it had one or a request for it went well |
| ProcessManagers.ProcessManager.KillProcess | src/app/process_manager.cpp:450-471 | performs exactly the removal of the stream's row, then the signal to its pid, none left pending for it; error code |
| ProcessManagers.ProcessManager.ProcessReload | src/app/process_manager.cpp:210-250 | performs exactly the reload unit: nothing for a pid without a row, else what the fork and the write turn out to be |
| ProcessManagers.ProcessManager.SendMessage | src/app/process_manager.cpp:54-85 | performs exactly the notification event for the pid, its reload as fork and write turn out |
| ProcessManagers.ProcessManager.SigReapChld | src/app/process_manager.cpp:16-33 | terminates with every exited child reaped and every notification handled; reaps and notifications alternate, each notification for the pid just reaped |
| ProcessManagers.ProcessManager.FindOrphanProcess | src/app/process_manager.cpp:503-542 | lists exactly the rows with another ppid, each once |
| ProcessManagers.ProcessManager.OrphanProcessSync | src/app/process_manager.cpp:291-323 | performs a snapshot and one inspection for each of its rows, its reload as fork and write turn out |
| ProcessManagers.ProcessManager.Recover | src/app/process_manager.cpp:261-323 | handler then orphan pass, from any reachable state: every row names a running recorder iff none was abandoned and none named an exited process init had yet to reap |
| DLists.DList.ValidateLinks | src/datas/t_dlist.h:59-123 | the checks hold at both ends and every node; the forward walk is the list, the backward walk reads it from its end |
| DLists.DList.AddNodeToTail | src/datas/t_dlist.h:128-153 | appends and keeps the link invariant |
| DLists.DList.AddNode | src/datas/t_dlist.h:155-181 | prepends and keeps the link invariant |
| DLists.DList.RemoveNode | src/datas/t_dlist.h:183-215 | deletes exactly this node, clears its links and keeps the link invariant |
| DLists.DList.ForEach | src/datas/t_dlist.h:237-252 | visits each initial node once in order, whatever nodes the callback unlinks or deletes as it is given them; what remains is what it kept, in order, and exactly what it deleted is deleted |
| DLists.KeptExactly | src/datas/t_dlist.h:237-252 | what remains after the walk is exactly the nodes kept |
| DLists.DList.ForEachUntil | src/datas/t_dlist.h:217-235 | returns the node of the first stopping call, or null; only nodes up to it can have been unlinked or deleted |
| DLists.DList.ClearList | src/datas/t_dlist.h:255-289 | empties the list through the walk, every original node unlinked and deleted exactly once; links are read only where `Next` and `Prev` allow it, out of nodes not deleted |
| DLists.DList.GetNthNode | src/datas/t_dlist.h:261-279 | the node at the index, or null past the end, by counting a 32-bit index down to zero; negative indices wrap |
| DLists.MoveAt | src/datas/t_dlist.h:128-215 | takes the node at the index out of one list and puts it at the end asked for of the other, or does nothing past the end |
| DLists.Exchange | src/datas/t_dlist.h:128-215 | any number of moves between two lists gives both lists as the moves say, valid and disjoint, their nodes and total count the same |
| RbTrees.InsertFixup | src/datas/pure_rbtree.cpp:156-210 | from a red node that fits but for a red parent: a red-black tree with a black root and the same entries in the same order |
| RbTrees.DeleteFixup | src/datas/pure_rbtree.cpp:303-373 | from a place whose paths lack one black node: a red-black tree with a black root and the same entries in the same order |
| RbTrees.FixupStep | src/datas/pure_rbtree.cpp:318-337 | one turn at a black sibling settles the lack or passes it to the parent |
| RbTrees.Remove | src/datas/pure_rbtree.cpp:240-283 | takes exactly the node's entry out and keeps red-black shape, successor case included |
| RbTrees.Minimum | src/datas/pure_rbtree.cpp:230-238 | the leftmost node, in its place |
| RbTrees.HeightBound | src/datas/pure_rbtree.cpp:156-210 | the height is at most twice the black height plus one under a red root, and two to the black height at most the number of entries plus one |
| RbTrees.RbTree.Search | src/datas/pure_rbtree.cpp:440-455 | the highest node with the key, in its place in this tree, or the place where all smaller keys are before and all greater after |
| RbTrees.RbTree.SearchKey | src/datas/pure_rbtree.cpp:463-474 | data of the highest entry with the key iff there is one |
| RbTrees.RbTree.InsertKeyData | src/datas/pure_rbtree.cpp:99-153 | the entry goes after all with keys not greater; order, colours and black heights are kept |
| RbTrees.RbTree.DeleteKey | src/datas/pure_rbtree.cpp:285-301 | exactly the highest entry with the key goes and its data is handed out, or there is none and nothing changes; order, colours and black heights are kept |
| RbTrees.RbTree.MinimumKey | src/datas/pure_rbtree.cpp:476-485 | the first entry, or 0 and nothing for an empty tree |
| BuddyBlocks.StepKeepsInv | src/mem_pool/pure_buddy_mem.cpp:145-200 | each critical section of `Alloc` and `Free` keeps every unit in exactly one block, lists without duplicates, each pair's bit true iff exactly one of the two is free, and no two buddies free unmerged |
| BuddyBlocks.RunKeepsInv | src/mem_pool/pure_buddy_mem.cpp:225-249 | and so does any interleaving of any number of calls |
| BuddyBlocks.EachUnitOnce | src/mem_pool/pure_buddy_mem.cpp:145-249 | after any interleaving, each unit lies in exactly one free or held block |
| BuddyBlocks.MergeFindsBuddy | src/mem_pool/pure_buddy_mem.cpp:234-241 | when the changed bit says so, the buddy is in its list |
| BuddyBlocks.BitmapSuffices | src/mem_pool/pure_buddy_mem.cpp:336-343 | every bit position used lies in the bitmap |
| BuddyBlocks.FreeExactly | src/mem_pool/pure_buddy_mem.cpp:225-249 | an aligned stretch, up to the largest block size, lies in one free block iff nobody holds any of it |
| BuddyBlocks.FreeDetermined | src/mem_pool/pure_buddy_mem.cpp:145-249 | which blocks are free depends only on which are held |
| BuddyBlocks.AllComesBack | src/mem_pool/pure_buddy_mem.cpp:214-252 | when what was handed out has come back, in any order and interleaving, the same blocks are free as before |
| BuddyBlocks.TakeUndoesPut | src/mem_pool/pure_buddy_mem.cpp:96-108 | a block put into its list is the next taken from it, and taking it restores lists, bitmaps and what is held |
| BuddyBlocks.MergeUndoesSplit | src/mem_pool/pure_buddy_mem.cpp:180-200 | the halves of a block just split can only be merged, which restores lists, bitmaps and what is held |
| BuddyBlocks.FreeUndoesAlloc | src/mem_pool/pure_buddy_mem.cpp:111-252 | freeing the block just allocated restores the lists in their order, the bitmaps and what is held |
| BuddyMems.OrderExactly | src/mem_pool/pure_buddy_mem.cpp:114-130 | the order is the least whose blocks hold twice the length with header taken modulo 2^30, or too large when that is 0 |
| BuddyMems.RoomExactly | src/mem_pool/pure_buddy_mem.cpp:114-130 | a block given out has room for the request iff request and header are below 2^30 bytes |
| BuddyMems.WrappedRequest | src/mem_pool/pure_buddy_mem.cpp:114-130 | a request of 2^30 bytes is given the smallest block |
| BuddyMems.BuddyMem.InitFree | src/mem_pool/pure_buddy_mem.cpp:39-94 | cuts all the memory behind the areas into blocks, none held, the invariant established, later blocks first in each list, or fails iff the areas do not fit; an area is its header and a bit for each pair of units, in whole cache lines with none to spare |
| BuddyMems.BuddyMem.Alloc | src/mem_pool/pure_buddy_mem.cpp:111-212 | performs a run of the machine; hands out exactly one block of the order, with no unit in common with any held one, cut from the front of the first block of the list of smallest sufficient blocks; or fails and changes nothing, the order being too large or every block of the order having a held part |
| BuddyMems.BuddyMem.Free | src/mem_pool/pure_buddy_mem.cpp:214-252 | performs merges with one buddy after another and then one put, after which exactly this block is no longer held |
| BuddyMems.AllocThenFree | src/mem_pool/pure_buddy_mem.cpp:111-252 | after `Alloc` and then `Free` of its block, lists, bitmaps and what is held are as before |
| BuddyMems.BuddyMem.DelBlock | src/mem_pool/pure_buddy_mem.cpp:254-287 | walks to the block and takes it out of the list, or reports it missing |
| CpuPlacement.RangeInBounds | src/thread/ppthread.cpp:15-31 | the CPU range is never empty and lies inside the counters iff `low` is not 0 |
| CpuPlacement.RangeAsAsked | src/thread/ppthread.cpp:15-31 | for `low` not 0, the range is the CPUs from the `low`-th on, if there is one, up to number `high`, if there is one and it is not before the start |
| CpuPlacement.LeastIsNextInTurn | src/thread/ppthread.cpp:53-74 | the first least loaded CPU after k round-robin binds is number k mod w of the range |
| CpuPlacement.NextInTurn | src/thread/ppthread.cpp:57-74 | one more bind there gives the round-robin loads of k + 1 |
| CpuPlacement.LoadsBalanced | src/thread/ppthread.cpp:57-74 | loads in the range differ by at most 1, are 0 outside it and sum to the number of binds |
| CpuPlacement.ThreadInfo.constructor | src/thread/ppthread.cpp:7-38 | zeroed counters for all CPUs and a range usable iff `low` is not 0, which then is the CPUs asked for |
| CpuPlacement.ThreadInfo.LeastLoaded | src/thread/ppthread.cpp:53-65 | the scan finds the first least loaded CPU for any counter values |
| CpuPlacement.ThreadInfo.SpawnThread | src/thread/ppthread.cpp:40-80 | with binding enabled the thread goes to `low_th + binds mod w` and only a successful bind counts; otherwise nothing changes |
| CpuPlacement.ThreadInfo.SpawnAll | src/thread/ppthread.cpp:40-80 | over any sequence of successes and failures, each call's CPU, and balanced complete counters |
| Arguments.GetArgument | src/usage.cpp:15-122 | the loop computes the scan, verdict and settings both |
| Arguments.OptionAlone | src/usage.cpp:30-118 | what each option without argument sets, the default file included, and which are rejected |
| Arguments.OptionWithArgument | src/usage.cpp:42-112 | what `-t`, `-c` and `-s` set with an argument: the file, or 1 for stop and 2 for reload by its first letter |
| Arguments.ScanConcat | src/usage.cpp:19-121 | an accepted list followed by one it does not reach into scans as the two in turn |
| Arguments.ScanHanging | src/usage.cpp:42-80 | if it does reach into it, the next token becomes the file name and the scan goes on after it |
| Arguments.ComposesExactly | src/usage.cpp:19-121 | an accepted list composes with every continuation iff it does not end in an open `-t` or `-c` |
| Arguments.ScanAllTokens | src/usage.cpp:30-118 | any sequence of options written out is accepted and takes effect in order |
| Arguments.ScanForms | src/usage.cpp:30-118 | whatever splits into option forms is accepted and the forms take effect in order |
| Arguments.AcceptedExactly | src/usage.cpp:15-122 | a token list is accepted iff it splits into option forms, only the second character of an option counting |
| Arguments.RejectedAfter | src/usage.cpp:19-121 | a rejected list leaves the settings of all options before the offending one, plus the flag of an offending `-s` |
| MakeDirs.MultiMkdir | src/app/process_manager.cpp:98-121 | the directory and all above it exist afterwards and nothing else is new; prefixes are tried in order of length |
| MakeDirs.TryPrefix | src/app/process_manager.cpp:106-114 | one iteration tries exactly the path before the slash and restores the buffer |
| MakeDirs.NamesOfPath | src/app/process_manager.cpp:98-121 | a path written from names is read back as those names |
| MakeDirs.NamesConcat | src/app/process_manager.cpp:98-121 | a slash separates names wherever it stands and what has none is one name, so relative paths and repeated slashes are read likewise |
| MakeDirs.SlashPrefixesExactly | src/app/process_manager.cpp:104-114 | the prefixes tried are exactly the parts of the path before a slash |
| MakeDirs.SlashPrefixesGrow | src/app/process_manager.cpp:104-114 | shorter prefixes are tried first |
| MakeDirs.TryKeepsTree | src/app/process_manager.cpp:106-114 | one attempt adds at most the directory named, and never without the one above it |
| MakeDirs.ChainIsPrefixes | src/app/process_manager.cpp:98-121 | the chain of a directory is exactly its prefixes |

## Left out

- HTTP handlers, reply text and libevent set-up: they only supply put and stop requests.
- Database driver calls, BSON and JSON encoding: only the contract of find, insert, update and remove is used.
- Failing lookups: the code treats them as "no such row"; the model assumes they succeed.
- Several hosts sharing one table: the orphan query does not filter by host, so the model has one supervisor at a time.
- Signal-handler async safety, the consumer's unlocked access to the queue, and what a fork child does after a failed `execl`.
- `create_m3u8` naming, file creation and permissions: a step that fails or yields a file.
- `status` of a row, which is always "active", and the exact command text: launch arguments are compared instead.
- Units pulled apart more than once in one run: `RecorderRaces` characterises a single late second half.
- GetNthNode: takes counting below the smallest 32-bit integer as wrap-around, which C++ leaves undefined.
- ForEach: does not model a callback that adds nodes or unlinks other nodes than the one it is given.
- ForEachUntil: does not model a callback that adds nodes or unlinks other nodes than the one it is given.
- ClearList: deletion marks a node instead of freeing its memory.
- InsertKeyData: works on tree values; updating links in place, the sentinel's own parent link and aliasing are not modelled.
- DeleteKey: works on tree values, with the same parts not modelled.
- `rb_destroy`, the traversal with its empty callback, and running out of memory in the red-black tree.
- RemoveNode: takes the node's position as a ghost argument; the source asks that the node be in this list.
- SpawnThread: holds while no 32-bit counter has overflowed, and with binding enabled needs a range that starts at 0 or above; thread creation itself is not modelled.
- MultiMkdir: paths of 512 characters or more leave the buffer unterminated; `.`, `..`, links, files in the way and mkdir failures other than a missing parent are not modelled.
- GetArgument: messages are not modelled, nor the token one past the offending one that a message reads.
- Alloc: failing is characterised for a call that no other call overlaps; lengths of the memory are not bounded to 32 bits.
- Links of the buddy allocator's free lists in raw memory, its locks, and the alignment of its start address: lists are sequences and each critical section is one step.
- The slab pools: free and used lists of fixed-size blocks, close to the list modelled here.
- Job queues, timers, the reference counter, the connection pool and the HTTP client: they rest on atomics, clocks, sockets or allocators outside the modelled code.
- Configuration, logging and process titles: they would add only easy members.
