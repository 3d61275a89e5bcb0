# The MMTk binding for CRuby across stop-the-world collections

The binding keeps weak tables, lists and pin records whose addresses change in every
collection. Parallel work packets bring them up to date while the world is stopped. This
project models the four protocols the Rust code decides, at the granularity of its atomic
actions, and proves what they promise for every interleaving and over whole runs.

A protocol is a step machine: a state, an `Enabled` predicate, a function `Do` for one atomic
action, and runs of any length. Safety is an inductive invariant, termination a decreasing
measure, and the result a statement about every run that cannot continue. What a packet can do
next depends on its own progress alone (`TableUpdate.PacketsAreIndependent`,
`Ppp.PinPacketsAreIndependent`, `GenericIv.CopiesAreIndependent`), so interleavings are arbitrary.
The Rust structs that are updated in place are classes. Where a method is a packet or a step of a machine, its
contract says so: running it without interference takes the memory from one machine state to
the one that a given run of events reaches (`TablePackets`, `Ppp.PinBits.PinChildren`,
`GenericIv.GivtblTables`).

- `Heap`: what the binding may rely on from the collector (the assumptions below).
- `Arithmetic`: machine words and facts about division.
- `Ranges`, `AfterAll`, `WeakTables`, `TableUpdate`, `ChunkedTables`, `TablePackets`: the chunked
  parallel update of a weak table, with the barrier that releases the bin packets, for every
  chunk size, wrapped range ends included.
- `GenericIv`, `GivLookups`: the generic-ivar table, the side map of moved entries, lookups in
  between, and the mutex they share with the drain.
- `Ppp`: pinning and unpinning the children of potentially pinning parents (PPPs).
- `WeakLists`: the `obj_free` candidates and the WB-unprotected set.
- `Closure`: all the packets of the VMRefClosure stage in one bucket, and their confluence.
- `Runs`: any sequence of mutator calls and collections, with object identities that are never
  reused next to addresses that are.
- `Chunks`, `ObjectClosures`, `Roots`, `ObjectModel`: chunking, the closure of a GC thread, root
  buffering, and the bytes of a copied object.

## Assumptions

The collector (`Heap.Collection.Legal`): liveness is fixed once tracing ends, and reachable
objects are live; copying is injective and copies to addresses not in use; an object that is
pinned when Prepare has drained is not copied; a non-moving collection copies nothing; the pin
bit of a dead object is reclaimed with its memory (`Runs.AfterCollection`). `pin_object` and
`unpin_object` say whether they changed the bit.

The VM: `st_update_entries_range` and `st_update_bins_range` act element by element, the latter
dropping references to deleted entries; `move_givtbl` renames one key; `cleanup_generic_iv_tbl`
drops the keys that are not the current address of a reachable object. The VM sets RUBY_FL_EXIVAR
when it gives an object an entry, a new object does not have it, and no upcall of a collection
writes it. Mutators hold no reference to
an object that a collection has not reached, so no later collection reaches it
(`Runs.MissedStayMissed`; `Runs.CopyPanicsIffRevived` says exactly what fails otherwise). That the
flag and the entry coincide on every object that is copied is proved from this and not assumed.

The lookups of `GenericIv` and `GivLookups` are calls of `mmtk_get_givtbl_during_gc` by the VM. This
code does not show at which moments of a collection the VM makes them; the results allow any, up to
and including the VMRefClosure stage. `Runs` has no lookups.

## What is true only on a condition

Each failure below is shown to happen by a lemma that exhibits it.

- Bin packets start every `entries_chunk_size` bins but are `bins_chunk_size` long
  (`mmtk/src/weak_proc.rs:155-157`). A bin at an offset of `bins_chunk_size` or more within an
  entry chunk is never visited, nor is one that only packets with a wrapped end could reach; with
  the default sizes visits overlap up to four times. `Ranges.BinCoverage` gives the count,
  `Ranges.AllBinsVisited`, `Ranges.ExactlyOnceIff` and `Ranges.AlwaysExactlyOnceIff` the
  conditions. An unvisited bin can keep referring to a deleted entry:
  `ChunkedTables.IndexAgreement` for each bin, `ChunkedTables.NeverStaleIff` for all tables of a
  size, `ChunkedTables.StaleBinExample` at a concrete one.
- A range end can wrap around in `usize` (`mmtk/src/weak_proc.rs:138`). That packet does nothing,
  the entries behind its begin are never updated, and the bins are released all the same:
  `Ranges.EntryCoverage`, `ChunkedTables.TableAfterProcessing`, `ChunkedTables.AlwaysSequentialIff`,
  `Ranges.WrappedEndExample`, `ChunkedTables.UnreachedEntryExample`.
- With an empty entry range the bin packets are never released
  (`TableUpdate.ParallelRefinesSequential`); nothing is deleted then, so the index still agrees.
- `get_givtbl` reads the table and the side map at different times. A lookup by new address that
  straddles the whole drain panics, and one by old address fails once its entry has been renamed
  (`GenericIv.LookupByNewAddress`, `GenericIv.LookupByOldAddress`); every copied object with a
  table can be looked up in vain (`GenericIv.SomeLookupPanics`, `GenericIv.LookupPanicExample`).
  Before the drain both always succeed (`GenericIv.MidCollectionLookup`).
- The drain takes the mutex of the side map with `try_lock().expect`. It panics if and only if a
  lookup holds the mutex at that moment (`GivLookups.DrainPanicsIff`). If the VM looks tables up
  while the VMRefClosure stage runs, every collection has a schedule in which it does
  (`GivLookups.DrainCanPanic`).
- `copy` looks only at objects with RUBY_FL_EXIVAR. It panics in some schedule if and only if a
  copied object has the flag and no entry (`GenericIv.CopyPanicsIff`), and an entry without the
  flag is lost (`GenericIv.DelayedAgreesWithEager`, `GenericIv.LostTableExample`). Everything goes
  well in every schedule if and only if neither occurs (`GenericIv.AlwaysGoesWellIff`).
- `cleanup_generic_iv_tbl` drops the entry of a live object that was not reached, and its flag stays.
  If a later collection copies the object, and only then, `copy` can panic
  (`Runs.CopyPanicsIffRevived`, `Runs.RevivedObjectExample`).
- `set_temporarily_and_run_code` resets the closure of the thread to unregistered and not to what
  it was. Its assertion fails if and only if it is used recursively, and the closure panics if and
  only if a visit follows a recursive use at its level (`ObjectClosures.SetTemporarily`,
  `ObjectClosures.RecursionPanicExample`).

## Model

| member | source | states |
|---|---|---|
| Ranges.CollectRanges | mmtk/src/weak_proc.rs:135-165 | There is a packet for each k with from + k*step below the bound; it begins there and ends at the smaller of the bound and that plus the length, modulo 2^64. |
| Ranges.HitsIsCount | mmtk/src/weak_proc.rs:154-165 | The visit count of an index is the number of ranges that contain it. |
| Ranges.EntryRangesTile | mmtk/src/weak_proc.rs:135-151 | With equal step and length the ranges are non-empty, consecutive and cover the entries, if and only if no end wraps around. |
| Ranges.EntryCoverage | mmtk/src/weak_proc.rs:135-151 | For all sizes each entry up to the point reached is in exactly one packet and no other entry is in any. |
| Ranges.ReachIsBoundIff | mmtk/src/weak_proc.rs:135-138 | That point is the end of the table iff no end wraps. |
| Ranges.WrappedEndExample | mmtk/src/weak_proc.rs:135-138 | A concrete wrapped end: the only entry packet is inverted and reaches nothing. |
| Ranges.NoWrapIff | mmtk/src/weak_proc.rs:135-138 | Whether any end wraps is decided by the last begin plus the chunk size. |
| Ranges.BinCoverage | mmtk/src/weak_proc.rs:154-165 | For every table and all chunk sizes: bin i is in exactly as many packets as there are from the first to reach it, ceil((i-b+1)/e), to the last that starts at or before it and does not wrap, min(floor(i/e), floor((2^64-1-b)/e)); it is in at least one iff i mod e < b and the end of the first to reach it does not wrap; never in more than ceil(b/e). |
| Ranges.AllBinsVisited | mmtk/src/weak_proc.rs:154-165 | No bin of a table of n bins is missed iff n <= b, or e <= b and the first packet to reach the last bin does not wrap. |
| Ranges.ExactlyOnceIff | mmtk/src/weak_proc.rs:154-165 | Every bin of a table is visited exactly once iff the chunk sizes are equal and no end wraps, or b bins hold the table and no second packet reaches into it. |
| Ranges.AlwaysExactlyOnceIff | mmtk/src/weak_proc.rs:154-165 | Every bin of every table is visited exactly once iff b = 2^64-1, or e = b divides 2^64-1. |
| Ranges.DefaultBinVisits | mmtk/src/binding.rs:94-95 | With the default sizes 1024 and 4096, the exact visit count of every bin of every table. |
| AfterAll.AfterAll.CountDown | mmtk/src/utils.rs:78-90 | Decrements with wrap-around; exactly when the counter was 1 it moves all stored packets to the bucket and returns true. |
| AfterAll.AfterAll.CountUp | mmtk/src/utils.rs:74-76 | Adds to the counter and leaves the packets. |
| AfterAll.AfterAll.AddPackets | mmtk/src/utils.rs:69-72 | Appends to the stored packets and leaves the counter. |
| TablePackets.DoEntriesWork | mmtk/src/weak_proc.rs:374-411 | An undisturbed entry packet, for an inverted range too, is the run that visits its range in order, ends it and counts down; it reports the deletions of its range and whether it was the last. |
| TablePackets.EntryPacketRun | mmtk/src/weak_proc.rs:374-411 | The run of a whole entry packet exists from every reachable state in which the packet has been taken, with the table, counter, bucket and report it leads to. |
| TablePackets.CountDownBag | mmtk/src/utils.rs:78-90 | The three steps of `count_down`, run one after the other, put the bin packets in the bucket on the last count and change nothing of it otherwise. |
| TablePackets.DoBinsWork | mmtk/src/weak_proc.rs:424-441 | An undisturbed bin packet is the run that reads and rewrites its bins in order. |
| WeakTables.WeakTable.UpdateBinsRange | mmtk/src/weak_proc.rs:424-441 | Drops the references to deleted entries in a range and touches nothing else, for an inverted range too. |
| WeakTables.DeletionsConserve | mmtk/src/weak_proc.rs:376-383 | The entries left by a pass and the deletions it reports add up to the entries before. |
| TablePackets.ProcessWeakTableChunked | mmtk/src/weak_proc.rs:130-169 | Counter, stored bin packets and published entry packets after the set-up, for all chunk sizes, which is the machine after its three set-up events. |
| TableUpdate.StepInv | mmtk/src/utils.rs:69-90 | The invariant of the barrier and of the table is kept by every atomic action of every packet, including the separate read and write of a bin that several packets update at once. |
| TableUpdate.BarrierSafety | mmtk/src/utils.rs:69-90 | In every reachable state the counter is the number of entry packets still to decrement, no decrement wraps, at most one packet sees the last count, a bin packet is held back or released but not both, and released only once all entries are final. |
| TableUpdate.RunsTerminate | mmtk/src/weak_proc.rs:135-168 | Every schedule is finite, bounded by the initial measure. |
| TableUpdate.Completes | mmtk/src/weak_proc.rs:135-168 | From every reachable state the packets can be run to the end. |
| TableUpdate.QuiescentState | mmtk/src/utils.rs:78-90 | When nothing can happen any more all entry packets have finished, and all bin packets have if there was an entry packet, none otherwise. |
| TableUpdate.ParallelRefinesSequential | mmtk/src/weak_proc.rs:135-168 | For every interleaving over non-overlapping, possibly inverted ranges, the entries and the deletion counts equal one sequential pass over the ranges, exactly one `count_down` returned true if there was an entry packet, and the bins some packet covers are updated against the final entries. |
| ChunkedTables.TableAfterProcessing | mmtk/src/weak_proc.rs:99-169 | The whole table after any complete schedule, for any table and all chunk sizes: entries and deletions up to the point reached, and the visited bins updated against them. |
| ChunkedTables.EntriesConserved | mmtk/src/weak_proc.rs:376-383 | After any complete schedule the deletions that the packets report are the entries that the table has lost. |
| ChunkedTables.SequentialIff | mmtk/src/weak_proc.rs:135-151 | The entries are those of one sequential pass over the whole table iff the update changes none behind the point reached. |
| ChunkedTables.AlwaysSequentialIff | mmtk/src/weak_proc.rs:135-151 | For all data of a table of given sizes and all schedules the entries are those of one sequential pass iff no entry end wraps. |
| ChunkedTables.IndexAgreement | mmtk/src/weak_proc.rs:154-168 | After any complete schedule, bin i refers to a deleted entry iff its entry was deleted and no packet visits the bin; a visited bin of a deleted entry is marked deleted; bins of surviving entries are unchanged. |
| ChunkedTables.NoBinStale | mmtk/src/weak_proc.rs:154-168 | If all bins are visited, no bin refers to a deleted entry after any complete schedule. |
| ChunkedTables.NeverStaleIff | mmtk/src/weak_proc.rs:154-168 | For all data of a table of given sizes and all schedules no bin ends up stale iff all bins are visited or no entry is reached. |
| ChunkedTables.StaleBinExample | mmtk/src/weak_proc.rs:154-168 | A concrete complete schedule that leaves a bin referring to a deleted entry. |
| ChunkedTables.UnreachedEntryExample | mmtk/src/weak_proc.rs:135-138 | A concrete complete schedule that leaves a weak entry as it was. |
| GenericIv.StepInv | mmtk/src/object_model.rs:40-91 | The invariant relating table, side map and copies is kept by every load, record, drain and clean step. |
| GenericIv.DelayedAgreesWithEager | mmtk/src/weak_proc.rs:175-208 | For every schedule of copies and drain order no copy panics, the table ends with the reachable surviving entries at their new addresses, and it is the table of moving each entry with its object iff no copied object has an entry without the flag. |
| GenericIv.AlwaysGoesWellIff | mmtk/src/object_model.rs:40-91 | In every schedule no copy panics and the final table is that of eager moves iff the copied objects with the flag are exactly those with an entry. |
| GenericIv.RunsTerminate | mmtk/src/weak_proc.rs:181-191 | Every schedule of copies and drains is finite. |
| GenericIv.Progress | mmtk/src/weak_proc.rs:175-208 | No schedule gets stuck before the table is cleaned. |
| GenericIv.CopyPanicsIff | mmtk/src/object_model.rs:45-50 | Some schedule panics in `copy` iff a copied object has the flag but no entry. |
| GenericIv.LookupByNewAddress | mmtk/src/abi.rs:113-125 | A lookup by the new address panics iff its first read precedes the rename and its second follows the drain, or the object has an entry without the flag; otherwise it returns the object's own table. |
| GenericIv.LookupByOldAddress | mmtk/src/abi.rs:113-125 | A lookup by the old address returns the object's own table until the entry is renamed or dropped, and fails after. |
| GenericIv.SomeLookupPanics | mmtk/src/abi.rs:113-125 | Every copied object with a table has a schedule in which lookups by both its addresses panic. |
| GenericIv.LookupPanicExample | mmtk/src/abi.rs:113-125 | The same at a concrete object and table. |
| GenericIv.LostTableExample | mmtk/src/object_model.rs:45-50 | A concrete table lost because the flag is missing. |
| GenericIv.MidCollectionLookup | mmtk/src/abi.rs:113-125 | From the first copy to the drain, lookups by old addresses and by returned new addresses of flagged objects give the table the object had when the world stopped. |
| GenericIv.GivtblTables.LoadForCopy | mmtk/src/object_model.rs:45-50 | Reads the entry of a flagged object, and panics iff it is missing. |
| GenericIv.GivtblTables.RecordCopy | mmtk/src/object_model.rs:77-88 | Records old reference and table under the new reference, for an object with a table only. |
| GenericIv.GivtblTables.UpdateGenericIvTbl | mmtk/src/weak_proc.rs:175-208 | Panics iff the mutex is taken, and has then changed nothing; otherwise the drain loop, in any key order, and the clean-up produce the expected table and an empty side map. |
| GivLookups.Projection | mmtk/src/abi.rs:113-125 | Lookups that take and release the mutex in between leave a run of the tables as it is without them. |
| GivLookups.DrainPanicsIff | mmtk/src/weak_proc.rs:181-184 | In every schedule the drain panics iff it comes to take the mutex while a lookup has taken it and not released it. |
| GivLookups.DrainCanPanic | mmtk/src/weak_proc.rs:181-184 | Every collection has such a schedule. |
| GivLookups.OneHolder | mmtk/src/abi.rs:116 | In every schedule at most one lookup holds the mutex, and none while the drain does. |
| GivLookups.WaitsIff | mmtk/src/object_model.rs:79 | A step waits iff a lookup holds the mutex and the step would change the side map. |
| GivLookups.HeldSideMapIsStable | mmtk/src/object_model.rs:79 | In every schedule the side map stays the same from the moment a lookup has the mutex until it releases it. |
| GivLookups.LockedLookup | mmtk/src/abi.rs:113-125 | A lookup that reads the side map at any moment while it holds the mutex fails exactly in the cases of `LookupByNewAddress`, whatever copies and other lookups do. |
| Ppp.PPPRegistry.Register | mmtk/src/ppp.rs:25-28 | Appends one object. |
| Ppp.PPPRegistry.RegisterMany | mmtk/src/ppp.rs:30-35 | Appends the objects in order. |
| Ppp.PPPRegistry.PinPppChildren | mmtk/src/ppp.rs:37-67 | In a moving collection packet k holds the members 512*k up to 512*k+511, as far as there are any, and there is a packet for each such k; in a non-moving one there is none. |
| Ppp.PinTargetsMember | mmtk/src/ppp.rs:117-141 | The children collected are those the VM reports with pin for members that are still PPPs. |
| Ppp.PinTargetsInOrder | mmtk/src/ppp.rs:117-129 | A visit with pin is the target at as many places from the front as there are visits with pin before it, and there are no other targets. |
| Ppp.PinTargetsAcross | mmtk/src/ppp.rs:131-141 | The targets of a packet are those of everything the VM reports about its members, one member after the other. |
| Ppp.PinBits.PinChildren | mmtk/src/ppp.rs:109-168 | An undisturbed packet is a run of the pinning machine: it pins all its targets and appends those it newly pinned to the shared list. |
| Ppp.NewlyPinnedMember | mmtk/src/ppp.rs:143-147 | The newly pinned objects are the targets not pinned before. |
| Ppp.NewlyPinnedOnce | mmtk/src/ppp.rs:143-147 | No object is recorded twice by a packet. |
| Ppp.PinRunInv | mmtk/src/ppp.rs:143-166 | While packets pin in parallel, an object is pinned iff it was before or exactly one record holds it, and every target is pinned or still to do. |
| Ppp.PinningOutcome | mmtk/src/ppp.rs:143-166 | For every interleaving exactly the targets become pinned, and the shared list holds each object not pinned before exactly once. |
| Ppp.PinRunsTerminate | mmtk/src/ppp.rs:109-168 | Every schedule of the pinning packets is finite. |
| Ppp.PinningIsSufficient | mmtk/src/collection.rs:23-24 | In a moving collection no child that the VM reports with pin for a registered PPP is forwarded. |
| Ppp.UnpinSucceedsIff | mmtk/src/ppp.rs:228-231 | No assertion of the unpin packet fails iff its list has no duplicates and all of it is pinned. |
| Ppp.FailedUnpinsCount | mmtk/src/ppp.rs:228-231 | As many assertions fail as the list is longer than the set of pinned objects in it. |
| Ppp.PinsConserved | mmtk/src/ppp.rs:69-96 | After any schedule the unpin packet succeeds throughout and leaves pinned exactly what was pinned before; in a non-moving collection its list is empty. |
| Ppp.PPPRegistry.CleanupPpps | mmtk/src/ppp.rs:69-96 | Adds the packet that removes dead PPPs, and in a moving collection the one that unpins the whole list, which becomes empty; otherwise asserts that the list is empty. |
| Ppp.PPPRegistry.RemoveDeadPpps | mmtk/src/ppp.rs:172-214 | In-place filtering leaves the forwarded members that are live and still PPPs, in order; the one count is that of the positions with a dead member, the other that of the positions with a live one that is no longer a PPP. |
| Ppp.PinBits.UnpinChildren | mmtk/src/ppp.rs:220-233 | Unpins the list and counts the failed assertions. |
| WeakLists.WeakProcessor.AddObjFreeCandidate | mmtk/src/weak_proc.rs:40-43 | Appends one candidate. |
| WeakLists.WeakProcessor.AddObjFreeCandidates | mmtk/src/weak_proc.rs:48-53 | Appends the candidates in order. |
| WeakLists.WeakProcessor.GetAllObjFreeCandidates | mmtk/src/weak_proc.rs:55-58 | Hands out all candidates and keeps none. |
| WeakLists.WeakProcessor.ProcessObjFreeCandidates | mmtk/src/weak_proc.rs:213-247 | Keeps the reachable candidates, forwarded and in order, calls `obj_free` on the others in order, and loses none. |
| WeakLists.WbUnprotectedObjects.Update | mmtk/src/weak_proc.rs:445-481 | For any iteration order the set becomes the forwarded reachable members, as many as were reachable. |
| WeakLists.ForwardedSetSize | mmtk/src/weak_proc.rs:456-471 | Rebuilding the set merges no two members. |
| Closure.StepConservesOutcome | mmtk/src/weak_proc.rs:65-75 | No action of any VMRefClosure packet changes the predicted final state of the binding. |
| Closure.Confluence | mmtk/src/weak_proc.rs:60-97 | Every complete interleaving of the obj_free, generic-ivar, WB-unprotected, PPP and unpin packets ends in the state of running them one after the other. |
| Closure.AnyTwoInterleavingsAgree | mmtk/src/ppp.rs:69-82 | Two complete interleavings from the same state agree on everything the binding keeps. |
| Closure.RunsTerminate | mmtk/src/weak_proc.rs:60-97 | Every schedule of the stage is finite. |
| Runs.CollectionIsCorrect | mmtk/src/scanning.rs:142-151 | A whole collection, under any schedules of its three stages, leaves the binding holding exactly the surviving identities at their new addresses, keeps the header flags in step with the table, frees exactly the unreachable candidates, and fails no unpin and no copy. |
| Runs.CollectionCanComplete | mmtk/src/collection.rs:19-29 | Every collection that respects the pins has complete schedules. |
| Runs.BindingRepresentsWorld | mmtk/src/binding.rs:57-69 | At every point of every execution, with addresses reused, the binding holds the identities' lists, sets, table, header flags and mutator pins at their current addresses, its working areas are empty, every entry has its flag, and a flag without an entry is that of an object some collection has missed. |
| Runs.NoPacketFailsNoCopyPanics | mmtk/src/ppp.rs:83-94 | In no collection of any execution does the unpin assertion or the emptiness assertion fail, or a copy panic. |
| Runs.FlagIffEntry | mmtk/src/object_model.rs:45-50 | On every object a collection reaches, RUBY_FL_EXIVAR is set iff the table has an entry. |
| Runs.CopyPanicsIffRevived | mmtk/src/object_model.rs:45-50 | Whatever a collection reaches: some schedule of its copies panics iff it copies an object whose entry an earlier collection has dropped. |
| Runs.RevivedObjectExample | mmtk/src/object_model.rs:45-50 | A concrete execution after which a copy can panic, because an object that was missed is reached again. |
| Runs.ObjFreeConservation | mmtk/src/weak_proc.rs:40-58 | Over any execution the candidates registered by its events are those its collections freed, those its takings handed out and those still candidates, as multisets of identities. |
| Runs.ObjFreeExactlyOnce | mmtk/src/weak_proc.rs:40-58 | An object that the events register once is, at any later point, freed once, handed out once, or a candidate once, and only one of these. |
| Runs.RecordsAreEvents | mmtk/src/weak_proc.rs:40-58 | What counts as registered, handed out and freed is the concatenation over the events of an execution. |
| Runs.CandidatesHistory | mmtk/src/weak_proc.rs:40-58 | The candidates are the list of all registrations, in order and with repetition, less those taken since and those a collection since has not reached. |
| Runs.FreedAreUnreachable | mmtk/src/weak_proc.rs:228-241 | A collection calls `obj_free` exactly on its unreachable candidates, at their addresses at that moment. |
| Runs.WbHistory | mmtk/src/weak_proc.rs:456-469 | An object is in the WB-unprotected set iff it was registered and every collection since has reached it. |
| Runs.PppHistory | mmtk/src/ppp.rs:187-203 | The registry is the list of all registrations, in order and with repetition, less the objects that have died or stopped being PPPs at a collection since. |
| Runs.GivtblHistory | mmtk/src/weak_proc.rs:186-198 | An object has table v iff v was its latest and every collection since has reached it. |
| Runs.FlagHistory | mmtk/src/object_model.rs:53-60 | An object that is still there has the flag iff it was ever given a table, over any number of copies. |
| Runs.PinHistory | mmtk/src/ppp.rs:69-96 | An object that is still there is pinned between collections iff the last mutator call on its pin bit set it. |
| Runs.MissedHistory | mmtk/src/weak_proc.rs:194-198 | An object that is still there counts as missed iff some collection has found it there and not reached it. |
| Runs.BindingAnswers | mmtk/src/binding.rs:146-155 | The three histories as the binding sees them, asked by the current address of a live object. |
| Runs.BindingPpps | mmtk/src/ppp.rs:187-203 | After any execution the registry of the binding is that list at the current addresses. |
| Runs.BindingCandidates | mmtk/src/weak_proc.rs:213-247 | After any execution the binding holds that list at the current addresses, hands it out whole, and the next collection calls `obj_free` on its unreachable members at those addresses. |
| Runs.BindingPins | mmtk/src/ppp.rs:69-96 | The same for the pin bit at the current address. |
| Chunks.ChunkedCharacterised | mmtk/src/utils.rs:14-42 | There is exactly one way to cut a sequence with no empty chunk and all but the last full. |
| Chunks.ChunkedAt | mmtk/src/utils.rs:14-42 | Chunk k holds the n elements from k*n on, as far as there are any, and there is a chunk for each such k. |
| Chunks.FlattenAt | mmtk/src/utils.rs:36-41 | Element i of chunk k is the element of the contents right behind the chunks before it. |
| Chunks.ChunkedVecCollector.Add | mmtk/src/utils.rs:23-28 | Appends one item to the contents and keeps all stored chunks full. |
| Chunks.ChunkedVecCollector.Extend | mmtk/src/utils.rs:44-50 | Appends the items in order. |
| Chunks.ChunkedVecCollector.IntoVecs | mmtk/src/utils.rs:36-41 | The result is that one way of cutting the contents, for chunk size zero too. |
| Roots.CollectObjectRoots | mmtk/src/scanning.rs:164-199 | The submitted buffers concatenate to the visits, none is empty, all but the last have 4096 elements; the closure of the thread is unregistered after it, and the assertion holds iff it was before. |
| Roots.RootCollector.Finish | mmtk/src/scanning.rs:196-198 | Submits the rest of the buffer: the packets are the visits in 4096-element chunks. |
| Roots.RootCollector.Call | mmtk/src/scanning.rs:171-192 | A call of the closure appends one object and submits a full buffer; it panics iff the closure is not registered. |
| Roots.GenWbUnprotectedPackets | mmtk/src/scanning.rs:101-131 | In a nursery collection the packets hold every WB-unprotected object once, 128 to a packet, for any iteration order; otherwise there are none. |
| Roots.ScanWbUnprotectedRoots | mmtk/src/scanning.rs:288-307 | A packet submits what the VM visits for each of its reachable objects, one object after the other, in full buffers but for the last, and leaves the closure unregistered. |
| Roots.WbRootsMember | mmtk/src/scanning.rs:292-298 | The roots of a packet are exactly the children of its reachable objects. |
| Roots.WbRootsInOrder | mmtk/src/scanning.rs:292-298 | They come in the order of the objects and of the visits to each. |
| Roots.NurseryRootsComplete | mmtk/src/scanning.rs:117-128 | However the set was cut, the roots submitted by all packets are exactly the children of its reachable members. |
| ObjectClosures.SetTemporarily | mmtk/src/abi.rs:176-220 | After one use the closure is unregistered; the assertion fails iff the code uses it recursively, and if not the visitor has seen exactly the visits; the unregistered closure is called iff a visit follows a recursive use at its level. |
| ObjectClosures.RecursionPanicExample | mmtk/src/abi.rs:184-192 | A concrete recursive use: the assertion fails, and the visit after it finds no closure. |
| ObjectModel.HeaderLayout | mmtk/src/abi.rs:26-45 | The size is the low six header bytes, the header is sane iff the two high bytes are zero, and obj_end - obj_start is the object size. |
| ObjectModel.ExivarBit | mmtk/src/abi.rs:91-97 | RUBY_FL_EXIVAR is bit 2 of the second payload byte. |
| ObjectModel.Copy | mmtk/src/object_model.rs:51-75 | The copy has the same size, flags, payload and suffix; no other byte changes, except that the old copy is zeroed when asked for. |

## Left out

- The `st_table` internals and every upcall: they are C code of the VM and not part of this model; the assumptions above stand for them.
- mmtk-core: tracing, allocation, bucket opening and metadata are the assumptions above and one bag of packets per stage.
- The two chunked tables are not repeated inside `Closure`: they share no state with its packets.
- The finalizer, object-id, overloaded-cme and ci table packets: their effect lies wholly in C.
- `try_lock` on the other mutexes (PPP registry, WB-unprotected set, candidates): taken to succeed, as their other holders are mutators, which are stopped.
- ObjectModel.Copy: does not model the forwarding pointer that mmtk-core later writes over the hidden header of the old copy, which this code never reads again.
- Overflow checks of debug builds: a wrapping sum panics there; here it wraps, as in release builds.
- The ObjectClosure function pointers and casts: `ObjectClosures` keeps which closure is registered, and what VM code does is a tree of visits and recursive uses.
- WeakLists, Ppp and GenericIv hold Rust's vectors and hash maps as sequence, set and map fields that methods reassign; capacity and hash order are not modelled, so loops over a hash collection take any order.
- `join_all_gc_threads`, `get_plan_name_c`, API wrappers, builder options, fork handling, logging and probes.
