# pcitop: a verified model

pcitop shows how busy the PCI buses behind HP's local bus adapters are. This project
models the parts of it that carry its weight, and proves what they are for:

* **The hierarchical allocator** (`src/talloc.c`). Chunks are linked by raw
  `next/prev/parent/child` pointers, of which only the first sibling stores its parent, and
  by lists of reference handles. `memory.dfy` says when such memory *represents* a forest
  (`forest.dfy`); every operation in `talloc.dfy` works on the links, step by step as the
  code does, and is proved to make one change to the forest. What the changes mean is proved
  about forests: `ownership.dfy` (who keeps whom alive), `heirs.dfy` (who succeeds a parent that
  goes), `freeing.dfy` (what one run of `_talloc_free` does), `theorems.dfy` (free is
  reachability, owners are conserved, refusing destructors, one owner less), `acyclic.dfy` (an ownership graph without cycles can be
  ranked, which is what makes the recursion end), `sizes.dfy` (what a steal does to sizes),
  `renaming.dfy` (a chunk that `realloc` moves). `runs.dfy` puts the calls together into runs
  from an empty heap, and `domain.dfy` shows which of them keep ownership free of cycles.
* **The circular list and its checker** (`src/list.c`, `src/list.h`): `list.dfy`.
* **Splitting and joining strings, reading a file** (`src/string.c`): `strings.dfy`.
* **The adapters' driver** (`drivers/`): bit fields of registers (`words.dfy`, `lba.dfy`),
  the state machine of the counters, and its runs.
* **pcitop's sampling loop** (`src/pcitop.c`): `sampling.dfy`.

The *ownership graph* has an edge from each chunk to each of its children and from each
holder of a reference handle to the chunk the handle refers to. A chunk that is at top level,
or whose destructor refuses, needs no owner. The main theorem is that `talloc_free(p)`, when it
frees, leaves exactly the chunks that can still be reached once `p` is taken out of this graph,
in whatever order children and references are listed.

Every operation of the allocator requires and ensures `Heap.Valid`: links and forest agree,
every handle is on one list, no handle dangles, LOOP flags are exactly those of the chunks
being freed. `Runs.Perform` ties each call on the links to a step of the forest, and
`Runs.RunAgreement` is about every state that any sequence of such steps reaches. An address
without an entry in the memory cannot be read or written in Dafny, so none of the operations
touches memory that has been given back.

## Where the code and its documentation part

* `src/talloc.h:103-108` says that `talloc_free` of a chunk with an additional parent only
  destroys the latest one. The code (`src/talloc.c:464-479`) goes on with the chunk when that
  reference came from below it. `FreeTheorems.ReferencedFromBelow` is a heap in which the chunk
  is destroyed, and `FreeTheorems.OnlyLatestGoes` says exactly when the promise is kept.
* `src/list.h:60-70` promises that `list_check` tells consistent lists. It never looks at the
  back link of the head of a non-empty list: `CircularLists.HeadBackLinkUnchecked` is a broken
  list it accepts, and `CircularLists.AcceptedIntact` says exactly when what it accepts is intact.
* `max*=2 + 1` (`src/string.c:49` and `:83`) triples `max` and drops the spare slot. The stores
  stay in bounds all the same, which `StrSplit` and `GrabFd` prove.
* `strjoin` ends every piece with the delimiter, so joining what was split gives the text back
  only if it was empty or ended in the delimiter: `Strings.JoinSplit` gives both cases.

## What the theorems assume

Null tracking is off, and there are no external chunks. A user destructor has a fixed outcome
and leaves the heap alone. Nothing more is assumed of a call of `talloc_free` that only drops a
reference from elsewhere, nor in a heap without references.
Of any other chunk that is freed it is assumed (`TallocHeap.CanFree`) that

* no other chunk that can be reached from it has a reference held by the NULL context
  (`NullsApart`);
* nothing owns itself through others, except that the chunk to be freed may be referenced from
  below itself (`Acyclic`);
* the sibling before it is not a reference handle (`TrailClear`).

The second is kept by every operation but a reference or a steal that closes a cycle itself
(`Domain.StepTame`, `Domain.RunTame`). A chunk may be stolen by any chunk that does not lie below
it; that is exactly when the move leaves a forest (`Acyclicity.MoveKeepsForest`).

## Model

| member | source | states |
|---|---|---|
| `TallocHeap.Heap.TallocFree` | src/talloc.c:805-814 | whenever it returns 0, the chunk is gone and the ordinary chunks left are exactly those reachable in the old ownership graph without it, also if it was referenced from below itself; each of them is the child of its old parent if that is left, else of the holder of the latest reference whose holder is left, else, having refused, of the freed chunk's parent, and its other references with holders that are left stay in order; of a referenced chunk the references from below go, latest first, up to the first from elsewhere, which goes too and makes it -1; without one the chunk goes, unless its destructor refuses, and then it is -1; of a referenced chunk only the latest reference goes, with -1, if and only if that does not come from below, or is the only one and the destructor refuses, and in the former case nothing at all is asked of the heap; NULL gives -1 |
| `TallocHeap.CanFreeFacts` | src/talloc.c:453-543 | a heap without references meets all that a free needs |
| `TallocHeap.Heap.Free` | src/talloc.c:453-543 | the recursion itself, also while other frees are under way: it ends, keeps links, flags and reference lists in step with the forest, frees handles, and has the outcome FreeOutcome |
| `TallocHeap.Heap.FreeUnreferenced` | src/talloc.c:481-543 | the part after the references: destructor, unlinking, the loop over children, giving back |
| `TallocHeap.Heap.FreeChildren` | src/talloc.c:514-533 | the loop ends with no child left although stealing adds children to other chunks, and keeps what is reachable without the chunks being freed |
| `TallocHeap.Heap.FreeFirstChild` | src/talloc.c:514-533 | one round, exactly: a first child that is a handle is freed; one that is referenced loses its latest reference and becomes the first child of that reference's holder; one that refuses becomes the first child of the freed chunk's parent; any other is gone; fewer chunks or fewer children are left |
| `TallocHeap.Heap.RunDestructor` | src/talloc.c:486-497 | -1 exactly if the destructor refuses, and then nothing has changed; a handle's destructor takes it off its list |
| `TallocHeap.Heap.DropHandle` | src/talloc.c:300-305 | the handle leaves the list of references, whatever its place, and all other handles stay linked in order |
| `TallocHeap.Heap.Relink` | src/talloc.c:140-151 | _TLIST_REMOVE or its inlined form: the chunk leaves its siblings, the new first sibling learns the parent |
| `TallocHeap.Heap.Detach` | src/talloc.c:502-510 | the links then stand for the forest without the chunk among its parent's children |
| `TallocHeap.Heap.Push` | src/talloc.c:443-445 | the chunk comes first among the new parent's children and is the only one to store the parent |
| `TallocHeap.Heap.AttachTo` | src/talloc.c:423-447 | the links then stand for the forest with the chunk in its new place |
| `TallocHeap.Heap.StealChunk` | src/talloc.c:398-448 | exactly one chunk moves with all below it; stealing to itself or by the present parent of a first child changes nothing; the new parent ranks above the chunk, as one that does not lie below it can be made to |
| `TallocHeap.Heap.Steal` | src/talloc.c:545-553 | the same from outside, for any new parent that does not lie below the chunk, which is exactly when the result is a forest (Acyclicity.MoveKeepsForest): the chunk comes first among its children, all else stays; sizes and block counts of the old parent and all above it fall by those of the subtree, those of the new parent and all above it grow by them, and no other changes |
| `TallocHeap.Heap.LinkNew` | src/talloc.c:222-232 | a new chunk is linked before the parent's children, as by _TLIST_ADD |
| `TallocHeap.Heap.InitTalloc` | src/talloc.c:206-238 | a new chunk becomes first child, or a top-level chunk, whatever its memory held before |
| `TallocHeap.Heap.Talloc` | src/talloc.c:243-270 | the same after the checks; NULL and no change for a size of MAX_TALLOC_SIZE or more or when there is no memory |
| `TallocHeap.Heap.SetDestructor` | src/talloc.c:278-282 | from now on the chunk refuses to be freed, or does not |
| `TallocHeap.Heap.AddHandle` | src/talloc.c:363-364 | the handle heads the list of references to its chunk |
| `TallocHeap.Heap.Reference` | src/talloc.c:343-367 | one new handle below the context that refers to the chunk, latest of its references; NULL and no change without a chunk or memory |
| `TallocHeap.Heap.ReferenceCount` | src/talloc.c:992-1004 | the length of the list is the number of live handles that refer to the chunk |
| `Forests.CreateFields` | src/talloc.c:206-238 | field by field, what a new chunk changes: it comes first below its parent, without children or references |
| `Forests.MoveFields` | src/talloc.c:398-448 | field by field, what a steal changes: the chunk leaves its parent's children, the others keeping their order, and comes first below the new one |
| `Forests.AddRefFields` | src/talloc.c:359-364 | field by field, what a new reference changes: it is the first |
| `Memories.LinksOfKid` | src/talloc.c:97-105 | what the links of a child say: neighbours, and the parent in the first sibling only |
| `Memories.LinksOfHandle` | src/talloc.c:343-367 | what the links of a reference handle say |
| `TallocHeap.Heap.Unreference` | src/talloc.c:560-582 | of the references to the chunk that the context holds, the one of least index goes and every other reference, parent and chunk stays; -1 and no change if there is none |
| `TallocHeap.Heap.TallocUnlink` | src/talloc.c:588-643 | -1 and no change for a context that does not own the chunk; else its reference of least index goes; else, when it is the parent of a referenced chunk, the holder of the first reference becomes the parent and that reference goes, no other; and that is exactly one ownership by the context less; when the last owner leaves the chunk is gone and exactly what is reachable without it is left, unless its destructor refuses, and then it is -1 and not one byte changes |
| `TallocHeap.Heap.ParentChunk` | src/talloc.c:168-180 | walking to the first sibling finds the parent, also of a chunk that is being freed |
| `TallocHeap.Heap.IsParent` | src/talloc.c:372-391 | decides the reflexive and transitive ancestor relation, and ends |
| `TallocHeap.Heap.TotalSize` | src/talloc.c:914-935 | the sum of the sizes of the chunk and all below it; every flag is restored, so the memory is what it was |
| `TallocHeap.Heap.TotalBlocks` | src/talloc.c:957-976 | the number of chunks in the subtree; the memory is what it was |
| `TallocHeap.Heap.PatchUpDown` | src/talloc.c:878-883 | parent and first child learn the new address |
| `TallocHeap.Heap.PatchSides` | src/talloc.c:885-890 | so do the siblings before and after |
| `TallocHeap.Heap.Patch` | src/talloc.c:876-892 | a chunk that did not move tells its neighbours nothing new; one that moved is known to all four |
| `TallocHeap.Heap.Realloc` | src/talloc.c:822-897 | every case: size 0 frees, sizes too large, referenced chunks and failure change nothing, NULL allocates, and a chunk that moves leaves the forest under a new name for it |
| `Runs.Perform` | src/talloc.c:206-1004 | any call on the links, in the state its caller may make it in, makes exactly the step of the forest that stands for it and leaves the heap valid and at rest |
| `Runs.RunAgreement` | src/talloc.c:206-1004 | in every state of every run of allocating, setting destructors, referencing, stealing, unlinking, freeing and reallocating: every handle is on exactly one list, that of a live target, counts are right, nothing dangles, and every chunk can be reached from the top level or a refusing chunk |
| `Runs.StepKeeps` | src/talloc.c:206-1004 | each such step keeps the forest in order: parents and children agree, nothing is listed twice, nothing lies below itself |
| `Domain.RunTame` | src/talloc.c:206-1004 | in a run whose references and steals close no cycle, no state has an ownership cycle, so every chunk can be freed that does not follow a reference handle among its siblings and reaches nothing else that the NULL context refers to |
| `Domain.StepTame` | src/talloc.c:206-1004 | allocating, freeing, unlinking, reallocating and setting destructors never make an ownership cycle |
| `Domain.TameReferred` | src/talloc.c:343-367 | a new reference makes none if and only if it is held by the NULL context or by a chunk that is not reached from its target |
| `Domain.TameFreed` | src/talloc.c:453-543 | a free makes none, whatever it returns |
| `Domain.TameUnlinked` | src/talloc.c:588-643 | an unlink makes none, also when a holder becomes the parent |
| `Domain.UnheldSurvives` | src/talloc.c:287-293 | a chunk that the NULL context refers to, as after talloc_increase_ref_count, survives every free of a chunk that does not reach it |
| `FreeTheorems.FreeIsReachability` | src/talloc.c:453-543 | the chunks left by a completed free are those still reachable without the freed chunk |
| `FreeTheorems.FreedIsReachability` | src/talloc.c:464-543 | the same of a whole call, which first drops references from below |
| `FreeTheorems.OnlyLatestGoes` | src/talloc.c:464-479 | of a referenced chunk only the latest reference goes, with -1, if and only if that reference does not come from below, or is the only one and the chunk's destructor refuses |
| `FreeTheorems.ReferencedFromBelow` | src/talloc.c:473-476 | a chunk, its child and a reference to the chunk below that child: the free returns 0 and all of them are gone |
| `TallocHeap.BelowCanFree` | src/talloc.c:473-476 | that heap is one in which the chunk may be freed |
| `FreeTheorems.OwnersConserved` | src/talloc.c:514-533 | after a call that frees, every survivor has each surviving owner exactly as often as before; only chunks that refuse to go and have lost all owners gain one, the freed chunk's parent |
| `FreeTheorems.HeirsInOrder` | src/talloc.c:520-532 | whose child every survivor of a call is, and which references to it are left, in which order: owners succeed each other in the order parent, latest reference, and so on |
| `FreeTheorems.ReferencesGo` | src/talloc.c:464-479 | all that any call does to the references to its chunk, how many go, and what it returns |
| `Heirs.HeldFirst` | src/talloc.c:522-525 | the first reference in the list whose holder is left is the first that counts |
| `Heirs.HeldMembers` | src/talloc.c:522-525 | exactly those with holders that are left count |
| `Heirs.HeldInOrder` | src/talloc.c:522-525 | and they keep their order |
| `Heirs.PlaceTrans` | src/talloc.c:514-533 | succession through several chunks that go one after the other is succession among those that stay |
| `Heirs.PlacesPromoted` | src/talloc.c:522-531 | handing a child to the holder of its first reference keeps the succession of every chunk |
| `FreeTheorems.OrphanPlaced` | src/talloc.c:526-532 | a refusing chunk that lost every owner is a child of the freed chunk's parent, once |
| `FreeTheorems.VetoedFree` | src/talloc.c:486-533 | a call on a heap without references: if the chunk's own destructor refuses nothing changes; else a chunk below it survives if and only if it or a chunk on the way refuses, the topmost such become children of the freed chunk's parent, all other survivors keep their parent, and every chunk but that parent keeps its children in order |
| `FreeTheorems.HandleOwnerLess` | src/talloc.c:560-582 | dropping a reference takes one ownership and no other |
| `FreeTheorems.ParentOwnerLess` | src/talloc.c:627-639 | when the parent leaves, the holder of the latest reference becomes the parent and nobody else's ownership changes |
| `FreeTheorems.SharesFound` | src/talloc.c:601-617 | a context owns a chunk exactly if it holds a reference that is found or is the parent |
| `FreeTheorems.HandleOnOneList` | src/talloc.c:343-367 | every handle is on one list, once, and that is the list of the live chunk it refers to |
| `Freeing.ShedFacts` | src/talloc.c:464-479 | dropping references from below stops at one from elsewhere and changes no parent |
| `Freeing.LatestReference` | src/talloc.c:464-478 | a free of a referenced chunk whose latest reference comes from elsewhere is over once that is dropped; one from below leaves the chunk fit for the free that goes on |
| `Freeing.Begin` | src/talloc.c:502-512 | leaving the list and being flagged changes nothing about what is kept without the chunk |
| `Freeing.EmptyHandle` | src/talloc.c:514-533 | freeing a handle among the children keeps all that is kept |
| `Freeing.EmptyPromoted` | src/talloc.c:522-531 | handing a referenced child to the holder of its latest reference keeps what is kept, every share and every succession |
| `Freeing.EmptyBubbled` | src/talloc.c:526-532 | so does handing a refusing child to the parent |
| `Freeing.EmptyFreed` | src/talloc.c:526-526 | so does freeing a child with all that only it kept |
| `Freeing.Finish` | src/talloc.c:535-540 | an emptied chunk can be given back: the outcome of the whole is Freed |
| `Freeing.HandleShares` | src/talloc.c:300-305 | a handle stands for one ownership |
| `Freeing.MoveShares` | src/talloc.c:398-448 | a steal takes one ownership from the old parent and gives one to the new |
| `Ownership.KeptSame` | src/talloc.c:514-520 | what is reachable depends only on the edges that lead to chunks that need an owner |
| `Ownership.Promoted` | src/talloc.c:522-531 | promoting the holder of a reference to parent keeps the reachable chunks |
| `Ownership.Bubbled` | src/talloc.c:526-532 | moving a refusing chunk up keeps the reachable chunks |
| `Acyclicity.OrderIncreases` | src/talloc.c:514-533 | along every ownership the number of chunks that can be reached goes down, so the recursion of a free descends |
| `Acyclicity.SortedFreeable` | src/talloc.c:805-814 | a resting heap without ownership cycles, in which the chunk reaches nothing else that the NULL context refers to, is fit for its free |
| `Acyclicity.RankedAcyclic` | src/talloc.c:453-543 | ownership that grows along ranks has no cycles; with OrderIncreases: ranks exist exactly if there are none |
| `Acyclicity.MoveKeepsForest` | src/talloc.c:398-448 | moving a chunk leaves a forest if and only if the new parent does not lie below it |
| `Acyclicity.LiftedWF` | src/talloc.c:398-448 | a chunk and all below it can be ranked below a new parent that does not lie below the chunk, so the move makes no cycle |
| `Sizes.StealShiftsWeights` | src/talloc.c:398-448 | a steal takes the subtree's weight (its size, or its number of blocks) from the old parent and all above, and gives it to the new parent and all above; all other totals stay |
| `Sizes.TotalSplit` | src/talloc.c:927-930 | the total of a subtree is the chunk's own weight and the totals of its children |
| `Sizes.KidsApart` | src/talloc.c:928-930 | no chunk is below two children, so nothing is counted twice |
| `Renaming.RenamedRepresents` | src/talloc.c:876-892 | after the four neighbours have been patched the links stand for the renamed forest |
| `Renaming.RenamedIsomorphic` | src/talloc.c:842-896 | after a realloc that moves a chunk every chunk is owned by the same owners as often as before, whatever is freed next leaves the same chunks, and totals differ by what the chunk has grown, for it and all above it, and by nothing else |
| `Renaming.RenamedAbove` | src/talloc.c:842-896 | so do all ancestor queries |
| `Renaming.ToldInPlace` | src/talloc.c:878-890 | when the chunk did not move the patching changes nothing |
| `Memories.GapClosed` | src/talloc.c:140-151 | the siblings around a chunk that leaves are linked in order |
| `Memories.FirstLinked` | src/talloc.c:126-138 | so are all siblings behind one that comes first |
| `Memories.StepLeft` | src/talloc.c:177-179 | each step to the left keeps the parent and comes closer to the first sibling |
| `Memories.RefGapClosed` | src/talloc.c:300-305 | the handles around one that leaves are linked in order |
| `Memories.HandlesCounted` | src/talloc.c:992-1004 | each live handle that refers to a chunk is on its list once |
| `CircularLists.Check` | src/list.c:23-51 | on every finite graph of nodes, corrupt or not, it ends; when the head's next link leads to itself the head is returned exactly if its back link does too, else exactly if the list is intact but for the head's back link; in all other cases NULL or an abort |
| `CircularLists.ReturnsExactly` | src/list.c:39-50 | a chain of entries is accepted if and only if it is an intact list once the head's back link is put right |
| `CircularLists.ListAccepted` | src/list.h:59-90 | every intact list passes |
| `CircularLists.AcceptedIntact` | src/list.h:59-90 | what passes is intact if and only if the head's back link leads to the last entry |
| `CircularLists.HeadBackLinkUnchecked` | src/list.c:39-50 | a list that passes and is not intact |
| `CircularLists.CorruptNotReturning` | src/list.c:41-48 | one wrong back link rules out every accepted chain |
| `CircularLists.EntriesDistinct` | src/list.c:39-49 | checked back links keep the walk from running into itself, so it ends even on graphs whose links run into a cycle beside the head |
| `CircularLists.Lists.HeadInit` | src/list.h:99-102 | an empty list |
| `CircularLists.Lists.Add` | src/list.h:131-138 | the entry comes first, the others and all foreign nodes stay |
| `CircularLists.Lists.AddTail` | src/list.h:150-157 | the entry comes last, the others and all foreign nodes stay |
| `CircularLists.Lists.Del` | src/list.h:167-176 | exactly this entry goes; its own links stay |
| `CircularLists.Lists.Empty` | src/list.h:187-191 | true exactly if there is no entry |
| `CircularLists.Lists.IsLast` | src/list.h:204-208 | true exactly for the last entry |
| `CircularLists.Lists.IsFirst` | src/list.h:221-225 | true exactly for the first entry |
| `CircularLists.Lists.ForEachSafe` | src/list.h:300-304 | with a body that deletes any of the entries it is at, every original entry is visited once, in order, the others form the list that is left, and no node outside the list changes |
| `Strings.SplitJoin` | src/string.c:33-67 | splitting undoes joining for strings free of the delimiter |
| `Strings.JoinSplit` | src/string.c:33-67 | joining undoes splitting, and ends a last piece that no delimiter ended |
| `Strings.StrSplit` | src/string.c:33-55 | the array holds the pieces and then NULL; every store is within the array although it only triples |
| `Strings.Store` | src/string.c:43-49 | one piece is stored and the array grows when full: num < max <= capacity again |
| `Strings.SplitStep` | src/string.c:42-47 | one round takes one piece and the one delimiter after it |
| `Strings.AppendString` | src/talloc.c:1243-1264 | the text is the old text and the appended one, terminated within the buffer |
| `Strings.StrJoin` | src/string.c:57-67 | each string before the NULL, followed by the delimiter |
| `Strings.GrabFd` | src/string.c:69-92 | for any sizes of the reads the buffer holds exactly the file and a NUL within its bounds; NULL exactly if a read fails |
| `Adapters.WrittenField` | drivers/hplba.h:174-201 | a field write reads back if and only if the value fits the field, and then no bit outside the field changes, for every mask, content and value; a field begins at any place, and at those that the adapters use (0 and 33) shifting to it is the shift of the machine |
| `Words.ShiftsAre` | drivers/hplba.h:186-192 | shifts by 33 places are those of the machine |
| `Adapters.PutField` | drivers/hplba.h:174-201 | the same for the fields of the three chips, with all other registers unchanged |
| `Adapters.UtilStateToValue` | drivers/hplba.h:142-154 | the state that the text names up to its end, a newline or a NUL; unknown if none |
| `Adapters.NamesOne` | drivers/hplba_drv.c:77-83 | no text names two states, and each state's name names it |
| `Adapters.TextNames` | drivers/hplba.h:142-154 | a state's name alone, or followed by a newline or a NUL and anything, names it; followed by any other character it names none |
| `Adapters.Lba.SetUtilState` | drivers/hplba_drv.c:106-196 | accepted exactly if the counters have come far enough for the new state; a rejected command gives -22 and changes nothing; after an accepted one the low four bits of register 0x500 are 0, 0xf, 3 or 0, for INIT, RESET, START, STOP, and the configuration words are in their registers |
| `Adapters.Lba.UtilizationStore` | drivers/hplba_sysfs.c:204-220 | a text written to the attribute is one step of the adapter; its length or -EINVAL is returned |
| `Adapters.Lba.UtilInit` | drivers/apollo.c:74-81 | on each chip: afterwards counting is off, the always-count bit and that chip's control word read back, and no bit the driver does not own has changed |
| `Adapters.ProgrammedReads` | drivers/mercury.c:109-135 | after any command the fields read back what it writes, the others what they held, and no foreign bit has changed |
| `Adapters.Lba.Utilization` | drivers/apollo.c:104-110 | what is read is the low 48 bits of the two registers at the addresses of each chip |
| `Adapters.ProgrammedSettles` | drivers/gemini.c:110-138 | after an accepted command the enable field tells the new state and the configuration is in place |
| `Adapters.RunSettles` | drivers/hplba_drv.c:106-196 | after any texts written and any counting by the hardware, in any order, in the words of the registers: the low four bits at 0x500 are 0, 0xf, 3 or 0 for INIT, RESET, START, STOP, bit 0 at 0x508 is set, each chip's control word is in place, and no bit the driver does not own has changed |
| `Adapters.DrivenExactly` | drivers/apollo.h:50-73 | which bits those are, for each chip |
| `Adapters.AcceptedInOrder` | drivers/hplba_drv.c:106-160 | from power on, in any run: the state is the last accepted command; INIT is always accepted, RESET once anything was, START if and only if a RESET was accepted since the last INIT, STOP if and only if a START was since the last INIT or RESET |
| `Sampling.ScheduleAccepted` | src/pcitop.c:886-918 | pcitop's init, reset and (start, stop, collect) repeated are accepted from every state, and at each collection counting is off and the registers hold what the hardware left |
| `Sampling.AverageIsMean` | src/pcitop.c:934-977 | for readings that rise the average is the mean of the utilizations weighted by time, and lies between any bounds they share, for any number of samples |
| `Sampling.WeightedTelescopes` | src/pcitop.c:941-945 | utilization times time, summed up, is the last counter: the prev fields start at zero and follow each sample |
| `Sampling.RisingShown` | src/pcitop.c:940-943 | for such readings the subtraction of unsigned long is that of numbers, and a number is printed |
| `Sampling.MeasuredIsMean` | src/pcitop.c:934-977 | so it is with what measure_utilization prints of a bridge: its average is the weighted mean of its printed utilizations and lies between them, also after an interruption |
| `Sampling.PrintedExactly` | src/pcitop.c:934-977 | what is printed of each bridge in each line, and as its average, is the stated quotient of the low 48 bits that its two registers held, with the subtraction of unsigned long |
| `Sampling.Low48Is` | drivers/apollo.h:65-73 | the number of those bits |
| `Sampling.Bridge.Collect` | src/pcitop.c:278-309 | the numbers remembered are the low 48 bits of the two registers at the addresses of each chip |
| `Sampling.ScheduleExactly` | src/pcitop.c:886-918 | the schedule: init and reset once, then start, sleep and stop for each sample |
| `Sampling.Bridge.Process` | src/pcitop.c:936-945 | the utilization since the last sample for any readings, with the subtraction of unsigned long; no number if the timer stands still, 0 for a bus without devices |
| `Sampling.SampleAll` | src/pcitop.c:900-952 | one round: all bridges are started, then sleep, are stopped, collected and processed; each has made its three steps and its line shows what its adapter's registers held |
| `Sampling.MeasureUtilization` | src/pcitop.c:863-979 | for any number of displayed bridges and any readings: each adapter has gone through exactly the schedule of the samples taken, what is printed for it comes from its own readings, "interrupted" is printed exactly if a signal cut the run short, and the averages come from the last readings |

## Left out

- Null tracking, leak reports, the autofree context, external allocators, lock hooks, errno saving, names and printf in `src/talloc.c`: foreign callbacks or output.
- Destructors that call back into the heap or change their minds: a user destructor is a fixed outcome.
- TallocHeap.Heap.TallocFree: does not cover a chunk that goes on to be freed when it reaches another one that the NULL context refers to, when ownership has cycles other than references to the chunk itself, or when a reference handle is the sibling before it.
- TallocHeap.Heap.TallocUnlink: the same where it comes to free the chunk, and it does not cover a holder that takes over and lies below the chunk, as the result is no forest.
- TallocHeap.Heap.Realloc: the same where size 0 comes to free the chunk.
- TallocHeap.Heap.Steal: does not cover a new parent below the chunk, as the result is no forest (`Acyclicity.MoveKeepsForest`).
- TallocHeap.Heap.StealChunk: the same, for the ranks that the forest has at that moment.
- Header arithmetic, magic values, `container_of` and type checks: memory is one map from addresses to records in the object that all operations share, because every chunk can be reached from several others and freed addresses must be seen to be gone. A reference handle's payload lies beside its chunk in one record.
- The addresses that malloc and realloc return are parameters; the contents of chunks are not modelled but for handles and C strings.
- Sizes and counts are unbounded: the wrap-around of size_t sums and of the unsigned `max` in `strsplit` is not modelled.
- Strings.StrSplit and the other string functions: allocation succeeds, and the chunk tree that the buffers hang in is left to the allocator's own model.
- Debug builds of the list, `list_top`, `list_entry`, and the text that `list_check` prints.
- Sampling.MeasureUtilization: utilizations are exact fractions, not doubles; a quotient by zero is no number; formatting, signals and sleeping are parameters or left out, and so are the bridges that are not displayed.
- Adapters.WrittenField: shifts go place by place or 32 places at once; only by 0 and 33 places are they shown to be the machine's.
- Adapters.RunSettles: the hardware only changes the timer and counter registers.
- The 32-bit register write, and the decoders of bus mode, speed and ropes: nothing here uses them, or they are small tables.
- ACPI probing, sysfs reading, option parsing, slot names, the wrappers over system calls and the web page.
