# The block layer and two pieces of crypto of Linux 2.6.35.4, verified

This project models the request path of the block layer, two I/O schedulers, the Camellia cipher and the
removal of crypto spawns, and proves what they are for. Where the kernel updates structures in place the
model is a class or a method on arrays; where it only computes, a function. Lock-held regions are atomic
steps; driver, scheduler and allocator answers that the code cannot control are parameters or arbitrary
choices.

The main results:

- **Barriers** (`OrderedQueue`, `OrderedOnce`, `OrderedStages`, `OrderedTags`, `OrderedDrain`,
  `RequestQueueImpl`). A step relation over the dispatch list, the ordered sequence and the driver. On every
  run in every mode no barrier is ended twice or lost, each is ended with the first error any stage or data
  completion reported and only after all its stages, and no `BUG_ON` fires (`BarriersEndOnce`). Which stages
  those are is read off the modes set and the barriers submitted: a barrier with data is written between the
  flushes its mode asks for, one without data only flushes first, no other stage is issued, and only a queue
  without a mode refuses barriers (`StagesComplete`); a sequence that needs no command ends when the driver
  has nothing left (`CommandlessDrains`). On every run of a queue that orders by draining, whichever draining
  mode is set when, with any requeues, no stage of a barrier is issued before everything submitted earlier is
  over and its earlier stages are done, no later file system request is issued before the barrier is ended, no
  `WARN_ON` fires and no sequence is ever stuck (`BarriersOrder`); ordered by tag a sequence with a stage left
  always has something in the driver or to hand out (`TagsMove`). The imperative queue of `RequestQueueImpl`
  takes exactly these steps.
- **Camellia** (`Camellia*`). For any S-box tables, any subkeys and any block, encryption with the folded key
  table is the cipher of sections 2.3 and 2.4 of RFC 3713, and decryption undoes it. `camellia_setup_tail`
  builds that table in place, and the key setups for 128, 192 and 256 bits feed it the subkeys of section 2.2
  of RFC 3713 (`Encrypt128`, `Decrypt128`, `Encrypt256`, `Decrypt256`, `Encrypt192`, `Decrypt192`).
- **Segments, merging, completion** (`Segments`, `Recount`, `Completion`, `CompletionStatus`,
  `CompletionData`, `EndBytes`, `Chains`, `FsRequest`, `MakeRequest`). After any history of merges, starts and
  partial completions the segment count of a request is the size of a valid partition of its vectors, and the
  scatterlist pass, which is proved optimal, needs no more entries. Every bio not yet ended is in exactly one
  request, the bios of a request are contiguous from its start sector, and `data_len` is their sum. Completing
  in two pieces is completing at once, unless both stop inside one bio with parts of a sector that together
  make up one (`CompletionComposes`, both ways); every bio ends once, exactly when it is covered, with an
  error exactly if some failed piece did one of its bytes or it was not up to date before (`EndsAsItShould`),
  and what is left holds exactly the bytes not done, in order (`RunData`). A bio joins the request proposed
  exactly if that keeps both limits of the queue. Failing by boundaries fails exactly the runs of equally
  eager bios.
- **Schedulers** (`Lanes`, `DeadlineLog`, `DeadlineSteps`, `Deadline`, `DispatchSort`, `DispatchQueue`,
  `MergeHash`, `Cfq*`). Deadline, over every run: both indexes agree, no request is lost or dispatched twice
  (`NothingLost`); a batch of writes is started exactly if no reads wait or `writes_starved` batches of reads
  have gone past waiting writes, and a batch goes on exactly while there is a next request and it is shorter
  than `fifo_batch` (`TurnsAreTaken`); so among any `(writes_starved + 1) * max(1, fifo_batch) + 1`
  consecutive dispatches that find writes waiting one is a write, among any `2 * max(1, fifo_batch) + 1` that
  find reads waiting one is a read unless `writes_starved` is 0 (`NobodyStarves`), and with 0 a read may wait
  for ever (`ReadsStarve`). Elevator: sorted dispatch is a stable one-way sort of every run of requests of one
  kind at one boundary; over every run of the dispatch queue, where every request the driver sees moves the
  boundary, each request stands in turn at the boundary it came in at, and what came in since the last move
  stands in turn at the current one (`ElevatorOrder`), while no one boundary need fit all (`SeenHeadMoves`,
  `MoveKeeps`), and a request named for the boundary holds it in place (`BoundaryStays`); the merge hash
  answers as a linear scan would. CFQ: the counters of queues and groups agree with the trees in every
  reachable state, forced dispatch moves every request once, over every run two groups on the tree are charged
  in proportion to their weights (`GroupsFair`), the choice between two requests is what their kinds and
  sectors say (`ChoosesByKind`, `ChoosesBySector`), and in a queue of requests alike in sync and metadata the
  two-neighbour search for the next request finds the best of all.
- **Allocator** (`RequestPool`). Over every run flags follow the counts at every unlock point, and no sleeper
  is lost (`NobodyLost`). A request freed, or an allocation that fails, wakes a sleeper of its own direction
  if that comes below the limit and one of the other if it is starved (`FreeWakes`, `FailureWakes`), so every
  further one wakes another (`FreesWake`); where nothing is out in either direction a sleeper depends on a
  newcomer or a new limit (`Forsaken`).
- **Spawns** (`Spawns`, `RemoveSpawns`). The walk that steals list nodes computes exactly a reachability
  closure, and neither BUG_ON fires. Of the spawns of an instance exactly one survives if something built on
  that instance does, so all spawns on the way to the replacement survive if and only if no two of them belong
  to one instance (`KeptExactly`); otherwise an instance dies that the replacement still uses (`DiesInUse`).

`dafny verify dfyconfig.toml` checks the whole project.

## Model

| member | source | states |
|---|---|---|
| OrderedOnce.BarriersEndOnce | linux-2.6.35.4/block/blk-barrier.c:92-280 | every run in every accepted mode: one sequence at a time, every barrier ended at most once, after all its stages and with the first error reported for it, or with EOPNOTSUPP if it never started; no BUG_ON fires; a barrier not ended is on the list or is the one in progress |
| OrderedOnce.StepKeeps | linux-2.6.35.4/block/elevator.c:553-744 | every enabled step keeps the invariant behind that: no request in two places, in_flight counts the file system requests in the driver, colours alternate with the barriers |
| OrderedStages.StagesComplete | linux-2.6.35.4/block/blk-barrier.c:154-234 | every run, whatever modes are set when: a sequence is started in any mode but NONE and a barrier is refused only in NONE; of a barrier started with data the write and the flushes the mode asks for have been completed when it is ended, of one without data the first flush; no other stage of it is ever issued; and it is ended with the first error reported for it, or none |
| OrderedStages.SequenceFits | linux-2.6.35.4/block/blk-barrier.c:166-182 | the mode in which start_ordered runs a sequence is the one set, for a barrier with data, and otherwise what flushes the cache |
| OrderedStages.CommandlessDrains | linux-2.6.35.4/block/blk-barrier.c:154-234 | when a barrier is ended whose sequence needs no command, no file system request is with the driver |
| OrderedTags.TagsMove | linux-2.6.35.4/block/blk-barrier.c:236-280 | every run, whatever modes are set when: while ordering is by tag, a sequence with a stage left has something with the driver or a head that is handed out |
| OrderedTags.TagHead | linux-2.6.35.4/block/blk-barrier.c:260-271 | ordered by tag every head is handed out, and nothing changes, but the next barrier waits |
| OrderedTags.ModeAtOnce | linux-2.6.35.4/block/blk-barrier.c:25-50 | a mode set while a sequence is in progress decides at once what its head may do |
| OrderedTags.SeenNotPassed | linux-2.6.35.4/block/blk-core.c:1793-1807 | a request that the driver has looked at is passed by nothing the scheduler dispatches |
| OrderedTags.HeadIsGiven | linux-2.6.35.4/block/blk-barrier.c:236-280 | what blk_do_ordered answers is the head of the list it leaves |
| OrderedDrain.BarriersOrder | linux-2.6.35.4/block/blk-barrier.c:63-280 | every run of a draining queue, with arbitrary requeues: stages are issued only after everything earlier is over and the earlier stages are done, later file system requests only after the barrier is ended; the WARN_ON never fires; a sequence in progress has work in the driver or a head that may be dispatched |
| OrderedDrain.StepOrd | linux-2.6.35.4/block/elevator.c:612-707 | every step keeps the dispatch list in sequence order up to the next barrier |
| OrderedDrain.RequeueOrd | linux-2.6.35.4/block/elevator.c:664-692 | a requeue puts a request, or a proxy of the running sequence, back where that order wants it |
| OrderedDrain.NotStuck | linux-2.6.35.4/block/elevator.c:837-867 | when nothing is in the driver, the head of the list may be dispatched at every stage of a sequence |
| OrderedDrain.DrainCheckMoving | linux-2.6.35.4/block/elevator.c:851-866 | after the check of elv_completed_request, a sequence that still waits for the drain has something to wait for |
| RequestQueueImpl.RequestQueue.constructor | linux-2.6.35.4/block/blk-barrier.c:25-50 | a new queue is the initial state of the step relation, in an accepted ordering mode |
| RequestQueueImpl.RequestQueue.CompleteSeq | linux-2.6.35.4/block/blk-barrier.c:92-112 | the in-place update is the step of the relation, and it answers whether the sequence is over |
| RequestQueueImpl.RequestQueue.StageSequence | linux-2.6.35.4/block/blk-barrier.c:154-222 | stashes the barrier, settles the mode, queues the wanted proxies so that they stand in stage order and collects exactly the stages to skip |
| RequestQueueImpl.RequestQueue.StartOrdered | linux-2.6.35.4/block/blk-barrier.c:154-234 | refines the step that starts a sequence, including its answer to the caller |
| RequestQueueImpl.RequestQueue.DoOrdered | linux-2.6.35.4/block/blk-barrier.c:236-280 | refines the decision about the head of the list in all modes |
| RequestQueueImpl.RequestQueue.Requeue | linux-2.6.35.4/block/elevator.c:553-568 | refines the requeue step, its scan included |
| RequestQueueImpl.RequestQueue.CompletedRequest | linux-2.6.35.4/block/elevator.c:837-867 | refines leaving the driver and the drain check |
| RequestQueueImpl.RequestQueue.EndIo | linux-2.6.35.4/block/blk-barrier.c:114-130 | refines the three end_io callbacks |
| RequestQueueImpl.RequestQueue.Finish | linux-2.6.35.4/block/blk-core.c:2122-2144 | refines the completion step for every kind of request |
| RequestQueueImpl.RequestQueue.AddRequest | linux-2.6.35.4/block/elevator.c:709-744 | refines the submission steps: colour given, colour toggled by a barrier, place in the list |
| RequestQueueImpl.RequestQueue.StartRequest | linux-2.6.35.4/block/blk-core.c:1871-1889 | refines the move of the head to the driver, counted in flight if it is a file system request |
| RequestQueueImpl.RequestQueue.PeekRequest | linux-2.6.35.4/block/blk.h:54-68 | the dispatch loop terminates, whatever it does is a run of the steps, it hands out the marked head and never an original barrier, and gives up only with an empty list or inside a sequence |
| RequestQueueImpl.PeekShrinks | linux-2.6.35.4/block/blk-barrier.c:236-280 | blk_do_ordered drops the head, hands it out, or waits inside a sequence |
| CamelliaFold.FoldedIsDirect | linux-2.6.35.4/crypto/camellia.c:381-578 | for all operations obeying the laws, all subkeys and blocks: encryption with the folded table is the direct cipher with its whitening keys, FL layers and key at the start of each round |
| CamelliaFold.DecryptUndoes | linux-2.6.35.4/crypto/camellia.c:942-970 | for any table and block, the code's decryption undoes its encryption |
| CamelliaHalf.FLSIsFLLayer | linux-2.6.35.4/crypto/camellia.c:854-868 | the interleaved FLS macro is FL on one half and its inverse on the other |
| CamelliaHalf.OpsLawful | linux-2.6.35.4/crypto/camellia.c:854-886 | the word operations obey the laws the folding needs, whatever the S-boxes |
| Camellia.CodeFIsF | linux-2.6.35.4/crypto/camellia.c:359-376 | the table lookups and shifts of CAMELLIA_F are the F-function: key XOR, S-boxes, byte permutation P |
| Camellia.CamelliaLawful | linux-2.6.35.4/crypto/camellia.c:854-886 | the same laws for the 32-bit words of the code, for every S-box set |
| Camellia.CamelliaCorrect | linux-2.6.35.4/crypto/camellia.c:854-995 | for every S-box set, subkeys, matching table and block: the code encrypts as RFC 3713 and decrypts back |
| CamelliaSetup.Absorbs | linux-2.6.35.4/crypto/camellia.c:387-559 | once both whitening keys are absorbed, every combined entry is free of them |
| CamelliaSetup.SetupTail | linux-2.6.35.4/crypto/camellia.c:381-578 | the in-place tail turns the subkeys of the schedule into the folded table |
| CamelliaSetup.UndoP | linux-2.6.35.4/crypto/camellia.c:561-578 | the last loop undoes half of P on every round key and on nothing else |
| CamelliaSetup.DoEncrypt | linux-2.6.35.4/crypto/camellia.c:887-915 | the in-place rounds compute the table cipher, halves left swapped |
| CamelliaSetup.DoDecrypt | linux-2.6.35.4/crypto/camellia.c:942-970 | the same for decryption |
| CamelliaSetup.EncryptWith | linux-2.6.35.4/crypto/camellia.c:887-915 | with a table made from subkeys k, for 24 or 32 rounds and layers, the in-place code computes the direct cipher under k |
| CamelliaSetup.DecryptWith | linux-2.6.35.4/crypto/camellia.c:942-970 | and gives back every block so encrypted |
| CamelliaRotate.Rotates15 | linux-2.6.35.4/crypto/camellia.c:340-347 | ROLDQ by 15 on four words is a 128-bit rotation |
| CamelliaRotate.Rotates34 | linux-2.6.35.4/crypto/camellia.c:349-357 | ROLDQo32 by 34 on four words is a 128-bit rotation |
| CamelliaRotate.Rotates45 | linux-2.6.35.4/crypto/camellia.c:349-357 | ROLDQo32 by 45 is a rotation by 45 |
| CamelliaRotate.Rotates49 | linux-2.6.35.4/crypto/camellia.c:349-357 | ROLDQo32 by 49 is a rotation by 49 |
| CamelliaRotate.Rotates51 | linux-2.6.35.4/crypto/camellia.c:349-357 | ROLDQo32 by 51 is a rotation by 51 |
| CamelliaRotate.Sum94And34 | linux-2.6.35.4/crypto/camellia.c:749-754 | the last rotation of KR brings it back to where it began |
| CamelliaSchedule.ChainKL | linux-2.6.35.4/crypto/camellia.c:595-633 | the chained in-place rotations of KL give its rotations by 0, 15, 45, 60, 77, 94 and 111 bits |
| CamelliaSchedule.ChainKA | linux-2.6.35.4/crypto/camellia.c:655-683 | the same for KA: 0, 15, 30, 45, 60, 94 and 111 bits |
| CamelliaSchedule.MakeSubkeys | linux-2.6.35.4/crypto/camellia.c:580-684 | the array filled is the subkey list of section 2.2 of RFC 3713 |
| CamelliaKeys.CodeKAIsKA | linux-2.6.35.4/crypto/camellia.c:635-653 | the code's way to KA is the four rounds of the RFC |
| CamelliaKeys.KeysLawful | linux-2.6.35.4/crypto/camellia.c:340-357 | the rotations of the code obey the laws the schedule needs |
| CamelliaKeys.Setup128 | linux-2.6.35.4/crypto/camellia.c:580-684 | for a 128-bit key the table is the folded form of the RFC's subkeys |
| CamelliaKeys.Encrypt128 | linux-2.6.35.4/crypto/camellia.c:1033-1055 | key setup and encryption together are the cipher of RFC 3713 for 128-bit keys |
| CamelliaKeys.Decrypt128 | linux-2.6.35.4/crypto/camellia.c:1057-1079 | key setup and decryption together undo it |
| CamelliaLongSchedule.ChainLongKL | linux-2.6.35.4/crypto/camellia.c:707-731 | KL rotated by 0, 45, 60, 77 and 111 bits, each from the one before |
| CamelliaLongSchedule.ChainKR | linux-2.6.35.4/crypto/camellia.c:733-754 | KR rotated by 15, 30, 60 and 94 bits, and then KR again |
| CamelliaLongSchedule.ChainLongKA | linux-2.6.35.4/crypto/camellia.c:788-809 | KA rotated by 15, 45, 77 (read with the words one place on) and 94 bits |
| CamelliaLongSchedule.ChainKB | linux-2.6.35.4/crypto/camellia.c:811-830 | KB rotated by 0, 30, 60 and 111 bits |
| CamelliaLongSchedule.MakeLongSubkeys | linux-2.6.35.4/crypto/camellia.c:686-831 | the array filled is the subkey list of section 2.2 of RFC 3713 for longer keys |
| CamelliaLongKeys.CodeLongKAIsKA | linux-2.6.35.4/crypto/camellia.c:756-774 | the way to KA that leaves out what cancels is the four rounds of the RFC with KR added |
| CamelliaLongKeys.CodeLongKBIsKB | linux-2.6.35.4/crypto/camellia.c:776-786 | KB is the two further rounds of the RFC |
| CamelliaLongKeys.Setup256 | linux-2.6.35.4/crypto/camellia.c:686-833 | for a 256-bit key the table is the folded form of the RFC's subkeys |
| CamelliaLongKeys.Setup192 | linux-2.6.35.4/crypto/camellia.c:835-848 | for a 192-bit key it is that of the key extended by its complemented last 64 bits |
| CamelliaLongKeys.Encrypt256 | linux-2.6.35.4/crypto/camellia.c:1033-1055 | key setup and encryption together are the cipher of RFC 3713 for 256-bit keys |
| CamelliaLongKeys.Decrypt256 | linux-2.6.35.4/crypto/camellia.c:1057-1079 | key setup and decryption together undo it |
| CamelliaLongKeys.Encrypt192 | linux-2.6.35.4/crypto/camellia.c:1033-1055 | the same for 192-bit keys |
| CamelliaLongKeys.Decrypt192 | linux-2.6.35.4/crypto/camellia.c:1057-1079 | and back |
| Segments.BestStep | linux-2.6.35.4/block/blk-merge.c:118-170 | growing the last segment whenever allowed keeps the partition no worse than any other |
| Segments.GreedyBest | linux-2.6.35.4/block/blk-merge.c:118-170 | so growing whenever allowed gives a partition no worse than any other |
| Segments.MapSg | linux-2.6.35.4/block/blk-merge.c:118-170 | the scatterlist entries are a valid partition of the vectors, with its lengths, and no valid partition has fewer |
| Segments.JoinPartitions | linux-2.6.35.4/block/blk-merge.c:88-112 | joining the two segments that meet is valid if their vectors join and the joint size is allowed |
| Recount.RecountSegments | linux-2.6.35.4/block/blk-merge.c:12-70 | the count is the least possible when no page above the bounce limit joins another; front and back sizes grow exactly to the outer segments; nothing else of the bios changes |
| Completion.CompletionComposes | linux-2.6.35.4/block/blk-core.c:1969-2099 | for all m and n: completing m bytes and then n is completing m + n (same bios left, same bios ended in the same order) if and only if not both stop inside one bio with parts of a sector that together make up a sector |
| Completion.HalfSectors | linux-2.6.35.4/block/blk-core.c:134-171 | twice half a sector is not one sector: the sector of the rest is rounded down each time |
| Completion.AdvanceConserves | linux-2.6.35.4/block/blk-core.c:134-171 | the bios ended and those left are the chain, in order, and the bytes left add up |
| Completion.EndsWhenCovered | linux-2.6.35.4/block/blk-core.c:134-171 | a bio is ended if and only if the bytes done reach its end |
| Completion.RunConserves | linux-2.6.35.4/block/blk-core.c:1969-2099 | the same over any sequence of completions, some failed: every bio ends at most once and none is lost |
| Completion.RunComposes | linux-2.6.35.4/block/blk-core.c:1969-2099 | any sequence of sector-multiple completions equals one completion of their sum |
| CompletionStatus.EndsAsItShould | linux-2.6.35.4/block/blk-core.c:134-171 | over any sequence of completions, some failed: exactly the bios whose last byte is done have ended, in order, each with an error if and only if it came not up to date or some failed piece did one of its bytes; a bio that is left remembers that |
| CompletionStatus.FailsForGood | linux-2.6.35.4/block/blk-core.c:134-171 | a bio whose first sector fails ends with an error though the second succeeds |
| CompletionData.RunData | linux-2.6.35.4/block/blk-core.c:2010-2083 | over any sequence of completions: the vectors left point to exactly the bytes in memory that are not done, in order |
| EndBytes.EndBios | linux-2.6.35.4/block/blk-core.c:2010-2062 | the loop over bios and vectors does exactly that |
| Chains.SoundJoin | linux-2.6.35.4/block/blk-merge.c:273-308 | two adjacent chains with the segments that meet joined: one segment fewer, still a valid count, contiguous, with the right length |
| Chains.JoinsExactly | linux-2.6.35.4/block/blk-merge.c:88-112 | where the sizes kept with the bios are exact, two chains are joined exactly if the segments that meet are one segment together |
| FsRequest.JointExactly | linux-2.6.35.4/block/blk-merge.c:293-300 | and then the joint count is one less, exactly |
| Chains.SoundConcat | linux-2.6.35.4/block/blk-merge.c:203-222 | the same without joining |
| Chains.SoundUnjoined | linux-2.6.35.4/block/blk-merge.c:273-308 | sizes taken over before a merge that is then refused do no harm |
| Chains.AdvanceContiguous | linux-2.6.35.4/block/blk-core.c:2040-2099 | what is left after n bytes starts n bytes later and is contiguous |
| FsRequest.Request.constructor | linux-2.6.35.4/block/blk-core.c:1138-1167 | a request made from a bio holds that bio and a sound count |
| FsRequest.Request.SetMixedMerge | linux-2.6.35.4/block/blk-merge.c:319-338 | exactly the bios of a request that was not mixed get its failfast bits, and nothing else changes |
| FsRequest.Request.NewHwSegment | linux-2.6.35.4/block/blk-merge.c:203-222 | the count grows if and only if it stays within the limit, otherwise the request takes no more merges |
| FsRequest.Request.MayMerge | linux-2.6.35.4/block/blk-merge.c:224-271 | a bio may join if and only if the sector limit and, with the fewest segments of the bio, the segment limit allow it; the count stays sound for the request and the bio |
| FsRequest.Request.BackMerge | linux-2.6.35.4/block/blk-core.c:1211-1231 | the bio is appended if and only if both limits allow it, otherwise nothing is lost and merging stops; the count stays sound, the bios contiguous, the length their sum, the flags those of the first bio |
| FsRequest.Request.FrontMerge | linux-2.6.35.4/block/blk-core.c:1233-1263 | the same at the front, with the start sector and the failfast bits moved |
| FsRequest.Request.MergeSegments | linux-2.6.35.4/block/blk-merge.c:273-308 | says yes if and only if neither request is special and both limits hold for the joint count; the count is then sound for both chains together, and otherwise still for each |
| FsRequest.Request.Absorb | linux-2.6.35.4/block/blk-merge.c:359-430 | succeeds exactly when both may merge, are adjacent, of one target and within the limits; then this request holds the bios of both, with the failfast bits each had or was given, and the other none |
| FsRequest.Request.Update | linux-2.6.35.4/block/blk-core.c:1969-2099 | for any byte count: leaves and ends exactly the bios it should, keeps length, count and flags sound, moves the sector, and the repair of a botched request is never reached; the bios left agree with the start sector if and only if the count is whole sectors |
| FsRequest.StillWellFormed | linux-2.6.35.4/block/blk-core.c:134-171 | the chain left is well formed if and only if the bytes done are whole sectors |
| FsRequest.Request.ErrBytes | linux-2.6.35.4/block/blk-core.c:1704-1729 | the bytes of exactly the first bios as eager to fail as the request, at least one of them |
| FsRequest.EagerExactly | linux-2.6.35.4/block/blk-core.c:1719-1724 | those are the first bios that have every failfast bit of the request, up to the first that lacks one |
| FsRequest.CurrentEnds | linux-2.6.35.4/include/linux/blkdev.h:864-867 | the current bytes are the first vector: completing so many ends it and nothing else |
| FsRequest.Request.FailByBoundaries | linux-2.6.35.4/block/blk-core.c:2276-2280 | repeated error completion fails exactly the byte counts between the boundaries, in at most as many calls as there are bios, and ends every bio once with an error |
| FsRequest.FewBoundaries | linux-2.6.35.4/block/blk-core.c:1704-1729 | there are no more boundaries than bios |
| FsRequest.Request.MapSegments | linux-2.6.35.4/block/blk-merge.c:118-170 | the scatterlist is a valid partition of the vectors with its lengths, none has fewer entries, and it needs no more than nr_phys_segments |
| MakeRequest.Queue.Grow | linux-2.6.35.4/block/blk-core.c:1210-1263 | a bio joins the request found and no other if and only if both limits allow it, otherwise that request is closed to merges |
| MakeRequest.Queue.AbsorbInto | linux-2.6.35.4/block/blk-merge.c:359-450 | all bios of the absorbed request change owner together, exactly when the two adjoin within the limits |
| MakeRequest.Queue.Submit | linux-2.6.35.4/block/blk-core.c:1178-1306 | every bio handed in is in exactly one request: it joins the request proposed if and only if that keeps both limits of the queue, and that request then absorbs its neighbour, or is absorbed by it, with all bios, if and only if the two adjoin within the limits; otherwise it gets a request of its own; all other bios keep their request |
| MakeRequest.Queue.Start | linux-2.6.35.4/block/blk-core.c:1793-1807 | a started request takes no more merges; nothing else changes |
| MakeRequest.Queue.Complete | linux-2.6.35.4/block/blk-core.c:1969-2144 | of a started request exactly the bios covered are ended and disowned; the others keep their request, which goes when it has none |
| Spawns.WalkReaches | linux-2.6.35.4/crypto/algapi.c:85-106 | the walk, when over, has put on the secondary list exactly the spawns reachable from the top ones without passing the replacement |
| Spawns.NeverItself | linux-2.6.35.4/crypto/algapi.c:160 | the algorithm itself is never reached, so the BUG_ON of the walk does not fire |
| Spawns.WalkLaws | linux-2.6.35.4/crypto/algapi.c:85-106 | what the walk decides, on any graph without cycles: what it does not reach is not touched, the spawns of the replacement keep their algorithm, of the spawns of any other instance exactly one does if one built on that instance does and else none, and what keeps its algorithm leads to the replacement |
| Spawns.KeptExactly | linux-2.6.35.4/crypto/algapi.c:94-101 | on any graph without cycles: exactly the spawns reached that are on the way to the replacement keep their algorithm, if and only if no two of them belong to one instance other than the replacement |
| RemoveSpawns.Collect | linux-2.6.35.4/crypto/algapi.c:143-149 | the top list and the rest are the users split by the mask |
| RemoveSpawns.Descend | linux-2.6.35.4/crypto/algapi.c:153-169 | the inner loop ends, at an instance without users or at the replacement |
| RemoveSpawns.WalkSpawns | linux-2.6.35.4/crypto/algapi.c:151-171 | the double loop ends with nothing left to visit |
| RemoveSpawns.RemoveSpawn | linux-2.6.35.4/crypto/algapi.c:108-130 | an instance dies once, leaves its template's list and is handed back if it was on it |
| RemoveSpawns.Settle | linux-2.6.35.4/crypto/algapi.c:173-178 | in the order of the list, spawns with an algorithm return to its users and the instances of the others die, handed back once each, none with a user at that time |
| RemoveSpawns.Registry.Remove | linux-2.6.35.4/crypto/algapi.c:132-179 | for any graph without cycles: the spawns decide as the walk does, exactly the instances of those that lost their algorithm die, all user lists stay consistent and no BUG_ON fires; all spawns on the way to the replacement survive if and only if no two of them belong to one instance |
| RemoveSpawns.DeadInUse | linux-2.6.35.4/crypto/algapi.c:132-179 | an instance of which a spawn lost its algorithm is still built upon if and only if another of its spawns kept its own |
| RemoveSpawns.DiesInUse | linux-2.6.35.4/crypto/algapi.c:132-179 | an instance built twice on the algorithm, with the replacement built on it, dies while the replacement uses it |
| RemoveSpawns.WalkOrders | linux-2.6.35.4/crypto/algapi.c:104 | what is built on an instance that dies comes behind it on the secondary list, so it is not back among the users when the instance is removed |
| DispatchSort.Insert | linux-2.6.35.4/block/elevator.c:413-449 | the backward scan finds the place behind the last request that may not be passed: a barrier, a started one, one of another kind, or one that is due before it |
| DispatchSort.InsertStable | linux-2.6.35.4/block/elevator.c:413-449 | one insertion keeps the stable one-way sort |
| DispatchSort.InsertAll | linux-2.6.35.4/block/elevator.c:413-449 | requests of any kinds, inserted behind the last stop: every run of one kind comes out as its stable one-way elevator sort, the runs in the order of arrival, and nothing before them moves |
| DispatchSort.SortsRuns | linux-2.6.35.4/block/elevator.c:413-449 | the same of the sequence of insertions |
| DispatchSort.KindsApart | linux-2.6.35.4/block/elevator.c:413-449 | three requests of two kinds that one-way order would place otherwise: the sort is by runs, not over all |
| DispatchQueue.StepOk | linux-2.6.35.4/block/elevator.c:413-471 | every step (dispatch by sorting or at the end, soft barriers anywhere, barriers that move the boundary and drain, the driver seeing the head, which moves the boundary unless another request is named for that, and taking it) keeps: behind the last stop, requests with another kind between them stand by arrival; a later one is in front of an earlier one of its block only if it was due before it at the boundary it came in at, and behind only if it was put at the end or held back; requests of one era are in turn at its boundary |
| DispatchQueue.ElevatorOrder | linux-2.6.35.4/block/blk-core.c:1787-1814 | that after every run from an empty queue, and that what came in since the boundary last moved is in turn at it with all of its block behind it |
| DispatchQueue.OrderedSince | linux-2.6.35.4/block/elevator.c:413-449 | if the boundary has not moved since the first request behind the last stop came in, all behind it is in one-way elevator order at it, block by block, at one sector by arrival |
| DispatchQueue.SeenHeadMoves | linux-2.6.35.4/block/blk-core.c:1811-1814 | a run of five steps: the driver sees a read, and a write sorted in at the boundary so moved leaves a queue that is in elevator order at no boundary |
| DispatchQueue.MoveKeeps | linux-2.6.35.4/block/blk-core.c:1811-1814 | a move of the boundary leaves a queue in order if and only if no block of one kind holds both a request that starts between the two boundaries and one that does not |
| DispatchQueue.BoundaryStays | linux-2.6.35.4/block/blk-core.c:1811-1814 | after every run: while a barrier, or a request put at the end, that was named for the boundary is on the queue, the boundary is at its end; then the next request the driver sees takes it to its own end |
| DispatchQueue.BarrierNamed | linux-2.6.35.4/block/elevator.c:709-744 | a barrier moves the boundary to its end before the scheduler is drained, so what is drained is sorted at it |
| DispatchQueue.NothingPasses | linux-2.6.35.4/block/elevator.c:413-471 | nothing dispatched and no barrier passes a stop: what stands up to the last stop stays as it is |
| DispatchQueue.DispatchList.Sort | linux-2.6.35.4/block/elevator.c:413-449 | elv_dispatch_sort in place is the step of the run |
| DispatchQueue.DispatchList.AddTail | linux-2.6.35.4/block/elevator.c:456-471 | and so is elv_dispatch_add_tail, which moves the boundary and names its request |
| DispatchQueue.DispatchList.AddBarrier | linux-2.6.35.4/block/elevator.c:709-744 | and a barrier: the boundary moves first, then the scheduler is drained, then it goes to the back |
| DispatchQueue.DispatchList.PeekHead | linux-2.6.35.4/block/blk-core.c:1791-1814 | and a look at the head: it is marked started, and the boundary moves to its end if no request is named, or this one |
| MergeHash.RqHash.Insert | linux-2.6.35.4/block/elevator.c:646-654 | a sorted request enters the hash if and only if it is mergeable |
| MergeHash.RqHash.Add | linux-2.6.35.4/block/elevator.c:316-322 | adding the one missing request makes the hash complete |
| MergeHash.RqHash.Del | linux-2.6.35.4/block/elevator.c:305-308 | deleting takes out that request and no other |
| MergeHash.RqHash.Reposition | linux-2.6.35.4/block/elevator.c:324-328 | a request whose end moved is found under its new end |
| MergeHash.RqHash.Leave | linux-2.6.35.4/block/elevator.c:310-314 | a request that leaves the scheduler leaves the hash |
| MergeHash.RqHash.Find | linux-2.6.35.4/block/elevator.c:330-350 | finds a mergeable request ending at the sector if and only if there is one, dropping unmergeable ones on the way |
| Lanes.FindPlace | linux-2.6.35.4/block/elevator.c:356-377 | how many requests start before a sector, and which starts there |
| Lanes.OneAlias | linux-2.6.35.4/block/deadline-iosched.c:76-84 | once the request at a sector is out, no other starts there |
| Lanes.LatterAbove | linux-2.6.35.4/block/deadline-iosched.c:206-222 | the next request in sector order is the one of least sector above, if there is any |
| Lanes.TakePlaceOk | linux-2.6.35.4/block/deadline-iosched.c:170-189 | taking the place and the expiry of an absorbed request keeps the FIFO sorted |
| DeadlineSteps.SortedIn | linux-2.6.35.4/block/deadline-iosched.c:76-84 | sorting in: exactly the request at the same sector leaves, to the dispatch queue, the next request moves on behind it, both lists stay in their order and nothing else changes |
| Deadline.DeadlineQueue.AddRb | linux-2.6.35.4/block/deadline-iosched.c:76-84 | the loop in place does that |
| Deadline.DeadlineQueue.AddRequest | linux-2.6.35.4/block/deadline-iosched.c:100-113 | adding is the step of the run: sorted in, last in the FIFO with its expiry |
| Deadline.DeadlineQueue.MergedRequest | linux-2.6.35.4/block/deadline-iosched.c:156-168 | a front merge is the step of the run: off the sorted list and in at its new sector |
| DeadlineSteps.MergeOk | linux-2.6.35.4/block/deadline-iosched.c:170-189 | the absorbed request is gone from both lists, the other has the earlier expiry, both lists still agree, and if the absorbed one was next the one above it is |
| Deadline.DeadlineQueue.MergedRequests | linux-2.6.35.4/block/deadline-iosched.c:170-189 | the code in place does that |
| Deadline.DeadlineQueue.MoveRequest | linux-2.6.35.4/block/deadline-iosched.c:206-222 | a request leaves both lists for the dispatch queue and the next one is set in its direction only |
| DeadlineSteps.FindPicks | linux-2.6.35.4/block/deadline-iosched.c:228-239 | checking the head of the FIFO decides for all: the longest waiting if any has expired, else the next in sector order |
| DeadlineSteps.DispatchPicks | linux-2.6.35.4/block/deadline-iosched.c:245-327 | nothing is taken if and only if nothing is queued, and then nothing changes but the log; otherwise exactly one request moves: the next of a running batch, which goes on while it is below fifo_batch, or the one to start with, of writes if and only if no reads wait or writes do and starved has reached writes_starved; the next request becomes the one of least sector above |
| DeadlineSteps.TurnsAreTaken | linux-2.6.35.4/block/deadline-iosched.c:245-327 | over every run of arrivals, merges, ticks and dispatches, of every dispatch: a request goes out if and only if one waits; a batch that is started is one of writes if and only if no reads wait, or writes do and writes_starved batches of reads have been started past them; a batch goes on if and only if there is a next request and it has had fewer than fifo_batch |
| DeadlineSteps.NobodyStarves | linux-2.6.35.4/block/deadline-iosched.c:245-327 | over every run: among any (writes_starved + 1) * max(1, fifo_batch) + 1 dispatches in a row that find writes waiting one takes a write, and if writes_starved is not 0, among any 2 * max(1, fifo_batch) + 1 that find reads waiting one takes a read |
| DeadlineSteps.ReadsStarve | linux-2.6.35.4/block/deadline-iosched.c:267-290 | with writes_starved 0 there is for every n a run that passes over a waiting read n times in a row |
| DeadlineLog.RulesBound | linux-2.6.35.4/block/deadline-iosched.c:245-327 | what bounds the wait of either direction is only those rules |
| DeadlineSteps.AddsLast | linux-2.6.35.4/block/deadline-iosched.c:100-113 | a request that comes in is the last of its FIFO and expires its own time from now; only what was at its sector leaves |
| DeadlineLog.BoundedCall | linux-2.6.35.4/block/deadline-iosched.c:245-327 | a call that passes a direction over uses up its batch or its starvation count, so the streak of such calls stays bounded |
| Deadline.DeadlineQueue.DispatchRequests | linux-2.6.35.4/block/deadline-iosched.c:245-327 | the code in place, with its post-increment of starved, is that step |
| Deadline.DeadlineQueue.Drain | linux-2.6.35.4/block/elevator.c:570-582 | draining ends with nr_sorted 0 and the dispatch queue holds exactly what was queued or dispatched before, each as often |
| DeadlineSteps.StepOk | linux-2.6.35.4/block/deadline-iosched.c:76-327 | every step keeps both indexes in agreement, one next request at most, nr_sorted, and the rules of turns, with starved and batching what the log of calls says |
| DeadlineSteps.NothingLost | linux-2.6.35.4/block/deadline-iosched.c:76-327 | over every run: what is queued or dispatched, with what merges absorbed, is what arrived, each as often |
| RequestPool.Thresholds | linux-2.6.35.4/block/blk-core.c:79-92 | the thresholds are ordered and within the limit |
| RequestPool.CongestionRange | linux-2.6.35.4/block/blk-core.c:79-92 | congested from an eighth of the limit below it on, and no more from an eighth and a sixteenth below it |
| RequestPool.TryDecides | linux-2.6.35.4/block/blk-core.c:746-796 | an attempt succeeds if and only if the scheduler, the full flag with its exemptions and the hard limit allow it; the flags follow the count, and a failure leaves something to wait for |
| RequestPool.RequestList.GetRequest | linux-2.6.35.4/block/blk-core.c:746-796 | the in-place attempt is the step of the run and answers as the attempt decides; a caller that waits goes to sleep if it fails |
| RequestPool.RequestList.FreedRequest | linux-2.6.35.4/block/blk-core.c:708-739 | freeing is the step of the run: a sleeper is woken if the count has come below the limit, and in the other direction only if it is starved |
| RequestPool.FreeWakes | linux-2.6.35.4/block/blk-core.c:708-739 | a request freed wakes one sleeper of its direction if and only if there is one and the count comes below the limit, and one of the other direction if and only if there is one and it is starved |
| RequestPool.FailureWakes | linux-2.6.35.4/block/blk-core.c:798-821 | so does an allocation that fails, and a direction left without requests is starved |
| RequestPool.FreesWake | linux-2.6.35.4/block/blk-core.c:691-739 | k requests that come back wake as many sleepers as there are, but one fewer for each by which the count was above the limit |
| RequestPool.Forsaken | linux-2.6.35.4/block/blk-core.c:798-821 | an allocation that fails on an idle queue leaves a sleeper whom only a newcomer or a new limit wakes |
| RequestPool.RequestList.Allocated | linux-2.6.35.4/block/blk-core.c:798-821 | a failed allocation is freed again, marks a direction without requests as starved, and puts one who waits to sleep, as the step of the run does |
| RequestPool.RequestList.Retry | linux-2.6.35.4/block/blk-core.c:851-888 | a woken process gets a request, still to be allocated, or sleeps again, by the step of the run |
| RequestPool.RequestList.Resize | linux-2.6.35.4/block/blk-sysfs.c:39-82 | a resize settles the flags for the new limit and wakes a sleeper in each direction with room, by the step of the run |
| RequestPool.LimitWakes | linux-2.6.35.4/block/blk-sysfs.c:39-82 | a new limit wakes one sleeper in each direction that has one and has room |
| RequestPool.StepOk | linux-2.6.35.4/block/blk-core.c:708-888 | every step (a first attempt, the allocation's answer, a free, a retry, a resize) keeps the invariant of both directions |
| RequestPool.NobodyLost | linux-2.6.35.4/block/blk-core.c:708-888 | over every run, in each direction: full if and only if count reaches nr_requests, congested between the thresholds, starved only without requests, every sleeper has a request to wait for or a wake-up or its direction is starved, and those who began to wait are exactly those served, asleep, woken, or with an allocation under way |
| CfqChoose.TotalOrder | linux-2.6.35.4/block/cfq-iosched.c:631-717 | the order behind cfq_choose_req is total, transitive and antisymmetric |
| CfqChoose.ChoosesBest | linux-2.6.35.4/block/cfq-iosched.c:631-717 | cfq_choose_req answers the better of its two requests |
| CfqChoose.ChoosesByKind | linux-2.6.35.4/block/cfq-iosched.c:641-653 | whichever comes first: a request over none, sync over async, then metadata over other data |
| CfqChoose.ChoosesBySector | linux-2.6.35.4/block/cfq-iosched.c:654-717 | of two requests alike in that, whichever comes first: both ahead of the head, the nearer; both behind by at most back_max, the nearer; one ahead and one behind, the one behind if and only if its distance times the penalty is less; one further behind only against another such, the lower |
| CfqChoose.FindsBest | linux-2.6.35.4/block/cfq-iosched.c:765-787 | in a queue whose requests agree on sync and metadata, looking at two neighbours finds the best of all other requests |
| CfqChoose.BetterNotSeen | linux-2.6.35.4/block/cfq-iosched.c:765-787 | where they do not agree it may miss a better one: a metadata request that is no neighbour |
| CfqChoose.FindsAnother | linux-2.6.35.4/block/cfq-iosched.c:765-787 | there is a next request if and only if there is another one |
| CfqGroups.ScaledBounds | linux-2.6.35.4/block/cfq-iosched.c:504-511 | scaling by weight loses less than one unit to rounding |
| CfqGroups.GroupTree.Add | linux-2.6.35.4/block/cfq-iosched.c:833-859 | a group joins behind the last one, by the step of the run, and the tree stays sorted |
| CfqGroups.JoinsLast | linux-2.6.35.4/block/cfq-iosched.c:833-859 | a group that joins is behind all others on the tree by the idle delay; on an empty tree it starts at the minimum |
| CfqGroups.GroupTree.Choose | linux-2.6.35.4/block/cfq-iosched.c:2131-2142 | the leftmost group has the least virtual time, as the step of the run asks |
| CfqGroups.MinIsGreatest | linux-2.6.35.4/block/cfq-iosched.c:2131-2142 | over every run: the minimum is the greatest virtual time at which a group was chosen, so who joins an empty tree has no credit |
| CfqGroups.StaysChosen | linux-2.6.35.4/block/cfq-iosched.c:833-883 | the group chosen stays so, at its virtual time, whoever else comes and goes |
| CfqGroups.GroupTree.Served | linux-2.6.35.4/block/cfq-iosched.c:912-929 | only the served group is charged, by its scaled slice, as in the step of the run, and the tree stays sorted |
| CfqGroups.GroupTree.Del | linux-2.6.35.4/block/cfq-iosched.c:861-883 | a group leaves the tree by the step of the run |
| CfqGroups.Shares | linux-2.6.35.4/block/cfq-iosched.c:504-511 | virtual times that stay together mean charged times in proportion to the weights, but for the gap and one unit of rounding a charge |
| CfqGroups.StepOk | linux-2.6.35.4/block/cfq-iosched.c:833-929 | joining, leaving, choosing and charging: until it is charged or leaves, the group chosen has the least virtual time on the tree |
| CfqGroups.GroupsFair | linux-2.6.35.4/block/cfq-iosched.c:912-929 | over every run in which two groups stay on the tree: the gap of their virtual times is at most the larger of the first gap and the largest scaled charge to either, and the slices the run charged them are in proportion to their weights but for twice that gap and a unit of rounding a charge |
| CfqAccounts.EnteredValid | linux-2.6.35.4/block/cfq-iosched.c:833-859 | a queue that enters a tree leaves all counters in agreement |
| CfqAccounts.LeftValid | linux-2.6.35.4/block/cfq-iosched.c:861-883 | a queue that leaves one does too, and the counters were positive |
| CfqAccounts.NoneBusy | linux-2.6.35.4/block/cfq-iosched.c:2269-2285 | with no queue on a tree busy_queues is 0 |
| CfqAccounts.GroupHasQueue | linux-2.6.35.4/block/cfq-iosched.c:1682-1700 | a group on the group tree has a queue on one of its trees |
| CfqQueueing.ServiceTrees.ServiceTreeAdd | linux-2.6.35.4/block/cfq-iosched.c:1137-1246 | a queue ends on the right tree of the right group with every counter moved, whether new, resorted, or moving to or from the root group |
| CfqQueueing.ServiceTrees.AddRr | linux-2.6.35.4/block/cfq-iosched.c:1327-1335 | nr_cfqq is the sum of the seven counts, busy_queues the sum over groups, on the group tree if and only if nr_cfqq is positive, all kept; without isolation a queue that does not idle is then in the root group and one that does in its own, and every queue still knows its own |
| CfqQueueing.ServiceTrees.DelRr | linux-2.6.35.4/block/cfq-iosched.c:1341-1359 | the same for a queue leaving |
| CfqQueueing.ServiceTrees.Resort | linux-2.6.35.4/block/cfq-iosched.c:1312-1321 | the same for a queue sorted anew |
| CfqQueueing.DispatchedOk | linux-2.6.35.4/block/cfq-iosched.c:1474-1491 | next_rq is NULL if and only if the sort list is empty, kept when a request is removed |
| Cfq.DispatchedBest | linux-2.6.35.4/block/cfq-iosched.c:1921-1936 | from a queue of requests of one kind, the next request is then the best of those left, seen from the sector dispatched |
| Cfq.AddTo | linux-2.6.35.4/block/cfq-iosched.c:1387-1418 | the requests at the same sector go out, the new one is in its place, the next request is chosen between it and the old one; none is lost or doubled |
| Cfq.AddedOk | linux-2.6.35.4/block/cfq-iosched.c:1387-1418 | the list stays sorted by sector, next_rq is on it, and it lost exactly what went out |
| Cfq.AddedNext | linux-2.6.35.4/block/cfq-iosched.c:1405-1410 | the next request is the better, seen from the head, of the new one and the one that was next, or of the new one and what was found for a request at its sector |
| Cfq.CfqData.AddRq | linux-2.6.35.4/block/cfq-iosched.c:3277-3292 | queued and dispatched requests together gain exactly the new one, and its queue is on the round robin |
| Cfq.CfqData.Reposition | linux-2.6.35.4/block/cfq-iosched.c:1420-1430 | after a front merge the request is at its new sector, only requests that were there go out, and no request is lost or doubled |
| Cfq.CfqData.Merged | linux-2.6.35.4/block/cfq-iosched.c:1525-1544 | exactly the absorbed request is gone, and the one it was merged into is next in its place if it was next |
| Cfq.CfqData.DispatchInsert | linux-2.6.35.4/block/cfq-iosched.c:1921-1936 | a request moves from its queue to the dispatch list, counted once |
| Cfq.CfqData.Activate | linux-2.6.35.4/block/cfq-iosched.c:1453-1462 | the head is at the end of the request that went to the driver |
| Cfq.CfqData.SetActive | linux-2.6.35.4/block/cfq-iosched.c:1577-1600 | a queue on the round robin becomes the active one |
| Cfq.CfqData.SliceExpired | linux-2.6.35.4/block/cfq-iosched.c:1605-1651 | only the active queue may be busy without requests: an empty queue leaves the round robin, another stays |
| Cfq.CfqData.DispatchNext | linux-2.6.35.4/block/cfq-iosched.c:2377-2406 | the expired head of the FIFO if there is one, else the active queue's next request is dispatched; no other queue changes and no request is lost |
| Cfq.CfqData.ForcedQueue | linux-2.6.35.4/block/cfq-iosched.c:2249-2263 | all requests of a queue go out and it leaves the round robin |
| Cfq.CfqData.ForcedDispatch | linux-2.6.35.4/block/cfq-iosched.c:2269-2285 | terminates with rq_queued and busy_queues 0 and every queued request on the dispatch list exactly once |

## Left out

- Barriers: the order in which a tag-ordered device takes the stages, because that is the device's work; the FUA variant of a mode, which only changes a command flag; special requests that carry REQ_HARDBARRIER; front insertion of file system requests, which no caller does.
- Barriers: insertion at the back drains the scheduler first; the model lets such an insertion happen only once the scheduler is empty and lets the draining steps happen at any time before, which allows more interleavings than the code.
- Barriers: a bit mask is a set of bit positions, a flag set on a request is membership in a set, and the log, the epochs and the counters of ended barriers are history that no step reads.
- Camellia: an array element is one 64-bit half, so big-endian loads and stores are not modelled, and a 192-bit key comes as its two parts. S-boxes are parameters, so no table is checked against the RFC.
- Merging: bios without data, discards (which attempt_merge does not tell apart), partial completion of a barrier's proxy, bouncing, and the padding and drain entries that blk_rq_map_sg adds after its pass; `target` stands for disk, direction and integrity; last_merge, plugging, priorities, cpus and statistics.
- FsRequest.Request.Update: in-flight accounting, and requests that are not file system requests.
- Spawns: reference counts, notifications and the template lock.
- RemoveSpawns.Registry.Remove: the spawns have no cycle, as an instance is built on algorithms that are there before it.
- DispatchQueue: elv_abort_queue, which takes every head; merges into a request that is on the dispatch queue, which the elevator never proposes.
- Deadline: jiffies do not wrap; last_sector, which nothing reads; changing a tunable while requests are queued; the red-black trees are sorted sequences.
- MergeHash: the hash function is arbitrary, and bucket chains are sequences.
- RequestPool: ioc_batching and elv_may_queue are arbitrary answers; elvpriv, switching schedulers and freeing the last request of a dying queue.
- CFQ: idle timers, think time, seek history, cooperating queues, prio_trees, the order of a queue's FIFO (its expired head is a parameter) and the BUG_ON that a forced dispatch leaves it empty, reference counts, the count field of the group tree, total_weight, and the order of queues inside one service tree; which queue of a tree goes next is arbitrary.
- CfqGroups.GroupsFair: weights are fixed and a queue does not change its group during a slice; the hand-off to a close cooperator that skips the choice of a group is excluded.
- Locks, RCU, memory allocation, tracing and per-cpu statistics; ioctls, sysfs other than nr_requests, the other schedulers, timeouts, tagging and softirq completion.
