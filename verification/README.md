# Verification models of the Linux 2.6.24 block layer and crypto code

This project models the parts of a Linux 2.6.24 tree whose correctness is least obvious from
the code, and proves what they promise.  It is written in Dafny 4.11; `dafny verify
dfyconfig.toml` checks all of it.

The block layer (`block/`):

- the write-barrier protocol: `Ordered.dfy` is the protocol as a state machine,
  `OrderedInvariant.dfy` its invariant, `OrderedSafety.dfy` what holds over whole runs,
  `OrderedFlush.dfy` which flushes take place in them, `OrderedStuck.dfy` and
  `OrderedExact.dfy` what it depends on and how it fails without, `OrderedQueue.dfy` the
  request queue itself;
- the schedulers: `AsCache.dfy` and `AsScheduler.dfy` (anticipatory), `CfqTree.dfy`,
  `CfqQueue.dfy` and `Cfq.dfy` (CFQ), `DeadlineLane.dfy` and `Deadline.dfy`, all over
  `SortedList.dfy`;
- the generic code: `DispatchOrder.dfy` (dispatch sorting), `MergeHash.dfy` and `Merging.dfy`
  (merging), `ScatterList.dfy` (segments), `Completion.dfy` (partial completion).

The crypto code (`crypto/`), where a fast form has to equal a simple definition:

- `Camellia.dfy` and `CamelliaCode.dfy`: the key schedule with absorbed whitening keys;
- `Gf128.dfy`, `Gf128Tables.dfy` and `Gf128Mul.dfy`: table multiplication in GF(2^128), and
  `Lrw.dfy`: the incremental tweak of LRW;
- `Cbc.dfy`, `AlgName.dfy` (names of algorithm instances) and `Md5.dfy`.

`Common.dfy`, `Bits.dfy` and `Pieces.dfy` hold what several of them use.

How the models are built.  Each entry point that runs under the queue lock is one atomic
step.  Clocks, timers, heuristics, comparison keys and limits of a device are inputs, so that
a statement holds for all of their answers.  Red-black trees are ascending sequences; only the
CFQ service tree, whose shape matters, is a tree, and its rebalancing is any function that
keeps the order of the nodes.  Queued requests of one direction are identified by their start
sector, the key of their tree.  Words are sequences of bits, most significant bit first, and
S-boxes, child ciphers, hash functions and transforms are arbitrary functions.  A claim about
every run is either a lemma about all runs of a state machine or an invariant that the
constructor of a class establishes and every one of its methods keeps.  Predicates that are
folded behind `Open` unfold only where a proof mentions it.

What the models found out about the code:

- The barrier protocol depends on three things that its code does not check.  With all of them
  no run hangs and no barrier overtakes an earlier request; without any one there is a run that
  hangs and a run that overtakes (`OrderedExact.SafeIffCareful`, `OrderedExact.LiveIffCareful`):
  - A request that is not a file-system request but carries REQ_HARDBARRIER toggles the colour
    bit without starting a sequence (drivers/block/pktcdvd.c submits such requests).  That is
    harmless while no file-system request is outstanding.
  - elv_drain_elevator must have emptied the scheduler when a barrier is queued; other back
    insertions need not wait for it.
  - No barrier may be queued in mode QUEUE_ORDERED_NONE: blk_queue_ordered must not switch to it
    with a barrier queued (drivers/ide/ide-disk.c switches on a cache toggle), and a bio that
    sleeps in get_request_wait must not be queued after a switch.  The arm of blk_do_ordered for
    that case ends the barrier before earlier requests.  Any other change of the mode between
    draining modes is harmless, even in the middle of a sequence.
- In the anticipatory scheduler a front merge can make a request start where another one does.
  The other one is then dispatched, and next_rq is looked up while the moved request is out of
  the tree.  If there is no third request, next_rq stays empty though one is queued
  (`AsCache.AliasDefeatsCache`); `AsScheduler.AsData.IndexesAgree` proves that this is the
  only way.  A forced drain empties a direction if and only if its cache is not in that state
  (`AsScheduler.AsData.ForcedDispatch`), and a barrier that is queued behind a drain that left a
  request behind overtakes it: `OrderedExact.LeftBehindOvertaken`.
- The next-request cache is optimal after a dispatch if and only if `AsCache.SeesBest` holds,
  which it does whenever requests do not overlap (`AsCache.DispatchCache`, `AsCache.ApartSeen`).
  `AsCache.FrontMergeCache` says exactly which front merges keep it so.
- LRW leaves the counter of the last block behind, not that of the next one.
- `setbit128_bbe` sets the coefficient that it is asked for if and only if words are stored with
  the least significant byte first (`Lrw.SetBitIffLittle`).
- In partial completion sectors are rounded down on every call.  Completing a and then b bytes
  leaves the same vectors as completing a + b bytes, but the start sector of the bio is the same
  if and only if the odd bytes of both calls do not add up to a sector in it
  (`Completion.CompleteTwice`), and that of the request if and only if
  `Completion.HardSectorTwice` says so.  `Completion.OddBytesLag` is an input that differs.

## Model

| member | source | states |
|---|---|---|
| `OrderedSafety.BarrierAfterEarlier` | linux-2.6.24-2.4.2-base/block/ll_rw_blk.c:417-518 | in every run with draining and any changes of the mode, when the proxy barrier is in the driver's hands the original is a submitted hard barrier, and every file-system request submitted before it has ended |
| `OrderedSafety.NothingPassesABarrier` | linux-2.6.24-2.4.2-base/block/ll_rw_blk.c:471-518 | in every run, while a barrier has not ended, every file-system request that is handed out was submitted before it |
| `OrderedSafety.EndsInBarrierOrder` | linux-2.6.24-2.4.2-base/block/elevator.c:856-882 | in every run, a file-system request was submitted before an ended barrier if and only if it ended before it |
| `OrderedSafety.ExactlyOnePlace` | linux-2.6.24-2.4.2-base/block/elevator.c:776-882 | in every run, each submitted request is in exactly one of scheduler, queue, driver, sequence or done, and ends at most once; so the original barrier is completed exactly once |
| `OrderedSafety.PhasesInOrder` | linux-2.6.24-2.4.2-base/block/ll_rw_blk.c:347-373 | in every run, a proxy in the driver's hands stands for the current phase: every phase completes once and in order, and the BUG_ON of line 355 cannot be reached |
| `OrderedSafety.DrainLooksAtAQueue` | linux-2.6.24-2.4.2-base/block/elevator.c:856-882 | in every run, the queue holds the barrier proxy while draining, so the look at its first entry in elv_completed_request finds one |
| `OrderedSafety.NoDeadlock` | linux-2.6.24-2.4.2-base/block/ll_rw_blk.c:471-518 | in every run, when the driver holds nothing and something is queued or a sequence is active, blk_do_ordered hands out a request |
| `OrderedFlush.FlushedAsAsked` | linux-2.6.24-2.4.2-base/block/ll_rw_blk.c:417-469 | in every run, with any changes of the mode, what is seen of barriers and proxies is one script after another: the sequence of the n-th barrier begins, a pre-flush ends if the mode it began with has one, the barrier proxy ends, a post-flush ends if that mode has one and the barrier has data, the barrier ends; and of the last one a beginning |
| `OrderedFlush.ProxiesInTurn` | linux-2.6.24-2.4.2-base/block/ll_rw_blk.c:347-415 | in every run, when a flush or the barrier proxy is shown to the driver or ends, the mode of the running sequence asks for it, the step before it in the script is the last thing that happened, and every file-system request submitted before the barrier has ended |
| `OrderedFlush.EndedBarrierFlushed` | linux-2.6.24-2.4.2-base/block/ll_rw_blk.c:417-469 | in every run, a barrier that has ended has its whole script, flushes included, behind it |
| `OrderedSafety.RunInv` | linux-2.6.24-2.4.2-base/block/ll_rw_blk.c:311-518 | the invariant holds after every run of submit, dispatch, peek, dequeue, requeue, end and mode steps |
| `OrderedInvariant.AddInv` | linux-2.6.24-2.4.2-base/block/elevator.c:643-677 | submitting a request in any allowed place keeps the invariant; a special hard barrier does while no fs request is outstanding |
| `OrderedInvariant.DispatchInv` | linux-2.6.24-2.4.2-base/block/elevator.c:396-429 | the scheduler may move a request to any place of the queue that does not pass a barrier |
| `OrderedInvariant.DequeueInv` | linux-2.6.24-2.4.2-base/block/elevator.c:776-790 | taking a request off the queue keeps the invariant |
| `OrderedInvariant.RequeueInv` | linux-2.6.24-2.4.2-base/block/elevator.c:598-626 | a requeued request or proxy goes back to a place that keeps the order of the phases |
| `OrderedInvariant.RequeueMayPutBack` | linux-2.6.24-2.4.2-base/block/elevator.c:598-626 | the scan by blk_ordered_req_seq stops at a place where no tracked request is skipped |
| `OrderedInvariant.EndInv` | linux-2.6.24-2.4.2-base/block/elevator.c:856-882 | ending a request, a proxy or the last drained request keeps the invariant |
| `OrderedInvariant.FirstTracked` | linux-2.6.24-2.4.2-base/block/ll_rw_blk.c:318-345 | one colour bit is enough: in the queue it tells the requests of this sequence from those of the next |
| `OrderedInvariant.HeadActive` | linux-2.6.24-2.4.2-base/block/ll_rw_blk.c:471-518 | with an active sequence the first entry is never an fs request of a later barrier, so the WARN_ON of line 512 is quiet |
| `OrderedInvariant.StartInv` | linux-2.6.24-2.4.2-base/block/ll_rw_blk.c:417-469 | start_ordered replaces the barrier by the proxies of its mode and keeps the invariant |
| `OrderedInvariant.PeekIdleInv` | linux-2.6.24-2.4.2-base/block/ll_rw_blk.c:471-518 | blk_do_ordered without an active sequence keeps the invariant, for every draining mode |
| `OrderedInvariant.PeekActiveInv` | linux-2.6.24-2.4.2-base/block/ll_rw_blk.c:471-518 | blk_do_ordered with an active sequence keeps the invariant |
| `OrderedInvariant.ModeInv` | linux-2.6.24-2.4.2-base/block/ll_rw_blk.c:279-302 | blk_queue_ordered keeps the invariant for any mode without tags, at any time, unless it is NONE and a barrier is queued |
| `OrderedStuck.StuckHangs` | linux-2.6.24-2.4.2-base/block/ll_rw_blk.c:501-514 | with the write that the drain waits for behind the barrier, an idle driver is given nothing |
| `OrderedStuck.StuckOvertakes` | linux-2.6.24-2.4.2-base/block/elevator.c:856-882 | one special request later the barrier is handed out before that write |
| `OrderedExact.SpecialBarrierSticks` | linux-2.6.24-2.4.2-base/block/elevator.c:643-677 | a special hard barrier that toggles the colour while a write is out leads there |
| `OrderedExact.LeftBehindOvertaken` | linux-2.6.24-2.4.2-base/block/elevator.c:531-566 | if forced dispatch leaves a write in the scheduler, a barrier queued next is handed out before it |
| `OrderedExact.LeftBehindSticks` | linux-2.6.24-2.4.2-base/block/elevator.c:531-566 | and the next barrier hangs on that write |
| `OrderedExact.SwitchedEnds` | linux-2.6.24-2.4.2-base/block/ll_rw_blk.c:478-491 | a switch to NONE with a barrier queued ends the barrier before a write that was submitted earlier |
| `OrderedExact.SwitchedSticks` | linux-2.6.24-2.4.2-base/block/ll_rw_blk.c:279-302 | and, after a switch back, the next barrier hangs on that write |
| `OrderedExact.SafeIffCareful` | linux-2.6.24-2.4.2-base/block/ll_rw_blk.c:311-518 | over all runs, a barrier never overtakes an earlier request if and only if special hard barriers come only while no fs request is outstanding, the scheduler is empty when a barrier is queued, and no barrier is queued in mode NONE |
| `OrderedExact.LiveIffCareful` | linux-2.6.24-2.4.2-base/block/ll_rw_blk.c:471-518 | over all runs, an idle driver is always given a request while something is queued or a sequence runs, under exactly the same condition |
| `OrderedQueue.RequestQueue.constructor` | linux-2.6.24-2.4.2-base/block/ll_rw_blk.c:311-345 | an empty queue is the initial state |
| `OrderedQueue.RequestQueue.QueueOrdered` | linux-2.6.24-2.4.2-base/block/ll_rw_blk.c:279-302 | refuses flushes without a prepare function and a post-flush alone, and sets any other mode |
| `OrderedQueue.RequestQueue.OrderedCompleteSeq` | linux-2.6.24-2.4.2-base/block/ll_rw_blk.c:347-373 | marks a phase; the last one ends the original barrier and the sequence |
| `OrderedQueue.RequestQueue.CompletedRequest` | linux-2.6.24-2.4.2-base/block/elevator.c:856-882 | the in-flight count and the end of draining |
| `OrderedQueue.RequestQueue.EndRequest` | linux-2.6.24-2.4.2-base/block/ll_rw_blk.c:3656-3689 | a request or a proxy ends, with the end_io of its phase |
| `OrderedQueue.RequestQueue.RequeueRequest` | linux-2.6.24-2.4.2-base/block/elevator.c:514-529 | the loop that finds the place of a requeued request refines the specification |
| `OrderedQueue.RequestQueue.RequeuePlace` | linux-2.6.24-2.4.2-base/block/elevator.c:598-626 | the list walk finds the place of the specification: everything before it is of an earlier phase, and what it stops at is not |
| `OrderedQueue.RequestQueue.DequeueRequest` | linux-2.6.24-2.4.2-base/block/elevator.c:776-790 | the request leaves the queue for the driver |
| `OrderedQueue.RequestQueue.StartOrderedSequence` | linux-2.6.24-2.4.2-base/block/ll_rw_blk.c:417-469 | the proxies that the mode asks for replace the barrier |
| `OrderedQueue.RequestQueue.DoOrderedHead` | linux-2.6.24-2.4.2-base/block/ll_rw_blk.c:471-518 | the answer of blk_do_ordered for the first entry, and the new state |
| `OrderedQueue.RequestQueue.PeekHead` | linux-2.6.24-2.4.2-base/block/elevator.c:709-772 | one turn of elv_next_request, with the empty barrier ended on the spot |
| `OrderedQueue.RequestQueue.DispatchRequest` | linux-2.6.24-2.4.2-base/block/elevator.c:396-429 | the backward scan, for any tests of direction and sector, stops at a place that the protocol allows, and passes nothing that stops it |
| `OrderedQueue.SortLands` | linux-2.6.24-2.4.2-base/block/elevator.c:396-429 | the tests of elv_dispatch_sort on flags, direction and sector only let it pass requests that a dispatch step of the protocol may pass |
| `OrderedQueue.RequestQueue.DrainElevator` | linux-2.6.24-2.4.2-base/block/elevator.c:531-543 | a run of dispatch steps that goes on until the scheduler is empty or has nothing more to give |
| `OrderedQueue.RequestQueue.AddRequest` | linux-2.6.24-2.4.2-base/block/elevator.c:643-677 | colour, flags and place of a new request, whether or not the scheduler is empty |
| `OrderedQueue.RequestQueue.NextRequest` | linux-2.6.24-2.4.2-base/block/elevator.c:709-772 | the whole call, with prep_rq_fn deferring or killing requests, terminates and is a run of the protocol; what it returns may be given, and it returns nothing to an idle driver only if a request is deferred or nothing is queued |
| `OrderedQueue.PeekWork` | linux-2.6.24-2.4.2-base/block/elevator.c:709-772 | a turn never adds work, although one barrier can become three requests, and takes some away unless it gives or holds a request |
| `Camellia.LookupIsF` | linux-2.6.24-2.4.2-base/crypto/camellia.c:186-200 | the table lookups and the last half of P of CAMELLIA_ROUNDSM are the F function of section 2.4.1 of RFC 3713, for any S-boxes |
| `Camellia.FlInvFl` | linux-2.6.24-2.4.2-base/crypto/camellia.c:170-184 | FL and its inverse undo each other, for every key |
| `Camellia.FlMove` | linux-2.6.24-2.4.2-base/crypto/camellia.c:170-184 | a difference moved through FL comes out as the plain difference |
| `Camellia.MoveLinear` | linux-2.6.24-2.4.2-base/crypto/camellia.c:585-640 | moving key bits through the FL layer is linear |
| `Camellia.GroupsEqual` | linux-2.6.24-2.4.2-base/crypto/camellia.c:1214-1314 | the rounds and FL layers on differences of subkeys are those on the subkeys, up to the absorbed whitening keys |
| `Camellia.FastEncryptIsEncrypt` | linux-2.6.24-2.4.2-base/crypto/camellia.c:1214-1314 | with absorbed subkeys the optimised form is the plain cipher of section 2.3.1 of RFC 3713, for every round function, key and block |
| `Camellia.GroupsInverse` | linux-2.6.24-2.4.2-base/crypto/camellia.c:1316-1416 | the groups run backwards on the reversed table undo the groups |
| `Camellia.FastDecryptInverts` | linux-2.6.24-2.4.2-base/crypto/camellia.c:1316-1416 | decryption undoes encryption for every subkey table and block |
| `CamelliaCode.RolDq` | linux-2.6.24-2.4.2-base/crypto/camellia.c:494-534 | the rotation by up to 32 bits on four words is the rotation of the 128-bit key |
| `CamelliaCode.RolDqO32` | linux-2.6.24-2.4.2-base/crypto/camellia.c:494-534 | and so is the rotation by 32 to 64 bits |
| `CamelliaCode.FCode` | linux-2.6.24-2.4.2-base/crypto/camellia.c:146-168 | CAMELLIA_F is the F function of the input xored with the key |
| `CamelliaCode.GenerateKA` | linux-2.6.24-2.4.2-base/crypto/camellia.c:536-554 | KA as in section 2.2 of RFC 3713 |
| `CamelliaCode.Subkeys` | linux-2.6.24-2.4.2-base/crypto/camellia.c:494-582 | the 26 subkeys of section 2.2 of RFC 3713 |
| `CamelliaCode.AbsorbWhitening` | linux-2.6.24-2.4.2-base/crypto/camellia.c:585-640 | the whitening keys are absorbed into the round keys |
| `CamelliaCode.KeysBehindF` | linux-2.6.24-2.4.2-base/crypto/camellia.c:643-703 | the key xors are moved behind F and through the FL layers |
| `CamelliaCode.BehindFDifferences` | linux-2.6.24-2.4.2-base/crypto/camellia.c:585-703 | what is left are the differences that the optimised form needs |
| `CamelliaCode.InverseLastHalf` | linux-2.6.24-2.4.2-base/crypto/camellia.c:705-777 | the inverse of the last half of P, for the table |
| `CamelliaCode.Setup128` | linux-2.6.24-2.4.2-base/crypto/camellia.c:479-780 | the stored table is the absorbed form of the RFC key schedule, for every key and any S-boxes |
| `CamelliaCode.RoundSm` | linux-2.6.24-2.4.2-base/crypto/camellia.c:186-200 | one round with the key added behind the lookups |
| `CamelliaCode.Fls` | linux-2.6.24-2.4.2-base/crypto/camellia.c:170-184 | the FL layer |
| `CamelliaCode.MainIteration` | linux-2.6.24-2.4.2-base/crypto/camellia.c:1224-1300 | eighteen rounds and two FL layers |
| `CamelliaCode.Encrypt128` | linux-2.6.24-2.4.2-base/crypto/camellia.c:1214-1314 | camellia_encrypt128 computes the optimised form in place |
| `CamelliaCode.Decrypt128` | linux-2.6.24-2.4.2-base/crypto/camellia.c:1316-1416 | camellia_decrypt128 computes its inverse in place |
| `CamelliaCode.Camellia128` | linux-2.6.24-2.4.2-base/crypto/camellia.c:479-780 | on the table that setup leaves, encryption is RFC 3713 and decryption undoes it |
| `Gf128.MulXor` | linux-2.6.24-2.4.2-base/crypto/gf128mul.c:102-117 | the product is linear in its first factor |
| `Gf128.XdaIsR` | linux-2.6.24-2.4.2-base/crypto/gf128mul.c:102-117 | the constants of the reduction tables are the multiples of x^7 + x^2 + x + 1, in both bit orders |
| `Gf128.X1IsMulX` | linux-2.6.24-2.4.2-base/crypto/gf128mul.c:125-143 | gf128mul_x multiplies by x modulo the polynomial |
| `Gf128.X8IsMulX8` | linux-2.6.24-2.4.2-base/crypto/gf128mul.c:156-174 | gf128mul_x8 multiplies by x^8 |
| `Gf128Tables.Init4k` | linux-2.6.24-2.4.2-base/crypto/gf128mul.c:402-443 | every entry of the 4k table is the product of its index byte with g |
| `Gf128Tables.FillSums` | linux-2.6.24-2.4.2-base/crypto/gf128mul.c:415-417 | the nested loops complete a table from its powers of two |
| `Gf128Tables.NextTable` | linux-2.6.24-2.4.2-base/crypto/gf128mul.c:294-300 | the next table of the 64k form is that of x^8 g |
| `Gf128Mul.Init64k` | linux-2.6.24-2.4.2-base/crypto/gf128mul.c:266-347 | the sixteen tables are those of g, x^8 g, ... x^120 g |
| `Gf128Mul.Mul64k` | linux-2.6.24-2.4.2-base/crypto/gf128mul.c:360-383 | sixteen lookups give the bitwise product of a and g, in lle (the block product of section 6.3 of NIST SP 800-38D) and bbe order |
| `Gf128Mul.Mul4k` | linux-2.6.24-2.4.2-base/crypto/gf128mul.c:446-473 | Horner's scheme on the 4k table gives the same product |
| `Gf128Mul.HornerStep` | linux-2.6.24-2.4.2-base/crypto/gf128mul.c:453-456 | the invariant of Horner's scheme in x^8 |
| `Lrw.IncIsRipple` | linux-2.6.24-2.4.2-base/crypto/lrw.c:92-96 | the carry between the two 64-bit halves makes inc the increment of the 128-bit counter |
| `Lrw.RoundUsesTweak` | linux-2.6.24-2.4.2-base/crypto/lrw.c:98-103 | the tweak is added before and after the child cipher: what comes out, with the tweak added, is the cipher of what goes in with it added |
| `Lrw.LrwRound` | linux-2.6.24-2.4.2-base/crypto/lrw.c:98-103 | the three steps of lrw_round do that, in place or not, to one block and no other |
| `Lrw.GetIndex128` | linux-2.6.24-2.4.2-base/crypto/lrw.c:107-122 | the number of trailing ones, 128 if all are |
| `Lrw.RippleFlips` | linux-2.6.24-2.4.2-base/crypto/lrw.c:107-122 | an increment flips exactly the trailing ones and the next bit |
| `Lrw.CounterHasZero` | linux-2.6.24-2.4.2-base/crypto/lrw.c:107-122 | the index is inside mulinc if and only if the counter can still be incremented |
| `Lrw.TweakStep` | linux-2.6.24-2.4.2-base/crypto/lrw.c:157-160 | one xor with mulinc takes (IV + n) * Key2 to (IV + n + 1) * Key2 |
| `Lrw.SwizzleReverses` | linux-2.6.24-2.4.2-base/crypto/lrw.c:46-49 | the constant 0x78 reverses the sixteen bytes and keeps the bits of a byte |
| `Lrw.SetBitIffLittle` | linux-2.6.24-2.4.2-base/crypto/lrw.c:46-49 | for words of 32 and 64 bits and every i, setbit128_bbe sets the coefficient of x^i if and only if the byte order is little-endian |
| `Lrw.FillMulinc` | linux-2.6.24-2.4.2-base/crypto/lrw.c:76-81 | mulinc[i] is Key2 times the number with i + 1 ones |
| `Lrw.Priv.constructor` | linux-2.6.24-2.4.2-base/crypto/lrw.c:51-84 | on a little-endian machine the table of Key2 and the 128 multiples of mulinc are right |
| `Lrw.Priv.NextTweak` | linux-2.6.24-2.4.2-base/crypto/lrw.c:156-160 | the next tweak and the next counter |
| `Lrw.ModeUsesTweaks` | linux-2.6.24-2.4.2-base/crypto/lrw.c:124-178 | every block n of the mode uses the tweak (IV + n) * Key2 in that way |
| `Lrw.Priv.Crypt` | linux-2.6.24-2.4.2-base/crypto/lrw.c:124-178 | for any split into pieces, in place or not, block n is processed with the tweak (IV + n) * Key2, added before and after the child cipher; the IV left behind is that of the last block |
| `Lrw.ModeInverts` | linux-2.6.24-2.4.2-base/crypto/lrw.c:98-103 | decryption inverts encryption for any invertible child cipher |
| `AsCache.PrefersOrder` | linux-2.6.24-2.4.2-base/block/as-iosched.c:280-348 | as_choose_req is a total order on the requests of a direction |
| `AsCache.PreferMeans` | linux-2.6.24-2.4.2-base/block/as-iosched.c:280-348 | which of two requests that is: one behind the head counts twice its distance if it is at most 1024 * 1024 sectors away, beyond that it loses to any ahead; ahead the nearer wins, near behind the nearer, far behind the lower sector |
| `AsCache.NeighbourIsBest` | linux-2.6.24-2.4.2-base/block/as-iosched.c:355-378 | if the head lies between a request's neighbours, the two-neighbour lookup finds the optimum of all the others |
| `AsCache.RemoveBest` | linux-2.6.24-2.4.2-base/block/as-iosched.c:856-880 | removing the optimum, the lookup finds the optimum of the rest, wrapped or not |
| `AsCache.LookupIsBest` | linux-2.6.24-2.4.2-base/block/as-iosched.c:355-378 | with overlaps or without, the two-neighbour lookup finds the optimum of the others if and only if the head has passed no other request behind, or only the right neighbour and it beats the next, or all are too far behind and the first is a neighbour |
| `AsCache.DispatchCache` | linux-2.6.24-2.4.2-base/block/as-iosched.c:931-975 | whatever the cache was, after the dispatch of any request it is the optimum of the rest if and only if the lookup sees it |
| `AsCache.ApartSeen` | linux-2.6.24-2.4.2-base/block/as-iosched.c:931-975 | it does for every request of a list without overlaps |
| `AsCache.DispatchFinds` | linux-2.6.24-2.4.2-base/block/as-iosched.c:931-975 | after a dispatch next_rq is empty only if nothing is queued |
| `AsCache.DispatchMeans` | linux-2.6.24-2.4.2-base/block/as-iosched.c:931-975 | exactly the dispatched request leaves tree and fifo, and last_sector is its end |
| `AsCache.InsertCache` | linux-2.6.24-2.4.2-base/block/as-iosched.c:748-753 | the pairwise choice keeps the optimum when a request is added |
| `AsCache.InsertMeans` | linux-2.6.24-2.4.2-base/block/as-iosched.c:1144-1170 | the requests and the fifo after an insertion: the old ones, and the new one last |
| `AsCache.RemoveCache` | linux-2.6.24-2.4.2-base/block/as-iosched.c:856-880 | removing any request keeps the optimum |
| `AsCache.RemoveMeans` | linux-2.6.24-2.4.2-base/block/as-iosched.c:856-880 | exactly the request removed leaves tree and fifo; a cache that names another one stays |
| `AsCache.OverlapDefeatsNeighbours` | linux-2.6.24-2.4.2-base/block/as-iosched.c:355-378 | a list with overlaps that fails the condition of LookupIsBest: the lookup misses the optimum |
| `AsCache.FrontMergeOk` | linux-2.6.24-2.4.2-base/block/as-iosched.c:1221-1238 | after any front merge, onto the start of another request or not, tree and fifo hold the same requests; next_rq is empty with one queued if and only if the dispatched alias was the only other request, or there was no alias and it was so before |
| `AsCache.AliasDefeatsCache` | linux-2.6.24-2.4.2-base/block/as-iosched.c:1221-1238 | of any two requests, the second growing to the start of the first leaves a queued request and an empty next_rq |
| `AsCache.FrontMergeCache` | linux-2.6.24-2.4.2-base/block/as-iosched.c:1221-1238 | after any front merge, with or without an alias and whatever the cache was before, it is optimal if and only if what is cached beats the moved request and three others, which stand for all |
| `AsCache.OneDecides` | linux-2.6.24-2.4.2-base/block/as-iosched.c:1221-1238 | if it was optimal before and there is no alias, one comparison decides that |
| `AsCache.FrontMergeDefeatsCache` | linux-2.6.24-2.4.2-base/block/as-iosched.c:1221-1238 | a front merge over the head, to where another request wins, spoils the cache |
| `AsCache.FrontMergeMeans` | linux-2.6.24-2.4.2-base/block/as-iosched.c:1221-1238 | the requests after a front merge: the grown one at its new start, and the others but an alias |
| `AsCache.AbsorbPlace` | linux-2.6.24-2.4.2-base/block/as-iosched.c:1240-1269 | a request that takes over an earlier deadline takes over the place in the fifo too; otherwise the merged one only leaves |
| `AsCache.GrowMeans` | linux-2.6.24-2.4.2-base/block/as-iosched.c:1240-1269 | only the request that grows changes |
| `AsScheduler.AsData.constructor` | linux-2.6.24-2.4.2-base/block/as-iosched.c:1323-1356 | an idle scheduler |
| `AsScheduler.AsData.NeverMixes` | linux-2.6.24-2.4.2-base/block/as-iosched.c:982-1139 | in every run without aliases and forced drains, all requests between dispatch and completion have one direction, that of the batch or, while a change is pending, the other |
| `AsScheduler.AsData.WriteBatchBound` | linux-2.6.24-2.4.2-base/block/as-iosched.c:982-1139 | in every run, while reads are queued an async batch sends at most write_batch_count writes |
| `AsScheduler.AsData.PlanMeans` | linux-2.6.24-2.4.2-base/block/as-iosched.c:1024-1053 | with both directions queued a batch that is late, or has no writes left, ends; it waits exactly if it is a sync batch that may anticipate, with a context and nothing expired or late; it serves the cached request, or the oldest if that has expired, and ends otherwise only if it has no candidate |
| `AsScheduler.AsData.CacheIsOptimal` | linux-2.6.24-2.4.2-base/block/as-iosched.c:748-753 | in every run, from any dispatch whose lookup sees the best or front merge that it survives until the next one that does not, next_rq is the as_choose_req minimum over all requests of its direction, for the current last_sector |
| `AsScheduler.AsData.IndexesAgree` | linux-2.6.24-2.4.2-base/block/as-iosched.c:856-880 | in every run, sort_list and fifo_list hold the same requests and next_rq is one of them; it is empty with at most one queued, and in runs without a front merge onto the start of the only other request exactly if none is |
| `AsScheduler.AsData.MoveToDispatch` | linux-2.6.24-2.4.2-base/block/as-iosched.c:931-975 | the effect on lane, cache, head, context, write count and dispatch count; the cache is optimal again exactly if the lookup sees the best, in particular if requests do not overlap |
| `AsScheduler.AsData.Candidate` | linux-2.6.24-2.4.2-base/block/as-iosched.c:1024-1053 | the decision is that plan, made on the state before; anticipation starts only with a context, and nothing else changes |
| `AsScheduler.AsData.Select` | linux-2.6.24-2.4.2-base/block/as-iosched.c:1018-1112 | which request is chosen: that of the plan, or the oldest of its direction if it is late; the direction changes only with a switch, and the count of writes starts anew with it |
| `AsScheduler.AsData.SwitchBatch` | linux-2.6.24-2.4.2-base/block/as-iosched.c:1055-1106 | the direction of the new batch; the BUG_ONs and the WARN_ON on new_batch cannot be reached |
| `AsScheduler.AsData.Launch` | linux-2.6.24-2.4.2-base/block/as-iosched.c:1108-1138 | a changed batch waits until nothing of the old one is out; then the request leaves, and a write sent while reads are queued is counted |
| `AsScheduler.AsData.DispatchRequest` | linux-2.6.24-2.4.2-base/block/as-iosched.c:982-1139 | a dispatched request has the direction of the batch and is the cached one exactly if the plan takes it and the fifo is not late, else the oldest; a batch that is over changes direction; nothing is sent while the scheduler waits; otherwise nothing moves |
| `AsScheduler.AsData.ForcedDispatch` | linux-2.6.24-2.4.2-base/block/as-iosched.c:990-1016 | a forced drain empties a direction if and only if its next_rq was not empty with a request queued, which then stays |
| `AsScheduler.AsData.AddRequest` | linux-2.6.24-2.4.2-base/block/as-iosched.c:1144-1170 | indexes and cache with a new request; an alias is dispatched first; next_rq is not empty afterwards |
| `AsScheduler.AsData.CompletedRequest` | linux-2.6.24-2.4.2-base/block/as-iosched.c:799-848 | the last request of an old batch ends the change; the WARN_ON on nr_dispatched cannot be reached |
| `AsScheduler.AsData.AnticTimeout` | linux-2.6.24-2.4.2-base/block/as-iosched.c:456-480 | the timer only fires with a context to look at |
| `AsScheduler.AsData.MergedRequests` | linux-2.6.24-2.4.2-base/block/as-iosched.c:1240-1269 | a merged request leaves tree, fifo and cache; next_rq is not lost |
| `AsScheduler.AsData.FrontMerged` | linux-2.6.24-2.4.2-base/block/as-iosched.c:1221-1238 | the request is repositioned and an alias dispatched; exactly when next_rq is lost and when it stays optimal |
| `AsScheduler.AsData.BackMerged` | linux-2.6.24-2.4.2-base/block/ll_rw_blk.c:2994-3011 | a growing request leaves the indexes as they are |
| `ScatterList.GreedyStaysAhead` | linux-2.6.24-2.4.2-base/block/ll_rw_blk.c:1304-1362 | at every vector, the greedy segments are no more than those of any allowed way of cutting, and no longer when as many |
| `ScatterList.EntriesKeepBytes` | linux-2.6.24-2.4.2-base/block/ll_rw_blk.c:1304-1362 | the entries hold every byte of the request |
| `ScatterList.StartsFit` | linux-2.6.24-2.4.2-base/block/ll_rw_blk.c:1191-1261 | in any allowed way of cutting, each segment is one vector or, if clustering is on, consecutive mergeable vectors of at most max_segment_size bytes together |
| `ScatterList.StartsFull` | linux-2.6.24-2.4.2-base/block/ll_rw_blk.c:1191-1261 | if every cut is needed, no segment could take the next vector without clustering being off, the segment getting too large or the two not being mergeable |
| `ScatterList.EntriesDescribe` | linux-2.6.24-2.4.2-base/block/ll_rw_blk.c:1304-1362 | the segments tile the vectors, and each entry has the page and offset of the first vector of its segment and the length of all |
| `ScatterList.RecalcSegments` | linux-2.6.24-2.4.2-base/block/ll_rw_blk.c:1191-1261 | the counted segments tile the vectors and are an allowed way of cutting, each one vector or within max_segment_size; none crosses a high page; unless one was oversize, each is as long as it can be |
| `ScatterList.MapSg` | linux-2.6.24-2.4.2-base/block/ll_rw_blk.c:1304-1362 | a list with room for any allowed way of cutting is never overrun; the entries are the greedy segments, each one vector or within max_segment_size, and as long as it can be, hold every byte, and no allowed way has fewer |
| `ScatterList.MapRequest` | linux-2.6.24-2.4.2-base/block/ll_rw_blk.c:1300-1362 | for every vector list and every mergeability relation, the list built has at most nr_phys_segments entries, which describe segments, each one vector or within max_segment_size, and as long as it can be |
| `Completion.CompleteDrops` | linux-2.6.24-2.4.2-base/block/ll_rw_blk.c:3418-3532 | completing k bytes leaves the byte stream without its first k bytes, and no bio exactly when k covers it |
| `Completion.CompleteIds` | linux-2.6.24-2.4.2-base/block/ll_rw_blk.c:3418-3532 | the bios that are left are the last ones, in order |
| `Completion.CompleteTwice` | linux-2.6.24-2.4.2-base/block/ll_rw_blk.c:3418-3532 | completing a and then b bytes leaves the vectors that completing a + b bytes leaves, and the start sectors are the same if and only if both calls stop in different bios or their odd bytes there make no sector |
| `Completion.OddBytesLag` | linux-2.6.24-2.4.2-base/block/ll_rw_blk.c:520-541 | 300 and 300 bytes leave a smaller start sector than 600 |
| `Completion.EndedTwice` | linux-2.6.24-2.4.2-base/block/ll_rw_blk.c:3418-3532 | and ends the same bios, each by one of the calls |
| `Completion.AdvanceAdvance` | linux-2.6.24-2.4.2-base/block/ll_rw_blk.c:520-541 | inside one bio the vectors, index and size agree, and the sector does if and only if the odd bytes of both counts make no sector |
| `Completion.HardSectorTwice` | linux-2.6.24-2.4.2-base/block/ll_rw_blk.c:3389-3413 | hard_sector after two calls is that of one call if and only if the odd bytes of both make no sector, or, for a request that is then done, the first call moved it by none |
| `Completion.HardSectorIsFirst` | linux-2.6.24-2.4.2-base/block/ll_rw_blk.c:3389-3413 | for bios that follow each other without a gap from hard_sector on, hard_sector after any completion is the start sector of the first bio left, k / 512 sectors on |
| `Completion.Request.TrimFirst` | linux-2.6.24-2.4.2-base/block/ll_rw_blk.c:3521-3527 | the current vector is trimmed and the bio advanced |
| `Completion.Request.EndBios` | linux-2.6.24-2.4.2-base/block/ll_rw_blk.c:3453-3511 | the loop over bios and vectors |
| `Completion.Request.EndFirst` | linux-2.6.24-2.4.2-base/block/ll_rw_blk.c:3418-3532 | the new bio list, the bios ended, each once, the result 0 exactly if none is left; hard_sector and hard_nr_sectors, whose sum stays |
| `CfqTree.WalkPlaces` | linux-2.6.24-2.4.2-base/block/cfq-iosched.c:468-500 | for any comparisons, the walk never turns right if and only if the new queue becomes the leftmost |
| `CfqTree.WalkSorts` | linux-2.6.24-2.4.2-base/block/cfq-iosched.c:468-500 | if the comparisons are those of a key and the tree is sorted by it, it stays so, and the new queue goes behind all whose key is not larger |
| `CfqTree.FirstOk` | linux-2.6.24-2.4.2-base/block/cfq-iosched.c:387-393 | cfq_rb_first finds the leftmost queue, or none if the tree is empty |
| `CfqTree.EraseOk` | linux-2.6.24-2.4.2-base/block/cfq-iosched.c:395-402 | erasing keeps the cache empty or right |
| `CfqTree.LinkOk` | linux-2.6.24-2.4.2-base/block/cfq-iosched.c:502-508 | inserting keeps the cache empty or right, whatever the rebalancing does |
| `CfqTree.MoveOk` | linux-2.6.24-2.4.2-base/block/cfq-iosched.c:446-509 | resorting a queue keeps tree, cache and count |
| `CfqQueue.FindNextHas` | linux-2.6.24-2.4.2-base/block/cfq-iosched.c:407-429 | the lookup gives another queued request, or none if there is no other |
| `CfqQueue.FindNextIs` | linux-2.6.24-2.4.2-base/block/cfq-iosched.c:407-429 | which one: the choice between the two neighbours, where the first request follows the last, and the only neighbour if there is one |
| `CfqQueue.RemoveOk` | linux-2.6.24-2.4.2-base/block/cfq-iosched.c:652-666 | removing a request keeps all indexes of its queue in agreement |
| `CfqQueue.RemoveMeans` | linux-2.6.24-2.4.2-base/block/cfq-iosched.c:652-666 | exactly that request leaves tree and fifo, and the candidate changes only if it was that one, to the one the lookup finds |
| `CfqQueue.CounterPositive` | linux-2.6.24-2.4.2-base/block/cfq-iosched.c:557-570 | queued[] is not zero when it is decremented |
| `CfqQueue.InsertOk` | linux-2.6.24-2.4.2-base/block/cfq-iosched.c:572-595 | adding a request keeps them in agreement and leaves a candidate |
| `CfqQueue.InsertMeans` | linux-2.6.24-2.4.2-base/block/cfq-iosched.c:572-595 | the requests, the fifo and the candidate after it: the better of the old one and the new one |
| `CfqQueue.PutBackOk` | linux-2.6.24-2.4.2-base/block/cfq-iosched.c:597-603 | so does repositioning, with or without an alias |
| `CfqQueue.PutBackMeans` | linux-2.6.24-2.4.2-base/block/cfq-iosched.c:597-603 | the request keeps its place in the fifo, and the candidate is the better of the old one and the moved one |
| `CfqQueue.AbsorbPlace` | linux-2.6.24-2.4.2-base/block/cfq-iosched.c:693-705 | a request that takes over an earlier deadline takes over the place in the fifo |
| `Cfq.CfqData.IndexesAgree` | linux-2.6.24-2.4.2-base/block/cfq-iosched.c:446-603 | on_rr, service tree, sort list, fifo, next_rq and queued[] of a queue agree, and the cached leftmost node is right |
| `Cfq.CfqData.Store` | linux-2.6.24-2.4.2-base/block/cfq-iosched.c:527-552 | a queue enters or leaves the tree exactly with its first or last request |
| `Cfq.CfqData.RemoveRequest` | linux-2.6.24-2.4.2-base/block/cfq-iosched.c:652-666 | cfq_remove_request |
| `Cfq.CfqData.DispatchInsert` | linux-2.6.24-2.4.2-base/block/cfq-iosched.c:926-937 | one request leaves its queue and is counted as dispatched |
| `Cfq.CfqData.AddRequest` | linux-2.6.24-2.4.2-base/block/cfq-iosched.c:572-595 | queue and service tree with a new request; aliases are dispatched first |
| `Cfq.CfqData.PreemptQueue` | linux-2.6.24-2.4.2-base/block/cfq-iosched.c:1732-1746 | the active queue expires and the other one is resorted; the BUG_ON on on_rr cannot be reached |
| `Cfq.CfqData.InsertRequest` | linux-2.6.24-2.4.2-base/block/cfq-iosched.c:1791-1803 | one request enters, aliases are dispatched first; the active queue may be preempted |
| `Cfq.CfqData.FrontMerged` | linux-2.6.24-2.4.2-base/block/cfq-iosched.c:597-603 | a front merge, even if an alias empties the queue for a moment; no request is lost |
| `Cfq.CfqData.MergedRequests` | linux-2.6.24-2.4.2-base/block/cfq-iosched.c:693-705 | the merged request leaves, its place in the fifo may be taken over |
| `Cfq.CfqData.SliceExpired` | linux-2.6.24-2.4.2-base/block/cfq-iosched.c:757-790 | the active queue gets its next place |
| `Cfq.CfqData.SelectQueue` | linux-2.6.24-2.4.2-base/block/cfq-iosched.c:979-1017 | exactly which: the active queue while its slice lasts and it has requests, none while it idles, else the leftmost of the service tree, none during the grace period or if no queue has requests; a selected queue has requests, so the BUG_ON of __cfq_dispatch_requests cannot be reached |
| `Cfq.CfqData.DispatchFrom` | linux-2.6.24-2.4.2-base/block/cfq-iosched.c:1023-1054 | which requests leave and in which order: the oldest if it has expired, else the candidate, then the candidate each time; at least one and at most the allowed number, fewer only if none is left; what stays is the rest |
| `Cfq.CfqData.DispatchRequests` | linux-2.6.24-2.4.2-base/block/cfq-iosched.c:1023-1069 | the same, with the slice of a queue that has had its share expired at the end if another queue waits |
| `Cfq.CfqData.DrainQueue` | linux-2.6.24-2.4.2-base/block/cfq-iosched.c:1071-1082 | every request of the queue leaves once, the candidate each time, and its fifo is empty |
| `Cfq.CfqData.ForcedDispatch` | linux-2.6.24-2.4.2-base/block/cfq-iosched.c:1088-1104 | terminates with every queue, the tree and busy_queues empty, each request dispatched exactly once |
| `DeadlineLane.RemoveOk` | linux-2.6.24-2.4.2-base/block/deadline-iosched.c:118-124 | removing keeps tree and fifo the same and the fifo in deadline order |
| `DeadlineLane.RemoveMeans` | linux-2.6.24-2.4.2-base/block/deadline-iosched.c:118-124 | exactly that request leaves tree and fifo |
| `DeadlineLane.LatterMeans` | linux-2.6.24-2.4.2-base/block/deadline-iosched.c:61-70 | deadline_latter_request is the nearest request behind, none if there is none |
| `DeadlineLane.InsertOk` | linux-2.6.24-2.4.2-base/block/deadline-iosched.c:100-113 | adding keeps them so, since time does not go back |
| `DeadlineLane.InsertMeans` | linux-2.6.24-2.4.2-base/block/deadline-iosched.c:100-113 | the new request is in the tree and last in the fifo with its deadline, the others as they were |
| `DeadlineLane.AbsorbOk` | linux-2.6.24-2.4.2-base/block/deadline-iosched.c:170-189 | so does merging, with the earlier deadline taken over |
| `DeadlineLane.AbsorbExpires` | linux-2.6.24-2.4.2-base/block/deadline-iosched.c:170-189 | the request that is left has the earlier of the two deadlines |
| `DeadlineLane.AbsorbKeeps` | linux-2.6.24-2.4.2-base/block/deadline-iosched.c:170-189 | all others keep theirs |
| `DeadlineLane.PutBackOk` | linux-2.6.24-2.4.2-base/block/deadline-iosched.c:156-168 | so does a front merge, with or without an alias |
| `DeadlineLane.FrontMergeOk` | linux-2.6.24-2.4.2-base/block/deadline-iosched.c:156-168 | any front merge keeps tree and fifo the same, the fifo in order, and loses nothing but an alias |
| `DeadlineLane.FrontMergeMeans` | linux-2.6.24-2.4.2-base/block/deadline-iosched.c:156-168 | the requests after it: the grown one at its new start, and the others but an alias |
| `DeadlineLane.FrontMergeExpires` | linux-2.6.24-2.4.2-base/block/deadline-iosched.c:156-168 | the moved request keeps its deadline |
| `Deadline.CreditUsed` | linux-2.6.24-2.4.2-base/block/deadline-iosched.c:245-335 | going on with a batch uses one credit, preferring reads once more uses a whole batch of it |
| `Deadline.EndMeans` | linux-2.6.24-2.4.2-base/block/deadline-iosched.c:206-222 | last_sector is the end of the request that moved |
| `Deadline.DeadlineData.constructor` | linux-2.6.24-2.4.2-base/block/deadline-iosched.c:358-378 | an idle scheduler |
| `Deadline.DeadlineData.WriteStarvationBound` | linux-2.6.24-2.4.2-base/block/deadline-iosched.c:245-335 | in every run, while a write is pending at most fifo_batch + writes_starved * max(1, fifo_batch) reads are dispatched before a write |
| `Deadline.DeadlineData.IndexesAgree` | linux-2.6.24-2.4.2-base/block/deadline-iosched.c:72-124 | in every run, tree and fifo hold the same requests, the fifo is sorted by expiry, and at most one next_rq is set and lies in its tree |
| `Deadline.DeadlineData.CheckFifo` | linux-2.6.24-2.4.2-base/block/deadline-iosched.c:228-239 | the answer for the oldest request holds for all: 0 if and only if none has expired |
| `Deadline.DeadlineData.MoveRequest` | linux-2.6.24-2.4.2-base/block/deadline-iosched.c:206-222 | the request leaves; candidate and head position follow it |
| `Deadline.DeadlineData.AddRequest` | linux-2.6.24-2.4.2-base/block/deadline-iosched.c:100-113 | the request enters last, aliases are dispatched first |
| `Deadline.DeadlineData.FrontMerged` | linux-2.6.24-2.4.2-base/block/deadline-iosched.c:156-168 | lane, candidate and head position after a front merge, with or without an alias that is dispatched |
| `Deadline.DeadlineData.BackMerged` | linux-2.6.24-2.4.2-base/block/ll_rw_blk.c:2994-3011 | a growing request leaves indexes and candidate as they are |
| `Deadline.DeadlineData.MergedRequests` | linux-2.6.24-2.4.2-base/block/deadline-iosched.c:170-189 | the merged request leaves tree, fifo and candidate, and the other one has grown |
| `Deadline.DeadlineData.StartBatch` | linux-2.6.24-2.4.2-base/block/deadline-iosched.c:273-325 | direction, request and counters of a new batch |
| `Deadline.DeadlineData.Select` | linux-2.6.24-2.4.2-base/block/deadline-iosched.c:245-330 | when a batch goes on, and what a new one starts with |
| `Deadline.DeadlineData.DispatchRequests` | linux-2.6.24-2.4.2-base/block/deadline-iosched.c:245-335 | a request is dispatched if and only if there is one; the reads since the last write are counted |
| `DispatchOrder.InsertSweeps` | linux-2.6.24-2.4.2-base/block/elevator.c:396-429 | inserting behind the last request that may go first keeps the one-way order |
| `DispatchOrder.ServeSweeps` | linux-2.6.24-2.4.2-base/block/elevator.c:709-744 | after the first request is served, the rest is in one-way order from its end |
| `DispatchOrder.DispatchQueue.DispatchSort` | linux-2.6.24-2.4.2-base/block/elevator.c:396-429 | for any queue: nothing is lost; what the request passes is of its direction, not started, no barrier and does not go first from end_sector on; what it stops behind is one of these |
| `DispatchOrder.DispatchQueue.SweepsOn` | linux-2.6.24-2.4.2-base/block/elevator.c:396-429 | in every run of insertions, looks at the head and removals, the unstarted part is in one-way order from end_sector, which is the end of a head that was looked at |
| `DispatchOrder.DispatchQueue.DispatchInOrder` | linux-2.6.24-2.4.2-base/block/elevator.c:396-429 | for one direction without barriers and overlaps the unstarted part stays in one-way order, and a started head stays first |
| `DispatchOrder.DispatchQueue.NextRequest` | linux-2.6.24-2.4.2-base/block/elevator.c:709-744 | end_sector moves to the end of the head, new or looked at before, and the order holds for it |
| `DispatchOrder.DispatchQueue.Dequeue` | linux-2.6.24-2.4.2-base/block/elevator.c:776-790 | the started head leaves |
| `MergeHash.Find` | linux-2.6.24-2.4.2-base/block/elevator.c:310-330 | succeeds if and only if a hashed mergeable request has the key; only requests that cannot be merged are dropped |
| `MergeHash.AddOk` | linux-2.6.24-2.4.2-base/block/elevator.c:296-302 | every hashed request is in the chain of its key, once |
| `MergeHash.DelOk` | linux-2.6.24-2.4.2-base/block/elevator.c:285-294 | and in none after it is deleted |
| `Merging.ChainConcat` | linux-2.6.24-2.4.2-base/block/ll_rw_blk.c:2898-2901 | joining two adjacent gap-free ranges gives one |
| `Merging.ChainAscends` | linux-2.6.24-2.4.2-base/block/ll_rw_blk.c:2898-2901 | the bios of a range ascend, so no bio is in it twice |
| `Merging.MergeQueue.constructor` | linux-2.6.24-2.4.2-base/block/elevator.c:176-206 | an empty hash |
| `Merging.MergeQueue.Consistent` | linux-2.6.24-2.4.2-base/block/ll_rw_blk.c:2863-3038 | after any run of merges each request is one gap-free ascending range of its bios, each submitted bio is in exactly one request, and each hashed request is in the chain of its current end |
| `Merging.MergeQueue.Rehash` | linux-2.6.24-2.4.2-base/block/elevator.c:304-308 | a request whose end has moved is hashed under its new end |
| `Merging.MergeQueue.AttemptMerge` | linux-2.6.24-2.4.2-base/block/ll_rw_blk.c:2863-2914 | two requests become one if and only if both are mergeable, adjacent and allowed to; otherwise nothing changes |
| `Merging.MergeQueue.Absorb` | linux-2.6.24-2.4.2-base/block/elevator.c:499-512 | the hash follows the merge |
| `Merging.MergeQueue.BackMerge` | linux-2.6.24-2.4.2-base/block/ll_rw_blk.c:2994-3011 | the bio joins at the end, and the next request joins exactly if it may; the requests that result |
| `Merging.MergeQueue.FrontMerge` | linux-2.6.24-2.4.2-base/block/ll_rw_blk.c:3013-3038 | the bio joins at the front, and the previous request takes both exactly if it may; the requests that result |
| `Merging.MergeQueue.NewRequest` | linux-2.6.24-2.4.2-base/block/elevator.c:580-596 | a bio that is not merged gets a request of its own |
| `Merging.MergeQueue.Unhash` | linux-2.6.24-2.4.2-base/block/elevator.c:396-407 | a dispatched request leaves the hash and the one-hit cache |
| `Merging.MergeQueue.HashFind` | linux-2.6.24-2.4.2-base/block/elevator.c:310-330 | finds a request if and only if a hashed mergeable one ends at the offset |
| `Merging.MergeQueue.TryLast` | linux-2.6.24-2.4.2-base/block/elevator.c:460-469 | the one-hit cache is used exactly if the request of the last merge may take the bio at one of its sides |
| `Merging.MergeQueue.ElvMerge` | linux-2.6.24-2.4.2-base/block/elevator.c:454-484 | the request of the last merge goes first, then the hash, then the candidate of the scheduler; a back merge ends at the bio, a front merge starts behind it, and only mergeable requests are offered, so the BUG_ONs of __make_request cannot be reached; none is offered only if none of them may be |
| `Merging.MergeQueue.MakeRequest` | linux-2.6.24-2.4.2-base/block/ll_rw_blk.c:2966-3083 | the bio joins the request that elv_merge finds, at the side where they meet, or gets its own, as a barrier always does; it ends up in exactly one request and no other bio leaves the queue |
| `Cbc.DecEnc` | linux-2.6.24-2.4.2-base/crypto/cbc.c:94-208 | decryption inverts encryption for any invertible child cipher |
| `Cbc.EncConcat` | linux-2.6.24-2.4.2-base/crypto/cbc.c:94-119 | the last ciphertext block carries encryption from one piece to the next |
| `Cbc.DecConcat` | linux-2.6.24-2.4.2-base/crypto/cbc.c:183-208 | and decryption |
| `Cbc.EncryptsBlocks` | linux-2.6.24-2.4.2-base/crypto/cbc.c:42-66 | block by block: each ciphertext block is the cipher of the plaintext block and the ciphertext block before it, or the IV, added |
| `Cbc.DecryptsBlocks` | linux-2.6.24-2.4.2-base/crypto/cbc.c:121-147 | each plaintext block is the decrypted ciphertext block and the ciphertext block before it, or the IV, added |
| `Cbc.EncryptSegment` | linux-2.6.24-2.4.2-base/crypto/cbc.c:42-66 | CBC from one buffer to another |
| `Cbc.EncryptInplace` | linux-2.6.24-2.4.2-base/crypto/cbc.c:68-92 | CBC in place |
| `Cbc.DecryptSegment` | linux-2.6.24-2.4.2-base/crypto/cbc.c:121-147 | CBC decryption from one buffer to another |
| `Cbc.DecryptInplace` | linux-2.6.24-2.4.2-base/crypto/cbc.c:149-181 | CBC decryption in place, backwards, with the IV of the next piece saved |
| `Cbc.Crypt` | linux-2.6.24-2.4.2-base/crypto/cbc.c:94-208 | for any split into pieces, each in place or not, the result is CBC as in section 6.2 of NIST SP 800-38A, block by block, with the right IV left behind |
| `AlgName.CloseTerm` | linux-2.6.24-2.4.2-base/crypto/cryptomgr.c:119-133 | the search for the closing parenthesis passes a printed argument as a whole |
| `AlgName.NumberDecimal` | linux-2.6.24-2.4.2-base/lib/vsprintf.c:35-76 | a printed number reads back as the same u32 |
| `AlgName.ArgsRoundTrip` | linux-2.6.24-2.4.2-base/crypto/cryptomgr.c:108-168 | a printed argument list reads back, if and only if the table has room for it |
| `AlgName.ArgsAccepted` | linux-2.6.24-2.4.2-base/crypto/cryptomgr.c:108-168 | an argument list is accepted only if it is fewer than CRYPTO_MAX_ATTRS non-empty arguments, separated by commas and closed by a parenthesis, and each is stored as it stands |
| `AlgName.RoundTrip` | linux-2.6.24-2.4.2-base/crypto/cryptomgr.c:100-168 | parsing a printed name gives exactly its template and arguments, numbers as u32 and others as names, if there are fewer than CRYPTO_MAX_ATTRS arguments, and an error otherwise |
| `AlgName.ParseAccepted` | linux-2.6.24-2.4.2-base/crypto/cryptomgr.c:100-168 | a name is accepted only if it is a template, such a list and perhaps more, and what is stored are its template and its arguments |
| `AlgName.ScanWord` | linux-2.6.24-2.4.2-base/crypto/cryptomgr.c:116-117 | the scan over a word |
| `AlgName.ScanClose` | linux-2.6.24-2.4.2-base/crypto/cryptomgr.c:120-129 | the scan over a nested list |
| `AlgName.ScanArgs` | linux-2.6.24-2.4.2-base/crypto/cryptomgr.c:108-168 | the loop over the arguments, with every error exit |
| `AlgName.ScheduleProbe` | linux-2.6.24-2.4.2-base/crypto/cryptomgr.c:100-168 | the whole parser |
| `Md5.FoldConcat` | linux-2.6.24-2.4.2-base/crypto/md5.c:161-189 | whole blocks can be hashed one after the other |
| `Md5.LengthWords` | linux-2.6.24-2.4.2-base/crypto/md5.c:207-208 | the last two words are the length in bits modulo 2^64, low order word first |
| `Md5.CountFits` | linux-2.6.24-2.4.2-base/crypto/md5.c:161-166 | the 64-bit byte count may wrap: block offset and length stay right |
| `Md5.PadBlocks` | linux-2.6.24-2.4.2-base/crypto/md5.c:191-206 | the padding of sections 3.1 and 3.2 of RFC 1321 fills one block, or two |
| `Md5.PadEmpty` | linux-2.6.24-2.4.2-base/crypto/md5.c:191-206 | the empty message is padded to 0x80 and 63 zeros |
| `Md5.Md5Ctx.constructor` | linux-2.6.24-2.4.2-base/crypto/md5.c:150-159 | nothing hashed yet |
| `Md5.Md5Ctx.Update` | linux-2.6.24-2.4.2-base/crypto/md5.c:161-189 | after any cut of the message into updates, hash and block are those of the message so far |
| `Md5.Md5Ctx.Final` | linux-2.6.24-2.4.2-base/crypto/md5.c:191-215 | the fold of the transform over the padded message |

## Left out

- Locking, interrupts, workqueues, plugging and reference counts.
- The tag-ordered barrier modes: the ordering statements are about draining (QUEUE_ORDERED_TAG clear), and no run switches to a mode with tags.
- Front insertion of file-system requests, which the barrier protocol does not allow for.
- `cfq_choose_req`, time slices, priorities and idling of CFQ: they are inputs; no claim is made about the order of classes in the service tree, since a queue's class can change while it is in the tree.
- The statistics of the anticipatory scheduler (think times, seek distances, process exits) and the arithmetic of `update_write_batch`: they are inputs.
- OrderedQueue.RequestQueue.PeekHead: is one turn up to prep_rq_fn, whose answers `NextRequest` deals with.
- OrderedQueue.RequestQueue.AddRequest: soft barriers and requests without REQ_ELVPRIV are only a choice of the position by the caller; boundary_rq is not modelled.
- DispatchOrder.DispatchQueue.NextRequest: a queue with barriers, for which boundary_rq is set, is left out.
- AsScheduler.AsData.AnticTimeout: does not model the statistics on process exits.
- AsScheduler.AsData.Candidate: does not say when a request has expired or a batch is late, because clocks are inputs.
- ScatterList.RecalcSegments: nr_hw_segments is only bounded by nr_phys_segments, because it depends on architecture macros; the front and back sizes of hardware segments are not modelled.
- Completion.Request.EndFirst: does not model the submission pointers sector, nr_sectors and buffer of a request, empty barriers, or the error codes handed to a bio.
- Lrw.Priv.constructor: is for little-endian machines; what mulinc holds on others is not stated.
- Camellia with 192 and 256 bit keys, which repeats the argument with more rounds.
- `gf128mul_lle` and `gf128mul_bbe`, which clear only part of their buffer, and the ble order.
- The scatter-gather walk of the block cipher interface: pieces are given as whole blocks. A piece in `Cbc.Work` is copied to a buffer of its own; in `Lrw.Priv.Crypt` source and destination may be one array.
- The four xor helpers of CBC, which are the xor of two blocks for their block sizes.
- The wiping of the MD5 context after `md5_final`, and `md5_transform` itself, which is an arbitrary function here.
- Lengths of algorithm names: the buffers of the parser hold any name that fits `cra_name`.
- Sector and jiffies overflow; changes of tunables during a run.
- `noop-iosched.c`, ioctls, `bsg`, tracing, statistics and registration code, other ciphers and hashes: they have no invariant of their own that spans several operations.
