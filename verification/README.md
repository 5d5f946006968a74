# Linux 2.6.24: block layer and crypto transformations in Dafny

This project models two groups of sequential code from the kernel tree and proves what they
are meant to guarantee. `dafny verify dfyconfig.toml` checks all of it.

**The life of a block request and the I/O schedulers.** The barrier sequence is a state
machine over all interleavings of adding, dispatching, completing and requeuing (`barrier`,
`request_queue`). The deadline, anticipatory and CFQ schedulers keep a sector tree, a FIFO
and a cached next request; the invariants say that these agree in every reachable state, and
the theorems say what follows: a starvation bound, an optimal neighbour, a complete forced
dispatch (`deadline*`, `anticipatory*`, `cfq*`, `thinktime`). What they promise is also said
without their own steps: which of two requests goes first, how reads and writes take turns,
in which order queues are served (`deadline_rules`, `cfq_rules`). Segment counting against
mapping, partial completion, and merging with the hash of request ends are in `segments`,
`completion`, `merging` and `merge_queue`.

**Crypto code that must preserve meaning.** Camellia's rewritten subkeys (`camellia*`), the
equivalent inverse cipher of AES with its generated tables (`aes*`), multiplication in
GF(2^128) by tables and the LRW tweak on top of it (`gf128*`, `lrw`), MD5 and HMAC over
fragmented scatterlists (`md5*`, `digest`, `hmac`), CBC in place and between buffers
(`cbc*`), the removal of dependent instances from the algorithm registry (`spawns`,
`registry`) and the parser for the names of template instances, with the grammar that it
accepts (`names`, `name_grammar`, `name_parser`).

Each subject has a module of specifications and lemmas on values. Code that changes state in
the kernel is a class or a method over arrays beside it, proved to compute the value that the
specification names; red-black trees are sorted sequences, linked lists are sequences. The
S-boxes of Camellia, the compression function of MD5, the block cipher under a mode and the
merge tests of the architecture are arbitrary functions, so the theorems hold for all of
them. Time is a number that does not decrease, and a step is what the code does under the
queue lock or the registry's semaphore.

Four places where the code does less than one might expect are stated as they are in the
code, with the exact condition:

- The anticipatory scheduler's next request is not always the best one after a front merge,
  and can even be NULL while a request is queued (`Anticipatory.FrontMergeCanSpoil`,
  `Anticipatory.FrontMergeCanLose`). `Anticipatory.FrontMergeKeeps` says exactly when it is
  still the best, by a test on the state before the merge.
- A CFQ queue whose class changes while it is in the service tree is not filed again, and a
  real-time queue may wait for others (`CfqRules.BoostCanSpoil`). `CfqRules.BoostOrder` says
  exactly when the order survives the change.
- An algorithm whose name consists of digits is taken for a number by the name parser
  (`Names.DigitNameMisread`); `Names.ParserUndoesPrinter` is an equivalence.
- `get_index128` yields 128, one more than the last index of `mulinc`, exactly for the
  counter of all ones (`Lrw.GetIndex`). `Lrw.Context.Crypt` is therefore about runs in which
  the counter does not pass 2^128 - 1 (`NoWrap`).

## Model

| member | source | states |
|---|---|---|
| `Barrier.RunSafety` | linux-2.6.24-ssl/block/ll_rw_blk.c:311-518 | Over every run of adding, sorted dispatch, dequeuing, completing, requeuing and asking for the next request in the draining modes: no `BUG_ON` or `WARN_ON` of the sequence code fires; every fs request is ended or in exactly one place; what is at the driver is allowed there (nothing queued after the barrier, the proxy only after everything queued before it); whatever is handed out next is in turn; a waiting barrier has the earlier requests before it and the later ones behind, and when its proxy is at the driver all earlier ones have ended |
| `Barrier.StagesInOrder` | linux-2.6.24-ssl/block/ll_rw_blk.c:347-373 | The stages passed so far, followed by those that remain, are the planned stages drain, preflush, barrier, postflush: each is passed once and in this order |
| `Barrier.BarrierEnds` | linux-2.6.24-ssl/block/ll_rw_blk.c:355-372 | A step ends at most the barrier in progress, after its last planned stage, and when every fs request queued before it has ended; the error it carries is that of `Barrier.EndedWithFirstError` |
| `Barrier.ErrorStep` | linux-2.6.24-ssl/block/ll_rw_blk.c:347-391 | One event: an error that is reported when none was recorded is recorded, or is what the barrier ends with if this event ends it; a recorded error is not replaced |
| `Barrier.EndedWithFirstError` | linux-2.6.24-ssl/block/ll_rw_blk.c:347-391 | Over every run of one sequence: a barrier that ends carries the first nonzero error in the list of events since the sequence began, among the completions of the three proxies and the failed parts of the barrier, and 0 if there is none; and whenever a sequence is over its barrier has ended |
| `Barrier.SequencePlanned` | linux-2.6.24-ssl/block/ll_rw_blk.c:417-469 | A sequence that starts has the planned stages of the queue's ordered mode, no error yet, and exactly the proxies of these stages stand at the head in place of the barrier |
| `Barrier.NextServes` | linux-2.6.24-ssl/block/elevator.c:709-774 | The front request is handed out exactly if its stage is due, special commands always; an empty barrier ends instead, with the error recorded so far |
| `Barrier.StepKeeps` | linux-2.6.24-ssl/block/elevator.c:545-742 | The invariant of the ordered sequence survives every single step |
| `Barrier.NextInTurn` | linux-2.6.24-ssl/block/ll_rw_blk.c:471-518 | `blk_do_ordered` hands out only a request whose stage is the current one |
| `Barrier.RequeueKeeps` | linux-2.6.24-ssl/block/elevator.c:598-625 | Requeuing puts a request back where its stage belongs, so the queue stays in sequence order |
| `Barrier.ReqSeqIsPlace` | linux-2.6.24-ssl/block/ll_rw_blk.c:318-345 | The stage computed from colour and end_io is that of the position before, at or behind the barrier, for every request that can be on the queue |
| `RequestQueues.RequestQueue.NextRequest` | linux-2.6.24-ssl/block/elevator.c:709-774 | In place: the next step of the machine; at most one request is handed out, in turn |
| `RequestQueues.RequestQueue.DispatchSort` | linux-2.6.24-ssl/block/elevator.c:396-429 | The position of the sorted insert is the last one behind which every request may be passed, and the move is a step of the machine |
| `RequestQueues.SweepKept` | linux-2.6.24-ssl/block/elevator.c:396-429 | Sorted inserts keep what follows the last barrier or started request in the order of one sweep: upwards from the boundary, then upwards from the lowest sector |
| `RequestQueues.RequestQueue.DrainElevator` | linux-2.6.24-ssl/block/elevator.c:531-543 | The I/O scheduler is empty afterwards, by dispatch steps only |
| `RequestQueues.RequestQueue.AddRequest` | linux-2.6.24-ssl/block/elevator.c:643-677 | Barriers drain the I/O scheduler and go to the back; other requests go to the scheduler |
| `RequestQueues.RequestQueue.Start` | linux-2.6.24-ssl/block/ll_rw_blk.c:417-469 | Starting a sequence stacks the proxies of the planned stages and refers the barrier |
| `RequestQueues.RequestQueue.CompleteStage` | linux-2.6.24-ssl/block/ll_rw_blk.c:347-373 | Recording a stage and its error, and ending the original barrier after the last one |
| `RequestQueues.RequestQueue.Complete` | linux-2.6.24-ssl/block/elevator.c:856-882 | Completion of a request at the driver is one step of the machine, with the drain stage completed when the queue has run dry; what becomes of the error is said by `Barrier.ErrorStep` |
| `RequestQueues.RequestQueue.DequeueRequest` | linux-2.6.24-ssl/block/elevator.c:776-792 | Dequeuing counts fs requests as in flight |
| `RequestQueues.RequestQueue.RecordErr` | linux-2.6.24-ssl/block/ll_rw_blk.c:546-548 | The proxy records the first error |
| `RequestQueues.RequestQueue.RequeueRequest` | linux-2.6.24-ssl/block/elevator.c:514-529 | Requeuing in place is the step of the machine |
| `Camellia.FastEncryptIsEncrypt` | linux-2.6.24-ssl/crypto/camellia.c:1214-1314 | For every table that rewrites the round keys, the fast encryption equals that of sections 2.3 and 2.4 of RFC 3713, for all S-boxes, keys and blocks (a simulation round by round) |
| `Camellia.DecryptUndoesEncrypt` | linux-2.6.24-ssl/crypto/camellia.c:1316-1420 | Decryption with the same table undoes encryption, for any table and block |
| `Camellia.EncryptUndoesDecrypt` | linux-2.6.24-ssl/crypto/camellia.c:1316-1420 | and encryption undoes decryption, so every block is the encryption of some block |
| `Camellia.RoundIs` | linux-2.6.24-ssl/crypto/camellia.c:186-203 | `CAMELLIA_ROUNDSM` with the combined S-box tables is F with the inverse of half of P taken out of its key |
| `Camellia.MacroFIsF` | linux-2.6.24-ssl/crypto/camellia.c:146-168 | `CAMELLIA_F` is the F-function of RFC 3713 |
| `Camellia.FLDifference` | linux-2.6.24-ssl/crypto/camellia.c:170-184 | A key XOR before FL equals a computed XOR behind it; this is what lets kw2 and kw4 pass the layers |
| `CamelliaKeys.RewriteKeys` | linux-2.6.24-ssl/crypto/camellia.c:585-778 | The three passes over the subkeys (kw2 and kw4 absorbed, key XORs moved to the end of F, the last half of P inverted) leave a rewritten table |
| `CamelliaKeys.AbsorbAllKw2` | linux-2.6.24-ssl/crypto/camellia.c:585-611 | The pass that absorbs kw2 downwards, through the FL layers |
| `CamelliaKeys.AbsorbAllKw4` | linux-2.6.24-ssl/crypto/camellia.c:613-643 | The pass that absorbs kw4 upwards, through the inverse layers |
| `CamelliaKeys.InvertAllP` | linux-2.6.24-ssl/crypto/camellia.c:705-777 | The pass that applies the inverse of the last half of P |
| `CamelliaKeys.MoveAllKeys` | linux-2.6.24-ssl/crypto/camellia.c:644-703 | The pass that moves the key XORs |
| `CamelliaKeys.Setup128` | linux-2.6.24-ssl/crypto/camellia.c:479-781 | For every 128-bit key: the table is the rewriting of the round keys of section 2.2 of RFC 3713 |
| `CamelliaKeys.Setup256` | linux-2.6.24-ssl/crypto/camellia.c:783-1192 | The same for 256-bit (and 192-bit) keys |
| `CamelliaSetup.GenerateKeys128` | linux-2.6.24-ssl/crypto/camellia.c:479-582 | The double-word rotations yield the round keys that RFC 3713 defines by 128-bit rotations of KL and KA |
| `CamelliaSetup.GenerateKeys256` | linux-2.6.24-ssl/crypto/camellia.c:783-929 | The same for KL, KR, KA and KB |
| `CamelliaCipher.RoundKeysUnique` | linux-2.6.24-ssl/crypto/camellia.c:479-582 | The round keys are determined by the key, so the claims below are about one schedule |
| `CamelliaCipher.MeaningKept` | linux-2.6.24-ssl/crypto/camellia.c:1214-1673 | With a rewritten table, encryption is the RFC cipher and decryption gives the block back |
| `CamelliaCipher.Context.SetKey` | linux-2.6.24-ssl/crypto/camellia.c:1677-1707 | 16, 24 and 32 byte keys are accepted and others refused; the table then holds the rewritten keys |
| `CamelliaCipher.Context.EncryptBlock` | linux-2.6.24-ssl/crypto/camellia.c:1709-1734 | The in-place rounds compute the RFC cipher for the key that was set |
| `CamelliaCipher.Context.DecryptBlock` | linux-2.6.24-ssl/crypto/camellia.c:1736-1761 | The in-place rounds find the one and only block that encrypts to the given one |
| `AesField.Order` | linux-2.6.24-ssl/crypto/aes_generic.c:142-149 | 3 generates the multiplicative group: its powers below 255 are not 1 |
| `AesField.PowerInjective` | linux-2.6.24-ssl/crypto/aes_generic.c:142-149 | so the entries of the power table are distinct |
| `AesTables.InverseIs` | linux-2.6.24-ssl/crypto/aes_generic.c:160-166 | What the tables yield for x is its multiplicative inverse |
| `AesTables.BoxInvertible` | linux-2.6.24-ssl/crypto/aes_generic.c:160-169 | The S-box of FIPS 197 is a permutation and isb_tab inverts it |
| `AesTables.GenTabs` | linux-2.6.24-ssl/crypto/aes_generic.c:136-204 | The loops fill all tables with the S-box, its inverse, Rcon and the four rotations of the round tables |
| `AesWords.IMixColIs` | linux-2.6.24-ssl/crypto/aes_generic.c:206-216 | `imix_col`, on four bytes in a word at once, is InvMixColumns |
| `AesWords.MixInverse` | linux-2.6.24-ssl/crypto/aes_generic.c:206-216 | InvMixColumns undoes MixColumns |
| `Aes.ForwardColumn` | linux-2.6.24-ssl/crypto/aes_generic.c:105-109 | Four table entries and a key word are SubBytes, ShiftRows, MixColumns and AddRoundKey for a column |
| `Aes.InverseColumn` | linux-2.6.24-ssl/crypto/aes_generic.c:111-115 | The same for the inverse tables |
| `Aes.EqInvCipherIsInvCipher` | linux-2.6.24-ssl/crypto/aes_generic.c:295-302 | With keys passed through InvMixColumns, the equivalent inverse cipher (section 5.3.5 of FIPS 197) is the inverse cipher (section 5.3) |
| `Aes.InvCipherUndoesCipher` | linux-2.6.24-ssl/crypto/aes_generic.c:377-416 | The inverse cipher undoes the cipher, for every schedule and block |
| `AesCipher.Context.SetKey` | linux-2.6.24-ssl/crypto/aes_generic.c:251-304 | Keys of 16, 24 and 32 bytes give the key expansion of section 5.2 of FIPS 197 in the lower half of the buffer and the decryption schedule in the upper one; other lengths are refused and change nothing |
| `AesCipher.Loop4` | linux-2.6.24-ssl/crypto/aes_generic.c:220-226 | One turn of the expansion for 16-byte keys |
| `AesCipher.Loop6` | linux-2.6.24-ssl/crypto/aes_generic.c:228-236 | One turn of the expansion for 24-byte keys |
| `AesCipher.Loop8` | linux-2.6.24-ssl/crypto/aes_generic.c:238-249 | One turn of the expansion for 32-byte keys, with the extra substitution |
| `AesCipher.InvertSchedule` | linux-2.6.24-ssl/crypto/aes_generic.c:295-302 | The last loop of `aes_set_key` writes the decryption schedule |
| `AesCipher.Context.Encrypt` | linux-2.6.24-ssl/crypto/aes_generic.c:322-360 | 10, 12 or 14 table rounds in alternating buffers compute the cipher of section 5.1 of FIPS 197 |
| `AesCipher.Context.Decrypt` | linux-2.6.24-ssl/crypto/aes_generic.c:377-416 | The table rounds with the decryption schedule compute the inverse cipher of section 5.3 |
| `AesCipher.DecryptUndoesEncrypt` | linux-2.6.24-ssl/crypto/aes_generic.c:322-416 | On bytes: what `aes_decrypt` computes from what `aes_encrypt` computed is the input |
| `Gf128.XIs` | linux-2.6.24-ssl/crypto/gf128mul.c:125-143 | `gf128mul_x` multiplies by x modulo x^128 + x^7 + x^2 + x + 1 in both conventions |
| `Gf128.X8Is` | linux-2.6.24-ssl/crypto/gf128mul.c:156-174 | `gf128mul_x8` multiplies by x^8 |
| `Gf128Poly.TimesX8Is` | linux-2.6.24-ssl/crypto/gf128mul.c:55-123 | The byte-wise reduction by a table is multiplication by x, eight times |
| `Gf128Poly.ProductLinear` | linux-2.6.24-ssl/crypto/gf128mul.c:360-384 | The product is linear |
| `Gf128Tables.FillSums` | linux-2.6.24-ssl/crypto/gf128mul.c:288-292 | The nested loops of the init functions complete a table from its single bits |
| `Gf128Tables.Init4k` | linux-2.6.24-ssl/crypto/gf128mul.c:402-444 | Entry y of the table is g times the byte y, in both conventions |
| `Gf128Tables.Init64k` | linux-2.6.24-ssl/crypto/gf128mul.c:266-348 | The sixteen tables are those of g, x^8 g, .. , x^120 g |
| `Gf128Tables.Mul4k` | linux-2.6.24-ssl/crypto/gf128mul.c:446-474 | Horner form: the product of the polynomials |
| `Gf128Tables.Mul64k` | linux-2.6.24-ssl/crypto/gf128mul.c:360-384 | Sum form: the product of the polynomials |
| `Gf128Tables.MulBothForms` | linux-2.6.24-ssl/crypto/gf128mul.c:266-474 | From the init functions on, both forms give the same element, the product |
| `Lrw.GetIndex` | linux-2.6.24-ssl/crypto/lrw.c:107-122 | `get_index128` finds the lowest zero bit, and 128 exactly for the counter of all ones |
| `Lrw.IncIsXor` | linux-2.6.24-ssl/crypto/lrw.c:92-96 | Unless it wraps, the incremented counter differs from the counter in the bits up to its lowest zero |
| `Lrw.IncAddsOne` | linux-2.6.24-ssl/crypto/lrw.c:92-96 | `inc` adds one to the 128-bit number |
| `Lrw.NextTweak` | linux-2.6.24-ssl/crypto/lrw.c:155-164 | XOR with the table entry turns the tweak of a block into that of the next one |
| `Lrw.Context.SetKey` | linux-2.6.24-ssl/crypto/lrw.c:51-82 | `mulinc[i]` is Key2 times the number with i + 1 ones |
| `Lrw.Context.Crypt` | linux-2.6.24-ssl/crypto/lrw.c:124-178 | For every split into segments, block j is whitened with (IV + j) times Key2 in GF(2^128) |
| `Lrw.LrwUndoesLrw` | linux-2.6.24-ssl/crypto/lrw.c:98-178 | With the inverse block cipher the mode undoes itself |
| `Deadline.StarvationBound` | linux-2.6.24-ssl/block/deadline-iosched.c:245-335 | While writes wait and only reads are handed out there are at most (writes_starved + 1) * max(1, fifo_batch) dispatches, whatever is added or merged in between |
| `DeadlineRules.DispatchRule` | linux-2.6.24-ssl/block/deadline-iosched.c:245-335 | Said of the queues alone, in every reachable state: a batch goes on with the request that begins where the last one ended while it is not full; otherwise reads go first unless writes have waited for writes_starved batches (compared unsigned); the oldest request of the direction is handed out if it has expired or there is no next one, else the next one in sector order; what is handed out, where the head and next_rq are then, and both counters are determined |
| `DeadlineRules.TakeTurns` | linux-2.6.24-ssl/block/deadline-iosched.c:272-298 | Over every run from one batch of writes to the next: exactly writes_starved batches of reads go before waiting writes, if reads are still queued then (the dual of StarvationBound) |
| `DeadlineRules.WritesWait` | linux-2.6.24-ssl/block/deadline-iosched.c:278-282 | While reads are queued a batch of writes only begins when `starved` has reached writes_starved |
| `DeadlineRules.StarvedCounts` | linux-2.6.24-ssl/block/deadline-iosched.c:278-293 | Over every run without a batch of writes, `starved` grows by the batches of reads that begin while writes wait, and stays within writes_starved |
| `DeadlineRules.AddRule` | linux-2.6.24-ssl/block/deadline-iosched.c:72-113 | A new request has the deadline now + fifo_expire, is last in its FIFO and in its tree; if another one has its sector, exactly that one is dispatched |
| `DeadlineRules.FrontMergeRule` | linux-2.6.24-ssl/block/deadline-iosched.c:156-168 | After a front merge the request is where its new sector belongs; if another one has that sector, exactly that one is dispatched |
| `DeadlineRules.MergeRule` | linux-2.6.24-ssl/block/deadline-iosched.c:171-190 | A joined request covers both, has the earlier of the two deadlines and stands in the FIFO in the place of the one that expires first; next_rq moves on if it was the one that is gone |
| `Deadline.RunKeeps` | linux-2.6.24-ssl/block/deadline-iosched.c:72-222 | Over every run: tree and FIFO of a direction hold the same requests, the tree is sorted with distinct sectors, the FIFO is in deadline order, at most one next_rq is set and it is queued, every request is in exactly one place |
| `Deadline.StepKeeps` | linux-2.6.24-ssl/block/deadline-iosched.c:72-222 | The same for one step |
| `Deadline.AddTreeKeeps` | linux-2.6.24-ssl/block/deadline-iosched.c:73-85 | An alias with the same sector is moved to the dispatch queue before the new request takes its place |
| `Deadline.MergeKeeps` | linux-2.6.24-ssl/block/deadline-iosched.c:171-190 | When two requests are joined, the survivor inherits the earlier deadline and place in the FIFO |
| `Deadline.NothingExpired` | linux-2.6.24-ssl/block/deadline-iosched.c:228-240 | A batch that does not begin with the oldest request has no expired request in its direction |
| `DeadlineData.Data.DispatchRequests` | linux-2.6.24-ssl/block/deadline-iosched.c:245-335 | In place: the dispatch of the machine, which hands out the right request in the sense of `DeadlineRules.HandsOut` |
| `DeadlineData.Data.AddRequest` | linux-2.6.24-ssl/block/deadline-iosched.c:101-113 | In place: the insertion of the machine |
| `DeadlineData.Data.MergedRequest` | linux-2.6.24-ssl/block/deadline-iosched.c:156-168 | In place: repositioning after a front merge |
| `DeadlineData.Data.MergedRequests` | linux-2.6.24-ssl/block/deadline-iosched.c:171-190 | In place: joining two requests |
| `Anticipatory.RunOptimal` | linux-2.6.24-ssl/block/as-iosched.c:748-980 | Over every run of adds, back merges, front merges that pass FrontOk, joins and moves of any request: next_rq is NULL exactly if the list is empty, and otherwise nearest to the head of all queued requests, in numbers: ahead of the head the lowest sector; behind it the highest; a seek back counts twice; more than 2^20 sectors behind yields to everything within reach |
| `Anticipatory.RunHeads` | linux-2.6.24-ssl/block/as-iosched.c:931-975 | Over every run, the head of a direction is where the last dispatched request of that direction ends |
| `Anticipatory.ChooseNearest` | linux-2.6.24-ssl/block/as-iosched.c:281-350 | as_choose_req takes the nearest of two requests at different sectors, in either order, and the first of two at one sector |
| `Anticipatory.ChooseAhead` | linux-2.6.24-ssl/block/as-iosched.c:301-331 | Of a request at distance f ahead of the head and one at distance g behind it, the first is taken if and only if f <= 2 g or g > 2^20 |
| `Anticipatory.StepCovers` | linux-2.6.24-ssl/block/as-iosched.c:1221-1269 | Merges and joins cover what the request, the bio and the other request covered; no other request changes |
| `Anticipatory.FindNextBest` | linux-2.6.24-ssl/block/as-iosched.c:356-380 | The better of the two neighbours, with the wrap to the first request, is the best of the whole list |
| `Anticipatory.PrefersOrder` | linux-2.6.24-ssl/block/as-iosched.c:281-350 | The choice is a total preorder, which makes the choice among neighbours one among all |
| `Anticipatory.FrontMergeKeeps` | linux-2.6.24-ssl/block/as-iosched.c:1221-1238 | After a front merge order and places are right, and next_rq is still the best if and only if FrontOk held before it: what as_find_next_rq left there is preferred to the grown request, or is the grown request and preferred to its neighbours; also when another request already starts at the new sector |
| `Anticipatory.FrontMergeCanSpoil` | linux-2.6.24-ssl/block/as-iosched.c:1232-1236 | A front merge for which next_rq is no longer the best |
| `Anticipatory.FrontMergeCanLose` | linux-2.6.24-ssl/block/as-iosched.c:250-258 | A front merge after which next_rq is NULL although a request is queued |
| `AnticipatoryData.Data.MergedRequest` | linux-2.6.24-ssl/block/as-iosched.c:1221-1238 | In place: repositioning after a front merge |
| `AnticipatoryData.Data.MoveToDispatch` | linux-2.6.24-ssl/block/as-iosched.c:931-975 | In place: the move of the machine |
| `AnticipatoryData.Data.ForcedDispatch` | linux-2.6.24-ssl/block/as-iosched.c:990-1014 | Forced dispatch empties both directions and moves every queued request once, each direction in greedy order: every request is the nearest to where the one before it ended |
| `Cfq.RunKeeps` | linux-2.6.24-ssl/block/cfq-iosched.c:387-703 | Over every run the structures agree (service tree, cached first node, busy_queues, on_rr, sort list, FIFO, next_rq), and every request is queued in one sort list, or was dispatched once, or merged away |
| `Cfq.Agreement` | linux-2.6.24-ssl/block/cfq-iosched.c:387-603 | What the invariant says of a queue: on_rr iff requests are sorted iff in the service tree; next_rq NULL iff empty; same requests in FIFO and sort list; busy_queues counts; the cached leftmost node is the first |
| `Cfq.LinkIs` | linux-2.6.24-ssl/block/cfq-iosched.c:480-509 | The descent through any binary tree inserts at its place in the order, and tracks whether the new node is the leftmost |
| `Cfq.AddRqRbOk` | linux-2.6.24-ssl/block/cfq-iosched.c:572-595 | The structures agree again when a request has entered; what becomes of an alias and of next_rq is said by `CfqRules.AddRqRbRule` |
| `CfqRules.ChooseRule` | linux-2.6.24-ssl/block/cfq-iosched.c:294-381 | cfq_choose_req takes the first request if it is no worse: synchronous before asynchronous, then metadata before data, then the nearest with the penalty for seeks back; the order of the arguments only matters for one sector |
| `CfqRules.ChooseFlags` | linux-2.6.24-ssl/block/cfq-iosched.c:308-315 | A synchronous request goes before an asynchronous one wherever they are, and metadata before data |
| `CfqRules.ChooseAhead` | linux-2.6.24-ssl/block/cfq-iosched.c:327-355 | Of a request at distance f ahead of the head and one at distance g behind it, the first is taken if and only if f <= g * back_penalty or g > 2 * back_max |
| `CfqRules.FindNextRule` | linux-2.6.24-ssl/block/cfq-iosched.c:407-429 | The result is a neighbour in sector order (the first request follows the last) and no worse than the other neighbour, or nothing else is queued |
| `CfqRules.AddRqRbRule` | linux-2.6.24-ssl/block/cfq-iosched.c:572-595 | A request that is at the sector of the new one, and no other, is dispatched; the new one is sorted in; next_rq is the new one exactly if there was none or the old one is worse |
| `CfqRules.InsertRule` | linux-2.6.24-ssl/block/cfq-iosched.c:1791-1803 | The request also goes to the end of the FIFO |
| `CfqRules.FrontMergeRule` | linux-2.6.24-ssl/block/cfq-iosched.c:597-603 | After a front merge the request enters again at its new sector |
| `CfqRules.RemoveRule` | linux-2.6.24-ssl/block/cfq-iosched.c:652-666 | A removed request leaves sort list and FIFO; if it was next_rq the better neighbour is; the queue leaves the service tree exactly with its last request |
| `CfqRules.MergeRule` | linux-2.6.24-ssl/block/cfq-iosched.c:693-706 | A joined request covers both and stands in the FIFO where the older one stood |
| `CfqRules.ServiceAddOrder` | linux-2.6.24-ssl/block/cfq-iosched.c:446-509 | Filing a queue keeps the service tree in order: real time first, idle last, then by key |
| `CfqRules.RunInOrder` | linux-2.6.24-ssl/block/cfq-iosched.c:446-509 | Over every run in which no queue changes class while it is in the tree, the queues are in that order and the first queue is least of all that have requests |
| `CfqRules.BoostOrder` | linux-2.6.24-ssl/block/cfq-iosched.c:1851-1871 | A change of class files nothing again: the order survives it if and only if the queue fits where it is |
| `CfqRules.BoostCanSpoil` | linux-2.6.24-ssl/block/cfq-iosched.c:1851-1871 | Two best-effort queues, of which the second becomes a real-time queue and stays behind the first |
| `CfqData.Data.SelectQueue` | linux-2.6.24-ssl/block/cfq-iosched.c:979-1017 | The active queue is kept while its slice lasts and it has requests; none is served while it waits for more; otherwise the first queue of the service tree is, unless that is idle in its grace period. The queue has requests, so the `BUG_ON` at line 1029 cannot fire |
| `CfqData.Data.DispatchQueue` | linux-2.6.24-ssl/block/cfq-iosched.c:1024-1069 | Requests of this queue only are dispatched, each once: at least one, at most max_dispatch, and fewer only if no more are left; the first is the oldest if that has expired, and every other one is next_rq at its turn |
| `CfqData.Data.ForcedDispatchQueue` | linux-2.6.24-ssl/block/cfq-iosched.c:1071-1086 | All requests of the queue are dispatched exactly once (as many dispatches as requests, and the dispatch list has no repetition), other queues keep theirs, and its FIFO is empty at the `BUG_ON` of line 1080 |
| `CfqData.Data.ForcedDispatch` | linux-2.6.24-ssl/block/cfq-iosched.c:1088-1104 | The loop ends, every queued request is dispatched exactly once (the dispatch list has no repetition and grows by as many entries as were queued), and busy_queues is 0 at the `BUG_ON` of line 1101 |
| `Thinktime.TotalIsWeighted` | linux-2.6.24-ssl/block/cfq-iosched.c:1609-1618 | Over every history, ttime_total is the sum of all think times with the weights 1/8 (7/8)^k, in fixed point, and at most 7 less, in spite of truncating in every step |
| `Thinktime.SamplesAreWeights` | linux-2.6.24-ssl/block/cfq-iosched.c:1609-1618 | ttime_samples is the sum of these weights, with the same precision |
| `Thinktime.SamplesBound` | linux-2.6.24-ssl/block/cfq-iosched.c:1609-1618 | After one update or more, 32 <= samples <= 249 |
| `Thinktime.TotalBounds` | linux-2.6.24-ssl/block/cfq-iosched.c:1609-1618 | low * samples <= total + 7 and total <= high * (samples + 7), in spite of the truncations |
| `Thinktime.MeanBounds` | linux-2.6.24-ssl/block/as-iosched.c:482-495 | The mean is between the least sample and (high * (samples + 7) + 128) / samples |
| `Thinktime.History.Update` | linux-2.6.24-ssl/block/cfq-iosched.c:1609-1618 | The update in place keeps these bounds over every history, and mean * samples <= total + 128 < (mean + 1) * samples |
| `Segments.MapFits` | linux-2.6.24-ssl/block/ll_rw_blk.c:1191-1362 | For every bvec list, limits and merge tests, blk_rq_map_sg writes at most the nr_phys_segments that blk_recalc_rq_segments counts |
| `Segments.MapStaysAhead` | linux-2.6.24-ssl/block/ll_rw_blk.c:1191-1362 | After every bvec the mapping has fewer entries, or as many with a last one that is not longer |
| `Segments.MapTiles` | linux-2.6.24-ssl/block/ll_rw_blk.c:1304-1350 | The entries cover all bvecs in order, each joins only what may be joined and is not too long |
| `Segments.MapMaximal` | linux-2.6.24-ssl/block/ll_rw_blk.c:1304-1350 | No entry could have been longer: the bvec behind it is elsewhere in memory or would exceed the limit |
| `Segments.CountsSegments` | linux-2.6.24-ssl/block/ll_rw_blk.c:1191-1261 | What is counted: there are two sets of bvecs, determined by the rules for where a physical and a hardware segment must begin (high pages, memory, size, oversize of hardware segments, virtual merging), and the counts are their sizes |
| `Segments.RecalcSegments` | linux-2.6.24-ssl/block/ll_rw_blk.c:1191-1261 | The loop computes these sizes, and no more hardware than physical segments |
| `Segments.MapSg` | linux-2.6.24-ssl/block/ll_rw_blk.c:1304-1362 | The loop writes the mapping, whose entries tile the bvecs and are maximal, and stays within a list of the counted size |
| `Completion.CompleteIsExact` | linux-2.6.24-ssl/block/ll_rw_blk.c:3418-3532 | Completing n bytes leaves exactly the bytes behind the first n |
| `Completion.EndedInOrder` | linux-2.6.24-ssl/block/ll_rw_blk.c:3433-3500 | Each bio is ended once, in chain order |
| `Completion.ErrorReported` | linux-2.6.24-ssl/block/ll_rw_blk.c:3418-3500 | Over any number of partial completions: each bio is ended by the call that completes its last byte, with the error of that call, else with -EIO if an earlier call completed any of its bytes with an error, else with 0 |
| `Completion.DoneWhenEmpty` | linux-2.6.24-ssl/block/ll_rw_blk.c:3506-3510 | The request is done exactly when no byte remains |
| `Completion.CompleteTwice` | linux-2.6.24-ssl/block/ll_rw_blk.c:3418-3532 | Completing a and then b bytes leaves what completing a + b leaves |
| `Completion.Request.EndFirst` | linux-2.6.24-ssl/block/ll_rw_blk.c:3418-3532 | The loop over bios and bvecs in place; the return value says whether bios are left |
| `Merging.FromEmpty` | linux-2.6.24-ssl/block/ll_rw_blk.c:2863-3064 | Over every run of inserts, merges of bios, joins and dispatches: the bios in requests are those that were brought, each in exactly one request, in requests whose bios cover their sectors without gaps |
| `Merging.RunKeeps` | linux-2.6.24-ssl/block/elevator.c:285-512 | The invariant over every run from any good state: hash exact, last_merge in the scheduler, bios owned once |
| `Merging.FindExact` | linux-2.6.24-ssl/block/elevator.c:310-330 | A request is found if and only if a mergeable scheduled request ends at the offset |
| `Merging.FindKeeps` | linux-2.6.24-ssl/block/elevator.c:318-324 | Dropping requests that can no longer be merged keeps the hash exact |
| `Merging.BackMergeKeeps` | linux-2.6.24-ssl/block/ll_rw_blk.c:2994-3011 | Appending a bio, with or without joining the next request |
| `Merging.FrontMergeKeeps` | linux-2.6.24-ssl/block/ll_rw_blk.c:3013-3038 | Prepending a bio, with or without joining the previous request; the end does not move and the hash stays as it is |
| `Merging.JoinKeeps` | linux-2.6.24-ssl/block/ll_rw_blk.c:2863-2914 | The surviving request covers both, is hashed at the new end, and the other one leaves the hash |
| `Merging.ChooseFinds` | linux-2.6.24-ssl/block/elevator.c:454-484 | elv_merge chooses a request if one ends where the bio starts and no other test forbids it |
| `Merging.ChooseTouches` | linux-2.6.24-ssl/block/elevator.c:454-484 | It chooses only mergeable requests that touch the bio, so the `BUG_ON`s of __make_request hold |
| `Merging.MergeOutcome` | linux-2.6.24-ssl/block/ll_rw_blk.c:2991-3043 | When no other test forbids it: the bio is offered to last_merge behind, then in front, then to a request that ends where it starts, then to the scheduler's proposal; it becomes the last or first bio of that request, which may be joined with its neighbour, exactly if the limits permit; if they do not, no bios change and the request is no longer mergeable |
| `Merging.MergeAny` | linux-2.6.24-ssl/block/ll_rw_blk.c:2991-3043 | Whatever the other tests forbid: the same outcome for some allowed request that touches the bio, or nothing but the hash changes |
| `MergeQueues.MergeQueue.Lookup` | linux-2.6.24-ssl/block/elevator.c:310-330 | The walk along the bucket in place |
| `MergeQueues.MergeQueue.MergeBio` | linux-2.6.24-ssl/block/ll_rw_blk.c:2991-3043 | elv_merge, the limits and the two merges in place, with the outcome of MergeAny and MergeOutcome; a merged bio is added once, otherwise the bios stay |
| `MergeQueues.MergeQueue.AttemptMerge` | linux-2.6.24-ssl/block/ll_rw_blk.c:2863-2914 | attempt_merge and elv_merge_requests in place |
| `MergeQueues.MergeQueue.AddRequest` | linux-2.6.24-ssl/block/elevator.c:574-589 | A new request is hashed and becomes last_merge if there is none; it was not hashed before |
| `MergeQueues.InsertJoins` | linux-2.6.24-ssl/block/elevator.c:579-585 | A new request is in the bucket of its end exactly if it can be merged, and is last_merge exactly if there was none |
| `MergeQueues.MergeQueue.Send` | linux-2.6.24-ssl/block/elevator.c:396-452 | A dispatched request leaves the hash and last_merge |
| `Md5Padding.LengthWords` | linux-2.6.24-ssl/crypto/md5.c:208-209 | The two words are the length in bits modulo 2^64, as section 3.2 of RFC 1321 orders it |
| `Md5Padding.PaddedInjective` | linux-2.6.24-ssl/crypto/md5.c:190-209 | Different messages below 2^61 bytes have different paddings |
| `Md5Padding.IterateAppend` | linux-2.6.24-ssl/crypto/md5.c:161-188 | Whole blocks may be absorbed in any portions |
| `Md5.PadShort` | linux-2.6.24-ssl/crypto/md5.c:190-207 | The padding that fits into the last block is that of section 3.1 of RFC 1321 |
| `Md5.PadLong` | linux-2.6.24-ssl/crypto/md5.c:197-202 | The padding that takes one more block is, too |
| `Md5.Context.Update` | linux-2.6.24-ssl/crypto/md5.c:161-188 | However the message is split, the context is that of the concatenated message |
| `Md5.Context.Final` | linux-2.6.24-ssl/crypto/md5.c:190-215 | The digest is the iteration over the padded message, and the context is wiped |
| `Digests.Update` | linux-2.6.24-ssl/crypto/digest.c:34-84 | The message goes on with the first nbytes of the scatterlist, wherever its entries lie in memory and whatever the alignment |
| `Digests.UpdatePage` | linux-2.6.24-ssl/crypto/digest.c:54-78 | Nothing is read from beyond the page that is mapped |
| `Digests.Digest` | linux-2.6.24-ssl/crypto/digest.c:128-137 | init, update2 and final give the digest of the bytes |
| `Digests.GatherPrefix` | linux-2.6.24-ssl/crypto/digest.c:43-81 | The first n bytes of a scatterlist are those of its first entry and those of the rest |
| `Hmac.Context.SetKey` | linux-2.6.24-ssl/crypto/hmac.c:44-84 | Keys longer than a block are hashed, shorter ones filled with zeros; then both pads |
| `Hmac.Context.Init` | linux-2.6.24-ssl/crypto/hmac.c:86-104 | The child has absorbed the inner pad |
| `Hmac.Context.Update` | linux-2.6.24-ssl/crypto/hmac.c:108-118 | The text goes on with the bytes of the scatterlist |
| `Hmac.Context.Final` | linux-2.6.24-ssl/crypto/hmac.c:120-141 | init, updates and final give the keyed hash of section 2 of RFC 2104 |
| `Hmac.Context.Digest` | linux-2.6.24-ssl/crypto/hmac.c:143-172 | The one-call form, with the pad chained in front of the list, gives the same |
| `Hmac.Chained` | linux-2.6.24-ssl/crypto/hmac.c:161-166 | The chained list holds the pad and then the text |
| `Spawns.Finish` | linux-2.6.24-ssl/crypto/algapi.c:84-129 | For any set of algorithms whose matching spawns are to be removed: at the end of the worklist exactly the spawns reached from a selected spawn are unlinked, exactly their instances have died, and those alive and registered before are on the removal list once |
| `Spawns.StepKeeps` | linux-2.6.24-ssl/crypto/algapi.c:84-109 | Removing one spawn keeps this for the spawns removed so far |
| `Spawns.GoneIsReached` | linux-2.6.24-ssl/crypto/algapi.c:111-129 | Removed and reached spawns are the same when the secondary list is empty |
| `Spawns.RetiredOrNot` | linux-2.6.24-ssl/crypto/algapi.c:84-109 | A registered instance whose template can be referenced goes to the removal list and takes all its users with it; any other one dies and stays where it is, and loses only users that were selected themselves |
| `Spawns.SameTypeIs` | linux-2.6.24-ssl/crypto/algapi.c:116-119 | A spawn is selected exactly if the flags under its mask are those of the new type |
| `Spawns.FinishInv` | linux-2.6.24-ssl/crypto/algapi.c:111-129 | The registry is consistent afterwards |
| `Registries.Registry.RemoveSpawns` | linux-2.6.24-ssl/crypto/algapi.c:111-129 | Both loops in place, with the splices at the head; they end even if an instance has several spawns |
| `Registries.Registry.RemoveSpawn` | linux-2.6.24-ssl/crypto/algapi.c:84-109 | One removal in place |
| `Registries.Registry.RemoveAlg` | linux-2.6.24-ssl/crypto/algapi.c:224-236 | -ENOENT for an algorithm that is not registered; otherwise no user of it is left alive |
| `Registries.Registry.InitSpawn` | linux-2.6.24-ssl/crypto/algapi.c:366-384 | -EAGAIN for a dying algorithm; otherwise the spawn becomes its first user, and the invariant holds |
| `Registries.Registry.RegisterAlg` | linux-2.6.24-ssl/crypto/algapi.c:130-184 | -EAGAIN for a dead algorithm, -EEXIST for one in the list; the walk removes exactly what is reached from the spawns of the algorithms it sweeps, and none that should be swept is left; then the new algorithm heads the list |
| `Registries.Registry.RegisterInstance` | linux-2.6.24-ssl/crypto/algapi.c:335-364 | The same for an instance, which then is in its template's list, too |
| `Registries.Registry.Allocate` | linux-2.6.24-ssl/crypto/algapi.c:512-519 | A new instance or algorithm has no users and does not disturb the registry |
| `Registries.Registry.RemoveMore` | linux-2.6.24-ssl/crypto/algapi.c:111-129 | The two loops, called for one algorithm after others: together they remove what is reached from any of them |
| `Registries.WalkSweeps` | linux-2.6.24-ssl/crypto/algapi.c:144-176 | The algorithm whose spawns are removed stays in the list, so the walk may go on from it |
| `Registries.ResetKeeps` | linux-2.6.24-ssl/crypto/algapi.c:139 | Resetting cra_users is harmless if and only if the list is empty |
| `Registries.AllRemoved` | linux-2.6.24-ssl/crypto/algapi.c:233-234 | An algorithm's own flags select all of its spawns |
| `Cbc.DecryptUndoesEncrypt` | linux-2.6.24-ssl/crypto/cbc.c:42-208 | Decryption undoes encryption for any number of blocks (section 6.2 of NIST SP 800-38A) |
| `Cbc.EncryptedBlock` | linux-2.6.24-ssl/crypto/cbc.c:42-66 | Every block of cipher text is the encryption of the plain block XORed with the cipher block before it or the IV |
| `Cbc.DecryptedBlock` | linux-2.6.24-ssl/crypto/cbc.c:121-147 | Every block of plain text is the decryption of the cipher block XORed with the cipher block before it or the IV |
| `Cbc.EncryptedAppend` | linux-2.6.24-ssl/crypto/cbc.c:97-120 | A message may be encrypted in pieces that carry the IV on |
| `Cbc.DecryptedAppend` | linux-2.6.24-ssl/crypto/cbc.c:187-208 | The same for decryption |
| `CbcMode.Context.EncryptSegment` | linux-2.6.24-ssl/crypto/cbc.c:42-67 | From one buffer to another: the cipher text, the carried IV and the bytes left over |
| `CbcMode.Context.EncryptInplace` | linux-2.6.24-ssl/crypto/cbc.c:69-95 | In place with a pointer as IV: the same three results, and the bytes left over are untouched |
| `CbcMode.Context.DecryptSegment` | linux-2.6.24-ssl/crypto/cbc.c:122-148 | From one buffer to another: the plain text and the carried IV |
| `CbcMode.Context.DecryptInplace` | linux-2.6.24-ssl/crypto/cbc.c:150-185 | In place from the last block to the first: the same plain text and carried IV |
| `CbcMode.Context.Encrypt` | linux-2.6.24-ssl/crypto/cbc.c:97-120 | The result does not depend on the segments or on which of them are in place |
| `CbcMode.Context.Decrypt` | linux-2.6.24-ssl/crypto/cbc.c:187-208 | The same for decryption |
| `CbcMode.XorBlock` | linux-2.6.24-ssl/crypto/cbc.c:210-215 | The byte-wise XOR of two blocks, also of one buffer |
| `Names.ParserUndoesPrinter` | linux-2.6.24-ssl/crypto/cryptomgr.c:67-168 | Parsing a printed name gives the template, the arguments in order and their classification if and only if there are 1 to CRYPTO_MAX_ATTRS - 1 arguments and no algorithm is named like a number; what follows the last parenthesis is ignored |
| `Names.DigitNameMisread` | linux-2.6.24-ssl/crypto/cryptomgr.c:100-135 | The name cbc(12): the algorithm 12 is taken for the number |
| `Names.TooManyArgs` | linux-2.6.24-ssl/crypto/cryptomgr.c:137-138 | 32 arguments are refused |
| `Names.ArgClassified` | linux-2.6.24-ssl/crypto/cryptomgr.c:100-135 | An argument is read back as what was printed if and only if it is not an algorithm with a name of digits |
| `Names.NumberBack` | linux-2.6.24-ssl/crypto/cryptomgr.c:128-134 | A printed number is read back, although a leading 0 would mean octal |
| `Names.PrintBalanced` | linux-2.6.24-ssl/crypto/cryptomgr.c:106-121 | Names nested to any depth have matching parentheses |
| `Names.InstanceParsed` | linux-2.6.24-ssl/crypto/algapi.c:522-529 | The name that crypto_alloc_instance prints is refused exactly if it has 64 characters or more, and parses to its template and algorithm |
| `Names.AuthencParsed` | linux-2.6.24-ssl/crypto/authenc.c:309-319 | The name that the authenc template prints parses to its two algorithms and two numbers |
| `Names.AuthencPrints` | linux-2.6.24-ssl/crypto/authenc.c:309-319 | The name is refused exactly if it would have 64 characters or more |
| `NameParser.ScheduleProbe` | linux-2.6.24-ssl/crypto/cryptomgr.c:84-168 | The loops with cursor and array compute the parse, accept exactly the grammar, and stay within the array |
| `NameGrammar.ParseIs` | linux-2.6.24-ssl/crypto/cryptomgr.c:100-163 | For every string: it is accepted, with this template and these parameters, if and only if it is a word and, in parentheses, 1 to 31 arguments between commas, each a word, or text in matching parentheses behind a possibly empty word, and nothing is demanded of what follows |
| `NameGrammar.CloseIs` | linux-2.6.24-ssl/crypto/cryptomgr.c:119-133 | The counter of the inner loop finds the parenthesis that closes the text, at any depth, if there is one before the end |
| `Names.OctalBack` | linux-2.6.24-ssl/crypto/cryptomgr.c:144-149 | A number with a leading 0 is read as octal modulo 2^32, up to a digit 8 or 9 |
| `Names.DecimalBack` | linux-2.6.24-ssl/crypto/cryptomgr.c:144-149 | A decimal number of any length is read modulo 2^32 |

## Left out

- Barriers by tags or without order, and changes to or from these modes; changes among the draining modes may come at any time and are modelled. Special commands are not marked as hard barriers.
- elv_next_request is one turn of its loop; prep_rq_fn, plugging and accounting are not modelled.
- Camellia's S-box tables are arbitrary functions; reading words from bytes and byte order are outside. The unrolled listings of camellia.c are written once for a group of six rounds.
- AES key lengths are those that the crypto layer lets through (16 to 32 bytes). Words are four bytes; byte order conversion is outside.
- gf128mul_lle and gf128mul_bbe without tables, and gf128mul_x_ble, are left out; the product is defined independently. The two conventions are one parameter of the modelled functions.
- LRW: the child's setkey and the mapping of pages by the walk.
- Deadline: the search for a front merge candidate. Jiffies do not wrap.
- Anticipatory: anticipation, batches and their FIFO order, so any queued request may be the one that is dispatched.
- CFQ: idling, slices and priorities are parameters of the steps; counters per direction and of the driver are left out. The shape of the service tree is arbitrary. Sector numbers and twice the tunable back_seek_max do not wrap.
- Red-black rebalancing: trees are sorted sequences, or arbitrary binary trees where the descent matters.
- Segments: sizes at the hardware ends of a request, and counts after requests were joined.
- Completion: the proxy of a barrier, and the sector counters.
- Merging: tests on direction, device and limits are parameters; sector numbers do not wrap. The requests' count `nr_sorted` and their priorities are left out, and barriers do not take part.
- MD5: the compression function; byte order on other machines. Digest: the copy for an unaligned result, and the refusal in interrupt context. A chained scatterlist is the sequence of its entries.
- HMAC is modelled with MD5 as its child: block size 64 and digest size 16.
- Registry: the tests of names, priorities and larvals in __crypto_register_alg are one parameter; completing larvals, the checks of crypto_check_alg and reference counts are left out. That a template can be referenced is a parameter. RegisterAlg is for an algorithm without users that is in no template's list (see ResetKeeps).
- CBC: xor_quad, xor_64 and xor_128, which compute what xor_byte does on aligned words; buffers that overlap without being the same; how the walk maps memory.
- Name parser: allocation, the probing thread, and copying into fixed-size name fields; the length limit is in the printers.
- Schedulers other than these three, and the ciphers whose proofs would rest on constant tables.
