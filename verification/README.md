# Verified model of libknet's packet path

libknet (part of kronosnet) sends application packets over several lossy links at
once. It numbers them with 16 bits, cuts them to the path MTU it discovers, puts
them together again on the other side, and suppresses duplicates. This project
models that packet path in Dafny and proves what it promises, over whole runs.

Operations that update state in place are methods of classes, each proved equal to a
function on the value of the state. What the library promises is proved about those
functions, over every sequence of events. Inductions are written out in the lemma
bodies; no proof uses automatic induction.

| file | models |
|---|---|
| `Prelude.dfy`, `Arithmetic.dfy` | common definitions, facts about division and products |
| `SeqNumbers.dfy` | the duplicate window: 16-bit numbers read against an unbounded index |
| `Fragmentation.dfy` | cutting a payload for transmission |
| `Reassembly.dfy` | one reassembly buffer |
| `DefragPool.dfy`, `PoolProperties.dfy` | the pool of buffers: growing, eviction, expiry, shrinking |
| `RxModel.dfy`, `RxHost.dfy` | the receive path of one host, as values and as a class |
| `RxRuns.dfy` | safety of whole runs: integrity, at most once, no mixing |
| `RxDelivery.dfy` | completeness of whole runs: a packet that arrives is delivered |
| `Sender.dfy` | numbering of outgoing packets, and receivers that stay in touch |
| `RxWipes.dfy` | at most once across wipes of the window |
| `RxPings.dfy` | what pings do to the window, told from the events |
| `RxUsage.dfy` | when a pool shrinks, told from its usage |
| `RxLosses.dfy` | runs that lose a packet to a shrinking pool |
| `OnwireSizes.dfy` | packet sizes with headers, padding, salt and hash |
| `Pmtud.dfy`, `PmtudSweep.dfy` | path MTU discovery and the data MTU |
| `Links.dfy` | choice and rotation of links |
| `Versions.dfy` | agreement on the on-wire version |
| `Rekey.dfy` | two crypto configurations and switching between them |
| `Heartbeat.dfy` | latency, adjusted timeout, link state |
| `Acl.dfy` | access lists of addresses |

## How the source is read

- A packet has an unbounded index `v` and travels as `v % 65536`. The sender skips
  the indices that would travel as 0.
- The clock, memory allocation, the application taking a packet, and what the network
  does to a packet are parameters. A locked section is one step.
- The divisions by `ceil` on floats are integer ceilings; in the ranges that occur the
  two agree.
- Sizes are 64-bit unsigned and wrap (`Wrap`); the search variables of the MTU
  discovery, the MTU of a link and the latency mean are 32-bit and truncate (`U32`); the
  adjusted timeout is 64-bit (`U64`).
- Encryption is a keyed bijection that adds the sizes given by the padding rule (PKCS#7,
  section 6.3 of RFC 5652). Compression is the identity.
- The pool has at least 2 buffers in `RxHost.Host.PcktDefrag` and in the runs: with one
  buffer the index returned after growth is out of range.
- A fragment carries the sizes its sender gave it (`Storable`, `Processable`); that every
  fragment `Fragmentation.Cut` produces does is part of `RxRuns.DataLive`.

Where code and documentation or expectation differ, the code is modelled:

- `libknet/libknet.h:1979` says an access list entry is inserted at position `index`. The
  loop at `libknet/links_acl_ip.c:278-284` steps past it, and the entry lands two places
  later or at the end (`Acl.Landing`, `Acl.LandsWhereAskedIff`).
- A pool of one buffer that grows hands out an index beyond the pool
  (`libknet/threads_rx.c:312-314`). `PoolProperties.InPoolIff` says for which pools the
  index is always in range, `PoolProperties.IndexInPool` for which states and calls, and
  `PoolProperties.SecondPacketOutOfRange` gets there from the start with two packets.
- The comment at `libknet/threads_rx.c:165-168` says that the buffers in use always fit the
  smaller pool. `RxLosses.SafeInRunsIffCareful` gives the exact condition over all runs
  for both policies; `RxLosses.SomeRunLoses` builds a run that loses a packet whenever it
  does not hold, and `RxLosses.LostForGood` shows that nothing brings it back before the
  window is wiped. Under the averaging policy, with the 255 samples the library takes, it
  holds for the smallest pool only (`PoolProperties.AverageIsNotCareful`).
- The running mean of the latency is kept in 32 bits. `Heartbeat.SoundIffRoomy` gives the
  exact condition on the timers for it never to overflow; a timeout of 2^32 microseconds
  or more, which is accepted, does not meet it.
- A discovery that is called off leaves errno at EDEADLK, and a link that is not due does
  not reset it (`libknet/threads_pmtud.c:489-491`). The test at
  `libknet/threads_pmtud.c:613` then gives up the following sweep too, as long as the first
  link that is up is not due. `PmtudSweep.Completes` has the exact condition for sweeps in
  which no discovery is called off, `PmtudSweep.StaleErrnoGivesUp` and
  `PmtudSweep.TwoSweepsGivenUp` the runs. This takes errno to be left alone by the calls
  in between, successful ones that do not set it.
- A number 4096 behind is sometimes taken as inside the 4096-slot ring;
  `SeqNumbers.ReadsTrueOrder` gives the exact condition.

## Model

| member | source | states |
|---|---|---|
| `SeqNumbers.InRingExactly` | libknet/host.c:641-651 | the 16-bit distance test accepts exactly the numbers less than 4096 behind, plus number 4096 behind when no wrap lies between |
| `SeqNumbers.ReadsTrueOrder` | libknet/host.c:641-655 | a number is read as old or new in agreement with the true order of the indices if and only if it is at most 4095 behind or 61439 ahead, plus one exactly characterised number at either end |
| `SeqNumbers.AdvanceTracks` | libknet/host.c:655-674 | moving the window, through wrap and far jumps, keeps the ring equal to the set of marked indices on the 4096 newest |
| `SeqNumbers.MarkTracks` | libknet/host.c:679-688 | marking a number adds exactly its index to that set |
| `Fragmentation.PrepTxBufs` | libknet/onwire_v1.c:148-230 | the loop produces exactly the messages of `Cut`: numbers, counts and bytes |
| `Fragmentation.PieceFits` | libknet/onwire_v1.c:183-217 | the pieces tile the payload, all of MTU size but the last, which is not empty |
| `Fragmentation.CutLosesNothing` | libknet/onwire_v1.c:183-217 | the bodies put one after the other are the payload |
| `Fragmentation.LaterFragmentsAreSmaller` | libknet/handle.c:169-170 | fragment `i` carries at most an `i`-th part of the largest payload |
| `Reassembly.AbsorbStep` | libknet/threads_rx.c:346-436 | any fragment, new or repeated, is added to what the buffer has; the payload comes out with the last distinct one and never before |
| `Reassembly.AssembleWhole` | libknet/threads_rx.c:411-433 | with all fragments stored the copy-out is the payload, also when the last fragment was parked at the end of the buffer |
| `Reassembly.RoundTrip` | libknet/threads_rx.c:334-437 | for 2 to 254 fragments, any order, any repeats: not complete until the last distinct fragment, then exactly the payload |
| `DefragPool.PowerOfTwoTest` | libknet/handle_api.c:645-651 | the bit test holds exactly for the powers of two |
| `DefragPool.ExpiredExactly` | libknet/host.c:574-605 | the head/tail comparison releases exactly the numbers more than the reach behind, if and only if the reach is at most 65533 |
| `DefragPool.ShrinkLosesNothing` | libknet/threads_rx.c:169-193 | for every number the scan finds the same contents in the compacted, shortened pool as before, or nothing both times, despite stale copies |
| `DefragPool.ShrinkTooFarLoses` | libknet/threads_rx.c:169-193 | with more in use than that, a packet in reassembly is lost |
| `DefragPool.ThresholdIsSafe` | libknet/handle_api.c:680-684 | every usage at or below the threshold fits half the pool if and only if the threshold is at most 49 or the pool at most 64 |
| `RxHost.Host.ClearDefragBufsStats` | libknet/host.c:552-557 | the usage samples are cleared and nothing else changes |
| `RxHost.Host.ClearCbuffers` | libknet/host.c:559-572 | both rings, all buffers and the samples are cleared, the reference is set |
| `RxHost.Host.ReclaimOldDefragBufs` | libknet/host.c:574-605 | exactly the buffers more than max(maximum, allocated) behind are released, the others are untouched |
| `RxHost.Host.SeqNumLookup` | libknet/host.c:612-677 | the answer and the new state are those of `Lookup`, whose runs are proved below |
| `RxHost.Host.MoveWindow` | libknet/host.c:655-674 | the memsets clear exactly the slots of the numbers the window moves over |
| `RxHost.Host.SeqNumSet` | libknet/host.c:679-688 | one slot of the chosen ring is set |
| `RxHost.Host.ReallocDefragBuffers` | libknet/threads_rx.c:212-255 | the pool doubles with free buffers if the limit and memory allow, else nothing changes |
| `RxHost.Host.FindPcktDefragBuf` | libknet/threads_rx.c:262-332 | the buffer in use for the number, else a newly allocated one, else -1 if the packet was given up before |
| `RxHost.Host.TakeBuf` | libknet/threads_rx.c:298-331 | a free buffer, else growth, else the oldest is given up |
| `RxHost.Host.PcktDefrag` | libknet/threads_rx.c:334-437 | the fragment is stored in that buffer; the packet comes out when complete |
| `RxHost.Host.ProcessData` | libknet/threads_rx.c:623-724 | lookup, reassembly, delivery and marking in that order, with each early return |
| `RxHost.Host.ProcessPingV1` | libknet/onwire_v1.c:63-104 | the state after a ping is that of `ProcessPing`, whose wipes are characterised over runs below |
| `RxHost.Host.CountInUse` | libknet/threads_rx.c:107-113 | the number of buffers in use |
| `RxHost.Host.RecordUsage` | libknet/threads_rx.c:115-126 | the percentage goes to the oldest place of the ring of samples, which is the history of the last periods by `RxUsage.SampleRecorded` |
| `RxHost.Host.TooBusy` | libknet/threads_rx.c:136-160 | whether the samples forbid shrinking, for either policy |
| `RxHost.Host.CompactBufs` | libknet/threads_rx.c:169-179 | the in-place loop leaves the used buffers in order at the front and the tail as it was |
| `RxHost.Host.ShrinkDefragBuffers` | libknet/threads_rx.c:68-198 | one sampling period of a host, failed reallocation included |
| `PoolProperties.IndexInPool` | libknet/threads_rx.c:262-332 | the index is in range and names the number's own buffer or a free one, except exactly when the one buffer is held by another packet within reach, the number is new and the pool can grow |
| `PoolProperties.InPoolIff` | libknet/threads_rx.c:312-314 | for a pool of n every state and call gives an index in range if and only if n is at least 2 or the maximum is 1 |
| `PoolProperties.SecondPacketOutOfRange` | libknet/threads_rx.c:312-314 | a host that starts with one buffer gets an index out of range with the first fragment of its second packet |
| `PoolProperties.AllocateSparesOthers` | libknet/threads_rx.c:298-331 | only the buffer handed out changes; a packet is given up only when all are used and the pool cannot grow, and it is the one idle longest |
| `PoolProperties.TickLosesNothing` | libknet/threads_rx.c:68-198 | housekeeping of a careful pool changes the result of no scan, in any state |
| `PoolProperties.CrowdedLoses` | libknet/threads_rx.c:136-193 | in a pool that is not careful, half and one more in use after a quiet time are halved and the last of them is lost |
| `PoolProperties.SafeIffCareful` | libknet/threads_rx.c:102-198 | every state of a pool of n keeps every scan result if and only if n is the minimum or the percentage of n/2 + 1 is above the limit the samples allow |
| `PoolProperties.AbsoluteIsCareful` | libknet/threads_rx.c:148-160 | under the absolute policy that is: the minimum, or a threshold of at most 49, or at most 64 buffers |
| `PoolProperties.AverageIsNotCareful` | libknet/threads_rx.c:136-147 | under the averaging policy with 255 samples that is: the minimum only |
| `RxLosses.SomeRunLoses` | libknet/threads_rx.c:68-198 | for any packets that split, in a pool that is not careful, some run from the start reaches a state whose housekeeping takes the buffer of a packet in reassembly |
| `RxLosses.LostForGood` | libknet/threads_rx.c:279-296 | over every continuation without a wipe such a packet is not delivered, even if all its fragments arrive |
| `RxLosses.SafeInRunsIffCareful` | libknet/threads_rx.c:68-198 | over all runs from the start, housekeeping of a pool of n changes the result of no scan if and only if the pool is careful |
| `RxRuns.LookupLive` | libknet/host.c:612-677 | a lookup of any index in the window answers by the set of marked indices and keeps rings, set and buffers in agreement |
| `RxRuns.ReclaimedStayOwned` | libknet/host.c:574-605 | releasing old buffers lets the newest index move a whole horizon without any buffer's number changing its meaning |
| `RxRuns.FindLive` | libknet/threads_rx.c:262-332 | a fragment only ever joins a buffer of its own packet or a free one; it is turned away only if its packet lost its buffer |
| `RxRuns.CutCarries` | libknet/onwire_v1.c:183-228 | the data events of a run are exactly the messages the sender cuts |
| `RxRuns.DataLive` | libknet/threads_rx.c:658-723 | a data packet is delivered exactly when it is new, whole and taken, with the payload sent under its index |
| `RxRuns.TickKeepsOwned` | libknet/threads_rx.c:68-198 | housekeeping keeps the size a power of two within limits and changes no contents |
| `RxRuns.StepOk` | libknet/threads_rx.c:623-724 | data, pings, loss of connectivity and housekeeping all keep the receiver in step with its history |
| `RxRuns.DeliveredAsSent` | libknet/threads_rx.c:658-723 | in every run, each delivery has the payload sent under its index, and no index is delivered twice without a wipe between |
| `RxRuns.AtMostOnce` | libknet/threads_rx.c:658-723 | in every run without a wipe, no index is delivered twice |
| `RxRuns.RingRefinesLog` | libknet/host.c:612-688 | after every run a slot of the window is set, in either ring, if and only if its index was delivered, or given a buffer, since the last wipe |
| `RxRuns.BuffersNeverMix` | libknet/host.c:574-605 | after every run the pool size is a power of two within limits, and a buffer in use holds fragments of exactly one packet, never of one 65536 older |
| `RxRuns.FirstArrivalDelivered` | libknet/threads_rx.c:658-723 | a whole packet not delivered before is never taken for a duplicate |
| `RxRuns.BeyondHorizonMixes` | libknet/threads_rx.c:271-277 | a buffer at the end of the reach is found for the packet 65536 newer; for pools of 8192 and more that is the first index beyond the horizon |
| `RxWipes.PingsApart` | libknet/threads_tx.c:393-406 | different pings of the sender are at least 8191 indices apart, across the wrap |
| `RxWipes.AtMostOnceAcrossWipes` | libknet/onwire_v1.c:63-104 | in every run whose wipes are by the sender's pings, however many, no index is delivered twice |
| `RxPings.RestartForgets` | libknet/onwire_v1.c:96-101 | over every run, a timed ping with 0 after one with another number leaves the receiver as at the start, buffers and samples included |
| `RxPings.DeliveredAfterRestart` | libknet/onwire_v1.c:96-101 | the next whole packet is then delivered under any number, also one delivered before |
| `RxPings.OtherTimedPings` | libknet/onwire_v1.c:90-103 | every other timed ping changes nothing but the number it is remembered by |
| `RxPings.UntimedPingEmptiesIff` | libknet/onwire_v1.c:68-89 | over every run, an untimed ping empties the window if and only if it differs from the one before and no data came since the last one that did |
| `RxUsage.SumOfTwo` | libknet/threads_rx.c:136-142 | adding up the samples takes each of them into account, once |
| `RxUsage.SumOfSingle` | libknet/threads_rx.c:136-142 | and a single sample as it is |
| `RxUsage.SampleRecorded` | libknet/threads_rx.c:115-126 | the ring of samples, read from the oldest, is the usage of the last periods |
| `RxUsage.BusyIffTooMuch` | libknet/threads_rx.c:136-160 | the samples forbid shrinking if and only if one is above the threshold, or their sum reaches their number times the threshold plus one |
| `RxUsage.HalvesIff` | libknet/threads_rx.c:68-198 | over every run, housekeeping halves the pool if and only if it is above the minimum, memory can be given back, and the last periods since growth, wipe or halving are as many as samples and were not too busy |
| `RxUsage.DueCompacts` | libknet/threads_rx.c:169-188 | when it is due the used buffers move to the front, even if the memory cannot be given back |
| `RxDelivery.AllocateKeepsFound` | libknet/threads_rx.c:298-331 | allocation takes a packet's buffer away only if the pool is full, cannot grow, and that buffer is the one idle longest |
| `RxDelivery.EvictedIsReleased` | libknet/threads_rx.c:316-331 | and in that case it does take it |
| `RxDelivery.StepGathers` | libknet/threads_rx.c:334-437 | any event that leaves a packet its buffer adds exactly the fragment it brings, and the completing fragment delivers |
| `RxDelivery.DeliveredIffComplete` | libknet/threads_rx.c:623-724 | between any other traffic that does not evict it, full pools included, a packet is delivered if and only if all its missing fragments arrive |
| `RxDelivery.CompletePacketDelivered` | libknet/threads_rx.c:623-724 | a packet never heard of before is delivered once all its fragments have arrived |
| `Sender.Counter.GetTxSeqNum` | libknet/threads_tx.c:367-408 | the next index, never travelling as 0, and whether a ping goes out |
| `Sender.NthIs` | libknet/threads_tx.c:378-390 | the `n`-th packet has number (n-1) mod 65535 + 1: a period one short of the receiver's |
| `Sender.PingsAreFrequent` | libknet/threads_tx.c:393-406 | at most 8198 indices lie between pings, across the wrap, and the last ping index is exact |
| `Sender.PingsKeepReceiverInStep` | libknet/threads_tx.c:393-406 | a receiver that heard the last ping, or anything newer, can place every packet at most 4095 late, whatever its pool |
| `Sender.InTouchIsPossible` | libknet/threads_tx.c:393-406 | so every sequence of events before each of which it had is a run from the start, and all theorems about runs hold for it |
| `OnwireSizes.PadsToNextBlock` | libknet/onwire.c:51-74 | padding reaches the next multiple of the block and adds a whole block to aligned data |
| `OnwireSizes.Adjoint` | libknet/onwire.c:51-115 | for all payloads, within the maximum is the same as fitting, if and only if an empty packet fits |
| `OnwireSizes.MaxIsMonotone` | libknet/onwire.c:76-115 | more room never gives a smaller maximum |
| `OnwireSizes.OutlenIsMonotone` | libknet/onwire.c:51-74 | less data never takes more room |
| `OnwireSizes.RoundedIsGridPoint` | libknet/onwire.c:51-115 | rounding goes down by less than a block, keeps the maximum payload and is idempotent |
| `OnwireSizes.MinMtuFits` | libknet/onwire.c:124-127 | every packet within the failsafe MTU fits 576-byte IPv4 and 1280-byte IPv6 links over UDP and SCTP, if and only if a ping fits |
| `OnwireSizes.MinMtuIsLargest` | libknet/onwire.c:124-127 | and it is the largest that does |
| `OnwireSizes.FewFragments` | libknet/onwire_v1.c:171-171 | the largest payload gives at most 254 fragments if and only if the MTU is at least 259 |
| `OnwireSizes.MinMtuLimitsFragments` | libknet/onwire.c:124-127 | with block, salt and hash at most 223, any MTU from the failsafe up keeps the count within 254 |
| `OnwireSizes.CryptBufSuffices` | libknet/handle.c:219-220 | the encrypted form of every fragment fits its shrinking buffer when block, salt and hash are at most 1036 |
| `Pmtud.ProbeLenIs` | libknet/threads_pmtud.c:117-140 | a probe has the largest size of a packet not above the size asked for |
| `Pmtud.LossOnTrack` | libknet/threads_pmtud.c:372-384 | a lost probe is asked again with twice the timeout while that can be the reason, and only then taken as too big |
| `Pmtud.ProbeOnTrack` | libknet/threads_pmtud.c:250-470 | on a stable path each probe narrows the search, is repeated, or ends it at the path MTU, within a budget of 25 probes and three interrupted waits |
| `Pmtud.SendErrorRepeats` | libknet/threads_pmtud.c:292-294 | after a send error between two known bounds the same size is probed again with the same timeout |
| `Pmtud.PaceStep` | libknet/threads_pmtud.c:412-427 | a discovery with quick answers and no loss ends with half the timeout multiplier or the least one; without quick answers it never falls |
| `Pmtud.Link.HandleOutcome` | libknet/threads_pmtud.c:250-470 | the in-place reaction to every outcome of a probe is that of `React`, whose searches are proved below |
| `Pmtud.Link.HandleCheckLinkPmtud` | libknet/threads_pmtud.c:48-470 | on any network the multiplier stays a power of two in 2..128, at most 30 probes are sent and an MTU that is found was acknowledged; on a stable path, with crypto in use also one that answers only once the multiplier is large enough, discovery succeeds unless called off, in at most 28 probes, and finds exactly the path MTU |
| `PmtudSweep.CheckPmtud` | libknet/threads_pmtud.c:472-557 | a link that is not due, or whose discovery is called off, keeps its MTU and validity; any other is measured: valid only with an MTU acknowledged just now, and right on a stable path; errno says called off only if it was |
| `PmtudSweep.UnansweredIsInvalid` | libknet/threads_pmtud.c:515-524 | a link that is measured and gets no answer is invalid, whatever it was before |
| `PmtudSweep.Sweep` | libknet/threads_pmtud.c:596-643 | links that are up and due are measured and no other changes; a completed sweep makes the data MTU the least of the valid links', one that is given up leaves it; with nothing called off a sweep is given up exactly if errno is left over and the first link up is not due |
| `PmtudSweep.PmtudLinkThread` | libknet/threads_pmtud.c:575-655 | the loop over any number of sweeps leaves a trace, errno included, in which each stage follows from the one before |
| `PmtudSweep.StaleErrnoGivesUp` | libknet/threads_pmtud.c:613-615 | after a sweep that is called off, every following one is given up and changes nothing for as long as the first link up is not due |
| `PmtudSweep.TwoSweepsGivenUp` | libknet/threads_pmtud.c:613-615 | the least case: one link, called off once, then not due and nothing called off |
| `PmtudSweep.RightForever` | libknet/threads_pmtud.c:472-557 | over every such trace, a link whose path stays as it is never has a wrong MTU that counts as valid |
| `PmtudSweep.LowestIs` | libknet/threads_pmtud.c:596-643 | that least value is a lower bound for the links that are up and valid, and is reached |
| `PmtudSweep.DataMtuIs` | libknet/threads_pmtud.c:634-643 | over every trace, the data MTU changes only by a completed sweep with a valid link, to the least MTU of those |
| `PmtudSweep.EverythingSentFits` | libknet/onwire_v1.c:169-221 | after every completed sweep of every trace, each piece cut with the data MTU, encrypted and with all headers, fits the path of every link that is up with a valid MTU, due or not |
| `PmtudSweep.FailsafeFits` | libknet/threads_pmtud.c:573-573 | at any stage each piece cut with the failsafe MTU, used before the first sweep and after a reset, fits the path of every link with a valid MTU |
| `Links.DstCache.UpdateSync` | libknet/host.c:706-755 | the cache holds the eligible links in order, or the best one under the passive policy; what was received is wiped exactly when no link is usable; the loop shortcut leaves the cache |
| `Links.EligibleIs` | libknet/host.c:717-738 | each enabled, connected link with a valid MTU, once, in increasing order |
| `Links.BestIsBest` | libknet/host.c:727-732 | the passive choice has the highest priority, and the lowest id among equals |
| `Links.DstCache.DispatchToLinks` | libknet/threads_tx.c:36-141 | which links take a packet when some are passed over or fail, and that round robin rotates in place exactly when a link took it |
| `Links.TakersWithoutTrouble` | libknet/threads_tx.c:44-134 | without loopback links and failures that is the first link under round robin, all of them otherwise |
| `Links.TakersAre` | libknet/threads_tx.c:44-134 | in general those not passed over up to the first failure, or the first of them; all is well if that failure is not met |
| `Links.AfterPermutes` | libknet/threads_tx.c:122-130 | rotation only reorders the links |
| `Links.EachOnce` | libknet/threads_tx.c:122-130 | any k consecutive packets over k links use each exactly once |
| `Links.DstCache.SendRoundRobin` | libknet/threads_tx.c:36-141 | n packets sent without trouble use the links, and leave the cache, as that rotation says |
| `Versions.Handle.SetOnwireVer` | libknet/onwire.c:236-265 | only 0 or a supported version can be forced |
| `Versions.Handle.PacketChecks` | libknet/threads_rx.c:796-837 | the checks are those of `Accepts` |
| `Versions.AcceptedIff` | libknet/threads_rx.c:799-836 | a ping is accepted if and only if the two can reach each other and its sender does not lag behind, which a forced version lets pass |
| `Versions.OldNodesAdvertiseOne` | libknet/threads_rx.c:796-801 | a ping without a highest version has the effect of one that advertises 1 |
| `Versions.LearnsWithinReach` | libknet/host.c:772-829 | a node learns only from pings within its reach and takes no version it does not support |
| `Versions.Handle.HandleOnwireVersion` | libknet/host.c:772-829 | the node after an accepted ping is that of `Receive` |
| `Versions.CommonIs` | libknet/host.c:791-815 | the computed version is the least highest version of the node and of the hosts it can talk to |
| `Versions.MissingNodeAccepts` | libknet/threads_rx.c:799-836 | a node still missing a peer turns no ping away |
| `Versions.Agreement` | libknet/host.c:772-829 | in every run, strangers included, each node is at the minimum or at the least of all maxima, and at the latter once it has had a ping from every peer; a node that knows all its peers turns away exactly the pings sent below it |
| `Versions.StrangersDoNotMatter` | libknet/threads_rx.c:803-819 | a cluster that also gets pings out of reach ends exactly where it would have without them |
| `Versions.ForcedVersionHolds` | libknet/host.c:821-823 | over every run, a node with a forced version is at it from when it knows all its peers, and where it started until then |
| `Rekey.Handle.UseConfig` | libknet/crypto.c:127-151 | the sending slot changes only to a filled one, with its sizes cached |
| `Rekey.Handle.SetConfig` | libknet/crypto.c:351-417 | the new state is that of `Setting` |
| `Rekey.InstalledOpens` | libknet/crypto.c:284-286 | a usable configuration for a slot not in use is installed: the node opens what its key seals, and else exactly what the other slot opens |
| `Rekey.ClearedOpens` | libknet/crypto.c:386-393 | a cleared slot opens nothing, the other what it did |
| `Rekey.RefusedSetting` | libknet/crypto.c:366-384 | any other call fails and changes nothing |
| `Rekey.ChosenSeals` | libknet/crypto.c:127-151 | choosing a filled slot seals with its key and counts with its sizes, slot 0 sends in clear, any other choice is refused |
| `Rekey.FirstConfiguration` | libknet/libknet.h:797-800 | a new handle given a configuration and told to use it seals with its key and opens that |
| `Rekey.Handle.Encrypt` | libknet/crypto.c:50-68 | a packet is sealed with the key of the slot in use |
| `Rekey.Handle.AuthenticateAndDecrypt` | libknet/crypto.c:70-125 | a packet is opened if and only if some installed slot has its key |
| `Rekey.RekeyIsSeamless` | libknet/libknet.h:797-807 | in every state of every ordered rekey all nodes open whatever any node sends, and all that was sent except under a key they dropped; the slot in use is filled and the cached sizes are its own |
| `Rekey.RekeyCompletes` | libknet/libknet.h:797-807 | from any start the documented sequence can be carried out at all nodes, and ends with all sending under the new key and, where the keys differ, none opening the old one |
| `Rekey.EarlySwitchBreaks` | libknet/libknet.h:805-807 | after an early switch a node without the new configuration cannot open what is sent |
| `Heartbeat.LinkState.ProcessPong` | libknet/threads_heartbeat.c:285-326 | the mean with its minimum and maximum, the pong counter and the link state after a pong |
| `Heartbeat.LinkState.LinkDown` | libknet/threads_heartbeat.c:27-38 | counter and backoff are reset and the link is down |
| `Heartbeat.LinkState.AdjustPongTimeout` | libknet/threads_heartbeat.c:375-379 | the backoff decreases to 1 and the timeout follows it and the mean |
| `Heartbeat.RunsAreBounded` | libknet/threads_heartbeat.c:285-326 | in every run neither the product nor the mean wraps, the mean is the true one, between its recorded minimum and maximum and within the timeout; the adjusted timeout is 1 to 12 times the timeout, and a link comes up only with pong number count + 1 since it went down |
| `Heartbeat.RunsTellTheStory` | libknet/threads_heartbeat.c:285-326 | in every run a link is up if and only if more than the count of pongs since it went down had a mean below the adjusted timeout; backoff and timeout follow the adjustments; minimum and maximum are those of all means; and until the samples are limited the mean is that of the latencies, below it by less than half their number |
| `Heartbeat.DefaultsAreRoomy` | libknet/links.c:291-298 | the defaults meet the condition of that theorem |
| `Heartbeat.SoundIffRoomy` | libknet/threads_heartbeat.c:302-303 | no run overflows the mean if and only if the timeout and its product with the number of samples less one fit 32 bits |
| `Acl.Ip6CmpIsNumeric` | libknet/links_acl_ip.c:71-93 | the comparison is the order of the 128-bit numbers |
| `Acl.RangeIsNumeric` | libknet/links_acl_ip.c:99-131 | a range matches exactly the addresses between its ends |
| `Acl.MatchesV4` | libknet/links_acl_ip.c:37-65 | an IPv4 address, range and mask, the mask bit by bit |
| `Acl.MatchesV6` | libknet/links_acl_ip.c:99-131 | an IPv6 address as a number, a mask bit by bit |
| `Acl.AccessList.Validate` | libknet/links_acl_ip.c:137-159 | the verdict is that of the first matching entry, reject by default |
| `Acl.AccessList.FindMatch` | libknet/links_acl_ip.c:179-197 | the first node with the same entry, or none |
| `Acl.SameIsEqual` | libknet/links_acl_ip.c:179-197 | entries are equated exactly if they agree in all that counts |
| `Acl.RefusalLosesNothing` | libknet/links_acl_ip.c:247-250 | an entry refused as present would change no verdict at the end of the list |
| `Acl.AccessList.AddIp` | libknet/links_acl_ip.c:238-305 | a fresh node at the landing position unless there is an equal entry; no other node changes place; no two equal entries |
| `Acl.AccessList.RmIp` | libknet/links_acl_ip.c:199-236 | exactly the node found is unlinked |
| `Acl.AddThenRemove` | libknet/links_acl_ip.c:199-305 | removing the entry just added finds its node and gives back the sequence of nodes |
| `Acl.AccessList.AddThenRm` | libknet/links_acl_ip.c:199-305 | adding at any index and then removing with the same entry restores the very same chain of nodes |
| `Acl.LandsWhereAskedIff` | libknet/links_acl_ip.c:278-284 | the entry is at the position asked for if and only if that is the first or the end |
| `Acl.LandingIs` | libknet/links_acl_ip.c:264-299 | at any other position it goes behind two of the entries from there on, or behind all; a negative index appends |

## Left out

- Sockets, epoll, locks, threads, sleeps, logging and statistics counters: every locked section is one step.
- Bodies of the NSS, OpenSSL and gcrypt modules, compression plugins: foreign libraries.
- SCTP and UDP plumbing, libnozzle, the Rust bindings: wrappers over kernel calls.
- Partial writes when delivering to the application (libknet/threads_rx.c:583-593): delivery is one write.
- Fragments whose sizes do not come from a sender's cut: `Storable` and `Processable` exclude them.
- Payloads of 255 fragments: the map has no entry for the last one, so 2 to 254 are modelled.
- Reassembly buffers as memory: a buffer is a value in a sequence the methods reassign, so aliasing of buffers and the bytes a stale buffer leaves in freed memory are not captured.
- Changing the pool parameters of an existing host, and pools of one buffer in runs.
- Runs in which packets arrive more than 4095 late or beyond the horizon: only `RxRuns.BeyondHorizonMixes` speaks of them.
- Fragmentation.PrepTxBufs: an MTU that gives more than 255 pieces is left to the caller, because converting such a count to 8 bits has no defined value; `OnwireSizes.MinMtuLimitsFragments` says when it cannot occur.
- RxHost.Host.PcktDefrag: a pool of one buffer and fragments that no sender cuts are left out, because the code then writes outside the buffers it has.
- RxHost.Host.ProcessData: the same fragments.
- RxWipes.AtMostOnceAcrossWipes: wipes by a lost connection or by a restarted sender's timed ping end the promise; `RxRuns.DeliveredAsSent` holds for them.
- Manual MTU setting (libknet/threads_pmtud.c:26-46), and a monotonic clock that fails (libknet/threads_pmtud.c:479-482).
- Pmtud.Link.HandleCheckLinkPmtud: the claim about the path MTU assumes a path that does not change, has no other send errors, and whose stray replies come only instead of answers to sizes it does not carry; any other network gets the bounds and that what is found was acknowledged.
- Links.DstCache.DispatchToLinks: retries of a send are part of its outcome.
- Versions.Agreement: host lists do not change during a run and no version is forced; for forced ones there is `Versions.ForcedVersionHolds`.
- Heartbeat.LinkState.ProcessPong: when a link is declared down is an input.
- Heartbeat.LinkState.LinkDown: does not keep the times of the last pong and of the last MTU discovery, which it also resets; being due is an input of the sweep.
- Access lists that mix IPv4 and IPv6 entries.
- Acl.AccessList.RmAll: freeing memory is not modelled.
- Getters and argument checks that one branch settles.
