# Infiniswap, verified

Infiniswap swaps to the memory of remote machines. A block device on the
consumer maps its address space, in chunks of one gibibyte, onto memory that
Providers grant over RDMA. This project models the parts of Infiniswap that
decide, keep account and order events, and proves what they promise over every
input and every run.

Every file is plain Dafny; `dafny verify dfyconfig.toml` checks the project.

## What is modelled

**Remote Chunk module** (`SectorBitmap`, `ChunkState`, `ChunkInvariant`,
`ChunkRuns`, `ChunkTheorems`, `ChunkWaits`, `ChunkWriters`, `ChunkProgress`,
`ChunkReservation`, `ChunkModule`).
Chunks move between UNMAPPED, MAPPING, MAPPED and EVICTING under mapping claims,
eviction claims, I/O leases and Provider failures. Every public call runs under
one lock, so a concurrent history is a sequence of calls. `ChunkState` gives each
call as a function on states. `ChunkRuns` adds what the outside holds (lease
storage and the memory each lease was granted on, the history of sector events,
ended claims, waiting threads) and runs any calls in any order. `ChunkTheorems`,
`ChunkWaits`, `ChunkWriters`, `ChunkProgress` and `ChunkReservation` state the
results. `ChunkModule` is the module as it works, with its chunk, Provider,
candidate, sample and bitmap arrays updated in place, each method proved against
`ChunkState`.

**Provider memory manager** (`MemoryState`, `MemoryInvariant`, `MemoryGrants`,
`MemoryTheorems`, `MemoryManager`). Two pools with quotas, a Host Reserve,
conversion between pools, transactional acquire with rollback, and quarantine for
chunks that cannot be deregistered. Adapters may fail at any point: their answers
are parameters. The one assumption about them is that they do not hand out
addresses or registrations that are in use.

**Remote I/O** (`IoPolicy`, `IoTransaction`, `TransactionEngine`,
`OperationOwner`). The completion policy, the transaction and the RDMA operation
owner run adapter calls outside their locks. Each event is a locked decision, its
adapter calls one by one, and a locked finish, and any number of events interleave
freely.

**Wire protocol** (`WireBytes`, `Wire`, `WireRoundTrip`, `WireCodec`). Encoding,
decoding and negotiation for all thirteen message types over bytes.

**Provider session and authorization** (`ProviderSession`, `SessionDriver`,
`AuthRegistry`, `RegistryDriver`, `AccessControl`). The handshake, the versioned
registry with its listeners, and both together. The message authentication code
is any function, the clock is any reading.

Machine arithmetic is explicit: 64-bit identifiers stop at their limit, the
32-bit availability difference and the 32-bit chunk index wrap as in C, and the
authorization version wraps and skips zero.

## What the code does not promise

- Re-encoding a decoded HELLO does not always give the frame back: the wire
  lengths of its identifiers are not compared with their zero-terminated lengths.
  `WireRoundTrip.DecodeThenEncode` gives the exact condition and
  `WireRoundTrip.ZeroIsLost` a frame.
- A valid sector may have a write in flight, because two write leases may cover
  one sector at the same time. `ChunkWriters.SettledStep` gives the exact
  condition for one call and `ChunkWriters.SettledFromStart` for every run: it
  happens if and only if a write is resolved as successful while another
  unresolved write overlaps it. `ChunkWriters.SectorWrittenTwice` is a run of six
  calls in which it does. `ChunkTheorems.ValidityIsLastSuccess` therefore speaks
  of the last event that touched the sector.
- A transaction may be present after the engine was destroyed. No lock is taken: a
  start reads the engine's flag and registers later, and a destroy reads the counter
  and clears the flag later. `TransactionEngine.EmptyAfterDestroyExactly` gives the
  exact condition: nobody will be present if and only if, when the flag is cleared,
  no transaction is present and no start is between its two steps.
  `TransactionEngine.ArrivalsAfterCheck` says it from the counter read, and
  `TransactionEngine.StartWithinDestroy` is a run of five steps in which a start
  registers within a destroy that succeeds.
- `reload` compares a credential with its predecessor without asking whether the
  predecessor was revoked. Versions still prove standing, because revocation
  itself takes a fresh version (`AuthRegistry.VersionProvesStanding`).

## Model

| member | source | states |
|---|---|---|
| `ChunkTheorems.StaleOnlyAfterFailure` | infiniswap_bd/is_remote_chunk.c:2262-2308 | after every sequence of calls, resolving a lease answers that its mapping generation is outdated only if the Provider it was granted on has failed; no eviction or remapping can make it so |
| `ChunkTheorems.LeaseLosesOnlyItsProvider` | infiniswap_bd/is_remote_chunk.c:2137-2148 | in every reachable state an unreleased lease carries another generation than its chunk if and only if the Provider it was granted on has failed; otherwise the chunk is still backed by exactly the memory the lease was granted on |
| `ChunkTheorems.EvictionRetiresUnleasedMemory` | infiniswap_bd/is_remote_chunk.c:2014-2054 | whenever an eviction finishes successfully, no unreleased lease names a chunk of its batch, and none was granted the Provider chunk that backs one: current leases because no Provider chunk backs two chunks, outdated ones because their Provider has failed |
| `ChunkTheorems.ValidityIsLastSuccess` | infiniswap_bd/is_remote_chunk.c:1991-2012 | in every reachable state a sector's bit is set exactly when the last call that decided it (commit, reset, write-lease acquire, current write resolve) was a successful resolve, and then its chunk is MAPPED or EVICTING |
| `ChunkTheorems.ReadsSeeWrittenSectors` | infiniswap_bd/is_remote_chunk.c:2215-2225 | a read lease is granted only where every sector it covers was last written successfully, on one MAPPED chunk |
| `ChunkTheorems.CountersAreDerived` | infiniswap_bd/is_remote_chunk.c:2435-2478 | in every reachable state the assigned, usable, mapping, eviction and lease counters equal what the chunk table says, chunks name live Providers only, no Provider chunk backs two chunks, and the snapshot's checks pass |
| `ChunkTheorems.FailureExhaustsOnlyByCounters` | infiniswap_bd/is_remote_chunk.c:2117-2131 | failing a live Provider is refused as EXHAUSTED if and only if a 64-bit generation or transition counter is at its limit; the bookkeeping reasons in the same test never hold |
| `ChunkTheorems.DebitsWithinReports` | infiniswap_bd/is_remote_chunk.c:1210-1264 | after any run a Provider that has not failed holds at most the chunks it held at its last observation plus what it then reported, and one never observed holds none |
| `ChunkTheorems.ClaimsEndOnce` | infiniswap_bd/is_remote_chunk.c:811-820 | claims end once each, in the order they were opened; at most the newest is still open and it is the active one |
| `ChunkTheorems.NextMappingNeverInvalid` | infiniswap_bd/is_remote_chunk.c:1407-1421 | while claim numbers last the request for a mapping is never answered INVALID: the Remote-Only branch without an unmapped chunk, and a chosen Provider that is not live, cannot occur |
| `ChunkRuns.FinishUnchanged` | infiniswap_bd/is_remote_chunk.c:1596-1659 | every result of finish other than COMMITTED and ABORTED leaves the module exactly as it was |
| `ChunkTheorems.FinishedIsRemembered` | infiniswap_bd/is_remote_chunk.c:802-820 | right after a commit or an abort the module recognises that same call |
| `ChunkTheorems.RepeatIsDuplicate` | infiniswap_bd/is_remote_chunk.c:1603-1629 | from then on, after any further calls, repeating it answers DUPLICATE and changes nothing, until another claim opens, an eviction begins or the claim's Provider fails |
| `ChunkRuns.StepKeeps` | infiniswap_bd/is_remote_chunk.c:868-2353 | every call, with any arguments in any state, keeps the invariant of the module, of all leases ever issued, of the history of sector events and of the ended claims |
| `ChunkProgress.ReservationCompletes` | infiniswap_bd/is_remote_chunk.c:1388-1472 | with reported memory covering the missing chunks and a fresh usable grant per round, every round asks and commits; the answer is REQUEST until exactly as many rounds as chunks were missing have passed and COMPLETE then |
| `ChunkReservation.ReservationCompletesAmid` | infiniswap_bd/is_remote_chunk.c:1388-1472 | the same with any leases, activity, waits, evictions and stray terminal calls between the rounds and between a request and its commit; excluded are observations, failures, shutting down, asking outside a round and ending the round's own claim |
| `ChunkReservation.OtherAside` | infiniswap_bd/is_remote_chunk.c:1585-1713 | in a Remote-Only module none of those calls changes who backs a chunk, the Providers' reports or the claim and mapping counters, with or without an open claim |
| `ChunkReservation.CommitAmid` | infiniswap_bd/is_remote_chunk.c:1635-1713 | however leases, activity and the rest have moved since the request, the commit is accepted, maps one chunk more and keeps the reservation covered |
| `ChunkReservation.NoEviction` | infiniswap_bd/is_remote_chunk.c:753-789 | without backing every eviction claim is refused, whatever it says |
| `ChunkProgress.RoundMapsOne` | infiniswap_bd/is_remote_chunk.c:1677-1713 | one request and its commit map exactly one more chunk and keep the reservation covered |
| `ChunkProgress.AdmissionReserves` | infiniswap_bd/is_remote_chunk.c:1442-1446 | a Remote-Only module that asks for its first chunk has been promised memory for all of them |
| `ChunkProgress.CommitAccepted` | infiniswap_bd/is_remote_chunk.c:1635-1713 | a usable grant that backs no other chunk of that Provider is always accepted for the open claim |
| `ChunkInvariant.CreateInv` | infiniswap_bd/is_remote_chunk.c:868-980 | a module created with an accepted configuration satisfies the invariant |
| `ChunkInvariant.ObserveKeeps` | infiniswap_bd/is_remote_chunk.c:1210-1264 | an observation, accepted or refused, keeps the invariant and moves no generation |
| `ChunkInvariant.NoteActivityKeeps` | infiniswap_bd/is_remote_chunk.c:1316-1360 | noting activity keeps the invariant and every chunk's placement |
| `ChunkInvariant.NextMappingKeeps` | infiniswap_bd/is_remote_chunk.c:1362-1473 | asking for a mapping keeps the invariant, for every random outcome |
| `ChunkInvariant.FinishMappingKeeps` | infiniswap_bd/is_remote_chunk.c:1567-1717 | finishing keeps the invariant whatever claim, action, Provider and grants are passed |
| `ChunkInvariant.CommitShape` | infiniswap_bd/is_remote_chunk.c:1691-1713 | what a commit does: the one chunk of the claim gets the grant and a fresh generation, its sectors are invalid, the counters rise by one and nothing else moves |
| `ChunkInvariant.BeginEvictionKeeps` | infiniswap_bd/is_remote_chunk.c:1792-1870 | beginning an eviction keeps the invariant; refused batches change nothing |
| `ChunkInvariant.FinishEvictionKeeps` | infiniswap_bd/is_remote_chunk.c:2014-2054 | finishing an eviction keeps the invariant for every claim storage passed |
| `ChunkInvariant.EvictedBatch` | infiniswap_bd/is_remote_chunk.c:753-789 | a claim found valid names exactly the chunks that carry its number, all EVICTING |
| `ChunkInvariant.FailProviderKeeps` | infiniswap_bd/is_remote_chunk.c:2056-2159 | a Provider failure keeps the invariant |
| `ChunkInvariant.FailShape` | infiniswap_bd/is_remote_chunk.c:2132-2155 | what an applied failure does: every chunk of the Provider, and no other, is reset under a fresh generation, an open claim of the Provider ends, and the counters drop by what the Provider held |
| `ChunkInvariant.AcquireKeeps` | infiniswap_bd/is_remote_chunk.c:2161-2260 | acquiring a lease keeps the invariant |
| `ChunkInvariant.ResolveKeeps` | infiniswap_bd/is_remote_chunk.c:2262-2308 | resolving a genuine lease keeps the invariant |
| `ChunkInvariant.ReleaseKeeps` | infiniswap_bd/is_remote_chunk.c:2310-2353 | releasing keeps the invariant for every lease storage |
| `ChunkInvariant.ReconcileExact` | infiniswap_bd/is_remote_chunk.c:1052-1066 | the availability formula, wrap-around included, is the exact difference of report and growth in debits, cut off at zero and at the largest 32-bit value |
| `ChunkInvariant.PlacementChooses` | infiniswap_bd/is_remote_chunk.c:1123-1176 | for every sequence of random numbers the sample holds min(sample size, eligible) different eligible Providers, and the choice is the most available of them, the lowest index among equals |
| `ChunkInvariant.LocateShare` | infiniswap_bd/is_remote_chunk.c:1144-1152 | a pick below the total weight falls on the candidate in whose share of the weight it lies |
| `ChunkInvariant.SampleDistinct` | infiniswap_bd/is_remote_chunk.c:1133-1158 | drawing without replacement by swapping with the last candidate never repeats a candidate and stays among the eligible |
| `ChunkInvariant.RangeExact` | infiniswap_bd/is_remote_chunk.c:2180-2192 | the 64-bit sum and the 32-bit truncation admit exactly the requests that lie inside one existing chunk |
| `ChunkInvariant.TransportInsideGrant` | infiniswap_bd/is_remote_chunk.c:2248-2255 | the bytes a lease may touch lie inside the granted 1 GiB and below two to the sixty-fourth |
| `ChunkInvariant.FailExhausted` | infiniswap_bd/is_remote_chunk.c:2117-2131 | in every state with the invariant, refusal for exhaustion is decided by the two counters alone |
| `SectorBitmap.Apply` | infiniswap_bd/is_remote_chunk.c:607-640 | the word loop refines a set of sectors: test answers whether all sectors of the range are members, set and clear change exactly that range and leave the words outside it alone |
| `SectorBitmap.RangeMaskBits` | infiniswap_bd/is_remote_chunk.c:587-599 | shift, subtract and complement give exactly the bits from first to last, a full word included |
| `SectorBitmap.UpdatedMembers` | infiniswap_bd/is_remote_chunk.c:607-640 | once the masked words of the range are written, exactly the sectors of the range have changed |
| `SectorBitmap.TestedMembers` | infiniswap_bd/is_remote_chunk.c:607-640 | a clear sector in any word compared decides the test against the range; words all set up to its end decide it for the range |
| `ChunkModule.RemoteChunks.constructor` | infiniswap_bd/is_remote_chunk.c:868-980 | the created module's abstract state is the fresh state of an accepted configuration, and it is valid |
| `ChunkModule.RemoteChunks.Observe` | infiniswap_bd/is_remote_chunk.c:1210-1264 | keeps the module valid and gives exactly the answer and state of the specification, with stale, repeated and malformed observations refused |
| `ChunkModule.RemoteChunks.NoteActivity` | infiniswap_bd/is_remote_chunk.c:1316-1360 | the loop adds the saturating activity of exactly the chunks the request covers, answers whether one of them now wants a mapping, and refuses as specified |
| `ChunkModule.RemoteChunks.RosterFind` | infiniswap_bd/is_remote_chunk.c:447-463 | finds the roster position of a handle, or reports that there is none |
| `ChunkModule.RemoteChunks.CountDebits` | infiniswap_bd/is_remote_chunk.c:1028-1050 | the scan counts the chunks that name the Provider and are not UNMAPPED, and of them the assigned ones |
| `ChunkModule.RemoteChunks.EffectiveAvailable` | infiniswap_bd/is_remote_chunk.c:1068-1083 | what the Provider can still take: zero when failed, excluded or unobserved, else the reconciled report |
| `ChunkModule.RemoteChunks.HasPending` | infiniswap_bd/is_remote_chunk.c:1388-1400 | whether a Provider that has not failed has not reported yet |
| `ChunkModule.RemoteChunks.FindWanted` | infiniswap_bd/is_remote_chunk.c:1407-1421 | the first chunk that needs a mapping in this mode |
| `ChunkModule.RemoteChunks.CollectEligible` | infiniswap_bd/is_remote_chunk.c:1422-1441 | the candidate array holds the Providers with memory to spare in roster order, and the sum is their availability |
| `ChunkModule.RemoteChunks.WeightOf` | infiniswap_bd/is_remote_chunk.c:1141-1143 | the total weight of the candidates left |
| `ChunkModule.RemoteChunks.LocatePick` | infiniswap_bd/is_remote_chunk.c:1144-1152 | the first candidate whose cumulative weight exceeds the pick |
| `ChunkModule.RemoteChunks.DrawOne` | infiniswap_bd/is_remote_chunk.c:1136-1157 | moves the picked candidate to the sample and closes the gap with the last one, in place |
| `ChunkModule.RemoteChunks.DrawSample` | infiniswap_bd/is_remote_chunk.c:1133-1158 | the in-place draws give the weighted sample without replacement |
| `ChunkModule.RemoteChunks.MostAvailable` | infiniswap_bd/is_remote_chunk.c:1160-1175 | the sampled Provider with the most availability, the lowest index among equals |
| `ChunkModule.RemoteChunks.ChooseProvider` | infiniswap_bd/is_remote_chunk.c:1123-1176 | the Provider placement chooses, which is one of the roster |
| `ChunkModule.RemoteChunks.CreateClaim` | infiniswap_bd/is_remote_chunk.c:822-866 | opens a claim on one UNMAPPED chunk for a live Provider, or refuses and changes nothing |
| `ChunkModule.RemoteChunks.NextMapping` | infiniswap_bd/is_remote_chunk.c:1362-1473 | keeps the module valid and answers as specified, in every mode and for all random numbers |
| `ChunkModule.RemoteChunks.TallyBatch` | infiniswap_bd/is_remote_chunk.c:722-789 | one pass over the chunks counts the members of a batch, checks them and digests them |
| `ChunkModule.RemoteChunks.ClaimIsCurrent` | infiniswap_bd/is_remote_chunk.c:722-751 | whether the claim is the open one, chunk by chunk |
| `ChunkModule.RemoteChunks.GrantsFit` | infiniswap_bd/is_remote_chunk.c:1475-1506 | whether the grants are one per chunk of the claim, each with an address, a key and a whole gibibyte below the address limit |
| `ChunkModule.RemoteChunks.GrantsFree` | infiniswap_bd/is_remote_chunk.c:1508-1541 | whether no granted Provider chunk already backs a chunk of that Provider |
| `ChunkModule.RemoteChunks.GrantsMatch` | infiniswap_bd/is_remote_chunk.c:1543-1565 | whether the grants are those recorded for the claim |
| `ChunkModule.RemoteChunks.RepeatedFinish` | infiniswap_bd/is_remote_chunk.c:1603-1629 | the answer to a call that repeats the recorded claim: DUPLICATE, CONFLICT, STALE or INVALID_GRANT |
| `ChunkModule.RemoteChunks.OpenFinish` | infiniswap_bd/is_remote_chunk.c:1630-1690 | the checks before an abort or a commit, in the order they are made, with the answers for a taken chunk and for exhausted numbers |
| `ChunkModule.RemoteChunks.AbortClaim` | infiniswap_bd/is_remote_chunk.c:1660-1676 | returns the claim's chunk to UNMAPPED and records the abort |
| `ChunkModule.RemoteChunks.PlaceGrants` | infiniswap_bd/is_remote_chunk.c:1691-1707 | installs the grants under fresh generations and invalidates their sectors in the word array |
| `ChunkModule.RemoteChunks.CommitClaim` | infiniswap_bd/is_remote_chunk.c:1691-1713 | installs the grants of a claim that passed the checks, counts them and records the commit |
| `ChunkModule.RemoteChunks.FinishMapping` | infiniswap_bd/is_remote_chunk.c:1567-1717 | keeps the module valid and gives exactly the specified result and state for every claim, action and grants |
| `ChunkModule.RemoteChunks.EvictionStatus` | infiniswap_bd/is_remote_chunk.c:753-789 | whether an eviction claim is genuine, stale or malformed |
| `ChunkModule.RemoteChunks.SelectChunks` | infiniswap_bd/is_remote_chunk.c:1824-1836 | selects the batch, stopping at the first chunk that is not MAPPED there or is named twice |
| `ChunkModule.RemoteChunks.BeginStatus` | infiniswap_bd/is_remote_chunk.c:1804-1843 | the checks before an eviction begins, in the order they are made |
| `ChunkModule.RemoteChunks.CloseBatch` | infiniswap_bd/is_remote_chunk.c:1854-1863 | marks exactly the selected chunks EVICTING with the claim's numbers |
| `ChunkModule.RemoteChunks.BeginEviction` | infiniswap_bd/is_remote_chunk.c:1792-1870 | keeps the module valid and answers as specified; a refused batch leaves the claim storage alone |
| `ChunkModule.RemoteChunks.IsDrained` | infiniswap_bd/is_remote_chunk.c:1872-1886 | whether no chunk of the claim has a lease left |
| `ChunkModule.RemoteChunks.ResetMapping` | infiniswap_bd/is_remote_chunk.c:1991-2012 | forgets one chunk's mapping under the next generation and invalidates its sectors |
| `ChunkModule.RemoteChunks.ResetEvicted` | infiniswap_bd/is_remote_chunk.c:2043-2046 | resets the batch in index order, so each chunk's generation is its rank above the last one |
| `ChunkModule.RemoteChunks.FinishEviction` | infiniswap_bd/is_remote_chunk.c:2014-2054 | keeps the module valid and answers as specified: BUSY while leases remain, otherwise the batch is retired |
| `ChunkModule.RemoteChunks.CountLosses` | infiniswap_bd/is_remote_chunk.c:2084-2116 | one pass counts what the failing Provider holds, and its claims by their first chunk |
| `ChunkModule.RemoteChunks.ResetOwned` | infiniswap_bd/is_remote_chunk.c:2137-2143 | resets every chunk of the Provider in index order |
| `ChunkModule.RemoteChunks.LoseProvider` | infiniswap_bd/is_remote_chunk.c:2132-2155 | ends the Provider's claim, resets its chunks, corrects the counters and marks it failed |
| `ChunkModule.RemoteChunks.FailProvider` | infiniswap_bd/is_remote_chunk.c:2056-2159 | keeps the module valid; applied once, repeated as DUPLICATE with the facts of the first time |
| `ChunkModule.RemoteChunks.AcquireStatus` | infiniswap_bd/is_remote_chunk.c:2180-2231 | the checks before a lease is granted, in the order they are made |
| `ChunkModule.RemoteChunks.GrantLease` | infiniswap_bd/is_remote_chunk.c:2233-2256 | issues the lease, counts it twice over and invalidates a write's sectors in the word array |
| `ChunkModule.RemoteChunks.AcquireLease` | infiniswap_bd/is_remote_chunk.c:2161-2260 | keeps the module valid and gives exactly the specified lease, status and transport mapping |
| `ChunkModule.RemoteChunks.LeaseStatus` | infiniswap_bd/is_remote_chunk.c:657-685 | whether a lease storage is plausible: tagged, at its own address, of this module, with numbers the module has given out and a range inside one chunk |
| `ChunkModule.RemoteChunks.ResolveLease` | infiniswap_bd/is_remote_chunk.c:2262-2308 | gives exactly the specified state and answer; the module stays valid for a genuine lease |
| `ChunkModule.RemoteChunks.ReleaseLease` | infiniswap_bd/is_remote_chunk.c:2310-2353 | keeps the module valid and gives exactly the specified state and answer |
| `ChunkModule.RemoteChunks.Quiesce` | infiniswap_bd/is_remote_chunk.c:982-999 | stops new work and keeps everything else |
| `ChunkModule.RemoteChunks.EnterWait` | infiniswap_bd/is_remote_chunk.c:1906-1926 | counts a thread that waits for a genuine eviction, or refuses as specified |
| `ChunkModule.RemoteChunks.PollWait` | infiniswap_bd/is_remote_chunk.c:1927-1985 | one turn of the waiting loop: the thread leaves when the claim is gone, the batch has drained, the clock fails or the deadline has passed, and otherwise waits on |
| `ChunkModule.RemoteChunks.Destroy` | infiniswap_bd/is_remote_chunk.c:1001-1026 | refused while claims, leases or waiting threads are active, and quiescing in any case |
| `ChunkWriters.SettledStep` | infiniswap_bd/is_remote_chunk.c:2243-2301 | a call leaves every valid sector without a write in flight if and only if it is not to resolve a write as successful while its chunk still has the lease's generation and another unresolved write overlaps it |
| `ChunkWriters.SettledFromStart` | infiniswap_bd/is_remote_chunk.c:2262-2308 | in every run of a fresh module no valid sector ever has a write in flight if and only if no call is such a resolve; a run without one ends so, and the first one breaks it |
| `ChunkWriters.SettledExactly` | infiniswap_bd/is_remote_chunk.c:2262-2308 | the same from every reachable state without such a sector |
| `ChunkWriters.FirstOverlapBreaks` | infiniswap_bd/is_remote_chunk.c:2262-2308 | after a run without such a resolve, the next call leaves a valid sector in flight if and only if it is one |
| `ChunkWriters.TwoWriters` | infiniswap_bd/is_remote_chunk.c:2293-2303 | whenever two unresolved writes cover a sector and one still has its chunk's generation, resolving that one as successful makes the sector valid under the other |
| `ChunkWriters.OverlappingWrites` | infiniswap_bd/is_remote_chunk.c:2161-2308 | two overlapping writes that are granted one after the other and a success of the first leave a shared sector valid with the second write in flight |
| `ChunkWriters.SectorWrittenTwice` | infiniswap_bd/is_remote_chunk.c:2161-2308 | a run of six calls on one chunk and one Provider that ends with sector 0 valid and a write over it in flight |
| `ChunkWaits.DestroyRefusedExactly` | infiniswap_bd/is_remote_chunk.c:1001-1026 | in every reachable state destroying succeeds if and only if no chunk is being mapped or evicted, every lease is released and no thread waits |
| `ChunkWaits.WaitedStaysDrained` | infiniswap_bd/is_remote_chunk.c:1872-1886 | once a batch has drained, no later calls, in any number and order, can make finishing that eviction BUSY again |
| `ChunkWaits.WaitSeesQuiet` | infiniswap_bd/is_remote_chunk.c:1927-1933 | a wait that succeeds has seen such a drained batch |
| `ChunkWaits.StepDrains` | infiniswap_bd/is_remote_chunk.c:868-2353 | no call adds a lease to a chunk of an open eviction or reuses an eviction number |
| `ChunkModule.RemoteChunks.TakeSnapshot` | infiniswap_bd/is_remote_chunk.c:2369-2482 | a snapshot is always taken: the consistency checks never fail, and every figure, every Provider's report and every placement is that of the chunk table |
| `ChunkModule.RemoteChunks.ReportProviders` | infiniswap_bd/is_remote_chunk.c:2411-2434 | each Provider's report carries its record and the availability by its assigned chunks alone |
| `ChunkModule.RemoteChunks.ReportChunk` | infiniswap_bd/is_remote_chunk.c:2444-2470 | an assigned chunk is counted for the Provider it is placed on and for no other, and its Provider is always found |
| `ChunkModule.PlacementsExact` | infiniswap_bd/is_remote_chunk.c:2446-2462 | the placements are the assigned chunks, each once, in order, with their Providers and whether they are usable |
| `MemoryTheorems.ReachableAccounts` | infiniswap_daemon/infiniswap_memory_manager.c:206-870 | after every run, whatever the adapters answer: pool counters equal the table, per-connection counts sum to the global ones, owned chunks have a live connection, memory and registration, no quota, connection limit or pool maximum is exceeded, and the adapters hold exactly what the table names |
| `MemoryTheorems.RunKeeps` | infiniswap_daemon/infiniswap_memory_manager.c:289-870 | every run keeps the invariant, and a chunk once quarantined stays exactly as it is: never granted, reclaimed or released |
| `MemoryTheorems.StatusDecidesAdmission` | infiniswap_daemon/infiniswap_memory_manager.c:905-970 | for the same owner, state and memory reading, n chunks pass the quota, pool and Host Reserve checks if and only if n is at most the reported availability of that pool |
| `MemoryTheorems.AcquireAllOrNothing` | infiniswap_daemon/infiniswap_memory_manager.c:426-468 | a failed acquire whose rollback succeeds leaves table, counters and live allocations as before; one with failed deregistrations quarantines exactly those chunks, leaves every other slot and every grant alone, marks the manager unhealthy and grants nothing |
| `MemoryTheorems.AcquireGrants` | infiniswap_daemon/infiniswap_memory_manager.c:641-672 | a successful acquire grants n different chunks, each recorded as the owner's in the pool asked for with its address and registration, and touches no other slot |
| `MemoryTheorems.GrantsSum` | infiniswap_daemon/infiniswap_memory_manager.c:664-670 | the global grant count of a pool is the sum of the connections' counts |
| `MemoryTheorems.GrowKeeps` | infiniswap_daemon/infiniswap_memory_manager.c:739-802 | growth within the pool maximum never runs out of table slots, touches only empty ones, counts exactly what it took and changes nothing when it fails |
| `MemoryTheorems.ReconcileKeeps` | infiniswap_daemon/infiniswap_memory_manager.c:804-870 | reconciling keeps the invariant, never touches committed or assigned memory, never runs out of slots and grows only while the Host Reserve stays free |
| `MemoryTheorems.ReconcileTwice` | infiniswap_daemon/infiniswap_memory_manager.c:826-866 | if host memory moved only by what a successful call allocated or freed, a second call grows and reclaims nothing |
| `MemoryTheorems.CreateInv` | infiniswap_daemon/infiniswap_memory_manager.c:170-204 | a manager created with a valid configuration satisfies the invariant |
| `MemoryTheorems.StepKeeps` | infiniswap_daemon/infiniswap_memory_manager.c:289-870 | each call keeps the invariant for every answer of the adapters |
| `MemoryInvariant.ConnectKeeps` | infiniswap_daemon/infiniswap_memory_manager.c:289-350 | connecting keeps the invariant: a consumer's connections agree on its limits and stay within them |
| `MemoryInvariant.ReleaseCallKeeps` | infiniswap_daemon/infiniswap_memory_manager.c:684-737 | releasing keeps the invariant, also when a deregistration fails half-way |
| `MemoryInvariant.DisconnectKeeps` | infiniswap_daemon/infiniswap_memory_manager.c:352-396 | disconnecting keeps the invariant, also when a chunk cannot be given up |
| `MemoryInvariant.BalancedKeeps` | infiniswap_daemon/infiniswap_memory_manager.c:206-244 | any change of one slot that moves the counters by what the slot gained and lost keeps the table, the counters and the adapters' holdings in agreement |
| `MemoryInvariant.QuotasMove` | infiniswap_daemon/infiniswap_memory_manager.c:398-424 | raising one connection's grants within its consumer's quota, or lowering them, keeps every consumer within its quota |
| `MemoryGrants.SelectionCounts` | infiniswap_daemon/infiniswap_memory_manager.c:521-558 | how many chunks of each origin a request takes: as many free ones of the pool as there are, then free opportunistic ones for a committed request, then empty slots |
| `MemoryGrants.SelectionSuitable` | infiniswap_daemon/infiniswap_memory_manager.c:521-558 | the chosen slots are all different and each suits its origin |
| `MemoryGrants.AcquireKeeps` | infiniswap_daemon/infiniswap_memory_manager.c:482-682 | acquiring keeps the invariant for every answer of the adapters |
| `MemoryGrants.QuarantineKeeps` | infiniswap_daemon/infiniswap_memory_manager.c:426-468 | quarantining the chunks that could not be deregistered keeps the accounts |
| `MemoryGrants.InstallKeeps` | infiniswap_daemon/infiniswap_memory_manager.c:641-670 | installing the chosen chunks keeps the accounts |
| `MemoryManager.Manager.constructor` | infiniswap_daemon/infiniswap_memory_manager.c:170-204 | the created manager's abstract state is the empty one of the configuration, and it is valid |
| `MemoryManager.Manager.FindOwner` | infiniswap_daemon/infiniswap_memory_manager.c:93-103 | finds the connection of an owner, or reports that there is none |
| `MemoryManager.Manager.CountConnections` | infiniswap_daemon/infiniswap_memory_manager.c:120-131 | counts a consumer's connections |
| `MemoryManager.Manager.ConsumerUse` | infiniswap_daemon/infiniswap_memory_manager.c:133-150 | sums what a consumer's connections hold of each pool |
| `MemoryManager.Manager.Connect` | infiniswap_daemon/infiniswap_memory_manager.c:289-350 | keeps the manager valid and answers as specified: malformed, repeated, over the limit, disagreeing limits, out of memory or connected |
| `MemoryManager.Manager.ReleaseChunk` | infiniswap_daemon/infiniswap_memory_manager.c:206-244 | gives one chunk up, back to its pool or freed with its pool's count; when it cannot be deregistered nothing moves and the manager is unhealthy |
| `MemoryManager.Manager.ReleaseCheck` | infiniswap_daemon/infiniswap_memory_manager.c:706-726 | refuses a release that names a foreign, missing, protected or repeated chunk before anything is given up |
| `MemoryManager.Manager.Release` | infiniswap_daemon/infiniswap_memory_manager.c:684-737 | keeps the manager valid; all the named chunks are given up, or it stops at the first that cannot be |
| `MemoryManager.Manager.Disconnect` | infiniswap_daemon/infiniswap_memory_manager.c:352-396 | keeps the manager valid; the owner's chunks are given up in table order and the connection goes, or stays with what could not be given up |
| `MemoryManager.Manager.TakeFree` | infiniswap_daemon/infiniswap_memory_manager.c:521-547 | the scan takes free chunks of a pool in table order until there are enough |
| `MemoryManager.Manager.TakeEmpty` | infiniswap_daemon/infiniswap_memory_manager.c:548-558 | the scan takes empty slots not yet chosen until there are enough |
| `MemoryManager.Manager.Reuse` | infiniswap_daemon/infiniswap_memory_manager.c:521-547 | the pool's own free chunks first, then opportunistic ones for a committed request; all have memory |
| `MemoryManager.Manager.Choose` | infiniswap_daemon/infiniswap_memory_manager.c:521-558 | the chosen chunks are the specified selection, with the counts the limit checks use |
| `MemoryManager.Manager.Plan` | infiniswap_daemon/infiniswap_memory_manager.c:398-603 | gives the verdict of the quota, pool and Host Reserve checks and, when they pass, the selection |
| `MemoryManager.Manager.AllocateAll` | infiniswap_daemon/infiniswap_memory_manager.c:605-627 | allocates and touches the new chunks in order, up to the first failure; the adapter holds exactly what it answered |
| `MemoryManager.Manager.RegisterAll` | infiniswap_daemon/infiniswap_memory_manager.c:628-639 | registers in order, up to the first refusal |
| `MemoryManager.Manager.SetAside` | infiniswap_daemon/infiniswap_memory_manager.c:439-454 | a chunk whose registration cannot be undone stays in the table, quarantined and counted |
| `MemoryManager.Manager.Undo` | infiniswap_daemon/infiniswap_memory_manager.c:434-458 | deregisters what was registered and quarantines exactly what cannot be |
| `MemoryManager.Manager.Drop` | infiniswap_daemon/infiniswap_memory_manager.c:459-467 | gives back the new memory that is no longer registered, and no other |
| `MemoryManager.Manager.Rollback` | infiniswap_daemon/infiniswap_memory_manager.c:426-468 | undoes registration and allocation; only the quarantined chunks remain |
| `MemoryManager.Manager.InstallAll` | infiniswap_daemon/infiniswap_memory_manager.c:641-670 | hands every draft to its owner and counts the grants |
| `MemoryManager.Manager.CarryOut` | infiniswap_daemon/infiniswap_memory_manager.c:605-682 | allocates, registers and installs, or rolls back, exactly as specified |
| `MemoryManager.Manager.Acquire` | infiniswap_daemon/infiniswap_memory_manager.c:482-682 | keeps the manager valid and gives exactly the specified result, state and grants |
| `MemoryManager.Manager.GrowInto` | infiniswap_daemon/infiniswap_memory_manager.c:766-791 | allocates every chosen slot, or gives back what it allocated |
| `MemoryManager.Manager.GrowBy` | infiniswap_daemon/infiniswap_memory_manager.c:739-802 | grows as specified, all or nothing |
| `MemoryManager.Manager.Reclaim` | infiniswap_daemon/infiniswap_memory_manager.c:850-863 | frees unassigned opportunistic chunks in table order until enough are gone or none is left |
| `MemoryManager.Manager.Reconcile` | infiniswap_daemon/infiniswap_memory_manager.c:804-870 | keeps the manager valid and gives exactly the specified result and change |
| `MemoryManager.Manager.GetStatus` | infiniswap_daemon/infiniswap_memory_manager.c:872-974 | every figure reported is that of the chunk table and the connections, and the availability is the one that decides admission; an unknown owner or a missing memory reading is reported as such |
| `MemoryManager.Manager.DeregisterAll` | infiniswap_daemon/infiniswap_memory_manager.c:255-266 | deregisters every slot it can, which then has no owner, and leaves exactly the others as they are |
| `MemoryManager.Manager.Destroy` | infiniswap_daemon/infiniswap_memory_manager.c:246-287 | gives everything back if and only if nothing is stuck; otherwise the manager is unhealthy, exactly the stuck registrations remain and none is added, and memory and counters are untouched |
| `IoPolicy.InitSound` | infiniswap_bd/is_io_policy.h:40-92 | a fresh policy of every kind is sound and has not completed the request |
| `IoPolicy.LocalDecides` | infiniswap_bd/is_io_policy.h:124-144 | when the local copy ends, the request completes now if and only if enough is known and it has not completed, with success if and only if what its kind promises has happened; a failed backing copy, and a write left with only its backing copy, are reported by the step that finds out and by no other |
| `IoPolicy.RemoteDecides` | infiniswap_bd/is_io_policy.h:146-186 | the same when the remote copy ends or is cancelled; a read whose remote copy failed asks for the backing one, once |
| `IoPolicy.QuietIsReleasable` | infiniswap_bd/is_io_policy.h:188-192 | once neither copy is outstanding the request has completed, so the policy is releasable |
| `IoPolicy.CompletionPolicy.Complete` | infiniswap_bd/is_io_policy.h:94-101 | completes the request unless it has been completed |
| `IoPolicy.CompletionPolicy.CloseWrite` | infiniswap_bd/is_io_policy.h:103-122 | decides a write whose copies have both ended, and marks it local-only when the backing copy is its only good one |
| `IoPolicy.CompletionPolicy.LocalDone` | infiniswap_bd/is_io_policy.h:124-144 | moves the policy as specified and returns the specified actions |
| `IoPolicy.CompletionPolicy.RemoteEnds` | infiniswap_bd/is_io_policy.h:146-167 | moves the policy as specified and returns the specified actions |
| `IoPolicy.CompletionPolicy.RemoteDone` | infiniswap_bd/is_io_policy.h:169-186 | ignores other generations, otherwise moves the policy as specified |
| `IoTransaction.SafeInEveryRun` | infiniswap_bd/is_remote_io_transaction.c:155-196 | in every interleaving of events, duplicates and stale ones included, the request completes at most once and truthfully, with a nonzero status on error, then is released at most once, then settled at most once; the branch for an idle transaction that is not releasable is never reached |
| `IoTransaction.SettlesWhenQuiet` | infiniswap_bd/is_remote_io_transaction.c:332-505 | once nothing is in flight and no claim is held, the transaction has completed, released and settled exactly once each in that order, with status zero if and only if what the mode promises succeeded |
| `IoTransaction.RunKeeps` | infiniswap_bd/is_remote_io_transaction.c:332-505 | every interleaving keeps the protocol invariant |
| `IoTransaction.StepKeeps` | infiniswap_bd/is_remote_io_transaction.c:130-230 | each locked section and each adapter call keeps the protocol invariant |
| `IoTransaction.StepsRunOut` | infiniswap_bd/is_remote_io_transaction.c:155-230 | without new arrivals every step strictly lowers the work left, so the transaction comes to rest |
| `IoTransaction.RefusedStartSettles` | infiniswap_bd/is_remote_io_transaction.c:283-371 | a start refused during set-up completes once with an error and settles once, last of all, and makes no call twice |
| `TransactionEngine.DestroyRefusedWhilePresent` | infiniswap_bd/is_remote_io_transaction.c:318-327 | over every interleaving of starts, transactions and the steps of destroys: a destroy that reads the counter returns BUSY if and only if some transaction has registered and not left at that moment; when it goes on, every transaction that has left by then has been answered and the live ones have released their storage |
| `TransactionEngine.ClearFollowsEmptyCheck` | infiniswap_bd/is_remote_io_transaction.c:323-329 | the flag is cleared only after a destroy has read the counter at a moment when no transaction was present |
| `TransactionEngine.FlagIsFinal` | infiniswap_bd/is_remote_io_transaction.c:321-329 | the flag is set until a destroy clears it and never set again, so later starts and destroys are turned away |
| `TransactionEngine.ArrivalsAfterDestroy` | infiniswap_bd/is_remote_io_transaction.c:328-346 | once the flag is cleared, over every further interleaving, a transaction is present only if it was present at that moment or its start had read the flag as set and not yet registered; the counter is nonzero only then |
| `TransactionEngine.EmptyAfterDestroyExactly` | infiniswap_bd/is_remote_io_transaction.c:318-346 | over all further interleavings a destroyed engine stays without transactions if and only if, when the flag is cleared, none is present and no start is between reading the flag and registering |
| `TransactionEngine.ArrivalsAfterCheck` | infiniswap_bd/is_remote_io_transaction.c:318-346 | whoever is present after the flag is cleared had read the flag and not registered when the counter was read, or began before the flag was cleared; without a start in between no slot is added |
| `TransactionEngine.StartWithinDestroy` | infiniswap_bd/is_remote_io_transaction.c:318-346 | for every mode and request: a start that comes between a destroy's counter read and its clearing of the flag ends registered with a destroyed engine whose counter is one |
| `TransactionEngine.PassedArrives` | infiniswap_bd/is_remote_io_transaction.c:332-346 | every start that has read the flag as set registers and is counted, with a destroyed engine too |
| `TransactionEngine.LeavingWasCounted` | infiniswap_bd/is_remote_io_transaction.c:48-52 | the step by which a transaction leaves finds a positive count, so the unguarded decrement never wraps |
| `TransactionEngine.EngineRunKeeps` | infiniswap_bd/is_remote_io_transaction.c:283-403 | in every run the counter is the number of transactions that have registered and not left |
| `TransactionEngine.PerformKeeps` | infiniswap_bd/is_remote_io_transaction.c:332-403 | each start, refusal, step and attempt to destroy keeps that count |
| `TransactionEngine.LiveEngine.constructor` | infiniswap_bd/is_remote_io_transaction.c:303-316 | an initialized engine is the fresh one of the runs |
| `TransactionEngine.LiveEngine.Begin` | infiniswap_bd/is_remote_io_transaction.c:332-356 | a start reads whether the engine is initialized and changes nothing else |
| `TransactionEngine.LiveEngine.Enter` | infiniswap_bd/is_remote_io_transaction.c:42-46 | registers a start as in the runs, refused ones included, and keeps the count exact |
| `TransactionEngine.LiveEngine.Leave` | infiniswap_bd/is_remote_io_transaction.c:48-52 | the step by which a transaction leaves, refused or live, as in the runs; the decrement needs no guard |
| `TransactionEngine.LiveEngine.DestroyAsks` | infiniswap_bd/is_remote_io_transaction.c:321-322 | the read of the flag: turned away exactly when it is clear |
| `TransactionEngine.LiveEngine.DestroyChecks` | infiniswap_bd/is_remote_io_transaction.c:323-327 | the read of the counter: BUSY exactly while some transaction is present, and the flag untouched |
| `TransactionEngine.LiveEngine.DestroyClears` | infiniswap_bd/is_remote_io_transaction.c:328-329 | the clearing of the flag, as in the runs, whatever has happened since the counter was read |
| `IoTransaction.LiveTransaction.constructor` | infiniswap_bd/is_remote_io_transaction.c:232-273 | a transaction past set-up starts with the policy of its mode and the claims of its kind |
| `IoTransaction.LiveTransaction.Note` | infiniswap_bd/is_remote_io_transaction.c:138-145 | reports only the first violation |
| `IoTransaction.LiveTransaction.BackingCompleted` | infiniswap_bd/is_remote_io_transaction.c:405-440 | the locked section moves the transaction as specified, a Remote-First write's one retry included |
| `IoTransaction.LiveTransaction.RdmaCompleted` | infiniswap_bd/is_remote_io_transaction.c:442-480 | the locked section moves the transaction as specified; stale generations are ignored |
| `IoTransaction.LiveTransaction.RdmaReleased` | infiniswap_bd/is_remote_io_transaction.c:482-505 | the locked section drops the transport claim once |
| `IoTransaction.LiveTransaction.FinishEvent` | infiniswap_bd/is_remote_io_transaction.c:155-196 | the last event to finish settles, and no other does |
| `OperationOwner.SafeInEveryRun` | infiniswap_bd/is_rdma_operation_owner.c:139-311 | in every interleaving of post result, completion and deadline: no violation is reported, nothing is published, retired, released, aborted or destroyed twice, at most one caller cancels the timer, and after destruction nobody has a step left |
| `OperationOwner.EndsOnce` | infiniswap_bd/is_rdma_operation_owner.c:139-311 | when nothing can happen any more, a posted operation has published one terminal, retired once, flagged late if and only if the deadline won, released its I/O once and been destroyed once; a refused one was only aborted and destroyed |
| `OperationOwner.StepKeeps` | infiniswap_bd/is_rdma_operation_owner.c:93-311 | each locked section and adapter call of each caller keeps the protocol invariant |
| `OperationOwner.RunKeeps` | infiniswap_bd/is_rdma_operation_owner.c:93-311 | every interleaving keeps the protocol invariant |
| `OperationOwner.StepsRunOut` | infiniswap_bd/is_rdma_operation_owner.c:139-311 | every step of every caller strictly lowers the number of steps left |
| `OperationOwner.RunsAreShort` | infiniswap_bd/is_rdma_operation_owner.c:139-311 | an interleaving has at most as many steps as were left, twenty from the start |
| `OperationOwner.LiveOwner.constructor` | infiniswap_bd/is_rdma_operation_owner.c:123-137 | a fresh owner holds all three claims and nothing has been seen |
| `OperationOwner.LiveOwner.PostSucceeds` | infiniswap_bd/is_rdma_operation_owner.c:149-163 | the locked section decides as specified whether the deadline is armed |
| `OperationOwner.LiveOwner.DeadlineArmed` | infiniswap_bd/is_rdma_operation_owner.c:168-180 | the locked section after arming decides whether the submitter must cancel |
| `OperationOwner.LiveOwner.DeadlineCancelled` | infiniswap_bd/is_rdma_operation_owner.c:181-189 | the locked section after a successful cancel decides whether the deadline's claim can go |
| `OperationOwner.LiveOwner.PostFails` | infiniswap_bd/is_rdma_operation_owner.c:201-213 | the locked section decides as specified whether the operation is aborted or a violation is reported |
| `OperationOwner.LiveOwner.DeadlineFires` | infiniswap_bd/is_rdma_operation_owner.c:231-249 | the locked section takes the terminal unless a completion was first |
| `OperationOwner.LiveOwner.RdmaCompletes` | infiniswap_bd/is_rdma_operation_owner.c:271-288 | the locked section takes the terminal unless the deadline was first, and elects at most one canceller |
| `OperationOwner.LiveOwner.Finish` | infiniswap_bd/is_rdma_operation_owner.c:93-121 | the event whose end leaves no claim and no event destroys the operation |
| `WireRoundTrip.EncodeThenDecode` | common/infiniswap_protocol.c:446-782 | every message the encoder accepts, of all thirteen types, decodes to the same message |
| `WireRoundTrip.DecodeThenEncode` | common/infiniswap_protocol.c:488-782 | every frame the decoder accepts encodes again into any buffer of its size, and into a buffer gives back the same bytes if and only if the buffer is large enough and no HELLO identifier holds a zero byte |
| `WireRoundTrip.ZeroIsLost` | common/infiniswap_protocol.c:549-566 | a concrete HELLO frame with a zero inside an identifier is accepted, read with the identifier cut short, and does not encode back to itself |
| `WireRoundTrip.NeverOversized` | common/infiniswap_protocol.c:465-466 | the encoder never gives its oversize answer: a valid payload always fits a frame |
| `WireRoundTrip.PayloadReads` | common/infiniswap_protocol.c:599-762 | reading what was written for a payload of any type gives that payload |
| `WireRoundTrip.PayloadWrites` | common/infiniswap_protocol.c:343-444 | writing what was read gives the payload bytes back if and only if it is not a HELLO with a zero inside an identifier |
| `WireRoundTrip.HelloWrites` | common/infiniswap_protocol.c:540-567 | a HELLO is written back byte for byte if and only if its identifiers hold no zero byte, and shorter otherwise |
| `WireBytes.PutGet16` | common/infiniswap_protocol.c:21-45 | 16-bit big-endian writing and reading undo each other, both ways |
| `WireBytes.PutGet32` | common/infiniswap_protocol.c:27-53 | 32-bit big-endian writing and reading undo each other, both ways |
| `WireBytes.PutGet64` | common/infiniswap_protocol.c:35-59 | 64-bit big-endian writing and reading undo each other, both ways |
| `WireBytes.SplitJoined` | common/infiniswap_protocol.c:330-341 | splitting a joined list of equal-sized entries gives the entries back |
| `WireBytes.JoinSplit` | common/infiniswap_protocol.c:569-597 | joining the entries a list was split into gives its bytes back |
| `Wire.NegotiationMeets` | common/infiniswap_protocol.c:784-816 | negotiation succeeds if and only if the versions are at most one apart and each side offers, within what is known, what the other needs; agreed are the older version and exactly the capabilities both offer |
| `WireCodec.WriteHeader` | common/infiniswap_protocol.c:315-328 | writes the header's bytes at the start of the buffer and nothing beyond |
| `WireCodec.WriteU16` | common/infiniswap_protocol.c:21-25 | writes the big-endian bytes at the offset and leaves the rest of the buffer alone |
| `WireCodec.WriteU32` | common/infiniswap_protocol.c:27-33 | writes the big-endian bytes at the offset and leaves the rest of the buffer alone |
| `WireCodec.WriteU64` | common/infiniswap_protocol.c:35-39 | writes the big-endian bytes at the offset and leaves the rest of the buffer alone |
| `WireCodec.WriteChunk` | common/infiniswap_protocol.c:404-411 | writes one granted chunk field by field, reserved bytes included |
| `WireCodec.WriteChunks` | common/infiniswap_protocol.c:397-412 | the loop writes the chunks one behind the other |
| `WireCodec.WriteIds` | common/infiniswap_protocol.c:330-341 | the loop writes the identifiers one behind the other |
| `WireCodec.WriteActivities` | common/infiniswap_protocol.c:421-429 | the loop writes the activity entries one behind the other |
| `WireCodec.WriteHello` | common/infiniswap_protocol.c:350-362 | writes a HELLO field by field: lengths, mode, pool, deadline, nonce and both identifiers |
| `WireCodec.WriteStatus` | common/infiniswap_protocol.c:377-385 | writes a status field by field |
| `WireCodec.WriteChunkRequest` | common/infiniswap_protocol.c:386-393 | writes a chunk request field by field, reserved bytes included |
| `WireCodec.WriteError` | common/infiniswap_protocol.c:431-438 | writes an ERROR field by field, reserved bytes included |
| `WireCodec.WritePayload` | common/infiniswap_protocol.c:343-444 | writes exactly the payload bytes of the message and leaves the rest of the buffer alone |
| `WireCodec.GrantsAreValid` | common/infiniswap_protocol.c:246-263 | the loop decides whether a grant's chunks are acceptable |
| `WireCodec.IdsAreDistinct` | common/infiniswap_protocol.c:273-281 | the nested loops decide whether the identifiers are different |
| `WireCodec.IdentifierIsValid` | common/infiniswap_protocol.c:72-86 | the loop decides whether an identifier is short enough and made of allowed characters |
| `WireCodec.HelloIsValid` | common/infiniswap_protocol.c:156-180 | decides whether a HELLO may be sent or accepted |
| `WireCodec.PayloadSize` | common/infiniswap_protocol.c:190-313 | decides whether a payload may be sent and computes the bytes it takes, for every type |
| `WireCodec.EncodeFrame` | common/infiniswap_protocol.c:446-475 | fills the buffer with exactly the specified frame, or refuses as specified and leaves it alone |
| `WireCodec.ReadText` | common/infiniswap_protocol.c:61-70 | what precedes the first zero byte |
| `WireCodec.IsReserved` | common/infiniswap_protocol.c:477-486 | whether all reserved bytes are zero |
| `WireCodec.ReadHello` | common/infiniswap_protocol.c:540-567 | reads a HELLO as specified, malformed ones included, inside the frame |
| `WireCodec.ReadIds` | common/infiniswap_protocol.c:569-597 | reads a list of different identifiers as specified, inside the frame |
| `WireCodec.ListHead` | common/infiniswap_protocol.c:522-538 | decides whether a list's length agrees with the bytes that are there, the overflow answer included |
| `WireCodec.ReadChallenge` | common/infiniswap_protocol.c:609-622 | reads a CHALLENGE field by field, or refuses it |
| `WireCodec.ReadAccept` | common/infiniswap_protocol.c:628-637 | reads an ACCEPT field by field, or refuses it |
| `WireCodec.ReadStatus` | common/infiniswap_protocol.c:641-655 | reads a status field by field, or refuses it |
| `WireCodec.ReadChunkRequest` | common/infiniswap_protocol.c:656-673 | reads a chunk request field by field, or refuses it |
| `WireCodec.ReadError` | common/infiniswap_protocol.c:745-758 | reads an ERROR field by field, or refuses it |
| `WireCodec.ReadPayload` | common/infiniswap_protocol.c:599-762 | reads every payload type as specified, inside the frame |
| `WireCodec.DecodeFrame` | common/infiniswap_protocol.c:764-782 | decodes every byte string as specified: the message, or the reason it is refused |
| `ProviderSession.InitInv` | infiniswap_daemon/infiniswap_provider_session.c:75-91 | a session set up with valid parameters satisfies the session invariant |
| `ProviderSession.NeverFails` | infiniswap_daemon/infiniswap_provider_session.c:327-390 | a session set up with valid parameters handles every sequence of byte strings without internal failure, given a full-size response buffer |
| `ProviderSession.HandleMoves` | infiniswap_daemon/infiniswap_provider_session.c:327-390 | one handled frame keeps the session invariant and takes one of the allowed transitions |
| `ProviderSession.RejectionSpeaks` | infiniswap_daemon/infiniswap_provider_session.c:40-73 | a frame that closes the session, or finds it closed, is answered with a decodable ERROR if and only if it is not itself an ERROR, which is met with silence; nothing is delivered once the session is closed |
| `ProviderSession.ClosedStays` | infiniswap_daemon/infiniswap_provider_session.c:339-389 | CLOSED is absorbing |
| `ProviderSession.RestsOnHello` | infiniswap_daemon/infiniswap_provider_session.c:118-169 | a session past HELLO rests on one HELLO frame it was sent and the CHALLENGE it answered with |
| `ProviderSession.ReadyIsVerified` | infiniswap_daemon/infiniswap_provider_session.c:177-225 | a session is READY only after an AUTH whose tag the registry verified against exactly that HELLO and CHALLENGE |
| `ProviderSession.DeliveredIsAuthorized` | infiniswap_daemon/infiniswap_provider_session.c:243-307 | every delivered request other than a peer's ERROR comes after a verified AUTH, under an authorization validated for it, and asks for the pool of the HELLO |
| `ProviderSession.RequestNumbersIncrease` | infiniswap_daemon/infiniswap_provider_session.c:254-303 | requests that are not responses are delivered with strictly increasing numbers over the whole life of the session |
| `ProviderSession.RejectSpeaks` | infiniswap_daemon/infiniswap_provider_session.c:40-73 | the ERROR built for any request and code encodes and decodes to itself |
| `SessionDriver.LiveSession.constructor` | infiniswap_daemon/infiniswap_provider_session.c:75-91 | a session with valid parameters waits for HELLO |
| `SessionDriver.LiveSession.BuildError` | infiniswap_daemon/infiniswap_provider_session.c:40-73 | writes the specified ERROR frame into the response buffer and closes |
| `SessionDriver.LiveSession.OnHello` | infiniswap_daemon/infiniswap_provider_session.c:118-169 | negotiates, stores the frames and answers CHALLENGE, or refuses, as specified |
| `SessionDriver.LiveSession.OnAuth` | infiniswap_daemon/infiniswap_provider_session.c:177-225 | becomes READY and answers, or refuses, as specified |
| `SessionDriver.LiveSession.CheckRequest` | infiniswap_daemon/infiniswap_provider_session.c:254-301 | the checks an authenticated request passes, in the order they are made |
| `SessionDriver.LiveSession.OnRequest` | infiniswap_daemon/infiniswap_provider_session.c:243-307 | delivers or refuses as specified |
| `SessionDriver.LiveSession.Handle` | infiniswap_daemon/infiniswap_provider_session.c:327-390 | moves the session and fills the response exactly as specified, for every byte string |
| `AuthRegistry.VersionProvesStanding` | infiniswap_daemon/infiniswap_auth.c:285-299 | barring wrap of the 64-bit counter, a version obtained from a verification validates after any calls if and only if the credential was never revoked, removed or changed in between, whatever reloads put back |
| `AuthRegistry.SubscribersAreInformed` | infiniswap_daemon/infiniswap_auth.c:157-254 | after any calls a listed subscriber has been called back if and only if the version it holds no longer validates, and then that version is superseded for good |
| `AuthRegistry.CallsOnLoss` | infiniswap_daemon/infiniswap_auth.c:762-793 | revoking and reloading call back exactly the listeners whose authorization ends with the call |
| `AuthRegistry.VersionStep` | infiniswap_daemon/infiniswap_auth.c:760-794 | a call that keeps the credential's standing keeps its version; one that does not supersedes the version for good |
| `AuthRegistry.ReissuedVersions` | infiniswap_daemon/infiniswap_auth.c:774-784 | a reload takes over the versions of unchanged credentials and gives all others versions never given out before |
| `AuthRegistry.StepInv` | infiniswap_daemon/infiniswap_auth.c:115-254 | each call keeps consumers and contexts unique and versions between one and the last issued |
| `AuthRegistry.RunInv` | infiniswap_daemon/infiniswap_auth.c:115-254 | so does every run, and a run issues at most as many versions as calls times consumers |
| `RegistryDriver.LiveRegistry.constructor` | infiniswap_daemon/infiniswap_auth.c:98-102 | a fresh registry is empty |
| `RegistryDriver.LiveRegistry.IssueVersion` | infiniswap_daemon/infiniswap_auth.c:89-96 | the next version, never zero |
| `RegistryDriver.LiveRegistry.FindEntry` | infiniswap_daemon/infiniswap_auth.c:145-155 | the first entry of the consumer, or none |
| `RegistryDriver.LiveRegistry.Add` | infiniswap_daemon/infiniswap_auth.c:115-143 | adds a valid credential under a fresh version, or refuses as specified |
| `RegistryDriver.LiveRegistry.Subscribe` | infiniswap_daemon/infiniswap_auth.c:170-208 | subscribes a holder of the current version, or refuses as specified |
| `RegistryDriver.LiveRegistry.Unsubscribe` | infiniswap_daemon/infiniswap_auth.c:210-230 | removes the listener by moving the last one into its place |
| `RegistryDriver.LiveRegistry.NotifyRevocation` | infiniswap_daemon/infiniswap_auth.c:157-168 | calls back exactly the consumer's listeners |
| `RegistryDriver.LiveRegistry.Revoke` | infiniswap_daemon/infiniswap_auth.c:232-254 | revokes under a fresh version and calls back exactly the consumer's listeners |
| `RegistryDriver.LiveRegistry.ValidateVersion` | infiniswap_daemon/infiniswap_auth.c:285-339 | whether the version is the consumer's current one and not revoked |
| `RegistryDriver.LiveRegistry.VerifyTag` | infiniswap_daemon/infiniswap_auth.c:405-470 | accepts a tag made with the current key, or with the next key while it is valid |
| `RegistryDriver.LiveRegistry.Affected` | infiniswap_daemon/infiniswap_auth.c:762-773 | flags exactly the listeners whose authorization the new entries do not leave in force |
| `RegistryDriver.LiveRegistry.Reissue` | infiniswap_daemon/infiniswap_auth.c:774-784 | gives the new entries their versions in order |
| `RegistryDriver.LiveRegistry.Reload` | infiniswap_daemon/infiniswap_auth.c:760-794 | replaces the entries and then calls back exactly the flagged listeners |
| `AccessControl.DeliveredUnderStandingCredential` | infiniswap_daemon/infiniswap_provider_session.c:177-307 | a session together with a changing registry: every request delivered follows an AUTH whose tag was made with a key of the consumer's credential; from that AUTH to the delivery the credential was never revoked, removed or changed, and if the key was the next one the delivery comes before that key runs out |
| `AccessControl.StandingSpans` | infiniswap_daemon/infiniswap_auth.c:285-339 | a version valid at two points of a run proves that the credential stood unchanged between them |

## Left out

- ChunkModule.RemoteChunks.ResolveLease: keeps the module valid only for a lease storage the module issued that was not copied, moved or reset, as infiniswap_bd/is_remote_chunk.h:112-115 demands of callers.
- OperationOwner.EndsOnce: orders nothing between the publish call of a DEADLINE terminal and the completion's retire and release calls, which the code lets interleave.
- IoTransaction.RefusedStartSettles: a start that fails during set-up may release before it completes, so only number, status and the final settle are stated for it.
- MemoryManager.Manager.Destroy: a destroy that fails clears owners without correcting counters, so the invariant ends there and so do runs.
- RegistryDriver.LiveRegistry.Reload: the new entries are a list; reading and parsing the allowlist file and checking its permissions are not modelled.
- The Provider activity query, and the hot policy's setter and snapshot as methods (runs include a change of the policy): comparisons over the same table.
- MemoryManager.Manager.GetStatus: without the admission, rejection and reclaim statistics and the last rejection.
- ChunkModule.RemoteChunks.TakeSnapshot: without Provider names, the placement seed and failures to allocate the report.
- ChunkModule.RemoteChunks.PollWait: the sleep between two turns and its wake-up are not modelled; a turn may come at any time.
- Provider identifier strings and the roster's name checks; placement seeds and the random generator, whose outputs are parameters.
- Null-pointer checks on arguments, lock set-up and allocation failures while creating a module.
- The memory manager's statistics (admissions, rejections, pressure reclaims, last rejection), its configuration file and the reading of host memory.
- Wrap-around of the 32-bit numbers of events and transactions in flight.
- The report that a refused destroy of the transaction engine makes to the invariant adapter.
- is_provider_session_fail, begin/end of an authorized operation, the limits query and the revocation query of the registry: one-line variants of modelled calls.
- Computing the HMAC, generating nonces, clocks.
- RDMA verbs, the connection manager, block-layer and configfs plumbing, consumer liveness, the observability server, the command-line tools, packaging and name tables.
