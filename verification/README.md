# StrixLab evidence store: verified model

StrixLab keeps its evidence in plain files: build journals, attempt roots, run trees, immutable
records, indexes and bundles. Its hardest code is what keeps several separately written files
consistent when the process can stop between any two disk steps. This project models that code in
Dafny and proves what every crashed and resumed history keeps.

## How the model is built

- **Disk steps.** Each component is a class whose fields are the files it owns. Every atomic write,
  rename or delete goes through one `Write` method with a `budget`: when the budget is spent the
  process stops and the disk stays as it is. A contract therefore covers a crash before and after
  every single step, and a torn writer temp is its own step wherever later code looks at temps. An
  operation returns `Done`, `Raised` (its own error) or `Crashed`, and every contract says that
  `Crashed` only happens when the budget is spent.
- **Contracts.** A method states the disk it leaves, or a relation between the disk before and after
  (`Step`, `Keeps`, `Preserves`, `Progress`); pure lemmas show that the relation keeps the
  invariant. The `RunHistory` methods compose them over every history of crashed and completed
  operations.
- **Digests** are modelled as the values they are digests of, so hash chains and content addresses
  are compared by content; SHA-256 is taken as collision free.
- **Observations of the outside world** (process results, compiler output, clocks, tokens, drift,
  owner liveness, other processes) are arbitrary values or parameters. Nothing is assumed about
  them beyond what a parameter such as `stable`, the field `calm` or a predicate such as `Truthful` says.

| module | component |
|---|---|
| BuildJournal, BuildInvariant, BuildSteps, BuildCache, BuildDriver | the materialization cache and the driver that begins, binds, publishes, finalizes and attests |
| BuildReuse | reusing a rehydrated build, over whole runs |
| AttemptModel, AttemptStore, AttemptSession | build attempts, their record and the recipe index |
| RunModel, PortableModel, RunStore, RunSession | a run: journal, portable store, finalization, recovery |
| Checksums, TempPaths | run-relative paths, the checksum file and the names of writer temps |
| BundleModel, Bundles, BundleExport, FullBundle | bundle verification and export |
| CampaignModel, Campaigns | the campaign controller |
| CapsuleModel, Capsules | the capsule protocol and its validators |
| Encodings, Identity, Prefixes | identity preimages and prefix normalization |
| Closure | the artifact closure worklist |
| Statistics | percentiles, bootstrap interval and verdicts |
| Outcomes | `Option` and `Outcome`, shared |

## What the code turned out to do

Six places where the code does less, or something else, than its documentation promises. Each has
a witness and an exact condition in the project.

- **A hit on a rehydrated build.** `MaterializationEvidenceV1` (`src/strixlab/build_cache.py:218-233`)
  says that a cache hit verifies the root against the evidence of its own materialization, whose
  observations may differ from those of the canonical producer. Reuse, however, rehashes the root
  against the artifacts of the *canonical* record (`src/strixlab/cmake_build.py:585-637` and
  `:942-974`), and rehashing covers the CMake cache, the compile database and the capture tools
  (`src/strixlab/build_artifacts.py:258-316`), but no inspection. `HitSurvivesIffSameObservations` and
  `ReuseRehydrated` prove that a rehydrated build is reused if and only if its capture rehashes as the
  canonical one; `RehydratedHitIsRefused` is a disk with an attested hit that is refused.
- **A root without a marker blocks its build for good.** After a failed build the driver discards the
  root, so that the next lookup recovers cleanly (`src/strixlab/cmake_build.py:1097-1102`). A root that
  was made but could not be marked has no owner to discard it by, and recovery refuses a root that the
  journal does not bind (`src/strixlab/build_cache.py:1159-1175`). `BuildDriver.ExecuteBuild` proves
  that a failed invocation blocks the build if and only if it was blocked before, or this invocation
  made the root and failed to mark it; `UnmarkedRootBlocks` follows it through any later invocations.
- **Two crashes in a row, or one in the wrong place, block a run for good.** Recovery of a run
  refuses a torn event, entry or blob temp, any other writer temp at the run root (left by a crash
  while evidence is written there), and two `status.json` temps (left by two crashes). A temp left in
  a subdirectory becomes evidence, but its name is 22 bytes longer than the path it was for, and a
  path over 255 bytes cannot be listed. `RunStore.Recover` states the exact condition under which it
  raises; `OneCrashRecovers`, `CrashedWrite` and `TornBlocks` say what one crash can and cannot do.
- **Evidence a run cannot be finalized with.** A path may contain U+0085, U+2028 or U+2029
  (`src/strixlab/evidence.py:289-310`), at which the checksum parser breaks lines
  (`src/strixlab/evidence.py:1647`). Finalization then publishes a record and refuses it, every time.
  `Checksums.RoundTrip` and `RunModel.ReadableMeans` prove that what is printed parses back if and
  only if no path does; `BrokenPathBlocks` is the witness. The same happens when the input manifest,
  the resolved manifest or the checksum file exceeds the 64 MiB that finalization reads
  (`src/strixlab/evidence.py:514-528`): `LargeFilesBlock`. `RunSession.Finalize` states the condition.
- **An exported bundle may not verify.** Collection limits the members without `bundle.json`, the
  directory walk counts it (`src/strixlab/bundles.py:597-600` and `:225-231`). `Collector.Export`
  proves that the published directory verifies if and only if the manifest still fits;
  `FullBundleFails` is a run, filled with portable blobs, where no manifest does.
- **An ordinary child can cause an integrity error.** The capsule protocol promises that ordinary
  child failures return a failed result (`src/strixlab/capsules.py:1073-1076`). A child that prints a
  control character, a terminal colour say, on its standard error makes publication fail, because the
  portable store refuses the text (`src/strixlab/evidence.py:1296-1312`): `ControlCharacter`. So does
  one that prints the next request there, because one blob would have two media types:
  `CrossPhaseConflict`. `Unlucky` runs both, and `CapsuleRun.RunProtocol` gives the exact condition.

## Model

| member | source | states |
|---|---|---|
| BuildJournal.BindingLifetime | src/strixlab/build_cache.py:1019-1051 | in every journal any history can leave, an event binds a canonical record exactly in the states that may, and each later event carries the same one |
| BuildJournal.NoReturnAfterPublication | src/strixlab/build_cache.py:1216-1312 | once an event binds a canonical record, no later event is in a state without one; vacant is never re-entered |
| BuildJournal.LegalAloneIsWeaker | src/strixlab/build_cache.py:506-532 | a journal the transition table and the chain check accept that re-enters vacant after a publication: the table alone does not give the previous row |
| BuildJournal.LegalPathAccepted | src/strixlab/build_cache.py:1114-1156 | every path of the transition table is accepted by the chain check |
| BuildJournal.AcceptedAppend | src/strixlab/build_cache.py:1114-1156 | appending the next linked, legal event to an accepted chain is accepted again |
| BuildJournal.JournalAccepted | src/strixlab/build_cache.py:1472-1611 | whatever crashed transitions left, the reconciled journal passes the chain check for the registry recovery promotes |
| BuildInvariant.AttestationSafety | src/strixlab/build_cache.py:765-798 | an attestation exists only over the canonical pair the journal binds and a successful finalized attempt whose result names it; cleaning, cleaned and rehydrating imply one |
| BuildSteps.TransitionCrashAtomic | src/strixlab/build_cache.py:1019-1061 | stopped at any disk step, a transition leaves a journal that loads as exactly the registry before it or the one after it |
| BuildSteps.TransitionKeeps | src/strixlab/build_cache.py:1019-1061 | from any disk that satisfies the invariant, every image of a transition satisfies it when the new state agrees with the other files |
| BuildSteps.LoadTolerates | src/strixlab/build_cache.py:1516-1611 | temps and orphan events left by any crash of this journal are tolerated by loading |
| BuildSteps.LoadKeeps | src/strixlab/build_cache.py:1486-1513 | loading promotes the orphan event and changes no other file |
| BuildSteps.CompletionRecovers | src/strixlab/build_cache.py:1178-1213 | completing an interrupted publication ends in present, or leaves the disk in a state that recovery handles again |
| BuildSteps.PublishingIsStaged | src/strixlab/build_cache.py:1979-2010 | while publishing, the staged record, evidence and owned root are there |
| BuildSteps.BoundPair | src/strixlab/build_cache.py:1315-1326 | a registry that binds a canonical record has the intact record and index pair |
| BuildCache.BuildCache.Write | src/strixlab/build_cache.py:1723-1743 | one disk step: all or nothing, and nothing once the budget is spent |
| BuildCache.BuildCache.LoadRegistry | src/strixlab/build_cache.py:1486-1497 | returns the reconciled registry, or raises exactly on a temp or orphan that is not the next link |
| BuildCache.BuildCache.VerifyEventChain | src/strixlab/build_cache.py:1114-1156 | accepts exactly the contiguous, linked, legal chain that ends in the registry |
| BuildCache.BuildCache.LoadVerifiedRegistry | src/strixlab/build_cache.py:1500-1513 | never raises on a journal that crashed transitions left, and returns what recovery promotes |
| BuildCache.BuildCache.Transition | src/strixlab/build_cache.py:1019-1061 | leaves one of the images a crash allows; completed, the journal is the old one plus the next event |
| BuildCache.BuildCache.PublishCanonical | src/strixlab/build_cache.py:1329-1390 | record before index, neither replaced; raises exactly when different content is there |
| BuildCache.BuildCache.RemoveTree | src/strixlab/build_cache.py:973-978 | removes an owned root piece by piece, any part of it first |
| BuildCache.BuildCache.Discard | src/strixlab/build_cache.py:1216-1312 | removes a root only when its owner marker equals the journal binding, then ends in cleaned when a canonical record is bound and in vacant otherwise |
| BuildCache.BuildCache.CompletePublishing | src/strixlab/build_cache.py:1178-1213 | publishes the staged record and marks present, at any crash point recoverable |
| BuildCache.BuildCache.FinishCleaning | src/strixlab/build_cache.py:896-935 | finishes an interrupted cleanup: the root is gone before the journal says cleaned |
| BuildCache.BuildCache.RecoverPublishing | src/strixlab/build_cache.py:1216-1312 | completes or discards an interrupted publication according to what is staged |
| BuildCache.BuildCache.RecoverIncomplete | src/strixlab/build_cache.py:1216-1312 | raises exactly when the root is blocked, with root, record, index and attestation untouched; otherwise, unless stopped, it ends in the one of vacant, cleaned and present its journal calls for, in the name of the same attempt |
| BuildCache.BuildCache.Lookup | src/strixlab/build_cache.py:343-394 | a hit means present with intact record, evidence and owned root of this identity; it needs no attestation exactly when one exists |
| BuildCache.BuildCache.LookupMaterialized | src/strixlab/build_cache.py:343-394 | classifies a recovered registry, and raises on an identity collision or a damaged pair |
| BuildCache.BuildCache.BeginMaterialization | src/strixlab/build_cache.py:396-404 | enters building from nothing or vacant, rehydrating from cleaned, and refuses everything else |
| BuildCache.BuildCache.BindRoot | src/strixlab/build_cache.py:406-422 | binds the attempt that is building to its root, once |
| BuildCache.BuildCache.PublishFresh | src/strixlab/build_cache.py:424-503 | a first publication ends present with exactly this record canonical |
| BuildCache.BuildCache.PublishRehydrated | src/strixlab/build_cache.py:424-503 | a rehydration keeps the canonical record and is refused unless identity and artifact set agree with it |
| BuildCache.BuildCache.Publish | src/strixlab/build_cache.py:424-503 | both publications, at every crash point within the invariant |
| BuildCache.BuildCache.InspectLocked | src/strixlab/build_cache.py:765-798 | succeeds exactly on a present or cleaned build whose canonical pair, evidence, root and attestation, if any, hold together, and reports what the journal and the files say |
| BuildCache.BuildCache.CleanupBuild | src/strixlab/build_cache.py:896-935 | refuses an unattested build and leaves it untouched; removes a root only when its owner marker equals the journal binding; completed, the build was inspectable and is cleaned without a root, in the name of the same attempt, and its canonical record survives |
| BuildCache.BuildCache.PublishBuildAttestation | src/strixlab/build_cache.py:1788-1842 | unless it is stopped, it succeeds exactly when the canonical pair and its producer are intact, the attestor is a successful finalized attempt whose result names the record, and no other attestation is there; it never replaces one |
| BuildDriver.BeginAttempt | src/strixlab/builds.py:921-982 | every unfinished attempt stays as it is or is closed as interrupted with exactly its own files; completed or refused, all of them are closed, and a completed begin leaves only the fresh attempt unfinished; the build is not touched |
| BuildDriver.FinalizeAttempt | src/strixlab/builds.py:712-815 | in one step the unfinished attempt becomes its record with this outcome and its evidence; raises exactly when it is not unfinished |
| BuildDriver.BuildRoot | src/strixlab/cmake_build.py:978-1085 | between begin and bind the new root is unbound: a crash there leaves a state whose recovery fails closed; it succeeds exactly when making, marking, building and checking the root do, and then the root is at the given inode, marked as this attempt's and holds the capture |
| BuildDriver.Materialize | src/strixlab/cmake_build.py:975-1107 | begin, bind, build and publish in this order; unless stopped, it succeeds exactly when the tools do and a rehydration reaches the canonical artifact set; on failure the own root is discarded, and recovery is blocked exactly when the root was made and not marked |
| BuildDriver.ReuseHit | src/strixlab/cmake_build.py:942-974 | a hit is reused exactly when nothing drifted and the root still rehashes to what the canonical record says; inspections are not repeated |
| BuildDriver.Obtain | src/strixlab/cmake_build.py:938-1107 | unless it is stopped, a build is obtained exactly when recovery is not blocked and then a miss is built, a cleaned build of this identity is rebuilt to the same artifact set, or a present one rehashes as the canonical record says; what it hands out is determined |
| BuildDriver.RecordSuccess | src/strixlab/cmake_build.py:1108-1126 | finalizes success with the result that names the canonical record |
| BuildDriver.Finish | src/strixlab/cmake_build.py:1108-1142 | finalize, then attest: the attestation is last |
| BuildDriver.Attest | src/strixlab/cmake_build.py:1128-1142 | after success is recorded, attests what this attempt built or completed and nothing else; with no attempt unfinished it is never refused |
| BuildDriver.Leave | src/strixlab/builds.py:956-982 | an obtained build is finished; otherwise the attempt is closed as failed, without a build and with exactly the files it had |
| BuildDriver.ExecuteBuild | src/strixlab/cmake_build.py:850-1146 | unless it is stopped, it completes exactly when the attempt is new and the build can be obtained, with the expected canonical build and class, its root at the given inode; completed, the canonical pair is intact, its own success record names it and an authentic attestation exists; completed or raised, no attempt is unfinished and each one that was is closed as interrupted with its own files; raised with a new attempt, that attempt is closed as failed without build and result, and the build is blocked for later invocations exactly when it was before or this one made the root and failed to mark it |
| BuildDriver.RunHistory | src/strixlab/cmake_build.py:850-1142 | over every history of crashed and completed builds, cleanups and inspections of one build no record, index, attestation or attempt record is ever lost or changed; at its end an attestation is authentic, cleaning, cleaned and rehydrating imply one, and present is sound |
| BuildDriver.HitSurvivesIffSameObservations | src/strixlab/cmake_build.py:585-637 | a hit survives revalidation if and only if the materialization rehashes to what the canonical record rehashes to: artifact set, CMake cache, compile database and capture tools; inspections may differ |
| BuildReuse.Rehydrated | src/strixlab/build_cache.py:424-503 | a build, its cleanup and a rehydration with the same artifact set, none of them stopped, always end present, attested and bound to the first record, with the evidence of the second capture |
| BuildReuse.ReuseRehydrated | src/strixlab/cmake_build.py:942-974 | a later invocation that is not stopped reuses that build if and only if the second capture rehashes as the first one; differing inspections do not matter |
| BuildReuse.RehydratedDiskSound | src/strixlab/build_cache.py:396-503 | the disk such a run ends with, spelled out transition by transition, satisfies the invariant |
| BuildReuse.RehydratedHitIsRefused | src/strixlab/cmake_build.py:945-974 | on that disk lookup reports an attested hit, and revalidation refuses it whenever the captures rehash differently |
| BuildReuse.UnmarkedRootBlocks | src/strixlab/cmake_build.py:978-1102 | a failure between making a root and writing its marker closes the attempt as failed, and every later invocation of the build, however many and whatever they meet, fails too |
| AttemptModel.AdvancesTransitive | src/strixlab/builds.py:464-482 | progress of an attempt composes: the durable outcome, the record and the index digest never change once set, written evidence stays as it is, and so do the owner and the inode |
| AttemptModel.LinkedAppend | src/strixlab/builds.py:420-438 | a linked event list stays linked when the next event is appended |
| AttemptStore.AttemptStore.Write | src/strixlab/builds.py:266-273 | one disk step of an attempt or the index |
| AttemptStore.AttemptStore.Transition | src/strixlab/builds.py:464-482 | projection first, event second: the chain lags the projection by at most one event |
| AttemptStore.AttemptStore.ReconcileMissingEvent | src/strixlab/builds.py:441-461 | adds exactly the missing last event, and raises on any other gap |
| AttemptStore.AttemptStore.ValidateEventChain | src/strixlab/builds.py:420-438 | accepts exactly the linked chain that ends in the registry |
| AttemptStore.AttemptStore.ValidateAttemptRoot | src/strixlab/builds.py:584-602 | returns the reconciled root, without raising on what a crash left; all it ever writes is the one event the journal was behind by |
| AttemptStore.AttemptStore.EnsureFinalizing | src/strixlab/builds.py:712-760 | makes the outcome durable and notes it in the index, or keeps the one that is durable already |
| AttemptStore.AttemptStore.EnsureRecord | src/strixlab/builds.py:712-815 | publishes the record of the finalizing root once; an existing record must be of the same content |
| AttemptStore.AttemptStore.TearDown | src/strixlab/builds.py:790-815 | removes the mutable root only after the index names the verified record |
| AttemptStore.AttemptStore.FinalizeAttempt | src/strixlab/builds.py:712-815 | ends with one immutable record that holds exactly the evidence of the root, a torn-down index entry with its digest and the durable outcome; refused exactly for another outcome than the durable one; at every crash point the evidence is in the root or in the indexed record |
| AttemptStore.AttemptStore.RemovePreallocationOrphans | src/strixlab/builds.py:676-709 | removes only roots that were never allocated |
| AttemptStore.AttemptStore.RecoverStaleAttempts | src/strixlab/builds.py:834-866 | finalizes every attempt whose owner is gone, with exactly its evidence: as interrupted unless an outcome is durable, which is kept; an attempt of a live owner keeps everything but gains the one event its journal may be behind by |
| AttemptStore.AttemptStore.RecoverIndexTeardowns | src/strixlab/builds.py:869-912 | finishes every teardown whose record the index already names |
| AttemptStore.AttemptStore.Allocate | src/strixlab/builds.py:533-581 | the new attempt holds exactly the given owner, device and inode in a durable registry, its first event and its index entry, and nothing else; stopped, any registry it left is the same one; no other attempt is touched |
| AttemptStore.AttemptStore.BeginBuildAttempt | src/strixlab/builds.py:922-982 | yields, with a durable registry of exactly the given owner, device and inode, only when every earlier registered attempt is closed: one record, a torn-down entry with its digest, no root; while an attempt of a live owner is unclosed it never yields and leaves that attempt as it was |
| AttemptSession.BuildAttemptSession.WriteEvidence | src/strixlab/builds.py:176-183 | writes a file exactly once; raises exactly for reserved or existing paths |
| AttemptSession.BuildAttemptSession.MarkActive | src/strixlab/builds.py:193-203 | root first, then index; raises exactly when active already |
| AttemptSession.BuildAttemptSession.Finalize | src/strixlab/builds.py:205-216 | closes the attempt with this outcome and exactly its evidence; a success or reuse without a build is refused |
| AttemptSession.BuildAttemptSession.Leave | src/strixlab/builds.py:957-982 | also after a step failed part-way: a durable outcome is kept and finished, an attempt without one is closed as failed with the failure noted in its evidence, one whose root is gone is torn down; raises exactly when an earlier leave stopped after noting the failure |
| AttemptSession.BuildAttemptSession.Close | src/strixlab/builds.py:712-815 | finishes an attempt with the outcome its durable registry allows, whatever its state |
| AttemptSession.RunAttempt | src/strixlab/builds.py:922-982 | one attempt from allocation to closure, stopped or failed anywhere; completed, its record names the process and the inode it was allocated with |
| AttemptSession.BeginWhileLive | src/strixlab/builds.py:834-866 | begin an attempt, let its caller do anything short of closing it, and begin another one from a process that sees the first owner alive: the second is never begun, and the first keeps its registry, its outcome and its evidence |
| AttemptSession.StaysSettled | src/strixlab/builds.py:712-815 | a closed attempt stays as it is through every later attempt |
| AttemptSession.RunHistory | src/strixlab/builds.py:834-982 | every history of crashed, failed and completed attempts of a recipe keeps the invariant of root, record and index, and every attempt only moves forward from each point to each later one |
| AttemptSession.OutcomesStay | src/strixlab/builds.py:712-912 | in every history the outcome, the record and the closure of an attempt never change once they are durable, and its owner and inode never change at all |
| Checksums.ParseChecksums | src/strixlab/evidence.py:1637-1661 | accepts exactly the canonical files and returns what they declare |
| Checksums.ChecksumLines | src/strixlab/evidence.py:1578-1583 | prints every file once, in the byte order of its path |
| Checksums.RoundTrip | src/strixlab/evidence.py:1578-1661 | what is printed parses back to the same map if and only if no path holds a character at which lines break |
| Checksums.PrintInjective | src/strixlab/evidence.py:1578-1661 | under that condition one printed file stands for one map |
| Checksums.DeclaredUnbroken | src/strixlab/evidence.py:1648-1657 | no parsed path ever holds such a character |
| PortableModel.LoadEntries | src/strixlab/evidence.py:1422-1444 | accepts exactly entries numbered without gap, in policy, with distinct paths, intact blobs and one media type per blob |
| PortableModel.RequireSingleMedia | src/strixlab/evidence.py:1447-1454 | accepts exactly when equal blobs have equal media types |
| PortableModel.AggregateSize | src/strixlab/evidence.py:1187-1192 | the size of all referenced blobs, each counted once |
| PortableModel.ExtendedKeeps | src/strixlab/evidence.py:1159-1206 | committing an admitted next entry keeps numbering, distinct paths, single media types and the limits |
| PortableModel.ReconciledKeeps | src/strixlab/evidence.py:1490-1530 | recovery keeps the committed entries and exactly their blobs, and recovering again changes nothing |
| RunModel.ValidateEventChain | src/strixlab/evidence.py:475-508 | accepts exactly the linked, legal chain that projects onto the status |
| RunModel.VerifyEventChain | src/strixlab/evidence.py:916-933 | accepts exactly a directory that holds this chain and nothing else |
| RunModel.ChainShape | src/strixlab/evidence.py:475-508 | every accepted chain is allocated, perhaps active, and ended by its only terminal event; no other event has an outcome or a reason |
| RunModel.VerifyFinalizedRecord | src/strixlab/evidence.py:1675-1730 | accepts exactly a terminal record of this run with matching manifests and chain, manifests and checksums small enough to be read, and checksums that cover its files and can be read back |
| RunModel.FinalVerifies | src/strixlab/evidence.py:1675-1743 | what finalization publishes passes that check exactly when no evidence path breaks the line it is printed on and manifests and checksums are within the read limit |
| RunModel.ReadableMeans | src/strixlab/evidence.py:1578-1661 | the printed checksum file of a tree parses back to the digests it was printed from exactly when no evidence path breaks a line |
| RunModel.ListingBytes | src/strixlab/evidence.py:514-528 | computes how long the checksum file of a tree is, which decides whether it can be read |
| RunModel.StepTransitive | src/strixlab/evidence.py:1845-1896 | steps compose: evidence is kept and the final record is settled from the durable terminal event on |
| RunModel.EventCommitted | src/strixlab/evidence.py:789-801 | committing a linked event keeps every earlier event and the invariant |
| RunModel.ChecksumsCommitted | src/strixlab/evidence.py:1623-1628 | the checksums of a clean terminal tree make it the final tree of its terminal event |
| RunModel.RecordPublished | src/strixlab/evidence.py:1879-1885 | publishing the record of a final tree is a step |
| RunModel.IndexPublished | src/strixlab/evidence.py:1746-1752 | naming the record in the index is a step |
| RunModel.Removable | src/strixlab/evidence.py:1755-1815 | once the index names the record, any change to the active tree is a step, and before that none is |
| RunStore.RunStore.PublishEvent | src/strixlab/evidence.py:789-801 | event before projection, each through a temp; stopped anywhere the event is durable or not, with at most one temp more, and nothing but events, status and their temps changes |
| RunStore.RunStore.PublishStatus | src/strixlab/evidence.py:564-584 | replaces the projection atomically |
| RunStore.RunStore.ReconcileControlTemps | src/strixlab/evidence.py:1586-1620 | raises exactly on a stray or repeated temp, and otherwise leaves none |
| RunStore.RunStore.RecoverPortable | src/strixlab/evidence.py:1490-1572 | raises exactly on a repeated, torn or divergent temp, and otherwise leaves the committed entries with exactly their blobs |
| RunStore.RunStore.EnsureChecksums | src/strixlab/evidence.py:1623-1634 | raises only on an evidence path that is not run-relative or a checksum file beyond the read limit; otherwise leaves the final tree, and checksums that are there always match |
| RunStore.RunStore.Conclude | src/strixlab/evidence.py:1879-1896 | publishes the record, then verifies it: raises exactly when it cannot be read back, leaving the record unindexed and the active tree whole; otherwise indexes it and tears down |
| RunStore.RunStore.TeardownActive | src/strixlab/evidence.py:1755-1831 | removes the active tree piece by piece, bound to the indexed inode, touching neither record nor index |
| RunStore.RunStore.FinishFromIndex | src/strixlab/evidence.py:1845-1866 | never raises once the index exists, and leaves record and index alone |
| RunStore.RunStore.CompleteFinalization | src/strixlab/evidence.py:1869-1896 | raises exactly when temps block it, an evidence path cannot be printed and read back, or a manifest or the checksum file exceeds the read limit; completed, the record is the final form of the tree and the index is its index |
| RunStore.RunStore.ReconcileEventTemp | src/strixlab/evidence.py:862-913 | raises exactly on a torn temp, and otherwise removes it |
| RunStore.RunStore.RequiredStatus | src/strixlab/evidence.py:831-946 | adopts the orphan event and verifies the chain; raises exactly on a torn event temp |
| RunStore.RunStore.Recover | src/strixlab/evidence.py:2008-2033 | raises exactly when the tree is not recoverable; otherwise a live unfinished run is left alone and any other ends with the record of its own durable terminal event, or as interrupted |
| RunStore.RunStore.Interrupt | src/strixlab/evidence.py:2022-2033 | closes a dead run with an interrupted terminal event of this time |
| RunSession.OneCrashRecovers | src/strixlab/evidence.py:1586-1634 | with at most one writer temp, and no torn or stray one, recovery succeeds exactly when every evidence path can be printed and read back and manifests and checksums are within the read limit |
| RunSession.CrashedWrite | src/strixlab/evidence.py:553-561 | a session that stops while it writes a path leaves a tree that can be finalized exactly when the path is nested, at most 233 bytes long, breaks no line, and the listing with the temp is within the read limit |
| RunSession.BrokenPathBlocks | src/strixlab/evidence.py:289-312 | a path holding U+2028 is accepted, and a run with evidence under such a path can never be finalized |
| RunSession.LargeFilesBlock | src/strixlab/evidence.py:514-528 | a run whose manifests or checksum file exceed the read limit can never be finalized |
| TempPaths.TempRelative | src/strixlab/evidence.py:553-561 | the writer temp beside a run-relative path is run-relative exactly when it is within 255 bytes, and breaks lines exactly when the path does |
| RunSession.TornBlocks | src/strixlab/evidence.py:862-913 | a torn event temp, a stray root temp or two status temps block recovery |
| RunSession.CrashesChangeNothing | src/strixlab/evidence.py:1869-2033 | from a durable terminal event on, whatever crashes and recoveries follow, the record that results is the final form of the tree as it was, closed by that event |
| RunSession.BeginRun | src/strixlab/evidence.py:964-1105 | in every outcome the run holds each manifest in its own file, bound by its descriptor with its inode, no evidence and no portable entry; completed, the session is active and the journal is exactly the allocation and then the activation; stopped, at most one temp is left |
| RunSession.RunSession.WriteEvidence | src/strixlab/evidence.py:1145-1157 | adds exactly this file; raises exactly when the path is not run-relative, goes through a file, or is a file or directory already; stopped, it leaves at most its own temp |
| RunSession.RunSession.WritePortable | src/strixlab/evidence.py:1159-1206 | adds exactly the next entry and its blob; refuses exactly what policy, path, media or limits forbid; stopped, no entry is committed and nothing but temps and the blob is new |
| RunSession.RunSession.Check | src/strixlab/evidence.py:1164-1195 | decides exactly whether an entry is acceptable |
| RunSession.RunSession.Finalize | src/strixlab/evidence.py:1214-1233 | raises exactly when an evidence path breaks a line or a manifest or the checksum file exceeds the read limit; otherwise, unless the process stops, the record is the tree closed by this very outcome, and the index names it |
| RunSession.RunHistory | src/strixlab/evidence.py:1111-2033 | over any writes, crash and recoveries: every acknowledged write is in the evidence the disk holds, and nothing durable is lost |
| BundleModel.SharedMembersAgree | src/strixlab/bundles.py:335-382 | two accepted bundles of one record agree on every file they share |
| BundleModel.ControlsPresent | src/strixlab/bundles.py:385-448 | every accepted bundle holds all control files, the checksums included |
| BundleModel.SameEvents | src/strixlab/bundles.py:410-423 | two accepted bundles of one record hold the same whole event chain |
| BundleModel.BlobRange | src/strixlab/bundles.py:451-532 | an accepted bundle holds exactly the blobs its entries reference |
| BundleModel.EntryRange | src/strixlab/bundles.py:494-532 | its portable entries are numbered from one without a gap |
| BundleModel.OneExtendsTheOther | src/strixlab/bundles.py:273-382 | of two accepted bundles of one record, one contains the other, and they differ only in portable entries and their blobs |
| Bundles.CheckMembers | src/strixlab/bundles.py:293-318 | accepts exactly when declarations and files match one to one |
| Bundles.VerifyEvents | src/strixlab/bundles.py:410-423 | accepts exactly the contiguous chain the status names |
| Bundles.AuthenticatedEntries | src/strixlab/bundles.py:494-532 | returns the portable entries, or nothing exactly when they are malformed, out of policy, gapped or conflicting |
| Bundles.VerifyChecksums | src/strixlab/bundles.py:437-448 | accepts exactly checksums that cover the record with its digests |
| Bundles.VerifyMembers | src/strixlab/bundles.py:351-382 | accepts exactly when every member is the record's file, of its class, and exactly the referenced blobs are there |
| Bundles.VerifySnapshot | src/strixlab/bundles.py:273-382 | accepts exactly the acceptable snapshots |
| Bundles.WalkAndRead | src/strixlab/bundles.py:193-237 | in whatever order the directory is read, accepts exactly those within the limits |
| Bundles.VerifyBundle | src/strixlab/bundles.py:240-270 | accepts exactly the acceptable directories |
| BundleExport.Storable | src/strixlab/evidence.py:1578-1583 | every verified final tree has a record directory that stores it, so the statements about exports are about every finalized run |
| BundleExport.Collector.CollectMembers | src/strixlab/bundles.py:572-603 | collects exactly the allowlisted files of a finalized record, unless the limits forbid it |
| BundleExport.Collector.Complete | src/strixlab/bundles.py:538-569 | what is collected from a finalized record is always an acceptable bundle |
| BundleExport.Collector.Export | src/strixlab/bundles.py:538-569 | every finalized record within the limits exports with its own run, outcome and record manifest, and the exported directory verifies if and only if its manifest still fits the limits |
| FullBundle.FullBundleFails | src/strixlab/bundles.py:193-237 | for every choice of small manifests and small structured files there is a run whose portable blobs, as write_portable admits them, fill the aggregate limit together with the other members: it is exported, and no bundle manifest fits |
| FullBundle.WrittenSound | src/strixlab/evidence.py:1159-1206 | the four portable entries of that run are admitted one after the other |
| CampaignModel.SamePhases | src/strixlab/campaigns.py:346-376 | a saved state stays loadable and accounted while its running phase progresses or closes |
| CampaignModel.ReserveKeeps | src/strixlab/campaigns.py:607-622 | an admissible reservation within the budget keeps ledger, gates and counts |
| CampaignModel.RunAccounted | src/strixlab/campaigns.py:534-547 | a justified execution of the running phase is accounted to its slots and to no other phase |
| CampaignModel.ObjectiveSets | src/strixlab/campaigns.py:480-486 | a comparison meets the objective exactly when every objective case improves and is never reported otherwise, and only objective cases drop below the margin |
| CampaignModel.MoreCases | src/strixlab/campaigns.py:480-486 | leaving out protected cases never turns a met objective into an unmet one |
| Campaigns.CampaignController.Checkpoint | src/strixlab/campaigns.py:194-198 | saves the amended running phase atomically |
| Campaigns.CampaignController.Prepare | src/strixlab/campaigns.py:450-477 | the first build linked by a phase is the one it made |
| Campaigns.CampaignController.EnsureBaseline | src/strixlab/campaigns.py:498-511 | the baseline is made once and kept |
| Campaigns.CampaignController.ScreenedCandidate | src/strixlab/campaigns.py:514-523 | a confirmation links exactly the build its screening made |
| Campaigns.CampaignController.MeasureArm | src/strixlab/campaigns.py:535-559 | one execution on the build of its arm, with an id no earlier evidence links; when no tool fails it is neither refused nor failed |
| Campaigns.CampaignController.MeasureArms | src/strixlab/campaigns.py:526-561 | all arms in order, all ids different, so the later independence check cannot fail |
| Campaigns.CampaignController.CompareArms | src/strixlab/campaigns.py:562-594 | baseline runs are compared with candidate runs, no run twice, and the decision is what the comparisons support |
| Campaigns.CampaignController.ExecutePhase | src/strixlab/campaigns.py:489-594 | a verdict rests on every reserved execution, differing tokens on every one too, a failed suite on at least one; when no tool fails all reserved executions are made and give an answer |
| Campaigns.CampaignController.RunPhase | src/strixlab/campaigns.py:597-644 | reserves durably before any side effect; refuses exactly when the budget does not cover the phase; a failure is recorded with a stage that fits the executions made |
| Campaigns.CampaignController.SpendPending | src/strixlab/campaigns.py:656-669 | interrupted work is spent, never replayed; the campaign stops exactly when it was the calibration |
| Campaigns.SettledMeans | src/strixlab/campaigns.py:597-708 | the status of an ended campaign is what its phases call for: interrupted exactly after an interrupted calibration, blocked exactly after one that closed without an inconclusive verdict, completed exactly when every candidate is evaluated behind an inconclusive one, out of budget otherwise, and then the next phase of the plan does not fit |
| Campaigns.CalibrationUsedUp | src/strixlab/campaigns.py:597-644 | a first resume in which no tool fails has executed both arms of the calibration |
| Campaigns.CampaignController.Evaluate | src/strixlab/campaigns.py:686-704 | screens once, and confirms once exactly when the screening passed |
| Campaigns.CampaignController.Resume | src/strixlab/campaigns.py:647-708 | a resume without drift that is not stopped ends in the terminal status its phases call for, and leaves the calibration out only when it does not fit; when no tool fails, every phase it reserves gives an answer and every slot it reserves is used; terminal campaigns are left alone |
| Campaigns.CampaignController.RunHistory | src/strixlab/campaigns.py:346-708 | over any number of stopped and completed resumes every saved state loads and is accounted, and an ended campaign has the status its phases call for |
| Campaigns.CampaignSafety | src/strixlab/campaigns.py:346-708 | executions never exceed the budget nor a phase its slots; screening follows an inconclusive calibration; a confirmation measures exactly the build of a screening that met the objective |
| CapsuleModel.ReasonDetermined | src/strixlab/capsules.py:362-458 | two valid results with the same recorded evidence have the same reason and status |
| CapsuleModel.PassedMeans | src/strixlab/capsules.py:362-458 | a valid passed result has three accepted phases and, coordinate by coordinate, the described ones, all correct |
| CapsuleModel.ProjectionOk | src/strixlab/capsules.py:285-316 | the projection of a truthful child passes its validator |
| CapsuleModel.AcceptedOnce | src/strixlab/capsules.py:861-972 | an accepted answer repeats its whole request, and is accepted for no other |
| CapsuleModel.NoReplay | src/strixlab/capsules.py:861-972 | an answer of one run of the protocol is accepted in no other run: identity, earlier answer and scenario would have to be the same |
| Capsules.CapsuleRun.PublishAll | src/strixlab/capsules.py:839-858 | fails exactly when the portable store refuses a file: control characters, a path that is there, a blob under another media type, or a limit; what was published before stays |
| Capsules.CapsuleRun.ExecutePhase | src/strixlab/capsules.py:861-972 | the phase record is the one the child amounts to; without drift it raises exactly when the store refuses one of the files of the phase |
| Capsules.CapsuleRun.RunProtocol | src/strixlab/capsules.py:1059-1234 | returns the result the three children amount to and publishes exactly its evidence, the result last; without drift it raises exactly when protocol evidence is there already or the store refuses one of these files |
| Capsules.TerminalSound | src/strixlab/capsules.py:362-458 | whatever the children do, that result passes its validators, its requests are chained, and it passed exactly when all three accept, cover the described coordinates in order and every check holds |
| Capsules.PhaseConsistent | src/strixlab/capsules.py:899-929 | the evidence of one phase never conflicts with itself |
| Capsules.UnsafeStaysHidden | src/strixlab/capsules.py:899-929 | what is published of a child does not depend on a stream that is not safe to show |
| Capsules.EvidencePaths | src/strixlab/capsules.py:861-1234 | all files of a run have different paths, all in the protocol directory |
| Capsules.OnlyContentRefuses | src/strixlab/capsules.py:839-858 | so on a run without protocol evidence a file is refused for its characters, its media type or the limits alone |
| Capsules.CrossPhaseConflict | src/strixlab/capsules.py:918-929 | an accepted child that prints the next request, which it can compute from its own answer, on its standard error makes publication fail, whatever is in the store |
| Capsules.ControlCharacter | src/strixlab/capsules.py:839-858 | so does a child that prints a control character, such as a terminal colour, on its standard error |
| Capsules.Unlucky | src/strixlab/capsules.py:1059-1234 | two concrete runs of the protocol whose first child is accepted and which raise an integrity error without any drift |
| Encodings.SequenceInjective | src/strixlab/build_identity.py:80-81 | a counted sequence can be read back in one way, also when more bytes follow |
| Encodings.ScalarInjective | src/strixlab/build_identity.py:128-135 | a configured value is determined by its encoding, its kind included |
| Encodings.LengthFrameInjective | src/strixlab/source_identity.py:34-48 | a frame determines its domain and fields |
| Encodings.EncodeInjective | src/strixlab/build_identity.py:138-147 | UTF-8 bytes determine the text |
| Encodings.BigEndianValue | src/strixlab/source_identity.py:26-32 | a packed number that fits is bytes, and reads back as that number, most significant byte first |
| Identity.ValidatedEntries | src/strixlab/build_identity.py:105-125 | accepts exactly distinct, well-formed names and values, and the expected set of names |
| Identity.OrderedUnique | src/strixlab/build_identity.py:138-147 | items whose key tells them apart have one sorted arrangement |
| Identity.ListingInjective | src/strixlab/build_identity.py:138-147 | listings are equal exactly when they list the same items, in whatever order |
| Identity.MappingInjective | src/strixlab/build_identity.py:138-147 | mapping frames are equal exactly when the entries are the same |
| Identity.RecipeIdentity | src/strixlab/build_identity.py:195-254 | two recipes have one preimage exactly when they are the same up to order |
| Identity.BuildIdentity | src/strixlab/build_identity.py:257-328 | two builds have one preimage exactly when recipe, tools, selections and environment agree |
| Identity.ArtifactSetIdentity | src/strixlab/build_identity.py:341-400 | two artifact sets have one preimage exactly when artifacts and selections agree |
| Identity.DomainsSeparate | src/strixlab/build_identity.py:195-400 | a recipe, a build and an artifact set never have the same preimage |
| Prefixes.NormalizePrefixPath | src/strixlab/build_identity.py:150-172 | finds the one longest prefix if there is one, and prefix plus remainder is the path again |
| Prefixes.NormalizationInjective | src/strixlab/build_identity.py:150-172 | equal paths and only those normalize alike |
| Prefixes.AmbiguousMeans | src/strixlab/build_identity.py:164-169 | a matched path is refused exactly when another name declares the directory of its longest match |
| Closure.InitialArtifacts | src/strixlab/build_artifacts.py:434-467 | the outputs with their targets, or an error exactly when one is missing or not of the formats its target type allows |
| Closure.ClosedContains | src/strixlab/build_artifacts.py:181-211 | whatever holds the outputs and is closed under dependencies holds everything reachable |
| Closure.Worklist.Step | src/strixlab/build_artifacts.py:181-211 | one round keeps the worklist sound and tracked, and shrinks what is left |
| Closure.CaptureArtifacts | src/strixlab/build_artifacts.py:149-255 | terminates; succeeds exactly when everything reachable is usable, every output has a format its target allows, and the CMake cache and the inspecting tools are there; records exactly the reachable files, marks no output a runtime dependency, inspects each ELF file once, and every output fits its target: archives for static libraries alone, no program or shared library for an object library |
| Closure.SharedOutput | src/strixlab/build_artifacts.py:452-467 | two targets that name one file agree on whether it is an archive and whether it is an object file |
| Closure.VerifyCapture | src/strixlab/build_artifacts.py:258-316 | accepts exactly when every captured file, the CMake cache, the compile database and the inspecting tools are as recorded |
| Closure.VerifiesIffUnchanged | src/strixlab/build_artifacts.py:258-316 | the unchanged root verifies, and another one exactly when everything reachable, the CMake cache, the compile database and the tools are as they were |
| Statistics.PercentilesAgree | src/strixlab/capsule_comparison.py:1293-1305 | the two percentile implementations agree on every input |
| Statistics.PercentileBounds | src/strixlab/judge.py:298-307 | a percentile lies between its neighbouring order statistics |
| Statistics.PercentileMonotone | src/strixlab/judge.py:298-307 | percentiles grow with p |
| Statistics.MeanBounds | src/strixlab/judge.py:338-339 | a mean lies between the bounds of its values |
| Statistics.BootstrapInterval | src/strixlab/judge.py:319-340 | whatever the draws, low and high are the 2.5 and 97.5 percentiles of the replicate means, low is at most high, and both lie within any bounds of the deltas |
| Statistics.MedianIsMiddle | src/strixlab/judge.py:392-393 | the median of the sorted values is their middle by count: halfway between the least and the greatest value that has at least half of the values on either side |
| Statistics.MiddleUnique | src/strixlab/judge.py:392-393 | there is one such middle |
| Statistics.Noise | src/strixlab/judge.py:372-393 | the noise is 1.4826 times the middle of the distances of the logs from their middle |
| Statistics.VerdictsAgree | src/strixlab/capsule_comparison.py:168-175 | the capsule verdict raises exactly on a reversed pair; on an interval it never does and equals the judge's |
| Statistics.OverallMeans | src/strixlab/judge.py:131-142 | the overall verdict is a single kind exactly when every case has it |
| Statistics.DeltaSigns | src/strixlab/judge.py:372-390 | the signs of the paired deltas bound effect and interval |
| Statistics.CompareCase | src/strixlab/judge.py:343-414 | accepts exactly comparable samples; means, effect, interval and noise are those of the samples, the effect the mean of the paired log differences, and they decide the verdict; identical arms are inconclusive, uniformly faster ones never a regression, uniformly slower ones never an improvement |

## Left out

What the model takes as given:

- File descriptors, locks held by `flock`, modes, ownership, inode races and `fsync`: a file operation either happens or does not. The locks make each component sequential; other processes act between operations.
- SHA-256 and canonical JSON bytes: a digest is the value it was taken of, and parsing gives back what was written. Sizes of encoded files are arbitrary numbers.
- Secret redaction and the content policy of portable payloads, with the reserved control paths of run evidence and paths below a control file: the model writes evidence that the policy lets through.
- Clocks, tokens and nonces: arbitrary values, fresh where the code draws them at random. Owner liveness is a set or a flag.

Build cache and driver:

- The environment projection, the snapshot lease and the model hash cache around a build, foreign-build journals and the inert `current.json` temps, which loading ignores.
- Completeness of the provenance inventory, and the recipe-index entry through which `publish_build_attestation` and inspection find an attempt record: attempt records are found by attempt id. The two-store consistency of that index is what AttemptStore proves.
- The driver's calls to tools are one arbitrary success or failure at each point between disk steps.
- BuildCache.BuildCache.RecoverIncomplete: does not model an upgrade of `ldd` or `readelf` between a build and its recovery, because the capture tools count as part of what rehashing a root reads; the same holds for `Lookup` and `InspectLocked`. Closure.VerifyCapture compares the tools themselves.

Build attempts:

- `shutil.rmtree` of an attempt root is one step there. For the build roots of the cache it is not: any part of the tree may be gone first.
- Temps that a crashed writer leaves inside an attempt root, which later become part of the record inventory: `records.py` is not part of this model.

Runs and bundles:

- Empty directories in the evidence, and the file system's own limit on the length of a name.
- Reconciliation of allocation staging directories and the loop of `recover_runs` over many runs: one run is allocated, crashed and recovered any number of times.
- The walk over executable modes, and how the destination directory of an export is staged and renamed: publication is one step.

Campaigns:

- Creation and freezing of a plan, patch-scope checks and the rendered report. Drift of plan or sources is an arbitrary answer at each place where the controller asks.

Capsules:

- Memory-file and spool handling, and the limits on opaque payload sizes. What the protocol itself writes (requests, process projections, results) passes the secret scan.
- CapsuleModel.ProjectionOk: assumes a truthful child (`Truthful`), which is what the process runner reports about exit code, timeout and truncation; `process.py` is not part of this model.

Identity:

- Patterns of names and paths beyond distinctness and emptiness checks stated in `Identity.ValidatedEntries`. Floating-point values are the hexadecimal text they are encoded as, and digests are 32 bytes.
- Encodings.SequenceInjective: asks that counts fit into 32 bits and lengths into 64 (`SequenceFits`), since `struct.pack` raises otherwise.

Artifacts:

- Parsing of the CMake File API, of `readelf` and of `ldd` output, and capability probes: an inspection returns the dependencies of a file.

Statistics:

- Rounding of floating-point arithmetic: values are real numbers. The logarithm is any strictly increasing function, and the exponentials behind the percentage fields of the reports are not modelled.
- The hash that draws a resample index: any function into the valid indices.

Also not modelled: the admission projections of comparisons, `doctor`, `machine`, the git boundary and the command line.
