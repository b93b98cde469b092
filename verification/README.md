# agentctl: anchoring protocol and payment guard, verified

A Dafny model of the parts of agentctl whose guarantees hold over whole runs rather than
single calls, with machine-checked proofs. `dafny verify dfyconfig.toml` checks all of it.

**A. Audit anchoring.** A contract keeps, per operator, an append-only chain of Merkle roots
and checks inclusion proofs (`Merkle`, `AuditBatch`, `AnchorContract`). A logger tags local
rows with the batch that anchors them, releases batches the chain lost and rebuilds proofs
(`AuditStore`, `Sweep`, `AuditLog`). `AnchorProtocol` is the same logic as a step system: any
number of logger processes under one operator key, each with its own table and one cycle in
flight, interleaved with crashes, reorgs, foreign commits and a durable height that moves.
`AnchorDurability`, `AnchorRecovery` and `LogCompleteness` prove what holds over every run;
`LogVerifier` is the command-line verification whose clean report `LogCompleteness` explains.

**B. The payment guard.** Policy rules over a sliding spend memory, payee bindings, verdict
aggregation, the circuit breaker, and rebuilding all of it from the log (`EntryList`,
`PolicyRules`, `PolicyState`, `PayeeRegistry`, `BreakerLogic`, `GuardLogic`). `GuardLedger`
follows one process, `GuardRuns` whole lives with restarts and deaths, `GuardRestarts` and
`GuardPayees` what a restart keeps and forgets of spend and payees, `GuardBreakers` what it does
to the breaker, `GuardLosses` what a lost answer adds. `RebuildTotals` is what a rebuild adds up
to when the log is honest, `TamperRebuild` when its settlement cells were edited, readably or not,
and `TamperColumns` when other columns were.

**C. Three bounded kernels.** The request limiter (`RateLimit`), the isolation forest
(`IsolationTrees`) and the moving-average baseline (`EwmaBaseline`).

Inductive proofs are written out, with Dafny's own induction turned off there. Objects that
change in place are classes; each method's postcondition equates the new state
with a function of the old one, and the theorems are about those functions.

## Where the code promises less than it seems to

The model follows the code. Each point is stated as a theorem, with its exact condition where one
exists.

1. *Waiting for durability compares block heights only* (`packages/core/src/audit/anchor.ts:242-263`).
   A commit that a reorg drops during the wait is tagged all the same, and one failed read of the
   durable block ends the wait (`packages/core/src/audit/anchor.ts:251-255`; the runs without
   `waits`). Tagged rows match the
   chain at all times if and only if each flush waited and no reorg cut its commit between
   landing and tagging (`DurableIffWaited`, and without exception `DurableIffTagsTrue`;
   concrete run in `WaitingOnHeightIsNotEnough`).
2. *A batch that landed but was never tagged stays an orphan.* Reconciling only looks at batches
   the table knows (`packages/core/src/audit/logger.ts:212-234`), so after a crash between
   landing and tagging, or a commit by another process under the same key, the rows are
   anchored again elsewhere. A tick brings back a complete log if and only if the rows left
   tagged rebuild every batch of the chain (`TickCompletesIff`), and once a durable batch is
   unclaimed, at any point of any run from deployment, no whole-log verification is ever clean
   again (`OrphanForever`; the run that makes one is `CrashOrphansFirstBatch`).
3. *Reconciling releases more than the stale batch.* Rows sharing an index with a stale root are
   released too, even if their own root is on chain (`ReconcileExact`).
4. *A restart forgets spend the log does not attribute.* Within one process the settlements the
   facilitator answered never exceed a cap, whatever agent id a request carries (`OneProcessCap`).
   A payment it settled although its answer was lost is forgotten at once, for the attempt throws;
   such payments are the allowance beyond the cap (`OneProcessCapWithLosses`,
   `LostAnswerDoublesCap`). A payment that settled but was not recorded, or was requested under an
   agent id other than the policy's (recorded under the request's, read back under the policy's:
   `packages/core/src/audit/logger.ts:146-162`, `packages/core/src/index.ts:197`), is forgotten by
   a restart, which forgets nothing if and only if there is no such payment in the last day
   (`RestartForgetsNothingIff`, for lives whose records carry the time of the payment).
   `CapsHoldOverLives` allows for exactly those payments, `CapNeverExceeded` has the plain bound
   for windows without them, and `LostRecordDoublesCap` and `ForeignAgentIdForgotten` are the runs
   that break it.
5. *An edited log can loosen a rebuilt window.* The rebuild counts a tampered row as settled, but a
   row whose cells it cannot parse, or hash once parsed, is an error of the whole rebuild, which
   the guard swallows (`packages/core/src/index.ts:242-249`): it starts cold, with every window
   empty and the day's cap free again (`UnreadableRowStartsCold`, `ColdStartFreesCap`). One
   settlement cell such as `{"success":false,"txHash":5}` does it. And a blocked request with a
   negative amount is logged (`NegativeRequestIsLogged`) and, once its settlement is edited,
   counted with its sign. So over all edits of settlement cells, readable or not, the rebuild is
   conservative if and only if the agent settled nothing in the last day and has no unsettled row
   with a negative amount there (`ConservativeIff`); a payment count, if and only if the agent
   settled nothing there (`CountsConservativeIff`); and while every cell stays readable the second
   half of the condition is the exact one (`ReadableConservativeIff`). The time and agent columns
   lie outside the row hash, though the anchored leaf covers them; over edits of those, and of
   all these cells together, the exact conditions are in `MovedConservativeIff` and
   `EditsConservativeIff`. An edited settlement also makes a recipient who was never paid a known
   one, unless every idle row names somebody who was (`NoStrangerKnownIff`).
6. *A restart can thaw a frozen agent, or freeze one a human released.* The running breaker hears
   every decision (`packages/core/src/index.ts:464-473`); the rebuilt one reads the intact rows
   of the policy's own agent id (`packages/core/src/index.ts:197`, `packages/core/src/index.ts:221`).
   It comes back open if and only if those inside the window reach a threshold
   (`RestartedBreakerIff`), and it counts what the running one counts if and only if, of each
   kind, as many decisions in the window are missing from those rows (their attempt threw, died,
   named another agent id or precedes the lookback) as are among them although a reset or cooldown had cleared them
   (`RestartKeepsCountsIff`). `ForeignBlockThaws`, `ThrownEscalationThaws` and `ResetUndone` are
   runs in which they differ. Even when the log holds exactly what the breaker heard, a breaker
   without cooldown is thawed once the decisions have left the window (`RestartThawsIff`).
7. *Payee bindings are rebuilt from the lookback only* (`RebuiltBindings`), so a restart that reads
   back none of a host's payments leaves it open to any payee (`RestartUnbindsIff`), and the next
   one is paid (`RestartAdmitsSecondPayee`).
8. *A limiter with a limit of zero lets the first request of each window through* (`LimiterBound`,
   whose quota is the larger of one and the limit). Its true worst case is one less than two
   quotas per window length (`BoundIsReached`).
9. *A failed read in the middle of a batch counts the entries before it twice* (`CheckEntries`), and
   *a verification without a contract address or an operator exits with zero, having checked
   nothing* (`VerifyEntries`).

## Assumptions

- Hashes are terms of a free datatype, ordered by an abstract injective value. Leaves (double
  hashed tuples), inner nodes, entry hashes and zero are different terms.
- The tree library puts exactly the leaves it is given, in whatever order, at the tips of a tree no
  higher than balanced, and proves the leaf of an index by the siblings on the way up from where it
  put it (`TreeLibrary`). Everything about anchoring holds for any such library.
- Anchoring on one store goes through `anchorTick`, whose flag stops overlap: a process has one
  cycle in flight. Other processes, each with its own store, may interleave freely.
- A process never records two entries with the same leaf, since a leaf carries no row id (`NoTwin`).
- Recipients are EVM addresses; addresses and hosts are ASCII, so lower-casing is per character.
- Reorgs never reach the durable height, and a new commit's block lies above it.
- The clock is positive and never runs backwards; `execute` calls on one guard do not overlap;
  storage does not throw outside a rebuild. The human's answer, the facilitator's, the behavioural score and checks,
  the intent check, URL parsing, address checking and every clock reading are inputs.
- A log to be proved entry by entry has at most 2^64 rows, the contract's limit of 64 proof elements.
- A rebuild looks back at least a day; the default is thirty (`packages/core/src/index.ts:105`).
- Floating-point numbers are reals.

## Model

| member | source | states |
|---|---|---|
| Merkle.ProofSound | contracts/src/AuditAnchor.sol:122-131 | For a tree of any size and shape over leaf hashes and any proof array, a leaf hash that folds to the root is one of the tree's leaves; inner nodes and roots never pass as leaves |
| Merkle.TipHasProof | contracts/src/AuditAnchor.sol:122-131 | Every leaf of a tree of any shape has a proof, the siblings on its way up, that folds to the root |
| Merkle.PathIsShort | contracts/src/AuditAnchor.sol:43-47 | Such a proof is no longer than the tree is high |
| Merkle.RootDeterminesTips | contracts/src/AuditAnchor.sol:126-130 | The root of any tree over leaf hashes determines the multiset of its leaves |
| Merkle.RootDeterminesLeaves | packages/core/src/audit/merkle.ts:75-87 | The root any library gives over leaf hashes determines their multiset, whatever their number, and is never zero |
| Merkle.BuiltProof | packages/core/src/audit/merkle.ts:96-99 | In whatever tree a library makes, its proof for every index folds from that leaf to the root and is no longer than a balanced tree is high |
| Merkle.PromoteOddFaithful | contracts/test/AuditAnchor.t.sol:317-337 | The promote-odd construction keeps every leaf and is balanced, as a library must |
| Merkle.PromoteOddRoot | contracts/test/AuditAnchor.t.sol:317-337 | Its level-by-level computation yields the root of that tree |
| Merkle.ProofFoldsToRoot | contracts/test/AuditAnchor.t.sol:339-355 | For every number of leaves and every index, the extracted proof folds from that leaf to the builder's root |
| Merkle.ProofLength | contracts/src/AuditAnchor.sol:43-47 | With at most 2^k leaves an extracted proof has at most k elements, so an honest proof of up to 2^64 leaves fits the limit |
| Merkle.ProvableIffMember | contracts/src/AuditAnchor.sol:111-132 | Some proof within the limit folds a leaf hash to the root, of any library, if and only if that leaf was built in |
| Merkle.FillNextLevel | contracts/test/AuditAnchor.t.sol:326-330 | The in-place loop fills exactly the next level: neighbours paired, an odd last hash promoted |
| Merkle.LevelCount | contracts/test/AuditAnchor.t.sol:322-325 | At most 2^k leaves need at most k + 1 levels, so 2^31 leaves never overrun the scratch array |
| Merkle.BuildTree | contracts/test/AuditAnchor.t.sol:317-337 | The loop over the scratch array returns all levels and the root of the recursive definition, without overrunning its 32 slots |
| Merkle.ExtractProof | contracts/test/AuditAnchor.t.sol:339-355 | The loop over levels returns exactly the sibling path of the leaf |
| AuditBatch.SameLeafSameContent | packages/core/src/audit/logger.ts:35-80 | Two entries have the same leaf if and only if context, agent, time and every audited field agree |
| AuditBatch.MerkleAuditBatch.AddEntry | packages/core/src/audit/merkle.ts:67-70 | Appends the entry's tuple and never leaves a stale cached tree behind |
| AuditBatch.MerkleAuditBatch.Build | packages/core/src/audit/merkle.ts:76-81 | The cached tree is always the library's over the values added so far: their leaves at its tips, balanced |
| AuditBatch.MerkleAuditBatch.Root | packages/core/src/audit/merkle.ts:83-87 | Zero exactly when empty, otherwise the root of that tree, which determines the leaves added |
| AuditBatch.MerkleAuditBatch.LeafAt | packages/core/src/audit/merkle.ts:90-94 | The leaf hash of the value at an index in range, none outside |
| AuditBatch.MerkleAuditBatch.ProofAt | packages/core/src/audit/merkle.ts:96-99 | The library's proof for an index in range, the siblings on the way up from where it put that value, within the balanced length; none outside |
| AuditBatch.MerkleAuditBatch.Verify | packages/core/src/audit/merkle.ts:102-106 | Accepts exactly the indices of added values |
| AnchorContract.AuditAnchor.CommitBatch | contracts/src/AuditAnchor.sol:79-102 | Each of the three refusals leaves storage untouched; acceptance appends one batch for the sender, moves their head and returns its index; storage stays well formed |
| AnchorContract.AuditAnchor.VerifyEntry | contracts/src/AuditAnchor.sol:111-132 | The proof walk decides exactly: batch exists, proof within 64 elements, leaf folds to the stored root |
| AnchorContract.VerifiedMeansCommitted | contracts/src/AuditAnchor.sol:111-164 | Acceptance against the root of any tree of leaves means that leaf, with this chain id, contract and operator, is among them |
| AnchorContract.NoReplayAcrossContexts | contracts/src/AuditAnchor.sol:134-164 | The root of any tree over leaves of one chain id, contract and operator accepts entries of no other context |
| AnchorContract.CommitStep | contracts/src/AuditAnchor.sol:79-102 | A call is accepted exactly when root and count are non-zero and the named head is the last root; it then emits its own index and head, and touches nobody else |
| AnchorContract.ChainsOnlyGrow | contracts/test/AuditAnchor.invariants.t.sol:35-106 | Over any calls by any senders head stays the last root, no stored root or count is zero, and stored batches are only ever appended to |
| AnchorContract.StrangersUntouched | contracts/test/AuditAnchor.invariants.t.sol:35-106 | An operator who never calls keeps batches and head unchanged through any calls of others |
| AnchorContract.LinearHistory | contracts/src/AuditAnchor.sol:83-101 | Over any calls, an operator's accepted commits are one unforked line: the events are exactly the stored batches in order, each naming the root just before it |
| AnchorContract.AnnounceAllAt | contracts/src/AuditAnchor.sol:92-101 | Reads that line off by position: the k-th event carries index, root, count and previous root of the k-th batch |
| AnchorContract.VerifiedForever | contracts/src/AuditAnchor.sol:111-132 | An entry that verified once verifies after any further calls by anyone |
| AuditStore.SelectedIff | packages/core/src/audit/store.ts:132-200 | A query returns an entry exactly when some row satisfies its condition |
| AuditStore.PairsComplete | packages/core/src/audit/store.ts:176-184 | The distinct anchored pairs are exactly the index and root combinations found in rows |
| AuditStore.SelectByIds | packages/core/src/audit/store.ts:165-174 | Updating by the ids of an earlier selection reaches the selected rows and no others |
| AuditStore.ReleaseCount | packages/core/src/audit/store.ts:186-193 | The untagged rows grow by exactly the rows released |
| AuditStore.SqliteAuditStore.Insert | packages/core/src/audit/store.ts:114-130 | Adds one untagged row at the end, or changes nothing if the id is taken |
| AuditStore.SqliteAuditStore.GetById | packages/core/src/audit/store.ts:151-156 | Finds the row of an id if and only if there is one |
| AuditStore.SqliteAuditStore.MarkBatched | packages/core/src/audit/store.ts:165-174 | One update per id equals tagging all rows with those ids at once, entries unchanged |
| AuditStore.SqliteAuditStore.ReleaseBatch | packages/core/src/audit/store.ts:186-193 | Un-tags exactly the rows of an index and reports how many they were |
| Sweep.SweepEffect | packages/core/src/audit/logger.ts:220-234 | The loop's net effect on each row, independent of the order of the pairs |
| Sweep.ReconcileExact | packages/core/src/audit/logger.ts:220-234 | Rows that still name a root match the chain; a row lost its tag if and only if some root recorded at its index is not there; the reported count is the number of rows un-tagged |
| AnchorProtocol.RecordKeeps | packages/core/src/audit/logger.ts:146-162 | A record made during a cycle never joins the rows in flight and disturbs no group |
| AnchorProtocol.ReleaseKeeps | packages/core/src/audit/store.ts:186-193 | A release keeps the table invariant: remaining groups still rebuild their roots |
| AnchorProtocol.SnapshotOk | packages/core/src/audit/logger.ts:182-191 | The snapshot's ids, root and count are those of the rows still untagged |
| AnchorProtocol.GroupRootFixesLeaves | packages/core/src/audit/logger.ts:188-192 | A group's root determines its leaves and is never zero, whatever the tree library |
| AnchorProtocol.GroupsDiffer | packages/core/src/audit/logger.ts:182-210 | Disjoint groups of rows never have the same root, because roots determine leaves |
| AnchorProtocol.TagKeeps | packages/core/src/audit/logger.ts:203-208 | Tagging the rows in flight forms a group that rebuilds its root and merges with no existing one, even at a reused index |
| AnchorProtocol.StepKeepsProcs | packages/core/src/audit/logger.ts:182-234 | Every step of anyone keeps the table and flight invariant of every process |
| AnchorProtocol.GroupsAlwaysRebuild | packages/core/src/audit/logger.ts:182-234 | Over every run of records, flushes, crashes, reorgs and foreign commits, rows sharing an index and a root rebuild exactly that root |
| AnchorDurability.DurableIffTagsTrue | packages/core/src/audit/anchor.ts:242-263 | Over any run, the chain durably holds the root of every tagged row at its index at all times if and only if every flush tags while its batch is still durably there |
| AnchorDurability.DurableIffWaited | packages/core/src/audit/anchor.ts:205-263 | The same in terms of events: absent another commit of a dropped root at its old index, if and only if each tagging flush waited until its block was durable and no reorg cut its commit between landing and tagging |
| AnchorDurability.EveryRunFromDeployment | packages/core/src/audit/logger.ts:182-234 | Both halves of the crash and reorg invariant, with both exact conditions, for every run from an empty deployment with any number of processes |
| AnchorDurability.FalseTagShows | packages/core/src/audit/logger.ts:203-208 | A single tag set after its batch has gone leaves a row naming a batch the chain does not hold |
| AnchorDurability.SparedRunsStayDurable | packages/core/src/audit/anchor.ts:242-263 | If every flush waits and reorgs spare commits in flight, every tag is true |
| AnchorDurability.WaitingOnHeightIsNotEnough | packages/core/src/audit/anchor.ts:237-263 | The run in which a dropped commit is tagged: the row names a batch of an empty chain |
| AnchorDurability.CommitExtendsOrGivesUp | packages/core/src/audit/anchor.ts:205-234 | A submitted commit extends exactly the head it named and remembers the index of its own root, or changes neither chain nor table |
| AnchorDurability.NoIndexTaggedTwice | packages/core/src/audit/logger.ts:193-208 | With any number of racing processes and foreign commits and no reorg, every flush tagged the index where its root sits, and no two flushes tagged one index |
| AnchorRecovery.GroupProofFolds | packages/core/src/audit/logger.ts:250-276 | The library's proof of each entry of a group of at most 2^64 folds to the group's root within the contract's limit |
| AnchorRecovery.MatchedIsProvable | packages/core/src/audit/logger.ts:250-276 | When tags match the chain, a batch holds one group and each of its rebuilt proofs is accepted by the contract |
| AnchorRecovery.FlushCompletes | packages/core/src/audit/logger.ts:182-210 | An undisturbed flush tags every untagged row with the new batch and leaves earlier tags and the chain's past alone |
| AnchorRecovery.TickRecovers | packages/core/src/audit/logger.ts:302-317 | From any reachable table and any chain, one tick leaves every row tagged, matching and provable; the released count is the number of rows un-tagged |
| AnchorRecovery.SweepSteps | packages/core/src/audit/logger.ts:220-234 | Stepwise reconciling without interference is the sweep |
| AnchorRecovery.FlushSteps | packages/core/src/audit/logger.ts:182-210 | Stepwise flushing without interference is the flush |
| AnchorRecovery.RecoveryAfterAnyRun | packages/core/src/audit/logger.ts:302-317 | After any run of any processes with crashes, reorgs and foreign commits, one undisturbed tick of a process leaves all its rows tagged and accepted by the contract as the chain then stands |
| AuditLog.AuditLogger.Record | packages/core/src/audit/logger.ts:146-162 | Appends one untagged row whose stored hash matches its contents and whose agent id is the request's |
| AuditLog.AuditLogger.BuildBatch | packages/core/src/audit/logger.ts:188-192 | The batch holds the leaf of every row, in order, from re-derived hashes |
| AuditLog.AuditLogger.Flush | packages/core/src/audit/logger.ts:182-210 | Table, chain and result for each way the commit call can end; other operators untouched; throws exactly when the commit fails with rows pending, and returns a batch exactly when it succeeds with rows pending |
| AuditLog.AuditLogger.Reconcile | packages/core/src/audit/logger.ts:220-234 | The loop releases, lists and counts exactly what the sweep does |
| AuditLog.AuditLogger.AnchorTick | packages/core/src/audit/logger.ts:302-317 | Overlap does nothing; otherwise table and chain are those of a reconcile followed by a flush, for each way its commit call can end; errors are swallowed, the flag is always restored; with a commit that succeeds, the outcome is that of the recovery theorem |
| AuditLog.AuditLogger.ProofsForBatch | packages/core/src/audit/logger.ts:250-276 | One proof per row of the batch under the row's id and nothing else, from a tree over the rows as they are now |
| AuditLog.IndexFiles | packages/core/src/audit/logger.ts:257-275 | Distinct ids overwrite nothing: the map has as many proofs as rows, each under its own id |
| LogVerifier.GroupByBatch | packages/cli/src/cli.ts:539-552 | Each listed entry is filed under its row's batch in listing order or counted as not anchored, none twice |
| LogVerifier.CheckEntry | packages/cli/src/cli.ts:586-616 | Exactly one counter moves; an entry of the batch is verified if and only if it is unedited, does not postdate its batch and the rebuilt root is the committed one; a problem is named exactly for the first two |
| LogVerifier.CheckEntries | packages/cli/src/cli.ts:586-623 | Silent if and only if every entry is fine, the root matches and every proof read was answered; an unanswered read abandons the batch, whose earlier entries are then counted exactly twice |
| LogVerifier.CheckMembership | packages/cli/src/cli.ts:569-584 | Silent if and only if the rebuilt root and the number of rows are the committed ones |
| LogVerifier.CheckBatch | packages/cli/src/cli.ts:559-624 | Nothing is reported if and only if the batch and its proofs were readable, it is on chain, rebuilds root and count and every listed entry is fine; every entry is counted once, and those before the first unanswered proof once more |
| LogVerifier.CheckAllBatches | packages/cli/src/cli.ts:559-624 | The ascending loop reports nothing if and only if every batch holding a listed entry is clean, and counts every anchored entry once, and those a failed proof read abandoned once more |
| LogVerifier.TotalCommitted | packages/cli/src/cli.ts:631-634 | The loop totals the committed counts of the whole chain |
| LogVerifier.VerifyEntries | packages/cli/src/cli.ts:521-658 | Unconfigured, the exit code is zero and nothing is verified; on the wrong chain it is two; otherwise the four counters add up to the listed entries plus those a failed proof read counted again, and the exit code is zero if and only if nothing is wrong with any batch holding a listed entry and, without an agent filter, the committed total was read and equals the anchored entries |
| LogCompleteness.CountsBelow | packages/cli/src/cli.ts:626-641 | With matching batch counts and no zero counts, the totals agree only if no batch is missing |
| LogCompleteness.CleanIffComplete | packages/cli/src/cli.ts:559-644 | A whole-log verification is clean if and only if every committed batch is rebuilt by local rows, no row claims another, and no anchored row was edited or postdates its batch |
| LogCompleteness.CleanMeansNothingMissing | packages/cli/src/cli.ts:559-644 | After a clean whole-log verification the local rows of every batch ever committed carry exactly the multiset of leaves under its root |
| LogCompleteness.ExitZeroMeansComplete | packages/cli/src/cli.ts:626-657 | The same from the verifier's own zero exit, whatever could not be read, using only the contract's invariant |
| LogCompleteness.DeletionNoticed | packages/cli/src/cli.ts:574-584 | Removing any one anchored row from a complete log makes the verification fail |
| LogCompleteness.NothingToReconcile | packages/core/src/audit/logger.ts:220-234 | With all tags matching, reconciling changes and reports nothing |
| LogCompleteness.TickCompletesIff | packages/core/src/audit/logger.ts:302-317 | From any reachable table and any chain, a tick leaves the log complete if and only if every batch of the chain is rebuilt by the rows the reconcile leaves tagged with it |
| LogCompleteness.FlushCompletesIff | packages/core/src/audit/logger.ts:182-210 | A flush over matching tags leaves the log complete if and only if every earlier batch was rebuilt |
| LogCompleteness.TickKeepsComplete | packages/core/src/audit/logger.ts:302-317 | With matching tags a tick leaves the log complete if and only if it was, so ticks keep a complete log complete and repair no gap |
| LogCompleteness.OrphanForever | packages/core/src/audit/logger.ts:212-234 | Once a durable batch is unclaimed, after any run from deployment, no continuation whatever makes a whole-log verification of that table clean |
| LogCompleteness.RunKeepsSound | packages/core/src/audit/store.ts:114-130 | No step of anyone lets two rows share an id or a zero count onto the chain |
| LogCompleteness.CrashAfterLandingOrphans | packages/core/src/audit/logger.ts:197-208 | A process that dies between its commit becoming durable and tagging leaves an orphan |
| LogCompleteness.CrashOrphansFirstBatch | packages/core/src/audit/logger.ts:197-208 | The run from deployment in which that happens |
| PolicyRules.HostEntryMatches | packages/core/src/policy/rules.ts:70-95 | A host entry permits a host ending in it if and only if what precedes is nothing or ends in a dot: subdomains, never lookalikes |
| PolicyRules.PathEntryMatches | packages/core/src/policy/rules.ts:78-95 | A URL that ends in the entry's host and begins with its path, less closing slashes, is permitted if and only if the host is it or a subdomain and the path goes on at a segment boundary or not at all |
| PolicyRules.PathEntryRefuses | packages/core/src/policy/rules.ts:78-95 | Any URL with another host or path is refused |
| PolicyRules.NormalizeExact | packages/core/src/policy/rules.ts:97-106 | The normalised list holds exactly the trimmed lower-case forms of the entries, as the runtime folds them, never a blank one |
| PolicyRules.HoursComplement | packages/core/src/policy/rules.ts:179-186 | Swapping distinct bounds allows exactly the other hours of the day, wrapped windows included |
| PolicyRules.RuleCheckKept | packages/core/src/policy/evaluator.ts:54-91 | No rule's check is lost from an evaluation, whatever the other rules |
| PolicyState.PolicyEvaluator.Evaluate | packages/core/src/policy/evaluator.ts:54-91 | The loop with its two counters yields the rules' checks in order, the escalation flag, and the coverage note exactly when caps exist and none targets the token |
| PolicyState.PolicyEvaluator.Observe | packages/core/src/policy/evaluator.ts:94-97 | Appends one live record at the observation time and the recipient; nothing else |
| PolicyState.PolicyEvaluator.Hydrate | packages/core/src/policy/evaluator.ts:114-128 | The replay loop: all recipients, marked records of the last day, stable order by time |
| PolicyState.AboveSort | packages/core/src/policy/evaluator.ts:126-140 | The final sort changes no windowed total |
| PayeeRegistry.BoundAllExact | packages/core/src/intent/registry.ts:37-58 | A seeded registry knows exactly the recipients its entries named for a host |
| PayeeRegistry.ResourceRegistry.Bind | packages/core/src/intent/registry.ts:37-43 | Adds one lower-cased recipient to the host of the URL, or nothing if it names none |
| PayeeRegistry.ResourceRegistry.Hydrate | packages/core/src/intent/registry.ts:56-58 | The loop binds every entry, on top of what was bound |
| PayeeRegistry.ResourceRegistry.Check | packages/core/src/intent/registry.ts:67-93 | Fails if and only if the URL names a host with known payees and the recipient is not among them, and then critically; reads only |
| BreakerLogic.BreakerRefinesFullHistory | packages/core/src/circuit-breaker.ts:38-62 | Over any operations in clock order the pruning breaker opens, closes and counts as one that keeps every event since the last reset; after a record its list is the window of that history |
| BreakerLogic.StepRefines | packages/core/src/circuit-breaker.ts:38-100 | Each single operation keeps that correspondence for every later window |
| BreakerLogic.ClosedMeansBelowThresholds | packages/core/src/circuit-breaker.ts:56-62 | With thresholds of at least one, closed implies every count is below its threshold, after any operations |
| BreakerLogic.OpenStaysOpen | packages/core/src/circuit-breaker.ts:38-49 | Once open, it stays open since the same instant until a reset or a look past the cooldown |
| BreakerLogic.ReplayKeepsAll | packages/core/src/circuit-breaker.ts:69-79 | Replaying events that lie inside the window at the replay time prunes nothing |
| BreakerLogic.RebuildClosedForm | packages/core/src/circuit-breaker.ts:69-79 | From entries not in the future, a fresh breaker is rebuilt open if and only if there are decisions inside the window and they reach a threshold; its counts are theirs |
| BreakerLogic.RestartThawsIff | packages/core/src/circuit-breaker.ts:64-79 | For a breaker without cooldown tripped by exactly the entries it is rebuilt from: it stays open to every look, and rebuilding closes it if and only if the decisions inside the window do not reach a threshold |
| BreakerLogic.RestartCanThaw | packages/core/src/circuit-breaker.ts:64-79 | In particular rebuilding closes it once every entry has left the window, whatever the thresholds |
| BreakerLogic.CircuitBreaker.Record | packages/core/src/circuit-breaker.ts:56-62 | Append, prune and trip as one step of the specification |
| BreakerLogic.CircuitBreaker.Prune | packages/core/src/circuit-breaker.ts:97-100 | Keeps exactly the events strictly after the cutoff, in order |
| BreakerLogic.CircuitBreaker.IsOpen | packages/core/src/circuit-breaker.ts:38-49 | Resets itself once the cooldown has passed and says whether it is open after that |
| BreakerLogic.CircuitBreaker.Reset | packages/core/src/circuit-breaker.ts:82-85 | Back to the fresh state |
| BreakerLogic.CircuitBreaker.CurrentCounts | packages/core/src/circuit-breaker.ts:88-95 | The counts over the window, which reading also prunes |
| BreakerLogic.CircuitBreaker.Hydrate | packages/core/src/circuit-breaker.ts:69-79 | The replay loop over the sorted entries inside the window |
| GuardLogic.AggregateIsMonotone | packages/core/src/index.ts:612-636 | More checks, a higher score or an escalating rule never soften a verdict |
| GuardLogic.AgentGuard.Evaluate | packages/core/src/index.ts:313-373 | Deciding executes nothing: only the breaker may change, by cooling down; frozen and malformed requests are blocked before any rule looks |
| GuardLogic.AgentGuard.RunGuard | packages/core/src/index.ts:464-479 | Feeds the breaker one event per attempt and allows exactly allow verdicts and approved escalations |
| GuardLogic.AgentGuard.ExecuteAttempt | packages/core/src/index.ts:379-419 | The whole new state and log of every outcome: declined, failed before an answer, answered without success, settled |
| GuardLogic.AgentGuard.Settle | packages/core/src/index.ts:409-413 | A settled payment advances memory, bindings and baseline together and leaves breaker and log alone |
| GuardLogic.AgentGuard.HydrateFromLog | packages/core/src/index.ts:195-250 | A fresh guard's whole rebuilt state from its log, with the clock read at each place: windows from settled and tampered rows, baseline and bindings from intact settled rows, breaker from intact rows; the count of tampered rows; and the cold state, with no count, if the store fails or any listed row cannot be read or hashed |
| GuardLogic.AgentGuard.Rehydrate | packages/core/src/index.ts:210-221 | Seeds memory, baseline, bindings and breaker of a cold guard from the sifted rows, which gives the rebuilt state |
| GuardLogic.Sift | packages/core/src/index.ts:204-208 | Gives up exactly if some row cannot be read; otherwise separates rows by whether the stored hash still matches, each list in order |
| GuardLedger.LedgerAgreement | packages/core/src/index.ts:379-419 | Over any attempts: one log entry per attempt that returned; memory, baseline and bindings gain exactly the settled payments; the settled log entries are those payments in the same order |
| GuardLedger.SettlingMatchesBinding | packages/core/src/intent/registry.ts:67-93 | A payment that settles, human-approved or not, names a payee its host already has, or the host had none |
| GuardLedger.OnePayeePerHost | packages/core/src/index.ts:354-362 | In any run that starts with a host unbound, all settled payments for it name one recipient |
| GuardLedger.KnownAfterRun | packages/core/src/intent/registry.ts:37-49 | A host's known payees after a run are those it started with and those settled payments named |
| GuardRuns.SettledObeysRules | packages/core/src/policy/rules.ts:36-200 | Every enforced rule holds of a payment that settles, human-approved escalations included: caps of every window, allowlists, rate limits, blocking counterparty and hour rules |
| GuardRuns.LiveKeeps | packages/core/src/index.ts:195-250 | Attempts, restarts and deaths before the record is written keep the memory covering all payments of the process and all attributed earlier ones, as far back as it can see, and the log all attributed ones |
| GuardRuns.NewPaymentFits | packages/core/src/policy/evaluator.ts:94-140 | A payment evaluated at one time and recorded at a later one fits every half-open window that contains it |
| GuardRuns.OneProcessCap | packages/core/src/policy/evaluator.ts:94-140 | Within one process, from any history its memory covers and whatever agent ids requests carry, no half-open window of an hour or day cap, or of a rate limit of any length, exceeds the rule's bound |
| GuardRuns.CapsHoldOverLives | packages/core/src/policy/evaluator.ts:94-140 | Over whole lives, in every half-open hour or day the spend in a capped token, and in every rate window of at most a day the number of payments, stays within the rule's bound plus what the last restart forgot: unattributed payments settled before it |
| GuardRuns.CapNeverExceeded | packages/core/src/policy/rules.ts:36-68 | From a first start no such window exceeds the rule's bound, restarts included, unless an attempt in that very window died unrecorded, or carried another agent id and a restart came after it |
| GuardRuns.SessionCapHolds | packages/core/src/policy/evaluator.ts:130-140 | The session cap bounds the total of all payments the running process settled since time zero; a restart starts over |
| GuardRestarts.RestartForgetsNothingIff | packages/core/src/index.ts:195-220 | After any punctual life with deaths, restarts and any agent ids, a rebuilt memory covers everything that really settled, in every window of at most a day, if and only if every payment of the last day was recorded under the guard's own agent id |
| GuardRestarts.RestartForgetsNothing | packages/core/src/index.ts:195-220 | That condition suffices without punctuality |
| GuardRestarts.RestartRefinesRunning | packages/core/src/policy/evaluator.ts:114-140 | If the log attributes what the running process settled in the last day, a rebuilt guard shows in every window of at most a day no less spend and no fewer payments than the running one, and exactly as much when log and observation times coincide |
| GuardRestarts.RestartRefinesRunningIff | packages/core/src/policy/evaluator.ts:114-140 | After any punctual life that condition is the exact one |
| GuardRestarts.RestartKnowsRecipients | packages/core/src/policy/evaluator.ts:114-128 | A rebuilt guard knows exactly the recipients of the agent's settled rows within its lookback, all of whom the running one knows |
| GuardRestarts.LostRecordDoublesCap | packages/core/src/index.ts:402-414 | A death between settlement and record lets the whole day cap be spent twice within a day |
| GuardRestarts.ForeignAgentIdForgotten | packages/core/src/index.ts:195-198 | A payment requested under another agent id is forgotten by a restart, and the whole cap settles again |
| GuardRestarts.ColdStartFreesCap | packages/core/src/index.ts:242-249 | Where an honest rebuild still shows spend in a day cap's window and refuses the whole cap, the guard that started cold over damaged rows settles it |
| GuardLosses.LostAnswerForgotten | packages/core/src/index.ts:402-414 | An attempt whose settlement call throws changes the breaker and nothing else |
| GuardLosses.OneProcessCapWithLosses | packages/core/src/index.ts:402-414 | Within one process all that moved in any window of a rolling rule stays within its bound plus what moved in that window without an answer, whichever of the attempts that threw those were |
| GuardLosses.CapsOverLivesWithLosses | packages/core/src/index.ts:402-414 | Over whole lives, within that and what the last restart forgot |
| GuardLosses.LostAnswerDoublesCap | packages/core/src/index.ts:402-414 | The allowance is needed: a run in which a lost answer lets one process move the whole day cap twice within a day |
| GuardPayees.RebuiltBindings | packages/core/src/index.ts:217-220 | A rebuilt registry knows exactly the payees of the agent's intact settled rows within the lookback |
| GuardPayees.RebuildKeepsBindings | packages/core/src/intent/registry.ts:37-58 | For a process whose settled payments were made under its own agent id and recorded within the lookback, the rebuild gives every host exactly the payees the running guard had |
| GuardPayees.OnePayeeOverLives | packages/core/src/intent/registry.ts:37-93 | From a first start, over any restarts and deaths, all settled payments for a host name one recipient, as long as each restart reads back at least one of the host's payments |
| GuardPayees.RestartUnbindsIff | packages/core/src/index.ts:217-220 | After any life, single-payee or not, a restart leaves a paid host unbound if and only if it reads back none of the host's payments |
| GuardPayees.LivesKeepNames | packages/core/src/index.ts:402-416 | Over any life from a first start the settled rows of the log are exactly the recorded payments |
| GuardPayees.RestartAdmitsSecondPayee | packages/core/src/intent/registry.ts:67-93 | The run that breaks it: a host paid under another agent id, a restart that reads nothing back, and a settled payment of the same host to somebody else |
| GuardBreakers.RestartedBreakerIff | packages/core/src/index.ts:195-221 | After any timely life with deaths, restarts, resets and any agent ids, a restarted guard's breaker is open if and only if the agent's intact rows it read back and that lie inside the window reach a threshold; its counts are theirs |
| GuardBreakers.RestartKeepsCountsIff | packages/core/src/index.ts:464-473 | After any punctual such life the rebuilt breaker counts what the running one counts if and only if, of each kind, as many decisions in the window are missing from the rows read back as are read back although cleared; so with nothing cleared, if and only if every decision that counts returned and was made under the guard's own agent id within the lookback |
| GuardBreakers.ForeignBlockThaws | packages/core/src/index.ts:197 | A block under another agent id freezes the guard, and a restart inside the window thaws it |
| GuardBreakers.ThrownEscalationThaws | packages/core/src/index.ts:396-416 | An approved escalation whose settlement throws freezes the guard, and a restart inside the window thaws it |
| GuardBreakers.ResetUndone | packages/core/src/index.ts:294-297 | A human reset is forgotten by a restart inside the window, which freezes the guard again |
| RebuildTotals.HydrateTotal | packages/core/src/index.ts:195-220 | With at least a day of lookback, every hour or day window after a rebuild totals exactly the agent's settled or tampered log rows in that window |
| RebuildTotals.HydrateSession | packages/core/src/policy/evaluator.ts:114-140 | Nothing rebuilt counts towards the session window |
| RebuildTotals.HydrateSeen | packages/core/src/policy/evaluator.ts:114-128 | A rebuilt guard knows exactly the recipients of settled or tampered rows in the lookback |
| TamperRebuild.ConservativeIff | packages/core/src/index.ts:200-249 | Over all edits of settlement cells, readable or not, all measures and all later windows, what a guard started over the log shows never shrinks if and only if the agent settled nothing in the last day and has no unsettled row with a negative amount there |
| TamperRebuild.CountsConservativeIff | packages/core/src/index.ts:200-249 | Payment counts never shrink over those edits if and only if the agent settled nothing in the last day |
| TamperRebuild.UnreadableRowStartsCold | packages/core/src/audit/logger.ts:46-60 | The break: one unreadable cell of one settled row of the last day, and the guard knows nothing, every total zero against a count of at least one |
| TamperRebuild.ReadableConservativeIff | packages/core/src/index.ts:200-216 | While every cell stays readable: the rebuilt total never shrinks if and only if the agent has no unsettled row with a negative amount in the last day |
| TamperRebuild.NegativeRowLoosens | packages/core/src/index.ts:212-216 | The break then: one blocked negative row edited to look settled frees exactly its amount |
| TamperRebuild.NegativeRequestIsLogged | packages/core/src/index.ts:379-395 | Executing a request with a negative amount blocks it and appends exactly such a row |
| TamperRebuild.NegativeRequestLoosens | packages/core/src/index.ts:200-216 | So one such request within a day of a restart makes the rebuild loosenable |
| TamperRebuild.ReadableCountsNeverLooser | packages/core/src/index.ts:200-216 | While every cell stays readable, payment counts never shrink under any such edit |
| TamperRebuild.NoStrangerKnownIff | packages/core/src/policy/evaluator.ts:114-128 | Over all edits of settlement cells no recipient becomes known that an honest rebuild would not know if and only if every unsettled row of the agent in the lookback names one some settled row there names too |
| TamperRebuild.EditOpensCounterparty | packages/core/src/policy/rules.ts:160-177 | The break: a rule that blocks new counterparties refuses a never-paid recipient after an honest rebuild and passes it after the edit |
| TamperRebuild.TrustedRowsReallySettled | packages/core/src/index.ts:217-220 | Every row an edited log feeds to baselines and bindings is one that really settled |
| TamperRebuild.BindingsOnlyShrink | packages/core/src/index.ts:217-220 | A log edited readably or not binds no host to an address it was not really paid at |
| TamperColumns.MovedConservativeIff | packages/core/src/audit/logger.ts:36-63 | Over all edits of the time and agent columns, all measures and all later windows, the rebuilt total never shrinks if and only if the agent settled nothing in the last day and no settled row of anybody is negative |
| TamperColumns.MovedRowLoosens | packages/core/src/audit/logger.ts:36-63 | The break: a settled row given to another agent stays intact and frees its amount, or one payment |
| TamperColumns.EditsConservativeIff | packages/core/src/index.ts:200-249 | Over all edits of settlement, time and agent cells together, readable or not, what a started guard shows never shrinks if and only if the agent settled nothing in the last day and no row of anybody, however old, carries a negative amount |
| TamperColumns.RequestEditLoosens | packages/core/src/index.ts:212-216 | With the request editable too any single row of any log can be rewritten to lower a total |
| RateLimit.LimiterBound | packages/server/src/index.ts:46-61 | Over any calls in clock order, per key, every half-open interval of the window's length lets through less than two quotas, and the counter in force has let through exactly its count, at most the quota |
| RateLimit.BoundIsReached | packages/server/src/index.ts:51-60 | For every limit and window above one there is a run in clock order that lets through exactly one less than two quotas in one window length |
| RateLimit.RateLimiter.Allow | packages/server/src/index.ts:51-60 | One step of the counter table: restart, refuse or count |
| IsolationTrees.BuildTree | packages/core/src/behavioral/forest.ts:49-83 | Whatever the generator draws, the tree stops exactly where it must, splits on features of the sample at values that leave someone on the right, and keeps to the depth limit |
| IsolationTrees.VaryingRanges | packages/core/src/behavioral/forest.ts:56-67 | Finds every feature that varies over the sample, with its attained extremes, and no constant one |
| IsolationTrees.Partition | packages/core/src/behavioral/forest.ts:70-73 | Each point goes to the side the later descent will send it to, in order |
| IsolationTrees.SizesSum | packages/core/src/behavioral/forest.ts:49-83 | Leaf sizes add up to the sample |
| IsolationTrees.SizeIsRouted | packages/core/src/behavioral/forest.ts:85-88 | Each leaf's size is the number of sample points whose descent ends there |
| IsolationTrees.PathLengthMeaning | packages/core/src/behavioral/forest.ts:85-88 | A point's path length is the number of turns it takes plus the correction for the sample points that take the very same turns |
| IsolationTrees.GrownDescribes | packages/core/src/behavioral/forest.ts:49-83 | Every tree the build may produce describes its sample and is no deeper than the limit |
| IsolationTrees.TreeBounds | packages/core/src/behavioral/forest.ts:94-102 | In every tree of a forest leaf sizes add up to the sample drawn and no path exceeds the depth limit |
| IsolationTrees.CeilLog2 | packages/core/src/behavioral/forest.ts:98 | The least depth whose power of two reaches the sample size |
| IsolationTrees.Subsample | packages/core/src/behavioral/forest.ts:39-47 | All points when they fit, otherwise exactly as many draws as asked, all from the data |
| IsolationTrees.IsolationForest.constructor | packages/core/src/behavioral/forest.ts:94-102 | As many trees as asked, each grown from a sample of the data down to the ceiling of the logarithm of its size |
| EwmaBaseline.BaselineBounds | packages/core/src/behavioral/baseline.ts:28-35 | For a weight between zero and one and any observations, the mean stays in their range and the variance between zero and the squared range |
| EwmaBaseline.Baseline.Update | packages/core/src/behavioral/baseline.ts:28-35 | Writes mean and variance of one feature and no other |
| EwmaBaseline.PushKeepsNewest | packages/core/src/behavioral/baseline.ts:45-57 | Push and shift keep exactly the newest entries up to the cap |
| EwmaBaseline.Baseline.RecordTimestamp | packages/core/src/behavioral/baseline.ts:45-48 | The stored times are the newest of all ever recorded |
| EwmaBaseline.Baseline.RecordVector | packages/core/src/behavioral/baseline.ts:54-57 | The stored vectors are the newest of all ever recorded |

## Left out

- AnchorRecovery.RecoveryAfterAnyRun: asks for an idle process and at most 2^64 rows, since a tick in flight must end first and the contract refuses longer proofs.
- BreakerLogic.RestartThawsIff: speaks of a breaker that heard exactly the entries it is rebuilt from; whole lives, where it hears more, are in GuardBreakers.
- GuardBreakers.RestartKeepsCountsIff: is for lives whose records carry the time of the decision; a record made later may fall on the other side of the window's edge.
- The tree library's own array layout and leaf order, beyond what any builder does.
- GuardRuns.CapsHoldOverLives: rate limits over more than a day are excluded where a restart comes in, because a rebuild keeps one day of records; within one process OneProcessCap has them.
- GuardRestarts.RestartForgetsNothingIff: the only-if half is for lives whose records carry the time the payment was observed; a record made later can make up for a forgotten payment.
- AnchorDurability.DurableIffWaited: speaks of runs in which nobody commits a dropped batch's root again at the index it was dropped from; DurableIffTagsTrue has no such condition.
- TamperRebuild.ConservativeIff: speaks of edits to settlement cells, with all rows intact and readable before; TamperColumns has the other columns. A cell of the request or decision that cannot be parsed starts the guard cold in the same way; one that can makes the row tampered, to be counted with the amount and token it then names (RequestEditLoosens).
- Rows that cannot be parsed, outside a rebuild: listing, flushing and proving throw on them.
- IsolationTrees.PathLengthMeaning: takes the path-length correction as an abstract function; logarithms and the power in the anomaly score are not modelled, nor is the seeded generator, for which any draws are allowed.
- EwmaBaseline.BaselineBounds: over reals; rounding and the square root in the z-score are not modelled.
- RPC clients, receipts and polling: only "commit returns the index of its own event or throws" and "durable blocks are not dropped" are kept.
- Keccak, ABI encoding, canonical JSON text, SQL and the Postgres store: symbolic hashes and one table.
- Rows with a batch index and no batch root, which an older schema can hold, are in the sweep and the tick but outside the table invariant of the protocol.
- A non-EVM recipient, whose leaf the encoder refuses, so that flushing throws.
- Direct `flush()` calls that overlap on one store, and overlapping `execute` calls on one guard.
- `guardedFetch` hooks, wallet adapters, the facilitator's HTTP, webhooks, tracing and rendering: I/O.
- Message and reason texts of checks and decisions.
- URL parsing, address checksums and the folding of text that need not be ASCII: given functions.
- The behavioural score and the language-model intent check: inputs of an attempt.
- Backtesting, which replays with the current clock.
- The Rust engine, whose forest repeats the one modelled here.
